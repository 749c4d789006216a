/** Reading back what export_bound writes. The reader recovers the
    vertices exactly (its (-x, z, y) undoes the writer's remapping), one
    material per block under its lower-cased name, and every triangle and
    quad with its clamped material index, provided the host accepts each
    face and no material name contains whitespace. */
module RoundTrip {
  import opened Text
  import opened MeshModel
  import opened ExportHelpers
  import opened BndExport
  import opened BndImport

  /** The faces a written file describes: the triangles and quads, in
      order, with their clamped material indices. */
  function ReadBackFaces(fs: seq<Face>): (r: seq<Face>)
    ensures |r| == TriQuadCount(fs)
  {
    if fs == [] then []
    else
      var f := fs[|fs| - 1];
      ReadBackFaces(fs[..|fs| - 1]) + (if IsTriOrQuad(f) then [Face(f.loop, ClampMaterial(f.material))] else [])
  }

  /** The material names a written file describes, as the reader stores them. */
  function LowerAll(names: seq<string>): (r: seq<string>)
    ensures |r| == |names|
  {
    seq(|names|, i requires 0 <= i < |names| => Lower(names[i]))
  }

  lemma LowerAllSnoc(names: seq<string>)
    requires names != []
    ensures LowerAll(names[..|names| - 1]) + [Lower(names[|names| - 1])] == LowerAll(names)
  {
  }

  /** The state the reader should reach on the file written for m. */
  function ReadBack(m: Mesh): ImportState {
    ImportState(m.verts, ReadBackFaces(m.faces), LowerAll(MaterialNames(m.slots)))
  }

  /** What the round trip needs of the mesh: the host accepts the faces
      read back (distinct vertices in range, no two faces over the same
      vertices), and every material name written is one field. */
  predicate WellFormed(m: Mesh) {
    Valid(ReadBack(m)) && forall k :: 0 <= k < |MaterialNames(m.slots)| ==> IsToken(MaterialNames(m.slots)[k])
  }

  predicate AllNoNewline(ls: seq<string>) {
    forall k :: 0 <= k < |ls| ==> NoNewline(ls[k])
  }

  // ------------------------------------------------------------------
  // The theorem

  /** Reading the text export_bound writes for a well-formed mesh gives
      back its vertices, its material names and its triangles and quads,
      and reading never stops early. */
  lemma ReadExported(m: Mesh)
    requires WellFormed(m)
    ensures ImportLines(Empty, Lines(BndText(m))) == Continue(ReadBack(m))
  {
    var names := MaterialNames(m.slots);
    var h := HeaderLines(m);
    var vl := VertexLines(m.verts);
    var ml := MaterialLines(names);
    var fl := FaceLines(m.faces);
    var s1 := Empty.(verts := m.verts);
    var s2 := s1.(materials := LowerAll(names));

    BndLinesNoNewline(m);
    LinesOfJoin(BndLines(m), "");
    assert JoinLines(BndLines(m)) + "" == BndText(m);
    assert Lines("") == [""];

    HeaderSkipped(Empty, m);
    ImportVertexLines(Empty, m.verts);
    assert Empty.verts + m.verts == m.verts;
    ImportLinesAppend(Empty, h, vl);
    BlankSkipped(s1);
    ImportLinesAppend(Empty, h + vl, [""]);
    ImportMaterialLines(s1, names);
    assert s1.materials + LowerAll(names) == LowerAll(names);
    ImportLinesAppend(Empty, h + vl + [""], ml);
    BlankSkipped(s2);
    ImportLinesAppend(Empty, h + vl + [""] + ml, [""]);
    assert s2.faces + ReadBackFaces(m.faces) == ReadBackFaces(m.faces);
    assert s2.(faces := s2.faces + ReadBackFaces(m.faces)) == ReadBack(m);
    ImportFaceLines(s2, m.faces);
    ImportLinesAppend(Empty, h + vl + [""] + ml + [""], fl);
    BlankSkipped(ReadBack(m));
    ImportLinesAppend(Empty, BndLines(m), [""]);
  }

  // ------------------------------------------------------------------
  // Sections

  /** A line with the keyword k, after optional leading whitespace, is
      skipped when k is none of the four keywords the reader acts on. */
  lemma KeyedLineSkipped(st: ImportState, w: string, k: string, rest: string)
    requires AllSpace(w) && NoUpper(w) && Field(k) && NoUpper(rest)
    requires k != "v" && k != "mtl" && k != "tri" && k != "quad"
    ensures Step(st, w + k + " " + rest) == Continue(st)
  {
    SplitStep(k, " ", rest);
    NoUpperConcat(w, k + " " + rest);
    assert w + k + " " + rest == w + (k + " " + rest);
    LowerOfNoUpper(w + k + " " + rest);
    SplitSpaces(w, k + " " + rest);
    LowerOfNoUpper(k + " " + rest);
  }

  lemma BlankSkipped(st: ImportState)
    ensures ImportLines(st, [""]) == Continue(st)
  {
    assert Split(Lower("")) == [];
  }

  /** Lines each of which is skipped leave the state as it is. */
  lemma {:induction false} AllSkipped(st: ImportState, ls: seq<string>)
    requires forall k :: 0 <= k < |ls| ==> Step(st, ls[k]) == Continue(st)
    ensures ImportLines(st, ls) == Continue(st)
    decreases |ls|
  {
    if ls != [] {
      assert forall k :: 0 <= k < |ls[1..]| ==> ls[1..][k] == ls[k + 1];
      AllSkipped(st, ls[1..]);
    }
  }

  /** The header is read past without effect. */
  lemma HeaderSkipped(st: ImportState, m: Mesh)
    ensures ImportLines(st, HeaderLines(m)) == Continue(st)
  {
    var h := HeaderLines(m);
    HeaderLiterals();
    HeaderFields();
    KeyedLineSkipped(st, "", "version:", "1.01");
    CountLineSkipped(st, "verts:", |m.verts|);
    CountLineSkipped(st, "materials:", |m.slots|);
    KeyedLineSkipped(st, "", "edges:", "0");
    CountLineSkipped(st, "polys:", |m.faces|);
    assert Split(Lower(h[5])) == [];
    AllSkipped(st, h);
  }

  lemma HeaderLiterals()
    ensures "version: 1.01" == "" + "version:" + " " + "1.01"
    ensures "edges: 0" == "" + "edges:" + " " + "0"
    ensures "verts: " == "verts:" + " " && "materials: " == "materials:" + " " && "polys: " == "polys:" + " "
    ensures NoUpper("1.01") && NoUpper("0") && AllSpace("") && NoUpper("")
  {
  }

  lemma HeaderFields()
    ensures Field("version:") && Field("edges:") && Field("verts:") && Field("materials:") && Field("polys:")
  {
    assert Field("version:");
    assert Field("edges:");
    assert Field("verts:");
    assert Field("materials:");
  }

  /** A header line giving a count. */
  lemma CountLineSkipped(st: ImportState, k: string, n: nat)
    requires Field(k) && k != "v" && k != "mtl" && k != "tri" && k != "quad"
    ensures Step(st, k + " " + NatToString(n)) == Continue(st)
  {
    LowerOfNoUpper(NatToString(n));
    KeyedLineSkipped(st, "", k, NatToString(n));
    assert "" + k == k;
  }

  /** One vertex line adds back the vertex it was written for. */
  lemma VertexLineReadBack(st: ImportState, v: Vec3)
    ensures Step(st, VertexLine(v)) == Continue(st.(verts := st.verts + [v]))
  {
    var f := Remap(v);
    VertexLineFields(v);
    ParseFormatCoord(f.x);
    ParseFormatCoord(f.y);
    ParseFormatCoord(f.z);
    var cmps := ["v", FormatCoord(f.x), FormatCoord(f.y), FormatCoord(f.z)];
    assert Step(st, VertexLine(v)) == VertexLineStep(st, cmps);
    VertexFieldsRead(st, cmps, f.x, f.y, f.z);
    assert Vec3(f.x, f.y, f.z) == f;
    RemapInvolutive(v);
  }

  lemma {:induction false} ImportVertexLines(st: ImportState, vs: seq<Vec3>)
    ensures ImportLines(st, VertexLines(vs)) == Continue(st.(verts := st.verts + vs))
    decreases |vs|
  {
    if vs == [] {
      AppendEmpty(st.verts);
    } else {
      var init := vs[..|vs| - 1];
      var v := vs[|vs| - 1];
      var s1 := st.(verts := st.verts + init);
      ImportVertexLines(st, init);
      ImportLinesAppend(st, VertexLines(init), [VertexLine(v)]);
      VertexLineReadBack(s1, v);
      SnocAssoc(st.verts, vs);
    }
  }

  /** The "mtl" line of a material block adds its name, lower-cased. */
  lemma MaterialLineReadBack(st: ImportState, name: string)
    requires IsToken(name)
    ensures Step(st, "mtl " + name + " {") == Continue(st.(materials := st.materials + [Lower(name)]))
  {
    var ln := Lower(name);
    var line := "mtl " + name + " {";
    LowerToken(name);
    LowerConcat("mtl " + name, " {");
    LowerConcat("mtl ", name);
    LowerOfNoUpper("mtl ");
    LowerOfNoUpper(" {");
    assert Lower(line) == "mtl" + " " + (ln + " " + "{");
    SplitLast("{");
    SplitStep(ln, " ", "{");
    SplitStep("mtl", " ", ln + " " + "{");
    StepIgnoresCase(st, line);
    LowerIdempotent(name);
  }

  /** A material block adds exactly its name. */
  lemma MaterialBlockReadBack(st: ImportState, name: string)
    requires IsToken(name)
    ensures ImportLines(st, MaterialBlock(name)) == Continue(st.(materials := st.materials + [Lower(name)]))
  {
    var b := MaterialBlock(name);
    var s1 := st.(materials := st.materials + [Lower(name)]);
    MaterialLineReadBack(st, name);
    PropertiesSkipped(s1);
    assert forall k :: 0 <= k < |b[1..]| ==> b[1..][k] == b[k + 1];
    AllSkipped(s1, b[1..]);
  }

  /** The property lines and the closing brace of a material block are
      read past. */
  lemma PropertiesSkipped(st: ImportState)
    ensures Step(st, "\telasticity: 0.100000") == Continue(st)
    ensures Step(st, "\tfriction: 0.500000") == Continue(st)
    ensures Step(st, "\teffect: none") == Continue(st)
    ensures Step(st, "\tsound: none") == Continue(st)
    ensures Step(st, "}") == Continue(st)
  {
    PropertyLines();
    PropertyFields();
    PropertyValues();
    KeyedLineSkipped(st, "\t", "elasticity:", "0.100000");
    KeyedLineSkipped(st, "\t", "friction:", "0.500000");
    KeyedLineSkipped(st, "\t", "effect:", "none");
    KeyedLineSkipped(st, "\t", "sound:", "none");
    SplitLast("}");
  }

  lemma PropertyLines()
    ensures "\telasticity: 0.100000" == "\t" + "elasticity:" + " " + "0.100000"
    ensures "\tfriction: 0.500000" == "\t" + "friction:" + " " + "0.500000"
    ensures "\teffect: none" == "\t" + "effect:" + " " + "none"
    ensures "\tsound: none" == "\t" + "sound:" + " " + "none"
  {
  }

  lemma PropertyFields()
    ensures Field("elasticity:") && Field("friction:") && Field("effect:") && Field("sound:")
  {
    assert Field("elasticity:");
    assert Field("friction:");
    assert Field("effect:");
  }

  lemma PropertyValues()
    ensures AllSpace("\t") && NoUpper("\t") && Field("}")
    ensures NoUpper("0.100000") && NoUpper("0.500000") && NoUpper("none")
  {
    assert NoUpper("0.100000");
    assert NoUpper("0.500000");
  }

  lemma {:induction false} ImportMaterialLines(st: ImportState, names: seq<string>)
    requires forall k :: 0 <= k < |names| ==> IsToken(names[k])
    ensures ImportLines(st, MaterialLines(names)) == Continue(st.(materials := st.materials + LowerAll(names)))
    decreases |names|
  {
    if names == [] {
      AppendEmpty(st.materials);
      assert LowerAll(names) == [];
    } else {
      var init := names[..|names| - 1];
      var name := names[|names| - 1];
      var s1 := st.(materials := st.materials + LowerAll(init));
      assert forall k :: 0 <= k < |init| ==> init[k] == names[k];
      ImportMaterialLines(st, init);
      ImportLinesAppend(st, MaterialLines(init), MaterialBlock(name));
      MaterialBlockReadBack(s1, name);
      LowerAllSnoc(names);
      AppendAssoc(st.materials, LowerAll(init), [Lower(name)]);
    }
  }

  /** The last face of a valid state is one the host accepts on top of
      the faces before it. */
  lemma LastFaceAccepted(st: ImportState, g: Face)
    requires Valid(st.(faces := st.faces + [g]))
    ensures HostAccepts(st, g.loop) && IsTriOrQuad(g)
    ensures forall j :: 0 <= j < |g.loop| ==> g.loop[j] < |st.verts|
    ensures Valid(st)
  {
    var fs := st.faces + [g];
    assert fs[|st.faces|] == g;
    assert forall k :: 0 <= k < |st.faces| ==> fs[k] == st.faces[k];
    forall k | 0 <= k < |st.faces|
      ensures !SameVerts(st.faces[k].loop, g.loop)
    {
      assert !SameVerts(fs[k].loop, fs[|st.faces|].loop);
    }
  }

  /** One face line adds back its face with the clamped material index. */
  lemma FaceLineReadBack(st: ImportState, f: Face)
    requires IsTriOrQuad(f)
    requires Valid(st.(faces := st.faces + [Face(f.loop, ClampMaterial(f.material))]))
    ensures ImportLines(st, FaceLine(f)) ==
      Continue(st.(faces := st.faces + [Face(f.loop, ClampMaterial(f.material))]))
  {
    LastFaceAccepted(st, Face(f.loop, ClampMaterial(f.material)));
    if IsTri(f) {
      TriReadBack(st, f);
    } else {
      QuadReadBack(st, f);
    }
  }

  lemma TriReadBack(st: ImportState, f: Face)
    requires IsTri(f) && HostAccepts(st, f.loop)
    requires forall j :: 0 <= j < |f.loop| ==> f.loop[j] < |st.verts|
    ensures Step(st, TriLine(f)) == Continue(st.(faces := st.faces + [Face(f.loop, ClampMaterial(f.material))]))
  {
    var l := f.loop;
    var c := ClampMaterial(f.material);
    var cmps := ["tri", NatToString(l[0]), NatToString(l[1]), NatToString(l[2]), NatToString(c)];
    TriLineFields(f);
    ParseIntOfNat(l[0]);
    ParseIntOfNat(l[1]);
    ParseIntOfNat(l[2]);
    ParseIntOfNat(c);
    NewFaceOf(st, cmps, 3, l);
    assert Step(st, TriLine(f)) == FaceLineStep(st, cmps, 3);
  }

  lemma QuadReadBack(st: ImportState, f: Face)
    requires IsQuad(f) && HostAccepts(st, f.loop)
    requires forall j :: 0 <= j < |f.loop| ==> f.loop[j] < |st.verts|
    ensures Step(st, QuadLine(f)) == Continue(st.(faces := st.faces + [Face(f.loop, ClampMaterial(f.material))]))
  {
    var l := f.loop;
    var c := ClampMaterial(f.material);
    var cmps := ["quad", NatToString(l[0]), NatToString(l[1]), NatToString(l[2]), NatToString(l[3]),
                 NatToString(c)];
    QuadLineFields(f);
    ParseIntOfNat(l[0]);
    ParseIntOfNat(l[1]);
    ParseIntOfNat(l[2]);
    ParseIntOfNat(l[3]);
    ParseIntOfNat(c);
    NewFaceOf(st, cmps, 4, l);
    assert Step(st, QuadLine(f)) == FaceLineStep(st, cmps, 4);
  }

  lemma {:induction false} ImportFaceLines(st: ImportState, fs: seq<Face>)
    requires Valid(st.(faces := st.faces + ReadBackFaces(fs)))
    ensures ImportLines(st, FaceLines(fs)) == Continue(st.(faces := st.faces + ReadBackFaces(fs)))
    decreases |fs|
  {
    if fs == [] {
      AppendEmpty(st.faces);
    } else {
      var init := fs[..|fs| - 1];
      var f := fs[|fs| - 1];
      var s1 := st.(faces := st.faces + ReadBackFaces(init));
      if IsTriOrQuad(f) {
        var g := Face(f.loop, ClampMaterial(f.material));
        assert ReadBackFaces(fs) == ReadBackFaces(init) + [g];
        AppendAssoc(st.faces, ReadBackFaces(init), [g]);
        LastFaceAccepted(s1, g);
        FaceLineReadBack(s1, f);
      } else {
        assert ReadBackFaces(fs) == ReadBackFaces(init) + [];
        AppendEmpty(ReadBackFaces(init));
        assert FaceLine(f) == [];
      }
      ImportFaceLines(st, init);
      ImportLinesAppend(st, FaceLines(init), FaceLine(f));
    }
  }

  // ------------------------------------------------------------------
  // The written text splits back into its lines

  lemma NoNewlineConcat(a: string, b: string)
    requires NoNewline(a) && NoNewline(b)
    ensures NoNewline(a + b)
  {
    forall i | 0 <= i < |a + b|
      ensures !IsNewline((a + b)[i])
    {
      if i >= |a| {
        assert (a + b)[i] == b[i - |a|];
      }
    }
  }

  lemma AllNoNewlineAppend(a: seq<string>, b: seq<string>)
    requires AllNoNewline(a) && AllNoNewline(b)
    ensures AllNoNewline(a + b)
  {
    forall k | 0 <= k < |a + b|
      ensures NoNewline((a + b)[k])
    {
      if k >= |a| {
        assert (a + b)[k] == b[k - |a|];
      }
    }
  }

  /** The fixed pieces of the written lines end no line. */
  lemma LiteralsNoNewline()
    ensures NoNewline("v ") && NoNewline(" ") && NoNewline("  ") && NoNewline("tri ") && NoNewline("quad ")
    ensures NoNewline("mtl ") && NoNewline(" {")
  {
    assert NoNewline("quad ");
  }

  lemma TokenNoNewline(t: string)
    requires IsToken(t)
    ensures NoNewline(t)
  {
  }

  lemma VertexLineNoNewline(v: Vec3)
    ensures NoNewline(VertexLine(v))
  {
    var f := Remap(v);
    var x, y, z := FormatCoord(f.x), FormatCoord(f.y), FormatCoord(f.z);
    LiteralsNoNewline();
    FormatCoordToken(f.x);
    FormatCoordToken(f.y);
    FormatCoordToken(f.z);
    TokenNoNewline(x);
    TokenNoNewline(y);
    TokenNoNewline(z);
    NoNewlineConcat("v ", x);
    NoNewlineConcat("v " + x, " ");
    NoNewlineConcat("v " + x + " ", y);
    NoNewlineConcat("v " + x + " " + y, " ");
    NoNewlineConcat("v " + x + " " + y + " ", z);
  }

  lemma {:induction false} VertexLinesNoNewline(vs: seq<Vec3>)
    ensures AllNoNewline(VertexLines(vs))
    decreases |vs|
  {
    if vs != [] {
      VertexLinesNoNewline(vs[..|vs| - 1]);
      VertexLineNoNewline(vs[|vs| - 1]);
      AllNoNewlineAppend(VertexLines(vs[..|vs| - 1]), [VertexLine(vs[|vs| - 1])]);
    }
  }

  lemma {:induction false} MaterialLinesNoNewline(names: seq<string>)
    requires forall k :: 0 <= k < |names| ==> IsToken(names[k])
    ensures AllNoNewline(MaterialLines(names))
    decreases |names|
  {
    if names != [] {
      var init := names[..|names| - 1];
      var name := names[|names| - 1];
      assert forall k :: 0 <= k < |init| ==> init[k] == names[k];
      MaterialLinesNoNewline(init);
      MaterialBlockNoNewline(name);
      AllNoNewlineAppend(MaterialLines(init), MaterialBlock(name));
    }
  }

  lemma MaterialBlockNoNewline(name: string)
    requires IsToken(name)
    ensures AllNoNewline(MaterialBlock(name))
  {
    LiteralsNoNewline();
    BlockLiteralsNoNewline();
    TokenNoNewline(name);
    NoNewlineConcat("mtl ", name);
    NoNewlineConcat("mtl " + name, " {");
  }

  lemma BlockLiteralsNoNewline()
    ensures NoNewline("\telasticity: 0.100000") && NoNewline("\tfriction: 0.500000")
    ensures NoNewline("\teffect: none") && NoNewline("\tsound: none") && NoNewline("}")
  {
    assert NoNewline("\telasticity: 0.100000");
    assert NoNewline("\tfriction: 0.500000");
  }

  lemma HeaderLiteralsNoNewline()
    ensures NoNewline("version: 1.01") && NoNewline("verts: ") && NoNewline("materials: ")
    ensures NoNewline("edges: 0") && NoNewline("polys: ") && NoNewline("")
  {
    assert NoNewline("version: 1.01");
    assert NoNewline("materials: ");
  }

  lemma FieldsNoNewline(a: string, b: string)
    requires IsToken(b) && NoNewline(a)
    ensures NoNewline(a + "  " + b)
  {
    LiteralsNoNewline();
    TokenNoNewline(b);
    NoNewlineConcat(a, "  ");
    NoNewlineConcat(a + "  ", b);
  }

  lemma TriLineNoNewline(f: Face)
    requires IsTri(f)
    ensures NoNewline(TriLine(f))
  {
    var l0 := "tri " + NatToString(f.loop[0]);
    var l1 := l0 + "  " + NatToString(f.loop[1]);
    var l2 := l1 + "  " + NatToString(f.loop[2]);
    LiteralsNoNewline();
    TokenNoNewline(NatToString(f.loop[0]));
    NoNewlineConcat("tri ", NatToString(f.loop[0]));
    FieldsNoNewline(l0, NatToString(f.loop[1]));
    FieldsNoNewline(l1, NatToString(f.loop[2]));
    FieldsNoNewline(l2, NatToString(ClampMaterial(f.material)));
  }

  lemma QuadLineNoNewline(f: Face)
    requires IsQuad(f)
    ensures NoNewline(QuadLine(f))
  {
    var l0 := "quad " + NatToString(f.loop[0]);
    var l1 := l0 + "  " + NatToString(f.loop[1]);
    var l2 := l1 + "  " + NatToString(f.loop[2]);
    var l3 := l2 + "  " + NatToString(f.loop[3]);
    LiteralsNoNewline();
    TokenNoNewline(NatToString(f.loop[0]));
    NoNewlineConcat("quad ", NatToString(f.loop[0]));
    FieldsNoNewline(l0, NatToString(f.loop[1]));
    FieldsNoNewline(l1, NatToString(f.loop[2]));
    FieldsNoNewline(l2, NatToString(f.loop[3]));
    FieldsNoNewline(l3, NatToString(ClampMaterial(f.material)));
  }

  lemma {:induction false} FaceLinesNoNewline(fs: seq<Face>)
    ensures AllNoNewline(FaceLines(fs))
    decreases |fs|
  {
    if fs != [] {
      var f := fs[|fs| - 1];
      FaceLinesNoNewline(fs[..|fs| - 1]);
      if IsTri(f) {
        TriLineNoNewline(f);
      } else if IsQuad(f) {
        QuadLineNoNewline(f);
      }
      AllNoNewlineAppend(FaceLines(fs[..|fs| - 1]), FaceLine(f));
    }
  }

  lemma BndLinesNoNewline(m: Mesh)
    requires WellFormed(m)
    ensures AllNoNewline(BndLines(m))
  {
    var h := HeaderLines(m);
    HeaderLiteralsNoNewline();
    TokenNoNewline(NatToString(|m.verts|));
    TokenNoNewline(NatToString(|m.slots|));
    TokenNoNewline(NatToString(|m.faces|));
    NoNewlineConcat("verts: ", NatToString(|m.verts|));
    NoNewlineConcat("materials: ", NatToString(|m.slots|));
    NoNewlineConcat("polys: ", NatToString(|m.faces|));
    assert AllNoNewline(h);
    VertexLinesNoNewline(m.verts);
    MaterialLinesNoNewline(MaterialNames(m.slots));
    FaceLinesNoNewline(m.faces);
    AllNoNewlineAppend(h, VertexLines(m.verts));
    AllNoNewlineAppend(h + VertexLines(m.verts), [""]);
    AllNoNewlineAppend(h + VertexLines(m.verts) + [""], MaterialLines(MaterialNames(m.slots)));
    AllNoNewlineAppend(h + VertexLines(m.verts) + [""] + MaterialLines(MaterialNames(m.slots)), [""]);
    AllNoNewlineAppend(h + VertexLines(m.verts) + [""] + MaterialLines(MaterialNames(m.slots)) + [""],
      FaceLines(m.faces));
  }
}
