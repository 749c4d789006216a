/** export_bound: the BND text writer. The text is a header with the
    counts, one "v" line per vertex, one material block per slot (or a
    single "default" block), and one "tri" or "quad" line per face of
    three or four loops, with blank lines between the sections. */
module BndExport {
  import opened Text
  import opened MeshModel
  import opened ExportHelpers

  /** The header: format version, the vertex count, the number of
      material slots, no edges, and the number of faces of any arity. */
  function HeaderLines(m: Mesh): (ls: seq<string>)
    ensures |ls| == 6
  {
    ["version: 1.01",
     "verts: " + NatToString(|m.verts|),
     "materials: " + NatToString(|m.slots|),
     "edges: 0",
     "polys: " + NatToString(|m.faces|),
     ""]
  }

  /** The line of one vertex, in file space: its coordinates remapped
      to (-x, z, y). */
  function VertexLine(v: Vec3): string {
    var f := Remap(v);
    "v " + FormatCoord(f.x) + " " + FormatCoord(f.y) + " " + FormatCoord(f.z)
  }

  function VertexLines(vs: seq<Vec3>): (ls: seq<string>)
    ensures |ls| == |vs|
  {
    if vs == [] then [] else VertexLines(vs[..|vs| - 1]) + [VertexLine(vs[|vs| - 1])]
  }

  function MaterialLines(names: seq<string>): (ls: seq<string>)
    ensures |ls| == 6 * |names|
  {
    if names == [] then []
    else MaterialLines(names[..|names| - 1]) + MaterialBlock(names[|names| - 1])
  }

  function TriLine(f: Face): string
    requires IsTri(f)
  {
    "tri " + NatToString(f.loop[0]) + "  " + NatToString(f.loop[1]) + "  " + NatToString(f.loop[2])
      + "  " + NatToString(ClampMaterial(f.material))
  }

  function QuadLine(f: Face): string
    requires IsQuad(f)
  {
    "quad " + NatToString(f.loop[0]) + "  " + NatToString(f.loop[1]) + "  " + NatToString(f.loop[2])
      + "  " + NatToString(f.loop[3]) + "  " + NatToString(ClampMaterial(f.material))
  }

  /** The lines of one face: one for a triangle or a quad, none otherwise. */
  function FaceLine(f: Face): seq<string> {
    if IsTri(f) then [TriLine(f)] else if IsQuad(f) then [QuadLine(f)] else []
  }

  function FaceLines(fs: seq<Face>): seq<string> {
    if fs == [] then []
    else FaceLines(fs[..|fs| - 1]) + FaceLine(fs[|fs| - 1])
  }

  /** The lines of the whole file, in order. */
  function BndLines(m: Mesh): seq<string> {
    HeaderLines(m) + VertexLines(m.verts) + [""] + MaterialLines(MaterialNames(m.slots)) + [""]
      + FaceLines(m.faces)
  }

  function BndText(m: Mesh): string {
    JoinLines(BndLines(m))
  }

  lemma {:induction false} FaceLinesCount(fs: seq<Face>)
    ensures |FaceLines(fs)| == TriQuadCount(fs)
  {
    if fs != [] {
      FaceLinesCount(fs[..|fs| - 1]);
    }
  }

  /** The header lines joined are the source's header literal. */
  lemma HeaderText(m: Mesh)
    ensures JoinLines(HeaderLines(m)) ==
      "version: 1.01" + "\n" + "verts: " + NatToString(|m.verts|) + "\n"
      + "materials: " + NatToString(|m.slots|) + "\n" + "edges: 0" + "\n"
      + "polys: " + NatToString(|m.faces|) + "\n" + "\n"
  {
    var nv, ns, nf := NatToString(|m.verts|), NatToString(|m.slots|), NatToString(|m.faces|);
    JoinLines6("version: 1.01", "verts: " + nv, "materials: " + ns, "edges: 0", "polys: " + nf, "");
    var p1 := "version: 1.01" + "\n";
    Assoc(p1, "verts: ", nv);
    var p2 := p1 + "verts: " + nv + "\n";
    Assoc(p2, "materials: ", ns);
    var p3 := p2 + "materials: " + ns + "\n" + "edges: 0" + "\n";
    Assoc(p3, "polys: ", nf);
    var p4 := p3 + "polys: " + nf + "\n";
    assert p4 + "" + "\n" == p4 + "\n";
  }

  /** Appending the line of vertex i. */
  lemma VertexStep(done: seq<string>, vs: seq<Vec3>, i: nat)
    requires i < |vs|
    ensures JoinLines(done + VertexLines(vs[..i + 1]))
      == JoinLines(done + VertexLines(vs[..i])) + VertexLine(vs[i]) + "\n"
  {
    assert vs[..i + 1][..i] == vs[..i];
    assert done + VertexLines(vs[..i + 1]) == done + VertexLines(vs[..i]) + [VertexLine(vs[i])];
    JoinLinesSnoc(done + VertexLines(vs[..i]), VertexLine(vs[i]));
  }

  /** Appending the block of material name i. */
  lemma MaterialStep(done: seq<string>, names: seq<string>, i: nat)
    requires i < |names|
    ensures JoinLines(done + MaterialLines(names[..i + 1]))
      == JoinLines(done + MaterialLines(names[..i])) + MakeAsciiMaterial(names[i])
  {
    MakeAsciiMaterialLines(names[i]);
    assert names[..i + 1][..i] == names[..i];
    assert MaterialLines(names[..i + 1]) == MaterialLines(names[..i]) + MaterialBlock(names[i]);
    assert done + MaterialLines(names[..i + 1])
      == (done + MaterialLines(names[..i])) + MaterialBlock(names[i]);
    JoinLinesAppend(done + MaterialLines(names[..i]), MaterialBlock(names[i]));
  }

  /** Appending the line, if any, of face i. */
  lemma FaceStep(done: seq<string>, fs: seq<Face>, i: nat)
    requires i < |fs|
    ensures IsTri(fs[i]) ==>
      JoinLines(done + FaceLines(fs[..i + 1])) == JoinLines(done + FaceLines(fs[..i])) + TriLine(fs[i]) + "\n"
    ensures IsQuad(fs[i]) ==>
      JoinLines(done + FaceLines(fs[..i + 1])) == JoinLines(done + FaceLines(fs[..i])) + QuadLine(fs[i]) + "\n"
    ensures !IsTriOrQuad(fs[i]) ==>
      JoinLines(done + FaceLines(fs[..i + 1])) == JoinLines(done + FaceLines(fs[..i]))
  {
    assert fs[..i + 1][..i] == fs[..i];
    assert FaceLines(fs[..i + 1]) == FaceLines(fs[..i]) + FaceLine(fs[i]);
    assert done + FaceLines(fs[..i + 1]) == (done + FaceLines(fs[..i])) + FaceLine(fs[i]);
    if IsTri(fs[i]) {
      JoinLinesSnoc(done + FaceLines(fs[..i]), TriLine(fs[i]));
    } else if IsQuad(fs[i]) {
      JoinLinesSnoc(done + FaceLines(fs[..i]), QuadLine(fs[i]));
    } else {
      assert (done + FaceLines(fs[..i])) + FaceLine(fs[i]) == done + FaceLines(fs[..i]);
    }
  }

  /** export_bound(file, ob) over the mesh ob gives: the text is built by
      appending to one string, section by section. */
  method ExportBound(m: Mesh) returns (bnd: string)
    ensures bnd == BndText(m)
  {
    // header
    bnd := "version: 1.01" + "\n" + "verts: " + NatToString(|m.verts|) + "\n"
      + "materials: " + NatToString(|m.slots|) + "\n" + "edges: 0" + "\n"
      + "polys: " + NatToString(|m.faces|) + "\n" + "\n";
    HeaderText(m);
    ghost var done := HeaderLines(m);

    // vertices
    bnd := AppendVertices(bnd, done, m.verts);
    JoinLinesBlank(done + VertexLines(m.verts));
    bnd := bnd + "\n";
    done := done + VertexLines(m.verts) + [""];

    // materials
    bnd := AppendMaterials(bnd, done, m.slots);
    JoinLinesBlank(done + MaterialLines(MaterialNames(m.slots)));
    bnd := bnd + "\n";
    done := done + MaterialLines(MaterialNames(m.slots)) + [""];

    // faces
    bnd := AppendFaces(bnd, done, m.faces);
  }

  /** The vertex loop of export_bound: one line per vertex, appended. */
  method AppendVertices(bnd0: string, ghost done: seq<string>, verts: seq<Vec3>) returns (bnd: string)
    requires bnd0 == JoinLines(done)
    ensures bnd == JoinLines(done + VertexLines(verts))
  {
    bnd := bnd0;
    assert done + VertexLines(verts[..0]) == done;
    for i := 0 to |verts|
      invariant bnd == JoinLines(done + VertexLines(verts[..i]))
    {
      var v := verts[i];
      var nx := v.x * -1;
      assert nx == Remap(v).x;
      var line := "v " + FormatCoord(nx) + " " + FormatCoord(v.z) + " " + FormatCoord(v.y);
      assert line == VertexLine(v);
      VertexStep(done, verts, i);
      bnd := bnd + line + "\n";
    }
    assert verts[..|verts|] == verts;
  }

  /** The material loop of export_bound: one block per slot, or the
      "default" block when there are no slots. */
  method AppendMaterials(bnd0: string, ghost done: seq<string>, slots: seq<string>) returns (bnd: string)
    requires bnd0 == JoinLines(done)
    ensures bnd == JoinLines(done + MaterialLines(MaterialNames(slots)))
  {
    bnd := bnd0;
    ghost var names := MaterialNames(slots);
    var numMaterials := |slots|;
    if numMaterials > 0 {
      assert done + MaterialLines(names[..0]) == done;
      for i := 0 to |slots|
        invariant bnd == JoinLines(done + MaterialLines(names[..i]))
      {
        var mat := slots[i];
        assert names[i] == GetUndupeName(mat);
        MaterialStep(done, names, i);
        bnd := bnd + MakeAsciiMaterial(GetUndupeName(mat));
      }
      WholePrefix(names);
    } else {
      DefaultMaterial(done);
      bnd := bnd + MakeAsciiMaterial("default");
    }
  }

  /** The block written when the mesh has no material slots. */
  lemma DefaultMaterial(done: seq<string>)
    ensures JoinLines(done + MaterialLines(["default"])) == JoinLines(done) + MakeAsciiMaterial("default")
  {
    MaterialStep(done, ["default"], 0);
    assert ["default"][..0] == [] && ["default"][..1] == ["default"];
    assert done + MaterialLines([]) == done;
  }

  /** The face loop of export_bound: a line per triangle or quad, nothing
      for a face of any other arity. */
  method AppendFaces(bnd0: string, ghost done: seq<string>, faces: seq<Face>) returns (bnd: string)
    requires bnd0 == JoinLines(done)
    ensures bnd == JoinLines(done + FaceLines(faces))
  {
    bnd := bnd0;
    assert done + FaceLines(faces[..0]) == done;
    for i := 0 to |faces|
      invariant bnd == JoinLines(done + FaceLines(faces[..i]))
    {
      var fcs := faces[i];
      var materialIndex := if 0 >= fcs.material then 0 else fcs.material;
      assert materialIndex == ClampMaterial(fcs.material);
      FaceStep(done, faces, i);
      if |fcs.loop| == 3 {
        var line := "tri " + NatToString(fcs.loop[0]) + "  " + NatToString(fcs.loop[1]) + "  "
          + NatToString(fcs.loop[2]) + "  " + NatToString(materialIndex);
        assert line == TriLine(fcs);
        bnd := bnd + line + "\n";
      } else if |fcs.loop| == 4 {
        var line := "quad " + NatToString(fcs.loop[0]) + "  " + NatToString(fcs.loop[1]) + "  "
          + NatToString(fcs.loop[2]) + "  " + NatToString(fcs.loop[3]) + "  " + NatToString(materialIndex);
        assert line == QuadLine(fcs);
        bnd := bnd + line + "\n";
      }
    }
    assert faces[..|faces|] == faces;
  }

  /** The text starts with exactly the source's header: the counts of
      vertices, of material slots (0 when the default block is written)
      and of faces of every arity. */
  lemma BndTextHeader(m: Mesh)
    ensures (
      "version: 1.01" + "\n" + "verts: " + NatToString(|m.verts|) + "\n"
      + "materials: " + NatToString(|m.slots|) + "\n" + "edges: 0" + "\n"
      + "polys: " + NatToString(|m.faces|) + "\n" + "\n") <= BndText(m)
  {
    HeaderText(m);
    assert HeaderLines(m) <= BndLines(m);
    JoinLinesPrefix(HeaderLines(m), BndLines(m));
  }

  /** The file has 8 + V + 6 * (number of material blocks) + (number of
      triangles and quads) lines: faces of other arities add none. */
  lemma BndLinesCount(m: Mesh)
    ensures |BndLines(m)| == 8 + |m.verts| + 6 * |MaterialNames(m.slots)| + TriQuadCount(m.faces)
  {
    FaceLinesCount(m.faces);
  }

  lemma {:induction false} VertexLinesAt(vs: seq<Vec3>, i: nat)
    requires i < |vs|
    ensures VertexLines(vs)[i] == VertexLine(vs[i])
    decreases |vs|
  {
    var init := vs[..|vs| - 1];
    if i < |vs| - 1 {
      VertexLinesAt(init, i);
      assert init[i] == vs[i];
    }
  }

  /** Indexing into the second and the fourth of six sections. */
  lemma SectionAt(a: seq<string>, b: seq<string>, c: seq<string>, d: seq<string>, e: seq<string>,
                  f: seq<string>, j: nat)
    ensures j < |b| ==> (a + b + c + d + e + f)[|a| + j] == b[j]
    ensures j < |d| ==> (a + b + c + d + e + f)[|a| + |b| + |c| + j] == d[j]
  {
  }

  /** Line 6 + i is the line of vertex i, and the line after the last
      vertex is blank. */
  lemma BndLinesVertices(m: Mesh)
    ensures forall i :: 0 <= i < |m.verts| ==> BndLines(m)[6 + i] == VertexLine(m.verts[i])
    ensures BndLines(m)[6 + |m.verts|] == ""
  {
    var h, vl, ml, fl := HeaderLines(m), VertexLines(m.verts), MaterialLines(MaterialNames(m.slots)), FaceLines(m.faces);
    assert BndLines(m) == h + vl + [""] + ml + [""] + fl;
    forall i | 0 <= i < |m.verts|
      ensures BndLines(m)[6 + i] == VertexLine(m.verts[i])
    {
      SectionAt(h, vl, [""], ml, [""], fl, i);
      VertexLinesAt(m.verts, i);
    }
    SectionAt(h + vl, [""], ml, [""], fl, [], 0);
    assert h + vl + [""] + ml + [""] + fl + [] == BndLines(m);
  }

  /** Block k of the materials starts at line 7 + V + 6k with the k-th
      name. */
  lemma BndLinesMaterial(m: Mesh, k: nat)
    requires k < |MaterialNames(m.slots)|
    ensures BndLines(m)[7 + |m.verts| + 6 * k] == "mtl " + MaterialNames(m.slots)[k] + " {"
  {
    BlockAt(HeaderLines(m) + VertexLines(m.verts) + [""], MaterialNames(m.slots), FaceLines(m.faces),
      k, 7 + |m.verts| + 6 * k);
  }

  lemma BlockAt(pre: seq<string>, names: seq<string>, fl: seq<string>, k: nat, i: nat)
    requires k < |names| && i == |pre| + 6 * k
    ensures (pre + MaterialLines(names) + [""] + fl)[i] == "mtl " + names[k] + " {"
  {
    MaterialLinesAt(names, k);
    var ml := MaterialLines(names);
    AppendIndexLeft(pre + ml + [""], fl, i);
    AppendIndexLeft(pre + ml, [""], i);
    AppendIndexRight(pre, ml, i, 6 * k);
  }

  lemma {:induction false} MaterialLinesAt(names: seq<string>, k: nat)
    requires k < |names|
    ensures MaterialLines(names)[6 * k] == "mtl " + names[k] + " {"
    decreases |names|
  {
    var init := names[..|names| - 1];
    if k < |names| - 1 {
      MaterialLinesAt(init, k);
    }
  }

  /** Reading a vertex line field by field gives "v" and the three
      coordinates of the vertex in file space, (-x, z, y). */
  lemma VertexLineFields(v: Vec3)
    ensures Split(Lower(VertexLine(v))) ==
      ["v", FormatCoord(Remap(v).x), FormatCoord(Remap(v).y), FormatCoord(Remap(v).z)]
  {
    CoordFields(Remap(v).x, Remap(v).y, Remap(v).z);
  }

  lemma CoordFields(x: int, y: int, z: int)
    ensures Split(Lower("v " + FormatCoord(x) + " " + FormatCoord(y) + " " + FormatCoord(z)))
      == ["v", FormatCoord(x), FormatCoord(y), FormatCoord(z)]
  {
    FormatCoordToken(x);
    FormatCoordToken(y);
    FormatCoordToken(z);
    VertexFields(FormatCoord(x), FormatCoord(y), FormatCoord(z));
  }

  lemma VertexFields(a: string, b: string, c: string)
    requires Field(a) && Field(b) && Field(c)
    ensures Split(Lower("v " + a + " " + b + " " + c)) == ["v", a, b, c]
  {
    assert "v " + a == "v" + " " + a;
    Split4("v", " ", a, " ", b, c);
  }

  /** A triangle line reads as "tri", its three vertex indices and its
      clamped material index. */
  lemma TriLineFields(f: Face)
    requires IsTri(f)
    ensures Split(Lower(TriLine(f))) ==
      ["tri", NatToString(f.loop[0]), NatToString(f.loop[1]), NatToString(f.loop[2]),
       NatToString(ClampMaterial(f.material))]
  {
    TriFields(NatToString(f.loop[0]), NatToString(f.loop[1]), NatToString(f.loop[2]),
      NatToString(ClampMaterial(f.material)));
  }

  lemma TriFields(a: string, b: string, c: string, d: string)
    requires Field(a) && Field(b) && Field(c) && Field(d)
    ensures Split(Lower("tri " + a + "  " + b + "  " + c + "  " + d)) == ["tri", a, b, c, d]
  {
    assert "tri " + a == "tri" + " " + a;
    Split5("tri", " ", a, "  ", b, c, d);
  }

  /** A quad line reads as "quad", its four vertex indices and its
      clamped material index. */
  lemma QuadLineFields(f: Face)
    requires IsQuad(f)
    ensures Split(Lower(QuadLine(f))) ==
      ["quad", NatToString(f.loop[0]), NatToString(f.loop[1]), NatToString(f.loop[2]),
       NatToString(f.loop[3]), NatToString(ClampMaterial(f.material))]
  {
    QuadFields(NatToString(f.loop[0]), NatToString(f.loop[1]), NatToString(f.loop[2]),
      NatToString(f.loop[3]), NatToString(ClampMaterial(f.material)));
  }

  lemma QuadFields(a: string, b: string, c: string, e: string, d: string)
    requires Field(a) && Field(b) && Field(c) && Field(e) && Field(d)
    ensures Split(Lower("quad " + a + "  " + b + "  " + c + "  " + e + "  " + d)) == ["quad", a, b, c, e, d]
  {
    assert "quad " + a == "quad" + " " + a;
    Split6("quad", " ", a, "  ", b, c, e, d);
  }
}
