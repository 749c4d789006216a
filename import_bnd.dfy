/** read_bnd_file: the BND text reader. Each line is lower-cased and split
    on whitespace; lines of fewer than two fields are skipped, and the
    first field chooses what the line adds: "v" a vertex, "mtl" a
    material, "tri" and "quad" a face. Every other line is skipped. */
module BndImport {
  import opened Text
  import opened MeshModel

  /** What the reader has built so far: the vertices and faces of the
      BMesh, and the materials appended to the object's data. */
  datatype ImportState = ImportState(verts: seq<Vec3>, faces: seq<Face>, materials: seq<string>)

  const Empty: ImportState := ImportState([], [], [])

  /** The result of a line or of a whole file: reading goes on, or an
      exception the loop does not catch ends it, in the state reached. */
  datatype Outcome = Continue(st: ImportState) | Abort(st: ImportState)

  /** The loop's vertices are pairwise distinct. */
  predicate Distinct(loop: seq<nat>) {
    forall p, q :: 0 <= p < q < |loop| ==> loop[p] != loop[q]
  }

  /** Two loops over the same vertices, in any order. */
  predicate SameVerts(a: seq<nat>, b: seq<nat>) {
    |a| == |b| && (forall x :: x in a ==> x in b) && (forall x :: x in b ==> x in a)
  }

  /** bm.faces.new(verts) succeeds: the vertices are distinct and no face
      over the same vertices exists yet. Otherwise it raises, and the
      loop catches it. */
  predicate HostAccepts(st: ImportState, loop: seq<nat>) {
    Distinct(loop) && forall k :: 0 <= k < |st.faces| ==> !SameVerts(st.faces[k].loop, loop)
  }

  /** bm.verts[int(t)] for each token t in order: None when a token is not
      an integer or is not the index of a vertex read so far (ValueError,
      IndexError). */
  function ResolveAll(tokens: seq<string>, nverts: nat): (r: Option<seq<nat>>)
    ensures r.Some? ==> |r.value| == |tokens|
    ensures r.Some? ==> forall k :: 0 <= k < |tokens| ==>
      ParseInt(tokens[k]) == Some(r.value[k] as int) && r.value[k] < nverts
    ensures r.None? ==> exists k :: (0 <= k < |tokens| &&
      (ParseInt(tokens[k]).None? || !(0 <= ParseInt(tokens[k]).value < nverts)))
  {
    if tokens == [] then Some([])
    else
      var init := tokens[..|tokens| - 1];
      var last := tokens[|tokens| - 1];
      match ResolveAll(init, nverts)
      case None =>
        var k :| 0 <= k < |init| && (ParseInt(init[k]).None? || !(0 <= ParseInt(init[k]).value < nverts));
        assert tokens[k] == init[k];
        None
      case Some(p) =>
        match ParseInt(last)
        case None => None
        case Some(i) =>
          if 0 <= i < nverts then
            var r := p + [i];
            assert forall k :: 0 <= k < |init| ==> tokens[k] == init[k] && r[k] == p[k];
            Some(r)
          else None
  }

  /** The face the try block of a "tri" (n = 3) or "quad" (n = 4) line
      creates: None when a vertex token is missing, does not resolve, or
      the host refuses the face. */
  function NewFace(st: ImportState, cmps: seq<string>, n: nat): (r: Option<seq<nat>>)
    requires n == 3 || n == 4
    ensures r.Some? ==> |cmps| > n && |r.value| == n && HostAccepts(st, r.value)
    ensures r.Some? ==> forall k :: 0 <= k < n ==>
      ParseInt(cmps[k + 1]) == Some(r.value[k] as int) && r.value[k] < |st.verts|
  {
    if |cmps| <= n then None
    else
      var tokens := cmps[1..n + 1];
      match ResolveAll(tokens, |st.verts|)
      case None => None
      case Some(loop) =>
        assert forall k :: 0 <= k < n ==> tokens[k] == cmps[k + 1];
        if HostAccepts(st, loop) then Some(loop) else None
  }

  /** A "v" line: the vertex (-x, z, y) for the fields x y z after the
      keyword; a missing or unreadable field raises. */
  function VertexLineStep(st: ImportState, cmps: seq<string>): Outcome {
    if |cmps| < 4 then Abort(st)
    else
      match (ParseCoord(cmps[1]), ParseCoord(cmps[3]), ParseCoord(cmps[2]))
      case (Some(p1), Some(p3), Some(p2)) => Continue(st.(verts := st.verts + [Vec3(-p1, p3, p2)]))
      case _ => Abort(st)
  }

  /** A "tri" (n = 3) or "quad" (n = 4) line: the face, if created, then
      its material index from the field after the indices; a missing or
      unreadable material index raises after the face was added. */
  function FaceLineStep(st: ImportState, cmps: seq<string>, n: nat): Outcome
    requires n == 3 || n == 4
  {
    match NewFace(st, cmps, n)
    case None => Continue(st)
    case Some(loop) =>
      if |cmps| <= n + 1 then Abort(st.(faces := st.faces + [Face(loop, 0)]))
      else
        match ParseInt(cmps[n + 1])
        case None => Abort(st.(faces := st.faces + [Face(loop, 0)]))
        case Some(mi) => Continue(st.(faces := st.faces + [Face(loop, mi)]))
  }

  /** One pass of the loop body on the line `line`. */
  function Step(st: ImportState, line: string): Outcome {
    var cmps := Split(Lower(line));
    if |cmps| < 2 then Continue(st)
    else if cmps[0] == "v" then VertexLineStep(st, cmps)
    else if cmps[0] == "mtl" then Continue(st.(materials := st.materials + [Lower(cmps[1])]))
    else if cmps[0] == "quad" then FaceLineStep(st, cmps, 4)
    else if cmps[0] == "tri" then FaceLineStep(st, cmps, 3)
    else Continue(st)
  }

  /** The loop of read_bnd_file over the lines of the file. */
  function ImportLines(st: ImportState, lines: seq<string>): Outcome
    decreases |lines|
  {
    if lines == [] then Continue(st)
    else
      match Step(st, lines[0])
      case Continue(next) => ImportLines(next, lines[1..])
      case Abort(s) => Abort(s)
  }

  // ------------------------------------------------------------------
  // The reader as the host sees it

  /** The mesh being built by read_bnd_file, with the object's materials. */
  class BoundImporter {
    var verts: seq<Vec3>
    var faces: seq<Face>
    var materials: seq<string>

    function State(): ImportState
      reads this
    {
      ImportState(verts, faces, materials)
    }

    /** bmesh.new() on the new, empty 'BoundMesh'. */
    constructor ()
      ensures State() == Empty
    {
      verts, faces, materials := [], [], [];
    }

    /** The loop body on one line; ok is false when the line raised an
        exception the loop does not catch. */
    method ReadLine(line: string) returns (ok: bool)
      modifies this
      ensures (if ok then Continue(State()) else Abort(State())) == Step(old(State()), line)
    {
      var cmps := Split(Lower(line));
      if |cmps| < 2 {
        ok := true;
      } else if cmps[0] == "v" {
        ok := ReadVertex(cmps);
      } else if cmps[0] == "mtl" {
        materials := materials + [Lower(cmps[1])];
        ok := true;
      } else if cmps[0] == "quad" || cmps[0] == "tri" {
        var numIndices := if cmps[0] == "quad" then 4 else 3;
        ok := ReadFace(cmps, numIndices);
      } else {
        ok := true;
      }
    }

    /** The "v" branch of the loop body. */
    method ReadVertex(cmps: seq<string>) returns (ok: bool)
      modifies this
      ensures (if ok then Continue(State()) else Abort(State())) == VertexLineStep(old(State()), cmps)
    {
      if |cmps| < 4 {
        return false;
      }
      var x, z, y := ParseCoord(cmps[1]), ParseCoord(cmps[3]), ParseCoord(cmps[2]);
      if x.None? || z.None? || y.None? {
        return false;
      }
      verts := verts + [Vec3(x.value * -1, z.value, y.value)];
      return true;
    }

    /** The "tri" and "quad" branch of the loop body. */
    method ReadFace(cmps: seq<string>, numIndices: nat) returns (ok: bool)
      requires numIndices == 3 || numIndices == 4
      modifies this
      ensures (if ok then Continue(State()) else Abort(State())) == FaceLineStep(old(State()), cmps, numIndices)
    {
      var face := NewFace(State(), cmps, numIndices);
      if face.None? {
        return true;
      }
      faces := faces + [Face(face.value, 0)];
      if |cmps| <= numIndices + 1 {
        return false;
      }
      var materialIndex := ParseInt(cmps[numIndices + 1]);
      if materialIndex.None? {
        return false;
      }
      faces := faces[|faces| - 1 := Face(face.value, materialIndex.value)];
      return true;
    }

    /** read_bnd_file(file) on the text of the file; ok is false when a
        line raised. */
    method ReadBndFile(text: string) returns (ok: bool)
      modifies this
      ensures (if ok then Continue(State()) else Abort(State())) == ImportLines(old(State()), Lines(text))
    {
      var lines := Lines(text);
      for i := 0 to |lines|
        invariant ImportLines(old(State()), lines) == ImportLines(State(), lines[i..])
      {
        assert lines[i..][0] == lines[i] && lines[i..][1..] == lines[i + 1..];
        ok := ReadLine(lines[i]);
        if !ok {
          return false;
        }
      }
      return true;
    }
  }

  // ------------------------------------------------------------------
  // Properties of one line

  /** Lines of fewer than two fields change nothing: blank lines, "}",
      and any single word. */
  lemma ShortLineSkipped(st: ImportState, line: string)
    requires |Split(Lower(line))| < 2
    ensures Step(st, line) == Continue(st)
  {
  }

  /** A line whose first field is not "v", "mtl", "tri" or "quad" changes
      nothing: the header fields and the material properties are not
      read back. */
  lemma OtherLineSkipped(st: ImportState, line: string)
    requires var cmps := Split(Lower(line));
      |cmps| >= 1 && cmps[0] != "v" && cmps[0] != "mtl" && cmps[0] != "tri" && cmps[0] != "quad"
    ensures Step(st, line) == Continue(st)
  {
  }

  lemma LowerIdempotent(s: string)
    ensures Lower(Lower(s)) == Lower(s)
  {
  }

  /** The keyword and the fields are matched without regard to case. */
  lemma StepIgnoresCase(st: ImportState, line: string)
    ensures Step(st, Lower(line)) == Step(st, line)
  {
    LowerIdempotent(line);
  }

  /** A "v" line adds exactly the vertex (-a, c, b) for the fields a b c,
      and nothing else. */
  lemma VertexLineRead(st: ImportState, line: string, a: int, b: int, c: int)
    requires var cmps := Split(Lower(line));
      |cmps| >= 4 && cmps[0] == "v"
      && ParseCoord(cmps[1]) == Some(a) && ParseCoord(cmps[2]) == Some(b) && ParseCoord(cmps[3]) == Some(c)
    ensures Step(st, line) == Continue(st.(verts := st.verts + [Remap(Vec3(a, b, c))]))
  {
    var cmps := Split(Lower(line));
    assert Step(st, line) == VertexLineStep(st, cmps);
    VertexFieldsRead(st, cmps, a, b, c);
  }

  lemma VertexFieldsRead(st: ImportState, cmps: seq<string>, a: int, b: int, c: int)
    requires |cmps| >= 4
    requires ParseCoord(cmps[1]) == Some(a) && ParseCoord(cmps[2]) == Some(b) && ParseCoord(cmps[3]) == Some(c)
    ensures VertexLineStep(st, cmps) == Continue(st.(verts := st.verts + [Remap(Vec3(a, b, c))]))
  {
  }

  /** A "v" line with a missing or unreadable coordinate ends the reading
      where it stands. */
  lemma VertexLineFails(st: ImportState, line: string)
    requires var cmps := Split(Lower(line));
      |cmps| >= 2 && cmps[0] == "v"
      && (|cmps| < 4 || ParseCoord(cmps[1]).None? || ParseCoord(cmps[2]).None? || ParseCoord(cmps[3]).None?)
    ensures Step(st, line) == Abort(st)
  {
  }

  /** A face line whose face is not created (a missing or unreadable
      index, an index past the vertices read so far, or a face the host
      refuses) changes nothing, and reading goes on. */
  lemma FaceLineRejected(st: ImportState, line: string)
    requires var cmps := Split(Lower(line));
      |cmps| >= 2 && (cmps[0] == "tri" || cmps[0] == "quad")
      && NewFace(st, cmps, if cmps[0] == "quad" then 4 else 3).None?
    ensures Step(st, line) == Continue(st)
  {
  }

  /** A "tri" line over three vertices read so far, distinct and not yet
      a face, adds that face with the material index after the indices. */
  lemma TriLineRead(st: ImportState, line: string, loop: seq<nat>, mi: int)
    requires var cmps := Split(Lower(line));
      |cmps| >= 5 && cmps[0] == "tri" && |loop| == 3
      && (forall k :: 0 <= k < 3 ==> ParseInt(cmps[k + 1]) == Some(loop[k] as int) && loop[k] < |st.verts|)
      && HostAccepts(st, loop) && ParseInt(cmps[4]) == Some(mi)
    ensures Step(st, line) == Continue(st.(faces := st.faces + [Face(loop, mi)]))
  {
    var cmps := Split(Lower(line));
    NewFaceOf(st, cmps, 3, loop);
  }

  /** The same for a "quad" line over four vertices. */
  lemma QuadLineRead(st: ImportState, line: string, loop: seq<nat>, mi: int)
    requires var cmps := Split(Lower(line));
      |cmps| >= 6 && cmps[0] == "quad" && |loop| == 4
      && (forall k :: 0 <= k < 4 ==> ParseInt(cmps[k + 1]) == Some(loop[k] as int) && loop[k] < |st.verts|)
      && HostAccepts(st, loop) && ParseInt(cmps[5]) == Some(mi)
    ensures Step(st, line) == Continue(st.(faces := st.faces + [Face(loop, mi)]))
  {
    var cmps := Split(Lower(line));
    NewFaceOf(st, cmps, 4, loop);
  }

  /** When the index tokens resolve to loop and the host accepts it, the
      face created is loop. */
  lemma NewFaceOf(st: ImportState, cmps: seq<string>, n: nat, loop: seq<nat>)
    requires (n == 3 || n == 4) && |cmps| > n && |loop| == n
    requires forall k :: 0 <= k < n ==> ParseInt(cmps[k + 1]) == Some(loop[k] as int) && loop[k] < |st.verts|
    requires HostAccepts(st, loop)
    ensures NewFace(st, cmps, n) == Some(loop)
  {
    var tokens := cmps[1..n + 1];
    assert forall k :: 0 <= k < n ==> tokens[k] == cmps[k + 1];
    ResolveAllOf(tokens, |st.verts|, loop);
  }

  /** Tokens that all parse to indices of read vertices resolve to those
      indices. */
  lemma {:induction false} ResolveAllOf(tokens: seq<string>, nverts: nat, loop: seq<nat>)
    requires |loop| == |tokens|
    requires forall k :: 0 <= k < |tokens| ==> ParseInt(tokens[k]) == Some(loop[k] as int) && loop[k] < nverts
    ensures ResolveAll(tokens, nverts) == Some(loop)
    decreases |tokens|
  {
    if tokens != [] {
      var m := |tokens| - 1;
      assert forall k :: 0 <= k < m ==> tokens[..m][k] == tokens[k];
      ResolveAllOf(tokens[..m], nverts, loop[..m]);
      assert loop[..m] + [loop[m]] == loop;
    }
  }

  /** A created face whose material index is missing or unreadable ends
      the reading: the face stays, with material index 0, since the
      assignment comes after the try block. */
  lemma FaceMaterialMissing(st: ImportState, line: string)
    requires var cmps := Split(Lower(line));
      var n := if |cmps| >= 1 && cmps[0] == "quad" then 4 else 3;
      |cmps| >= 2 && (cmps[0] == "tri" || cmps[0] == "quad")
      && NewFace(st, cmps, n).Some? && (|cmps| <= n + 1 || ParseInt(cmps[n + 1]).None?)
    ensures var cmps := Split(Lower(line));
      var n := if cmps[0] == "quad" then 4 else 3;
      Step(st, line) == Abort(st.(faces := st.faces + [Face(NewFace(st, cmps, n).value, 0)]))
  {
  }

  // ------------------------------------------------------------------
  // Invariants of the reader

  /** Every face is a triangle or a quad over distinct vertices that have
      been read, and no two faces share their vertices. */
  predicate Valid(st: ImportState) {
    && (forall k :: 0 <= k < |st.faces| ==> IsTriOrQuad(st.faces[k]) && Distinct(st.faces[k].loop))
    && (forall k, j :: 0 <= k < |st.faces| && 0 <= j < |st.faces[k].loop| ==> st.faces[k].loop[j] < |st.verts|)
    && (forall k, l :: 0 <= k < l < |st.faces| ==> !SameVerts(st.faces[k].loop, st.faces[l].loop))
  }

  /** The state after a line extends the state before it: each list only
      grows, and by at most one element in all. */
  predicate Extends(st: ImportState, st': ImportState) {
    && st.verts <= st'.verts && st.faces <= st'.faces && st.materials <= st'.materials
    && |st'.verts| + |st'.faces| + |st'.materials| <= |st.verts| + |st.faces| + |st.materials| + 1
  }

  /** Every line keeps the state valid and only appends to it, whether
      reading goes on or stops. */
  lemma StepValid(st: ImportState, line: string)
    requires Valid(st)
    ensures Valid(Step(st, line).st) && Extends(st, Step(st, line).st)
  {
    var cmps := Split(Lower(line));
    if |cmps| >= 2 && (cmps[0] == "quad" || cmps[0] == "tri") {
      var n := if cmps[0] == "quad" then 4 else 3;
      var r := NewFace(st, cmps, n);
      if r.Some? {
        forall mi: int
          ensures Valid(st.(faces := st.faces + [Face(r.value, mi)]))
        {
          AddFaceValid(st, r.value, mi);
        }
      }
    }
  }

  lemma AddFaceValid(st: ImportState, loop: seq<nat>, mi: int)
    requires Valid(st) && (|loop| == 3 || |loop| == 4) && HostAccepts(st, loop)
    requires forall j :: 0 <= j < |loop| ==> loop[j] < |st.verts|
    ensures Valid(st.(faces := st.faces + [Face(loop, mi)]))
  {
    var fs := st.faces + [Face(loop, mi)];
    assert forall k :: 0 <= k < |st.faces| ==> fs[k] == st.faces[k];
    forall k, l | 0 <= k < l < |fs|
      ensures !SameVerts(fs[k].loop, fs[l].loop)
    {
      if l == |st.faces| {
        assert !SameVerts(st.faces[k].loop, loop);
      }
    }
  }

  lemma {:induction false} ImportLinesValid(st: ImportState, lines: seq<string>)
    requires Valid(st)
    ensures Valid(ImportLines(st, lines).st)
    ensures st.verts <= ImportLines(st, lines).st.verts
    ensures st.faces <= ImportLines(st, lines).st.faces
    ensures st.materials <= ImportLines(st, lines).st.materials
    decreases |lines|
  {
    if lines != [] {
      StepValid(st, lines[0]);
      match Step(st, lines[0])
      case Continue(next) => ImportLinesValid(next, lines[1..]);
      case Abort(_) =>
    }
  }

  /** A file is read line after line: reading a + b is reading a, then b
      from where a left off. */
  lemma {:induction false} ImportLinesAppend(st: ImportState, a: seq<string>, b: seq<string>)
    ensures ImportLines(st, a + b) ==
      match ImportLines(st, a)
      case Continue(s) => ImportLines(s, b)
      case Abort(s) => Abort(s)
    decreases |a|
  {
    if a == [] {
      assert a + b == b;
    } else {
      assert (a + b)[0] == a[0] && (a + b)[1..] == a[1..] + b;
      match Step(st, a[0])
      case Continue(next) => ImportLinesAppend(next, a[1..], b);
      case Abort(_) =>
    }
  }
}
