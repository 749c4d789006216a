/** export_binary_bound: the BBND binary writer. The file is a one-byte
    version, three 4-byte counts, 12 bytes per vertex, a 104-byte record
    per material slot (or one "default" record), and a 10-byte record per
    face of three or four loops. struct.pack raises when a count or an
    index does not fit its field; the writer then stops, and what it had
    written stays in the file. */
module BbndExport {
  import opened Text
  import opened MeshModel
  import opened Bytes
  import opened ExportHelpers

  /** The first value that does not fit struct's 'L' (taken as four
      bytes) and 'H' (two bytes). */
  const U32Limit: nat := 0x1_0000_0000
  const U16Limit: nat := 0x1_0000

  /** What a writer has put in the file, and whether it got to the end
      (false when struct.pack raised part way). */
  datatype Written = Written(bytes: seq<byte>, complete: bool)

  /** The three counts of the header fit 'LLL'. */
  predicate CountsFit(m: Mesh) {
    |m.verts| < U32Limit && |m.slots| < U32Limit && |m.faces| < U32Limit
  }

  /** The version byte 1 and the vertex, material-slot and face counts. */
  function Header(m: Mesh): (r: seq<byte>)
    requires CountsFit(m)
    ensures |r| == 13
  {
    [1] + (U32(|m.verts|) + U32(|m.slots|) + U32(|m.faces|))
  }

  /** struct.pack('fff') of one vertex, in file space (-x, z, y). */
  function VertexRecord(v: Vec3, f32: F32Encoder): (r: seq<byte>)
    ensures |r| == 12
  {
    var p := Remap(v);
    F32(f32, p.x) + F32(f32, p.y) + F32(f32, p.z)
  }

  function VertexRecords(vs: seq<Vec3>, f32: F32Encoder): (r: seq<byte>)
    ensures |r| == 12 * |vs|
  {
    if vs == [] then [] else VertexRecords(vs[..|vs| - 1], f32) + VertexRecord(vs[|vs| - 1], f32)
  }

  function MaterialRecords(names: seq<string>, f32: F32Encoder): seq<byte> {
    if names == [] then []
    else MaterialRecords(names[..|names| - 1], f32) + WriteBinaryMaterial(names[|names| - 1], f32)
  }

  /** Every name is ASCII and at most 32 characters, so that each
      material record is exactly 104 bytes. */
  predicate NamesFit(names: seq<string>) {
    forall i :: 0 <= i < |names| ==> IsAscii(names[i]) && |names[i]| <= 32
  }

  /** struct.pack('HHHHH') accepts the face: its three or four vertex
      indices and its clamped material index are below 2^16. */
  predicate FaceFits(f: Face)
    requires IsTriOrQuad(f)
  {
    && f.loop[0] < U16Limit && f.loop[1] < U16Limit && f.loop[2] < U16Limit
    && (IsQuad(f) ==> f.loop[3] < U16Limit)
    && ClampMaterial(f.material) < U16Limit
  }

  /** The five 16-bit fields of a face: three vertex indices, the fourth
      index or 0 for a triangle, and the clamped material index. */
  function FaceRecord(f: Face): (r: seq<byte>)
    requires IsTriOrQuad(f) && FaceFits(f)
    ensures |r| == 10
  {
    U16(f.loop[0]) + U16(f.loop[1]) + U16(f.loop[2])
      + U16(if IsTri(f) then 0 else f.loop[3]) + U16(ClampMaterial(f.material))
  }

  /** The face records in order; the first triangle or quad that does not
      fit ends the writing, with none of its bytes written. Faces of any
      other arity write nothing. */
  function FaceRecords(fs: seq<Face>): Written {
    if fs == [] then Written([], true)
    else
      var p := FaceRecords(fs[..|fs| - 1]);
      var f := fs[|fs| - 1];
      if !p.complete || !IsTriOrQuad(f) then p
      else if FaceFits(f) then Written(p.bytes + FaceRecord(f), true)
      else Written(p.bytes, false)
  }

  /** The whole file export_binary_bound writes. */
  function BbndWrite(m: Mesh, f32: F32Encoder): Written {
    if !CountsFit(m) then Written([1], false)
    else
      var fr := FaceRecords(m.faces);
      Written(Header(m) + VertexRecords(m.verts, f32)
        + MaterialRecords(MaterialNames(m.slots), f32) + fr.bytes, fr.complete)
  }

  // ------------------------------------------------------------------
  // The writer

  /** export_binary_bound(file, ob) on the mesh m the host supplies; file
      is the bytes written and complete is false when struct.pack raised. */
  method ExportBinaryBound(m: Mesh, f32: F32Encoder) returns (file: seq<byte>, complete: bool)
    ensures Written(file, complete) == BbndWrite(m, f32)
  {
    file := [1];
    if !(|m.verts| < U32Limit && |m.slots| < U32Limit && |m.faces| < U32Limit) {
      return file, false;
    }
    var counts := U32(|m.verts|) + U32(|m.slots|) + U32(|m.faces|);
    file := file + counts;
    file := WriteVertices(file, m.verts, f32);
    file := WriteMaterials(file, m.slots, f32);
    file, complete := WriteFaces(file, m.faces);
  }

  /** The vertex loop: three floats per vertex. */
  method WriteVertices(file0: seq<byte>, verts: seq<Vec3>, f32: F32Encoder) returns (file: seq<byte>)
    ensures file == file0 + VertexRecords(verts, f32)
  {
    file := file0;
    for i := 0 to |verts|
      invariant file == file0 + VertexRecords(verts[..i], f32)
    {
      var v := verts[i];
      var nx := v.x * -1;
      assert nx == Remap(v).x;
      var rec := F32(f32, nx) + F32(f32, v.z) + F32(f32, v.y);
      assert verts[..i + 1][..i] == verts[..i];
      file := file + rec;
    }
    WholePrefix(verts);
  }

  /** The material loop: a record per slot, or one "default" record. */
  method WriteMaterials(file0: seq<byte>, slots: seq<string>, f32: F32Encoder) returns (file: seq<byte>)
    ensures file == file0 + MaterialRecords(MaterialNames(slots), f32)
  {
    file := file0;
    ghost var names := MaterialNames(slots);
    var numMaterials := |slots|;
    if numMaterials > 0 {
      for i := 0 to |slots|
        invariant file == file0 + MaterialRecords(names[..i], f32)
      {
        var mat := slots[i];
        assert names[i] == GetUndupeName(mat);
        MaterialRecordsStep(file0, names, f32, i);
        file := file + WriteBinaryMaterial(GetUndupeName(mat), f32);
      }
      WholePrefix(names);
    } else {
      DefaultRecord(file0, f32);
      file := file + WriteBinaryMaterial("default", f32);
    }
  }

  /** The face loop: a record per triangle or quad, stopping at the first
      one whose fields do not fit. */
  method WriteFaces(file0: seq<byte>, faces: seq<Face>) returns (file: seq<byte>, complete: bool)
    ensures file == file0 + FaceRecords(faces).bytes && complete == FaceRecords(faces).complete
  {
    file := file0;
    for i := 0 to |faces|
      invariant file == file0 + FaceRecords(faces[..i]).bytes && FaceRecords(faces[..i]).complete
    {
      var fcs := faces[i];
      var materialIndex := if 0 >= fcs.material then 0 else fcs.material;
      FaceRecordsStep(faces, i);
      if |fcs.loop| == 3 || |fcs.loop| == 4 {
        var fourth := if |fcs.loop| == 3 then 0 else fcs.loop[3];
        if !(fcs.loop[0] < U16Limit && fcs.loop[1] < U16Limit && fcs.loop[2] < U16Limit
             && fourth < U16Limit && materialIndex < U16Limit) {
          FaceRecordsStuck(faces, i + 1);
          return file, false;
        }
        var rec := U16(fcs.loop[0]) + U16(fcs.loop[1]) + U16(fcs.loop[2]) + U16(fourth) + U16(materialIndex);
        assert rec == FaceRecord(fcs);
        AppendAssoc(file0, FaceRecords(faces[..i]).bytes, rec);
        file := file + rec;
      }
    }
    WholePrefix(faces);
    return file, true;
  }

  /** Extending the face records by face i. */
  lemma FaceRecordsStep(fs: seq<Face>, i: nat)
    requires i < |fs| && FaceRecords(fs[..i]).complete
    ensures IsTriOrQuad(fs[i]) && FaceFits(fs[i]) ==>
      FaceRecords(fs[..i + 1]) == Written(FaceRecords(fs[..i]).bytes + FaceRecord(fs[i]), true)
    ensures IsTriOrQuad(fs[i]) && !FaceFits(fs[i]) ==>
      FaceRecords(fs[..i + 1]) == Written(FaceRecords(fs[..i]).bytes, false)
    ensures !IsTriOrQuad(fs[i]) ==> FaceRecords(fs[..i + 1]) == FaceRecords(fs[..i])
  {
    assert fs[..i + 1][..i] == fs[..i];
  }

  /** Appending the record of material i. */
  lemma MaterialRecordsStep(file0: seq<byte>, names: seq<string>, f32: F32Encoder, i: nat)
    requires i < |names|
    ensures file0 + MaterialRecords(names[..i + 1], f32)
      == file0 + MaterialRecords(names[..i], f32) + WriteBinaryMaterial(names[i], f32)
  {
    assert names[..i + 1][..i] == names[..i];
    AppendAssoc(file0, MaterialRecords(names[..i], f32), WriteBinaryMaterial(names[i], f32));
  }

  /** The single record written when there are no material slots. */
  lemma DefaultRecord(file0: seq<byte>, f32: F32Encoder)
    ensures file0 + MaterialRecords(MaterialNames([]), f32) == file0 + WriteBinaryMaterial("default", f32)
  {
    var d := WriteBinaryMaterial("default", f32);
    assert MaterialNames([]) == ["default"];
    assert ["default"][..0] == [];
    assert MaterialRecords(["default"], f32) == [] + d;
    assert [] + d == d;
  }

  // ------------------------------------------------------------------
  // Properties of the face records

  /** Once the writing has stopped, later faces add nothing. */
  lemma {:induction false} FaceRecordsStuck(fs: seq<Face>, j: nat)
    requires j <= |fs| && !FaceRecords(fs[..j]).complete
    ensures FaceRecords(fs) == FaceRecords(fs[..j])
    decreases |fs|
  {
    if j == |fs| {
      assert fs[..j] == fs;
    } else {
      var init := fs[..|fs| - 1];
      assert init[..j] == fs[..j];
      FaceRecordsStuck(init, j);
    }
  }

  /** The face records are complete exactly when every triangle and quad
      fits. */
  lemma {:induction false} FaceRecordsComplete(fs: seq<Face>)
    ensures FaceRecords(fs).complete
      <==> forall i :: 0 <= i < |fs| && IsTriOrQuad(fs[i]) ==> FaceFits(fs[i])
  {
    if fs != [] {
      var init := fs[..|fs| - 1];
      FaceRecordsComplete(init);
      assert forall i :: 0 <= i < |init| ==> init[i] == fs[i];
    }
  }

  /** Complete face records are ten bytes per triangle or quad. */
  lemma {:induction false} FaceRecordsLength(fs: seq<Face>)
    requires FaceRecords(fs).complete
    ensures |FaceRecords(fs).bytes| == 10 * TriQuadCount(fs)
  {
    if fs != [] {
      FaceRecordsLength(fs[..|fs| - 1]);
    }
  }

  /** When some triangle or quad does not fit, the records are those of
      the faces before the first such face, and the writing is
      incomplete. */
  lemma FaceRecordsPartial(fs: seq<Face>, i: nat)
    requires i < |fs| && IsTriOrQuad(fs[i]) && !FaceFits(fs[i])
    requires forall j :: 0 <= j < i && IsTriOrQuad(fs[j]) ==> FaceFits(fs[j])
    ensures FaceRecords(fs[..i]).complete
    ensures FaceRecords(fs) == Written(FaceRecords(fs[..i]).bytes, false)
  {
    var pre := fs[..i];
    assert forall j :: 0 <= j < |pre| ==> pre[j] == fs[j];
    FaceRecordsComplete(pre);
    var upto := fs[..i + 1];
    assert upto[..|upto| - 1] == pre && upto[|upto| - 1] == fs[i];
    assert FaceRecords(upto) == Written(FaceRecords(pre).bytes, false);
    FaceRecordsStuck(fs, i + 1);
  }

  /** The record of face i starts ten bytes after each earlier triangle or
      quad. */
  lemma {:induction false} FaceRecordsAt(fs: seq<Face>, i: nat)
    requires FaceRecords(fs).complete && i < |fs| && IsTriOrQuad(fs[i])
    ensures FaceFits(fs[i])
    ensures 10 * TriQuadCount(fs[..i]) + 10 <= |FaceRecords(fs).bytes|
    ensures FaceRecords(fs).bytes[10 * TriQuadCount(fs[..i])..10 * TriQuadCount(fs[..i]) + 10]
      == FaceRecord(fs[i])
    decreases |fs|
  {
    var init := fs[..|fs| - 1];
    var p := FaceRecords(init);
    assert p.complete;
    FaceRecordsLength(init);
    var lo := 10 * TriQuadCount(fs[..i]);
    if i == |fs| - 1 {
      assert fs[..i] == init;
      SliceRight(p.bytes, FaceRecord(fs[i]), lo, lo + 10, 0, 10);
    } else {
      assert init[..i] == fs[..i];
      FaceRecordsAt(init, i);
      TriQuadPrefix(init, i + 1);
      assert init[..i + 1][..i] == fs[..i];
      if IsTriOrQuad(fs[|fs| - 1]) {
        SliceLeft(p.bytes, FaceRecord(fs[|fs| - 1]), lo, lo + 10);
      }
    }
  }

  /** The triangles and quads of a prefix are no more than those of the
      whole list, and one more than those of the shorter prefix when the
      last face is one. */
  lemma TriQuadPrefix(fs: seq<Face>, j: nat)
    requires 0 < j <= |fs|
    ensures TriQuadCount(fs[..j]) == TriQuadCount(fs[..j - 1]) + (if IsTriOrQuad(fs[j - 1]) then 1 else 0)
    ensures TriQuadCount(fs[..j]) <= TriQuadCount(fs)
  {
    assert fs[..j][..j - 1] == fs[..j - 1];
    TriQuadMonotone(fs, j);
  }

  lemma {:induction false} TriQuadMonotone(fs: seq<Face>, j: nat)
    requires j <= |fs|
    ensures TriQuadCount(fs[..j]) <= TriQuadCount(fs)
    decreases |fs|
  {
    if j < |fs| {
      var init := fs[..|fs| - 1];
      assert init[..j] == fs[..j];
      TriQuadMonotone(init, j);
    } else {
      assert fs[..j] == fs;
    }
  }

  /** The five fields of a face record, read back. */
  lemma FaceRecordFields(f: Face)
    requires IsTriOrQuad(f) && FaceFits(f)
    ensures ReadU16(FaceRecord(f), 0) == f.loop[0]
    ensures ReadU16(FaceRecord(f), 2) == f.loop[1]
    ensures ReadU16(FaceRecord(f), 4) == f.loop[2]
    ensures ReadU16(FaceRecord(f), 6) == if IsTri(f) then 0 else f.loop[3]
    ensures ReadU16(FaceRecord(f), 8) == ClampMaterial(f.material)
  {
    var a, b, c := U16(f.loop[0]), U16(f.loop[1]), U16(f.loop[2]);
    var d, e := U16(if IsTri(f) then 0 else f.loop[3]), U16(ClampMaterial(f.material));
    var r := FaceRecord(f);
    assert r[0..2] == a && r[2..4] == b && r[4..6] == c && r[6..8] == d && r[8..10] == e;
    ReadU16Slice(r, 0, 2, 0);
    ReadU16Slice(r, 2, 4, 0);
    ReadU16Slice(r, 4, 6, 0);
    ReadU16Slice(r, 6, 8, 0);
    ReadU16Slice(r, 8, 10, 0);
    U16Read(f.loop[0]);
    U16Read(f.loop[1]);
    U16Read(f.loop[2]);
    U16Read(if IsTri(f) then 0 else f.loop[3]);
    U16Read(ClampMaterial(f.material));
  }

  // ------------------------------------------------------------------
  // Properties of the vertex and material records

  lemma {:induction false} VertexRecordsAt(vs: seq<Vec3>, f32: F32Encoder, i: nat)
    requires i < |vs|
    ensures VertexRecords(vs, f32)[12 * i..12 * i + 12] == VertexRecord(vs[i], f32)
    decreases |vs|
  {
    var init := vs[..|vs| - 1];
    var last := VertexRecord(vs[|vs| - 1], f32);
    if i == |vs| - 1 {
      SliceRight(VertexRecords(init, f32), last, 12 * i, 12 * i + 12, 0, 12);
    } else {
      VertexRecordsAt(init, f32, i);
      SliceLeft(VertexRecords(init, f32), last, 12 * i, 12 * i + 12);
    }
  }

  lemma {:induction false} MaterialRecordsLength(names: seq<string>, f32: F32Encoder)
    requires NamesFit(names)
    ensures |MaterialRecords(names, f32)| == 104 * |names|
  {
    if names != [] {
      var init := names[..|names| - 1];
      assert forall i :: 0 <= i < |init| ==> init[i] == names[i];
      MaterialRecordsLength(init, f32);
    }
  }

  lemma {:induction false} MaterialRecordsAt(names: seq<string>, f32: F32Encoder, k: nat)
    requires NamesFit(names) && k < |names|
    ensures |MaterialRecords(names, f32)| == 104 * |names|
    ensures MaterialRecords(names, f32)[104 * k..104 * k + 104] == WriteBinaryMaterial(names[k], f32)
    decreases |names|
  {
    MaterialRecordsLength(names, f32);
    var init := names[..|names| - 1];
    assert forall i :: 0 <= i < |init| ==> init[i] == names[i];
    MaterialRecordsLength(init, f32);
    var last := WriteBinaryMaterial(names[|names| - 1], f32);
    if k == |names| - 1 {
      SliceRight(MaterialRecords(init, f32), last, 104 * k, 104 * k + 104, 0, 104);
    } else {
      MaterialRecordsAt(init, f32, k);
      SliceLeft(MaterialRecords(init, f32), last, 104 * k, 104 * k + 104);
    }
  }

  // ------------------------------------------------------------------
  // Properties of the whole file

  /** A file whose counts fit is the header, the vertex records, the
      material records and the face records, in that order. */
  lemma BbndParts(m: Mesh, f32: F32Encoder)
    requires CountsFit(m)
    ensures BbndWrite(m, f32).bytes == Header(m) + VertexRecords(m.verts, f32)
        + MaterialRecords(MaterialNames(m.slots), f32) + FaceRecords(m.faces).bytes
    ensures BbndWrite(m, f32).complete == FaceRecords(m.faces).complete
  {
  }

  /** The file is complete exactly when the counts fit and every triangle
      and quad fits. */
  lemma BbndComplete(m: Mesh, f32: F32Encoder)
    ensures BbndWrite(m, f32).complete <==>
      CountsFit(m) && forall i :: 0 <= i < |m.faces| && IsTriOrQuad(m.faces[i]) ==> FaceFits(m.faces[i])
  {
    FaceRecordsComplete(m.faces);
  }

  /** When the counts do not fit, only the version byte is written. */
  lemma BbndCountsOverflow(m: Mesh, f32: F32Encoder)
    requires !CountsFit(m)
    ensures BbndWrite(m, f32) == Written([1], false)
  {
  }

  /** The file starts with the header. */
  lemma BbndHeaderAt(m: Mesh, f32: F32Encoder)
    requires CountsFit(m)
    ensures |BbndWrite(m, f32).bytes| >= 13 && BbndWrite(m, f32).bytes[..13] == Header(m)
  {
    BbndParts(m, f32);
    SliceOfFirst(Header(m), VertexRecords(m.verts, f32), MaterialRecords(MaterialNames(m.slots), f32),
      FaceRecords(m.faces).bytes, 0, 13);
  }

  /** The header read back: version 1, then the vertex, slot and face
      counts. */
  lemma HeaderFields(m: Mesh)
    requires CountsFit(m)
    ensures Header(m)[0] == 1
    ensures ReadU32(Header(m), 1) == |m.verts|
    ensures ReadU32(Header(m), 5) == |m.slots|
    ensures ReadU32(Header(m), 9) == |m.faces|
  {
    var h := Header(m);
    assert h[1..5] == U32(|m.verts|) && h[5..9] == U32(|m.slots|) && h[9..13] == U32(|m.faces|);
    ReadU32Slice(h, 1, 5, 0);
    ReadU32Slice(h, 5, 9, 0);
    ReadU32Slice(h, 9, 13, 0);
    U32Read(|m.verts|);
    U32Read(|m.slots|);
    U32Read(|m.faces|);
  }

  /** Vertex i is the 12 bytes at 13 + 12 i: its coordinates in file space
      (-x, z, y). */
  lemma BbndVertexAt(m: Mesh, f32: F32Encoder, i: nat)
    requires CountsFit(m) && i < |m.verts|
    ensures |BbndWrite(m, f32).bytes| >= 13 + 12 * i + 12
    ensures var p := Remap(m.verts[i]);
      BbndWrite(m, f32).bytes[13 + 12 * i..13 + 12 * i + 12] == F32(f32, p.x) + F32(f32, p.y) + F32(f32, p.z)
  {
    BbndParts(m, f32);
    VertexRecordsAt(m.verts, f32, i);
    SliceOfSecond(Header(m), VertexRecords(m.verts, f32), MaterialRecords(MaterialNames(m.slots), f32),
      FaceRecords(m.faces).bytes, 13 + 12 * i, 13 + 12 * i + 12, 12 * i, 12 * i + 12);
  }

  /** The material records follow the vertices: 104 bytes per name when
      every name fits its 32 bytes (record k is given by
      MaterialRecordsAt). */
  lemma BbndMaterialsAt(m: Mesh, f32: F32Encoder)
    requires CountsFit(m) && NamesFit(MaterialNames(m.slots))
    ensures var base := 13 + 12 * |m.verts|;
      var n := 104 * |MaterialNames(m.slots)|;
      |BbndWrite(m, f32).bytes| >= base + n
      && BbndWrite(m, f32).bytes[base..base + n] == MaterialRecords(MaterialNames(m.slots), f32)
  {
    BbndParts(m, f32);
    var names := MaterialNames(m.slots);
    var mr := MaterialRecords(names, f32);
    MaterialRecordsLength(names, f32);
    var base := 13 + 12 * |m.verts|;
    SliceOfThird(Header(m), VertexRecords(m.verts, f32), mr,
      FaceRecords(m.faces).bytes, base, base + |mr|, 0, |mr|);
    assert mr[0..|mr|] == mr;
  }

  /** The length of a complete file whose names all fit:
      13 + 12 V + 104 max(S, 1) + 10 T, T the triangles and quads. */
  lemma BbndLength(m: Mesh, f32: F32Encoder)
    requires BbndWrite(m, f32).complete && NamesFit(MaterialNames(m.slots))
    ensures |BbndWrite(m, f32).bytes|
      == 13 + 12 * |m.verts| + 104 * (if |m.slots| > 0 then |m.slots| else 1) + 10 * TriQuadCount(m.faces)
  {
    BbndParts(m, f32);
    MaterialRecordsLength(MaterialNames(m.slots), f32);
    FaceRecordsLength(m.faces);
  }

  /** The offset of the record of face i in a file whose names fit: after
      the header, the vertices, the materials and the earlier triangles
      and quads. */
  function FaceOffset(m: Mesh, i: nat): nat
    requires i <= |m.faces|
  {
    13 + 12 * |m.verts| + 104 * |MaterialNames(m.slots)| + 10 * TriQuadCount(m.faces[..i])
  }

  /** In a complete file whose names fit, face i, when a triangle or a
      quad, is the ten bytes at FaceOffset(m, i). */
  lemma BbndFaceRecordAt(m: Mesh, f32: F32Encoder, i: nat)
    requires BbndWrite(m, f32).complete && NamesFit(MaterialNames(m.slots))
    requires i < |m.faces| && IsTriOrQuad(m.faces[i])
    ensures FaceFits(m.faces[i])
    ensures FaceOffset(m, i) + 10 <= |BbndWrite(m, f32).bytes|
    ensures BbndWrite(m, f32).bytes[FaceOffset(m, i)..FaceOffset(m, i) + 10] == FaceRecord(m.faces[i])
  {
    BbndParts(m, f32);
    var names := MaterialNames(m.slots);
    var h, vr, mr := Header(m), VertexRecords(m.verts, f32), MaterialRecords(names, f32);
    var fb := FaceRecords(m.faces).bytes;
    MaterialRecordsLength(names, f32);
    FaceRecordsAt(m.faces, i);
    var lo := 10 * TriQuadCount(m.faces[..i]);
    var off := FaceOffset(m, i);
    SliceOfFourth(h, vr, mr, fb, off, off + 10, lo, lo + 10);
  }

}
