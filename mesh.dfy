/** The mesh a bound is made of, as both writers read it and the reader
    rebuilds it: vertex positions, faces over vertex indices with a
    material index, and the names of the object's material slots. */
module MeshModel {

  /** A coordinate, as a fixed-point value in millionths (see module Text). */
  type Coord = int

  datatype Vec3 = Vec3(x: Coord, y: Coord, z: Coord)

  /** The axis remap between host space and file space, (x, y, z) to
      (-x, z, y). The writers apply it to every vertex they write and the
      reader applies it to every vertex it reads. */
  function Remap(v: Vec3): Vec3 {
    Vec3(-v.x, v.z, v.y)
  }

  /** The remap is its own inverse, so reading undoes writing. */
  lemma RemapInvolutive(v: Vec3)
    ensures Remap(Remap(v)) == v
  {
  }

  /** A face: the vertex index of each of its loops, in winding order,
      and the index of its material slot. */
  datatype Face = Face(loop: seq<nat>, material: int)

  datatype Mesh = Mesh(verts: seq<Vec3>, faces: seq<Face>, slots: seq<string>)

  predicate IsTri(f: Face) {
    |f.loop| == 3
  }

  predicate IsQuad(f: Face) {
    |f.loop| == 4
  }

  predicate IsTriOrQuad(f: Face) {
    IsTri(f) || IsQuad(f)
  }

  /** max(0, material_index), as both writers compute it. */
  function ClampMaterial(m: int): (r: nat)
    ensures r >= m && (m >= 0 ==> r == m) && (m < 0 ==> r == 0)
  {
    if m < 0 then 0 else m
  }

  /** The number of faces that are written as "tri" or "quad". */
  function TriQuadCount(fs: seq<Face>): (n: nat)
    ensures n <= |fs|
  {
    if fs == [] then 0
    else TriQuadCount(fs[..|fs| - 1]) + (if IsTriOrQuad(fs[|fs| - 1]) then 1 else 0)
  }

  /** An object of the host scene: its name, its type ("MESH" for a mesh
      object), its material slot names, and its geometry without and with
      modifiers applied. */
  datatype SceneObject = SceneObject(
    name: string,
    kind: string,
    slots: seq<string>,
    geometry: Mesh,
    evaluated: Mesh)

  /** The mesh the writers see: the evaluated geometry when modifiers are
      applied, the object's own geometry otherwise, with the object's
      material slots. */
  function ExportedMesh(ob: SceneObject, applyModifiers: bool): Mesh
  {
    var g := if applyModifiers then ob.evaluated else ob.geometry;
    Mesh(g.verts, g.faces, ob.slots)
  }
}
