/** save and save_bnd: the export entry point. It refuses a scene with an
    object named "bound" (in any case) that is not a mesh, looks up the
    first mesh so named, and writes the text file and, on request, the
    binary one from it. */
module BndSave {
  import opened Text
  import opened MeshModel
  import opened Bytes
  import opened ExportHelpers
  import opened BndExport
  import opened BbndExport

  /** The outcome of an export: the two files written, or the exception
      raised before anything was written. */
  datatype SaveOutcome =
    | Saved(bnd: string, bbnd: Option<Written>)
    | InvalidBound
    | NoBound

  /** An object called "bound" that is not a mesh. */
  predicate BadBound(ob: SceneObject) {
    Lower(ob.name) == "bound" && ob.kind != "MESH"
  }

  /** save(...) followed by save_bnd(...): sceneObjects are the objects
      of the current scene, which save checks, and dataObjects all the
      objects of the file, among which find_object_ci looks. */
  method Save(sceneObjects: seq<SceneObject>, dataObjects: seq<SceneObject>, exportBinary: bool,
              applyModifiers: bool, f32: F32Encoder)
    returns (r: SaveOutcome)
    ensures r == InvalidBound <==> exists i :: 0 <= i < |sceneObjects| && BadBound(sceneObjects[i])
    ensures r == NoBound <==>
      (forall i :: 0 <= i < |sceneObjects| ==> !BadBound(sceneObjects[i]))
      && (forall i :: 0 <= i < |dataObjects| ==> !MatchesCi(dataObjects[i], "BOUND"))
    ensures r.Saved? ==> exists i :: (0 <= i < |dataObjects| && MatchesCi(dataObjects[i], "BOUND")
      && (forall j :: 0 <= j < i ==> !MatchesCi(dataObjects[j], "BOUND"))
      && r.bnd == BndText(ExportedMesh(dataObjects[i], applyModifiers))
      && r.bbnd == (if exportBinary then Some(BbndWrite(ExportedMesh(dataObjects[i], applyModifiers), f32)) else None))
  {
    for i := 0 to |sceneObjects|
      invariant forall j :: 0 <= j < i ==> !BadBound(sceneObjects[j])
    {
      if Lower(sceneObjects[i].name) == "bound" && sceneObjects[i].kind != "MESH" {
        return InvalidBound;
      }
    }
    var found := FindObjectCi(dataObjects, "BOUND");
    if found.None? {
      return NoBound;
    }
    var m := ExportedMesh(dataObjects[found.value], applyModifiers);
    var bnd := ExportBound(m);
    var bbnd := None;
    if exportBinary {
      var file, complete := ExportBinaryBound(m, f32);
      bbnd := Some(Written(file, complete));
    }
    return Saved(bnd, bbnd);
  }
}
