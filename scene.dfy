/**
 * The part of the host's scene the add-ons read and write, made explicit:
 * an ordered collection of object records, identified by their position,
 * and the status and report messages an operator hands back.
 */
module SceneData {

  /** An object's `type`; the add-ons only tell these kinds apart. */
  datatype Kind = Mesh | Light | Empty | Other

  /**
   * One scene object: its name, its kind, the per-view-layer hidden state
   * that `hide_set` writes, the `hide_render` and `hide_viewport` flags,
   * and, for a mesh, the lengths of its vertex and polygon lists.
   */
  datatype ObjectRecord = ObjectRecord(
    name: string,
    kind: Kind,
    hidden: bool,
    hideRender: bool,
    hideViewport: bool,
    vertexCount: nat,
    polygonCount: nat)

  /** What an operator's `execute` returns. */
  datatype Status = Finished | Cancelled

  /** The report levels the add-ons use. */
  datatype Level = Info | Warning | Error

  /** One `self.report(level, text)` call. */
  datatype Message = Message(level: Level, text: string)

  /** The scene: its objects, in the order `scene.objects` lists them. */
  class Scene {
    var objects: seq<ObjectRecord>

    constructor (objects: seq<ObjectRecord>)
      ensures this.objects == objects
    {
      this.objects := objects;
    }
  }

  /** Every selected position names an object of the scene. */
  predicate ValidSelection(objects: seq<ObjectRecord>, selected: seq<nat>) {
    forall k :: 0 <= k < |selected| ==> selected[k] < |objects|
  }

  /** Two object lists differ at most in their visibility flags. */
  predicate SameExceptVisibility(a: seq<ObjectRecord>, b: seq<ObjectRecord>) {
    && |a| == |b|
    && forall i :: 0 <= i < |a| ==>
         && a[i].name == b[i].name
         && a[i].kind == b[i].kind
         && a[i].vertexCount == b[i].vertexCount
         && a[i].polygonCount == b[i].polygonCount
  }
}
