/**
 * The Light Manager add-on's "Solo Selected Light" operator: when the first
 * selected object is a light, every light of the scene is hidden from the
 * render and the viewport except that one, which is shown in both.
 */
module LightManager {
  import opened SceneData

  /** The objects after soloing the light at position `keep`. */
  function Soloed(objects: seq<ObjectRecord>, keep: nat): (r: seq<ObjectRecord>)
    ensures |r| == |objects|
  {
    if objects == [] then []
    else
      var n := |objects| - 1;
      Soloed(objects[..n], keep) + [SoloedRecord(objects[n], n, keep)]
  }

  /**
   * Soloing shows the kept object and hides every other light in both the
   * render and the viewport, and leaves every object that is not a light,
   * and every other field, as it was.
   */
  lemma {:induction false} SoloedAt(objects: seq<ObjectRecord>, keep: nat, i: nat)
    requires i < |objects|
    ensures objects[i].kind == Light ==>
              Soloed(objects, keep)[i] == objects[i].(hideRender := i != keep, hideViewport := i != keep)
    ensures objects[i].kind != Light ==> Soloed(objects, keep)[i] == objects[i]
  {
    var n := |objects| - 1;
    if i < n {
      SoloedAt(objects[..n], keep, i);
    }
  }

  /** Soloing the same light twice gives the flags soloing it once gives. */
  lemma SoloIdempotent(objects: seq<ObjectRecord>, keep: nat)
    ensures Soloed(Soloed(objects, keep), keep) == Soloed(objects, keep)
  {
    var once := Soloed(objects, keep);
    forall i | 0 <= i < |objects|
      ensures Soloed(once, keep)[i] == once[i]
    {
      SoloedAt(objects, keep, i);
      SoloedAt(once, keep, i);
    }
  }

  /**
   * When the kept object is a light, it is the one light left visible:
   * a light is shown (in render and viewport alike) exactly when it is the
   * kept one, so other selected lights are hidden too.
   */
  lemma SoloLeavesOneLight(objects: seq<ObjectRecord>, keep: nat)
    requires keep < |objects| && objects[keep].kind == Light
    ensures forall i :: 0 <= i < |objects| && Soloed(objects, keep)[i].kind == Light ==>
              && (!Soloed(objects, keep)[i].hideRender <==> i == keep)
              && (!Soloed(objects, keep)[i].hideViewport <==> i == keep)
    ensures SameExceptVisibility(Soloed(objects, keep), objects)
    ensures forall i :: 0 <= i < |objects| ==> Soloed(objects, keep)[i].hidden == objects[i].hidden
  {
    forall i | 0 <= i < |objects|
      ensures objects[i].kind == Light ==>
                Soloed(objects, keep)[i] == objects[i].(hideRender := i != keep, hideViewport := i != keep)
      ensures objects[i].kind != Light ==> Soloed(objects, keep)[i] == objects[i]
    {
      SoloedAt(objects, keep, i);
    }
  }

  /** The guard of the operator: a non-empty selection whose first object is a light. */
  predicate CanSolo(objects: seq<ObjectRecord>, selected: seq<nat>)
    requires ValidSelection(objects, selected)
  {
    |selected| > 0 && objects[selected[0]].kind == Light
  }

  /** The record soloing gives the object at position `n`. */
  function SoloedRecord(o: ObjectRecord, n: nat, keep: nat): ObjectRecord {
    if o.kind == Light then o.(hideRender := n != keep, hideViewport := n != keep) else o
  }

  /** One step of the solo loop: position `i` gets its new flags. */
  lemma SoloStep(before: seq<ObjectRecord>, keep: nat, i: nat)
    requires i < |before|
    ensures (Soloed(before[..i], keep) + before[i..])[i] == before[i]
    ensures (Soloed(before[..i], keep) + before[i..])[i := SoloedRecord(before[i], i, keep)]
         == Soloed(before[..i + 1], keep) + before[i + 1..]
  {
    assert before[..i + 1][..i] == before[..i];
  }

  /**
   * The loop of `LM_OT_SoloLight.execute`: every light but the one at
   * `keep` is hidden from render and viewport, that one is shown, and
   * nothing else changes.
   */
  method SoloLoop(scene: Scene, keep: nat)
    modifies scene
    ensures scene.objects == Soloed(old(scene.objects), keep)
  {
    ghost var before := scene.objects;
    var i := 0;
    while i < |scene.objects|
      invariant |scene.objects| == |before|
      invariant 0 <= i <= |before|
      invariant scene.objects == Soloed(before[..i], keep) + before[i..]
    {
      SoloStep(before, keep, i);
      var o := scene.objects[i];
      if o.kind == Light {
        o := o.(hideRender := i != keep, hideViewport := i != keep);
      }
      scene.objects := scene.objects[i := o];
      i := i + 1;
    }
    assert before[..i] == before && before[i..] == [];
  }

  /** `LM_OT_SoloLight.execute`. */
  method SoloLight(scene: Scene, selected: seq<nat>) returns (status: Status, messages: seq<Message>)
    requires ValidSelection(scene.objects, selected)
    modifies scene
    ensures !CanSolo(old(scene.objects), selected) ==>
              && status == Cancelled
              && scene.objects == old(scene.objects)
              && messages == [Message(Warning, "Select one light")]
    ensures CanSolo(old(scene.objects), selected) ==>
              && status == Finished
              && scene.objects == Soloed(old(scene.objects), selected[0])
              && messages == [Message(Info, "Soloed: " + old(scene.objects)[selected[0]].name)]
  {
    if |selected| == 0 || scene.objects[selected[0]].kind != Light {
      return Cancelled, [Message(Warning, "Select one light")];
    }
    var keep := selected[0];
    ghost var before := scene.objects;
    SoloLoop(scene, keep);
    SoloedAt(before, keep, keep);
    return Finished, [Message(Info, "Soloed: " + scene.objects[keep].name)];
  }
}
