/**
 * The Object Isolator add-on: "Isolate Selected" hides every scene object
 * that is not selected and shows every one that is; "Unhide All Objects"
 * shows every scene object. Both walk `scene.objects` and call `hide_set`
 * on each object in place.
 */
module ObjectIsolator {
  import opened SceneData

  /** The record isolating gives the object at position `n`. */
  function IsolatedRecord(o: ObjectRecord, n: nat, selected: seq<nat>): ObjectRecord {
    o.(hidden := n !in selected)
  }

  /** The record unhiding gives an object. */
  function UnhiddenRecord(o: ObjectRecord): ObjectRecord {
    o.(hidden := false)
  }

  /** The objects after isolating `selected`: hidden exactly when not selected. */
  function Isolated(objects: seq<ObjectRecord>, selected: seq<nat>): (r: seq<ObjectRecord>)
    ensures |r| == |objects|
  {
    if objects == [] then []
    else
      var n := |objects| - 1;
      Isolated(objects[..n], selected) + [IsolatedRecord(objects[n], n, selected)]
  }

  /** The objects after unhiding all: none hidden. */
  function Unhidden(objects: seq<ObjectRecord>): (r: seq<ObjectRecord>)
    ensures |r| == |objects|
  {
    if objects == [] then []
    else
      var n := |objects| - 1;
      Unhidden(objects[..n]) + [UnhiddenRecord(objects[n])]
  }

  /** Isolating sets each object's hidden flag to "not selected" and changes nothing else. */
  lemma {:induction false} IsolatedAt(objects: seq<ObjectRecord>, selected: seq<nat>, i: nat)
    requires i < |objects|
    ensures Isolated(objects, selected)[i] == objects[i].(hidden := i !in selected)
  {
    var n := |objects| - 1;
    if i < n {
      IsolatedAt(objects[..n], selected, i);
    }
  }

  /** Unhiding clears each object's hidden flag and changes nothing else. */
  lemma {:induction false} UnhiddenAt(objects: seq<ObjectRecord>, i: nat)
    requires i < |objects|
    ensures Unhidden(objects)[i] == objects[i].(hidden := false)
  {
    var n := |objects| - 1;
    if i < n {
      UnhiddenAt(objects[..n], i);
    }
  }

  /** Isolating again with the same selection changes nothing. */
  lemma IsolateIdempotent(objects: seq<ObjectRecord>, selected: seq<nat>)
    ensures Isolated(Isolated(objects, selected), selected) == Isolated(objects, selected)
  {
    var once := Isolated(objects, selected);
    forall i | 0 <= i < |objects|
      ensures Isolated(once, selected)[i] == once[i]
    {
      IsolatedAt(once, selected, i);
      IsolatedAt(objects, selected, i);
    }
  }

  /** Unhiding again changes nothing. */
  lemma UnhideIdempotent(objects: seq<ObjectRecord>)
    ensures Unhidden(Unhidden(objects)) == Unhidden(objects)
  {
    var once := Unhidden(objects);
    forall i | 0 <= i < |objects|
      ensures Unhidden(once)[i] == once[i]
    {
      UnhiddenAt(once, i);
      UnhiddenAt(objects, i);
    }
  }

  /** Unhiding after isolating leaves the scene as unhiding alone would. */
  lemma UnhideUndoesIsolate(objects: seq<ObjectRecord>, selected: seq<nat>)
    ensures Unhidden(Isolated(objects, selected)) == Unhidden(objects)
  {
    var isolated := Isolated(objects, selected);
    forall i | 0 <= i < |objects|
      ensures Unhidden(isolated)[i] == Unhidden(objects)[i]
    {
      UnhiddenAt(isolated, i);
      IsolatedAt(objects, selected, i);
      UnhiddenAt(objects, i);
    }
  }

  /** Isolating after unhiding leaves the scene as isolating alone would. */
  lemma IsolateAfterUnhide(objects: seq<ObjectRecord>, selected: seq<nat>)
    ensures Isolated(Unhidden(objects), selected) == Isolated(objects, selected)
  {
    var shown := Unhidden(objects);
    forall i | 0 <= i < |objects|
      ensures Isolated(shown, selected)[i] == Isolated(objects, selected)[i]
    {
      IsolatedAt(shown, selected, i);
      UnhiddenAt(objects, i);
      IsolatedAt(objects, selected, i);
    }
  }

  /** Only membership in the selection matters, not its order or repetitions. */
  lemma {:induction false} IsolateDependsOnMembership(objects: seq<ObjectRecord>, s1: seq<nat>, s2: seq<nat>)
    requires forall n: nat :: n in s1 <==> n in s2
    ensures Isolated(objects, s1) == Isolated(objects, s2)
  {
    if objects != [] {
      var n := |objects| - 1;
      IsolateDependsOnMembership(objects[..n], s1, s2);
    }
  }

  /** An empty selection hides every object. */
  lemma IsolateNothingHidesAll(objects: seq<ObjectRecord>, i: nat)
    requires i < |objects|
    ensures Isolated(objects, [])[i].hidden
  {
    IsolatedAt(objects, [], i);
  }

  /** Neither operator touches anything but the hidden flag. */
  lemma VisibilityOnly(objects: seq<ObjectRecord>, selected: seq<nat>)
    ensures SameExceptVisibility(Isolated(objects, selected), objects)
    ensures SameExceptVisibility(Unhidden(objects), objects)
    ensures forall i :: 0 <= i < |objects| ==>
              && Isolated(objects, selected)[i].hideRender == objects[i].hideRender
              && Isolated(objects, selected)[i].hideViewport == objects[i].hideViewport
              && Unhidden(objects)[i].hideRender == objects[i].hideRender
              && Unhidden(objects)[i].hideViewport == objects[i].hideViewport
  {
    forall i | 0 <= i < |objects|
      ensures Isolated(objects, selected)[i] == objects[i].(hidden := i !in selected)
      ensures Unhidden(objects)[i] == objects[i].(hidden := false)
    {
      IsolatedAt(objects, selected, i);
      UnhiddenAt(objects, i);
    }
  }

  /** One step of the isolate loop: position `i` gets its new hidden flag. */
  lemma IsolateStep(before: seq<ObjectRecord>, selected: seq<nat>, i: nat)
    requires i < |before|
    ensures (Isolated(before[..i], selected) + before[i..])[i] == before[i]
    ensures (Isolated(before[..i], selected) + before[i..])[i := IsolatedRecord(before[i], i, selected)]
         == Isolated(before[..i + 1], selected) + before[i + 1..]
  {
    assert before[..i + 1][..i] == before[..i];
  }

  /** One step of the unhide loop: position `i` is shown. */
  lemma UnhideStep(before: seq<ObjectRecord>, i: nat)
    requires i < |before|
    ensures (Unhidden(before[..i]) + before[i..])[i] == before[i]
    ensures (Unhidden(before[..i]) + before[i..])[i := UnhiddenRecord(before[i])]
         == Unhidden(before[..i + 1]) + before[i + 1..]
  {
    assert before[..i + 1][..i] == before[..i];
  }

  /** `OBJECTISOLATOR_OT_isolate.execute`: `obj.hide_set(obj not in selected)` for every scene object. */
  method Isolate(scene: Scene, selected: seq<nat>) returns (status: Status)
    modifies scene
    ensures scene.objects == Isolated(old(scene.objects), selected)
    ensures forall i :: 0 <= i < |scene.objects| ==> scene.objects[i].hidden == (i !in selected)
    ensures status == Finished
  {
    ghost var before := scene.objects;
    var i := 0;
    while i < |scene.objects|
      invariant |scene.objects| == |before|
      invariant 0 <= i <= |before|
      invariant scene.objects == Isolated(before[..i], selected) + before[i..]
    {
      IsolateStep(before, selected, i);
      scene.objects := scene.objects[i := scene.objects[i].(hidden := i !in selected)];
      i := i + 1;
    }
    assert before[..i] == before && before[i..] == [];
    forall k | 0 <= k < |scene.objects| ensures scene.objects[k].hidden == (k !in selected) {
      IsolatedAt(before, selected, k);
    }
    status := Finished;
  }

  /** `OBJECTISOLATOR_OT_unhide.execute`: `obj.hide_set(False)` for every scene object. */
  method UnhideAll(scene: Scene) returns (status: Status)
    modifies scene
    ensures scene.objects == Unhidden(old(scene.objects))
    ensures forall i :: 0 <= i < |scene.objects| ==> !scene.objects[i].hidden
    ensures status == Finished
  {
    ghost var before := scene.objects;
    var i := 0;
    while i < |scene.objects|
      invariant |scene.objects| == |before|
      invariant 0 <= i <= |before|
      invariant scene.objects == Unhidden(before[..i]) + before[i..]
    {
      UnhideStep(before, i);
      scene.objects := scene.objects[i := scene.objects[i].(hidden := false)];
      i := i + 1;
    }
    assert before[..i] == before && before[i..] == [];
    forall k | 0 <= k < |scene.objects| ensures !scene.objects[k].hidden {
      UnhiddenAt(before, k);
    }
    status := Finished;
  }
}
