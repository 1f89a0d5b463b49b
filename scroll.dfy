/**
 * The scrolling entity pool shared by the obstacle, cloud and ground-element
 * lists of game.js (updateObstacles, updateClouds, updateGroundElements).
 * Every tick each entity moves left by a step and any entity whose right edge
 * has passed x = 0 is spliced out of its list.
 */
module Scroll {

  /** One rectangle on the canvas; `kind` is the obstacle type, or a scenery tag. */
  datatype Sprite<K> = Sprite(kind: K, x: real, y: real, width: real, height: real)
  {
    /** The same entity moved left by `step`; no other field changes. */
    function Shifted(step: real): Sprite<K>
    {
      this.(x := x - step)
    }

    /** The entity is kept: its right edge has not passed the left border. */
    predicate OnScreen()
    {
      x + width >= 0.0
    }
  }

  predicate AllOnScreen<K>(s: seq<Sprite<K>>)
  {
    forall k :: 0 <= k < |s| ==> s[k].OnScreen()
  }

  /** The list after one move-and-prune pass: survivors, moved, in their old order. */
  function Advance<K>(s: seq<Sprite<K>>, step: real): seq<Sprite<K>>
  {
    if s == [] then []
    else
      var moved := s[0].Shifted(step);
      (if moved.OnScreen() then [moved] else []) + Advance(s[1..], step)
  }

  /**
   * Reference definition of the same pass by positions: the indices j >= i of
   * `s` whose entity is still on screen after moving, in increasing order.
   */
  function SurvivorsFrom<K>(s: seq<Sprite<K>>, step: real, i: nat): seq<nat>
    requires i <= |s|
    decreases |s| - i
  {
    if i == |s| then []
    else (if s[i].Shifted(step).OnScreen() then [i] else []) + SurvivorsFrom(s, step, i + 1)
  }

  /** SurvivorsFrom lists exactly the surviving indices in [i, |s|), strictly increasing. */
  lemma {:induction false} SurvivorsFromExact<K>(s: seq<Sprite<K>>, step: real, i: nat)
    requires i <= |s|
    ensures forall k :: 0 <= k < |SurvivorsFrom(s, step, i)| ==>
      i <= SurvivorsFrom(s, step, i)[k] < |s|
    ensures forall k1, k2 :: 0 <= k1 < k2 < |SurvivorsFrom(s, step, i)| ==>
      SurvivorsFrom(s, step, i)[k1] < SurvivorsFrom(s, step, i)[k2]
    ensures forall j :: i <= j < |s| ==>
      (j in SurvivorsFrom(s, step, i) <==> s[j].Shifted(step).OnScreen())
    decreases |s| - i
  {
    if i < |s| {
      SurvivorsFromExact(s, step, i + 1);
    }
  }

  /** The k-th entity after the pass is the moved copy of the k-th survivor. */
  lemma {:induction false} AdvanceIndexed<K>(s: seq<Sprite<K>>, step: real, i: nat)
    requires i <= |s|
    ensures |Advance(s[i..], step)| == |SurvivorsFrom(s, step, i)|
    ensures forall k :: 0 <= k < |SurvivorsFrom(s, step, i)| ==>
      SurvivorsFrom(s, step, i)[k] < |s| &&
      Advance(s[i..], step)[k] == s[SurvivorsFrom(s, step, i)[k]].Shifted(step)
    decreases |s| - i
  {
    SurvivorsFromExact(s, step, i);
    if i < |s| {
      AdvanceIndexed(s, step, i + 1);
      assert s[i..][0] == s[i];
      assert s[i..][1..] == s[i + 1..];
      var moved := s[i].Shifted(step);
      var head: seq<Sprite<K>> := if moved.OnScreen() then [moved] else [];
      var headIdx: seq<nat> := if moved.OnScreen() then [i] else [];
      var rest, restIdx := Advance(s[i + 1..], step), SurvivorsFrom(s, step, i + 1);
      assert Advance(s[i..], step) == head + rest;
      assert SurvivorsFrom(s, step, i) == headIdx + restIdx;
      forall k | 0 <= k < |headIdx + restIdx|
        ensures (head + rest)[k] == s[(headIdx + restIdx)[k]].Shifted(step)
      {
        if k >= |headIdx| {
          assert (head + rest)[k] == rest[k - |head|];
          assert (headIdx + restIdx)[k] == restIdx[k - |headIdx|];
        }
      }
    }
  }

  /**
   * The whole contract of one pass: survivors are exactly the entities still
   * on screen after moving, each moved by exactly `step`, in their old order.
   */
  lemma AdvanceSpec<K>(s: seq<Sprite<K>>, step: real)
    ensures var r, idx := Advance(s, step), SurvivorsFrom(s, step, 0);
      |r| == |idx| &&
      (forall k :: 0 <= k < |idx| ==> idx[k] < |s| && r[k] == s[idx[k]].Shifted(step)) &&
      (forall k1, k2 :: 0 <= k1 < k2 < |idx| ==> idx[k1] < idx[k2]) &&
      (forall j :: 0 <= j < |s| ==> (j in idx <==> s[j].Shifted(step).OnScreen()))
  {
    AdvanceIndexed(s, step, 0);
    SurvivorsFromExact(s, step, 0);
    assert s[0..] == s;
  }

  /** Every entry of a list after the pass has x + width >= 0. */
  lemma {:induction false} AdvanceOnScreen<K>(s: seq<Sprite<K>>, step: real)
    ensures AllOnScreen(Advance(s, step))
    ensures |Advance(s, step)| <= |s|
  {
    if s != [] {
      AdvanceOnScreen(s[1..], step);
    }
  }

  /** Every entry after the pass is the moved copy of an entry before it. */
  lemma AdvanceFrom<K>(s: seq<Sprite<K>>, step: real)
    ensures forall k :: 0 <= k < |Advance(s, step)| ==>
      exists j :: 0 <= j < |s| && Advance(s, step)[k] == s[j].Shifted(step)
  {
    AdvanceSpec(s, step);
  }

  /**
   * The reverse-index move-and-splice loop: entity i is moved in place, then
   * removed when its right edge is off the left border.
   */
  method MoveAndPrune<K>(entities: seq<Sprite<K>>, step: real) returns (live: seq<Sprite<K>>)
    ensures live == Advance(entities, step)
  {
    live := entities;
    var i: int := |live| - 1;
    while i >= 0
      invariant -1 <= i < |entities|
      invariant live == entities[..i + 1] + Advance(entities[i + 1..], step)
    {
      var moved := live[i].Shifted(step);
      live := live[i := moved];
      if moved.x + moved.width < 0.0 {
        live := live[..i] + live[i + 1..];
      }
      assert entities[i..][0] == entities[i];
      assert entities[i..][1..] == entities[i + 1..];
      assert entities[..i + 1][..i] == entities[..i];
      i := i - 1;
    }
    assert entities[0..] == entities;
  }
}
