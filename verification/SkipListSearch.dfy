/**
 The three searches of folly::ConcurrentSkipList on a list nobody is changing:
 all of them find the lower bound of the key and agree on membership.
 */
module SkipListSearch {
  import opened Options
  import opened SkipListProtocol
  import opened SkipListInvariant
  import opened SkipListTheorems

  ghost function Keys(s: State): set<int> {
    set n | n in s.nodes && On(s, n, 0) :: s.nodes[n].key
  }

  /** The first linked node whose key is not below `data`, or none if there is no such node. */
  ghost predicate IsLowerBound(s: State, data: int, r: Option<Id>) {
    && (r.Some? ==> On(s, r.value, 0) && data <= s.nodes[r.value].key)
    && forall x :: On(s, x, 0) && data <= s.nodes[x].key ==> r.Some? && s.nodes[r.value].key <= s.nodes[x].key
  }

  lemma LowerBoundIsUnique(s: State, data: int, a: Option<Id>, b: Option<Id>)
    requires Inv(s) && IsLowerBound(s, data, a) && IsLowerBound(s, data, b)
    ensures a == b
  {
    if a.Some? && b.Some? {
      assert s.nodes[a.value].key == s.nodes[b.value].key;
    }
  }

  predicate Greater(s: State, data: int, q: Option<Id>)
    requires q.Some? ==> q.value in s.nodes
  {
    q.Some? && s.nodes[q.value].key < data
  }

  predicate Less(s: State, data: int, q: Option<Id>)
    requires q.Some? ==> q.value in s.nodes
  {
    q.None? || data < s.nodes[q.value].key
  }

  /** `pred` is on layer `l` and strictly before `data`. */
  ghost predicate Left(s: State, pred: Id, l: nat, data: int) {
    && Anchor(s, pred, l) && pred in s.nodes && l < |s.nodes[pred].skip|
    && (s.nodes[pred].isHead || s.nodes[pred].key < data)
  }

  lemma PointerKnown(s: State, pred: Id, l: nat, data: int)
    requires Inv(s) && Left(s, pred, l, data)
    ensures Follows(s, pred, l, s.nodes[pred].skip[l])
    ensures var q := s.nodes[pred].skip[l]; q.Some? ==>
      On(s, q.value, l) && l < |s.nodes[q.value].skip| && After(s, q.value, l) < After(s, pred, l) && |After(s, q.value, l)| < |After(s, pred, l)|
  {
    var q := s.nodes[pred].skip[l];
    if q.Some? {
      assert NodeShape(s, q.value);
      AfterShrinks(s, pred, l, q.value);
    }
  }

  lemma LeftBelow(s: State, pred: Id, l: nat, k: nat, data: int)
    requires Inv(s) && Left(s, pred, l, data) && k <= l
    ensures Left(s, pred, k, data)
  {
    assert NodeShape(s, pred);
  }

  /** The stepping-right loop the three searches share: walk layer `l` while the next key is below `data`. */
  method StepRight(s: State, data: int, start: Id, l: nat) returns (pred: Id, node: Option<Id>)
    requires Inv(s) && Left(s, start, l, data)
    ensures Left(s, pred, l, data) && node == s.nodes[pred].skip[l]
    ensures node.Some? ==> node.value in s.nodes
    ensures !Greater(s, data, node)
  {
    pred := start;
    PointerKnown(s, pred, l, data);
    node := s.nodes[pred].skip[l];
    while Greater(s, data, node)
      invariant Left(s, pred, l, data) && node == s.nodes[pred].skip[l] && (node.Some? ==> node.value in s.nodes)
      decreases |After(s, pred, l)|
    {
      PointerKnown(s, pred, l, data);
      pred := node.value;
      node := s.nodes[pred].skip[l];
      PointerKnown(s, pred, l, data);
    }
  }

  /** A predecessor and what follows it on layer 0 bracket the key. */
  lemma Bracket(s: State, pred: Id, data: int, node: Option<Id>)
    requires Inv(s) && Left(s, pred, 0, data) && node == s.nodes[pred].skip[0]
    requires (node.Some? ==> node.value in s.nodes) && !Greater(s, data, node)
    ensures IsLowerBound(s, data, node) && (data in Keys(s) <==> !Less(s, data, node))
  {
    PointerKnown(s, pred, 0, data);
  }

  /** A node with the key on any layer is the lower bound. */
  lemma HitIsLowerBound(s: State, l: nat, data: int, node: Id)
    requires Inv(s) && On(s, node, l) && s.nodes[node].key == data
    ensures IsLowerBound(s, data, Some(node)) && data in Keys(s)
  {
    assert On(s, node, 0);
  }

  /** Where `findNodeDownRight` rests between steps: `pred` is left of `data` on every layer below `ht`. */
  ghost predicate Resting(s: State, data: int, pred: Id, ht: nat)
    requires s.head in s.nodes
  {
    && ht <= s.nodes[s.head].height
    && (forall k: nat :: k < ht ==> Left(s, pred, k, data))
    && (ht == 0 ==> Left(s, pred, 0, data) && (s.nodes[pred].skip[0].Some? ==> s.nodes[pred].skip[0].value in s.nodes)
                    && Less(s, data, s.nodes[pred].skip[0]))
  }

  /** The stepping-down loop: skip layers whose next key is beyond `data`. */
  method StepDown(s: State, data: int, pred: Id, start: nat) returns (ht: nat)
    requires Inv(s) && Resting(s, data, pred, start)
    ensures Resting(s, data, pred, ht) && ht <= start
  {
    ht := start;
    while ht > 0
      invariant Resting(s, data, pred, ht) && ht <= start
    {
      PointerKnown(s, pred, ht - 1, data);
      if !Less(s, data, s.nodes[pred].skip[ht - 1]) { break; }
      ht := ht - 1;
    }
  }

  method FindNodeDownRight(s: State, data: int) returns (node: Option<Id>, found: bool)
    requires Inv(s)
    ensures IsLowerBound(s, data, node) && (found <==> data in Keys(s))
  {
    var pred := s.head;
    var ht: nat := s.nodes[pred].height;
    assert NodeShape(s, s.head);
    node := None;
    found := false;
    while !found
      invariant !found ==> Resting(s, data, pred, ht)
      invariant found ==> IsLowerBound(s, data, node) && data in Keys(s)
      decreases !found, ht
    {
      ht := StepDown(s, data, pred, ht);
      if ht == 0 {
        Bracket(s, pred, data, s.nodes[pred].skip[0]);
        return s.nodes[pred].skip[0], false;
      }
      ht := ht - 1;
      pred, node := StepRight(s, data, pred, ht);
      PointerKnown(s, pred, ht, data);
      found := !Less(s, data, node);
      if found {
        HitIsLowerBound(s, ht, data, node.value);
      } else {
        forall k: nat | k < ht ensures Left(s, pred, k, data) { LeftBelow(s, pred, ht, k, data); }
      }
    }
  }

  method FindNodeRightDown(s: State, data: int) returns (node: Option<Id>, found: bool)
    requires Inv(s)
    ensures IsLowerBound(s, data, node) && (found <==> data in Keys(s))
  {
    var pred := s.head;
    assert NodeShape(s, s.head);
    node := None;
    found := false;
    var layer := s.nodes[s.head].height - 1;
    while !found && layer >= 0
      invariant -1 <= layer < s.nodes[s.head].height
      invariant !found && layer >= 0 ==> Left(s, pred, layer, data)
      invariant found ==> IsLowerBound(s, data, node) && data in Keys(s)
      invariant !found && layer == -1 ==> IsLowerBound(s, data, node) && data !in Keys(s)
      decreases layer + 1
    {
      pred, node := StepRight(s, data, pred, layer);
      PointerKnown(s, pred, layer, data);
      found := !Less(s, data, node);
      if found { HitIsLowerBound(s, layer, data, node.value); }
      else if layer == 0 { Bracket(s, pred, data, node); }
      else { LeftBelow(s, pred, layer, layer - 1, data); }
      layer := layer - 1;
    }
  }

  // ---------------------------------------------------------------- lower_bound and find

  /** Nothing of the set (linked and not marked) lies between `data` and `node`. */
  ghost predicate Passed(s: State, data: int, node: Option<Id>) {
    && (node.Some? ==> On(s, node.value, 0) && data <= s.nodes[node.value].key)
    && forall x :: On(s, x, 0) && !s.nodes[x].marked && data <= s.nodes[x].key ==> node.Some? && s.nodes[node.value].key <= s.nodes[x].key
  }

  /** The first node of the set whose key is not below `data`, or none if there is no such node. */
  ghost predicate IsLiveBound(s: State, data: int, r: Option<Id>) {
    Passed(s, data, r) && (r.Some? ==> !s.nodes[r.value].marked)
  }

  lemma PassMarked(s: State, data: int, n: Id)
    requires Inv(s) && Passed(s, data, Some(n)) && s.nodes[n].marked
    ensures 0 < |s.nodes[n].skip| && Passed(s, data, s.nodes[n].skip[0])
    ensures var q := s.nodes[n].skip[0]; q.Some? ==> q.value in s.nodes && |After(s, q.value, 0)| < |After(s, n, 0)|
  {
    assert NodeShape(s, n) && Anchor(s, n, 0);
    PointerKnown(s, n, 0, s.nodes[n].key + 1);
  }

  /** `lower_bound`: step over nodes that are being removed. */
  method LowerBound(s: State, data: int) returns (node: Option<Id>)
    requires Inv(s)
    ensures IsLiveBound(s, data, node)
  {
    var found;
    node, found := FindNodeDownRight(s, data);
    while node.Some? && s.nodes[node.value].marked
      invariant Passed(s, data, node)
      decreases if node.Some? then |After(s, node.value, 0)| + 1 else 0
    {
      PassMarked(s, data, node.value);
      node := s.nodes[node.value].skip[0];
    }
  }

  /** `find`: the node of a key of the set, and of no other key. */
  method FindInSet(s: State, data: int) returns (node: Option<Id>)
    requires Inv(s)
    ensures node.Some? <==> data in Contents(s)
    ensures node.Some? ==> On(s, node.value, 0) && s.nodes[node.value].key == data && !s.nodes[node.value].marked
  {
    var found;
    node, found := FindNodeDownRight(s, data);
    if found && !s.nodes[node.value].marked { return; }
    node := None;
  }

  /** What a finished layer of `findInsertionPoint` holds: the predecessor of `data`, and the node that follows it. */
  ghost predicate LayerFilled(s: State, data: int, pred: Id, succ: Option<Id>, l: nat) {
    && Left(s, pred, l, data) && succ == s.nodes[pred].skip[l]
    && (succ.Some? ==> succ.value in s.nodes) && !Greater(s, data, succ)
  }

  /** On layers at and below the one the node was found on, the node is what follows the predecessor. */
  lemma FoundFollows(s: State, data: int, pred: Id, node: Option<Id>, l: nat, hit: Id)
    requires Inv(s) && LayerFilled(s, data, pred, node, l) && On(s, hit, l) && s.nodes[hit].key == data
    ensures node == Some(hit)
  {
    PointerKnown(s, pred, l, data);
    assert On(s, hit, 0) && On(s, node.value, 0);
  }

  /** A layer whose successor is beyond `data` does not hold a node with that key. */
  lemma NotAbove(s: State, data: int, pred: Id, succ: Option<Id>, l: nat, n: Id)
    requires Inv(s) && LayerFilled(s, data, pred, succ, l) && Less(s, data, succ)
    requires n in s.nodes && s.nodes[n].key == data
    ensures !On(s, n, l)
  {
    PointerKnown(s, pred, l, data);
  }

  /** Layers above `layer` are filled in. */
  ghost predicate Filled(s: State, data: int, ps: seq<Id>, qs: seq<Option<Id>>, layer: int) {
    |ps| == |qs| && forall l: nat :: layer < l < |ps| ==> LayerFilled(s, data, ps[l], qs[l], l)
  }

  /** The key was first met on layer `at`, as node `hit`; layers above `layer` are done. */
  ghost predicate Hit(s: State, data: int, qs: seq<Option<Id>>, layer: int, at: int, hit: Option<Id>)
    requires forall l: nat :: layer < l < |qs| && qs[l].Some? ==> qs[l].value in s.nodes
  {
    if at < 0 then hit.None? && forall l: nat :: layer < l < |qs| ==> Less(s, data, qs[l])
    else layer < at < |qs| && hit.Some? && hit.value in s.nodes && s.nodes[hit.value].key == data
         && s.nodes[hit.value].cnt == at + 1 && On(s, hit.value, at)
         && forall l: nat :: layer < l <= at ==> qs[l] == hit
  }

  lemma FirstHit(s: State, data: int, ps: seq<Id>, qs: seq<Option<Id>>, layer: nat, n: Id)
    requires Inv(s) && Filled(s, data, ps, qs, layer) && |ps| == s.nodes[s.head].height
    requires Hit(s, data, qs, layer, -1, None) && On(s, n, layer) && s.nodes[n].key == data
    ensures s.nodes[n].cnt == layer + 1
  {
    assert NodeShape(s, n);
    if layer + 1 < |ps| {
      NotAbove(s, data, ps[layer + 1], qs[layer + 1], layer + 1, n);
    }
  }

  /**
   `findInsertionPoint`: the found layer is the top layer the node is linked on, so for a fully
   linked unmarked node it is `maxLayer()`, which is what `okToDelete` compares it with.
   Every recorded successor is what its predecessor points at, so validation can succeed.
   */
  method FindInsertionPoint(s: State, data: int, preds: array<Id>, succs: array<Option<Id>>) returns (foundLayer: int)
    requires Inv(s) && preds.Length == succs.Length == s.nodes[s.head].height
    modifies preds, succs
    ensures Filled(s, data, preds[..], succs[..], -1) && -1 <= foundLayer < preds.Length
    ensures preds.Length >= 1 && IsLowerBound(s, data, succs[0]) && (foundLayer >= 0 <==> data in Keys(s))
    ensures foundLayer >= 0 ==> Hit(s, data, succs[..], -1, foundLayer, succs[0])
    ensures foundLayer >= 0 && s.nodes[succs[0].value].full && !s.nodes[succs[0].value].marked ==>
              s.nodes[succs[0].value].height == foundLayer + 1
  {
    foundLayer := -1;
    var pred := s.head;
    var foundNode: Option<Id> := None;
    assert NodeShape(s, s.head);
    var layer := s.nodes[s.head].height - 1;
    while layer >= 0
      invariant -1 <= layer < preds.Length && (layer >= 0 ==> Left(s, pred, layer, data))
      invariant -1 <= foundLayer < preds.Length
      invariant Filled(s, data, preds[..], succs[..], layer)
      invariant Hit(s, data, succs[..], layer, foundLayer, foundNode)
      decreases layer + 1
    {
      var node;
      pred, node := StepRight(s, data, pred, layer);
      ghost var ps, qs := preds[..], succs[..];
      HitStep(s, data, ps, qs, layer, pred, node, foundLayer, foundNode);
      FilledStep(s, data, ps, qs, layer, pred, node);
      if foundLayer == -1 && !Less(s, data, node) {
        foundLayer := layer;
        foundNode := node;
      }
      preds[layer] := pred;
      succs[layer] := if foundNode.Some? then foundNode else node;
      assert succs[..] == qs[layer := node] && preds[..] == ps[layer := pred];
      if layer > 0 { LeftBelow(s, pred, layer, layer - 1, data); }
      layer := layer - 1;
    }
    Finish(s, data, preds[..], succs[..], foundLayer, foundNode);
  }

  lemma HitStep(s: State, data: int, ps: seq<Id>, qs: seq<Option<Id>>, layer: nat, pred: Id, node: Option<Id>,
                at: int, hit: Option<Id>)
    requires Inv(s) && Filled(s, data, ps, qs, layer) && |ps| == s.nodes[s.head].height && layer < |ps|
    requires LayerFilled(s, data, pred, node, layer) && -1 <= at && Hit(s, data, qs, layer, at, hit)
    ensures var first := at == -1 && !Less(s, data, node);
            var hit' := if first then node else hit;
            && Hit(s, data, qs[layer := node], layer - 1, if first then layer else at, hit')
            && (hit'.Some? ==> hit' == node)
  {
    PointerKnown(s, pred, layer, data);
    if at == -1 && !Less(s, data, node) {
      FirstHit(s, data, ps, qs, layer, node.value);
    } else if at >= 0 {
      FoundFollows(s, data, pred, node, layer, hit.value);
    }
  }

  lemma Finish(s: State, data: int, ps: seq<Id>, qs: seq<Option<Id>>, at: int, hit: Option<Id>)
    requires Inv(s) && Filled(s, data, ps, qs, -1) && |ps| == s.nodes[s.head].height && -1 <= at && Hit(s, data, qs, -1, at, hit)
    ensures |ps| >= 1 && IsLowerBound(s, data, qs[0]) && (at >= 0 <==> data in Keys(s))
    ensures at >= 0 ==> qs[0] == hit
    ensures at >= 0 ==> (s.nodes[qs[0].value].full && !s.nodes[qs[0].value].marked ==> s.nodes[qs[0].value].height == at + 1)
  {
    assert NodeShape(s, s.head);
    Bracket(s, ps[0], data, qs[0]);
    if at >= 0 { assert NodeShape(s, hit.value); }
  }

  lemma FilledStep(s: State, data: int, ps: seq<Id>, qs: seq<Option<Id>>, layer: nat, pred: Id, node: Option<Id>)
    requires Filled(s, data, ps, qs, layer) && layer < |ps| && LayerFilled(s, data, pred, node, layer)
    ensures Filled(s, data, ps[layer := pred], qs[layer := node], layer - 1)
  {
  }
}
