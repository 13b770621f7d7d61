/**
 Several servers bound to one registry, beside providers that know nothing of them: whatever order
 they are reconciled, cleared and edited in, nobody's tools are touched but one's own.
 */
module ToolBinderSharing {
  import opened Options
  import opened ToolBinder

  /** No tool object is of both. */
  ghost predicate Apart(b: Binding, c: Binding) {
    forall j, k :: 0 <= j < |b.tools| && 0 <= k < |c.tools| ==> b.tools[j].identity != c.tools[k].identity
  }

  /** The registry after an edit by another binding, whose foreign entries are all still there. */
  lemma OtherStillOwns(r: Registry, b: Binding, c: Binding, r2: Registry, b2: Binding)
    requires Owns(r, b) && Owns(r, c) && Apart(b, c)
    requires Foreign(r2, b2) == Foreign(r, b) && r2.next >= r.next
    requires forall id :: id in r2.tools ==> r2.tools[id] < r2.next
    requires forall j :: 0 <= j < |b2.tools| ==>
               IdOf(b2, b2.tools[j]) in r2.tools && r2.tools[IdOf(b2, b2.tools[j])] == b2.tools[j].identity
    requires forall id, j :: id in r2.tools && 0 <= j < |b2.tools| && r2.tools[id] == b2.tools[j].identity ==>
               id == IdOf(b2, b2.tools[j])
    ensures Owns(r2, c) && Apart(b2, c)
  {
    hide IdOf;
    forall k | 0 <= k < |c.tools|
      ensures var id := IdOf(c, c.tools[k]); id in Foreign(r2, b2) && r2.tools[id] == c.tools[k].identity
    {
      var id := IdOf(c, c.tools[k]);
      assert id in Foreign(r, b);
      assert Foreign(r2, b2)[id] == Foreign(r, b)[id];
    }
    forall id, k | id in r2.tools && 0 <= k < |c.tools| && r2.tools[id] == c.tools[k].identity
      ensures id == IdOf(c, c.tools[k])
    {
      if id in Foreign(r2, b2) {
        assert Foreign(r2, b2)[id] == Foreign(r, b)[id];
      }
    }
    forall j, k | 0 <= j < |b2.tools| && 0 <= k < |c.tools| ensures b2.tools[j].identity != c.tools[k].identity {
      assert IdOf(c, c.tools[k]) in Foreign(r2, b2);
    }
  }

  /** Reconciling one binding leaves every other one with its tools. */
  lemma ReconcilingLeavesOthers(r: Registry, b: Binding, c: Binding, infos: seq<Info>)
    requires Owns(r, b) && Owns(r, c) && Apart(b, c) && DistinctNames(infos)
    ensures var (r2, b2) := ApplyTools(r, b, infos); Owns(r2, c) && Apart(b2, c)
  {
    var (r2, b2) := ApplyTools(r, b, infos);
    ApplyToolsReconciles(r, b, infos);
    NextGrows(r, b, infos);
    hide ApplyTools, Foreign, IdOf, DistinctIds;
    OtherStillOwns(r, b, c, r2, b2);
  }

  lemma NextGrows(r: Registry, b: Binding, infos: seq<Info>)
    ensures ApplyTools(r, b, infos).0.next >= r.next
  {
    AllGrows(b.name, Current(b), r, infos);
  }

  lemma {:induction false} AllGrows(name: string, current: map<string, Owned>, r: Registry, infos: seq<Info>)
    ensures ApplyAll(name, current, r, infos).0.next >= r.next
    decreases |infos|
  {
    if infos != [] {
      AllGrows(name, current, r, infos[..|infos| - 1]);
    }
  }

  /** So does clearing it. */
  lemma ClearingLeavesOthers(r: Registry, b: Binding, c: Binding)
    requires Owns(r, b) && Owns(r, c) && Apart(b, c)
    ensures var (r2, b2) := ClearTools(r, b); Owns(r2, c) && Apart(b2, c) && Owns(r2, b2) && Foreign(r2, b2) == Foreign(r, b)
  {
    var (r2, b2) := ClearTools(r, b);
    ClearToolsLeavesForeign(r, b);
    ClearedSame(r, b);
    assert Foreign(r2, b2) == r2.tools;
    hide ClearTools, IdOf;
    OtherStillOwns(r, b, c, r2, b2);
  }

  lemma {:induction false} ClearedSame(r: Registry, b: Binding)
    ensures var (r2, b2) := ClearTools(r, b); r2.next == r.next && b2 == b.(tools := [])
    decreases |b.tools|
  {
    if b.tools != [] {
      var t := b.tools[0];
      var r1 := if IdOf(b, t) in r.tools && r.tools[IdOf(b, t)] == t.identity then r.(tools := r.tools - {IdOf(b, t)}) else r;
      ClearedSame(r1, b.(tools := b.tools[1..]));
    }
  }

  /** Whatever was done to the registry before: no entry that is not the binding's is replaced or removed. */
  lemma ForeignIsLeftAlone(r: Registry, b: Binding, infos: seq<Info>, id: string)
    requires id in Foreign(r, b)
    ensures var r2 := ApplyTools(r, b, infos).0; id in r2.tools && r2.tools[id] == r.tools[id]
    ensures var r2 := ClearTools(r, b).0; id in r2.tools && r2.tools[id] == r.tools[id]
  {
    CurrentInTools(b, id);
    LeftByAll(r, b, infos, id);
    LeftByClearing(r, b, id);
  }

  lemma {:induction false} CurrentInTools(b: Binding, id: string)
    ensures id in Current(b) ==> Current(b)[id] in b.tools
    decreases |b.tools|
  {
    hide ComposeId;
    if b.tools != [] {
      CurrentInTools(b.(tools := b.tools[..|b.tools| - 1]), id);
    }
  }

  lemma {:induction false} LeftByAll(r: Registry, b: Binding, infos: seq<Info>, id: string)
    requires id in Foreign(r, b) && (id in Current(b) ==> Current(b)[id] in b.tools)
    ensures var r1 := ApplyAll(b.name, Current(b), r, infos).0; id in r1.tools && r1.tools[id] == r.tools[id]
    decreases |infos|
  {
    hide Current, ComposeId;
    if infos != [] {
      LeftByAll(r, b, infos[..|infos| - 1], id);
    }
  }

  lemma {:induction false} LeftByClearing(r: Registry, b: Binding, id: string)
    requires id in Foreign(r, b)
    ensures var r2 := ClearTools(r, b).0; id in r2.tools && r2.tools[id] == r.tools[id]
    decreases |b.tools|
  {
    hide IdOf;
    if b.tools != [] {
      var t, rest := b.tools[0], b.(tools := b.tools[1..]);
      var r1 := if IdOf(b, t) in r.tools && r.tools[IdOf(b, t)] == t.identity then r.(tools := r.tools - {IdOf(b, t)}) else r;
      assert r.tools[id] != t.identity;
      assert forall k :: 0 <= k < |rest.tools| ==> rest.tools[k] == b.tools[k + 1];
      LeftByClearing(r1, rest, id);
    }
  }

  // ---- many bindings ------------------------------------------------------------------------------

  datatype World = World(registry: Registry, bindings: seq<Binding>)

  /** Two edits of a binding, and two of other providers, which leave the tools of bindings alone. */
  datatype Edit = Reconcile(k: nat, infos: seq<Info>) | Clear(k: nat) | Provide(id: string) | Withdraw(id: string)

  ghost predicate Bound(w: World, identity: nat) {
    exists k, j :: 0 <= k < |w.bindings| && 0 <= j < |w.bindings[k].tools| && w.bindings[k].tools[j].identity == identity
  }

  /** The entries of other providers. */
  ghost function Others(w: World): map<string, nat> {
    map id | id in w.registry.tools && !Bound(w, w.registry.tools[id]) :: w.registry.tools[id]
  }

  ghost predicate AllOwn(w: World) {
    && (forall k :: 0 <= k < |w.bindings| ==> Owns(w.registry, w.bindings[k]))
    && (forall j, k :: 0 <= j < |w.bindings| && 0 <= k < |w.bindings| && j != k ==> Apart(w.bindings[j], w.bindings[k]))
    && (forall id :: id in w.registry.tools ==> w.registry.tools[id] < w.registry.next)
  }

  ghost function StepWorld(w: World, e: Edit): World {
    match e
    case Reconcile(k, infos) =>
      if k >= |w.bindings| then w
      else
        var (r, b) := ApplyTools(w.registry, w.bindings[k], infos);
        World(r, w.bindings[k := b])
    case Clear(k) =>
      if k >= |w.bindings| then w
      else
        var (r, b) := ClearTools(w.registry, w.bindings[k]);
        World(r, w.bindings[k := b])
    case Provide(id) =>
      if id in w.registry.tools && id !in Others(w) then w else w.(registry := Register(w.registry, id))
    case Withdraw(id) =>
      if id !in Others(w) then w else w.(registry := w.registry.(tools := w.registry.tools - {id}))
  }

  ghost function RunWorld(w: World, edits: seq<Edit>): World
    decreases |edits|
  {
    if edits == [] then w else RunWorld(StepWorld(w, edits[0]), edits[1..])
  }

  /** What an edit does to the entries of other providers. */
  ghost function OthersAfter(w: World, e: Edit): map<string, nat> {
    match e
    case Provide(id) =>
      if id in w.registry.tools && id !in Others(w) then Others(w) else Others(w)[id := w.registry.next]
    case Withdraw(id) => Others(w) - {id}
    case _ => Others(w)
  }

  ghost predicate BoundElsewhere(w: World, k: nat, identity: nat) {
    exists m, j :: 0 <= m < |w.bindings| && m != k && 0 <= j < |w.bindings[m].tools|
                   && w.bindings[m].tools[j].identity == identity
  }

  /** An entry of other providers is foreign to one binding and not of any other. */
  lemma OthersAre(w: World, k: nat, id: string)
    requires k < |w.bindings|
    ensures id in Others(w)
       <==> (id in Foreign(w.registry, w.bindings[k]) && !BoundElsewhere(w, k, w.registry.tools[id]))
    ensures id in Others(w) ==> Others(w)[id] == w.registry.tools[id]
    ensures id in Foreign(w.registry, w.bindings[k]) ==> Foreign(w.registry, w.bindings[k])[id] == w.registry.tools[id]
  {
  }

  lemma SameElsewhere(w: World, w2: World, k: nat, identity: nat)
    requires |w2.bindings| == |w.bindings|
    requires forall m :: 0 <= m < |w.bindings| && m != k ==> w2.bindings[m] == w.bindings[m]
    ensures BoundElsewhere(w2, k, identity) <==> BoundElsewhere(w, k, identity)
  {
  }

  lemma BindingEdited(w: World, k: nat, r: Registry, b: Binding)
    requires AllOwn(w) && k < |w.bindings| && Owns(r, b) && Foreign(r, b) == Foreign(w.registry, w.bindings[k])
    requires forall j :: 0 <= j < |w.bindings| && j != k ==> Owns(r, w.bindings[j]) && Apart(b, w.bindings[j])
    ensures var w2 := World(r, w.bindings[k := b]); AllOwn(w2) && Others(w2) == Others(w)
  {
    var w2 := World(r, w.bindings[k := b]);
    assert forall id :: id in r.tools ==> r.tools[id] < r.next;
    hide Owns, Others, Foreign, BoundElsewhere;
    forall id
      ensures id in Others(w2) <==> id in Others(w)
      ensures id in Others(w) ==> Others(w2)[id] == Others(w)[id]
    {
      OthersAre(w, k, id);
      OthersAre(w2, k, id);
      if id in Foreign(r, b) {
        SameElsewhere(w, w2, k, r.tools[id]);
      }
    }
    assert AllOwn(w2);
    assert Others(w2) == Others(w);
  }

  lemma ReconcileKeeps(w: World, k: nat, infos: seq<Info>)
    requires AllOwn(w) && k < |w.bindings| && DistinctNames(infos)
    ensures var w2 := StepWorld(w, Reconcile(k, infos)); AllOwn(w2) && Others(w2) == Others(w)
  {
    var (r, b) := ApplyTools(w.registry, w.bindings[k], infos);
    ApplyToolsReconciles(w.registry, w.bindings[k], infos);
    forall j | 0 <= j < |w.bindings| && j != k ensures Owns(r, w.bindings[j]) && Apart(b, w.bindings[j]) {
      ReconcilingLeavesOthers(w.registry, w.bindings[k], w.bindings[j], infos);
    }
    hide ApplyTools, Owns, Others, Foreign, IdOf, Apart;
    BindingEdited(w, k, r, b);
  }

  lemma ClearKeeps(w: World, k: nat)
    requires AllOwn(w) && k < |w.bindings|
    ensures var w2 := StepWorld(w, Clear(k)); AllOwn(w2) && Others(w2) == Others(w)
  {
    var (r, b) := ClearTools(w.registry, w.bindings[k]);
    var n := |w.bindings|;
    OwnClearing(w.registry, w.bindings[k]);
    forall j | 0 <= j < n && j != k ensures Owns(r, w.bindings[j]) && Apart(b, w.bindings[j]) {
      ClearingLeavesOthers(w.registry, w.bindings[k], w.bindings[j]);
    }
    hide ClearTools, Owns, Others, Foreign, Apart;
    BindingEdited(w, k, r, b);
  }

  lemma OwnClearing(r: Registry, b: Binding)
    requires Owns(r, b)
    ensures var (r2, b2) := ClearTools(r, b); Owns(r2, b2) && Foreign(r2, b2) == Foreign(r, b)
  {
    ClearToolsLeavesForeign(r, b);
    ClearedSame(r, b);
    hide ClearTools, IdOf;
    var (r2, b2) := ClearTools(r, b);
    assert Foreign(r2, b2) == r2.tools;
  }

  /** Edits by other providers leave a binding that is not concerned with its tools. */
  lemma EditedByOthers(r: Registry, b: Binding, id: string, r2: Registry)
    requires Owns(r, b)
    requires id in r.tools ==> forall j :: 0 <= j < |b.tools| ==> b.tools[j].identity != r.tools[id]
    requires r2 == Register(r, id) || r2 == r.(tools := r.tools - {id})
    ensures Owns(r2, b)
  {
    hide IdOf, DistinctIds;
  }

  lemma OthersKeep(w: World, e: Edit)
    requires AllOwn(w) && (e.Provide? || e.Withdraw?)
    ensures AllOwn(StepWorld(w, e)) && Others(StepWorld(w, e)) == OthersAfter(w, e)
  {
    var id := e.id;
    var w2 := StepWorld(w, e);
    if w2 != w {
      assert id in w.registry.tools ==> !Bound(w, w.registry.tools[id]);
      forall k | 0 <= k < |w.bindings| ensures Owns(w2.registry, w.bindings[k]) {
        EditedByOthers(w.registry, w.bindings[k], id, w2.registry);
      }
      NothingNew(w, w2);
      hide Apart;
      assert AllOwn(w2) by { hide Owns; }
      hide Owns;
      assert Others(w2) == OthersAfter(w, e);
    } else {
      assert Others(w) == OthersAfter(w, e);
    }
  }

  /** Objects that do not exist yet are nobody's. */
  lemma NothingNew(w: World, w2: World)
    requires AllOwn(w) && w2.bindings == w.bindings
    ensures !Bound(w, w.registry.next) && forall i :: Bound(w2, i) <==> Bound(w, i)
  {
    hide IdOf, DistinctIds;
    forall k, j | 0 <= k < |w.bindings| && 0 <= j < |w.bindings[k].tools|
      ensures w.bindings[k].tools[j].identity != w.registry.next
    {
      assert Owns(w.registry, w.bindings[k]);
    }
  }

  /** Each edit leaves every binding with its tools, and touches entries of other providers only if it is theirs. */
  lemma EditsStayApart(w: World, e: Edit)
    requires AllOwn(w) && (e.Reconcile? ==> DistinctNames(e.infos))
    ensures AllOwn(StepWorld(w, e)) && Others(StepWorld(w, e)) == OthersAfter(w, e)
  {
    hide AllOwn, Others;
    match e
    case Reconcile(k, infos) =>
      if k < |w.bindings| {
        ReconcileKeeps(w, k, infos);
      }
    case Clear(k) =>
      if k < |w.bindings| {
        ClearKeeps(w, k);
      }
    case _ => OthersKeep(w, e);
  }

  ghost predicate ByBindings(edits: seq<Edit>) {
    forall i :: 0 <= i < |edits| ==> edits[i].Reconcile? || edits[i].Clear?
  }

  /** Every binding cleared, in order. */
  function ClearAll(n: nat): (r: seq<Edit>)
    ensures |r| == n && forall i :: 0 <= i < n ==> r[i] == Clear(i)
  {
    seq(n, i requires 0 <= i < n => Clear(i))
  }

  /**
   After any interleaving of reconciliations and clearings of any bindings with edits of other
   providers, every binding has its tools registered and none of another; what other providers have
   registered is untouched by the bindings, and is all that is left once every binding is cleared.
   */
  lemma {:induction false} LivesOfBindings(w: World, edits: seq<Edit>)
    requires AllOwn(w)
    requires forall i :: 0 <= i < |edits| && edits[i].Reconcile? ==> DistinctNames(edits[i].infos)
    ensures var w2 := RunWorld(w, edits);
            && AllOwn(w2) && |w2.bindings| == |w.bindings|
            && (ByBindings(edits) ==> Others(w2) == Others(w))
            && RunWorld(w2, ClearAll(|w2.bindings|)).registry.tools == Others(w2)
    decreases |edits|
  {
    hide AllOwn, Others, StepWorld;
    if edits == [] {
      ClearedAll(w);
    } else {
      EditsStayApart(w, edits[0]);
      SameCount(w, edits[0]);
      LivesOfBindings(StepWorld(w, edits[0]), edits[1..]);
      assert ByBindings(edits) ==> OthersAfter(w, edits[0]) == Others(w);
    }
  }

  lemma SameCount(w: World, e: Edit)
    ensures |StepWorld(w, e).bindings| == |w.bindings|
  {
  }

  lemma ClearedAll(w: World)
    requires AllOwn(w)
    ensures RunWorld(w, ClearAll(|w.bindings|)).registry.tools == Others(w)
  {
    hide AllOwn, Others;
    var w2 := ClearedFrom(w, 0);
    assert ClearAll(|w.bindings|)[0..] == ClearAll(|w.bindings|);
    NothingBound(w2);
  }

  lemma {:induction false} ClearedFrom(w: World, m: nat) returns (w2: World)
    requires AllOwn(w) && m <= |w.bindings| && forall i :: 0 <= i < m ==> w.bindings[i].tools == []
    ensures w2 == RunWorld(w, ClearAll(|w.bindings|)[m..]) && Others(w2) == Others(w) && AllOwn(w2)
    ensures forall i :: 0 <= i < |w2.bindings| ==> w2.bindings[i].tools == []
    decreases |w.bindings| - m
  {
    var n := |w.bindings|;
    if m == n {
      w2 := w;
    } else {
      ClearKeeps(w, m);
      ClearedSame(w.registry, w.bindings[m]);
      hide AllOwn, Others, ClearTools;
      var w1 := StepWorld(w, Clear(m));
      assert ClearAll(n)[m..][0] == Clear(m) && ClearAll(n)[m..][1..] == ClearAll(n)[m + 1..];
      w2 := ClearedFrom(w1, m + 1);
    }
  }

  lemma NothingBound(w: World)
    requires forall i :: 0 <= i < |w.bindings| ==> w.bindings[i].tools == []
    ensures Others(w) == w.registry.tools
  {
    assert forall i :: !Bound(w, i);
  }
}
