/**
 How the tools of an MCP server are kept in a registry shared with other providers
 (source/mcp/McpToolBinder.cpp): a new list is reconciled with what is registered.
 */
module ToolBinder {
  import opened Options

  /** What a server says of a tool; `rest` is everything but its name. */
  datatype Info = Info(name: string, rest: string)

  /** A tool object made for a server, by its identity. */
  datatype Owned = Owned(identity: nat, info: Info)

  /** `tools` maps ids to tool objects, of any provider; objects from `next` on do not exist yet. */
  datatype Registry = Registry(tools: map<string, nat>, next: nat)

  datatype Binding = Binding(name: string, tools: seq<Owned>)

  function ComposeId(server: string, tool: string): string {
    if server == "" then tool else server + "_" + tool
  }

  /** Within one server, ids tell tools apart. */
  lemma IdsOfOneServer(server: string, a: string, b: string)
    requires ComposeId(server, a) == ComposeId(server, b)
    ensures a == b
  {
    if server != "" {
      var n := |server + "_"|;
      assert (server + "_" + a)[n..] == a && (server + "_" + b)[n..] == b;
    }
  }

  /**
   Two servers claim the same id exactly when the longer server name continues the shorter one with
   an underscore, and the tool of the shorter one spells out the rest: `a` and `b_c`, `a_b` and `c`.
   */
  lemma IdsOfTwoServers(s: string, a: string, t: string, b: string)
    requires |s| <= |t|
    ensures ComposeId(s, a) == ComposeId(t, b)
       <==> if s == "" then a == ComposeId(t, b)
            else if s == t then a == b
            else s + "_" <= t && a == t[|s| + 1..] + "_" + b
  {
    if s != "" {
      var x, y, n := s + "_" + a, t + "_" + b, |s| + 1;
      assert x == (s + "_") + a && x[..n] == s + "_" && x[n..] == a;
      if |s| == |t| {
        assert y[..n] == t + "_" && y[n..] == b && (t + "_")[..|t|] == t && (s + "_")[..|s|] == s;
        assert s + "_" <= t ==> |s| + 1 <= |t|;
      } else {
        assert y[..n] == t[..n] && y[n..] == t[n..] + "_" + b;
        assert y == y[..n] + y[n..];
      }
    }
  }

  function IdOf(b: Binding, t: Owned): string { ComposeId(b.name, t.info.name) }

  /** The entries that are not the binding's. */
  function Foreign(r: Registry, b: Binding): map<string, nat> {
    map id | id in r.tools && !(exists k :: 0 <= k < |b.tools| && b.tools[k].identity == r.tools[id]) :: r.tools[id]
  }

  /** The binding's tools by id. */
  function Current(b: Binding): map<string, Owned>
    decreases |b.tools|
  {
    if b.tools == [] then map[]
    else
      var t := b.tools[|b.tools| - 1];
      Current(b.(tools := b.tools[..|b.tools| - 1]))[IdOf(b, t) := t]
  }

  // ---- reconciling --------------------------------------------------------------------------------

  function Register(r: Registry, id: string): Registry { Registry(r.tools[id := r.next], r.next + 1) }

  /** One tool of the new list: kept, left to another provider, or made anew. */
  function ApplyOne(name: string, current: map<string, Owned>, r: Registry, next: seq<Owned>, info: Info): (Registry, seq<Owned>) {
    var id := ComposeId(name, info.name);
    if id in current && current[id].info == info then (r, next + [current[id]])
    else if id in r.tools && !(id in current && r.tools[id] == current[id].identity) then (r, next)
    else (Register(r, id), next + [Owned(r.next, info)])
  }

  function ApplyAll(name: string, current: map<string, Owned>, r: Registry, infos: seq<Info>): (Registry, seq<Owned>)
    decreases |infos|
  {
    if infos == [] then (r, [])
    else
      var (r1, next) := ApplyAll(name, current, r, infos[..|infos| - 1]);
      ApplyOne(name, current, r1, next, infos[|infos| - 1])
  }

  predicate Listed(name: string, infos: seq<Info>, id: string) {
    exists i :: 0 <= i < |infos| && ComposeId(name, infos[i].name) == id
  }

  /** The binding's tools that are no longer listed go, if they are still registered. */
  function RemoveStale(name: string, current: map<string, Owned>, r: Registry, infos: seq<Info>): Registry {
    r.(tools := map id | id in r.tools
                         && !(id in current && !Listed(name, infos, id) && r.tools[id] == current[id].identity) :: r.tools[id])
  }

  function ApplyTools(r: Registry, b: Binding, infos: seq<Info>): (Registry, Binding) {
    var current := Current(b);
    var (r1, next) := ApplyAll(b.name, current, r, infos);
    (RemoveStale(b.name, current, r1, infos), b.(tools := next))
  }

  function ClearTools(r: Registry, b: Binding): (Registry, Binding)
    decreases |b.tools|
  {
    if b.tools == [] then (r, b)
    else
      var t := b.tools[0];
      var r1 := if IdOf(b, t) in r.tools && r.tools[IdOf(b, t)] == t.identity then r.(tools := r.tools - {IdOf(b, t)}) else r;
      ClearTools(r1, b.(tools := b.tools[1..]))
  }

  // ---- what holds -------------------------------------------------------------------------------------

  ghost predicate DistinctNames(infos: seq<Info>) {
    forall i, j :: 0 <= i < j < |infos| ==> infos[i].name != infos[j].name
  }

  /** The binding's tools are registered under their ids, which differ, and no other entry is theirs. */
  ghost predicate Owns(r: Registry, b: Binding) {
    && (forall k :: 0 <= k < |b.tools| ==>
          b.tools[k].identity < r.next && IdOf(b, b.tools[k]) in r.tools && r.tools[IdOf(b, b.tools[k])] == b.tools[k].identity)
    && DistinctIds(b, b.tools)
    && (forall id :: id in r.tools ==> r.tools[id] < r.next)
    && (forall id, k :: id in r.tools && 0 <= k < |b.tools| && r.tools[id] == b.tools[k].identity ==> id == IdOf(b, b.tools[k]))
  }

  ghost predicate DistinctIds(b: Binding, tools: seq<Owned>) {
    forall j, k :: 0 <= j < k < |tools| ==> IdOf(b, tools[j]) != IdOf(b, tools[k])
  }

  lemma {:induction false} CurrentIs(b: Binding)
    requires DistinctIds(b, b.tools)
    ensures forall k :: 0 <= k < |b.tools| ==> IdOf(b, b.tools[k]) in Current(b) && Current(b)[IdOf(b, b.tools[k])] == b.tools[k]
    ensures forall id :: id in Current(b) ==> Current(b)[id] in b.tools && IdOf(b, Current(b)[id]) == id
    decreases |b.tools|
  {
    hide ComposeId;
    if b.tools != [] {
      var n := |b.tools| - 1;
      var front := b.(tools := b.tools[..n]);
      assert forall t :: IdOf(front, t) == IdOf(b, t);
      hide IdOf;
      assert DistinctIds(front, front.tools) by {
        assert forall k :: 0 <= k < n ==> front.tools[k] == b.tools[k];
      }
      CurrentIs(front);
      forall k | 0 <= k <= n ensures IdOf(b, b.tools[k]) in Current(b) && Current(b)[IdOf(b, b.tools[k])] == b.tools[k] {
        if k < n {
          assert front.tools[k] == b.tools[k];
        }
      }
    }
  }

  /** An id is foreign exactly when it is registered and not the binding's. */
  lemma ForeignIs(r: Registry, b: Binding)
    requires Owns(r, b)
    ensures forall id :: id in Foreign(r, b) <==> id in r.tools && id !in Current(b)
    ensures forall id :: id in Current(b) ==> id in r.tools && r.tools[id] == Current(b)[id].identity < r.next
  {
    CurrentIs(b);
    hide Current, ComposeId, IdOf;
    forall id | id in r.tools ensures id in Foreign(r, b) <==> id !in Current(b) {
      if exists k :: 0 <= k < |b.tools| && b.tools[k].identity == r.tools[id] {
        var k :| 0 <= k < |b.tools| && b.tools[k].identity == r.tools[id];
        assert id == IdOf(b, b.tools[k]);
      }
      if id in Current(b) {
        var k :| 0 <= k < |b.tools| && b.tools[k] == Current(b)[id];
        assert IdOf(b, b.tools[k]) == id;
      }
    }
    forall id | id in Current(b) ensures id in r.tools && r.tools[id] == Current(b)[id].identity < r.next {
      var k :| 0 <= k < |b.tools| && b.tools[k] == Current(b)[id];
      assert IdOf(b, b.tools[k]) == id;
    }
  }

  /** A tool of the new list: registered, not in anyone's way, and the old object unless its info changed. */
  ghost predicate Entered(r: Registry, b: Binding, infos: seq<Info>, r1: Registry, t: Owned) {
    var id, current := IdOf(b, t), Current(b);
    && Listed(b.name, infos, id) && id !in Foreign(r, b)
    && id in r1.tools && r1.tools[id] == t.identity < r1.next
    && (if id in current && current[id].info == t.info then t == current[id] else t.identity >= r.next)
  }

  /** Every tool listed so far is there, unless its id belongs to another provider. */
  ghost predicate Covered(r: Registry, b: Binding, infos: seq<Info>, next: seq<Owned>) {
    forall i :: 0 <= i < |infos| && ComposeId(b.name, infos[i].name) !in Foreign(r, b) ==>
      exists k :: 0 <= k < |next| && next[k].info == infos[i]
  }

  /** The registry midway: foreign entries, the tools listed so far, and the old ones still to come. */
  ghost predicate Shared(r: Registry, b: Binding, infos: seq<Info>, r1: Registry) {
    var current := Current(b);
    && r1.next >= r.next && (forall id :: id in r1.tools ==> r1.tools[id] < r1.next)
    && (forall id :: id in Foreign(r, b) ==> id in r1.tools && r1.tools[id] == r.tools[id])
    && (forall id :: id in current && !Listed(b.name, infos, id) ==> id in r1.tools && r1.tools[id] == current[id].identity)
    && (forall id :: id in r1.tools ==> id in Foreign(r, b) || Listed(b.name, infos, id) || id in current)
  }

  ghost predicate DistinctObjects(tools: seq<Owned>) {
    forall j, k :: 0 <= j < k < |tools| ==> tools[j].identity != tools[k].identity
  }

  /** Midway: the first tools of the list are dealt with, the binding's others are still there. */
  ghost predicate Midway(r: Registry, b: Binding, infos: seq<Info>, r1: Registry, next: seq<Owned>) {
    && Shared(r, b, infos, r1) && Covered(r, b, infos, next) && DistinctIds(b, next) && DistinctObjects(next)
    && forall k :: 0 <= k < |next| ==> Entered(r, b, infos, r1, next[k])
  }

  lemma ListedSnoc(name: string, infos: seq<Info>, info: Info, id: string)
    ensures Listed(name, infos + [info], id) <==> Listed(name, infos, id) || ComposeId(name, info.name) == id
  {
    hide ComposeId;
    if Listed(name, infos, id) {
      var i :| 0 <= i < |infos| && ComposeId(name, infos[i].name) == id;
      assert (infos + [info])[i] == infos[i];
    }
    if ComposeId(name, info.name) == id {
      assert (infos + [info])[|infos|] == info;
    }
  }

  lemma MidwayStep(r: Registry, b: Binding, infos: seq<Info>, info: Info, r1: Registry, next: seq<Owned>)
    requires Owns(r, b) && Midway(r, b, infos, r1, next) && !Listed(b.name, infos, ComposeId(b.name, info.name))
    ensures var (r2, next2) := ApplyOne(b.name, Current(b), r1, next, info); Midway(r, b, infos + [info], r2, next2)
  {
    var id0 := ComposeId(b.name, info.name);
    var (r2, next2) := ApplyOne(b.name, Current(b), r1, next, info);
    ForeignIs(r, b);
    CurrentIs(b);
    forall id ensures Listed(b.name, infos + [info], id) <==> Listed(b.name, infos, id) || id == id0 {
      ListedSnoc(b.name, infos, info, id);
    }
    hide Listed, Foreign, Current, Covered, DistinctIds, DistinctObjects;
    if id0 in Foreign(r, b) {
      Skipped(r, b, infos, info, r1, next);
      CoveredStep(r, b, infos, info, next, next2);
    } else {
      var t := next2[|next|];
      assert next2 == next + [t] && IdOf(b, t) == id0 && t.info == info;
      Added(r, b, infos, info, r1, next, r2, t);
      CoveredStep(r, b, infos, info, next, next2);
    }
  }

  /** The id belongs to another provider. */
  lemma Skipped(r: Registry, b: Binding, infos: seq<Info>, info: Info, r1: Registry, next: seq<Owned>)
    requires Midway(r, b, infos, r1, next) && ComposeId(b.name, info.name) in Foreign(r, b)
    requires ComposeId(b.name, info.name) !in Current(b)
    requires forall id :: Listed(b.name, infos + [info], id) <==> Listed(b.name, infos, id) || id == ComposeId(b.name, info.name)
    ensures ApplyOne(b.name, Current(b), r1, next, info) == (r1, next)
    ensures Shared(r, b, infos + [info], r1) && forall k :: 0 <= k < |next| ==> Entered(r, b, infos + [info], r1, next[k])
  {
    hide Listed, Foreign, Current, ComposeId, IdOf, Covered, DistinctIds, DistinctObjects;
  }

  lemma Added(r: Registry, b: Binding, infos: seq<Info>, info: Info, r1: Registry, next: seq<Owned>, r2: Registry, t: Owned)
    requires Midway(r, b, infos, r1, next) && IdOf(b, t) == ComposeId(b.name, info.name) && IdOf(b, t) !in Foreign(r, b)
    requires !Listed(b.name, infos, ComposeId(b.name, info.name))
    requires (r2, next + [t]) == ApplyOne(b.name, Current(b), r1, next, info) && t.info == info
    requires forall id :: id in Current(b) ==> id in r.tools && r.tools[id] == Current(b)[id].identity < r.next
    requires forall id :: Listed(b.name, infos + [info], id) <==> Listed(b.name, infos, id) || id == ComposeId(b.name, info.name)
    requires Owns(r, b)
    ensures Shared(r, b, infos + [info], r2) && DistinctIds(b, next + [t]) && DistinctObjects(next + [t])
    ensures forall k :: 0 <= k <= |next| ==> Entered(r, b, infos + [info], r2, (next + [t])[k])
  {
    hide Listed, Foreign, Current, ComposeId, IdOf, Covered;
    OldObjects(r, b);
    assert (next + [t])[|next|] == ApplyOne(b.name, Current(b), r1, next, info).1[|next|];
    hide Owns;
    forall k | 0 <= k < |next|
      ensures IdOf(b, next[k]) != IdOf(b, t) && next[k].identity != t.identity && Entered(r, b, infos + [info], r2, next[k])
    {
      assert Entered(r, b, infos, r1, next[k]);
      OtherObject(r, b, infos, r1, next[k], t);
    }
    hide Entered;
  }

  lemma OtherObject(r: Registry, b: Binding, infos: seq<Info>, r1: Registry, u: Owned, t: Owned)
    requires Entered(r, b, infos, r1, u) && IdOf(b, u) != IdOf(b, t)
    requires (IdOf(b, t) in Current(b) && t == Current(b)[IdOf(b, t)]) || t.identity == r1.next
    requires forall id :: id in Current(b) ==> Current(b)[id].identity < r.next
    requires forall i, j :: i in Current(b) && j in Current(b) && Current(b)[i].identity == Current(b)[j].identity ==> i == j
    ensures u.identity != t.identity
  {
    hide Current, Listed, Foreign, IdOf;
    var i, j := IdOf(b, u), IdOf(b, t);
    assert i in Current(b) && j in Current(b) ==> Current(b)[i].identity != Current(b)[j].identity;
  }

  /** Different ids of the binding have different objects. */
  lemma OldObjects(r: Registry, b: Binding)
    requires Owns(r, b)
    ensures forall i, j :: i in Current(b) && j in Current(b) && Current(b)[i].identity == Current(b)[j].identity ==> i == j
  {
    CurrentIs(b);
    hide Current, ComposeId, IdOf;
    forall i, j | i in Current(b) && j in Current(b) && Current(b)[i].identity == Current(b)[j].identity ensures i == j {
      var k :| 0 <= k < |b.tools| && b.tools[k] == Current(b)[i];
      var m :| 0 <= m < |b.tools| && b.tools[m] == Current(b)[j];
      assert r.tools[IdOf(b, b.tools[m])] == b.tools[k].identity;
    }
  }

  lemma CoveredStep(r: Registry, b: Binding, infos: seq<Info>, info: Info, next: seq<Owned>, next2: seq<Owned>)
    requires Covered(r, b, infos, next)
    requires if ComposeId(b.name, info.name) in Foreign(r, b) then next2 == next
             else |next2| == |next| + 1 && next2[..|next|] == next && next2[|next|].info == info
    ensures Covered(r, b, infos + [info], next2)
  {
    hide Foreign, ComposeId;
    forall i | 0 <= i <= |infos| && ComposeId(b.name, (infos + [info])[i].name) !in Foreign(r, b)
      ensures exists k :: 0 <= k < |next2| && next2[k].info == (infos + [info])[i]
    {
      if i < |infos| {
        var k :| 0 <= k < |next| && next[k].info == infos[i];
        assert next2[k] == next2[..|next|][k] || next2 == next;
        assert next2[k].info == infos[i];
      } else {
        assert next2[|next|].info == info;
      }
    }
  }

  lemma {:induction false} ApplyAllOk(r: Registry, b: Binding, infos: seq<Info>)
    requires Owns(r, b) && DistinctNames(infos)
    ensures var (r1, next) := ApplyAll(b.name, Current(b), r, infos); Midway(r, b, infos, r1, next)
    decreases |infos|
  {
    if infos == [] {
      ForeignIs(r, b);
    } else {
      var n := |infos| - 1;
      ApplyAllOk(r, b, infos[..n]);
      var (r1, next) := ApplyAll(b.name, Current(b), r, infos[..n]);
      hide Midway, ApplyOne, Current, Owns;
      forall i | 0 <= i < n ensures ComposeId(b.name, infos[..n][i].name) != ComposeId(b.name, infos[n].name) {
        if ComposeId(b.name, infos[..n][i].name) == ComposeId(b.name, infos[n].name) {
          IdsOfOneServer(b.name, infos[i].name, infos[n].name);
        }
      }
      MidwayStep(r, b, infos[..n], infos[n], r1, next);
      assert infos[..n] + [infos[n]] == infos;
    }
  }

  /**
   Given distinct tool names and a binding whose tools are registered under their ids, the new list is
   reconciled: every foreign entry stays as it is, the other entries are exactly the listed tools whose
   ids no other provider holds, a tool whose info did not change keeps its object, and the binding is
   again one whose tools are registered.
   */
  lemma ApplyToolsReconciles(r: Registry, b: Binding, infos: seq<Info>)
    requires Owns(r, b) && DistinctNames(infos)
    ensures var (r2, b2) := ApplyTools(r, b, infos);
            && Owns(r2, b2) && b2.name == b.name && Foreign(r2, b2) == Foreign(r, b)
            && (forall id :: (exists k :: 0 <= k < |b2.tools| && IdOf(b2, b2.tools[k]) == id)
                  <==> Listed(b.name, infos, id) && id !in Foreign(r, b))
            && (forall k :: 0 <= k < |b2.tools| ==>
                  var id := IdOf(b2, b2.tools[k]);
                  if id in Current(b) && Current(b)[id].info == b2.tools[k].info
                  then b2.tools[k] == Current(b)[id] else b2.tools[k].identity >= r.next)
  {
    var (r1, next) := ApplyAll(b.name, Current(b), r, infos);
    var (r2, b2) := ApplyTools(r, b, infos);
    ApplyAllOk(r, b, infos);
    ForeignIs(r, b);
    assert forall t :: IdOf(b2, t) == IdOf(b, t);
    assert b2.tools == next && r2 == RemoveStale(b.name, Current(b), r1, infos);
    hide Current, ApplyAll, ApplyTools, Listed, IdOf, ComposeId;
    Reconciled(r, b, infos, r1, r2, b2);
    ListedExactly(r, b, infos, r1, b2);
  }

  lemma ListedExactly(r: Registry, b: Binding, infos: seq<Info>, r1: Registry, b2: Binding)
    requires Midway(r, b, infos, r1, b2.tools) && forall t :: IdOf(b2, t) == IdOf(b, t)
    ensures forall id :: (exists k :: 0 <= k < |b2.tools| && IdOf(b2, b2.tools[k]) == id)
                  <==> Listed(b.name, infos, id) && id !in Foreign(r, b)
  {
    hide Current, ComposeId, Listed, IdOf, Foreign;
    forall k | 0 <= k < |b2.tools| ensures Listed(b.name, infos, IdOf(b, b2.tools[k])) && IdOf(b, b2.tools[k]) !in Foreign(r, b) {
      assert Entered(r, b, infos, r1, b2.tools[k]);
    }
    forall id | Listed(b.name, infos, id) && id !in Foreign(r, b)
      ensures exists k :: 0 <= k < |b2.tools| && IdOf(b2, b2.tools[k]) == id
    {
      CoveredHas(r, b, infos, b2.tools, id);
    }
  }

  lemma Reconciled(r: Registry, b: Binding, infos: seq<Info>, r1: Registry, r2: Registry, b2: Binding)
    requires Owns(r, b) && Midway(r, b, infos, r1, b2.tools) && b2.name == b.name
    requires r2 == RemoveStale(b.name, Current(b), r1, infos)
    requires forall id :: id in Foreign(r, b) <==> id in r.tools && id !in Current(b)
    requires forall id :: id in Current(b) ==> id in r.tools && r.tools[id] == Current(b)[id].identity < r.next
    requires forall t :: IdOf(b2, t) == IdOf(b, t)
    ensures Owns(r2, b2) && Foreign(r2, b2) == Foreign(r, b)
  {
    hide *;
    OwnAreListed(r, b, infos, r1, r2, b2.tools);
    EnteredStay(r, b, infos, r1, r2, b2.tools);
    forall id, k | id in Foreign(r, b) && 0 <= k < |b2.tools| ensures Foreign(r, b)[id] != b2.tools[k].identity {
      ForeignApart(r, b, infos, r1, b2.tools, id, k);
    }
    ForeignStays(r, b, infos, r1, r2, b2.tools);
    MidwayDistinct(r, b, infos, r1, b2.tools);
    SameIds(b, b2);
    Concluded(r2, b2, Foreign(r, b));
  }

  lemma SameIds(b: Binding, b2: Binding)
    requires forall t :: IdOf(b2, t) == IdOf(b, t)
    ensures DistinctIds(b2, b2.tools) <==> DistinctIds(b, b2.tools)
  {
    hide IdOf;
  }

  lemma OwnAreListed(r: Registry, b: Binding, infos: seq<Info>, r1: Registry, r2: Registry, next: seq<Owned>)
    requires Midway(r, b, infos, r1, next) && r2 == RemoveStale(b.name, Current(b), r1, infos)
    ensures forall id :: id in r2.tools && id !in Foreign(r, b) ==>
              exists k :: 0 <= k < |next| && IdOf(b, next[k]) == id && next[k].identity == r2.tools[id]
  {
    hide Current, ComposeId, Listed, IdOf, Foreign;
    forall id | id in r2.tools && id !in Foreign(r, b)
      ensures exists k :: 0 <= k < |next| && IdOf(b, next[k]) == id && next[k].identity == r2.tools[id]
    {
      ListedHas(r, b, infos, r1, next, id);
    }
  }

  lemma EnteredStay(r: Registry, b: Binding, infos: seq<Info>, r1: Registry, r2: Registry, next: seq<Owned>)
    requires Midway(r, b, infos, r1, next) && r2 == RemoveStale(b.name, Current(b), r1, infos)
    ensures forall k :: 0 <= k < |next| ==>
              IdOf(b, next[k]) in r2.tools && r2.tools[IdOf(b, next[k])] == next[k].identity < r2.next
    ensures forall id :: id in r2.tools ==> r2.tools[id] < r2.next
  {
    hide Current, ComposeId, Listed, IdOf, Foreign;
    forall k | 0 <= k < |next|
      ensures IdOf(b, next[k]) in r2.tools && r2.tools[IdOf(b, next[k])] == next[k].identity < r2.next
    {
      assert Entered(r, b, infos, r1, next[k]);
    }
  }

  lemma ForeignApart(r: Registry, b: Binding, infos: seq<Info>, r1: Registry, next: seq<Owned>, id: string, k: nat)
    requires Owns(r, b) && Midway(r, b, infos, r1, next) && id in Foreign(r, b) && k < |next|
    ensures Foreign(r, b)[id] == r.tools[id] != next[k].identity
  {
    hide Current, IdOf, Shared, Covered, Entered;
    CurrentIs(b);
    ForeignObject(r, b, infos, r1, id, next[k]);
  }

  lemma ForeignStays(r: Registry, b: Binding, infos: seq<Info>, r1: Registry, r2: Registry, next: seq<Owned>)
    requires Midway(r, b, infos, r1, next) && r2 == RemoveStale(b.name, Current(b), r1, infos)
    requires forall id :: id in Foreign(r, b) <==> id in r.tools && id !in Current(b)
    ensures forall id :: id in Foreign(r, b) ==> id in r2.tools && r2.tools[id] == Foreign(r, b)[id]
  {
    hide Current, ComposeId, Listed, IdOf;
  }

  lemma MidwayDistinct(r: Registry, b: Binding, infos: seq<Info>, r1: Registry, next: seq<Owned>)
    requires Midway(r, b, infos, r1, next)
    ensures DistinctIds(b, next) && DistinctObjects(next)
  {
  }

  lemma CoveredHas(r: Registry, b: Binding, infos: seq<Info>, next: seq<Owned>, id: string)
    requires Covered(r, b, infos, next) && Listed(b.name, infos, id) && id !in Foreign(r, b)
    ensures exists k :: 0 <= k < |next| && IdOf(b, next[k]) == id
  {
    hide Foreign, ComposeId;
    var i :| 0 <= i < |infos| && ComposeId(b.name, infos[i].name) == id;
    var k :| 0 <= k < |next| && next[k].info == infos[i];
    assert IdOf(b, next[k]) == id;
  }

  /** Entries that are foreign or the binding's, and no object of both. */
  lemma Concluded(r: Registry, b: Binding, foreign: map<string, nat>)
    requires DistinctIds(b, b.tools) && DistinctObjects(b.tools)
    requires forall id :: id in r.tools ==> r.tools[id] < r.next
    requires forall id :: id in foreign ==> id in r.tools && r.tools[id] == foreign[id]
    requires forall id :: id in r.tools && id !in foreign ==>
               exists k :: 0 <= k < |b.tools| && IdOf(b, b.tools[k]) == id && b.tools[k].identity == r.tools[id]
    requires forall k :: 0 <= k < |b.tools| ==>
               IdOf(b, b.tools[k]) in r.tools && r.tools[IdOf(b, b.tools[k])] == b.tools[k].identity < r.next
    requires forall id, k :: id in foreign && 0 <= k < |b.tools| ==> foreign[id] != b.tools[k].identity
    ensures Owns(r, b) && Foreign(r, b) == foreign
  {
    hide IdOf;
    forall id, k | id in r.tools && 0 <= k < |b.tools| && r.tools[id] == b.tools[k].identity ensures id == IdOf(b, b.tools[k]) {
      var m :| 0 <= m < |b.tools| && IdOf(b, b.tools[m]) == id && b.tools[m].identity == r.tools[id];
      assert m == k;
    }
  }

  /** A listed id that no other provider holds is the id of one of the new tools. */
  lemma ListedHas(r: Registry, b: Binding, infos: seq<Info>, r1: Registry, next: seq<Owned>, id: string)
    requires Midway(r, b, infos, r1, next) && id in r1.tools && id !in Foreign(r, b) && Listed(b.name, infos, id)
    ensures exists k :: 0 <= k < |next| && IdOf(b, next[k]) == id && next[k].identity == r1.tools[id]
  {
    hide Foreign, Current, ComposeId;
    var i :| 0 <= i < |infos| && ComposeId(b.name, infos[i].name) == id;
    var k :| 0 <= k < |next| && next[k].info == infos[i];
    assert Entered(r, b, infos, r1, next[k]) && IdOf(b, next[k]) == id;
  }

  lemma ForeignObject(r: Registry, b: Binding, infos: seq<Info>, r1: Registry, id: string, t: Owned)
    requires Owns(r, b) && Entered(r, b, infos, r1, t) && id in Foreign(r, b)
    requires forall i :: i in Current(b) ==> Current(b)[i] in b.tools
    ensures r.tools[id] != t.identity
  {
    hide Current, Listed, ComposeId, IdOf;
  }

  // ---- clearing -----------------------------------------------------------------------------------------------

  /** Clearing leaves exactly the foreign entries. */
  lemma {:induction false} ClearToolsLeavesForeign(r: Registry, b: Binding)
    requires Owns(r, b)
    ensures var (r2, b2) := ClearTools(r, b); r2.tools == Foreign(r, b) && b2.tools == []
    decreases |b.tools|
  {
    if b.tools == [] {
      assert Foreign(r, b) == r.tools;
    } else {
      var t, rest := b.tools[0], b.(tools := b.tools[1..]);
      var r1 := r.(tools := r.tools - {IdOf(b, t)});
      assert forall u :: IdOf(rest, u) == IdOf(b, u);
      FirstOwned(r, b, r1, rest);
      FirstForeign(r, b, r1, rest);
      hide IdOf, Owns, Foreign;
      ClearToolsLeavesForeign(r1, rest);
    }
  }

  lemma FirstOwned(r: Registry, b: Binding, r1: Registry, rest: Binding)
    requires Owns(r, b) && b.tools != [] && rest == b.(tools := b.tools[1..])
    requires r1 == r.(tools := r.tools - {IdOf(b, b.tools[0])}) && forall u :: IdOf(rest, u) == IdOf(b, u)
    ensures Owns(r1, rest) && IdOf(b, b.tools[0]) in r.tools && r.tools[IdOf(b, b.tools[0])] == b.tools[0].identity
  {
    hide IdOf;
    assert forall k :: 0 <= k < |rest.tools| ==> rest.tools[k] == b.tools[k + 1];
  }

  lemma FirstForeign(r: Registry, b: Binding, r1: Registry, rest: Binding)
    requires Owns(r, b) && b.tools != [] && rest == b.(tools := b.tools[1..])
    requires r1 == r.(tools := r.tools - {IdOf(b, b.tools[0])})
    ensures Foreign(r1, rest) == Foreign(r, b)
  {
    hide IdOf;
    assert forall k :: 0 <= k < |rest.tools| ==> rest.tools[k] == b.tools[k + 1];
    forall id | id in r.tools ensures id in Foreign(r1, rest) <==> id in Foreign(r, b) {
      if exists k :: 0 <= k < |b.tools| && b.tools[k].identity == r.tools[id] {
        var k :| 0 <= k < |b.tools| && b.tools[k].identity == r.tools[id];
        assert k > 0 ==> rest.tools[k - 1] == b.tools[k];
      }
    }
  }
}
