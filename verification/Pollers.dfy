/**
 The agent's table of pending endpoint notifications and its matching against what docker and the vessel store list.
 */
module Pollers {
  import opened Types

  type Index = map<string, map<string, string>>

  /** `timeout` is an instant; a notification is timed out when it lies before the polling instant. */
  datatype Poller = Poller(networkID: string, endpointID: string, add: bool, timeout: int)

  /** A listed container with its (network, endpoint) pairs, in any order. */
  datatype Listed = Listed(id: string, networks: seq<(string, string)>)

  function Lookup(m: Index, n: string, e: string): Option<string> {
    if n in m && e in m[n] then Some(m[n][e]) else None
  }

  /** The last listed container with this endpoint. */
  function LastWith(containers: seq<Listed>, n: string, e: string): Option<string>
    decreases |containers|
  {
    if containers == [] then None
    else
      var last := containers[|containers| - 1];
      if (n, e) in last.networks then Some(last.id) else LastWith(containers[..|containers| - 1], n, e)
  }

  ghost predicate Indexes(m: Index, containers: seq<Listed>) {
    forall n, e :: Lookup(m, n, e) == LastWith(containers, n, e)
  }

  function Put(m: Index, n: string, e: string, id: string): Index {
    m[n := (if n in m then m[n] else map[])[e := id]]
  }

  /** Builds the index container by container; a later container replaces an earlier one. */
  method BuildIndex(containers: seq<Listed>) returns (m: Index)
    ensures Indexes(m, containers)
  {
    m := map[];
    var i := 0;
    while i < |containers|
      invariant 0 <= i <= |containers|
      invariant Indexes(m, containers[..i])
    {
      var c := containers[i];
      ghost var before := m;
      var j := 0;
      while j < |c.networks|
        invariant 0 <= j <= |c.networks|
        invariant forall n, e ::
          Lookup(m, n, e) == if (n, e) in c.networks[..j] then Some(c.id) else Lookup(before, n, e)
      {
        var (n, e) := c.networks[j];
        assert c.networks[..j + 1] == c.networks[..j] + [(n, e)];
        m := Put(m, n, e, c.id);
        j := j + 1;
      }
      assert c.networks[..j] == c.networks;
      assert containers[..i + 1][..i] == containers[..i];
      i := i + 1;
    }
    assert containers[..i] == containers;
  }

  /**
   What one polling round knows: docker's endpoints, the vessel store's endpoints, and the containers whose pools
   cannot be looked up.
   */
  datatype Known = Known(docker: Index, vessel: Index, fails: set<string>)

  /** `matched` maps a container id to whether its result is an addition. */
  datatype Round = Round(kept: set<Poller>, matched: map<string, bool>)

  function AddFirst(matched: map<string, bool>, id: string, add: bool): map<string, bool> {
    if id in matched then matched else matched[id := add]
  }

  datatype Answer = Answer(matched: map<string, bool>, ok: bool, failed: bool)

  function MatchOne(k: Known, matched: map<string, bool>, p: Poller): Answer {
    var c := Lookup(k.docker, p.networkID, p.endpointID);
    if p.add then
      if c == None then Answer(matched, false, false)
      else if c.value !in matched && c.value in k.fails then Answer(matched, false, true)
      else Answer(AddFirst(matched, c.value, true), true, false)
    else if c != None then Answer(matched, false, false)
    else
      var v := Lookup(k.vessel, p.networkID, p.endpointID);
      Answer(if v == None then matched else AddFirst(matched, v.value, false), true, false)
  }

  function Visit(k: Known, now: int, r: Round, p: Poller): Round {
    var a := MatchOne(k, r.matched, p);
    if !a.failed && (a.ok || p.timeout < now) then Round(r.kept, a.matched) else Round(r.kept + {p}, a.matched)
  }

  /** One polling round over the pollers in the given order. */
  function VisitAll(k: Known, now: int, matched: map<string, bool>, order: seq<Poller>): Round
    decreases |order|
  {
    if order == [] then Round({}, matched)
    else Visit(k, now, VisitAll(k, now, matched, order[..|order| - 1]), order[|order| - 1])
  }

  class MatchEvent {
    const known: Known
    var matched: map<string, bool>

    constructor (known: Known)
      ensures this.known == known && matched == map[]
    {
      this.known := known;
      matched := map[];
    }

    method MakeRemovePollResult(p: Poller)
      modifies this
      ensures var v := Lookup(known.vessel, p.networkID, p.endpointID);
        matched == if v == None then old(matched) else AddFirst(old(matched), v.value, false)
    {
      if p.networkID !in known.vessel {
        return;
      }
      if p.endpointID !in known.vessel[p.networkID] {
        return;
      }
      var id := known.vessel[p.networkID][p.endpointID];
      if id !in matched {
        matched := matched[id := false];
      }
    }

    method MatchRemovePoller(p: Poller) returns (ok: bool)
      requires !p.add
      modifies this
      ensures Answer(matched, ok, false) == MatchOne(known, old(matched), p)
    {
      if p.networkID !in known.docker {
        MakeRemovePollResult(p);
        return true;
      }
      if p.endpointID !in known.docker[p.networkID] {
        MakeRemovePollResult(p);
        return true;
      }
      return false;
    }

    method MatchAddPoller(p: Poller) returns (ok: bool, failed: bool)
      requires p.add
      modifies this
      ensures Answer(matched, ok, failed) == MatchOne(known, old(matched), p)
    {
      if p.networkID !in known.docker {
        return false, false;
      }
      if p.endpointID !in known.docker[p.networkID] {
        return false, false;
      }
      var c := known.docker[p.networkID][p.endpointID];
      if c !in matched {
        if c in known.fails {
          return false, true;
        }
        matched := matched[c := true];
      }
      return true, false;
    }

    method Match(p: Poller) returns (ok: bool, failed: bool)
      modifies this
      ensures Answer(matched, ok, failed) == MatchOne(known, old(matched), p)
    {
      if p.add {
        ok, failed := MatchAddPoller(p);
      } else {
        ok := MatchRemovePoller(p);
        failed := false;
      }
    }
  }

  type Table = map<string, map<string, Poller>>

  function All(t: Table): set<Poller> {
    set n, e | n in t && e in t[n] :: t[n][e]
  }

  predicate Filed(t: Table) {
    forall n, e :: n in t && e in t[n] ==> t[n][e].networkID == n && t[n][e].endpointID == e
  }

  function Erase(t: Table, n: string, e: string): Table
    requires n in t
  {
    t[n := map j | j in t[n] && j != e :: t[n][j]]
  }

  lemma EraseEffect(t: Table, n: string, e: string)
    requires Filed(t) && n in t && e in t[n]
    ensures Filed(Erase(t, n, e)) && All(Erase(t, n, e)) == All(t) - {t[n][e]}
    ensures |All(Erase(t, n, e))| == |All(t)| - 1
  {
    var t' := Erase(t, n, e);
    forall p | p in All(t) - {t[n][e]} ensures p in All(t') {
      var n', e' :| n' in t && e' in t[n'] && p == t[n'][e'];
      assert n' in t' && e' in t'[n'] && t'[n'][e'] == p;
    }
    forall p | p in All(t') ensures p in All(t) - {t[n][e]} {
      var n', e' :| n' in t' && e' in t'[n'] && p == t'[n'][e'];
      assert n' in t && e' in t[n'] && t[n'][e'] == p;
    }
  }

  class PollerTable {
    var pSize: int
    var pollers: Table

    /** The counter is the number of entries in all the nested maps. */
    predicate Valid()
      reads this
    {
      Filed(pollers) && pSize == |All(pollers)|
    }

    constructor ()
      ensures Valid() && All(pollers) == {}
    {
      pSize, pollers := 0, map[];
    }

    method NewPoller(p: Poller)
      requires Valid()
      modifies this
      ensures Valid()
      ensures var there := p.networkID in old(pollers) && p.endpointID in old(pollers)[p.networkID];
        && (!there ==> All(pollers) == All(old(pollers)) + {p} && p !in All(old(pollers)))
        && (there ==>
            var prev := old(pollers)[p.networkID][p.endpointID];
            All(pollers) == if prev.add && !p.add then All(old(pollers)) - {prev} else All(old(pollers)))
    {
      ghost var before := pollers;
      if p.networkID !in pollers {
        pollers := pollers[p.networkID := map[]];
        EmptyNetworkIsNothing(before, p.networkID);
      }
      var m := pollers[p.networkID];
      if p.endpointID !in m {
        InsertEffect(pollers, p);
        pollers := pollers[p.networkID := m[p.endpointID := p]];
        pSize := pSize + 1;
        return;
      }
      if m[p.endpointID].add && !p.add {
        EraseEffect(pollers, p.networkID, p.endpointID);
        pollers := Erase(pollers, p.networkID, p.endpointID);
        pSize := pSize - 1;
      }
    }

    method Size() returns (n: int)
      requires Valid()
      ensures n == |All(pollers)|
    {
      n := pSize;
    }

    /** One entry of the round. */
    method MatchEntry(event: MatchEvent, now: int, n: string, e: string)
      requires Valid() && n in pollers && e in pollers[n]
      modifies this, event
      ensures Valid()
      ensures pollers.Keys == old(pollers).Keys
      ensures forall j :: j in pollers && j != n ==> pollers[j] == old(pollers)[j]
      ensures forall f :: f in old(pollers)[n] && f != e ==> f in pollers[n] && pollers[n][f] == old(pollers)[n][f]
      ensures var p := old(pollers)[n][e];
        var a := MatchOne(event.known, old(event.matched), p);
        && event.matched == a.matched
        && All(pollers) == if !a.failed && (a.ok || p.timeout < now) then All(old(pollers)) - {p} else All(old(pollers))
    {
      var p := pollers[n][e];
      var ok, failed := event.Match(p);
      if failed {
        return;
      }
      if ok || p.timeout < now {
        EraseEffect(pollers, n, e);
        pollers := Erase(pollers, n, e);
        pSize := pSize - 1;
      }
    }

    /** The inner loop: the entries of one network. `start` is what was matched before the round. */
    method MatchNetwork(event: MatchEvent, now: int, n: string, ghost start: map<string, bool>, ghost before: Table,
                        ghost nets: set<string>, ghost visited: seq<Poller>)
      returns (ghost order: seq<Poller>)
      requires Valid() && pollers.Keys == before.Keys && n in pollers && pollers[n] == before[n]
      requires n !in nets && nets <= pollers.Keys
      requires Progress(event.known, now, start, before, visited, pollers, event.matched)
      requires Unvisited(before, visited, nets, n, before[n].Keys)
      modifies this, event
      ensures Valid() && pollers.Keys == before.Keys
      ensures forall j :: j in nets ==> pollers[j] == old(pollers)[j]
      ensures Progress(event.known, now, start, before, order, pollers, event.matched)
      ensures Unvisited(before, order, nets, n, {})
    {
      hide Progress, VisitAll, MatchOne, Unvisited, All, Filed;
      order := visited;
      var eps := pollers[n].Keys;
      while eps != {}
        invariant Valid() && pollers.Keys == before.Keys
        invariant forall j :: j in nets ==> pollers[j] == old(pollers)[j]
        invariant eps <= before[n].Keys
        invariant forall e :: e in eps ==> e in pollers[n] && pollers[n][e] == before[n][e]
        invariant Progress(event.known, now, start, before, order, pollers, event.matched)
        invariant Unvisited(before, order, nets, n, eps)
        decreases eps
      {
        var e :| e in eps;
        UnvisitedNext(event.known, now, start, before, order, pollers, event.matched, nets, n, eps, e);
        eps := eps - {e};
        ghost var p, matched, t := before[n][e], event.matched, pollers;
        MatchEntry(event, now, n, e);
        VisitNext(event.known, now, start, before, order, t, matched, p, pollers, event.matched);
        order := order + [p];
      }
    }

    /** One round in whatever order the maps are iterated; `order` is the order taken. */
    method Match(event: MatchEvent, now: int) returns (ghost order: seq<Poller>)
      requires Valid()
      modifies this, event
      ensures Valid()
      ensures Enumerates(order, All(old(pollers)))
      ensures Round(All(pollers), event.matched) == VisitAll(event.known, now, old(event.matched), order)
    {
      hide Progress, VisitAll, MatchOne, Unvisited, All, Enumerates;
      order := [];
      ghost var before := pollers;
      ProgressStart(event.known, now, event.matched, before);
      var nets := pollers.Keys;
      ghost var last := "";
      UnvisitedStart(before);
      while nets != {}
        invariant Valid() && nets <= pollers.Keys && pollers.Keys == before.Keys
        invariant forall n :: n in nets ==> pollers[n] == before[n]
        invariant Progress(event.known, now, old(event.matched), before, order, pollers, event.matched)
        invariant Unvisited(before, order, nets, last, {})
        decreases nets
      {
        var n :| n in nets;
        UnvisitedOpen(before, order, nets, last, n);
        nets := nets - {n};
        order := MatchNetwork(event, now, n, old(event.matched), before, nets, order);
        last := n;
      }
      ProgressEnd(event.known, now, old(event.matched), before, order, pollers, event.matched, last);
    }
  }

  /** What is still to come: the networks in `nets`, and the endpoints in `eps` of network n. */
  ghost predicate Unvisited(before: Table, order: seq<Poller>, nets: set<string>, n: string, eps: set<string>) {
    forall p :: p in All(before) ==>
      (p in order <==> p.networkID !in nets && !(p.networkID == n && p.endpointID in eps))
  }

  lemma UnvisitedStart(before: Table)
    requires Filed(before)
    ensures Unvisited(before, [], before.Keys, "", {})
  {
  }

  lemma UnvisitedOpen(before: Table, order: seq<Poller>, nets: set<string>, last: string, n: string)
    requires Filed(before) && Unvisited(before, order, nets, last, {}) && n in nets && n in before
    ensures Unvisited(before, order, nets - {n}, n, before[n].Keys)
  {
  }

  lemma UnvisitedNext(k: Known, now: int, start: map<string, bool>, before: Table, order: seq<Poller>, t: Table,
                      matched: map<string, bool>, nets: set<string>, n: string, eps: set<string>, e: string)
    requires Progress(k, now, start, before, order, t, matched)
    requires Unvisited(before, order, nets, n, eps) && n in before && e in eps && eps <= before[n].Keys && n !in nets
    ensures before[n][e] in All(before) && before[n][e] !in order
    ensures Unvisited(before, order + [before[n][e]], nets, n, eps - {e})
  {
    var p := before[n][e];
    assert p in All(before);
    forall q | q in All(before)
      ensures q in order + [p] <==> q.networkID !in nets && !(q.networkID == n && q.endpointID in eps - {e})
    {
      assert q in order + [p] <==> q in order || q == p;
    }
  }

  /** Every poller once, and no other. */
  predicate Enumerates(order: seq<Poller>, all: set<Poller>) {
    && (forall i, j :: 0 <= i < j < |order| ==> order[i] != order[j])
    && (forall i :: 0 <= i < |order| ==> order[i] in all)
    && (forall p :: p in all ==> p in order)
  }

  /** Mid-round: the table holds what the visited part of the order keeps, and all that is not yet visited. */
  ghost predicate Progress(k: Known, now: int, start: map<string, bool>, before: Table, order: seq<Poller>, t: Table,
                           matched: map<string, bool>) {
    var r := VisitAll(k, now, start, order);
    && Filed(before)
    && (forall i, j :: 0 <= i < j < |order| ==> order[i] != order[j])
    && (forall i :: 0 <= i < |order| ==> order[i] in All(before))
    && r.matched == matched
    && All(t) == r.kept + (set p | p in All(before) && p !in order)
  }

  lemma ProgressStart(k: Known, now: int, start: map<string, bool>, before: Table)
    requires Filed(before)
    ensures Progress(k, now, start, before, [], before, start)
  {
  }

  lemma ProgressEnd(k: Known, now: int, start: map<string, bool>, before: Table, order: seq<Poller>, t: Table,
                    matched: map<string, bool>, last: string)
    requires Progress(k, now, start, before, order, t, matched) && Unvisited(before, order, {}, last, {})
    ensures Enumerates(order, All(before)) && Round(All(t), matched) == VisitAll(k, now, start, order)
  {
    assert All(t) == VisitAll(k, now, start, order).kept;
  }

  lemma {:induction false} KeptWereVisited(k: Known, now: int, start: map<string, bool>, order: seq<Poller>)
    ensures forall p :: p in VisitAll(k, now, start, order).kept ==> p in order
    decreases |order|
  {
    if order != [] {
      KeptWereVisited(k, now, start, order[..|order| - 1]);
    }
  }

  lemma VisitNext(k: Known, now: int, start: map<string, bool>, before: Table, order: seq<Poller>, t: Table,
                  matched: map<string, bool>, p: Poller, t': Table, matched': map<string, bool>)
    requires Progress(k, now, start, before, order, t, matched)
    requires p in All(before) && p !in order
    requires var a := MatchOne(k, matched, p);
      && matched' == a.matched
      && All(t') == if !a.failed && (a.ok || p.timeout < now) then All(t) - {p} else All(t)
    ensures Progress(k, now, start, before, order + [p], t', matched')
  {
    assert (order + [p])[..|order|] == order;
    KeptWereVisited(k, now, start, order);
    var r' := VisitAll(k, now, start, order + [p]);
    forall q ensures q in All(t') <==> q in r'.kept || (q in All(before) && q !in order + [p]) {
      assert q in order + [p] <==> q in order || q == p;
    }
  }

  lemma EmptyNetworkIsNothing(t: Table, n: string)
    requires Filed(t) && n !in t
    ensures Filed(t[n := map[]]) && All(t[n := map[]]) == All(t)
  {
    var t' := t[n := map[]];
    forall p | p in All(t) ensures p in All(t') {
      var n', e' :| n' in t && e' in t[n'] && p == t[n'][e'];
      assert n' in t' && e' in t'[n'] && t'[n'][e'] == p;
    }
  }

  lemma InsertEffect(t: Table, p: Poller)
    requires Filed(t) && p.networkID in t && p.endpointID !in t[p.networkID]
    ensures var t' := t[p.networkID := t[p.networkID][p.endpointID := p]];
      && Filed(t') && All(t') == All(t) + {p} && p !in All(t) && |All(t')| == |All(t)| + 1
  {
    var t' := t[p.networkID := t[p.networkID][p.endpointID := p]];
    forall q | q in All(t) ensures q in All(t') {
      var n, e :| n in t && e in t[n] && q == t[n][e];
      assert n in t' && e in t'[n] && t'[n][e] == q;
    }
    assert t'[p.networkID][p.endpointID] == p;
  }

  // ----- what does not depend on the order

  /** The container a poller's match reports, if any. */
  function Reports(k: Known, p: Poller): Option<string> {
    var c := Lookup(k.docker, p.networkID, p.endpointID);
    if p.add then (if c.Some? && c.value in k.fails then None else c)
    else if c == None then Lookup(k.vessel, p.networkID, p.endpointID)
    else None
  }

  predicate Goes(k: Known, now: int, p: Poller) {
    var c := Lookup(k.docker, p.networkID, p.endpointID);
    if p.add then
      if c.Some? then c.value !in k.fails else p.timeout < now
    else c == None || p.timeout < now
  }

  /** No container whose pool lookup fails has both an addition and a removal pending, nor a result already. */
  predicate NoClash(k: Known, matched: map<string, bool>, all: set<Poller>) {
    forall p, q :: p in all && q in all && p.add ==>
      var c := Lookup(k.docker, p.networkID, p.endpointID);
      c.Some? && c.value in k.fails ==> c.value !in matched && Reports(k, q) != c
  }

  lemma VisitSettled(k: Known, now: int, r: Round, p: Poller, id: string)
    requires var c := Lookup(k.docker, p.networkID, p.endpointID);
      p.add && c.Some? && c.value in k.fails ==> c.value !in r.matched
    ensures var r' := Visit(k, now, r, p);
      && r'.kept == (if Goes(k, now, p) then r.kept else r.kept + {p})
      && (id in r'.matched <==> id in r.matched || Reports(k, p) == Some(id))
  {
  }

  predicate SomeReports(k: Known, order: seq<Poller>, id: string) {
    exists i :: 0 <= i < |order| && Reports(k, order[i]) == Some(id)
  }

  lemma SomeReportsNext(k: Known, front: seq<Poller>, p: Poller, id: string)
    ensures SomeReports(k, front + [p], id) <==> SomeReports(k, front, id) || Reports(k, p) == Some(id)
  {
    hide Reports;
    var order := front + [p];
    assert order[|front|] == p;
    if SomeReports(k, front, id) {
      var i :| 0 <= i < |front| && Reports(k, front[i]) == Some(id);
      assert order[i] == front[i];
    }
  }

  lemma {:induction false} VisitAllSettled(k: Known, now: int, matched: map<string, bool>, all: set<Poller>,
                                           order: seq<Poller>)
    requires NoClash(k, matched, all) && forall i :: 0 <= i < |order| ==> order[i] in all
    ensures var r := VisitAll(k, now, matched, order);
      && (forall p :: p in r.kept <==> p in order && !Goes(k, now, p))
      && (forall id :: id in r.matched <==> id in matched || SomeReports(k, order, id))
    decreases |order|
  {
    hide Visit, Goes, Lookup, Reports;
    if order != [] {
      var front, p := order[..|order| - 1], order[|order| - 1];
      assert order == front + [p];
      VisitAllSettled(k, now, matched, all, front);
      var r := VisitAll(k, now, matched, front);
      var c := Lookup(k.docker, p.networkID, p.endpointID);
      if p.add && c.Some? && c.value in k.fails {
        // nobody reports this container, so the lookup is made and fails
        assert forall i :: 0 <= i < |front| ==> front[i] == order[i] && Reports(k, front[i]) != c;
        assert c.value !in r.matched;
      }
      forall id ensures id in Visit(k, now, r, p).matched <==> id in matched || SomeReports(k, order, id) {
        VisitSettled(k, now, r, p, id);
        SomeReportsNext(k, front, p, id);
      }
      VisitSettled(k, now, r, p, "");
    }
  }

  /**
   Without a clash - in particular if no pool lookup fails - the pollers left and the containers reported are the
   same for every order.
   */
  lemma OrderDoesNotMatter(k: Known, now: int, matched: map<string, bool>, all: set<Poller>, a: seq<Poller>,
                           b: seq<Poller>)
    requires NoClash(k, matched, all) && Enumerates(a, all) && Enumerates(b, all)
    ensures VisitAll(k, now, matched, a).kept == VisitAll(k, now, matched, b).kept
    ensures VisitAll(k, now, matched, a).matched.Keys == VisitAll(k, now, matched, b).matched.Keys
  {
    VisitAllSettled(k, now, matched, all, a);
    VisitAllSettled(k, now, matched, all, b);
    var ra, rb := VisitAll(k, now, matched, a), VisitAll(k, now, matched, b);
    forall id ensures SomeReports(k, a, id) <==> SomeReports(k, b, id) {
      if SomeReports(k, a, id) {
        var i :| 0 <= i < |a| && Reports(k, a[i]) == Some(id);
        assert a[i] in b;
      }
      if SomeReports(k, b, id) {
        var i :| 0 <= i < |b| && Reports(k, b[i]) == Some(id);
        assert b[i] in a;
      }
    }
    assert ra.kept == rb.kept;
  }

  lemma EnumeratesCons(p: Poller, rest: seq<Poller>, all: set<Poller>)
    requires p in all && Enumerates(rest, all - {p})
    ensures Enumerates([p] + rest, all)
  {
    var order := [p] + rest;
    assert order[0] == p;
    forall i | 0 < i < |order| ensures order[i] == rest[i - 1] && order[i] in all && order[i] != p {
    }
    forall i, j | 0 <= i < j < |order| ensures order[i] != order[j] {
      assert order[j] == rest[j - 1];
    }
    forall q | q in all ensures q in order {
      assert q != p ==> q in rest;
    }
  }

  lemma NothingEnumerates()
    ensures Enumerates([], {})
  {
  }

  /** Some order lists any finite set. */
  lemma Enumeration(all: set<Poller>) returns (order: seq<Poller>)
    ensures Enumerates(order, all)
  {
    hide Enumerates;
    order := [];
    assert Enumerates([], {}) by { NothingEnumerates(); }
    if all != {} {
      var p :| p in all;
      var rest := Enumeration(all - {p});
      EnumeratesCons(p, rest, all);
      order := [p] + rest;
    }
  }

  /** What the first part of an order keeps stays kept, and what it drops stays gone unless it is visited again. */
  lemma {:induction false} PrefixDecides(k: Known, now: int, matched: map<string, bool>, front: seq<Poller>,
                                         rest: seq<Poller>, p: Poller)
    requires p !in rest
    ensures p in VisitAll(k, now, matched, front + rest).kept <==> p in VisitAll(k, now, matched, front).kept
    decreases |rest|
  {
    if rest == [] {
      assert front + rest == front;
    } else {
      var n := |rest| - 1;
      assert (front + rest)[..|front + rest| - 1] == front + rest[..n];
      PrefixDecides(k, now, matched, front, rest[..n], p);
    }
  }

  /** A failing addition before the removal of its container stays, after it goes. */
  lemma PairShows(k: Known, now: int, p: Poller, q: Poller)
    requires p.add && Lookup(k.docker, p.networkID, p.endpointID).Some?
    requires Lookup(k.docker, p.networkID, p.endpointID).value in k.fails
    requires Reports(k, q) == Lookup(k.docker, p.networkID, p.endpointID)
    ensures p != q
    ensures p in VisitAll(k, now, map[], [p]).kept
    ensures p !in VisitAll(k, now, map[], [q, p]).kept
  {
    var r := Visit(k, now, Round({}, map[]), q);
    assert [q, p][..1] == [q] && [q][..0] == [] && [p][..0] == [];
    assert VisitAll(k, now, map[], [q]) == r;
    assert r.kept == {} && Reports(k, q).value in r.matched;
    assert VisitAll(k, now, map[], [q, p]) == Visit(k, now, r, p);
  }

  lemma ClashShows(k: Known, now: int, all: set<Poller>) returns (a: seq<Poller>, b: seq<Poller>)
    requires !NoClash(k, map[], all)
    ensures Enumerates(a, all) && Enumerates(b, all)
    ensures VisitAll(k, now, map[], a).kept != VisitAll(k, now, map[], b).kept
  {
    hide VisitAll, Lookup, Reports;
    var p, q :| p in all && q in all && p.add
      && var c := Lookup(k.docker, p.networkID, p.endpointID); c.Some? && c.value in k.fails && Reports(k, q) == c;
    PairShows(k, now, p, q);
    var rest := Enumeration(all - {p, q});
    a, b := [p] + ([q] + rest), [q, p] + rest;
    PairFirst(p, q, rest, all, a);
    PairFirst(q, p, rest, all, b);
    PrefixDecides(k, now, map[], [p], [q] + rest, p);
    PrefixDecides(k, now, map[], [q, p], rest, p);
  }

  lemma PairFirst(p: Poller, q: Poller, rest: seq<Poller>, all: set<Poller>, order: seq<Poller>)
    requires p in all && q in all && p != q && Enumerates(rest, all - {p, q}) && order == [p, q] + rest
    ensures Enumerates(order, all)
  {
    hide Enumerates;
    assert all - {p, q} == all - {p} - {q};
    EnumeratesCons(q, rest, all - {p});
    EnumeratesCons(p, [q] + rest, all);
    assert order == [p] + ([q] + rest);
  }

  /**
   In a round of a new match event, exactly a clash lets the order of iteration decide which pollers stay and which
   containers are reported.
   */
  lemma OrderDoesNotMatterIff(k: Known, now: int, all: set<Poller>)
    ensures NoClash(k, map[], all) <==>
      forall a, b :: Enumerates(a, all) && Enumerates(b, all) ==>
        && VisitAll(k, now, map[], a).kept == VisitAll(k, now, map[], b).kept
        && VisitAll(k, now, map[], a).matched.Keys == VisitAll(k, now, map[], b).matched.Keys
  {
    hide VisitAll, NoClash, Enumerates;
    if NoClash(k, map[], all) {
      forall a, b | Enumerates(a, all) && Enumerates(b, all)
        ensures VisitAll(k, now, map[], a).kept == VisitAll(k, now, map[], b).kept
        ensures VisitAll(k, now, map[], a).matched.Keys == VisitAll(k, now, map[], b).matched.Keys
      {
        OrderDoesNotMatter(k, now, map[], all, a, b);
      }
    } else {
      var a, b := ClashShows(k, now, all);
    }
  }

  lemma NoFailuresNoClash(k: Known, matched: map<string, bool>, all: set<Poller>)
    requires k.fails == {}
    ensures NoClash(k, matched, all)
  {
  }

  /** The poller's own endpoint makes this an addition or a removal of the container. */
  predicate Justifies(k: Known, p: Poller, id: string, add: bool) {
    var c := Lookup(k.docker, p.networkID, p.endpointID);
    && p.add == add
    && (add ==> c == Some(id))
    && (!add ==> c == None && Lookup(k.vessel, p.networkID, p.endpointID) == Some(id))
  }

  predicate Justified(k: Known, order: seq<Poller>, r: Round, id: string)
    requires id in r.matched
  {
    exists i :: 0 <= i < |order| && order[i] !in r.kept && Justifies(k, order[i], id, r.matched[id])
  }

  lemma VisitKeepsResults(k: Known, now: int, r: Round, p: Poller, id: string)
    ensures id in r.matched ==> id in Visit(k, now, r, p).matched && Visit(k, now, r, p).matched[id] == r.matched[id]
    ensures id !in r.matched && id in Visit(k, now, r, p).matched ==>
              Justifies(k, p, id, Visit(k, now, r, p).matched[id]) && Visit(k, now, r, p).kept == r.kept
  {
  }

  /** Every result the round adds is reported by a poller of the same sense that the round removed. */
  lemma {:induction false} ResultsJustified(k: Known, now: int, matched: map<string, bool>, order: seq<Poller>,
                                            id: string)
    requires forall i, j :: 0 <= i < j < |order| ==> order[i] != order[j]
    requires id in VisitAll(k, now, matched, order).matched && id !in matched
    ensures Justified(k, order, VisitAll(k, now, matched, order), id)
    decreases |order|
  {
    hide Visit, Justifies;
    var front, p := order[..|order| - 1], order[|order| - 1];
    var r, r' := VisitAll(k, now, matched, front), VisitAll(k, now, matched, order);
    assert r' == Visit(k, now, r, p);
    VisitKeepsResults(k, now, r, p, id);
    KeptWereVisited(k, now, matched, front);
    KeptGrows(k, now, r, p);
    if id in r.matched {
      ResultsJustified(k, now, matched, front, id);
      var i :| 0 <= i < |front| && front[i] !in r.kept && Justifies(k, front[i], id, r.matched[id]);
      assert order[i] == front[i] && order[i] != p;
    } else {
      assert p !in front;
      assert order[|order| - 1] !in r'.kept;
    }
  }

  lemma KeptGrows(k: Known, now: int, r: Round, p: Poller)
    ensures r.kept <= Visit(k, now, r, p).kept <= r.kept + {p}
  {
  }

  /**
   With a clash the order shows: visited first, the removal's result lets the addition pass; visited second, the
   addition is kept.
   */
  lemma ClashDependsOnOrder(now: int)
    ensures var k := Known(map["n" := map["e" := "c"]], map["n" := map["f" := "c"]], {"c"});
      var p, q := Poller("n", "e", true, now), Poller("n", "f", false, now);
      && !NoClash(k, map[], {p, q})
      && VisitAll(k, now, map[], [q, p]).kept == {}
      && VisitAll(k, now, map[], [p, q]).kept == {p}
  {
    var k := Known(map["n" := map["e" := "c"]], map["n" := map["f" := "c"]], {"c"});
    var p, q := Poller("n", "e", true, now), Poller("n", "f", false, now);
    assert "e" != "f";
    assert [q, p][..1] == [q] && [p, q][..1] == [p] && [q][..0] == [] && [p][..0] == [];
    assert Reports(k, q) == Some("c") == Lookup(k.docker, p.networkID, p.endpointID);
    assert VisitAll(k, now, map[], [q]) == Round({}, map["c" := false]);
    assert VisitAll(k, now, map[], [p]) == Round({p}, map[]);
  }
}
