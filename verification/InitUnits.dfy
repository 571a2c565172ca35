/** Memoised initialisation in dependency order: a depth-first walk that detects cycles on its path. */
module InitUnits {
  import opened Types
  import opened FiniteSets

  /** Each registered function with the functions it requires; every required function is registered. */
  type Graph = map<nat, seq<nat>>

  predicate Closed(g: Graph) {
    forall u, i :: u in g && 0 <= i < |g[u]| ==> g[u][i] in g
  }

  datatype Failure = Circular | InitFailed(ptr: nat)

  /** `order` lists the inited units in the order they were completed, `ran` every init function called. */
  datatype State = State(order: seq<nat>, ran: seq<nat>)

  /** What initUnit does: the registered functions in `fails` return an error when called. */
  function InitOne(g: Graph, fails: set<nat>, st: State, u: nat, path: seq<nat>): (State, Option<Failure>)
    requires Closed(g) && u in g
    decreases g.Keys - Elems(path), 0
  {
    if u in st.order then (st, None)
    else if u in path then (st, Some(Circular))
    else
      PathGrows(g, u, path);
      var (st', err) := InitAll(g, fails, st, g[u], path + [u]);
      if err.Some? then (st', err)
      else if u in fails then (st'.(ran := st'.ran + [u]), Some(InitFailed(u)))
      else (State(st'.order + [u], st'.ran + [u]), None)
  }

  /** Units one after the other, up to the first failure. */
  function InitAll(g: Graph, fails: set<nat>, st: State, us: seq<nat>, path: seq<nat>): (State, Option<Failure>)
    requires Closed(g) && forall i :: 0 <= i < |us| ==> us[i] in g
    decreases g.Keys - Elems(path), |us| + 1
  {
    if us == [] then (st, None)
    else
      var (st', err) := InitOne(g, fails, st, us[0], path);
      if err.Some? then (st', err) else InitAll(g, fails, st', us[1..], path)
  }

  lemma PathGrows(g: Graph, u: nat, path: seq<nat>)
    requires u in g && u !in path
    ensures g.Keys - Elems(path + [u]) < g.Keys - Elems(path)
  {
    assert u in g.Keys - Elems(path) && u in Elems(path + [u]);
    assert Elems(path) <= Elems(path + [u]);
  }

  // ----- what holds of every call

  /** No unit twice, and each after all it requires. */
  predicate Ordered(g: Graph, order: seq<nat>) {
    && (forall i :: 0 <= i < |order| ==> order[i] in g)
    && (forall i, j :: 0 <= i < j < |order| ==> order[i] != order[j])
    && (forall i, d :: 0 <= i < |order| && d in g[order[i]] ==> d in order[..i])
  }

  /** Each step of the walk follows a requirement. */
  predicate Chain(g: Graph, path: seq<nat>) {
    && (forall i :: 0 <= i < |path| ==> path[i] in g)
    && (forall i :: 0 <= i < |path| - 1 ==> path[i + 1] in g[path[i]])
  }

  /** A walk from u that comes back to a unit it has already passed. */
  predicate CycleFrom(g: Graph, u: nat, walk: seq<nat>) {
    && Chain(g, walk) && walk != [] && walk[0] == u
    && exists k :: 0 <= k < |walk| - 1 && walk[k] == walk[|walk| - 1]
  }

  ghost predicate Cyclic(g: Graph, u: nat) {
    exists walk :: CycleFrom(g, u, walk)
  }

  function FailedCall(err: Option<Failure>): seq<nat> {
    if err.Some? && err.value.InitFailed? then [err.value.ptr] else []
  }

  /**
   The completed units of this call follow those of before, and the calls made are exactly those, plus the one that
   failed.
   */
  predicate Progress(st: State, st': State, err: Option<Failure>) {
    && st.order <= st'.order
    && st'.ran == st.ran + st'.order[|st.order|..] + FailedCall(err)
    && (err.Some? && err.value.InitFailed? ==> err.value.ptr !in st'.order)
  }

  /** No unit whose init function fails is completed. */
  predicate Spared(fails: set<nat>, st: State, st': State) {
    forall v :: v in st'.order && v !in st.order ==> v !in fails
  }

  lemma OrderedSnoc(g: Graph, order: seq<nat>, u: nat)
    requires Ordered(g, order) && u in g && u !in order
    requires forall d :: d in g[u] ==> d in order
    ensures Ordered(g, order + [u])
  {
    var order' := order + [u];
    forall i, d | 0 <= i < |order'| && d in g[order'[i]] ensures d in order'[..i] {
      if i < |order| {
        assert order'[..i] == order[..i];
      } else {
        assert order'[..i] == order;
      }
    }
  }

  lemma {:induction false} InitOneOrdered(g: Graph, fails: set<nat>, st: State, u: nat, path: seq<nat>)
    requires Closed(g) && u in g && Ordered(g, st.order)
    requires forall i :: 0 <= i < |path| ==> path[i] !in st.order
    ensures var (st', err) := InitOne(g, fails, st, u, path);
      && Ordered(g, st'.order) && Progress(st, st', err) && Spared(fails, st, st')
      && (err == None ==> u in st'.order)
      && (forall i :: 0 <= i < |path| ==> path[i] !in st'.order)
      && (err.Some? && err.value.InitFailed? ==> err.value.ptr in fails)
    decreases g.Keys - Elems(path), 0
  {
    if u !in st.order && u !in path {
      PathGrows(g, u, path);
      var path' := path + [u];
      InitAllOrdered(g, fails, st, g[u], path');
      var (st', err) := InitAll(g, fails, st, g[u], path');
      assert path'[|path|] == u;
      assert forall i :: 0 <= i < |path| ==> path'[i] == path[i];
      if err == None && u !in fails {
        OrderedSnoc(g, st'.order, u);
        assert (st'.order + [u])[|st.order|..] == st'.order[|st.order|..] + [u];
      }
    }
  }

  lemma {:induction false} InitAllOrdered(g: Graph, fails: set<nat>, st: State, us: seq<nat>, path: seq<nat>)
    requires Closed(g) && (forall i :: 0 <= i < |us| ==> us[i] in g) && Ordered(g, st.order)
    requires forall i :: 0 <= i < |path| ==> path[i] !in st.order
    ensures var (st', err) := InitAll(g, fails, st, us, path);
      && Ordered(g, st'.order) && Progress(st, st', err) && Spared(fails, st, st')
      && (err == None ==> forall d :: d in us ==> d in st'.order)
      && (forall i :: 0 <= i < |path| ==> path[i] !in st'.order)
      && (err.Some? && err.value.InitFailed? ==> err.value.ptr in fails)
    decreases g.Keys - Elems(path), |us| + 1
  {
    hide Ordered, Progress, Spared;
    if us == [] {
      NoProgress(fails, st);
    } else {
      InitOneOrdered(g, fails, st, us[0], path);
      var (st1, err) := InitOne(g, fails, st, us[0], path);
      if err == None {
        InitAllOrdered(g, fails, st1, us[1..], path);
        var (st', err') := InitAll(g, fails, st1, us[1..], path);
        ProgressJoins(fails, st, st1, st', err');
        forall d | d in us && err' == None ensures d in st'.order {
          assert d == us[0] || d in us[1..];
        }
      }
    }
  }

  lemma NoProgress(fails: set<nat>, st: State)
    ensures Progress(st, st, None) && Spared(fails, st, st)
  {
  }

  lemma ProgressJoins(fails: set<nat>, st: State, st1: State, st': State, err: Option<Failure>)
    requires Progress(st, st1, None) && Progress(st1, st', err) && Spared(fails, st, st1) && Spared(fails, st1, st')
    ensures Progress(st, st', err) && Spared(fails, st, st')
    ensures forall v :: v in st1.order ==> v in st'.order
  {
    assert st'.order[|st.order|..] == st1.order[|st.order|..] + st'.order[|st1.order|..];
    assert forall v :: v in st1.order ==> v in st'.order by {
      assert forall i :: 0 <= i < |st1.order| ==> st1.order[i] == st'.order[i];
    }
  }

  /** ErrCircularDependencies is only reported for a walk that really comes back to itself. */
  lemma {:induction false} CircularIsReal(g: Graph, fails: set<nat>, st: State, u: nat, path: seq<nat>)
    returns (walk: seq<nat>)
    requires Closed(g) && u in g && Chain(g, path + [u])
    requires InitOne(g, fails, st, u, path).1 == Some(Circular)
    ensures CycleFrom(g, (path + [u])[0], walk)
    decreases g.Keys - Elems(path), 0
  {
    if u in path {
      walk := path + [u];
      var k :| 0 <= k < |path| && path[k] == u;
      assert walk[k] == walk[|walk| - 1];
    } else {
      PathGrows(g, u, path);
      walk := CircularAmong(g, fails, st, g[u], path + [u]);
      assert (path + [u])[0] == walk[0];
    }
  }

  lemma {:induction false} CircularAmong(g: Graph, fails: set<nat>, st: State, us: seq<nat>, path: seq<nat>)
    returns (walk: seq<nat>)
    requires Closed(g) && (forall i :: 0 <= i < |us| ==> us[i] in g)
    requires path != [] && Chain(g, path) && forall d :: d in us ==> d in g[path[|path| - 1]]
    requires InitAll(g, fails, st, us, path).1 == Some(Circular)
    ensures CycleFrom(g, path[0], walk)
    decreases g.Keys - Elems(path), |us| + 1
  {
    var (st1, err) := InitOne(g, fails, st, us[0], path);
    if err.Some? {
      assert us[0] in us;
      walk := CircularIsReal(g, fails, st, us[0], path);
    } else {
      assert forall d :: d in us[1..] ==> d in us;
      walk := CircularAmong(g, fails, st1, us[1..], path);
    }
  }

  function Position(order: seq<nat>, u: nat): (i: nat)
    requires u in order
    ensures i < |order| && order[i] == u
  {
    if order[0] == u then 0 else 1 + Position(order[1..], u)
  }

  /** Along a walk from an inited unit every unit is inited, each strictly before the one that requires it. */
  lemma {:induction false} RequirementsCameFirst(g: Graph, order: seq<nat>, walk: seq<nat>, a: nat, b: nat)
    requires Ordered(g, order) && Chain(g, walk) && a <= b < |walk| && walk[a] in order
    ensures walk[b] in order
    ensures a < b ==> Position(order, walk[b]) < Position(order, walk[a])
    decreases b
  {
    if a < b {
      RequirementsCameFirst(g, order, walk, a, b - 1);
      var i := Position(order, walk[b - 1]);
      assert walk[b - 1 + 1] in g[walk[b - 1]];
      assert walk[b] in order[..i];
      var j :| 0 <= j < i && order[j] == walk[b];
      assert Position(order, walk[b]) == j;
    }
  }

  lemma InitedIsAcyclic(g: Graph, order: seq<nat>, u: nat)
    requires Ordered(g, order) && u in order
    ensures !Cyclic(g, u)
  {
    if Cyclic(g, u) {
      var walk :| CycleFrom(g, u, walk);
      var last := |walk| - 1;
      var k :| 0 <= k < last && walk[k] == walk[last];
      RequirementsCameFirst(g, order, walk, 0, k);
      RequirementsCameFirst(g, order, walk, k, last);
    }
  }

  /** A walk of requirements from u to v. */
  predicate Leads(g: Graph, walk: seq<nat>, u: nat, v: nat) {
    walk != [] && Chain(g, walk) && walk[0] == u && walk[|walk| - 1] == v
  }

  /** u or something it requires, directly or not, is not inited yet and has a failing init function. */
  ghost predicate FailureAhead(g: Graph, fails: set<nat>, st: State, u: nat) {
    exists walk, v :: Leads(g, walk, u, v) && v in fails && v !in st.order
  }

  /** A failing init function that is reported was met along a walk of requirements. */
  lemma {:induction false} FailedReached(g: Graph, fails: set<nat>, st: State, u: nat, path: seq<nat>, p: nat)
    returns (walk: seq<nat>)
    requires Closed(g) && u in g && InitOne(g, fails, st, u, path).1 == Some(InitFailed(p))
    ensures Leads(g, walk, u, p)
    decreases g.Keys - Elems(path), 0
  {
    hide Leads, Chain;
    PathGrows(g, u, path);
    if InitAll(g, fails, st, g[u], path + [u]).1 == None {
      LeadsToItself(g, u);
      return [u];
    }
    var i, rest := FailedAmong(g, fails, st, g[u], path + [u], p);
    LeadsFrom(g, u, rest, i, p);
    return [u] + rest;
  }

  lemma LeadsToItself(g: Graph, u: nat)
    requires u in g
    ensures Leads(g, [u], u, u)
  {
  }

  lemma LeadsFrom(g: Graph, u: nat, rest: seq<nat>, i: nat, p: nat)
    requires u in g && i < |g[u]| && Leads(g, rest, g[u][i], p)
    ensures Leads(g, [u] + rest, u, p)
  {
  }

  lemma {:induction false} FailedAmong(g: Graph, fails: set<nat>, st: State, us: seq<nat>, path: seq<nat>, p: nat)
    returns (i: nat, walk: seq<nat>)
    requires Closed(g) && (forall i :: 0 <= i < |us| ==> us[i] in g)
    requires InitAll(g, fails, st, us, path).1 == Some(InitFailed(p))
    ensures i < |us| && Leads(g, walk, us[i], p)
    decreases g.Keys - Elems(path), |us| + 1
  {
    var (st1, err) := InitOne(g, fails, st, us[0], path);
    if err.Some? {
      walk := FailedReached(g, fails, st, us[0], path, p);
      i := 0;
    } else {
      i, walk := FailedAmong(g, fails, st1, us[1..], path, p);
      i := i + 1;
    }
  }

  /** What was completed in a call that met no failure holds no failing unit among the requirements. */
  lemma NoFailureAhead(g: Graph, fails: set<nat>, st: State, st': State, u: nat)
    requires Ordered(g, st'.order) && Spared(fails, st, st') && u in st'.order
    ensures !FailureAhead(g, fails, st, u)
  {
    if FailureAhead(g, fails, st, u) {
      var walk, v :| Leads(g, walk, u, v) && v in fails && v !in st.order;
      RequirementsCameFirst(g, st'.order, walk, 0, |walk| - 1);
    }
  }

  /** A failure is reported of p iff the last function called was p's and p's returns an error. */
  lemma LastCallFailed(fails: set<nat>, st: State, st': State, err: Option<Failure>, p: nat)
    requires Progress(st, st', err) && Spared(fails, st, st') && (forall v :: v in st.order ==> v in st'.order)
    requires err.Some? && err.value.InitFailed? ==> err.value.ptr in fails
    requires forall i, j :: 0 <= i < j < |st'.order| ==> st'.order[i] != st'.order[j]
    ensures err == Some(InitFailed(p)) <==>
      |st'.ran| > |st.ran| && st'.ran[|st'.ran| - 1] == p && p in fails
  {
    var done := st'.order[|st.order|..];
    assert st'.ran == st.ran + done + FailedCall(err);
    assert forall i :: 0 <= i < |done| ==> done[i] == st'.order[|st.order| + i];
    assert forall i :: 0 <= i < |st.order| ==> st.order[i] == st'.order[i];
    if err.Some? && err.value.InitFailed? {
      assert st'.ran[|st'.ran| - 1] == err.value.ptr;
    } else if done != [] {
      assert st'.ran[|st'.ran| - 1] == done[|done| - 1];
      assert done[|done| - 1] !in fails;
    }
  }

  /**
   A top-level call on a unit, from any state earlier calls can leave. It reports an error exactly if a cycle
   can be reached or an init function ahead fails: the failing function is the last one called, and neither
   its unit nor any that requires it is inited. On success everything the unit requires, directly or not,
   has been inited before it.
   */
  lemma InitCorrect(g: Graph, fails: set<nat>, st: State, u: nat)
    requires Closed(g) && u in g && Ordered(g, st.order)
    ensures var (st', err) := InitOne(g, fails, st, u, []);
      && Ordered(g, st'.order) && Progress(st, st', err) && Spared(fails, st, st')
      && (err == None <==> !Cyclic(g, u) && !FailureAhead(g, fails, st, u))
      && (err == Some(Circular) ==> Cyclic(g, u))
      && (forall p :: err == Some(InitFailed(p)) <==>
            |st'.ran| > |st.ran| && st'.ran[|st'.ran| - 1] == p && p in fails)
      && (err == None ==> u in st'.order)
      && (err == None ==> forall walk :: Chain(g, walk) && walk != [] && walk[0] == u ==>
            forall b :: 0 < b < |walk| ==>
                walk[b] in st'.order && Position(st'.order, walk[b]) < Position(st'.order, u))
  {
    hide InitOne, InitAll, Spared, Chain, Cyclic;
    InitOneOrdered(g, fails, st, u, []);
    var (st', err) := InitOne(g, fails, st, u, []);
    FailureAheadOf(g, fails, st, u);
    forall p ensures err == Some(InitFailed(p)) <==>
        |st'.ran| > |st.ran| && st'.ran[|st'.ran| - 1] == p && p in fails
    {
      LastCallFailed(fails, st, st', err, p);
    }
    if err == None {
      InitedIsAcyclic(g, st'.order, u);
      NoFailureAhead(g, fails, st, st', u);
      forall walk, b | Chain(g, walk) && walk != [] && walk[0] == u && 0 < b < |walk|
        ensures walk[b] in st'.order && Position(st'.order, walk[b]) < Position(st'.order, u)
      {
        RequirementsCameFirst(g, st'.order, walk, 0, b);
      }
    } else if err == Some(Circular) {
      CircleFromUnit(g, fails, st, u);
    }
  }

  lemma CircleFromUnit(g: Graph, fails: set<nat>, st: State, u: nat)
    requires Closed(g) && u in g && InitOne(g, fails, st, u, []).1 == Some(Circular)
    ensures Cyclic(g, u)
  {
    assert [] + [u] == [u];
    var walk := CircularIsReal(g, fails, st, u, []);
  }

  lemma FailureAheadOf(g: Graph, fails: set<nat>, st: State, u: nat)
    requires Closed(g) && u in g && Ordered(g, st.order)
    ensures var (st', err) := InitOne(g, fails, st, u, []);
      && (forall v :: v in st.order ==> v in st'.order)
      && (err.Some? && err.value.InitFailed? ==> FailureAhead(g, fails, st, u))
  {
    hide InitOne, InitAll, Spared, Chain, Ordered;
    InitOneOrdered(g, fails, st, u, []);
    var (st', err) := InitOne(g, fails, st, u, []);
    assert forall i :: 0 <= i < |st.order| ==> st.order[i] == st'.order[i];
    if err.Some? && err.value.InitFailed? {
      var walk := FailedReached(g, fails, st, u, [], err.value.ptr);
    }
  }

  /**
   Running a list of declared units: each init function is called at most once, and never one that was inited before.
   It succeeds exactly if no unit of the list has a cycle or a failing init function ahead.
   */
  lemma EachRunsOnce(g: Graph, fails: set<nat>, st: State, us: seq<nat>)
    requires Closed(g) && (forall i :: 0 <= i < |us| ==> us[i] in g) && Ordered(g, st.order)
    ensures var (st', err) := InitAll(g, fails, st, us, []);
      && st.ran <= st'.ran
      && var calls := st'.ran[|st.ran|..];
      && (forall i, j :: 0 <= i < j < |calls| ==> calls[i] != calls[j])
      && (forall i :: 0 <= i < |calls| ==> calls[i] !in st.order)
      && (err == None ==> forall u :: u in us ==> u in st'.order)
      && (err == None <==> forall u :: u in us ==> !Cyclic(g, u) && !FailureAhead(g, fails, st, u))
  {
    InitAllOrdered(g, fails, st, us, []);
    var (st', err) := InitAll(g, fails, st, us, []);
    var calls := st'.ran[|st.ran|..];
    var done := st'.order[|st.order|..];
    assert calls == done + if err.Some? && err.value.InitFailed? then [err.value.ptr] else [];
    assert forall i :: 0 <= i < |done| ==> done[i] == st'.order[|st.order| + i];
    assert forall i :: 0 <= i < |st.order| ==> st.order[i] == st'.order[i];
    if err == None {
      forall u | u in us ensures !Cyclic(g, u) && !FailureAhead(g, fails, st, u) {
        InitedIsAcyclic(g, st'.order, u);
        NoFailureAhead(g, fails, st, st', u);
      }
    } else {
      var u := ErrorHasCause(g, fails, st, us);
    }
  }

  /** A failing list holds a unit that has a cycle or a failing init function ahead. */
  lemma {:induction false} ErrorHasCause(g: Graph, fails: set<nat>, st: State, us: seq<nat>) returns (u: nat)
    requires Closed(g) && (forall i :: 0 <= i < |us| ==> us[i] in g) && Ordered(g, st.order)
    requires InitAll(g, fails, st, us, []).1.Some?
    ensures u in us && (Cyclic(g, u) || FailureAhead(g, fails, st, u))
    decreases |us|
  {
    InitCorrect(g, fails, st, us[0]);
    var (st1, err) := InitOne(g, fails, st, us[0], []);
    if err.Some? {
      return us[0];
    }
    u := ErrorHasCause(g, fails, st1, us[1..]);
    assert forall i :: 0 <= i < |st.order| ==> st.order[i] == st1.order[i];
    if FailureAhead(g, fails, st1, u) {
      var walk, v :| Leads(g, walk, u, v) && v in fails && v !in st1.order;
      assert v !in st.order;
    }
  }

  // ----- the program's own objects

  class InitUnit {
    const ptr: nat
    const deps: seq<nat>
    var inited: bool

    constructor (ptr: nat, deps: seq<nat>)
      ensures this.ptr == ptr && this.deps == deps && !inited
    {
      this.ptr := ptr;
      this.deps := deps;
      inited := false;
    }
  }

  /** The registry. `fails` decides which init functions return an error; `ran` records the calls. */
  class Registry {
    const initFuncs: map<nat, InitUnit>
    const fails: set<nat>
    var ran: seq<nat>
    ghost var order: seq<nat>

    ghost function Requires(): Graph {
      map p | p in initFuncs :: initFuncs[p].deps
    }

    ghost predicate Valid()
      reads this, initFuncs.Values
    {
      && (forall p :: p in initFuncs ==> initFuncs[p].ptr == p)
      && (forall p, q :: p in initFuncs && q in initFuncs && p != q ==> initFuncs[p] != initFuncs[q])
      && Closed(Requires())
      && Ordered(Requires(), order)
      && (forall p :: p in initFuncs ==> (initFuncs[p].inited <==> p in order))
    }

    ghost function Now(): State
      reads this
    {
      State(order, ran)
    }

    /** Marks the unit inited once everything it requires is and its own function has run. */
    method InitUnitOnPath(unit: InitUnit, ptrs: seq<nat>) returns (err: Option<Failure>)
      requires Valid() && unit.ptr in initFuncs && initFuncs[unit.ptr] == unit
      requires forall i :: 0 <= i < |ptrs| ==> ptrs[i] !in order
      modifies this, initFuncs.Values
      ensures Valid()
      ensures (Now(), err) == InitOne(Requires(), fails, old(Now()), unit.ptr, ptrs)
      decreases Requires().Keys - Elems(ptrs), 0
    {
      hide Ordered, Progress;
      InitOneOrdered(Requires(), fails, Now(), unit.ptr, ptrs);
      if unit.inited {
        return None;
      }
      var onPath := Contains(ptrs, unit.ptr);
      if onPath {
        return Some(Circular);
      }
      PathGrows(Requires(), unit.ptr, ptrs);
      ghost var path := ptrs + [unit.ptr];
      ghost var goal := InitAll(Requires(), fails, Now(), unit.deps, path);
      InitAllOrdered(Requires(), fails, Now(), unit.deps, path);
      var k := 0;
      while k < |unit.deps|
        invariant 0 <= k <= |unit.deps| && Valid()
        invariant goal == InitAll(Requires(), fails, Now(), unit.deps[k..], path)
        invariant forall j :: 0 <= j < |path| ==> path[j] !in order
      {
        assert unit.deps[k..][1..] == unit.deps[k + 1..];
        assert Requires()[unit.ptr][k] in Requires();
        InitOneOrdered(Requires(), fails, Now(), unit.deps[k], path);
        err := InitUnitOnPath(initFuncs[unit.deps[k]], ptrs + [unit.ptr]);
        if err.Some? {
          return err;
        }
        k := k + 1;
      }
      ran := ran + [unit.ptr];
      if unit.ptr in fails {
        return Some(InitFailed(unit.ptr));
      }
      assert path[|ptrs|] == unit.ptr;
      unit.inited := true;
      order := order + [unit.ptr];
      return None;
    }

    /** Runs every declared unit. */
    method Init(units: seq<InitUnit>) returns (err: Option<Failure>)
      requires Valid() && forall i :: 0 <= i < |units| ==>
          units[i].ptr in initFuncs && initFuncs[units[i].ptr] == units[i]
      modifies this, initFuncs.Values
      ensures Valid()
      ensures (Now(), err) ==
          InitAll(Requires(), fails, old(Now()), seq(|units|, i requires 0 <= i < |units| => units[i].ptr), [])
    {
      ghost var ptrs := seq(|units|, i requires 0 <= i < |units| => units[i].ptr);
      ghost var goal := InitAll(Requires(), fails, Now(), ptrs, []);
      var k := 0;
      while k < |units|
        invariant 0 <= k <= |units| && Valid()
        invariant goal == InitAll(Requires(), fails, Now(), ptrs[k..], [])
      {
        assert ptrs[k..][1..] == ptrs[k + 1..];
        err := InitUnitOnPath(units[k], []);
        if err.Some? {
          return err;
        }
        k := k + 1;
      }
      return None;
    }
  }

  /** The search of the path for the unit itself. */
  method Contains(ptrs: seq<nat>, ptr: nat) returns (found: bool)
    ensures found <==> ptr in ptrs
  {
    var i := 0;
    while i < |ptrs|
      invariant 0 <= i <= |ptrs|
      invariant ptr !in ptrs[..i]
    {
      if ptr == ptrs[i] {
        return true;
      }
      i := i + 1;
    }
    return false;
  }
}
