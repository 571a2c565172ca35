/**
 Two runs behind the conditions of the guarantees: a version that restarts lets a swap win against a record
 it never read, and a lock update answered with an error lets a Delete take a record it never locked.
 */
module ABA {
  import opened Types
  import opened Codecs
  import opened Etcd
  import opened FixedIPOps
  import opened Protocol
  import opened Ownership
  import opened History
  import opened Incarnations
  import opened Guarantees
  import opened RetireLock

  function A(): IP { IP("pool", "10.10.10.10") }

  function X(): Container { Container("x", "host-1") }

  function Y(): Container { Container("y", "host-2") }

  function Z(): Container { Container("z", "host-2") }

  function K(): string { IPKey(A().poolID, A().address) }

  /** The calls a client makes when nothing fails. */
  function Acts(c: nat, n: nat): seq<Event> {
    if n == 0 then [] else Acts(c, n - 1) + [Act(c, false, None)]
  }

  function Does(c: nat, op: Op, n: nat): seq<Event> {
    [Begin(c, op)] + Acts(c, n)
  }

  lemma {:induction false} ActsRun(s: State, c: nat, n: nat)
    ensures n > 0 ==> Run(s, Acts(c, n)) == Next(Run(s, Acts(c, n - 1)), Act(c, false, None))
    ensures |Acts(c, n)| == n && ValidEvents(Acts(c, n))
    decreases n
  {
    hide Next;
    if n > 0 {
      ActsRun(s, c, n - 1);
      assert Acts(c, n)[..n - 1] == Acts(c, n - 1);
    }
  }

  function After(s: State, c: nat, op: Op): State {
    Next(s, Begin(c, op))
  }

  function Acted(s: State, c: nat): State {
    Next(s, Act(c, false, None))
  }

  lemma DoesRun(s: State, c: nat, op: Op, n: nat)
    requires op.AllocFromPools? || op.ip == A()
    ensures ValidEvents(Does(c, op, n))
    ensures Run(s, Does(c, op, n)) == Run(After(s, c, op), Acts(c, n))
  {
    hide Next, Ambiguous;
    SlashFreeUnambiguous(A().poolID, A().address);
    ActsRun(s, c, n);
    assert [Begin(c, op)][..0] == [];
    assert Run(s, [Begin(c, op)]) == Next(Run(s, []), Begin(c, op));
    RunConcat(s, [Begin(c, op)], Acts(c, n));
  }

  ghost predicate Others(s: State, s': State, c: nat) {
    forall d :: d != c ==> (d in s.clients <==> d in s'.clients) && (d in s.clients ==> s'.clients[d] == s.clients[d])
  }

  /** Client c is in this local state of this operation. */
  predicate At(s: State, c: nat, op: Op, local: Local) {
    c in s.clients && s.clients[c].op == op && s.clients[c].local == local
  }

  predicate Idle(s: State, c: nat) {
    c in s.clients ==> s.clients[c].local.Done?
  }

  /** The address has no record and is free. */
  predicate Vacant(s: State) {
    K() !in s.world.kv && K() !in s.live && A().address !in s.world.taken
  }

  /** The address has this record, in incarnation i with these commits. */
  predicate Has(s: State, info: IPInfo, version: nat, i: nat, commits: seq<Commit>) {
    && K() in s.world.kv && s.world.kv[K()] == Entry(info, version)
    && K() in s.live && s.live[K()] == i < |s.incs| && s.incs[i].commits == commits
    && IPOf(info) == A() && A().address in s.world.taken
  }

  lemma Begins(s: State, c: nat, op: Op)
    requires Idle(s, c)
    ensures At(After(s, c, op), c, op, Start(op)) && Others(s, After(s, c, op), c)
    ensures After(s, c, op) == s.(clients := After(s, c, op).clients)
  {
  }

  lemma OthersChain(a: State, b: State, d: State, c: nat)
    requires Others(a, b, c) && Others(b, d, c)
    ensures Others(a, d, c)
  {
  }

  function Acted3(s: State, c: nat): State {
    Acted(Acted(Acted(s, c), c), c)
  }

  lemma ActsRun3(s: State, c: nat)
    ensures Run(s, Acts(c, 1)) == Acted(s, c) && Run(s, Acts(c, 2)) == Acted(Acted(s, c), c)
    ensures Run(s, Acts(c, 3)) == Acted3(s, c)
    ensures Run(s, Acts(c, 4)) == Acted(Acted3(s, c), c)
  {
    hide Next;
    ActsRun(s, c, 1);
    ActsRun(s, c, 2);
    ActsRun(s, c, 3);
    ActsRun(s, c, 4);
  }

  lemma AllocGets(s: State, c: nat)
    requires Vacant(s) && At(s, c, Alloc(A()), Getting(0))
    ensures At(Acted(s, c), c, Alloc(A()), Allocating) && Others(s, Acted(s, c), c)
    ensures Acted(s, c) == s.(clients := Acted(s, c).clients)
  {
  }

  lemma AllocTakes(s: State, c: nat)
    requires Vacant(s) && At(s, c, Alloc(A()), Allocating)
    ensures At(Acted(s, c), c, Alloc(A()), Putting(A())) && Others(s, Acted(s, c), c)
    ensures Acted(s, c).world == World(s.world.kv, s.world.taken + {A().address})
    ensures Acted(s, c).incs == s.incs && Acted(s, c).live == s.live
  {
  }

  lemma AllocPuts(s: State, c: nat)
    requires K() !in s.world.kv && A().address in s.world.taken && At(s, c, Alloc(A()), Putting(A()))
    ensures Idle(Acted(s, c), c) && Others(s, Acted(s, c), c)
    ensures Has(Acted(s, c), FreshInfo(A()), 1, |s.incs|, [])
    ensures Acted(s, c).incs == s.incs + [Incarnation(K(), FreshInfo(A()), [], [])]
  {
  }

  lemma AllocRuns(s: State, c: nat)
    requires Vacant(s) && Idle(s, c)
    ensures var s' := Run(s, Does(c, Alloc(A()), 3));
      && Has(s', FreshInfo(A()), 1, |s.incs|, []) && Idle(s', c) && Others(s, s', c)
      && s'.incs == s.incs + [Incarnation(K(), FreshInfo(A()), [], [])]
  {
    hide Next, Run, Others;
    var op := Alloc(A());
    DoesRun(s, c, op, 3);
    var s0 := After(s, c, op);
    Begins(s, c, op);
    ActsRun3(s0, c);
    var s1 := Acted(s0, c);
    AllocGets(s0, c);
    OthersChain(s, s0, s1, c);
    var s2 := Acted(s1, c);
    AllocTakes(s1, c);
    OthersChain(s, s1, s2, c);
    AllocPuts(s2, c);
    OthersChain(s, s2, Acted(s2, c), c);
  }

  lemma BorrowReads(s: State, c: nat, d: Container, info: IPInfo, version: nat, i: nat, commits: seq<Commit>)
    requires Has(s, info, version, i, commits) && At(s, c, Borrow(A(), d), Getting(0))
    ensures At(Acted(s, c), c, Borrow(A(), d), Swapping(0, info, version)) && Acted(s, c).clients[c].readInc == i
    ensures Others(s, Acted(s, c), c)
    ensures Acted(s, c) == s.(clients := Acted(s, c).clients)
  {
  }

  lemma BorrowGets(s: State, c: nat, d: Container, info: IPInfo, version: nat, i: nat, commits: seq<Commit>)
    requires Has(s, info, version, i, commits) && Idle(s, c)
    ensures var s' := Run(s, Does(c, Borrow(A(), d), 1));
      && At(s', c, Borrow(A(), d), Swapping(0, info, version)) && s'.clients[c].readInc == i
      && Others(s, s', c)
      && s'.world == s.world && s'.incs == s.incs && s'.live == s.live
  {
    hide Next, Run;
    var op := Borrow(A(), d);
    DoesRun(s, c, op, 1);
    Begins(s, c, op);
    BorrowReads(After(s, c, op), c, d, info, version, i, commits);
    ActsRun3(After(s, c, op), c);
  }

  lemma SwapWins(s: State, c: nat, op: Op, read: IPInfo, info: IPInfo, version: nat, i: nat, commits: seq<Commit>)
    requires Has(s, info, version, i, commits) && version >= 1
    requires At(s, c, op, Swapping(0, read, version)) && IPOf(read) == A() && (op.Borrow? || op.Assign? || op.Unalloc?)
    ensures var s' := Acted(s, c);
      && Has(s', Modify(op, read), version + 1, i, commits + [Commit(c, op, s.clients[c].readInc, read)])
      && Others(s, s', c) && |s'.incs| == |s.incs|
      && (!op.Unalloc? ==> At(s', c, op, Done(Success())))
      && (op.Unalloc? ==> At(s', c, op, Deleting(Modify(op, read))))
      && s'.world.taken == s.world.taken
  {
  }

  lemma BorrowRuns(s: State, c: nat, d: Container, info: IPInfo, version: nat, i: nat, commits: seq<Commit>)
    requires Has(s, info, version, i, commits) && Idle(s, c) && version >= 1
    ensures var s' := Run(s, Does(c, Borrow(A(), d), 2));
      && Has(s', Modify(Borrow(A(), d), info), version + 1, i, commits + [Commit(c, Borrow(A(), d), i, info)])
      && Idle(s', c) && Others(s, s', c) && |s'.incs| == |s.incs|
  {
    hide Next, Run;
    var op := Borrow(A(), d);
    BorrowGets(s, c, d, info, version, i, commits);
    DoesRun(s, c, op, 1);
    DoesRun(s, c, op, 2);
    ActsRun3(After(s, c, op), c);
    SwapWins(Run(s, Does(c, op, 1)), c, op, info, info, version, i, commits);
  }

  /** An Unalloc goes on to lock this record. */
  predicate Unused(info: IPInfo, force: bool) {
    info.status == {} && (force || info.Borrowers() == [])
  }

  lemma UnallocGets(s: State, c: nat, force: bool, info: IPInfo, version: nat, i: nat, commits: seq<Commit>)
    requires Has(s, info, version, i, commits) && Unused(info, force) && At(s, c, Unalloc(A(), force), Getting(0))
    ensures At(Acted(s, c), c, Unalloc(A(), force), Swapping(0, info, version)) && Others(s, Acted(s, c), c)
    ensures Acted(s, c) == s.(clients := Acted(s, c).clients)
  {
  }

  lemma UnallocDeletes(s: State, c: nat, force: bool, info: IPInfo)
    requires K() in s.world.kv && IPOf(info) == A() && At(s, c, Unalloc(A(), force), Deleting(info))
    ensures var s' := Acted(s, c);
      At(s', c, Unalloc(A(), force), Freeing(A(), Success())) && Others(s, s', c)
      && s'.world == World(Dropped(s.world.kv, K()), s.world.taken) && K() !in s'.live && s'.incs == s.incs
  {
  }

  lemma UnallocFrees(s: State, c: nat, force: bool)
    requires K() !in s.world.kv && K() !in s.live && At(s, c, Unalloc(A(), force), Freeing(A(), Success()))
    ensures var s' := Acted(s, c);
      Vacant(s') && At(s', c, Unalloc(A(), force), Done(Success())) && Others(s, s', c) && s'.incs == s.incs
  {
  }

  lemma UnallocRuns(s: State, c: nat, force: bool, info: IPInfo, version: nat, i: nat, commits: seq<Commit>)
    requires Has(s, info, version, i, commits) && Idle(s, c) && version >= 1 && Unused(info, force)
    ensures var s' := Run(s, Does(c, Unalloc(A(), force), 4));
      Vacant(s') && Idle(s', c) && Others(s, s', c) && |s'.incs| == |s.incs|
  {
    hide Next, Run, Others;
    var op := Unalloc(A(), force);
    DoesRun(s, c, op, 4);
    var s0 := After(s, c, op);
    Begins(s, c, op);
    ActsRun3(s0, c);
    var s1 := Acted(s0, c);
    UnallocGets(s0, c, force, info, version, i, commits);
    OthersChain(s, s0, s1, c);
    var s2 := Acted(s1, c);
    SwapWins(s1, c, op, info, info, version, i, commits);
    OthersChain(s, s1, s2, c);
    var s3 := Acted(s2, c);
    UnallocDeletes(s2, c, force, Modify(op, info));
    OthersChain(s, s2, s3, c);
    UnallocFrees(s3, c, force);
    OthersChain(s, s3, Acted(s3, c), c);
  }

  function Prelude(): seq<Event> {
    Does(0, Alloc(A()), 3) + Does(0, Borrow(A(), Y()), 2) + Does(1, Borrow(A(), X()), 1)
  }

  function Rebirth(): seq<Event> {
    Does(0, Unalloc(A(), true), 4) + Does(0, Alloc(A()), 3) + Does(0, Borrow(A(), Z()), 2)
  }

  /** Client 1 reads version 2 of the first record; the second record reaches version 2 with another borrower. */
  lemma SecondLife()
    ensures var s := Run(Run(Initial({}), Prelude()), Rebirth());
      var old1 := Modify(Borrow(A(), Y()), FreshInfo(A()));
      && Has(s, Modify(Borrow(A(), Z()), FreshInfo(A())), 2, 1, [Commit(0, Borrow(A(), Z()), 1, FreshInfo(A()))])
      && At(s, 1, Borrow(A(), X()), Swapping(0, old1, 2)) && s.clients[1].readInc == 0
  {
    hide Next;
    var s0 := Initial({});
    var y, z, x := Borrow(A(), Y()), Borrow(A(), Z()), Borrow(A(), X());
    var blank := FreshInfo(A());
    AllocRuns(s0, 0);
    var s1 := Run(s0, Does(0, Alloc(A()), 3));
    BorrowRuns(s1, 0, Y(), blank, 1, 0, []);
    var s2 := Run(s1, Does(0, y, 2));
    assert [] + [Commit(0, y, 0, blank)] == [Commit(0, y, 0, blank)];
    BorrowGets(s2, 1, X(), Modify(y, blank), 2, 0, [Commit(0, y, 0, blank)]);
    var s3 := Run(s2, Does(1, x, 1));
    RunConcat(s0, Does(0, Alloc(A()), 3), Does(0, y, 2));
    RunConcat(s0, Does(0, Alloc(A()), 3) + Does(0, y, 2), Does(1, x, 1));
    UnallocRuns(s3, 0, true, Modify(y, blank), 2, 0, [Commit(0, y, 0, blank)]);
    var s4 := Run(s3, Does(0, Unalloc(A(), true), 4));
    AllocRuns(s4, 0);
    var s5 := Run(s4, Does(0, Alloc(A()), 3));
    BorrowRuns(s5, 0, Z(), blank, 1, 1, []);
    assert [] + [Commit(0, z, 1, blank)] == [Commit(0, z, 1, blank)];
    RunConcat(s3, Does(0, Unalloc(A(), true), 4), Does(0, Alloc(A()), 3));
    RunConcat(s3, Does(0, Unalloc(A(), true), 4) + Does(0, Alloc(A()), 3), Does(0, z, 2));
  }

  lemma EventsValid()
    ensures ValidEvents(Prelude()) && ValidEvents(Rebirth())
  {
    hide Next, Run;
    var init := Initial({});
    DoesRun(init, 0, Alloc(A()), 3);
    DoesRun(init, 0, Borrow(A(), Y()), 2);
    DoesRun(init, 1, Borrow(A(), X()), 1);
    DoesRun(init, 0, Unalloc(A(), true), 4);
    DoesRun(init, 0, Borrow(A(), Z()), 2);
  }

  lemma RunReachable(a: seq<Event>, b: seq<Event>)
    requires ValidEvents(a) && ValidEvents(b)
    ensures ValidEvents(a + b) && Reachable(Run(Initial({}), a + b))
  {
    hide Run, ValidEvent;
  }

  /** What has then been committed to the second record; client 1 had read the first. */
  function BothBorrows(): seq<Commit> {
    [Commit(0, Borrow(A(), Z()), 1, FreshInfo(A())), Commit(1, Borrow(A(), X()), 0, BorrowedByY())]
  }

  lemma StaleSwapWins(s: State)
    requires var old1 := Modify(Borrow(A(), Y()), FreshInfo(A()));
      && Has(s, Modify(Borrow(A(), Z()), FreshInfo(A())), 2, 1, [Commit(0, Borrow(A(), Z()), 1, FreshInfo(A()))])
      && At(s, 1, Borrow(A(), X()), Swapping(0, old1, 2)) && s.clients[1].readInc == 0
    ensures var s' := Acted(s, 1);
      && K() in s'.world.kv && s'.world.kv[K()].value.Borrowers() == [Y(), X()]
      && K() in s'.live && s'.live[K()] == 1 < |s'.incs|
      && s'.incs[1].commits == BothBorrows()
  {
    var read := Modify(Borrow(A(), Y()), FreshInfo(A()));
    var there := Modify(Borrow(A(), Z()), FreshInfo(A()));
    SwapWins(s, 1, Borrow(A(), X()), read, there, 2, 1, [Commit(0, Borrow(A(), Z()), 1, FreshInfo(A()))]);
  }

  /**
   An update with a Delete in its window: Z's borrow commits to the second record and is never returned, yet
   client 1's swap, whose version matches by restart, erases Z and brings back Y.
   */
  lemma LostUpdate()
    ensures var events := Prelude() + Rebirth() + [Act(1, false, None)];
      var s := Run(Initial({}), events);
      && ValidEvents(events)
      && K() in s.world.kv && K() in s.live && s.live[K()] == 1 < |s.incs| && !Clean(s.incs, 1) && !Undisturbed(s, 1)
      && LastIsBorrow(s.incs[1].commits, Z()) && Z() !in s.world.kv[K()].value.Borrowers()
      && !LastIsBorrow(s.incs[1].commits, Y()) && Y() in s.world.kv[K()].value.Borrowers()
  {
    hide Next, UndisturbedIn, Prelude, Rebirth;
    var before := Prelude() + Rebirth();
    EventsValid();
    SecondLife();
    RunConcat(Initial({}), Prelude(), Rebirth());
    RunConcat(Initial({}), before, [Act(1, false, None)]);
    var s := Run(Initial({}), before);
    StaleSwapWins(s);
    assert [Act(1, false, None)][..0] == [];
    assert Run(s, [Act(1, false, None)]) == Next(Run(s, []), Act(1, false, None));
    var commits := BothBorrows();
    assert commits[0].op == Borrow(A(), Z()) && commits[1].readInc == 0;
    assert Z() != X() && Z() != Y() && Y() != X();
    assert ValidEvents([Act(1, false, None)]);
    RunReachable(before, [Act(1, false, None)]);
    CleanIffUndisturbed(Run(Initial({}), before + [Act(1, false, None)]), 1, 0, 2);
  }

  // ----- the retire lock

  lemma UnallocReads(s: State, c: nat, force: bool, info: IPInfo, version: nat, i: nat, commits: seq<Commit>)
    requires Has(s, info, version, i, commits) && Unused(info, force) && Idle(s, c)
    ensures var s' := Run(s, Does(c, Unalloc(A(), force), 1));
      && At(s', c, Unalloc(A(), force), Swapping(0, info, version)) && Others(s, s', c)
      && s'.world == s.world && s'.incs == s.incs && s'.live == s.live
  {
    hide Next, Run;
    var op := Unalloc(A(), force);
    DoesRun(s, c, op, 1);
    Begins(s, c, op);
    UnallocGets(After(s, c, op), c, force, info, version, i, commits);
    ActsRun3(After(s, c, op), c);
  }

  lemma AssignReads(s: State, c: nat, info: IPInfo, version: nat, i: nat, commits: seq<Commit>)
    requires Has(s, info, version, i, commits) && info.status == {} && At(s, c, Assign(A()), Getting(0))
    ensures At(Acted(s, c), c, Assign(A()), Swapping(0, info, version)) && Acted(s, c).clients[c].readInc == i
    ensures Others(s, Acted(s, c), c)
    ensures Acted(s, c) == s.(clients := Acted(s, c).clients)
  {
  }

  lemma AssignGets(s: State, c: nat, info: IPInfo, version: nat, i: nat, commits: seq<Commit>)
    requires Has(s, info, version, i, commits) && Idle(s, c) && info.status == {}
    ensures var s' := Run(s, Does(c, Assign(A()), 1));
      && At(s', c, Assign(A()), Swapping(0, info, version)) && s'.clients[c].readInc == i && Others(s, s', c)
      && s'.world == s.world && s'.incs == s.incs && s'.live == s.live
  {
    hide Next, Run;
    var op := Assign(A());
    DoesRun(s, c, op, 1);
    Begins(s, c, op);
    AssignReads(After(s, c, op), c, info, version, i, commits);
    ActsRun3(After(s, c, op), c);
  }

  lemma AssignRuns(s: State, c: nat, info: IPInfo, version: nat, i: nat, commits: seq<Commit>)
    requires Has(s, info, version, i, commits) && Idle(s, c) && version >= 1 && info.status == {}
    ensures var s' := Run(s, Does(c, Assign(A()), 2));
      && Has(s', Modify(Assign(A()), info), version + 1, i, commits + [Commit(c, Assign(A()), i, info)])
      && At(s', c, Assign(A()), Done(Success())) && Others(s, s', c)
  {
    hide Next, Run;
    var op := Assign(A());
    DoesRun(s, c, op, 2);
    Begins(s, c, op);
    AssignReads(After(s, c, op), c, info, version, i, commits);
    ActsRun3(After(s, c, op), c);
    SwapWins(Acted(After(s, c, op), c), c, op, info, info, version, i, commits);
  }

  /**
   A lock update of a record that is gone: the version is not 0, so nothing is written, and Unalloc goes on to
   Delete.
   */
  lemma LockErrs(s: State, c: nat, force: bool, read: IPInfo, version: nat)
    requires Vacant(s) && version >= 1 && IPOf(read) == A()
    requires At(s, c, Unalloc(A(), force), Swapping(0, read, version))
    ensures var s' := Acted(s, c);
      && At(s', c, Unalloc(A(), force), Deleting(Modify(Unalloc(A(), force), read))) && Others(s, s', c)
      && s'.world == s.world && s'.incs == s.incs && s'.live == s.live
  {
  }

  /** Client 1 has read the first record when client 0 removes it; its lock update then finds no record. */
  function Overtaken(): seq<Event> {
    Does(0, Alloc(A()), 3) + Does(1, Unalloc(A(), false), 1) + Does(0, Unalloc(A(), false), 4) + Acts(1, 1)
  }

  function Reassigned(): seq<Event> {
    Does(0, Alloc(A()), 3) + Does(0, Assign(A()), 2)
  }

  function Third(): State {
    Run(Run(Run(Initial({}), Does(0, Alloc(A()), 3)), Does(1, Unalloc(A(), false), 1)), Does(0, Unalloc(A(), false), 4))
  }

  lemma OvertakenParts()
    ensures Run(Initial({}), Overtaken()) == Acted(Third(), 1)
    ensures ValidEvents(Overtaken()) && ValidEvents(Reassigned()) && ValidEvents(Acts(1, 2))
  {
    hide Next, Run;
    var init := Initial({});
    DoesRun(init, 0, Alloc(A()), 3);
    DoesRun(init, 1, Unalloc(A(), false), 1);
    DoesRun(init, 0, Unalloc(A(), false), 4);
    DoesRun(init, 0, Assign(A()), 2);
    ActsRun(init, 1, 1);
    ActsRun(init, 1, 2);
    RunConcat(init, Does(0, Alloc(A()), 3), Does(1, Unalloc(A(), false), 1));
    RunConcat(init, Does(0, Alloc(A()), 3) + Does(1, Unalloc(A(), false), 1), Does(0, Unalloc(A(), false), 4));
    RunConcat(init, Does(0, Alloc(A()), 3) + Does(1, Unalloc(A(), false), 1) + Does(0, Unalloc(A(), false), 4),
              Acts(1, 1));
    ActsRun3(Third(), 1);
  }

  lemma Overtakes()
    ensures var s := Run(Initial({}), Overtaken());
      && Vacant(s) && |s.incs| == 1 && Idle(s, 0)
      && At(s, 1, Unalloc(A(), false), Deleting(Modify(Unalloc(A(), false), FreshInfo(A()))))
  {
    hide Next, Run;
    OvertakenParts();
    var s0, blank := Initial({}), FreshInfo(A());
    AllocRuns(s0, 0);
    var s1 := Run(s0, Does(0, Alloc(A()), 3));
    UnallocReads(s1, 1, false, blank, 1, 0, []);
    var s2 := Run(s1, Does(1, Unalloc(A(), false), 1));
    UnallocRuns(s2, 0, false, blank, 1, 0, []);
    LockErrs(Third(), 1, false, blank, 1);
  }

  lemma Reassigns()
    ensures var s := Run(Run(Initial({}), Overtaken()), Reassigned());
      && Has(s, Modify(Assign(A()), FreshInfo(A())), 2, 1, [Commit(0, Assign(A()), 1, FreshInfo(A()))])
      && At(s, 1, Unalloc(A(), false), Deleting(Modify(Unalloc(A(), false), FreshInfo(A()))))
  {
    hide Next, Run;
    Overtakes();
    var s3 := Run(Initial({}), Overtaken());
    AllocRuns(s3, 0);
    var s4 := Run(s3, Does(0, Alloc(A()), 3));
    AssignRuns(s4, 0, FreshInfo(A()), 1, 1, []);
    assert [] + [Commit(0, Assign(A()), 1, FreshInfo(A()))] == [Commit(0, Assign(A()), 1, FreshInfo(A()))];
    RunConcat(s3, Does(0, Alloc(A()), 3), Does(0, Assign(A()), 2));
  }

  /**
   No call fails, no update is disturbed and nobody unassigns; and yet client 1, whose lock update was answered with an
   error, deletes the record client 0 is holding, frees its address, and reports success.
   */
  lemma DeletesAHeldRecord()
    ensures var s := Run(Initial({}), Overtaken() + Reassigned());
      && ValidEvents(Overtaken() + Reassigned())
      && K() in s.world.kv && InUse in s.world.kv[K()].value.status
      && K() in s.live && s.live[K()] == 1 < |s.incs| && Undisturbed(s, 1) && Holds(s.incs[1].commits, 0)
      && AboutToDelete(s, 1, K()) && !LockLives(s, 1, K())
      && var s' := Run(s, Acts(1, 2));
      && K() !in s'.world.kv && A().address !in s'.world.taken
      && At(s', 1, Unalloc(A(), false), Done(Success()))
  {
    hide Next, Run, UndisturbedIn, Overtaken, Reassigned, ValidEvent;
    Reassigns();
    OvertakenParts();
    RunConcat(Initial({}), Overtaken(), Reassigned());
    var s := Run(Initial({}), Overtaken() + Reassigned());
    assert s.incs[1].commits == [Commit(0, Assign(A()), 1, FreshInfo(A()))];
    RunReachable(Overtaken(), Reassigned());
    CleanIffUndisturbed(s, 1, 0, 1);
    HeldByAssigner();
    ReachableTracked(s);
    assert LockTracked(s, 1);
    UnallocDeletes(s, 1, false, Modify(Unalloc(A(), false), FreshInfo(A())));
    UnallocFrees(Acted(s, 1), 1, false);
    ActsRun3(s, 1);
  }

  lemma HeldByAssigner()
    ensures Holds([Commit(0, Assign(A()), 1, FreshInfo(A()))], 0)
  {
  }

  // ----- mutual exclusion

  function BorrowedByY(): IPInfo {
    Modify(Borrow(A(), Y()), FreshInfo(A()))
  }

  /** Client 1 reads an unused record at version 2; client 0 replaces it by another that it assigns at version 2. */
  function AssignPrelude(): seq<Event> {
    Does(0, Alloc(A()), 3) + Does(0, Borrow(A(), Y()), 2) + Does(1, Assign(A()), 1)
  }

  function AssignRebirth(): seq<Event> {
    Does(0, Unalloc(A(), true), 4) + Does(0, Alloc(A()), 3) + Does(0, Assign(A()), 2)
  }

  lemma AssignPreludeRuns()
    ensures ValidEvents(AssignPrelude())
    ensures var s := Run(Initial({}), AssignPrelude());
      && Has(s, BorrowedByY(), 2, 0, [Commit(0, Borrow(A(), Y()), 0, FreshInfo(A()))]) && Idle(s, 0) && |s.incs| == 1
      && At(s, 1, Assign(A()), Swapping(0, BorrowedByY(), 2)) && s.clients[1].readInc == 0
  {
    hide Next, Run;
    var s0, y, blank := Initial({}), Borrow(A(), Y()), FreshInfo(A());
    DoesRun(s0, 0, Alloc(A()), 3);
    DoesRun(s0, 0, y, 2);
    DoesRun(s0, 1, Assign(A()), 1);
    AllocRuns(s0, 0);
    var s1 := Run(s0, Does(0, Alloc(A()), 3));
    BorrowRuns(s1, 0, Y(), blank, 1, 0, []);
    var s2 := Run(s1, Does(0, y, 2));
    assert [] + [Commit(0, y, 0, blank)] == [Commit(0, y, 0, blank)];
    AssignGets(s2, 1, BorrowedByY(), 2, 0, [Commit(0, y, 0, blank)]);
    RunConcat(s0, Does(0, Alloc(A()), 3), Does(0, y, 2));
    RunConcat(s0, Does(0, Alloc(A()), 3) + Does(0, y, 2), Does(1, Assign(A()), 1));
  }

  lemma AssignRebirthRuns()
    ensures ValidEvents(AssignRebirth())
    ensures var s := Run(Run(Initial({}), AssignPrelude()), AssignRebirth());
      && Has(s, Modify(Assign(A()), FreshInfo(A())), 2, 1, [Commit(0, Assign(A()), 1, FreshInfo(A()))])
      && At(s, 0, Assign(A()), Done(Success()))
      && At(s, 1, Assign(A()), Swapping(0, BorrowedByY(), 2)) && s.clients[1].readInc == 0
  {
    hide Next, Run;
    AssignPreludeRuns();
    var s3, blank := Run(Initial({}), AssignPrelude()), FreshInfo(A());
    DoesRun(s3, 0, Unalloc(A(), true), 4);
    DoesRun(s3, 0, Alloc(A()), 3);
    DoesRun(s3, 0, Assign(A()), 2);
    UnallocRuns(s3, 0, true, BorrowedByY(), 2, 0, [Commit(0, Borrow(A(), Y()), 0, blank)]);
    var s4 := Run(s3, Does(0, Unalloc(A(), true), 4));
    AllocRuns(s4, 0);
    var s5 := Run(s4, Does(0, Alloc(A()), 3));
    AssignRuns(s5, 0, blank, 1, 1, []);
    assert [] + [Commit(0, Assign(A()), 1, blank)] == [Commit(0, Assign(A()), 1, blank)];
    RunConcat(s3, Does(0, Unalloc(A(), true), 4), Does(0, Alloc(A()), 3));
    RunConcat(s3, Does(0, Unalloc(A(), true), 4) + Does(0, Alloc(A()), 3), Does(0, Assign(A()), 2));
  }

  /** Without a failed call two clients hold one record: both Assigns have committed to it, and no Unassign. */
  lemma TwoAssigns()
    ensures var events := AssignPrelude() + AssignRebirth() + [Act(1, false, None)];
      var s := Run(Initial({}), events);
      && ValidEvents(events)
      && K() in s.world.kv && K() in s.live && s.live[K()] == 1 < |s.incs|
      && s.incs[1].commits == [
           Commit(0, Assign(A()), 1, FreshInfo(A())),
           Commit(1, Assign(A()), 0, BorrowedByY())]
      && At(s, 0, Assign(A()), Done(Success())) && At(s, 1, Assign(A()), Done(Success()))
  {
    hide Next, Run, AssignPrelude, AssignRebirth;
    var before := AssignPrelude() + AssignRebirth();
    AssignPreludeRuns();
    AssignRebirthRuns();
    RunConcat(Initial({}), AssignPrelude(), AssignRebirth());
    RunConcat(Initial({}), before, [Act(1, false, None)]);
    var s := Run(Initial({}), before);
    ActsRun3(s, 1);
    OneAct();
    SwapWins(s, 1, Assign(A()), BorrowedByY(), Modify(Assign(A()), FreshInfo(A())), 2, 1,
             [Commit(0, Assign(A()), 1, FreshInfo(A()))]);
  }

  lemma OneAct()
    ensures Acts(1, 1) == [Act(1, false, None)] && ValidEvents(Acts(1, 1))
  {
  }
}
