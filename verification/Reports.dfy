/**
 What the operations report to their callers, over every run: each report is the one its own calls and their answers
 call for, and success is reported for exactly what the operation has itself committed.
 */
module Reports {
  import opened Types
  import opened Codecs
  import opened Etcd
  import opened FixedIPOps
  import opened Protocol
  import opened Ownership
  import opened History
  import opened Incarnations
  import opened Guarantees
  import opened Stories

  ghost predicate Accounted(client: Client) {
    Told(client.op, client.local, client.calls) && AllFit(client.calls)
  }

  lemma NextKeepsAccount(s: State, e: Event, c: nat)
    requires c in s.clients ==> Accounted(s.clients[c])
    requires c in Next(s, e).clients
    ensures Accounted(Next(s, e).clients[c])
  {
    hide Told, Fits, Next, Recorded, Noted, Exec;
    match e
    case Begin(d, op) =>
      StartTold(op);
      BeginShape(s, d, op, c);
    case Act(d, fails, offer) =>
      if CanAct(s, d) {
        ActShape(s, d, fails, offer);
        if c == d {
          var exchange := Exchange(NextCall(s, c), Answered(s, c, fails, offer));
          ExecFits(s.world, NextCall(s, c), fails, offer);
          StepTold(s.clients[c].op, s.clients[c].local, s.clients[c].calls, exchange);
        }
      } else {
        NoAct(s, e);
      }
  }

  lemma BeginShape(s: State, d: nat, op: Op, c: nat)
    ensures var s' := Next(s, Begin(d, op));
      && s' == s.(clients := s'.clients)
      && (c in s'.clients ==>
          || (c in s.clients && s'.clients[c] == s.clients[c])
          || s'.clients[c] == Client(op, Start(op), 0, 0, None, [], []))
  {
  }

  lemma NoAct(s: State, e: Event)
    requires e.Act? && !CanAct(s, e.client)
    ensures Next(s, e) == s
  {
  }

  // ----- what is committed

  predicate HasSwapped(calls: seq<Exchange>) {
    exists i :: 0 <= i < |calls| && calls[i].answer == FromStore(Swapped)
  }

  /** The client's update is in the history: at its place in an incarnation of its record, and in the write log. */
  predicate LockLogged(s: State, c: nat, client: Client, lock: Lock) {
    && lock.inc < |s.incs| && lock.index < |s.incs[lock.inc].commits|
    && IsBy(s.incs[lock.inc].commits[lock.index], c, client.op, client.readInc)
    && !client.op.AllocFromPools? && s.incs[lock.inc].key == KeyOf(client.op.ip)
    && lock.at < |s.writes| && s.writes[lock.at] == Write(c, KeyOf(client.op.ip), Updated)
  }

  predicate CallLogged(s: State, c: nat, e: Exchange) {
    && (e.call.GetCall? && e.answer.FromStore? && e.answer.reply.Read? ==>
          IPInfoKey(e.answer.reply.value) == e.call.key)
    && (e.answer == FromStore(Ok) ==>
          && (e.call.PutCall? ==> Write(c, e.call.key, Created) in s.writes)
          && (e.call.DeleteCall? ==> Write(c, e.call.key, Deleted) in s.writes))
  }

  predicate Logged(s: State, c: nat)
    requires c in s.clients
  {
    var client := s.clients[c];
    && (client.lock.Some? <==> HasSwapped(client.calls))
    && (client.lock.Some? ==> LockLogged(s, c, client, client.lock.value))
    && (forall i :: 0 <= i < |client.calls| ==> CallLogged(s, c, client.calls[i]))
  }

  lemma LogStays(s: State, s': State, c: nat, d: nat, client: Client)
    requires Moves(s, s', c)
    ensures client.lock.Some? && LockLogged(s, d, client, client.lock.value) ==>
      LockLogged(s', d, client, client.lock.value)
    ensures forall e :: CallLogged(s, d, e) ==> CallLogged(s', d, e)
  {
    if !Still(s, s') {
      assert forall n :: 0 <= n < |s.writes| ==> s'.writes[n] == s.writes[n];
      if s'.writes[|s.writes|].change.Created? {
        assert forall i :: 0 <= i < |s.incs| ==> s'.incs[i] == s'.incs[..|s.incs|][i];
      }
      assert forall w :: w in s.writes ==> w in s'.writes;
    }
  }

  lemma SwappedSnoc(calls: seq<Exchange>, e: Exchange)
    ensures HasSwapped(calls + [e]) <==> HasSwapped(calls) || e.answer == FromStore(Swapped)
  {
    assert (calls + [e])[|calls|] == e;
    if HasSwapped(calls) {
      var i :| 0 <= i < |calls| && calls[i].answer == FromStore(Swapped);
      assert (calls + [e])[i] == calls[i];
    }
  }

  /** What a call other than a Get or a won swap leaves of the client's own history. */
  lemma OwnHistory(s: State, c: nat, fails: bool, offer: Option<IP>)
    requires CanAct(s, c) && forall k :: k in s.world.kv ==> IPInfoKey(s.world.kv[k].value) == k
    ensures var s' := Next(s, Act(c, fails, offer));
      var (client, client', e) := (s.clients[c], s'.clients[c], Exchange(NextCall(s, c), Answered(s, c, fails, offer)));
      && CallLogged(s', c, e)
      && (!client.local.Getting? && e.answer != FromStore(Swapped) ==>
            client'.lock == client.lock && client'.readInc == client.readInc)
      && (client.local.Getting? && client.lock == None ==> client'.lock == None)
      && (e.call.GetCall? <==> client.local.Getting?) && (e.call.SwapCall? <==> client.local.Swapping?)
  {
  }

  lemma RecordsUnderOwnKeys(s: State)
    requires Owned(s)
    ensures forall k :: k in s.world.kv ==> IPInfoKey(s.world.kv[k].value) == k
  {
    forall k | k in s.world.kv ensures IPInfoKey(s.world.kv[k].value) == k {
      assert RecordSound(s, k);
    }
  }

  lemma NoSwapYet(op: Op, local: Local, calls: seq<Exchange>)
    requires Told(op, local, calls) && (local.Getting? || local.Swapping?)
    ensures !HasSwapped(calls)
  {
    var n := local.attempt;
    forall i | 0 <= i < |calls| ensures calls[i].answer != FromStore(Swapped) {
      if i < 2 * n {
        assert LostRound(op, calls, i / 2);
      }
    }
  }

  lemma LockIsLogged(s: State, c: nat, fails: bool, offer: Option<IP>)
    requires Owned(s) && Traced(s) && CanAct(s, c) && s.clients[c].local.Swapping?
    requires Answered(s, c, fails, offer) == FromStore(Swapped)
    ensures var s' := Next(s, Act(c, fails, offer));
      var client' := s'.clients[c];
      client'.lock.Some? && LockLogged(s', c, client', client'.lock.value)
  {
    hide Next, Exec, Advance, Answered, Modify, IPKey;
    var k := IPInfoKey(s.clients[c].local.read);
    assert ClientSound(s.clients[c]);
    CommitShape(s, c, fails, offer);
    assert LiveSound(s, k);
  }

  lemma ActKeepsLog(s: State, c: nat, fails: bool, offer: Option<IP>)
    requires Owned(s) && Traced(s) && CanAct(s, c) && Accounted(s.clients[c]) && Logged(s, c)
    ensures var s' := Next(s, Act(c, fails, offer)); c in s'.clients && Logged(s', c)
  {
    hide Next, Exec, Advance, Told, LockLogged, CallLogged, Moves, Owned, Traced, HasSwapped;
    var s' := Next(s, Act(c, fails, offer));
    ActShape(s, c, fails, offer);
    var client, client' := s.clients[c], s'.clients[c];
    var e := Exchange(NextCall(s, c), Answered(s, c, fails, offer));
    ActMoves(s, c, fails, offer);
    RecordsUnderOwnKeys(s);
    OwnHistory(s, c, fails, offer);
    ExecFits(s.world, NextCall(s, c), fails, offer);
    SwappedSnoc(client.calls, e);
    LogStays(s, s', c, c, client);
    if client.local.Getting? || client.local.Swapping? {
      NoSwapYet(client.op, client.local, client.calls);
    }
    if client.local.Swapping? && e.answer == FromStore(Swapped) {
      LockIsLogged(s, c, fails, offer);
    } else if client'.lock.Some? {
      SameLock(s', c, client, client');
    }
  }

  lemma SameLock(s: State, c: nat, client: Client, client': Client)
    requires client'.op == client.op && client'.readInc == client.readInc && client'.lock == client.lock
    requires client.lock.Some? && LockLogged(s, c, client, client.lock.value)
    ensures LockLogged(s, c, client', client'.lock.value)
  {
  }

  lemma BeginKeepsLog(s: State, d: nat, op: Op, c: nat)
    requires c in s.clients ==> Logged(s, c)
    requires c in Next(s, Begin(d, op)).clients
    ensures Logged(Next(s, Begin(d, op)), c)
  {
    hide Next;
    BeginShape(s, d, op, c);
  }

  lemma NextKeepsLog(s: State, e: Event, c: nat)
    requires Owned(s) && Traced(s) && (c in s.clients ==> Accounted(s.clients[c]) && Logged(s, c))
    requires c in Next(s, e).clients
    ensures Logged(Next(s, e), c)
  {
    hide Next, LockLogged, CallLogged, Moves, Owned, Traced, Accounted;
    match e
    case Begin(d, op) => BeginKeepsLog(s, d, op, c);
    case Act(d, fails, offer) =>
      if !CanAct(s, d) {
        NoAct(s, e);
      } else if c == d {
        ActKeepsLog(s, c, fails, offer);
      } else {
        ActShape(s, d, fails, offer);
        ActMoves(s, d, fails, offer);
        LogStays(s, Next(s, e), d, c, s.clients[c]);
      }
  }

  lemma {:induction false} RunKeepsAccount(taken: set<string>, events: seq<Event>, c: nat)
    requires ValidEvents(events)
    ensures var s := Run(Initial(taken), events); c in s.clients ==> Accounted(s.clients[c]) && Logged(s, c)
    decreases |events|
  {
    hide Next, Accounted, Logged, Owned, Traced;
    if events != [] {
      var front := events[..|events| - 1];
      RunKeepsAccount(taken, front, c);
      RunKeepsTraced(taken, front);
      var s := Run(Initial(taken), front);
      if c in Next(s, events[|events| - 1]).clients {
        NextKeepsAccount(s, events[|events| - 1], c);
        NextKeepsLog(s, events[|events| - 1], c);
      }
    }
  }

  /** A finished operation in some reachable state. */
  ghost predicate Finished(s: State, c: nat) {
    Reachable(s) && c in s.clients && s.clients[c].local.Done?
  }

  /**
   Every finished operation of every run tells the story of its own calls; its swap has won iff its update is in the
   history, at its place in its record's life, and what it put or deleted is in the write log.
   */
  lemma FinishedTells(s: State, c: nat)
    requires Finished(s, c)
    ensures var client := s.clients[c];
      Story(client.op, client.calls, client.local.outcome) && AllFit(client.calls) && Logged(s, c)
  {
    hide Story, Logged, Fits, Accounted;
    var taken, events :| ValidEvents(events) && s == Run(Initial(taken), events);
    RunKeepsAccount(taken, events, c);
    AccountOfDone(s.clients[c]);
  }

  lemma AccountOfDone(client: Client)
    requires Accounted(client) && client.local.Done?
    ensures Story(client.op, client.calls, client.local.outcome) && AllFit(client.calls)
  {
  }

  // ----- what success and each error mean

  predicate HasRead(calls: seq<Exchange>, used: bool) {
    exists i :: 0 <= i < |calls| && calls[i].answer.FromStore? && calls[i].answer.reply.Read?
      && (InUse in calls[i].answer.reply.value.status) == used
  }

  predicate HasLost(calls: seq<Exchange>) {
    exists i :: 0 <= i < |calls| && calls[i].answer.FromStore? && calls[i].answer.reply.Lost?
  }

  predicate HasPut(calls: seq<Exchange>) {
    exists i :: 0 <= i < |calls| && calls[i].call.PutCall? && calls[i].answer == FromStore(Ok)
  }

  predicate HasDeleted(calls: seq<Exchange>) {
    exists i :: 0 <= i < |calls| && calls[i].call.DeleteCall? && calls[i].answer == FromStore(Ok)
  }

  predicate HasFreed(calls: seq<Exchange>, ip: IP) {
    exists i :: 0 <= i < |calls| && calls[i] == Exchange(FreeCall(ip.address), Accepted)
  }

  /** An Assign reports success iff its own swap has won, and ErrIPInUse iff it read an IP in use or lost the swap. */
  lemma AssignReports(s: State, c: nat)
    requires Finished(s, c) && s.clients[c].op.Assign?
    ensures var (client, o) := (s.clients[c], s.clients[c].local.outcome);
      && (o == Outcome(None, None) <==> client.lock.Some?)
      && (o == Outcome(Some(ErrIPInUse), None) <==> HasRead(client.calls, true) || HasLost(client.calls))
      && (client.lock.Some? ==> LockLogged(s, c, client, client.lock.value))
  {
    hide LockLogged, CallLogged;
    FinishedTells(s, c);
    var calls := s.clients[c].calls;
    assert Fits(calls[0]) && (|calls| == 2 ==> Fits(calls[1]));
  }

  /** An Unassign reports success iff its swap has won or the IP was not in use, and ErrIPInUse iff it lost the swap. */
  lemma UnassignReports(s: State, c: nat)
    requires Finished(s, c) && s.clients[c].op.Unassign?
    ensures var (client, o) := (s.clients[c], s.clients[c].local.outcome);
      && (o == Outcome(None, None) <==> client.lock.Some? || HasRead(client.calls, false))
      && (o == Outcome(Some(ErrIPInUse), None) <==> HasLost(client.calls))
      && (client.lock.Some? ==> LockLogged(s, c, client, client.lock.value))
  {
    hide LockLogged, CallLogged;
    FinishedTells(s, c);
    var calls := s.clients[c].calls;
    assert Fits(calls[0]) && (|calls| == 2 ==> Fits(calls[1]));
  }

  /** The last read found nobody to return for. */
  predicate NobodyLeft(calls: seq<Exchange>) {
    && calls != [] && calls[|calls| - 1].answer.FromStore? && calls[|calls| - 1].answer.reply.Read?
    && calls[|calls| - 1].answer.reply.value.Borrowers() == []
  }

  predicate LostThrice(calls: seq<Exchange>) {
    && |calls| == 6
    && forall i | i in {1, 3, 5} :: calls[i].answer.FromStore? && calls[i].answer.reply.Lost?
  }

  /**
   A Borrow reports success iff its swap has won, a Return also if it found no borrower at all; both report
   ErrMaxRetryCountExceeded iff they lost three swaps.
   */
  lemma RetryReports(s: State, c: nat)
    requires Finished(s, c) && (s.clients[c].op.Borrow? || s.clients[c].op.Return?)
    ensures var (client, o) := (s.clients[c], s.clients[c].local.outcome);
      && (o == Outcome(None, None) <==>
            client.lock.Some? || (client.op.Return? && NobodyLeft(client.calls)))
      && (o == Outcome(Some(ErrMaxRetryCountExceeded), None) <==> LostThrice(client.calls))
      && (client.lock.Some? ==> LockLogged(s, c, client, client.lock.value))
  {
    hide LockLogged, CallLogged, RetryStory, HasSwapped, NobodyLeft, LostThrice, AllFit;
    FinishedTells(s, c);
    var client := s.clients[c];
    var n: nat :| RetryStory(client.op, client.calls, n, client.local.outcome);
    RetryTells(client.op, client.calls, n, client.local.outcome);
  }

  lemma RetryTells(op: Op, calls: seq<Exchange>, n: nat, o: Outcome)
    requires RetryStory(op, calls, n, o) && AllFit(calls)
    ensures o == Outcome(None, None) <==> HasSwapped(calls) || (op.Return? && NobodyLeft(calls))
    ensures o == Outcome(Some(ErrMaxRetryCountExceeded), None) <==> LostThrice(calls)
  {
    hide LostRounds, Relisted;
    RoundsLost(op, calls, n);
    assert Fits(calls[2 * n]) && (|calls| > 2 * n + 1 ==> Fits(calls[2 * n + 1]));
  }

  /** In the lost rounds every Get was answered and every swap lost. */
  lemma RoundsLost(op: Op, calls: seq<Exchange>, n: nat)
    requires LostRounds(op, calls, n)
    ensures n <= 2
    ensures forall i :: 0 <= i < 2 * n ==> calls[i].answer.FromStore? && !calls[i].answer.reply.Swapped?
    ensures n > 0 ==> calls[1].answer.FromStore? && calls[1].answer.reply.Lost?
    ensures n > 1 ==> calls[3].answer.FromStore? && calls[3].answer.reply.Lost?
  {
    assert n > 0 ==> LostRound(op, calls, 0);
    assert n > 1 ==> LostRound(op, calls, 1);
  }

  /**
   An Alloc reports success iff it read a record that is not in use or its own Put has created one, and ErrIPInUse iff
   it read one in use.
   */
  lemma AllocReports(s: State, c: nat)
    requires Finished(s, c) && s.clients[c].op.Alloc?
    ensures var (client, o) := (s.clients[c], s.clients[c].local.outcome);
      && (o == Outcome(None, None) <==> HasRead(client.calls, false) || HasPut(client.calls))
      && (o == Outcome(Some(ErrIPInUse), None) <==> HasRead(client.calls, true))
      && (HasPut(client.calls) ==> Write(c, KeyOf(client.op.ip), Created) in s.writes)
  {
    hide LockLogged;
    FinishedTells(s, c);
    var calls := s.clients[c].calls;
    assert Fits(calls[0]) && (|calls| > 1 ==> Fits(calls[1])) && (|calls| > 2 ==> Fits(calls[2]));
    assert |calls| > 2 ==> CallLogged(s, c, calls[2]);
  }

  predicate HasOffer(calls: seq<Exchange>, ip: IP) {
    exists i :: 0 <= i < |calls| && calls[i] == Exchange(OfferCall(ip.poolID), Offered(ip))
  }

  /**
   An AllocFromPools reports success iff its Put has created a record, and then the very IP it recorded, which one of
   its pools has offered. An offered IP that could not be recorded is reported with the error, after its
   address was given back; without an IP every pool has refused.
   */
  lemma AllocFromPoolsReports(s: State, c: nat)
    requires Finished(s, c) && s.clients[c].op.AllocFromPools?
    ensures var (client, o) := (s.clients[c], s.clients[c].local.outcome);
      && (o.err == None <==> HasPut(client.calls))
      && (o.err == None ==> o.ip.Some? && Write(c, KeyOf(o.ip.value), Created) in s.writes)
      && (o.ip.Some? ==> HasOffer(client.calls, o.ip.value) && o.ip.value.poolID in client.op.pools)
      && (o.ip.Some? && o.err.Some? ==>
            client.calls[|client.calls| - 1].call == FreeCall(o.ip.value.address))
      && (o.ip == None <==>
            |client.calls| == |client.op.pools| && Refusals(client.op.pools, client.calls, |client.op.pools|))
  {
    hide LockLogged;
    FinishedTells(s, c);
    var client := s.clients[c];
    var pools, calls, o := client.op.pools, client.calls, client.local.outcome;
    if n: nat :| OfferStory(pools, calls, n, o) {
      assert Fits(calls[n]) && Fits(calls[n + 1]) && CallLogged(s, c, calls[n + 1]);
    }
  }

  predicate HasBorrowers(calls: seq<Exchange>) {
    exists i :: 0 <= i < |calls| && calls[i].answer.FromStore? && calls[i].answer.reply.Read?
      && InUse !in calls[i].answer.reply.value.status && calls[i].answer.reply.value.Borrowers() != []
  }

  /**
   An Unalloc reports success iff its Delete has taken the record away and its address was freed after it,
   ErrFixedIPHasBorrower iff it was not forced and read borrowers of an unused IP, and ErrIPInUse iff it read one in
   use or lost its lock.
   */
  lemma UnallocReports(s: State, c: nat)
    requires Finished(s, c) && s.clients[c].op.Unalloc?
    ensures var (client, o) := (s.clients[c], s.clients[c].local.outcome);
      && (o == Outcome(None, None) <==> HasDeleted(client.calls) && HasFreed(client.calls, client.op.ip))
      && (o == Outcome(Some(ErrIPInUse), None) <==> HasRead(client.calls, true) || HasLost(client.calls))
      && (o == Outcome(Some(ErrFixedIPHasBorrower), None) <==> !client.op.force && HasBorrowers(client.calls))
      && (HasDeleted(client.calls) ==> Write(c, KeyOf(client.op.ip), Deleted) in s.writes)
      && (HasFreed(client.calls, client.op.ip) ==> HasDeleted(client.calls))
  {
    hide LockLogged, IPKey;
    FinishedTells(s, c);
    var calls := s.clients[c].calls;
    assert Fits(calls[0]) && (|calls| > 1 ==> Fits(calls[1])) && (|calls| > 2 ==> Fits(calls[2]));
    assert |calls| > 3 ==> Fits(calls[3]);
    assert CallLogged(s, c, calls[0]) && (|calls| > 2 ==> CallLogged(s, c, calls[2]));
  }

  /**
   Two callers told that they have assigned one IP have done so one after the other: if their updates are in one life
   of its record, the later of them and those between undisturbed, an Unassign was committed between them.
   */
  lemma AssignersExclude(s: State, c: nat, d: nat)
    requires c != d && Finished(s, c) && Finished(s, d)
    requires s.clients[c].op.Assign? && s.clients[d].op == s.clients[c].op
    requires s.clients[c].local.outcome == s.clients[d].local.outcome == Outcome(None, None)
    ensures s.clients[c].lock.Some? && s.clients[d].lock.Some?
    ensures var (x, y) := (s.clients[c].lock.value, s.clients[d].lock.value);
      var (a, b) := if x.index < y.index then (x.index, y.index) else (y.index, x.index);
      && x.inc < |s.incs| && y.inc < |s.incs|
      && (x.inc == y.inc && UndisturbedIn(s, x.inc, a + 1, b + 1) ==>
            b < |s.incs[x.inc].commits| && exists n :: a < n < b && s.incs[x.inc].commits[n].op.Unassign?)
  {
    hide UndisturbedIn;
    AssignReports(s, c);
    AssignReports(s, d);
    var (x, y) := (s.clients[c].lock.value, s.clients[d].lock.value);
    var (a, b) := if x.index < y.index then (x.index, y.index) else (y.index, x.index);
    if x.inc == y.inc && UndisturbedIn(s, x.inc, a + 1, b + 1) {
      AssignsExclude(s, x.inc, a, b);
    }
  }
}
