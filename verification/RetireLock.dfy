/**
 What the retire lock protects: the Delete that follows it. When the Delete finds the record its caller
 locked, when it must, and which borrowers go with it.
 */
module RetireLock {
  import opened Types
  import opened Codecs
  import opened Etcd
  import opened FixedIPOps
  import opened Protocol
  import opened Ownership
  import opened History
  import opened Incarnations
  import opened Guarantees

  /** Client c is about to delete the record under k. */
  predicate AboutToDelete(s: State, c: nat, k: string) {
    c in s.clients && s.clients[c].local.Deleting? && WindowKey(s.clients[c].local) == k
  }

  /** The record now under k is the one c locked. */
  predicate LockLives(s: State, c: nat, k: string)
    requires c in s.clients
  {
    s.clients[c].lock.Some? && LiveIs(s, k, s.clients[c].lock.value.inc)
  }

  /**
   Over every run: the record an Unalloc is about to delete is the one it locked exactly if its lock update
   committed, since its Get, and nobody has deleted the key since.
   */
  lemma LockLivesIff(s: State, c: nat, k: string)
    requires Reachable(s) && AboutToDelete(s, c, k)
    ensures LockLives(s, c, k) <==>
      exists n :: s.clients[c].mark <= n < |s.writes| && s.writes[n] == Write(c, k, Updated) && !DeletedSince(s, k, n)
  {
    ReachableTracked(s);
    assert LockTracked(s, c);
  }

  // ----- the borrowers that go with the record

  lemma BorrowersAfter(incs: seq<Incarnation>, i: nat, j: nat)
    requires i < |incs| && j < |incs[i].commits| && CommitsSound(incs, i) && CleanIn(incs, i, j, |incs[i].commits|)
    requires incs[i].commits[j].op.Unalloc? && !incs[i].commits[j].op.force
    ensures var inc := incs[i];
      ValueAt(inc, |inc.commits|).Borrowers() == BorrowFold([], inc.commits[j + 1..])
  {
    hide BorrowFold;
    var inc := incs[i];
    var n := |inc.commits|;
    assert CommitSound(incs, i, j);
    assert ValueAt(inc, j + 1).Borrowers() == [];
    ValueIsFold(incs, i, j + 1, n);
    assert inc.commits[j + 1..n] == inc.commits[j + 1..];
    FoldKeepsBorrowers(ValueAt(inc, j + 1), inc.commits[j + 1..]);
  }

  /** An unforced Delete takes with it exactly the borrowers who borrowed, and did not return, after the lock. */
  lemma BorrowersSinceLock(s: State, c: nat, k: string, x: Container)
    requires Reachable(s) && AboutToDelete(s, c, k) && LockLives(s, c, k)
    requires s.clients[c].op.Unalloc? && !s.clients[c].op.force && s.live[k] < |s.incs|
    requires UndisturbedIn(s, s.live[k], s.clients[c].lock.value.index, |s.incs[s.live[k]].commits|)
    ensures k in s.world.kv && s.clients[c].lock.value.index < |s.incs[s.live[k]].commits|
    ensures var since := s.incs[s.live[k]].commits[s.clients[c].lock.value.index + 1..];
      && s.world.kv[k].value.Borrowers() == BorrowFold([], since)
      && (x in s.world.kv[k].value.Borrowers() <==> LastIsBorrow(since, x))
  {
    hide UndisturbedIn, BorrowFold, LastIsBorrow, Fold, ValueAt;
    ReachableTracked(s);
    assert LockTracked(s, c);
    var i, j := s.live[k], s.clients[c].lock.value.index;
    TrackedCleanIn(s, i, j, |s.incs[i].commits|);
    assert LiveSound(s, k);
    BorrowersAfter(s.incs, i, j);
    BorrowFoldMembers([], s.incs[i].commits[j + 1..], x);
  }

  // ----- when every Delete takes the record its caller locked

  /** A lock of k was committed at this place. */
  predicate LockAt(incs: seq<Incarnation>, k: string, i: nat, j: nat) {
    i < |incs| && incs[i].key == k && j < |incs[i].commits| && incs[i].commits[j].op.Unalloc?
  }

  /** No lock of k, and nothing committed after one to the same record, had read another record. */
  ghost predicate LocksClean(s: State, k: string) {
    forall i: nat, j: nat :: LockAt(s.incs, k, i, j) ==> CleanIn(s.incs, i, j, |s.incs[i].commits|)
  }

  /** None of them had a Delete of k in its window. */
  ghost predicate LocksUndisturbed(s: State, k: string) {
    forall i: nat, j: nat :: LockAt(s.incs, k, i, j) ==> UndisturbedIn(s, i, j, |s.incs[i].commits|)
  }

  /** A lock update of k is won or lost, and not answered with an error. */
  predicate LockAnswered(s: State, e: Event, k: string) {
    e.Act? && CanAct(s, e.client) && s.clients[e.client].local.Swapping? && s.clients[e.client].op.Unalloc?
      && WindowKey(s.clients[e.client].local) == k ==>
        var answer := Answered(s, e.client, e.fails, e.offer);
        !(answer.FromStore? && answer.reply.Err?)
  }

  predicate LocksAnswered(taken: set<string>, events: seq<Event>, k: string)
    decreases |events|
  {
    events == [] ||
    (var front := events[..|events| - 1];
     LocksAnswered(taken, front, k) && LockAnswered(Run(Initial(taken), front), events[|events| - 1], k))
  }

  ghost predicate LocksHeld(s: State, k: string) {
    LocksClean(s, k) ==> forall c :: c in s.clients && AboutToDelete(s, c, k) ==> LockLives(s, c, k)
  }

  lemma CleanBefore(s: State, s': State, c: nat, k: string)
    requires Moves(s, s', c) && LocksClean(s', k)
    ensures LocksClean(s, k)
  {
    forall i: nat, j: nat | LockAt(s.incs, k, i, j) ensures CleanIn(s.incs, i, j, |s.incs[i].commits|) {
      CommitsRemain(s, s', c, i);
      assert LockAt(s'.incs, k, i, j);
      assert CleanIn(s'.incs, i, j, |s'.incs[i].commits|);
      assert forall n :: j <= n < |s.incs[i].commits| ==> s'.incs[i].commits[n] == s.incs[i].commits[n];
    }
  }

  lemma CommitsRemain(s: State, s': State, c: nat, i: nat)
    requires Moves(s, s', c) && i < |s.incs|
    ensures i < |s'.incs| && s'.incs[i].key == s.incs[i].key && |s.incs[i].commits| <= |s'.incs[i].commits|
    ensures forall n :: 0 <= n < |s.incs[i].commits| ==> s'.incs[i].commits[n] == s.incs[i].commits[n]
  {
    if !Still(s, s') && s'.writes[|s.writes|].change.Created? {
      assert s'.incs[i] == s'.incs[..|s.incs|][i] == s.incs[i];
    }
  }

  /** Two live locks on one record are one lock. */
  lemma OneLocker(s: State, k: string, c: nat, d: nat)
    requires Owned(s) && Traced(s) && Tracked(s) && HoldersTraced(s) && LocksClean(s, k)
    requires AboutToDelete(s, c, k) && AboutToDelete(s, d, k) && LockLives(s, c, k) && LockLives(s, d, k)
    ensures c == d
  {
    hide Fold, LiveSound, ReadSound, SpansTracked, SnapshotTracked, RecordSound, HolderSound, OneRecordEach, BornFresh;
    assert LockTracked(s, c) && LockTracked(s, d) && ClientSound(s.clients[c]) && ClientSound(s.clients[d]);
    var i := s.live[k];
    var m, n := s.clients[c].lock.value.index, s.clients[d].lock.value.index;
    assert CommitsSound(s.incs, i) && UnassignsHeld(s.incs, i);
    assert LockAt(s.incs, k, i, m) && LockAt(s.incs, k, i, n);
    LockedStays(s.incs, i, if m < n then m else n, |s.incs[i].commits|);
  }

  lemma LockerHolds(s: State, c: nat, fails: bool, offer: Option<IP>, k: string)
    requires Owned(s) && Traced(s) && CanAct(s, c) && LockAnswered(s, Act(c, fails, offer), k)
    requires AboutToDelete(Next(s, Act(c, fails, offer)), c, k)
    ensures LockLives(Next(s, Act(c, fails, offer)), c, k)
  {
    hide Next, Exec, Advance, Answered, IPKey, Fold;
    ActShape(s, c, fails, offer);
    match s.clients[c].local {
      case Swapping(_, read, _) =>
        assert ClientSound(s.clients[c]);
        if Answered(s, c, fails, offer) == FromStore(Swapped) {
          CommitShape(s, c, fails, offer);
          assert LiveSound(s, IPInfoKey(read));
        } else {
          LostShape(s, c, fails, offer);
        }
      case Getting(_) => GetShape(s, c, fails, offer);
      case Putting(_) => PutShape(s, c, fails, offer);
      case Deleting(_) => DeleteShape(s, c, fails, offer);
      case _ => CalicoShape(s, c, fails, offer);
    }
  }

  lemma DeleterIsAbout(s: State, c: nat, fails: bool, offer: Option<IP>)
    requires Owned(s) && Traced(s) && CanAct(s, c)
    ensures var s' := Next(s, Act(c, fails, offer));
      |s'.writes| > |s.writes| && s'.writes[|s.writes|].change.Deleted? ==>
          AboutToDelete(s, c, s'.writes[|s.writes|].key)
  {
    hide Next, Exec, Advance, Answered, IPKey, Modify;
    match s.clients[c].local {
      case Swapping(_, read, _) =>
        assert ClientSound(s.clients[c]);
        if Answered(s, c, fails, offer) == FromStore(Swapped) {
          CommitShape(s, c, fails, offer);
        } else {
          LostShape(s, c, fails, offer);
        }
      case Getting(_) => GetShape(s, c, fails, offer);
      case Putting(_) => PutShape(s, c, fails, offer);
      case Deleting(_) => DeleteShape(s, c, fails, offer);
      case _ => CalicoShape(s, c, fails, offer);
    }
  }

  lemma ActKeepsLocks(s: State, c: nat, fails: bool, offer: Option<IP>, k: string)
    requires Owned(s) && Traced(s) && Tracked(s) && HoldersTraced(s) && LocksHeld(s, k)
    requires CanAct(s, c) && LockAnswered(s, Act(c, fails, offer), k)
    ensures LocksHeld(Next(s, Act(c, fails, offer)), k)
  {
    hide Next, Owned, Traced, Tracked, HoldersTraced, LockAnswered, Answered, Exec, Advance;
    var s' := Next(s, Act(c, fails, offer));
    ActShape(s, c, fails, offer);
    ActMoves(s, c, fails, offer);
    DeleterIsAbout(s, c, fails, offer);
    if LocksClean(s', k) {
      CleanBefore(s, s', c, k);
      forall d | d in s'.clients && AboutToDelete(s', d, k) ensures LockLives(s', d, k) {
        if d == c {
          LockerHolds(s, c, fails, offer, k);
        } else {
          assert AboutToDelete(s, d, k) && LockLives(s, d, k);
          if AboutToDelete(s, c, k) {
            OneLocker(s, k, c, d);
          }
        }
      }
    }
  }

  lemma {:induction false} RunKeepsLocks(taken: set<string>, events: seq<Event>, k: string)
    requires ValidEvents(events) && Disciplined(taken, events) && LocksAnswered(taken, events, k)
    ensures LocksHeld(Run(Initial(taken), events), k)
    decreases |events|
  {
    hide Owned, Traced, Tracked, HoldersTraced;
    if events != [] {
      var front := events[..|events| - 1];
      var s, e := Run(Initial(taken), front), events[|events| - 1];
      RunKeepsLocks(taken, front, k);
      RunKeepsTraced(taken, front);
      RunKeepsTracked(taken, front);
      RunKeepsHolders(taken, front);
      match e {
        case Act(c, fails, offer) =>
          if CanAct(s, c) {
            ActKeepsLocks(s, c, fails, offer, k);
          }
        case Begin(c, op) => BeginKeepsLocks(s, c, op, k);
      }
    }
  }

  lemma BeginKeepsLocks(s: State, c: nat, op: Op, k: string)
    requires LocksHeld(s, k)
    ensures LocksHeld(Next(s, Begin(c, op)), k)
  {
    var s' := Next(s, Begin(c, op));
    assert forall d :: AboutToDelete(s', d, k) ==> AboutToDelete(s, d, k) && s'.clients[d] == s.clients[d];
  }

  /**
   The retire lock protects its Delete. If only holders unassign, no lock of this IP nor any update after one is
   disturbed by a Delete in its window, and no lock update of it is answered with an error, then an Unalloc
   about to delete is the only one; the record is the one its lock committed to, in use and retired; and its
   Delete removes exactly that record.
   */
  lemma DeleteTakesItsLock(taken: set<string>, events: seq<Event>, s: State, c: nat, k: string, offer: Option<IP>)
    requires ValidEvents(events) && Disciplined(taken, events) && LocksAnswered(taken, events, k)
    requires s == Run(Initial(taken), events) && AboutToDelete(s, c, k) && LocksUndisturbed(s, k)
    ensures forall d :: d != c ==> !AboutToDelete(s, d, k)
    ensures LockLives(s, c, k) && s.live[k] == s.clients[c].readInc < |s.incs|
    ensures var lock, inc := s.clients[c].lock.value, s.incs[s.live[k]];
      && lock.index < |inc.commits| && IsBy(inc.commits[lock.index], c, s.clients[c].op, s.live[k])
      && (forall n :: lock.index < n < |inc.commits| ==> inc.commits[n].op.Borrow? || inc.commits[n].op.Return?)
    ensures k in s.world.kv && {InUse, Retired} <= s.world.kv[k].value.status
    ensures CanAct(s, c)
    ensures var s' := Next(s, Act(c, false, offer));
      && s'.world.kv == Dropped(s.world.kv, k)
      && s'.live == (map j | j in s.live && j != k :: s.live[j])
      && s'.incs == s.incs && s'.clients[c].local.Freeing?
  {
    RunKeepsTraced(taken, events);
    RunKeepsTracked(taken, events);
    RunKeepsHolders(taken, events);
    RunKeepsLocks(taken, events, k);
    LockStands(s, c, k);
    LockIsFinal(taken, events, s, s.live[k], s.clients[c].lock.value.index);
    DeleteRemoves(s, c, k, offer);
    forall d | d != c ensures !AboutToDelete(s, d, k) {
      if AboutToDelete(s, d, k) {
        assert LocksClean(s, k) && LockLives(s, d, k);
        OneLocker(s, k, c, d);
      }
    }
  }

  lemma LockStands(s: State, c: nat, k: string)
    requires Owned(s) && Traced(s) && Tracked(s) && LocksHeld(s, k) && LocksUndisturbed(s, k) && AboutToDelete(s, c, k)
    ensures LocksClean(s, k) && LockLives(s, c, k) && k in s.world.kv
    ensures s.live[k] == s.clients[c].readInc < |s.incs| && s.incs[s.live[k]].key == k
    ensures var lock, inc := s.clients[c].lock.value, s.incs[s.live[k]];
      && lock.index < |inc.commits| && s.clients[c].op.Unalloc?
      && IsBy(inc.commits[lock.index], c, s.clients[c].op, s.live[k])
  {
    hide UndisturbedIn, SpansTracked, Modify, Proceeds;
    forall i: nat, j: nat | LockAt(s.incs, k, i, j) ensures CleanIn(s.incs, i, j, |s.incs[i].commits|) {
      TrackedCleanIn(s, i, j, |s.incs[i].commits|);
    }
    assert LockTracked(s, c) && ClientSound(s.clients[c]);
    var i, j := s.live[k], s.clients[c].lock.value.index;
    assert LockAt(s.incs, k, i, j);
    assert s.incs[i].commits[j].readInc == i;
  }

  lemma DeleteRemoves(s: State, c: nat, k: string, offer: Option<IP>)
    requires Owned(s) && Traced(s) && AboutToDelete(s, c, k) && k in s.world.kv
    ensures CanAct(s, c)
    ensures var s' := Next(s, Act(c, false, offer));
      && s'.world.kv == Dropped(s.world.kv, k)
      && s'.live == (map j | j in s.live && j != k :: s.live[j])
      && s'.incs == s.incs && s'.clients[c].local.Freeing?
  {
    hide Modify, LiveSound, ReadSound, CommitsSound, HolderSound, OneRecordEach, BornFresh, Ambiguous, Extended;
    hide AfterGet, AfterSwap, AfterPut;
    assert ClientSound(s.clients[c]) && RecordSound(s, k);
  }
}
