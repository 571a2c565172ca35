/**
 What follows for callers, over every run: no lost update, exclusive assignment, faithful borrowers, and a final
 retire lock.
 */
module Guarantees {
  import opened Types
  import opened Codecs
  import opened Etcd
  import opened FixedIPOps
  import opened Protocol
  import opened Ownership
  import opened History
  import opened Incarnations

  /**
   The version of the current record counts what was committed to it, and from any point after which no
   commit is disturbed the record is the fold of the commits since.
   */
  lemma RecordIsFold(s: State, k: string, m: nat)
    requires Reachable(s) && k in s.world.kv
    ensures k in s.live && s.live[k] < |s.incs| && s.incs[s.live[k]].key == k
    ensures s.world.kv[k].version == |s.incs[s.live[k]].commits| + 1
    ensures var inc := s.incs[s.live[k]];
      m <= |inc.commits| && UndisturbedIn(s, s.live[k], m, |inc.commits|) ==>
        s.world.kv[k].value == Fold(ValueAt(inc, m), inc.commits[m..])
  {
    hide UndisturbedIn, Fold, Modify;
    ReachableTracked(s);
    assert LiveSound(s, k);
    var i := s.live[k];
    var n := |s.incs[i].commits|;
    if m <= n && UndisturbedIn(s, i, m, n) {
      TrackedCleanIn(s, i, m, n);
      ValueIsFold(s.incs, i, m, n);
      assert s.incs[i].commits[m..n] == s.incs[i].commits[m..];
    }
  }

  /**
   A swap that wins replaces the incarnation it read exactly if nobody has deleted the key since its Get, and
   then exactly the record it read, by its own change of it: nothing committed in between is lost.
   */
  lemma SwapReplacesWhatWasRead(s: State, c: nat, fails: bool, offer: Option<IP>)
    requires Reachable(s) && CanAct(s, c) && s.clients[c].local.Swapping?
    requires Answered(s, c, fails, offer) == FromStore(Swapped)
    ensures var s' := Next(s, Act(c, fails, offer));
      var client := s.clients[c];
      var k := IPInfoKey(client.local.read);
      && k in s.world.kv && k in s.live && s.live[k] < |s.incs| && k in s'.world.kv
      && s'.live == s.live && |s'.incs| == |s.incs|
      && (s.live[k] == client.readInc <==> !DeletedSince(s, k, client.mark))
      && (!DeletedSince(s, k, client.mark) ==>
          && s.world.kv[k] == Entry(client.local.read, client.local.version)
          && s'.world.kv[k] == Entry(Modify(client.op, s.world.kv[k].value), s.world.kv[k].version + 1)
          && (Undisturbed(s, s.live[k]) ==> Undisturbed(s', s.live[k])))
  {
    hide UndisturbedIn, DeletedSince, Tracked, Modify, Next, Owned, ValueAt, Proceeds;
    ReachableTracked(s);
    FacesWhatItRead(s, c);
    CommitShape(s, c, fails, offer);
    var client := s.clients[c];
    assert LiveSound(s, IPInfoKey(client.local.read)) && ReadSound(s.incs, client);
    StaysUndisturbed(s, c, fails, offer);
  }

  lemma StaysUndisturbed(s: State, c: nat, fails: bool, offer: Option<IP>)
    requires Reachable(s) && CanAct(s, c) && s.clients[c].local.Swapping?
    requires Answered(s, c, fails, offer) == FromStore(Swapped)
    ensures var s', k := Next(s, Act(c, fails, offer)), IPInfoKey(s.clients[c].local.read);
      && k in s.live && s.live[k] < |s.incs| == |s'.incs|
      && (!DeletedSince(s, k, s.clients[c].mark) && Undisturbed(s, s.live[k]) ==> Undisturbed(s', s.live[k]))
  {
    hide UndisturbedIn, DeletedSince, Tracked, Modify, Next, Owned, ValueAt, Proceeds, Fold, ReadSound, CommitsSound;
    ReachableTracked(s);
    FacesWhatItRead(s, c);
    ActKeepsTracked(s, c, fails, offer);
    CommitShape(s, c, fails, offer);
    var s', k := Next(s, Act(c, fails, offer)), IPInfoKey(s.clients[c].local.read);
    assert LiveSound(s, k);
    var i := s.live[k];
    TrackedCleanIn(s, i, 0, |s.incs[i].commits|);
    TrackedCleanIn(s', i, 0, |s'.incs[i].commits|);
  }

  predicate SetsInUse(op: Op) {
    op.Assign? || op.Unalloc?
  }

  lemma {:induction false} InUseUntilUnassign(incs: seq<Incarnation>, i: nat, a: nat, b: nat)
    requires i < |incs| && a < b <= |incs[i].commits| && CommitsSound(incs, i) && CleanIn(incs, i, a + 1, b)
    requires SetsInUse(incs[i].commits[a].op) && forall n :: a < n < b ==> !incs[i].commits[n].op.Unassign?
    ensures InUse in ValueAt(incs[i], b).status
    decreases b
  {
    if a < b - 1 {
      InUseUntilUnassign(incs, i, a, b - 1);
      assert CommitSound(incs, i, b - 1);
    }
  }

  /**
   Mutual exclusion: between two commits that put a record in use there is a committed Unassign, if the second
   and those between are undisturbed.
   */
  lemma AssignsExclude(s: State, i: nat, a: nat, b: nat)
    requires Reachable(s) && i < |s.incs| && a < b < |s.incs[i].commits| && UndisturbedIn(s, i, a + 1, b + 1)
    requires SetsInUse(s.incs[i].commits[a].op) && SetsInUse(s.incs[i].commits[b].op)
    ensures exists n :: a < n < b && s.incs[i].commits[n].op.Unassign?
  {
    ReachableTraced(s);
    CleanIffUndisturbed(s, i, a + 1, b + 1);
    assert CommitSound(s.incs, i, b);
    if forall n :: a < n < b ==> !s.incs[i].commits[n].op.Unassign? {
      InUseUntilUnassign(s.incs, i, a, b);
    }
  }

  /** The borrower list that Borrows and Returns alone make of a list. */
  function BorrowFold(start: seq<Container>, commits: seq<Commit>): seq<Container>
    decreases |commits|
  {
    if commits == [] then start
    else
      var before := BorrowFold(start, commits[..|commits| - 1]);
      match commits[|commits| - 1].op
      case Borrow(_, c) => before + [c]
      case Return(_, c) => Without(before, c)
      case _ => before
  }

  predicate Concerns(op: Op, c: Container) {
    (op.Borrow? || op.Return?) && op.container == c
  }

  predicate LastIsBorrow(commits: seq<Commit>, c: Container) {
    exists i :: 0 <= i < |commits| && commits[i].op.Borrow? && commits[i].op.container == c
      && forall n :: i < n < |commits| ==> !Concerns(commits[n].op, c)
  }

  predicate Unconcerned(commits: seq<Commit>, c: Container) {
    forall n :: 0 <= n < |commits| ==> !Concerns(commits[n].op, c)
  }

  lemma {:induction false} FoldKeepsBorrowers(birth: IPInfo, commits: seq<Commit>)
    ensures Fold(birth, commits).Borrowers() == BorrowFold(birth.Borrowers(), commits)
    decreases |commits|
  {
    if commits != [] {
      FoldKeepsBorrowers(birth, commits[..|commits| - 1]);
    }
  }

  lemma LastIsBorrowNext(front: seq<Commit>, last: Commit, c: Container)
    ensures LastIsBorrow(front + [last], c) <==>
      if Concerns(last.op, c) then last.op.Borrow? else LastIsBorrow(front, c)
    ensures Unconcerned(front + [last], c) <==> Unconcerned(front, c) && !Concerns(last.op, c)
  {
    var commits := front + [last];
    assert commits[|front|] == last;
    assert forall n :: 0 <= n < |front| ==> commits[n] == front[n];
    if !Concerns(last.op, c) && LastIsBorrow(commits, c) {
      var i :| 0 <= i < |commits| && commits[i].op.Borrow? && commits[i].op.container == c
        && forall n :: i < n < |commits| ==> !Concerns(commits[n].op, c);
      assert front[i] == commits[i];
      assert forall n :: i < n < |front| ==> commits[n] == front[n];
    }
    if Unconcerned(commits, c) {
      forall n | 0 <= n < |front| ensures !Concerns(front[n].op, c) {
        assert commits[n] == front[n];
      }
    }
  }

  lemma {:induction false} BorrowFoldMembers(start: seq<Container>, commits: seq<Commit>, c: Container)
    ensures c in BorrowFold(start, commits) <==> LastIsBorrow(commits, c) || (c in start && Unconcerned(commits, c))
    decreases |commits|
  {
    hide LastIsBorrow, Unconcerned;
    if commits == [] {
      assert Unconcerned(commits, c) && !LastIsBorrow(commits, c) by { NoCommits(c); }
    } else {
      var front, last := commits[..|commits| - 1], commits[|commits| - 1];
      assert commits == front + [last];
      BorrowFoldMembers(start, front, c);
      LastIsBorrowNext(front, last, c);
    }
  }

  lemma NoCommits(c: Container)
    ensures Unconcerned([], c) && !LastIsBorrow([], c)
  {
  }

  /**
   No borrower is lost or resurrected: from any point after which no commit is disturbed the list is what Borrow
   and Return made it, and c is on it iff its last committed one was a Borrow, or it was on it and there was none.
   */
  lemma BorrowersFaithful(s: State, k: string, m: nat, c: Container)
    requires Reachable(s) && k in s.world.kv
    ensures k in s.live && s.live[k] < |s.incs| && s.incs[s.live[k]].birth.Borrowers() == []
    ensures var inc, now := s.incs[s.live[k]], s.world.kv[k].value.Borrowers();
      m <= |inc.commits| && UndisturbedIn(s, s.live[k], m, |inc.commits|) ==>
        var start, since := ValueAt(inc, m).Borrowers(), inc.commits[m..];
        && now == BorrowFold(start, since)
        && (c in now <==> LastIsBorrow(since, c) || (c in start && Unconcerned(since, c)))
  {
    hide UndisturbedIn, LastIsBorrow, Unconcerned, BorrowFold, Fold, Modify;
    RecordIsFold(s, k, m);
    ReachableTraced(s);
    var inc := s.incs[s.live[k]];
    assert BornFresh(inc);
    if m <= |inc.commits| {
      FoldKeepsBorrowers(ValueAt(inc, m), inc.commits[m..]);
      BorrowFoldMembers(ValueAt(inc, m).Borrowers(), inc.commits[m..], c);
    }
  }

  predicate ChangesStatus(op: Op) {
    op.Assign? || op.Unassign? || op.Unalloc?
  }

  /** Client c made the last status change, and it was an Assign. */
  predicate Holds(commits: seq<Commit>, c: nat)
    decreases |commits|
  {
    commits != [] &&
    var last := commits[|commits| - 1];
    if ChangesStatus(last.op) then last.op.Assign? && last.client == c
    else Holds(commits[..|commits| - 1], c)
  }

  /** An Unassign that finds its record in use is issued by the client that holds the assignment. */
  predicate DisciplinedStep(s: State, e: Event) {
    e.Act? && CanAct(s, e.client) && s.clients[e.client].local.Getting? && s.clients[e.client].op.Unassign? ==>
      var k := NextCall(s, e.client).key;
      k in s.world.kv && k in s.live && s.live[k] < |s.incs| && InUse in s.world.kv[k].value.status ==>
        Holds(s.incs[s.live[k]].commits, e.client)
  }

  predicate Disciplined(taken: set<string>, events: seq<Event>)
    decreases |events|
  {
    events == [] ||
    (var front := events[..|events| - 1];
     Disciplined(taken, front) && DisciplinedStep(Run(Initial(taken), front), events[|events| - 1]))
  }

  predicate UnassignReadSound(incs: seq<Incarnation>, client: Client, c: nat) {
    client.local.Swapping? && client.op.Unassign? ==>
      var i, n := client.readInc, client.local.version;
      i < |incs| && 1 <= n <= |incs[i].commits| + 1 && Holds(incs[i].commits[..n - 1], c)
  }

  predicate UnassignsHeld(incs: seq<Incarnation>, i: nat)
    requires i < |incs|
  {
    forall j :: 0 <= j < |incs[i].commits| && incs[i].commits[j].op.Unassign? && incs[i].commits[j].readInc == i ==>
      Holds(incs[i].commits[..j], incs[i].commits[j].client)
  }

  predicate HoldersTraced(s: State) {
    && (forall c :: c in s.clients ==> UnassignReadSound(s.incs, s.clients[c], c))
    && (forall i :: 0 <= i < |s.incs| ==> UnassignsHeld(s.incs, i))
  }

  lemma HoldersQuiet(s: State, s': State, c: nat)
    requires HoldersTraced(s) && c in s.clients && s'.incs == s.incs
    requires s'.clients.Keys == s.clients.Keys && forall d :: d in s.clients && d != c ==> s'.clients[d] == s.clients[d]
    requires UnassignReadSound(s.incs, s'.clients[c], c)
    ensures HoldersTraced(s')
  {
  }

  lemma HoldersCommit(s: State, c: nat, s': State, i: nat)
    requires Traced(s) && HoldersTraced(s) && c in s.clients && s.clients[c].local.Swapping?
    requires i < |s.incs| && |s.incs[i].commits| + 1 == s.clients[c].local.version
    requires s'.incs == s.incs[i := Extended(s.incs[i], CommitOf(s, c), (s.clients[c].mark, |s.writes|))]
    requires s'.clients.Keys == s.clients.Keys && forall d :: d in s.clients && d != c ==> s'.clients[d] == s.clients[d]
    requires !s'.clients[c].local.Swapping?
    ensures HoldersTraced(s')
  {
    var client := s.clients[c];
    var commit, span := CommitOf(s, c), (client.mark, |s.writes|);
    var n := |s.incs[i].commits|;
    ExtendKeepsPast(s.incs, i, commit, span, s'.incs);
    assert UnassignReadSound(s.incs, client, c) && UnassignsHeld(s.incs, i);
    assert s'.incs[i].commits[..n] == s.incs[i].commits[..n];
    forall j | 0 <= j < |s'.incs| ensures UnassignsHeld(s'.incs, j) {
      assert UnassignsHeld(s.incs, j);
      if j == i {
        forall m | 0 <= m < n + 1 && s'.incs[i].commits[m].op.Unassign? && s'.incs[i].commits[m].readInc == i
          ensures Holds(s'.incs[i].commits[..m], s'.incs[i].commits[m].client)
        {
          assert s'.incs[i].commits[..m] == s.incs[i].commits[..m];
          assert m < n ==> s'.incs[i].commits[m] == s.incs[i].commits[m];
        }
      }
    }
    forall d | d in s'.clients ensures UnassignReadSound(s'.incs, s'.clients[d], d) {
      if d != c {
        assert UnassignReadSound(s.incs, s.clients[d], d);
      }
    }
  }

  lemma HoldersGet(s: State, c: nat, fails: bool, offer: Option<IP>)
    requires Traced(s) && HoldersTraced(s) && CanAct(s, c) && s.clients[c].local.Getting?
    requires DisciplinedStep(s, Act(c, fails, offer))
    ensures HoldersTraced(Next(s, Act(c, fails, offer)))
  {
    hide Next;
    ActShape(s, c, fails, offer);
    GetShape(s, c, fails, offer);
    var s' := Next(s, Act(c, fails, offer));
    var k := NextCall(s, c).key;
    if k in s.world.kv {
      assert LiveSound(s, k);
      var inc := s.incs[s.live[k]];
      assert inc.commits[..|inc.commits|] == inc.commits;
    }
    HoldersQuiet(s, s', c);
  }

  lemma HoldersPut(s: State, c: nat, fails: bool, offer: Option<IP>)
    requires HoldersTraced(s) && CanAct(s, c) && s.clients[c].local.Putting?
    ensures HoldersTraced(Next(s, Act(c, fails, offer)))
  {
    hide Next;
    ActShape(s, c, fails, offer);
    PutShape(s, c, fails, offer);
    var s' := Next(s, Act(c, fails, offer));
    assert s.incs <= s'.incs;
    forall i | 0 <= i < |s'.incs| ensures UnassignsHeld(s'.incs, i) {
      if i < |s.incs| {
        assert UnassignsHeld(s.incs, i) && s'.incs[i] == s.incs[i];
      }
    }
    forall d | d in s'.clients ensures UnassignReadSound(s'.incs, s'.clients[d], d) {
      assert UnassignReadSound(s.incs, s.clients[d], d);
    }
  }

  lemma NextKeepsHolders(s: State, c: nat, fails: bool, offer: Option<IP>)
    requires Owned(s) && Traced(s) && HoldersTraced(s) && CanAct(s, c) && DisciplinedStep(s, Act(c, fails, offer))
    ensures HoldersTraced(Next(s, Act(c, fails, offer)))
  {
    hide Next;
    var s' := Next(s, Act(c, fails, offer));
    ActShape(s, c, fails, offer);
    match s.clients[c].local {
      case Getting(_) => HoldersGet(s, c, fails, offer);
      case Putting(_) => HoldersPut(s, c, fails, offer);
      case Swapping(_, read, _) =>
        if Answered(s, c, fails, offer) == FromStore(Swapped) {
          CommitShape(s, c, fails, offer);
          assert LiveSound(s, IPInfoKey(read));
          HoldersCommit(s, c, s', s.live[IPInfoKey(read)]);
        } else {
          assert ClientSound(s.clients[c]);
          LostShape(s, c, fails, offer);
          HoldersQuiet(s, s', c);
        }
      case Deleting(_) =>
        DeleteShape(s, c, fails, offer);
        HoldersQuiet(s, s', c);
      case _ =>
        CalicoShape(s, c, fails, offer);
        HoldersQuiet(s, s', c);
    }
  }

  lemma {:induction false} RunKeepsHolders(taken: set<string>, events: seq<Event>)
    requires ValidEvents(events) && Disciplined(taken, events)
    ensures HoldersTraced(Run(Initial(taken), events))
    decreases |events|
  {
    if events != [] {
      var front := events[..|events| - 1];
      var s, e := Run(Initial(taken), front), events[|events| - 1];
      RunKeepsHolders(taken, front);
      RunKeepsTraced(taken, front);
      match e {
        case Act(c, fails, offer) =>
          if CanAct(s, c) {
            NextKeepsHolders(s, c, fails, offer);
          }
        case Begin(c, op) =>
          var s' := Next(s, e);
          forall d | d in s'.clients ensures UnassignReadSound(s'.incs, s'.clients[d], d) {
            assert d in s.clients ==> UnassignReadSound(s.incs, s.clients[d], d);
          }
      }
    }
  }

  lemma HoldsStep(commits: seq<Commit>, m: nat, c: nat)
    requires 0 < m <= |commits|
    ensures Holds(commits[..m], c) <==>
      if ChangesStatus(commits[m - 1].op) then commits[m - 1].op.Assign? && commits[m - 1].client == c
      else Holds(commits[..m - 1], c)
  {
    assert commits[..m][..m - 1] == commits[..m - 1];
  }

  /**
   After a lock no later commit changes the status, so nobody holds an assignment and the record stays in use and
   retired.
   */
  lemma {:induction false} LockedStays(incs: seq<Incarnation>, i: nat, j: nat, m: nat)
    requires i < |incs| && CommitsSound(incs, i) && UnassignsHeld(incs, i)
    requires j < m <= |incs[i].commits| && incs[i].commits[j].op.Unalloc? && CleanIn(incs, i, j + 1, m)
    ensures forall n :: j < n < m ==> !ChangesStatus(incs[i].commits[n].op)
    ensures forall c: nat :: !Holds(incs[i].commits[..m], c)
    ensures {InUse, Retired} <= ValueAt(incs[i], m).status
    decreases m
  {
    hide Holds;
    var inc := incs[i];
    if j < m - 1 {
      LockedStays(incs, i, j, m - 1);
      assert CommitSound(incs, i, m - 1);
    }
    forall c: nat ensures !Holds(inc.commits[..m], c) {
      HoldsStep(inc.commits, m, c);
    }
  }

  /**
   The retire lock is final. In a disciplined run, once an Unalloc has locked a record no Assign, no
   Unassign and no second lock commits to it while the lock and what follows are undisturbed, so as long as it
   exists it is in use and retired; and when the lock was taken the record was not in use and, unless
   forced, had no borrower.
   */
  lemma LockIsFinal(taken: set<string>, events: seq<Event>, s: State, i: nat, j: nat)
    requires ValidEvents(events) && Disciplined(taken, events) && s == Run(Initial(taken), events)
    requires i < |s.incs| && j < |s.incs[i].commits| && s.incs[i].commits[j].op.Unalloc?
    requires UndisturbedIn(s, i, j, |s.incs[i].commits|)
    ensures var inc := s.incs[i];
      && (forall n :: j < n < |inc.commits| ==> inc.commits[n].op.Borrow? || inc.commits[n].op.Return?)
      && InUse !in ValueAt(inc, j).status
      && (inc.commits[j].op.force || ValueAt(inc, j).Borrowers() == [])
      && (inc.key in s.world.kv && inc.key in s.live && s.live[inc.key] == i ==>
          {InUse, Retired} <= s.world.kv[inc.key].value.status)
  {
    RunKeepsTraced(taken, events);
    RunKeepsTracked(taken, events);
    RunKeepsHolders(taken, events);
    LockFinal(s, i, j);
  }

  lemma LockFinal(s: State, i: nat, j: nat)
    requires Traced(s) && Tracked(s) && HoldersTraced(s)
    requires i < |s.incs| && j < |s.incs[i].commits| && s.incs[i].commits[j].op.Unalloc?
    requires UndisturbedIn(s, i, j, |s.incs[i].commits|)
    ensures var inc := s.incs[i];
      && (forall n :: j < n < |inc.commits| ==> inc.commits[n].op.Borrow? || inc.commits[n].op.Return?)
      && InUse !in ValueAt(inc, j).status
      && (inc.commits[j].op.force || ValueAt(inc, j).Borrowers() == [])
      && (inc.key in s.world.kv && inc.key in s.live && s.live[inc.key] == i ==>
          {InUse, Retired} <= s.world.kv[inc.key].value.status)
  {
    hide UndisturbedIn, Tracked, ReadSound, SpansTracked, Holds, Modify, ValueAt;
    var inc := s.incs[i];
    TrackedCleanIn(s, i, j, |inc.commits|);
    assert CommitsSound(s.incs, i) && UnassignsHeld(s.incs, i);
    LockedStays(s.incs, i, j, |inc.commits|);
    assert CommitSound(s.incs, i, j);
    if inc.key in s.world.kv {
      assert LiveSound(s, inc.key);
    }
    forall n | j < n < |inc.commits| ensures inc.commits[n].op.Borrow? || inc.commits[n].op.Return? {
      assert CommitSound(s.incs, i, n);
    }
  }
}
