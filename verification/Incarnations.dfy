/**
 What connects an incarnation to what happens in a run: an operation still faces the incarnation it
 read exactly as long as nobody has deleted the key since its Get.
 */
module Incarnations {
  import opened Types
  import opened Codecs
  import opened Etcd
  import opened FixedIPOps
  import opened Protocol
  import opened Ownership
  import opened History

  /** A Delete of key k was committed in this stretch of the write history. */
  predicate DeletedIn(writes: seq<Write>, k: string, from: nat, to: nat) {
    exists n :: from <= n < to && n < |writes| && writes[n].key == k && writes[n].change.Deleted?
  }

  predicate DeletedSince(s: State, k: string, from: nat) {
    DeletedIn(s.writes, k, from, |s.writes|)
  }

  /** Between its Get and its last store call. */
  predicate InWindow(local: Local) {
    local.Swapping? || local.Deleting?
  }

  function WindowKey(local: Local): string
    requires InWindow(local)
  {
    if local.Swapping? then IPInfoKey(local.read) else IPInfoKey(local.info)
  }

  /** None of the updates committed at these places had a Delete of the key between its Get and its swap. */
  predicate UndisturbedIn(s: State, i: nat, a: nat, b: nat)
    requires i < |s.incs|
  {
    forall j :: a <= j < b && j < |s.incs[i].spans| ==>
      !DeletedIn(s.writes, s.incs[i].key, s.incs[i].spans[j].0, s.incs[i].spans[j].1)
  }

  /** None of the updates committed to this incarnation had. */
  predicate Undisturbed(s: State, i: nat)
    requires i < |s.incs|
  {
    UndisturbedIn(s, i, 0, |s.incs[i].commits|)
  }

  predicate LiveIs(s: State, k: string, i: nat) {
    k in s.live && s.live[k] == i
  }

  // ----- the invariant

  predicate SnapshotTracked(s: State, c: nat)
    requires c in s.clients
  {
    var client := s.clients[c];
    InWindow(client.local) ==>
      var k := WindowKey(client.local);
      && client.mark <= |s.writes|
      && client.readInc < |s.incs|
      && (LiveIs(s, k, client.readInc) <==> !DeletedSince(s, k, client.mark))
  }

  predicate IsBy(commit: Commit, c: nat, op: Op, readInc: nat) {
    commit.client == c && commit.op == op && commit.readInc == readInc
  }

  predicate LockSound(s: State, c: nat, k: string, op: Op, readInc: nat, lock: Lock) {
    && lock.inc < |s.incs| && s.incs[lock.inc].key == k
    && lock.index < |s.incs[lock.inc].commits|
    && IsBy(s.incs[lock.inc].commits[lock.index], c, op, readInc)
    && lock.at < |s.writes| && s.writes[lock.at] == Write(c, k, Updated)
    && (LiveIs(s, k, lock.inc) <==> !DeletedSince(s, k, lock.at))
  }

  /** Since its Get the client has written nothing but its own lock. */
  predicate LockTracked(s: State, c: nat)
    requires c in s.clients
  {
    var client := s.clients[c];
    InWindow(client.local) ==>
      && (client.local.Swapping? ==> client.lock == None)
      && (client.lock.Some? ==>
          && client.mark <= client.lock.value.at
          && LockSound(s, c, WindowKey(client.local), client.op, client.readInc, client.lock.value))
      && (forall n :: client.mark <= n < |s.writes| && s.writes[n].client == c ==>
            client.lock.Some? && n == client.lock.value.at)
  }

  predicate SpansTracked(s: State, i: nat)
    requires i < |s.incs|
  {
    var inc := s.incs[i];
    && |inc.spans| == |inc.commits|
    && (forall j :: 0 <= j < |inc.spans| ==>
          && inc.spans[j].1 <= |s.writes|
          && (inc.commits[j].readInc == i <==> !DeletedIn(s.writes, inc.key, inc.spans[j].0, inc.spans[j].1)))
  }

  predicate Tracked(s: State) {
    && (forall c :: c in s.clients ==> SnapshotTracked(s, c) && LockTracked(s, c))
    && (forall i :: 0 <= i < |s.incs| ==> SpansTracked(s, i))
    && (forall k :: k in s.live ==> s.live[k] < |s.incs| && s.incs[s.live[k]].key == k)
  }

  // ----- a step of the history

  predicate Still(s: State, s': State) {
    s'.writes == s.writes && s'.incs == s.incs && s'.live == s.live
  }

  predicate Records(s: State, s': State, c: nat, w: Write)
    requires c in s.clients
  {
    && s'.writes == s.writes + [w] && w.client == c
    && match w.change
       case Created =>
         && w.key !in s.live && s'.live == s.live[w.key := |s.incs|]
         && |s'.incs| == |s.incs| + 1 && s'.incs[..|s.incs|] == s.incs
         && s'.incs[|s.incs|].key == w.key && s'.incs[|s.incs|].commits == [] && s'.incs[|s.incs|].spans == []
       case Updated =>
         && w.key in s.live && s.live[w.key] < |s.incs| && s'.live == s.live && s.clients[c].local.Swapping?
         && s'.incs == s.incs[s.live[w.key] :=
                              Extended(s.incs[s.live[w.key]], CommitOf(s, c), (s.clients[c].mark, |s.writes|))]
       case Deleted =>
         w.key in s.live && s'.incs == s.incs && s'.live == map k | k in s.live && k != w.key :: s.live[k]
  }

  predicate Moves(s: State, s': State, c: nat) {
    && c in s.clients
    && (Still(s, s') || (|s'.writes| == |s.writes| + 1 && Records(s, s', c, s'.writes[|s.writes|])))
  }

  lemma DeletedNext(writes: seq<Write>, w: Write, k: string, from: nat)
    requires from <= |writes|
    ensures DeletedIn(writes + [w], k, from, |writes| + 1) <==>
      DeletedIn(writes, k, from, |writes|) || (w.key == k && w.change.Deleted?)
    ensures forall to :: 0 <= to <= |writes| ==>
        (DeletedIn(writes + [w], k, from, to) <==> DeletedIn(writes, k, from, to))
  {
    var writes' := writes + [w];
    assert forall n :: 0 <= n < |writes| ==> writes'[n] == writes[n];
    assert writes'[|writes|] == w;
    if w.key == k && w.change.Deleted? {
      assert DeletedIn(writes', k, from, |writes| + 1);
    }
    if DeletedIn(writes, k, from, |writes|) {
      var n :| from <= n < |writes| && writes[n].key == k && writes[n].change.Deleted?;
      assert writes'[n].change.Deleted?;
    }
    forall to | 0 <= to <= |writes| ensures DeletedIn(writes', k, from, to) <==> DeletedIn(writes, k, from, to) {
      if DeletedIn(writes, k, from, to) {
        var n :| from <= n < to && n < |writes| && writes[n].key == k && writes[n].change.Deleted?;
        assert writes'[n].change.Deleted?;
      }
    }
  }

  /**
   An incarnation that was read or locked before a step stays the live one exactly if the step deletes nothing of its
   key.
   */
  lemma LiveStays(s: State, s': State, c: nat, k: string, i: nat, from: nat)
    requires Tracked(s) && Moves(s, s', c) && i < |s.incs| && from <= |s.writes|
    requires LiveIs(s, k, i) <==> !DeletedSince(s, k, from)
    ensures i < |s'.incs| && |s.writes| <= |s'.writes|
    ensures LiveIs(s', k, i) <==> !DeletedSince(s', k, from)
  {
    if !Still(s, s') {
      DeletedNext(s.writes, s'.writes[|s.writes|], k, from);
    }
  }

  lemma LockStays(s: State, s': State, c: nat, d: nat, k: string, op: Op, readInc: nat, lock: Lock)
    requires Tracked(s) && Moves(s, s', c) && LockSound(s, d, k, op, readInc, lock)
    ensures LockSound(s', d, k, op, readInc, lock)
  {
    LiveStays(s, s', c, k, lock.inc, lock.at);
    if !Still(s, s') && s'.writes[|s.writes|].change.Created? {
      assert s'.incs[lock.inc] == s'.incs[..|s.incs|][lock.inc];
    }
  }

  lemma BystanderTracked(s: State, s': State, c: nat, d: nat)
    requires Tracked(s) && Moves(s, s', c) && d != c
    requires d in s.clients && d in s'.clients && s'.clients[d] == s.clients[d]
    ensures SnapshotTracked(s', d) && LockTracked(s', d)
  {
    hide LockSound, Records, DeletedSince, LiveIs;
    var client := s.clients[d];
    assert SnapshotTracked(s, d) && LockTracked(s, d);
    if InWindow(client.local) {
      var k := WindowKey(client.local);
      LiveStays(s, s', c, k, client.readInc, client.mark);
      if client.lock.Some? {
        LockStays(s, s', c, d, k, client.op, client.readInc, client.lock.value);
      }
      forall n | client.mark <= n < |s'.writes| && s'.writes[n].client == d
        ensures client.lock.Some? && n == client.lock.value.at
      {
        NewWriteIsActors(s, s', c, n);
      }
    }
  }

  lemma NewWriteIsActors(s: State, s': State, c: nat, n: nat)
    requires Moves(s, s', c) && n < |s'.writes|
    ensures n < |s.writes| ==> s'.writes[n] == s.writes[n]
    ensures n >= |s.writes| ==> n == |s.writes| && s'.writes[n].client == c
  {
  }

  lemma SpansStay(s: State, s': State, c: nat, i: nat)
    requires Tracked(s) && Moves(s, s', c) && i < |s.incs| && i < |s'.incs| && s'.incs[i] == s.incs[i]
    ensures SpansTracked(s', i)
  {
    assert SpansTracked(s, i);
    var inc := s.incs[i];
    if !Still(s, s') {
      forall j | 0 <= j < |inc.spans|
        ensures DeletedIn(s'.writes, inc.key, inc.spans[j].0, inc.spans[j].1)
             <==> DeletedIn(s.writes, inc.key, inc.spans[j].0, inc.spans[j].1)
      {
        if inc.spans[j].0 <= |s.writes| {
          DeletedNext(s.writes, s'.writes[|s.writes|], inc.key, inc.spans[j].0);
        }
      }
    }
  }

  lemma SpanAdded(s: State, s': State, c: nat, w: Write)
    requires Tracked(s) && c in s.clients && s.clients[c].local.Swapping? && WindowKey(s.clients[c].local) == w.key
    requires Records(s, s', c, w) && w.change.Updated?
    ensures SpansTracked(s', s.live[w.key])
  {
    hide DeletedIn;
    var i := s.live[w.key];
    var inc, inc', mark := s.incs[i], s'.incs[i], s.clients[c].mark;
    assert SpansTracked(s, i) && SnapshotTracked(s, c);
    forall j | 0 <= j < |inc'.spans|
      ensures inc'.spans[j].1 <= |s'.writes|
      ensures inc'.commits[j].readInc == i <==> !DeletedIn(s'.writes, inc.key, inc'.spans[j].0, inc'.spans[j].1)
    {
      if j < |inc.spans| {
        assert inc'.spans[j] == inc.spans[j] && inc'.commits[j] == inc.commits[j];
        if inc.spans[j].0 <= |s.writes| {
          DeletedNext(s.writes, w, inc.key, inc.spans[j].0);
        } else {
          EmptySpan(s'.writes, inc.key, inc.spans[j]);
          EmptySpan(s.writes, inc.key, inc.spans[j]);
        }
      } else {
        assert inc'.spans[j] == (mark, |s.writes|) && inc'.commits[j] == CommitOf(s, c);
        DeletedNext(s.writes, w, inc.key, mark);
      }
    }
  }

  lemma EmptySpan(writes: seq<Write>, k: string, span: (nat, nat))
    requires span.1 <= span.0
    ensures !DeletedIn(writes, k, span.0, span.1)
  {
  }

  // ----- every step keeps it

  lemma ActMoves(s: State, c: nat, fails: bool, offer: Option<IP>)
    requires Owned(s) && Traced(s) && CanAct(s, c)
    ensures Moves(s, Next(s, Act(c, fails, offer)), c)
    ensures var s' := Next(s, Act(c, fails, offer));
      !Still(s, s') && s'.writes[|s.writes|].change.Updated? ==>
        s.clients[c].local.Swapping? && WindowKey(s.clients[c].local) == s'.writes[|s.writes|].key
  {
    hide Next, Exec, Advance, Answered, Modify, IPKey, RecordsSound, HoldersSound, OneRecordEach;
    match s.clients[c].local {
      case Putting(_) =>
        KeyIsFree(s, c);
        PutShape(s, c, fails, offer);
      case Swapping(_, read, _) =>
        assert ClientSound(s.clients[c]);
        if Answered(s, c, fails, offer) == FromStore(Swapped) {
          CommitShape(s, c, fails, offer);
          assert LiveSound(s, IPInfoKey(read));
        } else {
          LostShape(s, c, fails, offer);
        }
      case Deleting(_) => DeleteShape(s, c, fails, offer);
      case Getting(_) => GetShape(s, c, fails, offer);
      case _ => CalicoShape(s, c, fails, offer);
    }
  }

  lemma ReaderTracked(s: State, c: nat, fails: bool, offer: Option<IP>)
    requires Owned(s) && Traced(s) && Tracked(s) && CanAct(s, c) && s.clients[c].local.Getting?
    ensures var s' := Next(s, Act(c, fails, offer)); c in s'.clients && SnapshotTracked(s', c) && LockTracked(s', c)
  {
    hide Next;
    ActShape(s, c, fails, offer);
    GetShape(s, c, fails, offer);
    var s' := Next(s, Act(c, fails, offer));
    if s'.clients[c].local.Swapping? {
      var k := NextCall(s, c).key;
      assert RecordSound(s, k) && LiveSound(s, k);
      assert WindowKey(s'.clients[c].local) == k;
    }
  }

  lemma CommitterTracked(s: State, c: nat, fails: bool, offer: Option<IP>)
    requires Owned(s) && Traced(s) && Tracked(s) && CanAct(s, c) && s.clients[c].local.Swapping?
    requires Answered(s, c, fails, offer) == FromStore(Swapped)
    ensures var s' := Next(s, Act(c, fails, offer)); c in s'.clients && SnapshotTracked(s', c) && LockTracked(s', c)
  {
    hide Next, Exec, Advance, Answered, IPKey;
    var s' := Next(s, Act(c, fails, offer));
    ActMoves(s, c, fails, offer);
    ActShape(s, c, fails, offer);
    CommitShape(s, c, fails, offer);
    var client, client' := s.clients[c], s'.clients[c];
    var k := IPInfoKey(client.local.read);
    assert LiveSound(s, k) && SnapshotTracked(s, c) && LockTracked(s, c);
    LiveStays(s, s', c, k, client.readInc, client.mark);
    if client'.local.Deleting? {
      assert WindowKey(client'.local) == k;
      var i := s.live[k];
      assert s'.incs[i].commits[|s.incs[i].commits|] == CommitOf(s, c);
      assert LockSound(s', c, k, client.op, client.readInc, client'.lock.value);
    }
  }

  lemma LoserTracked(s: State, c: nat, fails: bool, offer: Option<IP>)
    requires Owned(s) && Tracked(s) && CanAct(s, c) && s.clients[c].local.Swapping?
    requires Answered(s, c, fails, offer) != FromStore(Swapped)
    ensures var s' := Next(s, Act(c, fails, offer)); c in s'.clients && SnapshotTracked(s', c) && LockTracked(s', c)
  {
    hide Next, Exec, Advance, Answered, IPKey;
    assert ClientSound(s.clients[c]);
    ActShape(s, c, fails, offer);
    LostShape(s, c, fails, offer);
    var s' := Next(s, Act(c, fails, offer));
    assert SnapshotTracked(s, c) && LockTracked(s, c);
    if s'.clients[c].local.Deleting? {
      assert WindowKey(s'.clients[c].local) == WindowKey(s.clients[c].local);
    }
  }

  lemma ActorTracked(s: State, c: nat, fails: bool, offer: Option<IP>)
    requires Owned(s) && Traced(s) && Tracked(s) && CanAct(s, c)
    ensures var s' := Next(s, Act(c, fails, offer)); c in s'.clients && SnapshotTracked(s', c) && LockTracked(s', c)
  {
    hide Next;
    ActShape(s, c, fails, offer);
    match s.clients[c].local {
      case Getting(_) => ReaderTracked(s, c, fails, offer);
      case Swapping(_, _, _) =>
        if Answered(s, c, fails, offer) == FromStore(Swapped) {
          CommitterTracked(s, c, fails, offer);
        } else {
          LoserTracked(s, c, fails, offer);
        }
      case Putting(_) => PutShape(s, c, fails, offer);
      case Deleting(_) => DeleteShape(s, c, fails, offer);
      case _ => CalicoShape(s, c, fails, offer);
    }
  }

  lemma ActKeepsTracked(s: State, c: nat, fails: bool, offer: Option<IP>)
    requires Owned(s) && Traced(s) && Tracked(s) && CanAct(s, c)
    ensures Tracked(Next(s, Act(c, fails, offer)))
  {
    hide Next, SnapshotTracked, LockTracked, SpansTracked, Moves, Records, Owned, Traced;
    hide Exec, Advance, Answered, NextCall;
    var s' := Next(s, Act(c, fails, offer));
    ActShape(s, c, fails, offer);
    ActMoves(s, c, fails, offer);
    LiveKeyed(s, s', c);
    ActorTracked(s, c, fails, offer);
    forall d | d in s'.clients && d != c ensures SnapshotTracked(s', d) && LockTracked(s', d) {
      BystanderTracked(s, s', c, d);
    }
    forall i | 0 <= i < |s'.incs| ensures SpansTracked(s', i) {
      IncTracked(s, s', c, i);
    }
  }

  lemma IncTracked(s: State, s': State, c: nat, i: nat)
    requires Tracked(s) && Moves(s, s', c) && i < |s'.incs|
    requires !Still(s, s') && s'.writes[|s.writes|].change.Updated? ==>
      s.clients[c].local.Swapping? && WindowKey(s.clients[c].local) == s'.writes[|s.writes|].key
    ensures SpansTracked(s', i)
  {
    hide SpansTracked, SnapshotTracked, LockTracked;
    if Still(s, s') {
      SpansStay(s, s', c, i);
    } else {
      var w := s'.writes[|s.writes|];
      if w.change.Updated? && i == s.live[w.key] {
        SpanAdded(s, s', c, w);
      } else if i < |s.incs| {
        assert w.change.Created? ==> s'.incs[i] == s'.incs[..|s.incs|][i];
        SpansStay(s, s', c, i);
      } else {
        BornTracked(s', i);
      }
    }
  }

  lemma BornTracked(s: State, i: nat)
    requires i < |s.incs| && s.incs[i].commits == [] && s.incs[i].spans == []
    ensures SpansTracked(s, i)
  {
  }

  lemma LiveKeyed(s: State, s': State, c: nat)
    requires Tracked(s) && Moves(s, s', c)
    ensures forall k :: k in s'.live ==> s'.live[k] < |s'.incs| && s'.incs[s'.live[k]].key == k
  {
    hide SpansTracked, SnapshotTracked, LockTracked;
    if !Still(s, s') && s'.writes[|s.writes|].change.Created? {
      assert forall i :: 0 <= i < |s.incs| ==> s'.incs[i] == s'.incs[..|s.incs|][i];
    }
  }

  lemma {:induction false} RunKeepsTracked(taken: set<string>, events: seq<Event>)
    requires ValidEvents(events)
    ensures Tracked(Run(Initial(taken), events))
    decreases |events|
  {
    if events != [] {
      var front := events[..|events| - 1];
      var s, e := Run(Initial(taken), front), events[|events| - 1];
      RunKeepsTracked(taken, front);
      RunKeepsTraced(taken, front);
      match e {
        case Act(c, fails, offer) =>
          if CanAct(s, c) {
            ActKeepsTracked(s, c, fails, offer);
          }
        case Begin(c, op) => BeginKeepsTracked(s, c, op);
      }
    }
  }

  lemma BeginKeepsTracked(s: State, c: nat, op: Op)
    requires Tracked(s)
    ensures Tracked(Next(s, Begin(c, op)))
  {
    var s' := Next(s, Begin(c, op));
    forall d | d in s'.clients ensures SnapshotTracked(s', d) && LockTracked(s', d) {
      assert d in s.clients ==> SnapshotTracked(s, d) && LockTracked(s, d);
    }
    forall i | 0 <= i < |s'.incs| ensures SpansTracked(s', i) {
      assert SpansTracked(s, i);
    }
  }

  lemma ReachableTracked(s: State)
    requires Reachable(s)
    ensures Owned(s) && Traced(s) && Tracked(s)
  {
    var taken, events :| ValidEvents(events) && s == Run(Initial(taken), events);
    RunKeepsTraced(taken, events);
    RunKeepsTracked(taken, events);
  }

  // ----- what it says

  /**
   Between its Get and its last store call, an operation faces the incarnation it read exactly if nobody has
   deleted the key since the Get.
   */
  lemma FacesWhatItRead(s: State, c: nat)
    requires Reachable(s) && c in s.clients && InWindow(s.clients[c].local)
    ensures var k := WindowKey(s.clients[c].local);
      k in s.live && s.live[k] == s.clients[c].readInc <==> !DeletedSince(s, k, s.clients[c].mark)
  {
    ReachableTracked(s);
    assert SnapshotTracked(s, c);
  }

  lemma TrackedCleanIn(s: State, i: nat, a: nat, b: nat)
    requires Tracked(s) && i < |s.incs| && b <= |s.incs[i].commits|
    ensures CleanIn(s.incs, i, a, b) <==> UndisturbedIn(s, i, a, b)
  {
    assert SpansTracked(s, i);
  }

  /** Committed updates had read the incarnation exactly if none had a Delete of the key inside its window. */
  lemma CleanIffUndisturbed(s: State, i: nat, a: nat, b: nat)
    requires Reachable(s) && i < |s.incs| && b <= |s.incs[i].commits|
    ensures CleanIn(s.incs, i, a, b) <==> UndisturbedIn(s, i, a, b)
  {
    ReachableTracked(s);
    TrackedCleanIn(s, i, a, b);
  }
}
