/**
 When BorrowFixedIP and ReturnFixedIP give up, over every run: only after three Get-to-CAS windows in each of which
 another client wrote the record.
 */
module Retry {
  import opened Types
  import opened Codecs
  import opened Etcd
  import opened FixedIPOps
  import opened Protocol
  import opened Ownership

  function OpKey(op: Op): string
    requires !op.AllocFromPools?
  {
    IPKey(op.ip.poolID, op.ip.address)
  }

  /** Somebody other than c wrote key k in this stretch of the write history. */
  predicate ForeignWrite(writes: seq<Write>, c: nat, k: string, window: (nat, nat)) {
    exists n :: window.0 <= n < window.1 && n < |writes| && writes[n].key == k && writes[n].client != c
  }

  predicate Untouched(writes: seq<Write>, k: string, from: nat) {
    forall n :: from <= n < |writes| ==> writes[n].key != k
  }

  predicate SnapshotSound(s: State, c: nat)
    requires c in s.clients
  {
    var client := s.clients[c];
    client.local.Swapping? ==>
      var k := IPInfoKey(client.local.read);
      && client.mark <= |s.writes|
      && (forall n :: client.mark <= n < |s.writes| ==> s.writes[n].client != c)
      && (Untouched(s.writes, k, client.mark) ==>
          k in s.world.kv && s.world.kv[k] == Entry(client.local.read, client.local.version))
  }

  predicate Retries(op: Op) {
    op.Borrow? || op.Return?
  }

  predicate WindowsSound(writes: seq<Write>, c: nat, client: Client) {
    && (client.windows != [] ==> !client.op.AllocFromPools?)
    && (forall i :: 0 <= i < |client.windows| ==>
          && client.windows[i].0 <= client.windows[i].1 <= |writes|
          && ForeignWrite(writes, c, OpKey(client.op), client.windows[i]))
    && (forall i :: 0 < i < |client.windows| ==> client.windows[i - 1].1 <= client.windows[i].0)
    && match client.local
       case Getting(n) => |client.windows| == n < RETRY_MAX_COUNT
       case Swapping(n, _, _) =>
         |client.windows| == n < RETRY_MAX_COUNT && (n > 0 ==> client.windows[n - 1].1 <= client.mark)
       case Done(o) => o == Fail(ErrMaxRetryCountExceeded) ==> Retries(client.op) && |client.windows| == RETRY_MAX_COUNT
       case Freeing(_, o) => o != Fail(ErrMaxRetryCountExceeded)
       case _ => true
  }

  predicate Watched(s: State) {
    && (forall c :: c in s.clients ==> SnapshotSound(s, c))
    && (forall c :: c in s.clients ==> WindowsSound(s.writes, c, s.clients[c]))
  }

  /** A step writes at most one key, and says so. */
  predicate StepWrites(s: State, s': State, c: nat) {
    (s'.writes == s.writes && s'.world.kv == s.world.kv)
    || (|s'.writes| == |s.writes| + 1 && s'.writes[..|s.writes|] == s.writes && s'.writes[|s.writes|].client == c
        && var k := s'.writes[|s.writes|].key;
           && (forall j :: j in s.world.kv && j != k ==> j in s'.world.kv && s'.world.kv[j] == s.world.kv[j])
           && (forall j :: j in s'.world.kv && j != k ==> j in s.world.kv))
  }

  lemma ActWrites(s: State, c: nat, fails: bool, offer: Option<IP>)
    requires Owned(s) && CanAct(s, c)
    ensures StepWrites(s, Next(s, Act(c, fails, offer)), c)
  {
    hide Next, Exec, Advance, Answered, Modify, IPKey, RecordsSound, HoldersSound, OneRecordEach;
    match s.clients[c].local {
      case Putting(_) => PutShape(s, c, fails, offer);
      case Swapping(_, _, _) =>
        assert ClientSound(s.clients[c]);
        if Answered(s, c, fails, offer) == FromStore(Swapped) {
          CommitShape(s, c, fails, offer);
        } else {
          LostShape(s, c, fails, offer);
        }
      case Deleting(_) => DeleteShape(s, c, fails, offer);
      case Getting(_) => GetShape(s, c, fails, offer);
      case _ => CalicoShape(s, c, fails, offer);
    }
  }

  /** The other clients' snapshots and windows survive a step. */
  lemma BystandersWatched(s: State, s': State, c: nat, d: nat)
    requires Watched(s) && StepWrites(s, s', c)
    requires d != c && d in s.clients && d in s'.clients && s'.clients[d] == s.clients[d]
    ensures SnapshotSound(s', d) && WindowsSound(s'.writes, d, s'.clients[d])
  {
    assert SnapshotSound(s, d);
    WindowsGrow(s.writes, s'.writes, d, s.clients[d]);
    assert forall n :: 0 <= n < |s.writes| ==> s'.writes[n] == s.writes[n];
    if s.clients[d].local.Swapping? {
      var k, m := IPInfoKey(s.clients[d].local.read), s.clients[d].mark;
      if Untouched(s'.writes, k, m) {
        forall n | m <= n < |s.writes| ensures s.writes[n].key != k {
          assert s'.writes[n].key != k;
        }
        if |s'.writes| > |s.writes| {
          assert s'.writes[|s.writes|].key != k;
        }
      }
    }
  }

  lemma WindowsGrow(writes: seq<Write>, writes': seq<Write>, d: nat, client: Client)
    requires WindowsSound(writes, d, client)
    requires |writes| <= |writes'| && writes'[..|writes|] == writes
    ensures WindowsSound(writes', d, client)
  {
    forall i | 0 <= i < |client.windows|
      ensures ForeignWrite(writes', d, OpKey(client.op), client.windows[i])
    {
      var w := client.windows[i];
      var n :| w.0 <= n < w.1 && n < |writes| && writes[n].key == OpKey(client.op) && writes[n].client != d;
      assert writes'[n] == writes[n];
    }
  }

  /** No store or Calico call ever reports ErrMaxRetryCountExceeded itself. */
  lemma AnswersNotMaxRetry(w: World, call: Call, fails: bool, offer: Option<IP>)
    ensures HonestAnswer(Exec(w, call, fails, offer).1)
  {
  }

  lemma GetNeverGivesUp(op: Op, local: Local, answer: Answer)
    requires WellFormed(op, local) && local.Getting? && HonestAnswer(answer)
    ensures Advance(op, local, answer) != Done(Fail(ErrMaxRetryCountExceeded))
  {
  }

  lemma GetWatched(s: State, c: nat, fails: bool, offer: Option<IP>)
    requires Owned(s) && Watched(s) && CanAct(s, c) && s.clients[c].local.Getting?
    ensures var s' := Next(s, Act(c, fails, offer));
      SnapshotSound(s', c) && WindowsSound(s'.writes, c, s'.clients[c])
  {
    hide Next;
    var s' := Next(s, Act(c, fails, offer));
    assert WindowsSound(s.writes, c, s.clients[c]);
    AnswersNotMaxRetry(s.world, NextCall(s, c), fails, offer);
    ActShape(s, c, fails, offer);
    GetShape(s, c, fails, offer);
    GetNeverGivesUp(s.clients[c].op, s.clients[c].local, Answered(s, c, fails, offer));
    var k := NextCall(s, c).key;
    if k in s.world.kv {
      assert RecordSound(s, k);
    }
  }

  /** A lost swap closes a window in which somebody else wrote the key. */
  lemma LossWitnessed(s: State, c: nat, fails: bool, offer: Option<IP>)
    requires Owned(s) && Watched(s) && CanAct(s, c) && s.clients[c].local.Swapping?
    requires IsLost(Answered(s, c, fails, offer))
    ensures ForeignWrite(s.writes, c, OpKey(s.clients[c].op), (s.clients[c].mark, |s.writes|))
    ensures s.clients[c].mark <= |s.writes|
  {
    var client := s.clients[c];
    var k := IPInfoKey(client.local.read);
    assert SnapshotSound(s, c) && ClientSound(client);
    assert !Untouched(s.writes, k, client.mark);
    var n :| client.mark <= n < |s.writes| && s.writes[n].key == k;
    assert k == OpKey(client.op);
  }

  predicate IsLost(answer: Answer) {
    answer.FromStore? && answer.reply.Lost?
  }

  predicate HonestAnswer(answer: Answer) {
    && (answer.Refused? ==> answer.error != ErrMaxRetryCountExceeded)
    && (answer.FromStore? && answer.reply.Err? ==> answer.reply.error != ErrMaxRetryCountExceeded)
  }

  /** Only a lost swap leads to another attempt or to giving up. */
  lemma AdvanceNeverGivesUp(op: Op, local: Local, answer: Answer)
    requires WellFormed(op, local) && !local.Getting? && !local.Done? && HonestAnswer(answer)
    requires local.Swapping? ==> !IsLost(answer)
    requires local.Freeing? ==> local.outcome != Fail(ErrMaxRetryCountExceeded)
    ensures var local' := Advance(op, local, answer);
      && !local'.Getting? && !local'.Swapping?
      && (local'.Done? || local'.Freeing? ==> local'.outcome != Fail(ErrMaxRetryCountExceeded))
  {
  }

  lemma HistoryKept(s: State, c: nat, fails: bool, offer: Option<IP>)
    requires CanAct(s, c) && !s.clients[c].local.Getting? && !IsLost(Answered(s, c, fails, offer))
    ensures Next(s, Act(c, fails, offer)).clients[c].windows == s.clients[c].windows
  {
  }

  lemma OtherWatched(s: State, c: nat, fails: bool, offer: Option<IP>)
    requires Owned(s) && Watched(s) && CanAct(s, c) && !s.clients[c].local.Getting?
    requires !IsLost(Answered(s, c, fails, offer))
    ensures var s' := Next(s, Act(c, fails, offer));
      SnapshotSound(s', c) && WindowsSound(s'.writes, c, s'.clients[c])
  {
    hide Next, Exec, Advance, NextCall, Owned, ForeignWrite;
    var s' := Next(s, Act(c, fails, offer));
    var client := s.clients[c];
    assert WindowsSound(s.writes, c, client);
    AnswersNotMaxRetry(s.world, NextCall(s, c), fails, offer);
    ActWrites(s, c, fails, offer);
    ActShape(s, c, fails, offer);
    HistoryKept(s, c, fails, offer);
    AdvanceNeverGivesUp(client.op, client.local, Answered(s, c, fails, offer));
    WindowsGrow(s.writes, s'.writes, c, client);
  }

  lemma OnlySwapsAreLost(s: State, c: nat, fails: bool, offer: Option<IP>)
    requires CanAct(s, c) && IsLost(Answered(s, c, fails, offer))
    ensures s.clients[c].local.Swapping?
  {
  }

  lemma LossHistory(s: State, c: nat, fails: bool, offer: Option<IP>)
    requires CanAct(s, c) && s.clients[c].local.Swapping? && IsLost(Answered(s, c, fails, offer))
    ensures var client, client' := s.clients[c], Next(s, Act(c, fails, offer)).clients[c];
      && client'.windows == client.windows + [(client.mark, |s.writes|)]
      && client'.op == client.op
      && !client'.local.Swapping?
      && (client'.local.Getting? ==> client'.local.attempt == client.local.attempt + 1 < RETRY_MAX_COUNT)
      && (client'.local == Done(Fail(ErrMaxRetryCountExceeded)) ==>
          Retries(client.op) && client.local.attempt + 1 >= RETRY_MAX_COUNT)
      && (client'.local.Getting? || client'.local.Done? || client'.local.Deleting?)
  {
  }

  lemma WindowsAppend(writes: seq<Write>, c: nat, client: Client, client': Client)
    requires WindowsSound(writes, c, client) && client.local.Swapping? && client.mark <= |writes|
    requires !client.op.AllocFromPools? && ForeignWrite(writes, c, OpKey(client.op), (client.mark, |writes|))
    requires client'.windows == client.windows + [(client.mark, |writes|)] && client'.op == client.op
    requires !client'.local.Swapping? && (client'.local.Getting? || client'.local.Done? || client'.local.Deleting?)
    requires client'.local.Getting? ==> client'.local.attempt == client.local.attempt + 1 < RETRY_MAX_COUNT
    requires client'.local == Done(Fail(ErrMaxRetryCountExceeded)) ==>
        Retries(client.op) && client.local.attempt + 1 >= RETRY_MAX_COUNT
    ensures WindowsSound(writes, c, client')
  {
  }

  lemma LossWatched(s: State, c: nat, fails: bool, offer: Option<IP>)
    requires Owned(s) && Watched(s) && CanAct(s, c) && s.clients[c].local.Swapping?
    requires IsLost(Answered(s, c, fails, offer))
    ensures var s' := Next(s, Act(c, fails, offer));
      SnapshotSound(s', c) && WindowsSound(s'.writes, c, s'.clients[c])
  {
    hide Next;
    assert ClientSound(s.clients[c]);
    LossWitnessed(s, c, fails, offer);
    ActShape(s, c, fails, offer);
    LostShape(s, c, fails, offer);
    LossHistory(s, c, fails, offer);
    WindowsAppend(s.writes, c, s.clients[c], Next(s, Act(c, fails, offer)).clients[c]);
  }

  lemma ActKeepsWatched(s: State, c: nat, fails: bool, offer: Option<IP>)
    requires Owned(s) && Watched(s) && CanAct(s, c)
    ensures Watched(Next(s, Act(c, fails, offer)))
  {
    hide Next;
    var s' := Next(s, Act(c, fails, offer));
    ActShape(s, c, fails, offer);
    ActWrites(s, c, fails, offer);
    forall d | d in s'.clients && d != c ensures SnapshotSound(s', d) && WindowsSound(s'.writes, d, s'.clients[d]) {
      BystandersWatched(s, s', c, d);
    }
    if s.clients[c].local.Getting? {
      GetWatched(s, c, fails, offer);
    } else if IsLost(Answered(s, c, fails, offer)) {
      OnlySwapsAreLost(s, c, fails, offer);
      LossWatched(s, c, fails, offer);
    } else {
      OtherWatched(s, c, fails, offer);
    }
  }

  lemma {:induction false} RunKeepsWatched(taken: set<string>, events: seq<Event>)
    requires ValidEvents(events)
    ensures Watched(Run(Initial(taken), events))
    decreases |events|
  {
    if events != [] {
      var front := events[..|events| - 1];
      var s, e := Run(Initial(taken), front), events[|events| - 1];
      RunKeepsWatched(taken, front);
      RunKeepsOwned(taken, front);
      match e {
        case Act(c, fails, offer) =>
          if CanAct(s, c) {
            ActKeepsWatched(s, c, fails, offer);
          }
        case Begin(c, op) =>
          var s' := Next(s, e);
          forall d | d in s'.clients ensures SnapshotSound(s', d) && WindowsSound(s'.writes, d, s'.clients[d]) {
            assert d in s.clients ==> SnapshotSound(s, d) && WindowsSound(s.writes, d, s.clients[d]);
          }
      }
    }
  }

  /**
   A client that gave up with ErrMaxRetryCountExceeded was running Borrow or Return, and its three
   Get-to-CAS windows, one after the other, each hold a write of its key by somebody else.
   */
  lemma GivingUpIsForced(s: State, c: nat)
    requires Reachable(s) && c in s.clients && s.clients[c].local == Done(Fail(ErrMaxRetryCountExceeded))
    ensures var op, w := s.clients[c].op, s.clients[c].windows;
      && (op.Borrow? || op.Return?)
      && |w| == 3 && w[0].1 <= w[1].0 && w[1].1 <= w[2].0 && w[2].1 <= |s.writes|
      && ForeignWrite(s.writes, c, OpKey(op), w[0])
      && ForeignWrite(s.writes, c, OpKey(op), w[1])
      && ForeignWrite(s.writes, c, OpKey(op), w[2])
  {
    var taken, events :| ValidEvents(events) && s == Run(Initial(taken), events);
    RunKeepsWatched(taken, events);
    assert WindowsSound(s.writes, c, s.clients[c]);
  }
}
