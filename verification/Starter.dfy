/**
 Starting services and waiting for the first error. One goroutine per service sends the service's
 result on an auto-closing channel, under the channel's mutex and with no buffer; the main goroutine selects
 between a signal and the channel, cancels, and joins. Every interleaving is a sequence of steps.
 */
module Starter {
  import opened Types
  import opened FiniteSets

  /** What start can report: the error of serving, of disposing, or the first wrapped by the second. */
  datatype Err = Serving(cause: nat) | Disposing(cause: nat) | Wrapped(serving: nat, disposing: nat)

  /** What each service will return in the end, and whether it returns without being cancelled. */
  datatype Config = Config(results: seq<Option<Err>>, eager: seq<bool>)

  datatype Proc = Running | Waiting | Locked | Sending | Sent | Unlocked | Finished

  datatype Main = Selecting | Receiving | Joining(err: Option<Err>) | Returned(err: Option<Err>)

  /** `cnt`, `closed` and `mutex` are the channel's fields; `closes`, `sent` and `lockOrder` record what happened. */
  datatype State = State(
    procs: seq<Proc>,
    main: Main,
    signalled: bool,
    cancelled: bool,
    mutex: Option<nat>,
    cnt: nat,
    closed: bool,
    closes: nat,
    sent: seq<Err>,
    lockOrder: seq<nat>)

  datatype Step =
    | Signal
    | TakeSignal
    | ReceiveClosed
    | Join
    | Return(i: nat)
    | Lock(i: nat)
    | Decide(i: nat)
    | Handoff(i: nat)
    | Close(i: nat)
    | Release(i: nat)

  predicate Listening(m: Main) {
    m.Selecting? || m.Receiving?
  }

  predicate Enabled(cfg: Config, s: State, step: Step) {
    match step
    case Signal => !s.signalled
    case TakeSignal => s.main.Selecting? && s.signalled
    case ReceiveClosed => Listening(s.main) && s.closes > 0
    case Join => s.main.Joining? && forall i :: 0 <= i < |s.procs| ==> s.procs[i] == Finished
    case Return(i) =>
      i < |s.procs| && s.procs[i] == Running && (s.cancelled || (i < |cfg.eager| && cfg.eager[i]))
    case Lock(i) => i < |s.procs| && s.procs[i] == Waiting && s.mutex == None
    case Decide(i) => i < |s.procs| && s.procs[i] == Locked
    case Handoff(i) => i < |s.procs| && s.procs[i] == Sending && Listening(s.main)
    case Close(i) => i < |s.procs| && s.procs[i] == Sent
    case Release(i) => i < |s.procs| && s.procs[i] == Unlocked
  }

  /** Send, once it holds the mutex: give up if closed, send an error, or count a nil and close after the last. */
  function Decided(cfg: Config, s: State, i: nat): State
    requires i < |s.procs| && i < |cfg.results|
  {
    if s.closed then s.(procs := s.procs[i := Unlocked], mutex := None)
    else if cfg.results[i].Some? then s.(procs := s.procs[i := Sending])
    else if s.cnt + 1 >= |cfg.results| then
      s.(procs := s.procs[i := Unlocked], mutex := None, cnt := s.cnt + 1, closed := true, closes := s.closes + 1)
    else s.(procs := s.procs[i := Unlocked], mutex := None, cnt := s.cnt + 1)
  }

  function Next(cfg: Config, s: State, step: Step): State
    requires |s.procs| == |cfg.results|
    requires Enabled(cfg, s, step)
  {
    match step
    case Signal => s.(signalled := true)
    case TakeSignal => s.(main := Receiving, cancelled := true)
    case ReceiveClosed => s.(main := Joining(None), cancelled := true)
    case Join => s.(main := Returned(s.main.err))
    case Return(i) => s.(procs := s.procs[i := Waiting])
    case Lock(i) => s.(procs := s.procs[i := Locked], mutex := Some(i), lockOrder := s.lockOrder + [i])
    case Decide(i) => Decided(cfg, s, i)
    case Handoff(i) =>
      var err := if cfg.results[i].Some? then [cfg.results[i].value] else [];
      s.(procs := s.procs[i := Sent], main := Joining(cfg.results[i]), cancelled := true, sent := s.sent + err)
    case Close(i) => s.(procs := s.procs[i := Unlocked], mutex := None, closed := true, closes := s.closes + 1)
    case Release(i) => s.(procs := s.procs[i := Finished])
  }

  function Initial(cfg: Config): State {
    State(seq(|cfg.results|, i => Running), Selecting, false, false, None, 0, false, 0, [], [])
  }

  /** A run takes one enabled step after the other. */
  predicate IsRun(cfg: Config, states: seq<State>, steps: seq<Step>) {
    && |states| == |steps| + 1
    && states[0] == Initial(cfg)
    && forall k :: 0 <= k < |steps| ==>
         && |states[k].procs| == |cfg.results|
         && Enabled(cfg, states[k], steps[k])
         && states[k + 1] == Next(cfg, states[k], steps[k])
  }

  /** The first error in the given order, or none. */
  function FirstError(cfg: Config, order: seq<nat>): Option<Err>
    requires InRange(order, |cfg.results|)
  {
    if order == [] then None
    else if cfg.results[order[0]].Some? then cfg.results[order[0]]
    else FirstError(cfg, order[1..])
  }

  predicate Holds(p: Proc) {
    p.Locked? || p.Sending? || p.Sent?
  }

  predicate HasLocked(p: Proc) {
    Holds(p) || p.Unlocked? || p.Finished?
  }

  /** Those whose Send has passed its decision: all that have locked, but for a current holder. */
  function Passed(s: State): seq<nat> {
    if s.mutex.Some? && s.lockOrder != [] then s.lockOrder[..|s.lockOrder| - 1] else s.lockOrder
  }

  predicate ProcSound(s: State, i: nat)
    requires i < |s.procs|
  {
    (HasLocked(s.procs[i]) <==> i in s.lockOrder) && (Holds(s.procs[i]) <==> s.mutex == Some(i))
  }

  predicate InRange(order: seq<nat>, n: nat) {
    forall k :: 0 <= k < |order| ==> order[k] < n
  }

  predicate AllNil(cfg: Config) {
    forall i :: 0 <= i < |cfg.results| ==> cfg.results[i] == None
  }

  predicate AllIn(order: seq<nat>, n: nat) {
    forall i :: 0 <= i < n ==> i in order
  }

  predicate Bookkeeping(cfg: Config, s: State) {
    && |s.procs| == |cfg.results|
    && InRange(s.lockOrder, |cfg.results|)
    && Distinct(s.lockOrder)
    && (forall i :: 0 <= i < |s.procs| ==> ProcSound(s, i))
    && (s.mutex.Some? ==>
        s.lockOrder != [] && s.mutex.value == s.lockOrder[|s.lockOrder| - 1] && s.mutex.value < |s.procs|)
  }

  /** The proc in the critical section, in this phase of it. */
  predicate HolderIs(s: State, p: Proc) {
    s.mutex.Some? && s.mutex.value < |s.procs| && s.procs[s.mutex.value] == p
  }

  predicate ChannelState(cfg: Config, s: State)
    requires Bookkeeping(cfg, s)
  {
    && (s.closed <==> s.closes == 1) && s.closes <= 1
    && |s.sent| <= 1
    && (!s.closed ==>
        && s.cnt == |Passed(s)| < |cfg.results|
        && FirstError(cfg, Passed(s)) == None
        && (s.sent != [] <==> HolderIs(s, Sent)))
    && (HolderIs(s, Sending) || HolderIs(s, Sent) ==>
        !s.closed && cfg.results[s.mutex.value].Some? && FirstError(cfg, s.lockOrder) == cfg.results[s.mutex.value])
    && (s.sent != [] ==> FirstError(cfg, s.lockOrder) == Some(s.sent[0]))
    && (s.closed && s.sent == [] ==> s.cnt == |cfg.results| && AllNil(cfg) && AllIn(s.lockOrder, |cfg.results|))
  }

  predicate MainState(s: State) {
    && (Listening(s.main) ==> s.sent == [])
    && (!s.main.Selecting? ==> s.cancelled)
    && (s.main.Joining? || s.main.Returned? ==>
        if s.sent != [] then s.main.err == Some(s.sent[0]) else s.closed && s.main.err == None)
    && (s.main.Returned? ==> forall i :: 0 <= i < |s.procs| ==> s.procs[i] == Finished)
  }

  predicate Inv(cfg: Config, s: State) {
    Bookkeeping(cfg, s) && ChannelState(cfg, s) && MainState(s)
  }

  lemma {:induction false} FirstErrorSnoc(cfg: Config, order: seq<nat>, i: nat)
    requires i < |cfg.results| && InRange(order, |cfg.results|)
    ensures InRange(order + [i], |cfg.results|)
    ensures FirstError(cfg, order + [i]) ==
      if FirstError(cfg, order).Some? then FirstError(cfg, order) else cfg.results[i]
  {
    if order == [] {
      assert (order + [i])[1..] == [];
    } else {
      assert (order + [i])[1..] == order[1..] + [i];
      FirstErrorSnoc(cfg, order[1..], i);
    }
  }

  lemma {:induction false} NoErrorMeansNil(cfg: Config, order: seq<nat>)
    requires InRange(order, |cfg.results|)
    requires FirstError(cfg, order) == None
    ensures forall k :: 0 <= k < |order| ==> cfg.results[order[k]] == None
  {
    if order != [] {
      NoErrorMeansNil(cfg, order[1..]);
      assert forall k :: 0 < k < |order| ==> order[k] == order[1..][k - 1];
    }
  }

  lemma {:induction false} AllNilNoError(cfg: Config, order: seq<nat>)
    requires InRange(order, |cfg.results|) && AllNil(cfg)
    ensures FirstError(cfg, order) == None
  {
    if order != [] {
      AllNilNoError(cfg, order[1..]);
    }
  }

  /** Distinct indices below n: at most n, and all of them if there are n. */
  lemma DistinctIndices(order: seq<nat>, n: nat)
    requires InRange(order, n) && Distinct(order)
    ensures |order| <= n
    ensures |order| == n ==> AllIn(order, n)
  {
    DistinctSize(order);
    SubsetSize(Elems(order), Below(n));
    assert |order| == n ==> Elems(order) == Below(n);
    forall i | 0 <= i < n && |order| == n ensures i in order {
      assert i in Below(n);
    }
  }

  lemma LockKeeps(cfg: Config, s: State, i: nat)
    requires Inv(cfg, s) && Enabled(cfg, s, Lock(i))
    ensures Inv(cfg, Next(cfg, s, Lock(i)))
  {
    hide FirstError, ChannelState;
    var s' := Next(cfg, s, Lock(i));
    assert ProcSound(s, i);
    forall j | 0 <= j < |s.procs| ensures ProcSound(s', j) {
      assert ProcSound(s, j);
    }
    assert Passed(s') == s.lockOrder == Passed(s);
    LockKeepsChannel(cfg, s, i, s');
  }

  lemma LockKeepsChannel(cfg: Config, s: State, i: nat, s': State)
    requires Bookkeeping(cfg, s) && Bookkeeping(cfg, s') && ChannelState(cfg, s) && i < |s.procs| && s.mutex == None
    requires s' == s.(procs := s.procs[i := Locked], mutex := Some(i), lockOrder := s.lockOrder + [i])
    requires Passed(s') == s.lockOrder == Passed(s)
    ensures ChannelState(cfg, s')
  {
    hide FirstError, ProcSound;
    FirstErrorSnoc(cfg, s.lockOrder, i);
  }

  /** Leaving the critical section. */
  lemma LetGo(cfg: Config, s: State, i: nat, s': State)
    requires Bookkeeping(cfg, s) && i < |s.procs| && Holds(s.procs[i])
    requires s'.procs == s.procs[i := Unlocked] && s'.mutex == None && s'.lockOrder == s.lockOrder
    ensures Bookkeeping(cfg, s') && Passed(s') == s.lockOrder && s.lockOrder == Passed(s) + [i] && s.mutex == Some(i)
    ensures InRange(Passed(s), |cfg.results|)
  {
    assert ProcSound(s, i);
    forall j | 0 <= j < |s.procs| ensures ProcSound(s', j) {
      assert ProcSound(s, j);
    }
  }

  /** The holder moves on inside the critical section. */
  lemma HoldOn(cfg: Config, s: State, i: nat, s': State)
    requires Bookkeeping(cfg, s) && i < |s.procs| && Holds(s.procs[i])
    requires |s'.procs| == |s.procs| && Holds(s'.procs[i]) && s'.procs == s.procs[i := s'.procs[i]]
    requires s'.mutex == s.mutex && s'.lockOrder == s.lockOrder
    ensures Bookkeeping(cfg, s') && Passed(s') == Passed(s) && s.mutex == Some(i)
  {
    assert ProcSound(s, i);
    forall j | 0 <= j < |s.procs| ensures ProcSound(s', j) {
      assert ProcSound(s, j);
    }
  }

  lemma DecideLast(cfg: Config, s: State, i: nat)
    requires Inv(cfg, s) && Enabled(cfg, s, Decide(i))
    requires !s.closed && cfg.results[i] == None && s.cnt + 1 >= |cfg.results|
    ensures s.cnt + 1 == |cfg.results| && s.sent == []
    ensures AllIn(s.lockOrder, |cfg.results|) && AllNil(cfg)
  {
    LetGo(cfg, s, i, s.(procs := s.procs[i := Unlocked], mutex := None));
    FirstErrorSnoc(cfg, Passed(s), i);
    DistinctIndices(s.lockOrder, |cfg.results|);
    NoErrorMeansNil(cfg, s.lockOrder);
    forall j | 0 <= j < |cfg.results| ensures cfg.results[j] == None {
      assert j in s.lockOrder;
    }
  }

  lemma DecideErrorKeeps(cfg: Config, s: State, i: nat)
    requires Inv(cfg, s) && Enabled(cfg, s, Decide(i)) && !s.closed && cfg.results[i].Some?
    ensures Inv(cfg, Next(cfg, s, Decide(i)))
  {
    hide FirstError, ChannelState;
    var s' := Next(cfg, s, Decide(i));
    LetGo(cfg, s, i, s.(procs := s.procs[i := Unlocked], mutex := None));
    HoldOn(cfg, s, i, s');
    DecideErrorKeepsChannel(cfg, s, i, s');
  }

  lemma DecideErrorKeepsChannel(cfg: Config, s: State, i: nat, s': State)
    requires Bookkeeping(cfg, s) && Bookkeeping(cfg, s') && ChannelState(cfg, s) && !s.closed
    requires i < |s.procs| && s.procs[i] == Locked && s.mutex == Some(i) && cfg.results[i].Some?
    requires s' == s.(procs := s.procs[i := Sending])
    requires Passed(s') == Passed(s) && InRange(Passed(s), |cfg.results|) && s.lockOrder == Passed(s) + [i]
    ensures ChannelState(cfg, s')
  {
    hide FirstError, ProcSound, Distinct, Holds, Passed;
    FirstErrorSnoc(cfg, Passed(s), i);
  }

  lemma DecideClosedKeeps(cfg: Config, s: State, i: nat)
    requires Inv(cfg, s) && Enabled(cfg, s, Decide(i)) && s.closed
    ensures Inv(cfg, Next(cfg, s, Decide(i)))
  {
    hide FirstError;
    LetGo(cfg, s, i, Next(cfg, s, Decide(i)));
  }

  lemma DecideNilKeeps(cfg: Config, s: State, i: nat)
    requires Inv(cfg, s) && Enabled(cfg, s, Decide(i)) && !s.closed && cfg.results[i] == None
    ensures Inv(cfg, Next(cfg, s, Decide(i)))
  {
    hide FirstError;
    var s' := Next(cfg, s, Decide(i));
    LetGo(cfg, s, i, s');
    FirstErrorSnoc(cfg, Passed(s), i);
    assert HolderIs(s, Locked);
    if s.cnt + 1 >= |cfg.results| {
      DecideLast(cfg, s, i);
    }
  }

  lemma CloseKeeps(cfg: Config, s: State, i: nat)
    requires Inv(cfg, s) && Enabled(cfg, s, Close(i))
    ensures Inv(cfg, Next(cfg, s, Close(i)))
  {
    hide FirstError;
    LetGo(cfg, s, i, Next(cfg, s, Close(i)));
  }

  lemma HandoffKeeps(cfg: Config, s: State, i: nat)
    requires Inv(cfg, s) && Enabled(cfg, s, Handoff(i))
    ensures Inv(cfg, Next(cfg, s, Handoff(i)))
  {
    hide FirstError;
    HoldOn(cfg, s, i, Next(cfg, s, Handoff(i)));
  }

  lemma IdleMoveKeeps(cfg: Config, s: State, step: Step)
    requires Inv(cfg, s) && Enabled(cfg, s, step) && (step.Return? || step.Release?)
    ensures Inv(cfg, Next(cfg, s, step))
  {
    hide FirstError, ChannelState;
    var s' := Next(cfg, s, step);
    assert ProcSound(s, step.i);
    forall j | 0 <= j < |s.procs| ensures ProcSound(s', j) {
      assert ProcSound(s, j);
    }
    IdleMoveKeepsChannel(cfg, s, step.i, s');
  }

  lemma IdleMoveKeepsChannel(cfg: Config, s: State, i: nat, s': State)
    requires Bookkeeping(cfg, s) && Bookkeeping(cfg, s') && ChannelState(cfg, s)
    requires i < |s.procs| == |s'.procs| && !Holds(s.procs[i]) && !Holds(s'.procs[i])
    requires s' == s.(procs := s.procs[i := s'.procs[i]])
    ensures ChannelState(cfg, s')
  {
    hide FirstError, ProcSound, Distinct;
  }

  lemma MainMoveKeeps(cfg: Config, s: State, step: Step)
    requires Inv(cfg, s) && Enabled(cfg, s, step)
    requires step.Signal? || step.TakeSignal? || step.ReceiveClosed? || step.Join?
    ensures Inv(cfg, Next(cfg, s, step))
  {
    hide FirstError;
    var s' := Next(cfg, s, step);
    forall j | 0 <= j < |s.procs| ensures ProcSound(s', j) {
      assert ProcSound(s, j);
    }
  }

  lemma StepKeeps(cfg: Config, s: State, step: Step)
    requires Inv(cfg, s) && Enabled(cfg, s, step)
    ensures Inv(cfg, Next(cfg, s, step))
  {
    match step
    case Lock(i) => LockKeeps(cfg, s, i);
    case Decide(i) =>
      if s.closed {
        DecideClosedKeeps(cfg, s, i);
      } else if cfg.results[i].Some? {
        DecideErrorKeeps(cfg, s, i);
      } else {
        DecideNilKeeps(cfg, s, i);
      }
    case Close(i) => CloseKeeps(cfg, s, i);
    case Handoff(i) => HandoffKeeps(cfg, s, i);
    case Return(_) => IdleMoveKeeps(cfg, s, step);
    case Release(_) => IdleMoveKeeps(cfg, s, step);
    case _ => MainMoveKeeps(cfg, s, step);
  }

  lemma {:induction false} RunKeeps(cfg: Config, states: seq<State>, steps: seq<Step>, k: nat)
    requires IsRun(cfg, states, steps) && |cfg.results| >= 1 && k < |states|
    ensures Inv(cfg, states[k])
  {
    if k > 0 {
      RunKeeps(cfg, states, steps, k - 1);
      StepKeeps(cfg, states[k - 1], steps[k - 1]);
    }
  }

  /**
   In every interleaving: the channel is closed at most once and carries at most one value, nobody sends on
   or closes a closed channel, and a start that has returned gives the first error in the order in which the
   services took the lock, or nil if every service returned nil - with all of them finished.
   */
  lemma StartReturnsFirstError(cfg: Config, states: seq<State>, steps: seq<Step>, k: nat)
    requires IsRun(cfg, states, steps) && |cfg.results| >= 1 && k < |states|
    ensures var s := states[k];
      && s.closes <= 1 && |s.sent| <= 1
      && (forall i :: 0 <= i < |s.procs| && (s.procs[i].Sending? || s.procs[i].Sent?) ==> s.closes == 0)
      && InRange(s.lockOrder, |cfg.results|) && Distinct(s.lockOrder)
      && (s.main.Returned? ==>
          && (forall i :: 0 <= i < |s.procs| ==> s.procs[i] == Finished)
          && AllIn(s.lockOrder, |cfg.results|)
          && s.closes == 1
          && s.main.err == FirstError(cfg, s.lockOrder)
          && (s.main.err == None <==> AllNil(cfg)))
  {
    hide FirstError;
    RunKeeps(cfg, states, steps, k);
    var s := states[k];
    forall i | 0 <= i < |s.procs| && (s.procs[i].Sending? || s.procs[i].Sent?) ensures s.closes == 0 {
      assert ProcSound(s, i);
    }
    if s.main.Returned? {
      assert forall i :: 0 <= i < |s.procs| ==> ProcSound(s, i);
      if AllNil(cfg) {
        AllNilNoError(cfg, s.lockOrder);
      }
      forall i | 0 <= i < |cfg.results| ensures i in s.lockOrder {
        assert ProcSound(s, i);
      }
    }
  }

  /** A signal has come, or something has reached the main goroutine, or an error has been returned. */
  predicate Awake(cfg: Config, s: State) {
    || s.signalled || !s.main.Selecting? || s.closed
    || exists i :: 0 <= i < |s.procs| && i < |cfg.results| && s.procs[i] != Running && cfg.results[i].Some?
  }

  /** Some step other than the arrival of a signal can be taken. */
  ghost predicate CanMove(cfg: Config, s: State) {
    exists step :: step != Signal && Enabled(cfg, s, step)
  }

  lemma HolderMoves(cfg: Config, s: State)
    requires Inv(cfg, s) && s.mutex.Some?
    ensures CanMove(cfg, s)
  {
    var i := s.mutex.value;
    assert ProcSound(s, i);
    assert s.procs[i].Locked? ==> Enabled(cfg, s, Decide(i));
    assert s.procs[i].Sent? ==> Enabled(cfg, s, Close(i));
    // a sender has a listener: were the main goroutine past its receive, the channel would be closed or the value sent
    assert s.procs[i].Sending? ==> !s.closed && s.sent == [] && Listening(s.main);
    assert s.procs[i].Sending? ==> Enabled(cfg, s, Handoff(i));
  }

  lemma ProcMoves(cfg: Config, s: State, i: nat)
    requires Inv(cfg, s) && i < |s.procs| && s.procs[i] != Finished
    requires s.procs[i] == Running ==> s.cancelled
    ensures CanMove(cfg, s)
  {
    if s.mutex.Some? {
      HolderMoves(cfg, s);
    } else {
      assert ProcSound(s, i);
      assert s.procs[i] == Running ==> Enabled(cfg, s, Return(i));
      assert s.procs[i] == Waiting ==> Enabled(cfg, s, Lock(i));
      assert s.procs[i] == Unlocked ==> Enabled(cfg, s, Release(i));
    }
  }

  /** When everybody has finished the channel has been closed. */
  lemma AllFinishedClosed(cfg: Config, s: State)
    requires Inv(cfg, s) && |cfg.results| >= 1
    requires forall i :: 0 <= i < |s.procs| ==> s.procs[i] == Finished
    ensures s.closed
  {
    forall i | 0 <= i < |cfg.results| ensures i in s.lockOrder && s.mutex != Some(i) {
      assert ProcSound(s, i);
    }
    SubsetSize(Below(|cfg.results|), Elems(s.lockOrder));
    DistinctSize(s.lockOrder);
  }

  /** No deadlock: with at least one service, every awake state that has not returned can move. */
  lemma NeverStuck(cfg: Config, states: seq<State>, steps: seq<Step>, k: nat)
    requires IsRun(cfg, states, steps) && |cfg.results| >= 1 && k < |states|
    requires Awake(cfg, states[k]) && !states[k].main.Returned?
    ensures CanMove(cfg, states[k])
  {
    RunKeeps(cfg, states, steps, k);
    var s := states[k];
    if Listening(s.main) && s.closed {
      assert Enabled(cfg, s, ReceiveClosed);
    } else if s.main.Selecting? && s.signalled {
      assert Enabled(cfg, s, TakeSignal);
    } else if s.main.Selecting? {
      var i :| 0 <= i < |s.procs| && i < |cfg.results| && s.procs[i] != Running && cfg.results[i].Some?;
      ErroredIsUnfinished(cfg, s, i);
      ProcMoves(cfg, s, i);
    } else if exists i :: 0 <= i < |s.procs| && s.procs[i] != Finished {
      var i :| 0 <= i < |s.procs| && s.procs[i] != Finished;
      ProcMoves(cfg, s, i);
    } else {
      AllFinishedClosed(cfg, s);
      assert Enabled(cfg, s, Join);
    }
  }

  /** While the channel is open a service with an error has not got past its Send. */
  lemma ErroredIsUnfinished(cfg: Config, s: State, i: nat)
    requires Inv(cfg, s) && !s.closed && i < |s.procs| && cfg.results[i].Some?
    ensures s.procs[i] != Finished && s.procs[i] != Unlocked
  {
    if s.procs[i] == Finished || s.procs[i] == Unlocked {
      assert ProcSound(s, i);
      var k :| 0 <= k < |s.lockOrder| && s.lockOrder[k] == i;
      assert k < |Passed(s)| && Passed(s)[k] == i;
      NoErrorMeansNil(cfg, Passed(s));
    }
  }

  /** Every step uses up some of this. */
  function Remaining(s: State): nat {
    Work(s.procs) + (if s.signalled then 0 else 1)
    + match s.main
      case Selecting => 3
      case Receiving => 2
      case Joining(_) => 1
      case Returned(_) => 0
  }

  function WorkOf(p: Proc): nat {
    match p
    case Running => 6
    case Waiting => 5
    case Locked => 4
    case Sending => 3
    case Sent => 2
    case Unlocked => 1
    case Finished => 0
  }

  function Work(procs: seq<Proc>): nat {
    if procs == [] then 0 else WorkOf(procs[0]) + Work(procs[1..])
  }

  lemma {:induction false} WorkUpdate(procs: seq<Proc>, i: nat, p: Proc)
    requires i < |procs|
    ensures Work(procs[i := p]) + WorkOf(procs[i]) == Work(procs) + WorkOf(p)
  {
    if i > 0 {
      assert procs[i := p][1..] == procs[1..][i - 1 := p];
      WorkUpdate(procs[1..], i - 1, p);
    } else {
      assert procs[i := p][1..] == procs[1..];
    }
  }

  lemma StepUses(cfg: Config, s: State, step: Step)
    requires |s.procs| == |cfg.results| && Enabled(cfg, s, step)
    ensures Remaining(Next(cfg, s, step)) < Remaining(s)
  {
    hide Work;
    match step
    case Return(i) => WorkUpdate(s.procs, i, Waiting);
    case Lock(i) => WorkUpdate(s.procs, i, Locked);
    case Decide(i) =>
      WorkUpdate(s.procs, i, Sending);
      WorkUpdate(s.procs, i, Unlocked);
    case Handoff(i) => WorkUpdate(s.procs, i, Sent);
    case Close(i) => WorkUpdate(s.procs, i, Unlocked);
    case Release(i) => WorkUpdate(s.procs, i, Finished);
    case _ =>
  }

  lemma {:induction false} RunUses(cfg: Config, states: seq<State>, steps: seq<Step>, k: nat)
    requires IsRun(cfg, states, steps) && k < |states|
    ensures k + Remaining(states[k]) <= Remaining(Initial(cfg))
  {
    hide Next, Enabled, Remaining;
    if k > 0 {
      RunUses(cfg, states, steps, k - 1);
      StepUses(cfg, states[k - 1], steps[k - 1]);
    }
  }

  lemma {:induction false} AllRunningWork(procs: seq<Proc>)
    requires forall i :: 0 <= i < |procs| ==> procs[i] == Running
    ensures Work(procs) == 6 * |procs|
  {
    if procs != [] {
      AllRunningWork(procs[1..]);
    }
  }

  /**
   Every run ends: with n services it has at most 6n + 4 steps, and where it cannot go on after a signal or an error,
   start has returned.
   */
  lemma EveryRunEnds(cfg: Config, states: seq<State>, steps: seq<Step>)
    requires IsRun(cfg, states, steps)
    ensures |steps| <= 6 * |cfg.results| + 4
    ensures |cfg.results| >= 1 && Awake(cfg, states[|steps|]) && !CanMove(cfg, states[|steps|]) ==>
        states[|steps|].main.Returned?
  {
    RunUses(cfg, states, steps, |steps|);
    AllRunningWork(Initial(cfg).procs);
    if |cfg.results| >= 1 && Awake(cfg, states[|steps|]) && !states[|steps|].main.Returned? {
      NeverStuck(cfg, states, steps, |steps|);
    }
  }

  /** Without any service nobody closes the channel: after a signal start waits on it for ever. */
  lemma NoServicesHang(cfg: Config)
    requires cfg.results == []
    ensures var s1 := Next(cfg, Initial(cfg), Signal);
      Enabled(cfg, s1, TakeSignal)
      && var s2 := Next(cfg, s1, TakeSignal);
         !s2.main.Returned? && forall step :: !Enabled(cfg, s2, step)
  {
  }

  // ----- the services behind the results

  /** What a service's Serve and Dispose return. */
  datatype Service = Service(serve: Option<nat>, dispose: Option<nat>)

  function ServeCause(r: Option<Err>): Option<nat> {
    match r
    case Some(Serving(e)) => Some(e)
    case Some(Wrapped(e, _)) => Some(e)
    case _ => None
  }

  function DisposeCause(r: Option<Err>): Option<nat> {
    match r
    case Some(Disposing(e)) => Some(e)
    case Some(Wrapped(_, e)) => Some(e)
    case _ => None
  }

  /** serveAndDispose: both of the service's own results can be read back from what it reports. */
  function ServeAndDispose(s: Service): (r: Option<Err>)
    ensures ServeCause(r) == s.serve && DisposeCause(r) == s.dispose
  {
    if s.dispose.Some? then
      if s.serve.Some? then Some(Wrapped(s.serve.value, s.dispose.value)) else Some(Disposing(s.dispose.value))
    else if s.serve.Some? then Some(Serving(s.serve.value))
    else None
  }

  function ConfigOf(services: seq<Service>, eager: seq<bool>): Config {
    Config(seq(|services|, i requires 0 <= i < |services| => ServeAndDispose(services[i])), eager)
  }

  lemma {:induction false} FirstErrorIsFirst(cfg: Config, order: seq<nat>) returns (n: nat)
    requires InRange(order, |cfg.results|) && FirstError(cfg, order).Some?
    ensures n < |order| && cfg.results[order[n]] == FirstError(cfg, order)
    ensures forall m :: 0 <= m < n ==> cfg.results[order[m]] == None
  {
    if cfg.results[order[0]].Some? {
      n := 0;
    } else {
      var m := FirstErrorIsFirst(cfg, order[1..]);
      n := m + 1;
      assert forall j :: 0 < j < |order| ==> order[j] == order[1..][j - 1];
    }
  }

  predicate Clean(s: Service) {
    s.serve == None && s.dispose == None
  }

  /**
   Service i, n-th to take the lock, is the one that start reports, with both of its errors, and those before it had
   none.
   */
  predicate ReportsOf(services: seq<Service>, s: State, n: nat, err: Option<Err>) {
    && n < |s.lockOrder| && InRange(s.lockOrder, |services|)
    && var service := services[s.lockOrder[n]];
    && !Clean(service) && ServeCause(err) == service.serve && DisposeCause(err) == service.dispose
    && forall m :: 0 <= m < n ==> Clean(services[s.lockOrder[m]])
  }

  /**
   In every interleaving: start returns nil only if every service served and was disposed of without error; otherwise it
   returns all that went wrong in the first service, in lock order, in which anything did.
   */
  lemma StartReportsServices(services: seq<Service>, eager: seq<bool>, states: seq<State>, steps: seq<Step>, s: State,
                             k: nat)
    requires IsRun(ConfigOf(services, eager), states, steps) && |services| >= 1
    requires k < |states| && s == states[k] && s.main.Returned?
    ensures s.main.err == None <==> forall i :: 0 <= i < |services| ==> Clean(services[i])
    ensures s.main.err.Some? ==> exists n :: ReportsOf(services, s, n, s.main.err)
  {
    hide IsRun, FirstError;
    var cfg := ConfigOf(services, eager);
    StartReturnsFirstError(cfg, states, steps, k);
    forall i | 0 <= i < |services| ensures cfg.results[i] == None <==> Clean(services[i]) {
      assert cfg.results[i] == ServeAndDispose(services[i]);
    }
    assert AllNil(cfg) <==> forall i :: 0 <= i < |services| ==> Clean(services[i]);
    if s.main.err.Some? {
      var n := FirstErrorIsFirst(cfg, s.lockOrder);
      assert cfg.results[s.lockOrder[n]] == ServeAndDispose(services[s.lockOrder[n]]);
      assert ReportsOf(services, s, n, s.main.err);
    }
  }
}
