/**
 The two levels meet: a client's finished operation in a run of many clients is what the same operation does
 alone, as the allocator's methods are proved to do it, under the interference the other clients' events made.
 */
module Refinement {
  import opened Types
  import opened Etcd
  import opened FixedIPOps
  import opened FixedIPAllocator
  import opened Protocol

  /** Two surroundings that look the same to every call still to come. */
  predicate SameFuture(a: Env, b: Env) {
    && Arrive(a.kv, a.turns) == Arrive(b.kv, b.turns)
    && var (now, turn, rest) := CalicoNow(a.taken, a.calico);
       var (now', turn', rest') := CalicoNow(b.taken, b.calico);
       now == now' && turn.fails == turn'.fails && turn.offer == turn'.offer && rest == rest'
  }

  lemma RespondSame(a: Env, b: Env, call: Call)
    requires SameFuture(a, b)
    ensures Respond(a, call).1 == Respond(b, call).1 && SameFuture(Respond(a, call).0, Respond(b, call).0)
  {
    hide Interfere;
  }

  lemma {:induction false} FinishSame(op: Op, local: Local, a: Env, b: Env)
    requires WellFormed(op, local) && SameFuture(a, b)
    ensures Finish(op, local, a).1 == Finish(op, local, b).1
    ensures SameFuture(Finish(op, local, a).0, Finish(op, local, b).0)
    decreases Remaining(local)
  {
    hide SameFuture, Respond, CallOf, Advance;
    if !local.Done? {
      var call := CallOf(op, local);
      RespondSame(a, b, call);
      var answer := Respond(a, call).1;
      AdvanceWellFormed(op, local, answer);
      AdvanceProgresses(op, local, answer);
      FinishSame(op, Advance(op, local, answer), Respond(a, call).0, Respond(b, call).0);
    }
  }

  // ----- the others' events as interference

  function Overwritten(kv: KV<IPInfo>, rival: Option<Rival<IPInfo>>): KV<IPInfo> {
    match rival
    case None => kv
    case Some(write) => Overwrite(kv, write)
  }

  /** The write a call makes of the store, if it makes one. */
  function RivalOf(w: World, call: Call, fails: bool, offer: Option<IP>): Option<Rival<IPInfo>> {
    if Exec(w, call, fails, offer).0.kv == w.kv then None
    else
      match call
      case SwapCall(k, _, v) => Some(RivalPut(k, v))
      case PutCall(k, v) => Some(RivalPut(k, v))
      case DeleteCall(k) => Some(RivalDelete(k))
      case _ => None
  }

  lemma CallIsRival(w: World, call: Call, fails: bool, offer: Option<IP>)
    ensures Exec(w, call, fails, offer).0.kv == Overwritten(w.kv, RivalOf(w, call, fails, offer))
  {
  }

  /** The write an event makes of the store. */
  function WriteOf(s: State, e: Event): Option<Rival<IPInfo>> {
    if e.Act? && CanAct(s, e.client) then RivalOf(s.world, NextCall(s, e.client), e.fails, e.offer) else None
  }

  /** A write made before the next store call. */
  function Earlier(rival: Option<Rival<IPInfo>>, turns: seq<Turn<IPInfo>>): seq<Turn<IPInfo>> {
    if rival == None then turns
    else if turns == [] then [Turn([rival.value], false)]
    else [Turn([rival.value] + turns[0].writes, turns[0].fails)] + turns[1..]
  }

  /** Addresses freed and claimed before the next Calico call. */
  function EarlierCalico(freed: set<string>, claimed: set<string>, calico: seq<CalicoTurn>): seq<CalicoTurn> {
    if freed == {} && claimed == {} then calico
    else if calico == [] then [CalicoTurn(freed, claimed, None, false)]
    else
      var turn := calico[0];
      [CalicoTurn(freed + turn.freed, claimed - turn.freed + turn.claimed, turn.offer, turn.fails)] + calico[1..]
  }

  lemma EarlierCalicoSame(taken: set<string>, taken': set<string>, calico: seq<CalicoTurn>)
    ensures var (now, turn, rest) := CalicoNow(taken, EarlierCalico(taken - taken', taken' - taken, calico));
      var (now', turn', rest') := CalicoNow(taken', calico);
      now == now' && turn.fails == turn'.fails && turn.offer == turn'.offer && rest == rest'
  {
    assert taken - (taken - taken') + (taken' - taken) == taken';
    if taken - taken' == {} && taken' - taken == {} {
      assert taken == taken';
    }
  }

  lemma EarlierSame(kv: KV<IPInfo>, rival: Option<Rival<IPInfo>>, turns: seq<Turn<IPInfo>>)
    ensures Arrive(kv, Earlier(rival, turns)) == Arrive(Overwritten(kv, rival), turns)
  {
    if rival.Some? {
      if turns == [] {
        assert Interfere(kv, [rival.value]) == Interfere(Overwrite(kv, rival.value), []);
      } else {
        assert ([rival.value] + turns[0].writes)[1..] == turns[0].writes;
      }
    }
  }

  /** What somebody else did before our next call is part of the interference that call meets. */
  lemma OthersAreInterference(kv: KV<IPInfo>, taken: set<string>, rival: Option<Rival<IPInfo>>, taken': set<string>,
                              turns: seq<Turn<IPInfo>>, calico: seq<CalicoTurn>)
    ensures SameFuture(Env(kv, Earlier(rival, turns), taken, EarlierCalico(taken - taken', taken' - taken, calico)),
                       Env(Overwritten(kv, rival), turns, taken', calico))
  {
    hide Arrive, CalicoNow, Earlier, EarlierCalico, Overwritten;
    EarlierSame(kv, rival, turns);
    EarlierCalicoSame(taken, taken', calico);
  }

  predicate ToCalico(call: Call) {
    call.AllocCall? || call.OfferCall? || call.FreeCall?
  }

  /** Our own call, answered as in the run. */
  lemma OwnCall(w: World, call: Call, fails: bool, offer: Option<IP>, turns: seq<Turn<IPInfo>>, calico: seq<CalicoTurn>)
    ensures var (w', answer) := Exec(w, call, fails, offer);
      && (ToCalico(call) ==>
          Respond(Env(w.kv, turns, w.taken, [CalicoTurn({}, {}, offer, fails)] + calico), call)
          == (Env(w'.kv, turns, w'.taken, calico), answer))
      && (!ToCalico(call) ==>
          Respond(Env(w.kv, [Turn([], fails)] + turns, w.taken, calico), call)
          == (Env(w'.kv, turns, w'.taken, calico), answer))
  {
    assert w.taken - {} + {} == w.taken;
  }

  // ----- a whole operation

  predicate NotRestarted(events: seq<Event>, c: nat) {
    forall i :: 0 <= i < |events| ==> !(events[i].Begin? && events[i].client == c)
  }

  lemma NextOfClient(s: State, e: Event, c: nat)
    requires c in s.clients && !(e.Begin? && e.client == c)
    ensures var s' := Next(s, e);
      && c in s'.clients && s'.clients[c].op == s.clients[c].op
      && (e.Act? && e.client == c && CanAct(s, c) ==>
          var (w, answer) := Exec(s.world, NextCall(s, c), e.fails, e.offer);
          s'.world == w && s'.clients[c].local == Advance(s.clients[c].op, s.clients[c].local, answer))
      && (e.client != c || !CanAct(s, c) ==> s'.clients[c].local == s.clients[c].local)
  {
  }

  lemma NextOfOthers(s: State, e: Event)
    ensures Next(s, e).world.kv == Overwritten(s.world.kv, WriteOf(s, e))
  {
    hide Exec, Overwritten, RivalOf;
    NoRival(s.world.kv);
    if e.Act? && CanAct(s, e.client) {
      CallIsRival(s.world, NextCall(s, e.client), e.fails, e.offer);
    }
  }

  lemma NoRival(kv: KV<IPInfo>)
    ensures Overwritten(kv, None) == kv
  {
  }

  /** The event is c's next call. */
  predicate OwnEvent(s: State, e: Event, c: nat) {
    e.Act? && e.client == c && CanAct(s, c)
  }

  datatype Interference = Interference(turns: seq<Turn<IPInfo>>, calico: seq<CalicoTurn>)

  /**
   The interference that the events of a run make for c: each of c's calls opens a turn with the way it
   fails, and each other event's effect on the store and on Calico goes into the turn of c's next call there.
   */
  function Made(s: State, events: seq<Event>, c: nat): Interference
    decreases |events|
  {
    if events == [] then Interference([], [])
    else
      var e, s' := events[0], Next(s, events[0]);
      var later := Made(s', events[1..], c);
      if OwnEvent(s, e, c) then
        if ToCalico(NextCall(s, c)) then later.(calico := [CalicoTurn({}, {}, e.offer, e.fails)] + later.calico)
        else later.(turns := [Turn([], e.fails)] + later.turns)
      else
        var (taken, taken') := (s.world.taken, s'.world.taken);
        Interference(Earlier(WriteOf(s, e), later.turns), EarlierCalico(taken - taken', taken' - taken, later.calico))
  }

  // ----- nothing but the others' doing is in it

  /** The writes of the events that are not c's, in the order of the run. */
  function OthersWrites(s: State, events: seq<Event>, c: nat): seq<Rival<IPInfo>>
    decreases |events|
  {
    if events == [] then []
    else
      var later := OthersWrites(Next(s, events[0]), events[1..], c);
      if OwnEvent(s, events[0], c) || WriteOf(s, events[0]) == None then later
      else [WriteOf(s, events[0]).value] + later
  }

  function AllWrites(turns: seq<Turn<IPInfo>>): seq<Rival<IPInfo>>
    decreases |turns|
  {
    if turns == [] then [] else turns[0].writes + AllWrites(turns[1..])
  }

  lemma EarlierAdds(rival: Option<Rival<IPInfo>>, turns: seq<Turn<IPInfo>>)
    ensures AllWrites(Earlier(rival, turns)) == (if rival == None then [] else [rival.value]) + AllWrites(turns)
  {
    if rival.Some? && turns != [] {
      assert Earlier(rival, turns)[1..] == turns[1..];
    }
  }

  /** The writes that c meets are exactly those of the others, all of them and in the order of the run. */
  lemma {:induction false} WritesAreOthers(s: State, events: seq<Event>, c: nat)
    ensures AllWrites(Made(s, events, c).turns) == OthersWrites(s, events, c)
    decreases |events|
  {
    hide Next, WriteOf, Earlier, EarlierCalico;
    if events != [] {
      var e, s' := events[0], Next(s, events[0]);
      var later := Made(s', events[1..], c);
      WritesAreOthers(s', events[1..], c);
      if OwnEvent(s, e, c) {
        assert ([Turn([], e.fails)] + later.turns)[1..] == later.turns;
        assert AllWrites([Turn([], e.fails)] + later.turns) == AllWrites(later.turns);
      } else {
        EarlierAdds(WriteOf(s, e), later.turns);
      }
    }
  }

  /** Some event of the run that is not c's frees, or claims, the address. */
  ghost predicate OthersMove(s: State, events: seq<Event>, c: nat, a: string, claims: bool) {
    exists n :: 0 <= n < |events| && MovesAt(s, events, c, a, claims, n)
  }

  predicate MovesAt(s: State, events: seq<Event>, c: nat, a: string, claims: bool, n: nat)
    requires n < |events|
  {
    var before := Run(s, events[..n]);
    var after := Next(before, events[n]);
    && !OwnEvent(before, events[n], c)
    && (a in after.world.taken <==> claims) && (a in before.world.taken <==> !claims)
  }

  lemma MoveIsLater(s: State, events: seq<Event>, c: nat, a: string, claims: bool)
    requires events != [] && OthersMove(Next(s, events[0]), events[1..], c, a, claims)
    ensures OthersMove(s, events, c, a, claims)
  {
    hide Next;
    var s', rest := Next(s, events[0]), events[1..];
    var n :| 0 <= n < |rest| && MovesAt(s', rest, c, a, claims, n);
    assert events[..n + 1] == [events[0]] + rest[..n];
    RunConcat(s, [events[0]], rest[..n]);
    assert [events[0]][..0] == [];
    assert Run(s, [events[0]]) == Next(Run(s, []), events[0]);
    assert MovesAt(s, events, c, a, claims, n + 1);
  }

  /** So is every change of Calico: each address freed or claimed in a turn was, by an event that is not c's. */
  lemma {:induction false} CalicoMovesAreOthers(s: State, events: seq<Event>, c: nat, m: nat, a: string)
    requires m < |Made(s, events, c).calico|
    ensures a in Made(s, events, c).calico[m].freed ==> OthersMove(s, events, c, a, false)
    ensures a in Made(s, events, c).calico[m].claimed ==> OthersMove(s, events, c, a, true)
    decreases |events|
  {
    hide Next, WriteOf, Earlier, OthersMove;
    var e, s' := events[0], Next(s, events[0]);
    var later := Made(s', events[1..], c).calico;
    var n := if |Made(s, events, c).calico| == |later| then m else m - 1;
    if 0 <= n < |later| {
      CalicoMovesAreOthers(s', events[1..], c, n, a);
      forall claims: bool | OthersMove(s', events[1..], c, a, claims) ensures OthersMove(s, events, c, a, claims) {
        MoveIsLater(s, events, c, a, claims);
      }
    }
    if !OwnEvent(s, e, c) {
      FirstMoves(s, events, c, a);
    }
  }

  lemma FirstMoves(s: State, events: seq<Event>, c: nat, a: string)
    requires events != [] && !OwnEvent(s, events[0], c)
    ensures a in s.world.taken - Next(s, events[0]).world.taken ==> OthersMove(s, events, c, a, false)
    ensures a in Next(s, events[0]).world.taken - s.world.taken ==> OthersMove(s, events, c, a, true)
  {
    hide Next;
    assert Run(s, events[..0]) == s;
    assert MovesAt(s, events, c, a, false, 0) <==> a in s.world.taken - Next(s, events[0]).world.taken;
    assert MovesAt(s, events, c, a, true, 0) <==> a in Next(s, events[0]).world.taken - s.world.taken;
  }

  // ----- the operation under it

  function After(s: State): Env {
    Env(s.world.kv, [], s.world.taken, [])
  }

  /** An operation that has come to its end in a run ended as it does alone under this interference. */
  predicate EndsAs(s: State, c: nat, made: Interference, end: State)
    requires c in s.clients && WellFormed(s.clients[c].op, s.clients[c].local)
  {
    var env := Env(s.world.kv, made.turns, s.world.taken, made.calico);
    var (env', outcome) := Finish(s.clients[c].op, s.clients[c].local, env);
    c in end.clients && end.clients[c].local == Done(outcome) && SameFuture(env', After(end))
  }

  lemma OwnStep(s: State, events: seq<Event>, c: nat, end: State)
    requires events != [] && OwnEvent(s, events[0], c)
    requires var s' := Next(s, events[0]);
      && c in s'.clients && WellFormed(s'.clients[c].op, s'.clients[c].local)
      && EndsAs(s', c, Made(s', events[1..], c), end)
    ensures EndsAs(s, c, Made(s, events, c), end)
  {
    hide Next, Exec, SameFuture, Respond;
    var e := events[0];
    var later := Made(Next(s, e), events[1..], c);
    NextOfClient(s, e, c);
    OwnCall(s.world, NextCall(s, c), e.fails, e.offer, later.turns, later.calico);
  }

  lemma OtherStep(s: State, events: seq<Event>, c: nat, end: State)
    requires c in s.clients && WellFormed(s.clients[c].op, s.clients[c].local)
    requires events != [] && !OwnEvent(s, events[0], c)
    requires var s' := Next(s, events[0]);
      && c in s'.clients && s'.clients[c].op == s.clients[c].op && s'.clients[c].local == s.clients[c].local
      && EndsAs(s', c, Made(s', events[1..], c), end)
    ensures EndsAs(s, c, Made(s, events, c), end)
  {
    hide Next, Arrive, CalicoNow, Finish, Earlier, EarlierCalico;
    var s' := Next(s, events[0]);
    var later, made := Made(s', events[1..], c), Made(s, events, c);
    NextOfOthers(s, events[0]);
    OthersAreInterference(
      s.world.kv, s.world.taken, WriteOf(s, events[0]), s'.world.taken, later.turns, later.calico);
    FinishSame(s.clients[c].op, s.clients[c].local,
               Env(s.world.kv, made.turns, s.world.taken, made.calico),
               Env(s'.world.kv, later.turns, s'.world.taken, later.calico));
  }

  lemma {:induction false} RunIsFinish(s: State, events: seq<Event>, c: nat)
    requires c in s.clients && WellFormed(s.clients[c].op, s.clients[c].local) && NotRestarted(events, c)
    requires c in Run(s, events).clients && Run(s, events).clients[c].local.Done?
    ensures EndsAs(s, c, Made(s, events, c), Run(s, events))
    decreases |events|
  {
    hide Next, EndsAs, WellFormed, Advance, Made;
    if events == [] {
      AlreadyDone(s, c);
    } else {
      var e, rest := events[0], events[1..];
      assert events == [e] + rest && [e][..0] == [];
      RunConcat(s, [e], rest);
      assert Run(s, [e]) == Next(Run(s, []), e);
      var s' := Next(s, e);
      NextOfClient(s, e, c);
      if OwnEvent(s, e, c) {
        AdvanceWellFormed(s.clients[c].op, s.clients[c].local, Answered(s, c, e.fails, e.offer));
        RunIsFinish(s', rest, c);
        OwnStep(s, events, c, Run(s', rest));
      } else {
        RunIsFinish(s', rest, c);
        OtherStep(s, events, c, Run(s', rest));
      }
    }
  }

  lemma AlreadyDone(s: State, c: nat)
    requires c in s.clients && s.clients[c].local.Done?
    ensures EndsAs(s, c, Made(s, [], c), s)
  {
  }

  /**
   Whatever the other clients do, an operation begun at s and finished at the end of the run has the outcome that
   performing it alone from s has under the interference their events make, and leaves the store and Calico the
   same.
   */
  lemma FinishedOperationPerforms(s: State, c: nat, op: Op, events: seq<Event>, end: State)
    requires c in s.clients ==> s.clients[c].local.Done?
    requires NotRestarted(events, c) && end == Run(Next(s, Begin(c, op)), events)
    requires c in end.clients && end.clients[c].local.Done?
    ensures var made := Made(Next(s, Begin(c, op)), events, c);
      var (env, outcome) := Perform(op, Env(s.world.kv, made.turns, s.world.taken, made.calico));
      end.clients[c].local == Done(outcome) && SameFuture(env, After(end))
  {
    hide Finish, Made;
    StartWellFormed(op);
    RunIsFinish(Next(s, Begin(c, op)), events, c);
  }
}
