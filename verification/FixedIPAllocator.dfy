/**
 The allocator's methods as the program runs them: calls on a store and on Calico, each preceded by
 whatever the other clients do. Every method is proved to end exactly where the operation's automaton
 ends when run against the same interference.
 */
module FixedIPAllocator {
  import opened Types
  import opened Codecs
  import opened Etcd
  import opened FixedIPOps

  /** What the others do to Calico before one of our calls, what Calico would offer us, and whether the call fails. */
  datatype CalicoTurn = CalicoTurn(freed: set<string>, claimed: set<string>, offer: Option<IP>, fails: bool)

  /** The surroundings of one caller: the store, Calico, and the interference still to come. */
  datatype Env = Env(kv: KV<IPInfo>, turns: seq<Turn<IPInfo>>, taken: set<string>, calico: seq<CalicoTurn>)

  function QuietTurn(): CalicoTurn {
    CalicoTurn({}, {}, None, false)
  }

  function CalicoNow(taken: set<string>, calico: seq<CalicoTurn>): (set<string>, CalicoTurn, seq<CalicoTurn>) {
    if calico == [] then (taken, QuietTurn(), [])
    else (taken - calico[0].freed + calico[0].claimed, calico[0], calico[1..])
  }

  function Respond(env: Env, call: Call): (Env, Answer) {
    if call.AllocCall? || call.OfferCall? || call.FreeCall? then
      var (taken, turn, rest) := CalicoNow(env.taken, env.calico);
      var (w, answer) := Exec(World(env.kv, taken), call, turn.fails, turn.offer);
      (Env(w.kv, env.turns, w.taken, rest), answer)
    else
      var a := Arrive(env.kv, env.turns);
      var (w, answer) := Exec(World(a.kv, env.taken), call, a.fails, None);
      (Env(w.kv, a.rest, w.taken, env.calico), answer)
  }

  /** The operation's automaton, run to its end. */
  function Finish(op: Op, local: Local, env: Env): (Env, Outcome)
    requires WellFormed(op, local)
    decreases Remaining(local)
  {
    if local.Done? then (env, local.outcome)
    else
      var (env', answer) := Respond(env, CallOf(op, local));
      AdvanceWellFormed(op, local, answer);
      AdvanceProgresses(op, local, answer);
      Finish(op, Advance(op, local, answer), env')
  }

  /** The start of a retry loop's round, or its end. */
  function Attempt(n: nat): Local {
    if n < RETRY_MAX_COUNT then Getting(n) else Done(Fail(ErrMaxRetryCountExceeded))
  }

  function Perform(op: Op, env: Env): (Env, Outcome) {
    StartWellFormed(op);
    Finish(op, Start(op), env)
  }

  lemma DoneStep(op: Op, outcome: Outcome, env: Env)
    ensures Finish(op, Done(outcome), env) == (env, outcome)
  {
  }

  lemma GetStep(op: Op, n: nat, env: Env)
    requires !op.AllocFromPools?
    ensures var a := Arrive(env.kv, env.turns);
      var env' := env.(kv := a.kv, turns := a.rest);
      var local' := AfterGet(op, n, GetReply(a.kv, IPKey(op.ip.poolID, op.ip.address), a.fails));
      WellFormed(op, local') && Finish(op, Getting(n), env) == Finish(op, local', env')
  {
    var (env', answer) := Respond(env, CallOf(op, Getting(n)));
    AdvanceWellFormed(op, Getting(n), answer);
  }

  lemma SwapStep(op: Op, n: nat, read: IPInfo, version: nat, env: Env)
    requires WellFormed(op, Swapping(n, read, version))
    ensures var a := Arrive(env.kv, env.turns);
      var (kv', reply) := SwapReply(a.kv, IPInfoKey(read), version, Modify(op, read), a.fails);
      var local' := AfterSwap(op, n, read, reply);
      && WellFormed(op, local')
      && Finish(op, Swapping(n, read, version), env) == Finish(op, local', env.(kv := kv', turns := a.rest))
  {
    var local := Swapping(n, read, version);
    var (env', answer) := Respond(env, CallOf(op, local));
    AdvanceWellFormed(op, local, answer);
  }

  lemma DeleteStep(op: Op, info: IPInfo, env: Env)
    requires op.Unalloc?
    ensures var a := Arrive(env.kv, env.turns);
      var (kv', reply) := DeleteReply(a.kv, IPInfoKey(info), a.fails);
      var local' := if reply.Err? then Done(Fail(reply.error)) else Freeing(op.ip, Success());
      Finish(op, Deleting(info), env) == Finish(op, local', env.(kv := kv', turns := a.rest))
  {
  }

  lemma PutStep(op: Op, ip: IP, env: Env)
    requires WellFormed(op, Putting(ip))
    ensures var a := Arrive(env.kv, env.turns);
      var (kv', reply) := PutReply(a.kv, IPKey(ip.poolID, ip.address), FreshInfo(ip), a.fails);
      && WellFormed(op, AfterPut(op, ip, reply))
      && Finish(op, Putting(ip), env) == Finish(op, AfterPut(op, ip, reply), env.(kv := kv', turns := a.rest))
  {
    var local := Putting(ip);
    var (env', answer) := Respond(env, CallOf(op, local));
    AdvanceWellFormed(op, local, answer);
  }

  lemma FreeStep(op: Op, ip: IP, outcome: Outcome, env: Env)
    requires WellFormed(op, Freeing(ip, outcome))
    ensures var (now, turn, rest) := CalicoNow(env.taken, env.calico);
      Finish(op, Freeing(ip, outcome), env) ==
        (env.(taken := if turn.fails then now else now - {ip.address}, calico := rest),
         if turn.fails && op.Unalloc? then Fail(ErrUnavailable) else outcome)
  {
    var local := Freeing(ip, outcome);
    var (env', answer) := Respond(env, CallOf(op, local));
    assert Finish(op, local, env) == Finish(op, Advance(op, local, answer), env');
  }

  predicate Offers(turn: CalicoTurn, now: set<string>, poolID: string) {
    !turn.fails && turn.offer.Some? && turn.offer.value.address !in now && turn.offer.value.poolID == poolID
  }

  /** The pools in order, up to the first that has an address to offer when it is asked. */
  function TryPools(taken: set<string>, calico: seq<CalicoTurn>, pools: seq<string>)
    : (set<string>, seq<CalicoTurn>, Option<IP>)
    decreases |pools|
  {
    if pools == [] then (taken, calico, None)
    else
      var (now, turn, rest) := CalicoNow(taken, calico);
      if Offers(turn, now, pools[0]) then (now + {turn.offer.value.address}, rest, turn.offer)
      else TryPools(now, rest, pools[1..])
  }

  /** An address handed out is from one of the pools, and taken. */
  lemma {:induction false} TryPoolsHandsOut(taken: set<string>, calico: seq<CalicoTurn>, pools: seq<string>)
    ensures var (taken', _, ip) := TryPools(taken, calico, pools);
      ip.Some? ==> ip.value.poolID in pools && ip.value.address in taken'
    decreases |pools|
  {
    if pools != [] {
      var (now, turn, rest) := CalicoNow(taken, calico);
      TryPoolsHandsOut(now, rest, pools[1..]);
    }
  }

  lemma {:induction false} OfferSteps(op: Op, pools: seq<string>, env: Env)
    requires op.AllocFromPools?
    ensures WellFormed(op, NextPool(pools, ErrNoAddress))
    ensures var (taken, rest, ip) := TryPools(env.taken, env.calico, pools);
      var local' := if ip.Some? then Putting(ip.value) else Done(Fail(ErrNoAddress));
      Finish(op, NextPool(pools, ErrNoAddress), env) == Finish(op, local', env.(taken := taken, calico := rest))
    decreases |pools|
  {
    if pools != [] {
      var (now, turn, rest) := CalicoNow(env.taken, env.calico);
      var (env', answer) := Respond(env, CallOf(op, Offering(pools)));
      assert Finish(op, Offering(pools), env) == Finish(op, Advance(op, Offering(pools), answer), env');
      if !Offers(turn, now, pools[0]) {
        OfferSteps(op, pools[1..], env');
      }
    }
  }

  class CalicoIPAllocator {
    var taken: set<string>
    var turns: seq<CalicoTurn>

    method Await() returns (turn: CalicoTurn)
      modifies this
      ensures (taken, turn, turns) == CalicoNow(old(taken), old(turns))
    {
      if turns == [] {
        turn := QuietTurn();
      } else {
        turn := turns[0];
        taken := taken - turn.freed + turn.claimed;
        turns := turns[1..];
      }
    }

    method AllocIP(ip: IP) returns (err: Option<Error>)
      modifies this
      ensures var (now, turn, rest) := CalicoNow(old(taken), old(turns));
        && turns == rest
        && (err == None <==> !turn.fails && ip.address !in now)
        && (err == None ==> taken == now + {ip.address})
        && (err != None ==> taken == now && err == Some(if turn.fails then ErrUnavailable else ErrAlreadyAssigned))
    {
      var turn := Await();
      if turn.fails {
        return Some(ErrUnavailable);
      }
      if ip.address in taken {
        return Some(ErrAlreadyAssigned);
      }
      taken := taken + {ip.address};
      return None;
    }

    method AllocIPFromPool(poolID: string) returns (ip: Option<IP>, err: Option<Error>)
      modifies this
      ensures var (now, turn, rest) := CalicoNow(old(taken), old(turns));
        && turns == rest
        && (err == None <==> Offers(turn, now, poolID))
        && (err == None ==> ip == turn.offer && taken == now + {turn.offer.value.address})
        && (err != None ==> ip == None && taken == now && err == Some(ErrNoAddress))
    {
      var turn := Await();
      if turn.fails || turn.offer.None? || turn.offer.value.address in taken || turn.offer.value.poolID != poolID {
        return None, Some(ErrNoAddress);
      }
      taken := taken + {turn.offer.value.address};
      return turn.offer, None;
    }

    method AllocIPFromPools(pools: seq<string>) returns (ip: Option<IP>, err: Option<Error>)
      modifies this
      ensures (taken, turns, ip) == TryPools(old(taken), old(turns), pools)
      ensures err == if ip == None then Some(ErrNoAddress) else None
    {
      ghost var goal := TryPools(taken, turns, pools);
      if |pools| == 1 {
        ip, err := AllocIPFromPool(pools[0]);
        return;
      }
      var i := 0;
      while i < |pools|
        invariant 0 <= i <= |pools|
        invariant goal == TryPools(taken, turns, pools[i..])
      {
        assert pools[i..][0] == pools[i] && pools[i..][1..] == pools[i + 1..];
        ip, err := AllocIPFromPool(pools[i]);
        if err == None {
          return ip, None;
        }
        i := i + 1;
      }
      return None, Some(ErrNoAddress);
    }

    method UnallocIP(ip: IP) returns (err: Option<Error>)
      modifies this
      ensures var (now, turn, rest) := CalicoNow(old(taken), old(turns));
        && turns == rest
        && err == (if turn.fails then Some(ErrUnavailable) else None)
        && taken == if turn.fails then now else now - {ip.address}
    {
      var turn := Await();
      if turn.fails {
        return Some(ErrUnavailable);
      }
      taken := taken - {ip.address};
      return None;
    }
  }

  class FixedIPAllocator {
    const store: EtcdStore<IPInfo>
    const calico: CalicoIPAllocator

    constructor (store: EtcdStore<IPInfo>, calico: CalicoIPAllocator)
      ensures this.store == store && this.calico == calico
    {
      this.store := store;
      this.calico := calico;
    }

    function Now(): Env
      reads store, calico
    {
      Env(store.kv, store.turns, calico.taken, calico.turns)
    }

    /** Reads the record of an IP; a missing one is created when `create` is set, and is an error otherwise. */
    method GetFixedIP(ip: IP, create: bool) returns (codec: Codec<IPInfo>, err: Option<Error>)
      modifies store, calico
      ensures fresh(codec)
      ensures var a := Arrive(old(store.kv), old(store.turns));
        var env := old(Now()).(kv := a.kv, turns := a.rest);
        match GetReply(a.kv, IPKey(ip.poolID, ip.address), a.fails)
        case Read(info, n) => err == None && Now() == env && codec.value == info && codec.version == n
          && codec.keyOf == IPInfoKey
        case Err(e) =>
          if e == ErrKVNotExists && create then
            (Now(), Outcome(err, None)) == Finish(Alloc(ip), Allocating, env)
            && (err == None ==> codec.value.status == {})
          else Now() == env && err == Some(if e == ErrKVNotExists then ErrFixedIPNotAllocated else e)
        case _ => false
    {
      codec := new Codec(IPInfoKey, FreshInfo(ip));
      var e := store.Get(codec);
      if e == Some(ErrKVNotExists) {
        if !create {
          return codec, Some(ErrFixedIPNotAllocated);
        }
        err := CreateFixedIP(ip, codec);
        return codec, err;
      }
      return codec, e;
    }

    method CreateFixedIP(ip: IP, codec: Codec<IPInfo>) returns (err: Option<Error>)
      requires codec.keyOf == IPInfoKey && codec.value == FreshInfo(ip)
      modifies store, calico, codec
      ensures (Now(), Outcome(err, None)) == Finish(Alloc(ip), Allocating, old(Now()))
      ensures codec.value == FreshInfo(ip)
    {
      ghost var op := Alloc(ip);
      err := calico.AllocIP(ip);
      if err.Some? {
        return err;
      }
      ghost var env1 := Now();
      assert Finish(op, Allocating, old(Now())) == Finish(op, Putting(ip), env1);
      err := store.Put(codec);
      ghost var reply := Respond(env1, PutCall(IPKey(ip.poolID, ip.address), FreshInfo(ip))).1.reply;
      assert Finish(op, Putting(ip), env1) == Finish(op, AfterPut(op, ip, reply), Now());
    }

    method AssignFixedIP(ip: IP) returns (err: Option<Error>)
      modifies store, calico
      ensures (Now(), Outcome(err, None)) == Perform(Assign(ip), old(Now()))
    {
      ghost var op := Assign(ip);
      var codec;
      codec, err := GetFixedIP(ip, false);
      if err.Some? {
        return err;
      }
      ghost var env1, info := Now(), codec.value;
      if InUse in codec.value.status {
        return Some(ErrIPInUse);
      }
      GetStep(op, 0, old(Now()));
      SwapStep(op, 0, info, codec.version, env1);
      codec.value := codec.value.(status := codec.value.status + {InUse});
      var ok;
      ok, err := store.UpdateElseGet(codec);
      if err.None? && !ok {
        return Some(ErrIPInUse);
      }
    }

    method UnassignFixedIP(ip: IP) returns (err: Option<Error>)
      modifies store, calico
      ensures (Now(), Outcome(err, None)) == Perform(Unassign(ip), old(Now()))
    {
      ghost var op := Unassign(ip);
      var codec;
      codec, err := GetFixedIP(ip, false);
      if err.Some? {
        return err;
      }
      ghost var env1, info := Now(), codec.value;
      if InUse !in codec.value.status {
        return None;
      }
      GetStep(op, 0, old(Now()));
      SwapStep(op, 0, info, codec.version, env1);
      codec.value := codec.value.(status := codec.value.status - {InUse});
      var ok;
      ok, err := store.UpdateElseGet(codec);
      if err.None? && !ok {
        return Some(ErrIPInUse);
      }
    }

    method BorrowFixedIP(ip: IP, container: Container) returns (err: Option<Error>)
      modifies store, calico
      ensures (Now(), Outcome(err, None)) == Perform(Borrow(ip, container), old(Now()))
    {
      ghost var op := Borrow(ip, container);
      hide Finish, Arrive;
      ghost var goal := Perform(op, Now());
      var cnt := 0;
      while cnt < RETRY_MAX_COUNT
        invariant 0 <= cnt <= RETRY_MAX_COUNT
        invariant goal == Finish(op, Attempt(cnt), Now())
      {
        GetStep(op, cnt, Now());
        var codec, e := GetFixedIP(ip, false);
        if e.Some? {
          DoneStep(op, Outcome(e, None), Now());
          return e;
        }
        ghost var info := codec.value;
        SwapStep(op, cnt, info, codec.version, Now());
        if codec.value.attrs == None {
          codec.value := codec.value.(attrs := Some([]));
        }
        codec.value := codec.value.(attrs := Some(codec.value.attrs.value + [container]));
        assert codec.value == Modify(op, info);
        var ok;
        ok, e := store.UpdateElseGet(codec);
        if e.Some? {
          DoneStep(op, Outcome(e, None), Now());
          return e;
        } else if ok {
          DoneStep(op, Success(), Now());
          return None;
        }
        cnt := cnt + 1;
      }
      DoneStep(op, Fail(ErrMaxRetryCountExceeded), Now());
      return Some(ErrMaxRetryCountExceeded);
    }

    method Others(borrowers: seq<Container>, container: Container) returns (kept: seq<Container>)
      ensures kept == Without(borrowers, container)
    {
      kept := [];
      var i := 0;
      while i < |borrowers|
        invariant 0 <= i <= |borrowers|
        invariant Without(borrowers, container) == kept + Without(borrowers[i..], container)
      {
        assert borrowers[i..][1..] == borrowers[i + 1..];
        if borrowers[i] != container {
          kept := kept + [borrowers[i]];
        }
        i := i + 1;
      }
    }

    method ReturnFixedIP(ip: IP, container: Container) returns (err: Option<Error>)
      modifies store, calico
      ensures (Now(), Outcome(err, None)) == Perform(Return(ip, container), old(Now()))
    {
      ghost var op := Return(ip, container);
      hide Finish, Arrive;
      ghost var goal := Perform(op, Now());
      var cnt := 0;
      while cnt < RETRY_MAX_COUNT
        invariant 0 <= cnt <= RETRY_MAX_COUNT
        invariant goal == Finish(op, Attempt(cnt), Now())
      {
        GetStep(op, cnt, Now());
        var codec, e := GetFixedIP(ip, false);
        if e.Some? {
          DoneStep(op, Outcome(e, None), Now());
          return e;
        }
        if codec.value.attrs == None || codec.value.attrs.value == [] {
          DoneStep(op, Success(), Now());
          return None;
        }
        ghost var info := codec.value;
        SwapStep(op, cnt, info, codec.version, Now());
        var kept := Others(codec.value.attrs.value, container);
        codec.value := codec.value.(attrs := Some(kept));
        assert codec.value == Modify(op, info);
        var ok;
        ok, e := store.UpdateElseGet(codec);
        if e.Some? {
          DoneStep(op, Outcome(e, None), Now());
          return e;
        } else if ok {
          DoneStep(op, Success(), Now());
          return None;
        }
        cnt := cnt + 1;
      }
      DoneStep(op, Fail(ErrMaxRetryCountExceeded), Now());
      return Some(ErrMaxRetryCountExceeded);
    }

    method UnallocFixedIP(ip: IP, force: bool) returns (err: Option<Error>)
      modifies store, calico
      ensures (Now(), Outcome(err, None)) == Perform(Unalloc(ip, force), old(Now()))
    {
      hide Finish, Arrive;
      ghost var op := Unalloc(ip, force);
      GetStep(op, 0, Now());
      var codec;
      codec, err := GetFixedIP(ip, false);
      if err.Some? {
        DoneStep(op, Outcome(err, None), Now());
        return err;
      }
      ghost var env1, info := Now(), codec.value;
      if InUse in codec.value.status {
        DoneStep(op, Fail(ErrIPInUse), Now());
        return Some(ErrIPInUse);
      }
      if !force && codec.value.attrs != None && |codec.value.attrs.value| > 0 {
        DoneStep(op, Fail(ErrFixedIPHasBorrower), Now());
        return Some(ErrFixedIPHasBorrower);
      }
      SwapStep(op, 0, info, codec.version, env1);
      codec.value := codec.value.(status := codec.value.status + {InUse, Retired});
      ghost var locked := codec.value;
      var ok;
      ok, err := store.UpdateElseGet(codec);
      ghost var env2 := Now();
      if err.None? && !ok {
        DoneStep(op, Fail(ErrIPInUse), Now());
        return Some(ErrIPInUse);
      }
      // a failed lock update is only logged
      DeleteStep(op, locked, env2);
      err := store.Delete(codec);
      if err.Some? {
        DoneStep(op, Outcome(err, None), Now());
        return err;
      }
      FreeStep(op, ip, Success(), Now());
      err := calico.UnallocIP(ip);
    }

    method AllocFixedIP(ip: IP) returns (err: Option<Error>)
      modifies store, calico
      ensures (Now(), Outcome(err, None)) == Perform(Alloc(ip), old(Now()))
    {
      var codec;
      codec, err := GetFixedIP(ip, true);
      if err.Some? {
        return err;
      }
      if InUse in codec.value.status {
        return Some(ErrIPInUse);
      }
    }

    method AllocFixedIPFromPools(pools: seq<string>) returns (ip: Option<IP>, err: Option<Error>)
      modifies store, calico
      ensures (Now(), Outcome(err, ip)) == Perform(AllocFromPools(pools), old(Now()))
    {
      ghost var op := AllocFromPools(pools);
      OfferSteps(op, pools, Now());
      ip, err := calico.AllocIPFromPools(pools);
      if err.Some? {
        return ip, err;
      }
      ghost var env1 := Now();
      PutStep(op, ip.value, env1);
      var codec := new Codec(IPInfoKey, FreshInfo(ip.value));
      err := store.Put(codec);
      ghost var env2 := Now();
      if err.Some? {
        FreeStep(op, ip.value, Outcome(err, ip), env2);
        var _ := calico.UnallocIP(ip.value);
        return ip, err;
      }
    }
  }
}
