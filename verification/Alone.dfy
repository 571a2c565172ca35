/** What each operation does to the world and what it reports when nobody interferes, written out. */
module Alone {
  import opened Types
  import opened Codecs
  import opened Etcd
  import opened FixedIPOps
  import opened FixedIPAllocator

  predicate Quiet(env: Env) {
    env.turns == [] && env.calico == []
  }

  /** Every record sits under its own key, which is not blank, and has been written at least once. */
  predicate Sound(kv: KV<IPInfo>) {
    forall k :: k in kv ==> k != "" && IPInfoKey(kv[k].value) == k && kv[k].version >= 1
  }

  /** A call on a record that does not exist, or on a blank address, ends at its Get. */
  predicate Unread(env: Env, ip: IP) {
    ip.address == "" || KeyOf(ip) !in env.kv
  }

  function UnreadError(ip: IP): Error {
    if ip.address == "" then ErrEmptyKey else ErrFixedIPNotAllocated
  }

  lemma UnreadEnds(op: Op, env: Env)
    requires Quiet(env) && !op.AllocFromPools? && !op.Alloc? && Unread(env, op.ip)
    ensures Perform(op, env) == (env, Outcome(Some(UnreadError(op.ip)), None))
  {
    GetStep(op, 0, env);
  }

  /** The record is put in use, and an Assign of one in use is told so. */
  lemma QuietAssign(env: Env, ip: IP)
    requires Quiet(env) && Sound(env.kv)
    ensures Perform(Assign(ip), env) ==
      if Unread(env, ip) then (env, Outcome(Some(UnreadError(ip)), None))
      else
        var info := env.kv[KeyOf(ip)].value;
        if InUse in info.status then (env, Outcome(Some(ErrIPInUse), None))
        else
          (env.(kv := Written(env.kv, KeyOf(ip), info.(status := info.status + {InUse}))), Outcome(None, None))
  {
    var op := Assign(ip);
    if Unread(env, ip) {
      UnreadEnds(op, env);
    } else {
      GetStep(op, 0, env);
      SwapStep(op, 0, env.kv[KeyOf(ip)].value, env.kv[KeyOf(ip)].version, env);
    }
  }

  /** The record is taken out of use; one that is not in use stays as it is, which is no error. */
  lemma QuietUnassign(env: Env, ip: IP)
    requires Quiet(env) && Sound(env.kv)
    ensures Perform(Unassign(ip), env) ==
      if Unread(env, ip) then (env, Outcome(Some(UnreadError(ip)), None))
      else
        var info := env.kv[KeyOf(ip)].value;
        if InUse !in info.status then (env, Outcome(None, None))
        else
          (env.(kv := Written(env.kv, KeyOf(ip), info.(status := info.status - {InUse}))), Outcome(None, None))
  {
    var op := Unassign(ip);
    if Unread(env, ip) {
      UnreadEnds(op, env);
    } else {
      GetStep(op, 0, env);
      SwapStep(op, 0, env.kv[KeyOf(ip)].value, env.kv[KeyOf(ip)].version, env);
    }
  }

  /** A Borrow commits at its first attempt: the container comes last in the list. */
  lemma QuietBorrow(env: Env, ip: IP, c: Container)
    requires Quiet(env) && Sound(env.kv)
    ensures Perform(Borrow(ip, c), env) ==
      if Unread(env, ip) then (env, Outcome(Some(UnreadError(ip)), None))
      else
        var info := env.kv[KeyOf(ip)].value;
        (env.(kv := Written(env.kv, KeyOf(ip), info.(attrs := Some(info.Borrowers() + [c])))), Outcome(None, None))
  {
    var op := Borrow(ip, c);
    if Unread(env, ip) {
      UnreadEnds(op, env);
    } else {
      GetStep(op, 0, env);
      SwapStep(op, 0, env.kv[KeyOf(ip)].value, env.kv[KeyOf(ip)].version, env);
    }
  }

  /** A Return commits at its first attempt, or finds no borrower at all and writes nothing. */
  lemma QuietReturn(env: Env, ip: IP, c: Container)
    requires Quiet(env) && Sound(env.kv)
    ensures Perform(Return(ip, c), env) ==
      if Unread(env, ip) then (env, Outcome(Some(UnreadError(ip)), None))
      else
        var info := env.kv[KeyOf(ip)].value;
        if info.Borrowers() == [] then (env, Outcome(None, None))
        else
          var others := info.(attrs := Some(Without(info.Borrowers(), c)));
          (env.(kv := Written(env.kv, KeyOf(ip), others)), Outcome(None, None))
  {
    var op := Return(ip, c);
    if Unread(env, ip) {
      UnreadEnds(op, env);
    } else {
      GetStep(op, 0, env);
      if env.kv[KeyOf(ip)].value.Borrowers() != [] {
        SwapStep(op, 0, env.kv[KeyOf(ip)].value, env.kv[KeyOf(ip)].version, env);
      }
    }
  }

  /**
   Deletes the record and frees its address unless it is in use or, if not forced, borrowed; then nothing changes.
   */
  lemma QuietUnalloc(env: Env, ip: IP, force: bool)
    requires Quiet(env) && Sound(env.kv)
    ensures Perform(Unalloc(ip, force), env) ==
      if Unread(env, ip) then (env, Outcome(Some(UnreadError(ip)), None))
      else
        var info := env.kv[KeyOf(ip)].value;
        if InUse in info.status then (env, Outcome(Some(ErrIPInUse), None))
        else if !force && info.Borrowers() != [] then (env, Outcome(Some(ErrFixedIPHasBorrower), None))
        else (env.(kv := Dropped(env.kv, KeyOf(ip)), taken := env.taken - {ip.address}), Outcome(None, None))
  {
    var op := Unalloc(ip, force);
    var key := KeyOf(ip);
    if Unread(env, ip) {
      UnreadEnds(op, env);
      return;
    }
    var info := env.kv[key].value;
    GetStep(op, 0, env);
    if InUse !in info.status && (force || info.Borrowers() == []) {
      SwapStep(op, 0, info, env.kv[key].version, env);
      var env1 := env.(kv := Written(env.kv, key, Modify(op, info)));
      DeleteStep(op, Modify(op, info), env1);
      assert Dropped(env1.kv, key) == Dropped(env.kv, key);
      FreeStep(op, ip, Success(), env.(kv := Dropped(env.kv, key)));
    }
  }

  /** An Unalloc whose lock update fails goes on all the same, to the same end. */
  lemma UnlockedUnalloc(env: Env, ip: IP, force: bool)
    requires env.turns == [Turn([], false), Turn([], true)] && env.calico == [] && Sound(env.kv)
    ensures var (env', outcome) := Perform(Unalloc(ip, force), env);
      Perform(Unalloc(ip, force), env.(turns := [])) == (env'.(turns := []), outcome)
  {
    var op := Unalloc(ip, force);
    var key := KeyOf(ip);
    QuietUnalloc(env.(turns := []), ip, force);
    GetStep(op, 0, env);
    if !Unread(env, ip) {
      var info := env.kv[key].value;
      if InUse !in info.status && (force || info.Borrowers() == []) {
        var env1 := env.(turns := [Turn([], true)]);
        SwapStep(op, 0, info, env.kv[key].version, env1);
        var env2 := env.(turns := []);
        DeleteStep(op, Modify(op, info), env2);
        FreeStep(op, ip, Success(), env2.(kv := Dropped(env.kv, key)));
      }
    }
  }

  /** An IP with a record is only looked at; another is claimed in Calico and gets a blank record. */
  lemma QuietAlloc(env: Env, ip: IP)
    requires Quiet(env) && Sound(env.kv)
    ensures Perform(Alloc(ip), env) ==
      if ip.address == "" then (env, Outcome(Some(ErrEmptyKey), None))
      else if KeyOf(ip) in env.kv then
        (env, Outcome(if InUse in env.kv[KeyOf(ip)].value.status then Some(ErrIPInUse) else None, None))
      else if ip.address in env.taken then (env, Outcome(Some(ErrAlreadyAssigned), None))
      else
        (env.(kv := env.kv[KeyOf(ip) := Entry(IPInfo(ip.poolID, ip.address, {}, None), 1)],
              taken := env.taken + {ip.address}),
         Outcome(None, None))
  {
    var op := Alloc(ip);
    GetStep(op, 0, env);
    if ip.address != "" && KeyOf(ip) !in env.kv {
      var (env1, answer) := Respond(env, CallOf(op, Allocating));
      assert Finish(op, Allocating, env) == Finish(op, Advance(op, Allocating, answer), env1);
      if ip.address !in env.taken {
        PutStep(op, ip, env1);
      }
    }
  }

  /**
   The IP of the first pool that offers one is recorded and reported. If it cannot be recorded its address is given
   back, and the error is reported beside it.
   */
  lemma QuietAllocFromPools(env: Env, pools: seq<string>, fails: bool)
    requires env.turns == [Turn([], fails)]
    ensures var (taken, rest, offered) := TryPools(env.taken, env.calico, pools);
      var (env', outcome) := Perform(AllocFromPools(pools), env);
      if offered == None then
        env' == env.(taken := taken, calico := rest) && outcome == Outcome(Some(ErrNoAddress), None)
      else
        var ip := offered.value;
        if !fails && ip.address != "" then
          && env' == Env(Written(env.kv, KeyOf(ip), IPInfo(ip.poolID, ip.address, {}, None)), [], taken, rest)
          && outcome == Outcome(None, Some(ip))
        else
          var (now, turn, rest') := CalicoNow(taken, rest);
          && env' == Env(env.kv, [], if turn.fails then now else now - {ip.address}, rest')
          && outcome == Outcome(Some(if ip.address == "" then ErrKeyIsBlank else ErrUnavailable), Some(ip))
  {
    var op := AllocFromPools(pools);
    OfferSteps(op, pools, env);
    var (taken, rest, offered) := TryPools(env.taken, env.calico, pools);
    if offered.Some? {
      var ip := offered.value;
      var env1 := env.(taken := taken, calico := rest);
      PutStep(op, ip, env1);
      if fails || ip.address == "" {
        var e := if ip.address == "" then ErrKeyIsBlank else ErrUnavailable;
        FreeStep(op, ip, Outcome(Some(e), Some(ip)), env1.(turns := []));
      }
    }
  }
}
