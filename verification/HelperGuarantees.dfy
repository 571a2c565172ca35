/**
 What giving addresses back preserves: the split of a container's record under interference, and create-then-remove.
 */
module HelperGuarantees {
  import opened Types
  import opened Codecs
  import opened Etcd
  import opened FixedIPOps
  import opened FixedIPAllocator
  import opened Alone
  import opened Helper

  predicate Deletes<V>(writes: seq<Rival<V>>, key: string) {
    exists i :: 0 <= i < |writes| && writes[i].RivalDelete? && writes[i].key == key
  }

  /** Unless somebody deletes the key its version only grows, and an unchanged version means an unchanged record. */
  lemma {:induction false} VersionNamesValue<V>(kv: KV<V>, writes: seq<Rival<V>>, key: string)
    requires key in kv && !Deletes(writes, key)
    ensures var kv' := Interfere(kv, writes);
      key in kv' && kv'[key].version >= kv[key].version && (kv'[key].version == kv[key].version ==> kv'[key] == kv[key])
    decreases writes
  {
    if writes != [] {
      assert !Deletes(writes[1..], key) by {
        assert forall i :: 0 <= i < |writes[1..]| ==> writes[1..][i] == writes[i + 1];
      }
      VersionNamesValue(Overwrite(kv, writes[0]), writes[1..], key);
    }
  }

  predicate DetachSound(c: Container, pools: seq<string>, end: Detached) {
    var key := ContainerKey(c);
    && (forall i :: 0 <= i < |end.losses| ==> Touches(end.losses[i], key))
    && (end.commit.Some? ==>
        var commit := end.commit.value;
        && end.err == None
        && commit.read.addresses != []
        && key in commit.before && commit.before[key].version == commit.version
        && end.kv == Written(commit.before, key, KeptRecord(commit.read, pools))
        && (!Deletes(commit.window, key) ==> commit.before[key].value == commit.read))
  }

  lemma WonSound(c: Container, pools: seq<string>, kv: KV<ContainerInfo>, turns: seq<Turn<ContainerInfo>>)
    requires Keyed(kv, turns, ContainerInfoKey)
    ensures var r := TryDetach(c, pools, kv, turns);
      && (r.Won? ==> DetachSound(c, pools, Detached(r.kv, r.rest, None, Some(r.commit), [])))
      && (r.Missed? ==> ContainerKey(r.now.container) == ContainerKey(c))
  {
    hide Interfere;
    var r := TryDetach(c, pools, kv, turns);
    var g := Arrive(kv, turns);
    ArriveKeyed(kv, turns, ContainerInfoKey);
    ArriveKeyed(g.kv, g.rest, ContainerInfoKey);
    var key := ContainerKey(c);
    if (r.Won? || r.Missed?) && g.rest != [] && !Deletes(g.rest[0].writes, key) {
      VersionNamesValue(g.kv, g.rest[0].writes, key);
    }
  }

  /**
   Under interference: every lost attempt is a write of the key by somebody else, and the winning swap
   replaces a record of the version it read - the very record it read, unless the key was deleted in
   between - by the same record with only the addresses outside the pools.
   */
  lemma {:induction false} DetachReplacesWhatItRead(
      c: Container, pools: seq<string>, kv: KV<ContainerInfo>, turns: seq<Turn<ContainerInfo>>,
      losses: seq<seq<Rival<ContainerInfo>>>)
    requires Keyed(kv, turns, ContainerInfoKey)
    requires forall i :: 0 <= i < |losses| ==> Touches(losses[i], ContainerKey(c))
    ensures DetachSound(c, pools, Detach(c, pools, kv, turns, losses))
    decreases |turns|
  {
    WonSound(c, pools, kv, turns);
    match TryDetach(c, pools, kv, turns)
    case Missed(kv', rest, now, window) =>
      DetachReplacesWhatItRead(now.container, pools, kv', rest, losses + [window]);
    case _ =>
  }

  predicate SomeFail<V>(turns: seq<Turn<V>>) {
    exists i :: 0 <= i < |turns| && turns[i].fails
  }

  predicate SomeDelete<V>(turns: seq<Turn<V>>, key: string) {
    exists i :: 0 <= i < |turns| && Deletes(turns[i].writes, key)
  }

  /** How the loop ends without a commit: nothing to give up, a call that failed, or a record deleted under it. */
  predicate EndsFor(c: Container, turns: seq<Turn<ContainerInfo>>, end: Detached) {
    var key := ContainerKey(c);
    end.commit == None ==>
      match end.err
      case None => key != "" && (key in end.kv ==> end.kv[key].value.addresses == [])
      case Some(e) =>
        || (e == ErrUnavailable && SomeFail(turns))
        || (e == ErrEmptyKey && key == "")
        || (e == ErrKVNotExists && SomeDelete(turns, key))
  }

  lemma TryEnds(c: Container, pools: seq<string>, kv: KV<ContainerInfo>, turns: seq<Turn<ContainerInfo>>)
    requires Keyed(kv, turns, ContainerInfoKey)
    ensures var r := TryDetach(c, pools, kv, turns);
      && (r.Stopped? ==> forall losses :: EndsFor(c, turns, Detached(r.kv, r.rest, r.err, None, losses)))
      && (SomeFail(r.rest) ==> SomeFail(turns))
      && (SomeDelete(r.rest, ContainerKey(c)) ==> SomeDelete(turns, ContainerKey(c)))
  {
    hide Interfere, Deletes, ContainerKey;
    var key, g := ContainerKey(c), Arrive(kv, turns);
    ArriveKeyed(kv, turns, ContainerInfoKey);
    ArriveKeyed(g.kv, g.rest, ContainerInfoKey);
    LaterFails(kv, turns, key);
    LaterFails(g.kv, g.rest, key);
    if key in g.kv && g.rest != [] && !Deletes(g.rest[0].writes, key) {
      VersionNamesValue(g.kv, g.rest[0].writes, key);
    }
  }

  lemma LaterFails<V>(kv: KV<V>, turns: seq<Turn<V>>, key: string)
    ensures Arrive(kv, turns).fails || SomeFail(Arrive(kv, turns).rest) ==> SomeFail(turns)
    ensures SomeDelete(Arrive(kv, turns).rest, key) ==> SomeDelete(turns, key)
  {
    var rest := Arrive(kv, turns).rest;
    if SomeDelete(rest, key) {
      var i :| 0 <= i < |rest| && Deletes(rest[i].writes, key);
      assert turns[i + 1] == rest[i];
    }
    if SomeFail(rest) {
      var i :| 0 <= i < |rest| && rest[i].fails;
      assert turns[i + 1] == rest[i];
    }
  }

  /**
   A lost swap is not the end: the loop gives up only when a call fails, when the container's record is gone or lists
   no addresses, or when it is deleted between a Get and its swap.
   */
  lemma {:induction false} DetachEnds(c: Container, pools: seq<string>, kv: KV<ContainerInfo>,
                                      turns: seq<Turn<ContainerInfo>>, losses: seq<seq<Rival<ContainerInfo>>>)
    requires Keyed(kv, turns, ContainerInfoKey)
    ensures EndsFor(c, turns, Detach(c, pools, kv, turns, losses))
    decreases |turns|
  {
    hide SomeFail, SomeDelete;
    WonSound(c, pools, kv, turns);
    TryEnds(c, pools, kv, turns);
    match TryDetach(c, pools, kv, turns)
    case Missed(kv', rest, now, window) => DetachEnds(now.container, pools, kv', rest, losses + [window]);
    case _ =>
  }

  predicate WellFiled<V>(kv: KV<V>, keyOf: V -> string) {
    forall k :: k in kv ==> keyOf(kv[k].value) == k
  }

  /** Every write goes under the key of the record written, so records stay under the key they encode. */
  lemma CallsKeepFiled<V>(kv: KV<V>, keyOf: V -> string, value: V, version: int, key: string, fails: bool)
    requires WellFiled(kv, keyOf)
    ensures WellFiled(PutReply(kv, keyOf(value), value, fails).0, keyOf)
    ensures WellFiled(SwapReply(kv, keyOf(value), version, value, fails).0, keyOf)
    ensures WellFiled(DeleteReply(kv, key, fails).0, keyOf)
  {
  }

  /**
   Why records must sit under the key they encode: two that have changed places send the loop round for ever with
   nobody interfering. The Get of the first loads a record of the second's container, whose swap is lost to
   the other, which brings the first container back; the store is as before.
   */
  lemma MisfiledRecordsLoop(pools: seq<string>)
    ensures var c, d := Container("c", "host"), Container("d", "host");
      var ofC, ofD := ContainerInfo(c, [IP("p", "a")]), ContainerInfo(d, [IP("p", "b")]);
      var kv := map[ContainerKey(c) := Entry(ofD, 1), ContainerKey(d) := Entry(ofC, 2)];
      && GetReply(kv, ContainerKey(c), false) == Read(ofD, 1)
      && ContainerInfoKey(KeptRecord(ofD, pools)) == ContainerKey(d)
      && SwapReply(kv, ContainerKey(d), 1, KeptRecord(ofD, pools), false) == (kv, Lost(ofC, 2))
      && ContainerInfoKey(ofC) == ContainerKey(c)
  {
    var c, d := Container("c", "host"), Container("d", "host");
    assert ContainerKey(c)[|ContainerKey(c)| - 1] == 'c' && ContainerKey(d)[|ContainerKey(d)| - 1] == 'd';
  }

  /** Both parts in their order make up the whole, each element once. */
  predicate Merges(a: seq<IP>, b: seq<IP>, all: seq<IP>)
    decreases |all|
  {
    if all == [] then a == [] && b == []
    else
      || (a != [] && a[0] == all[0] && Merges(a[1..], b, all[1..]))
      || (b != [] && b[0] == all[0] && Merges(a, b[1..], all[1..]))
  }

  predicate AllWithin(s: seq<IP>, pools: seq<string>, inside: bool) {
    forall i :: 0 <= i < |s| ==> (s[i].poolID in pools) == inside
  }

  /** The two lists the helper writes and releases are a split of the record by pool. */
  lemma {:induction false} SplitByPools(all: seq<IP>, pools: seq<string>)
    ensures var kept, released := Within(all, pools, false), Within(all, pools, true);
      && Merges(kept, released, all)
      && AllWithin(kept, pools, false) && AllWithin(released, pools, true)
      && multiset(kept) + multiset(released) == multiset(all)
  {
    if all != [] {
      SplitByPools(all[1..], pools);
      assert all == [all[0]] + all[1..];
      var kept, released := Within(all, pools, false), Within(all, pools, true);
      if all[0].poolID in pools {
        assert released == [all[0]] + Within(all[1..], pools, true);
        assert released[1..] == Within(all[1..], pools, true);
      } else {
        assert kept == [all[0]] + Within(all[1..], pools, false);
        assert kept[1..] == Within(all[1..], pools, false);
      }
    }
  }

  /** And the only such split, so nothing else could have been written or released. */
  lemma {:induction false} SplitUnique(kept: seq<IP>, released: seq<IP>, all: seq<IP>, pools: seq<string>)
    requires Merges(kept, released, all) && AllWithin(kept, pools, false) && AllWithin(released, pools, true)
    ensures kept == Within(all, pools, false) && released == Within(all, pools, true)
    decreases |all|
  {
    if all != [] {
      if kept != [] && kept[0] == all[0] && Merges(kept[1..], released, all[1..]) {
        SplitUnique(kept[1..], released, all[1..], pools);
      } else {
        SplitUnique(kept, released[1..], all[1..], pools);
      }
    }
  }

  // ----- create, then remove, with nobody interfering

  predicate Listed(ips: seq<IP>, k: string) {
    exists i :: 0 <= i < |ips| && KeyOf(ips[i]) == k
  }

  predicate DistinctKeys(ips: seq<IP>) {
    forall i, j :: 0 <= i < j < |ips| ==> KeyOf(ips[i]) != KeyOf(ips[j])
  }

  lemma ListedCons(ips: seq<IP>, k: string)
    requires ips != []
    ensures Listed(ips, k) <==> k == KeyOf(ips[0]) || Listed(ips[1..], k)
  {
    if Listed(ips, k) && k != KeyOf(ips[0]) {
      var i :| 0 <= i < |ips| && KeyOf(ips[i]) == k;
      assert ips[1..][i - 1] == ips[i];
    }
    if Listed(ips[1..], k) {
      var i :| 0 <= i < |ips[1..]| && KeyOf(ips[1..][i]) == k;
      assert ips[i + 1] == ips[1..][i];
    }
  }

  lemma HeadNotInTail(ips: seq<IP>)
    requires ips != [] && DistinctKeys(ips)
    ensures !Listed(ips[1..], KeyOf(ips[0])) && DistinctKeys(ips[1..])
  {
    assert forall i :: 0 <= i < |ips[1..]| ==> ips[1..][i] == ips[i + 1];
  }

  function Held(kv: KV<IPInfo>, k: string): Option<Entry<IPInfo>> {
    if k in kv then Some(kv[k]) else None
  }

  /** One more borrower, and one version on. */
  function Borrowed(before: Entry<IPInfo>, c: Container): Entry<IPInfo> {
    Entry(before.value.(attrs := Some(before.value.Borrowers() + [c])), before.version + 1)
  }

  /** Exactly the listed records that exist have c as one more borrower. */
  ghost predicate BorrowedAll(env: Env, env': Env, c: Container, ips: seq<IP>) {
    && env' == env.(kv := env'.kv)
    && env'.kv.Keys == env.kv.Keys
    && forall k :: k in env.kv ==> env'.kv[k] == if Listed(ips, k) then Borrowed(env.kv[k], c) else env.kv[k]
  }

  lemma BorrowOneOutcome(env: Env, c: Container, ip: IP)
    requires Quiet(env) && Sound(env.kv)
    ensures Perform(Borrow(ip, c), env).0 ==
      if KeyOf(ip) in env.kv then env.(kv := env.kv[KeyOf(ip) := Borrowed(env.kv[KeyOf(ip)], c)]) else env
    ensures Sound(Perform(Borrow(ip, c), env).0.kv)
  {
    hide Perform;
    QuietBorrow(env, ip, c);
  }

  lemma BorrowedCons(env: Env, env1: Env, env': Env, c: Container, ips: seq<IP>)
    requires ips != [] && DistinctKeys(ips) && BorrowedAll(env1, env', c, ips[1..])
    requires var k := KeyOf(ips[0]);
      env1 == if k in env.kv then env.(kv := env.kv[k := Borrowed(env.kv[k], c)]) else env
    ensures BorrowedAll(env, env', c, ips)
  {
    HeadNotInTail(ips);
    hide Listed, Borrowed;
    forall k | k in env.kv ensures env'.kv[k] == if Listed(ips, k) then Borrowed(env.kv[k], c) else env.kv[k] {
      ListedCons(ips, k);
    }
  }

  /** Borrowing goes on past an IP that cannot be borrowed. */
  lemma {:induction false} BorrowAllEffect(env: Env, c: Container, ips: seq<IP>)
    requires Quiet(env) && Sound(env.kv) && DistinctKeys(ips)
    ensures BorrowedAll(env, BorrowAll(env, c, ips), c, ips) && Sound(BorrowAll(env, c, ips).kv)
    decreases ips
  {
    hide Perform, Sound, BorrowedAll;
    if ips == [] {
      NothingBorrowed(env, c);
    } else {
      var env1 := Perform(Borrow(ips[0], c), env).0;
      BorrowOneOutcome(env, c, ips[0]);
      HeadNotInTail(ips);
      BorrowAllEffect(env1, c, ips[1..]);
      BorrowedCons(env, env1, BorrowAll(env, c, ips), c, ips);
    }
  }

  lemma NothingBorrowed(env: Env, c: Container)
    ensures BorrowedAll(env, env, c, [])
  {
  }

  /**
   What giving back one address makes of its record: it is deleted when nobody else borrows it and it is not in use;
   otherwise it is left without c, and unwritten if nobody borrowed it.
   */
  function GivenBack(before: Entry<IPInfo>, c: Container): Option<Entry<IPInfo>> {
    var others := Without(before.value.Borrowers(), c);
    if others == [] && InUse !in before.value.status then None
    else if before.value.Borrowers() == [] then Some(before)
    else Some(Entry(before.value.(attrs := Some(others)), before.version + 1))
  }

  predicate IsFreed(kv: KV<IPInfo>, c: Container, k: string) {
    k in kv && GivenBack(kv[k], c) == None
  }

  function FreedBy(kv: KV<IPInfo>, c: Container, ips: seq<IP>): set<string> {
    set i | 0 <= i < |ips| && IsFreed(kv, c, KeyOf(ips[i])) :: ips[i].address
  }

  ghost predicate GivenBackAll(env: Env, env': Env, c: Container, ips: seq<IP>) {
    && env' == env.(kv := env'.kv, taken := env.taken - FreedBy(env.kv, c, ips))
    && forall k :: Held(env'.kv, k) ==
         if k in env.kv && Listed(ips, k) then GivenBack(env.kv[k], c) else Held(env.kv, k)
  }

  function GivenBackOne(env: Env, c: Container, ip: IP): Env {
    if KeyOf(ip) !in env.kv then env
    else
      match GivenBack(env.kv[KeyOf(ip)], c)
      case None => env.(kv := Dropped(env.kv, KeyOf(ip)), taken := env.taken - {ip.address})
      case Some(entry) => env.(kv := env.kv[KeyOf(ip) := entry])
  }

  /** Return and Unalloc together, on one IP. */
  lemma ReleaseOneOutcome(env: Env, c: Container, ip: IP)
    requires Quiet(env) && Sound(env.kv)
    ensures ReleaseOne(env, c, ip) == GivenBackOne(env, c, ip) && Sound(ReleaseOne(env, c, ip).kv)
  {
    hide Perform;
    var key := KeyOf(ip);
    var env1 := Perform(Return(ip, c), env).0;
    QuietReturn(env, ip, c);
    QuietUnalloc(env1, ip, false);
    if key in env.kv {
      assert key in env1.kv && env1.kv[key].value.status == env.kv[key].value.status;
      assert env1.kv[key].value.Borrowers() == Without(env.kv[key].value.Borrowers(), c);
      assert env1.kv == env.kv || env1.kv == env.kv[key := env1.kv[key]];
      assert Dropped(env1.kv, key) == Dropped(env.kv, key);
    }
  }

  lemma FreedCons(kv: KV<IPInfo>, kv1: KV<IPInfo>, c: Container, ips: seq<IP>)
    requires ips != [] && DistinctKeys(ips)
    requires forall k :: k != KeyOf(ips[0]) ==> Held(kv1, k) == Held(kv, k)
    ensures FreedBy(kv, c, ips) ==
      (if IsFreed(kv, c, KeyOf(ips[0])) then {ips[0].address} else {}) + FreedBy(kv1, c, ips[1..])
  {
    hide KeyOf, GivenBack;
    var rest := ips[1..];
    forall i | 0 <= i < |rest| ensures IsFreed(kv1, c, KeyOf(rest[i])) <==> IsFreed(kv, c, KeyOf(ips[i + 1])) {
      assert rest[i] == ips[i + 1] && KeyOf(ips[0]) != KeyOf(ips[i + 1]);
      assert Held(kv1, KeyOf(rest[i])) == Held(kv, KeyOf(rest[i]));
    }
    forall a | a in FreedBy(kv, c, ips) && !(IsFreed(kv, c, KeyOf(ips[0])) && a == ips[0].address)
      ensures a in FreedBy(kv1, c, rest)
    {
      var i :| 0 <= i < |ips| && IsFreed(kv, c, KeyOf(ips[i])) && ips[i].address == a;
      assert rest[i - 1] == ips[i];
    }
    forall a | a in FreedBy(kv1, c, rest) ensures a in FreedBy(kv, c, ips) {
      var i :| 0 <= i < |rest| && IsFreed(kv1, c, KeyOf(rest[i])) && rest[i].address == a;
      assert ips[i + 1] == rest[i];
    }
  }

  lemma GivenBackOneFrame(env: Env, c: Container, ip: IP, k: string)
    ensures var env1 := GivenBackOne(env, c, ip);
      Held(env1.kv, k) == if k == KeyOf(ip) && k in env.kv then GivenBack(env.kv[k], c) else Held(env.kv, k)
    ensures GivenBackOne(env, c, ip).taken ==
      env.taken - if IsFreed(env.kv, c, KeyOf(ip)) then {ip.address} else {}
    ensures GivenBackOne(env, c, ip).turns == env.turns && GivenBackOne(env, c, ip).calico == env.calico
  {
  }

  /** Giving back the first address and then the rest is giving back all. */
  lemma GivenBackCons(env: Env, env': Env, c: Container, ips: seq<IP>)
    requires ips != [] && DistinctKeys(ips) && GivenBackAll(GivenBackOne(env, c, ips[0]), env', c, ips[1..])
    ensures GivenBackAll(env, env', c, ips)
  {
    hide GivenBackOne, GivenBack, FreedBy, Listed, IsFreed, DistinctKeys, KeyOf;
    var env1 := GivenBackOne(env, c, ips[0]);
    HeadNotInTail(ips);
    forall k ensures Held(env1.kv, k) ==
        if k == KeyOf(ips[0]) && k in env.kv then GivenBack(env.kv[k], c) else Held(env.kv, k)
    {
      GivenBackOneFrame(env, c, ips[0], k);
    }
    GivenBackOneFrame(env, c, ips[0], "");
    FreedCons(env.kv, env1.kv, c, ips);
    var first := if IsFreed(env.kv, c, KeyOf(ips[0])) then {ips[0].address} else {};
    assert env.taken - (first + FreedBy(env1.kv, c, ips[1..])) == env1.taken - FreedBy(env1.kv, c, ips[1..]);
    forall k ensures Held(env'.kv, k) ==
        if k in env.kv && Listed(ips, k) then GivenBack(env.kv[k], c) else Held(env.kv, k)
    {
      ListedCons(ips, k);
      assert Held(env1.kv, k) == if k == KeyOf(ips[0]) && k in env.kv then GivenBack(env.kv[k], c) else Held(env.kv, k);
    }
  }

  /** Exactly the listed records change, each as giving it back makes it, and only their addresses are freed. */
  lemma {:induction false} ReleaseAllEffect(env: Env, c: Container, ips: seq<IP>)
    requires Quiet(env) && Sound(env.kv) && DistinctKeys(ips)
    ensures GivenBackAll(env, ReleaseAll(env, c, ips), c, ips)
    decreases ips
  {
    hide ReleaseOne, GivenBackAll, GivenBackOne;
    if ips == [] {
      NothingGivenBack(env, c);
    } else {
      var env1 := ReleaseOne(env, c, ips[0]);
      ReleaseOneOutcome(env, c, ips[0]);
      GivenBackOneFrame(env, c, ips[0], "");
      HeadNotInTail(ips);
      ReleaseAllEffect(env1, c, ips[1..]);
      GivenBackCons(env, ReleaseAll(env, c, ips), c, ips);
    }
  }

  lemma NothingGivenBack(env: Env, c: Container)
    ensures GivenBackAll(env, env, c, [])
  {
    assert FreedBy(env.kv, c, []) == {};
  }

  // ----- giving up the addresses of some pools, with nobody interfering

  /** What an unforced Unalloc deletes and frees. */
  predicate Unborrowed(kv: KV<IPInfo>, k: string) {
    k != "" && k in kv && InUse !in kv[k].value.status && kv[k].value.Borrowers() == []
  }

  function UnborrowedAmong(kv: KV<IPInfo>, ips: seq<IP>): set<string> {
    set i | 0 <= i < |ips| && Unborrowed(kv, KeyOf(ips[i])) :: ips[i].address
  }

  /** Exactly the records of the listed IPs that are unborrowed and not in use are gone, and their addresses freed. */
  ghost predicate UnborrowedGone(env: Env, env': Env, ips: seq<IP>) {
    && env' == env.(kv := env'.kv, taken := env.taken - UnborrowedAmong(env.kv, ips))
    && (forall k :: k in env'.kv <==> k in env.kv && !(Listed(ips, k) && Unborrowed(env.kv, k)))
    && (forall k :: k in env'.kv ==> env'.kv[k] == env.kv[k])
  }

  predicate KeysNameIPs(ips: seq<IP>) {
    forall i, j :: 0 <= i < |ips| && 0 <= j < |ips| && KeyOf(ips[i]) == KeyOf(ips[j]) ==> ips[i] == ips[j]
  }

  lemma UnallocOneOutcome(env: Env, ip: IP)
    requires Quiet(env) && Sound(env.kv)
    ensures Perform(Unalloc(ip, false), env).0 ==
      if Unborrowed(env.kv, KeyOf(ip)) then
        env.(kv := Dropped(env.kv, KeyOf(ip)), taken := env.taken - {ip.address})
      else env
  {
    hide Perform;
    QuietUnalloc(env, ip, false);
  }

  lemma UnborrowedCons(kv: KV<IPInfo>, kv1: KV<IPInfo>, ips: seq<IP>)
    requires ips != [] && KeysNameIPs(ips)
    requires kv1 == if Unborrowed(kv, KeyOf(ips[0])) then Dropped(kv, KeyOf(ips[0])) else kv
    ensures UnborrowedAmong(kv, ips) ==
      (if Unborrowed(kv, KeyOf(ips[0])) then {ips[0].address} else {}) + UnborrowedAmong(kv1, ips[1..])
  {
    hide KeyOf;
    var rest := ips[1..];
    forall a | a in UnborrowedAmong(kv, ips) && a != ips[0].address ensures a in UnborrowedAmong(kv1, rest) {
      var i :| 0 <= i < |ips| && Unborrowed(kv, KeyOf(ips[i])) && ips[i].address == a;
      assert rest[i - 1] == ips[i];
    }
    forall a | a in UnborrowedAmong(kv1, rest) ensures a in UnborrowedAmong(kv, ips) {
      var i :| 0 <= i < |rest| && Unborrowed(kv1, KeyOf(rest[i])) && rest[i].address == a;
      assert ips[i + 1] == rest[i];
    }
    if ips[0].address in UnborrowedAmong(kv, ips) && !Unborrowed(kv, KeyOf(ips[0])) {
      var i :| 0 <= i < |ips| && Unborrowed(kv, KeyOf(ips[i])) && ips[i].address == ips[0].address;
      assert rest[i - 1] == ips[i];
    }
  }

  lemma GoneCons(kv: KV<IPInfo>, kv1: KV<IPInfo>, ips: seq<IP>, k: string)
    requires ips != [] && kv1 == if Unborrowed(kv, KeyOf(ips[0])) then Dropped(kv, KeyOf(ips[0])) else kv
    ensures k in kv && !(Listed(ips, k) && Unborrowed(kv, k)) <==>
      k in kv1 && !(Listed(ips[1..], k) && Unborrowed(kv1, k))
  {
    hide Listed;
    ListedCons(ips, k);
  }

  lemma UnborrowedGoneCons(env: Env, env1: Env, env': Env, ips: seq<IP>)
    requires ips != [] && KeysNameIPs(ips) && UnborrowedGone(env1, env', ips[1..])
    requires env1 ==
      if Unborrowed(env.kv, KeyOf(ips[0])) then
        env.(kv := Dropped(env.kv, KeyOf(ips[0])), taken := env.taken - {ips[0].address})
      else env
    ensures UnborrowedGone(env, env', ips)
  {
    hide UnborrowedAmong, Listed, KeysNameIPs, Unborrowed, KeyOf;
    UnborrowedCons(env.kv, env1.kv, ips);
    var first := if Unborrowed(env.kv, KeyOf(ips[0])) then {ips[0].address} else {};
    assert env1.taken == env.taken - first;
    assert env.taken - (first + UnborrowedAmong(env1.kv, ips[1..])) == env1.taken - UnborrowedAmong(env1.kv, ips[1..]);
    forall k ensures k in env'.kv <==> k in env.kv && !(Listed(ips, k) && Unborrowed(env.kv, k)) {
      GoneCons(env.kv, env1.kv, ips, k);
    }
  }

  /**
   Trying to free a list of IPs deletes and frees exactly those nobody uses or borrows; every other record, with its
   version, and every other address stay.
   */
  lemma {:induction false} UnallocAllEffect(env: Env, ips: seq<IP>)
    requires Quiet(env) && Sound(env.kv) && KeysNameIPs(ips)
    ensures UnborrowedGone(env, UnallocAll(env, ips), ips)
    decreases ips
  {
    hide Perform, UnborrowedGone, Unborrowed, KeysNameIPs;
    if ips == [] {
      NothingGone(env);
    } else {
      var env1 := Perform(Unalloc(ips[0], false), env).0;
      UnallocOneOutcome(env, ips[0]);
      TailNamesIPs(ips);
      UnallocAllEffect(env1, ips[1..]);
      UnborrowedGoneCons(env, env1, UnallocAll(env, ips), ips);
    }
  }

  lemma NothingGone(env: Env)
    ensures UnborrowedGone(env, env, [])
  {
    assert UnborrowedAmong(env.kv, []) == {};
  }

  lemma TailNamesIPs(ips: seq<IP>)
    requires ips != [] && KeysNameIPs(ips)
    ensures KeysNameIPs(ips[1..])
  {
    assert forall i :: 0 <= i < |ips[1..]| ==> ips[1..][i] == ips[i + 1];
  }

  /**
   With nobody interfering the loop ends in its first round: a container without a record, or with one that lists no
   addresses, is left alone, and any other record is committed with only the addresses outside the pools.
   */
  lemma QuietDetach(c: Container, pools: seq<string>, kv: KV<ContainerInfo>)
    requires Keyed(kv, [], ContainerInfoKey)
    ensures var key := ContainerKey(c);
      Detach(c, pools, kv, [], []) ==
        if key == "" then Detached(kv, [], Some(ErrEmptyKey), None, [])
        else if key !in kv || kv[key].value.addresses == [] then Detached(kv, [], None, None, [])
        else
          var info, n := kv[key].value, kv[key].version;
          var kept := info.(addresses := Within(info.addresses, pools, false));
          Detached(kv[key := Entry(kept, n + 1)], [], None, Some(Commit(info, n, kv, [])), [])
  {
  }

  /** A Get that fails ends the loop with its error, and so does a swap that fails; neither writes anything. */
  lemma FailedDetach(c: Container, pools: seq<string>, kv: KV<ContainerInfo>, turns: seq<Turn<ContainerInfo>>)
    requires Keyed(kv, turns, ContainerInfoKey) && turns != []
    ensures var kv1 := Interfere(kv, turns[0].writes);
      var key, end := ContainerKey(c), Detach(c, pools, kv, turns, []);
      && (turns[0].fails ==> end == Detached(kv1, turns[1..], Some(ErrUnavailable), None, []))
      && (!turns[0].fails && |turns| > 1 && turns[1].fails && key != "" && key in kv1 && kv1[key].value.addresses != []
          ==> end == Detached(Interfere(kv1, turns[1].writes), turns[2..], Some(ErrUnavailable), None, []))
  {
    hide Interfere;
    ArriveKeyed(kv, turns, ContainerInfoKey);
  }

  /** An IP of the list is in one of the pools. */
  predicate ListedIn(ips: seq<IP>, pools: seq<string>, k: string) {
    exists i :: 0 <= i < |ips| && KeyOf(ips[i]) == k && ips[i].poolID in pools
  }

  lemma {:induction false} ListedWithin(ips: seq<IP>, pools: seq<string>, k: string)
    ensures Listed(Within(ips, pools, true), k) <==> ListedIn(ips, pools, k)
  {
    if ips != [] {
      ListedWithin(ips[1..], pools, k);
      var released, rest := Within(ips, pools, true), Within(ips[1..], pools, true);
      if ips[0].poolID in pools {
        assert released[1..] == rest;
        ListedCons(released, k);
      }
      if i :| 0 <= i < |ips| && KeyOf(ips[i]) == k && ips[i].poolID in pools {
        assert i > 0 ==> ips[1..][i - 1] == ips[i];
      }
      if i :| 0 <= i < |ips[1..]| && KeyOf(ips[1..][i]) == k && ips[1..][i].poolID in pools {
        assert ips[i + 1] == ips[1..][i];
      }
    }
  }

  lemma {:induction false} WithoutAppend(s: seq<Container>, c: Container)
    ensures Without(s + [c], c) == Without(s, c)
  {
    if s != [] {
      assert (s + [c])[1..] == s[1..] + [c];
      WithoutAppend(s[1..], c);
    }
  }

  /** The record after a create and a remove of c: gone, or with its other borrowers and two versions on. */
  function CreatedAndRemoved(before: Entry<IPInfo>, c: Container): Option<Entry<IPInfo>> {
    var others := Without(before.value.Borrowers(), c);
    if others == [] && InUse !in before.value.status then None
    else Some(Entry(before.value.(attrs := Some(others)), before.version + 2))
  }

  lemma BorrowThenGiveBack(before: Entry<IPInfo>, c: Container)
    ensures GivenBack(Borrowed(before, c), c) == CreatedAndRemoved(before, c)
    ensures GivenBack(Borrowed(before, c), c) == None <==> GivenBack(before, c) == None
  {
    WithoutAppend(before.value.Borrowers(), c);
  }

  lemma FreedSame(env: Env, mid: Env, c: Container, ips: seq<IP>)
    requires BorrowedAll(env, mid, c, ips)
    ensures FreedBy(mid.kv, c, ips) == FreedBy(env.kv, c, ips)
  {
    hide GivenBack, Borrowed, KeyOf;
    forall i | 0 <= i < |ips| ensures IsFreed(mid.kv, c, KeyOf(ips[i])) <==> IsFreed(env.kv, c, KeyOf(ips[i])) {
      assert Listed(ips, KeyOf(ips[i]));
      if KeyOf(ips[i]) in env.kv {
        BorrowThenGiveBack(env.kv[KeyOf(ips[i])], c);
      }
    }
  }

  /**
   Creating a container over fixed IPs and then removing it: of the listed IPs exactly those that are not in use and
   that nobody but the container borrows are deleted and freed, every other listed record is left with the
   other borrowers, two versions on, and nothing else changes.
   */
  lemma CreateThenRemove(env: Env, env': Env, c: Container, ips: seq<IP>)
    requires Quiet(env) && Sound(env.kv) && DistinctKeys(ips)
    requires env' == ReleaseAll(BorrowAll(env, c, ips), c, ips)
    ensures env' == env.(kv := env'.kv, taken := env.taken - FreedBy(env.kv, c, ips))
    ensures forall k ::
        Held(env'.kv, k) == if k in env.kv && Listed(ips, k) then CreatedAndRemoved(env.kv[k], c) else Held(env.kv, k)
  {
    hide BorrowAll, ReleaseAll, FreedBy, Listed, GivenBack, Borrowed, CreatedAndRemoved;
    var mid := BorrowAll(env, c, ips);
    BorrowAllEffect(env, c, ips);
    ReleaseAllEffect(mid, c, ips);
    FreedSame(env, mid, c, ips);
    forall k ensures Held(env'.kv, k) ==
        if k in env.kv && Listed(ips, k) then CreatedAndRemoved(env.kv[k], c) else Held(env.kv, k)
    {
      if k in env.kv {
        BorrowThenGiveBack(env.kv[k], c);
      }
    }
  }

  /** No key of another container's record is this container's. */
  lemma OthersApart(c: Container)
    requires SlashFree(c.hostName) && ContainerKey(c) != ""
    ensures forall d: Container :: SlashFree(d.hostName) && d != c ==> ContainerKey(d) != ContainerKey(c)
  {
    hide ContainerKey;
    forall d: Container | SlashFree(d.hostName) && d != c ensures ContainerKey(d) != ContainerKey(c) {
      if ContainerKey(d) == ContainerKey(c) {
        ContainerKeyInjective(c, d);
      }
    }
  }

  /** The records of all other containers are as they were. */
  ghost predicate OthersKept(kv: KV<ContainerInfo>, kv': KV<ContainerInfo>, c: Container) {
    forall d: Container :: SlashFree(d.hostName) && d != c ==>
      && (ContainerKey(d) in kv' <==> ContainerKey(d) in kv)
      && (ContainerKey(d) in kv ==> kv'[ContainerKey(d)] == kv[ContainerKey(d)])
  }

  /**
   The container's own record: written by the create and gone after the remove, while the record of every other
   container, of this host or another, stays as it is throughout.
   */
  lemma RecordComesAndGoes(kv: KV<ContainerInfo>, c: Container, ips: seq<IP>)
    requires SlashFree(c.hostName) && ContainerKey(c) != ""
    ensures var (kv1, put) := PutReply(kv, ContainerKey(c), ContainerInfo(c, ips), false);
      var (kv2, del) := DeleteReply(kv1, ContainerKey(c), false);
      && put == Ok && del == Ok
      && kv1[ContainerKey(c)].value == ContainerInfo(c, ips) && OthersKept(kv, kv1, c)
      && kv2 == Dropped(kv, ContainerKey(c)) && OthersKept(kv, kv2, c)
  {
    var key := ContainerKey(c);
    OthersApart(c);
    hide ContainerKey;
    assert Dropped(Written(kv, key, ContainerInfo(c, ips)), key) == Dropped(kv, key);
  }

  /** Creating and removing a container on the program's own objects. */
  method CreateAndRemove(helper: Helper, containerID: string, ips: seq<IP>)
    returns (created: Option<Error>, removed: Option<Error>)
    requires helper.Valid() && containerID != "" && helper.hostname != "" && SlashFree(helper.hostname)
    requires helper.store.turns == [] && Quiet(helper.allocator.Now()) && Sound(helper.allocator.store.kv)
    requires DistinctKeys(ips)
    modifies helper.store, helper.allocator.store, helper.allocator.calico
    ensures created == None && removed == None
    ensures var c := Container(containerID, helper.hostname);
      && helper.allocator.Now() == ReleaseAll(BorrowAll(old(helper.allocator.Now()), c, ips), c, ips)
      && helper.store.kv == Dropped(old(helper.store.kv), ContainerKey(c))
      && OthersKept(old(helper.store.kv), helper.store.kv, c)
  {
    var c := Container(containerID, helper.hostname);
    RecordComesAndGoes(helper.store.kv, c, ips);
    created := helper.InitContainerInfoRecord(c, ips);
    removed := helper.ReleaseContainerAddresses(containerID);
  }

  /** What giving up the addresses of some pools makes of the container's record. */
  ghost predicate PoolsDetached(kv: KV<ContainerInfo>, kv': KV<ContainerInfo>, c: Container, pools: seq<string>)
    requires ContainerKey(c) in kv
  {
    var before := kv[ContainerKey(c)];
    && kv'.Keys == kv.Keys && OthersKept(kv, kv', c)
    && kv'[ContainerKey(c)].version == before.version + 1
    && kv'[ContainerKey(c)].value == before.value.(addresses := kv'[ContainerKey(c)].value.addresses)
    && exists released :: Merges(kv'[ContainerKey(c)].value.addresses, released, before.value.addresses)
         && AllWithin(kv'[ContainerKey(c)].value.addresses, pools, false) && AllWithin(released, pools, true)
  }

  lemma DetachedPools(kv: KV<ContainerInfo>, c: Container, pools: seq<string>)
    requires SlashFree(c.hostName) && ContainerKey(c) != "" && ContainerKey(c) in kv
    ensures var info, n := kv[ContainerKey(c)].value, kv[ContainerKey(c)].version;
      var kept := info.(addresses := Within(info.addresses, pools, false));
      PoolsDetached(kv, kv[ContainerKey(c) := Entry(kept, n + 1)], c, pools)
  {
    OthersApart(c);
    hide ContainerKey;
    SplitByPools(kv[ContainerKey(c)].value.addresses, pools);
  }

  /**
   Releasing by pools on the program's own objects. With a record that lists addresses, the record keeps exactly the
   addresses outside the pools; of those inside exactly the IPs that nobody uses or borrows are deleted and freed.
   Otherwise nothing happens. No other record of either kind changes.
   */
  method ReleaseByPools(helper: Helper, containerID: string, pools: seq<string>) returns (err: Option<Error>)
    requires helper.Valid() && containerID != "" && helper.hostname != "" && SlashFree(helper.hostname)
    requires helper.store.turns == [] && Keyed(helper.store.kv, [], ContainerInfoKey)
    requires Quiet(helper.allocator.Now()) && Sound(helper.allocator.store.kv)
    requires var key := ContainerKey(Container(containerID, helper.hostname));
      key in helper.store.kv ==> KeysNameIPs(Within(helper.store.kv[key].value.addresses, pools, true))
    modifies helper.store, helper.allocator.store, helper.allocator.calico
    ensures var c := Container(containerID, helper.hostname);
      var kv, env, env' := old(helper.store.kv), old(helper.allocator.Now()), helper.allocator.Now();
      && err == None
      && if ContainerKey(c) !in kv || kv[ContainerKey(c)].value.addresses == [] then
           helper.store.kv == kv && env' == env
         else
           var ips := kv[ContainerKey(c)].value.addresses;
           && PoolsDetached(kv, helper.store.kv, c, pools)
           && env' == env.(kv := env'.kv, taken := env.taken - UnborrowedAmong(env.kv, Within(ips, pools, true)))
           && (forall k :: k in env'.kv <==> k in env.kv && !(ListedIn(ips, pools, k) && Unborrowed(env.kv, k)))
           && (forall k :: k in env'.kv ==> env'.kv[k] == env.kv[k])
  {
    hide Detach, UnallocAll, PoolsDetached, Unborrowed, UnborrowedAmong, ListedIn, KeysNameIPs, Keyed;
    ghost var c, kv, env := Container(containerID, helper.hostname), helper.store.kv, helper.allocator.Now();
    QuietDetach(c, pools, kv);
    if ContainerKey(c) in kv && kv[ContainerKey(c)].value.addresses != [] {
      ghost var ips := kv[ContainerKey(c)].value.addresses;
      DetachedPools(kv, c, pools);
      UnallocAllEffect(env, Within(ips, pools, true));
      forall k ensures Listed(Within(ips, pools, true), k) <==> ListedIn(ips, pools, k) {
        ListedWithin(ips, pools, k);
      }
    }
    err := helper.ReleaseContainerAddressesByIPPools(containerID, pools);
  }
}
