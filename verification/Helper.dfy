/** The container side: recording which fixed IPs a container borrows, and giving them back. */
module Helper {
  import opened Types
  import opened Codecs
  import opened Etcd
  import opened FixedIPOps
  import opened FixedIPAllocator

  /** Borrows every listed IP; failures are only logged. */
  function BorrowAll(env: Env, c: Container, ips: seq<IP>): Env
    decreases ips
  {
    if ips == [] then env else BorrowAll(Perform(Borrow(ips[0], c), env).0, c, ips[1..])
  }

  function ReleaseOne(env: Env, c: Container, ip: IP): Env {
    Perform(Unalloc(ip, false), Perform(Return(ip, c), env).0).0
  }

  /** Returns and then tries to free every listed IP; failures are only logged. */
  function ReleaseAll(env: Env, c: Container, ips: seq<IP>): Env
    decreases ips
  {
    if ips == [] then env else ReleaseAll(ReleaseOne(env, c, ips[0]), c, ips[1..])
  }

  /** Tries to free every listed IP without returning it first. */
  function UnallocAll(env: Env, ips: seq<IP>): Env
    decreases ips
  {
    if ips == [] then env else UnallocAll(Perform(Unalloc(ips[0], false), env).0, ips[1..])
  }

  /** The addresses of the given pools, or those of no given pool. */
  function Within(addresses: seq<IP>, pools: seq<string>, inside: bool): seq<IP> {
    if addresses == [] then []
    else
      var rest := Within(addresses[1..], pools, inside);
      if (addresses[0].poolID in pools) == inside then [addresses[0]] + rest else rest
  }

  /** `before` is the store the winning swap found, `window` what the others wrote between it and the Get. */
  datatype Commit = Commit(read: ContainerInfo, version: nat, before: KV<ContainerInfo>,
                           window: seq<Rival<ContainerInfo>>)

  datatype Detached = Detached(
    kv: KV<ContainerInfo>,
    rest: seq<Turn<ContainerInfo>>,
    err: Option<Error>,
    commit: Option<Commit>,
    losses: seq<seq<Rival<ContainerInfo>>>)

  /** What the others write just before our next call. */
  function NextWindow<V>(turns: seq<Turn<V>>): seq<Rival<V>> {
    if turns == [] then [] else turns[0].writes
  }

  /** A swap is lost only to somebody who wrote the key after it was read. */
  lemma LostNeedsRival<V>(kv: KV<V>, turns: seq<Turn<V>>, key: string, version: int, value: V)
    requires key in kv ==> kv[key].version == version
    ensures var s := Arrive(kv, turns);
      SwapReply(s.kv, key, version, value, s.fails).1.Lost? ==> turns != [] && Touches(NextWindow(turns), key)
  {
    if turns != [] && !Touches(turns[0].writes, key) {
      InterfereFrame(kv, turns[0].writes, key);
    }
  }

  function KeptRecord(info: ContainerInfo, pools: seq<string>): ContainerInfo {
    info.(addresses := Within(info.addresses, pools, false))
  }

  datatype Attempt =
    | Stopped(kv: KV<ContainerInfo>, rest: seq<Turn<ContainerInfo>>, err: Option<Error>)
    | Missed(kv: KV<ContainerInfo>, rest: seq<Turn<ContainerInfo>>, now: ContainerInfo,
             window: seq<Rival<ContainerInfo>>)
    | Won(kv: KV<ContainerInfo>, rest: seq<Turn<ContainerInfo>>, commit: Commit)

  /** The swap that keeps the addresses outside the pools, against a record just read. */
  function TrySwap(info: ContainerInfo, n: nat, pools: seq<string>, kv: KV<ContainerInfo>,
                   turns: seq<Turn<ContainerInfo>>): (r: Attempt)
    requires Keyed(kv, turns, ContainerInfoKey)
    requires ContainerInfoKey(info) in kv && kv[ContainerInfoKey(info)] == Entry(info, n)
    ensures Keyed(r.kv, r.rest, ContainerInfoKey)
    ensures r.Missed? ==> |r.rest| < |turns| && Touches(r.window, ContainerInfoKey(info))
  {
    ArriveKeyed(kv, turns, ContainerInfoKey);
    LostNeedsRival(kv, turns, ContainerInfoKey(info), n, KeptRecord(info, pools));
    var s := Arrive(kv, turns);
    var (kv', reply) := SwapReply(s.kv, ContainerInfoKey(info), n, KeptRecord(info, pools), s.fails);
    match reply
    case Lost(v, m) => Missed(kv', s.rest, v, NextWindow(turns))
    case Err(e) => Stopped(kv', s.rest, Some(e))
    case _ => Won(kv', s.rest, Commit(info, n, s.kv, NextWindow(turns)))
  }

  /** One Get and, if there are addresses, one swap. */
  function TryDetach(c: Container, pools: seq<string>, kv: KV<ContainerInfo>,
                     turns: seq<Turn<ContainerInfo>>): (r: Attempt)
    requires Keyed(kv, turns, ContainerInfoKey)
    ensures Keyed(r.kv, r.rest, ContainerInfoKey)
    ensures r.Missed? ==> |r.rest| < |turns| && Touches(r.window, ContainerKey(c))
  {
    ArriveKeyed(kv, turns, ContainerInfoKey);
    var g := Arrive(kv, turns);
    match GetReply(g.kv, ContainerKey(c), g.fails)
    case Read(info, n) =>
      if info.addresses == [] then Stopped(g.kv, g.rest, None) else TrySwap(info, n, pools, g.kv, g.rest)
    case Err(e) => Stopped(g.kv, g.rest, if e == ErrKVNotExists then None else Some(e))
    case _ => Stopped(g.kv, g.rest, None)
  }

  /** Attempts until a swap wins or a call fails. */
  function Detach(c: Container, pools: seq<string>, kv: KV<ContainerInfo>, turns: seq<Turn<ContainerInfo>>,
                  losses: seq<seq<Rival<ContainerInfo>>>): Detached
    requires Keyed(kv, turns, ContainerInfoKey)
    decreases |turns|
  {
    match TryDetach(c, pools, kv, turns)
    case Stopped(kv', rest, err) => Detached(kv', rest, err, None, losses)
    case Missed(kv', rest, now, window) => Detach(now.container, pools, kv', rest, losses + [window])
    case Won(kv', rest, commit) => Detached(kv', rest, None, Some(commit), losses)
  }

  class Helper {
    const allocator: FixedIPAllocator
    const store: EtcdStore<ContainerInfo>
    const hostname: string

    constructor (allocator: FixedIPAllocator, store: EtcdStore<ContainerInfo>, hostname: string)
      ensures this.allocator == allocator && this.store == store && this.hostname == hostname
    {
      this.allocator := allocator;
      this.store := store;
      this.hostname := hostname;
    }

    /** The two stores and Calico are three different objects. */
    predicate Valid() {
      && store as object != allocator.store && store as object != allocator.calico
      && allocator.store as object != allocator.calico
    }

    method InitContainerInfoRecord(container: Container, fixedIPs: seq<IP>) returns (err: Option<Error>)
      requires Valid()
      modifies store, allocator.store, allocator.calico
      ensures allocator.Now() == BorrowAll(old(allocator.Now()), container, fixedIPs)
      ensures var a := Arrive(old(store.kv), old(store.turns));
        var (kv', reply) := PutReply(a.kv, ContainerKey(container), ContainerInfo(container, fixedIPs), a.fails);
        store.kv == kv' && store.turns == a.rest && err == ErrorOf(reply)
    {
      ghost var goal := BorrowAll(allocator.Now(), container, fixedIPs);
      var i := 0;
      while i < |fixedIPs|
        invariant 0 <= i <= |fixedIPs|
        invariant goal == BorrowAll(allocator.Now(), container, fixedIPs[i..])
        invariant store.kv == old(store.kv) && store.turns == old(store.turns)
      {
        assert fixedIPs[i..][1..] == fixedIPs[i + 1..];
        var _ := allocator.BorrowFixedIP(fixedIPs[i], container);
        i := i + 1;
      }
      var codec := new Codec(ContainerInfoKey, ContainerInfo(container, fixedIPs));
      err := store.Put(codec);
    }

    method ReleaseContainerAddresses(containerID: string) returns (err: Option<Error>)
      requires Valid()
      modifies store, allocator.store, allocator.calico
      ensures var c := Container(containerID, hostname);
        var a := Arrive(old(store.kv), old(store.turns));
        var (kv', reply) := DeleteReply(a.kv, ContainerKey(c), a.fails);
        && store.kv == kv' && store.turns == a.rest
        && err == (if reply == Err(ErrKVNotExists) then None else ErrorOf(reply))
        && (reply.Ok? ==> ContainerKey(c) in a.kv)
        && allocator.Now() ==
           if reply.Ok? then ReleaseAll(old(allocator.Now()), c, a.kv[ContainerKey(c)].value.addresses)
           else old(allocator.Now())
    {
      var container := Container(containerID, hostname);
      var codec := new Codec(ContainerInfoKey, ContainerInfo(container, []));
      err := store.GetAndDelete(codec);
      if err.Some? {
        if err == Some(ErrKVNotExists) {
          return None;
        }
        return err;
      }
      var addresses := codec.value.addresses;
      ghost var goal := ReleaseAll(allocator.Now(), container, addresses);
      ghost var kv', turns' := store.kv, store.turns;
      var i := 0;
      while i < |addresses|
        invariant 0 <= i <= |addresses|
        invariant goal == ReleaseAll(allocator.Now(), container, addresses[i..])
        invariant store.kv == kv' && store.turns == turns'
      {
        assert addresses[i..][1..] == addresses[i + 1..];
        var _ := allocator.ReturnFixedIP(addresses[i], container);
        var _ := allocator.UnallocFixedIP(addresses[i], false);
        i := i + 1;
      }
    }

    /** The body of the compare-and-swap loop: `stop` is a return out of it. */
    method DetachOnce(codec: Codec<ContainerInfo>, pools: seq<string>)
      returns (stop: bool, updated: bool, releases: seq<IP>, err: Option<Error>)
      requires Keyed(store.kv, store.turns, ContainerInfoKey) && codec.keyOf == ContainerInfoKey
      modifies store, codec
      ensures var r := TryDetach(old(codec.value.container), pools, old(store.kv), old(store.turns));
        && store.kv == r.kv && store.turns == r.rest
        && match r
           case Stopped(_, _, e) => stop && err == e
           case Missed(_, _, now, _) => !stop && !updated && codec.value == now
           case Won(_, _, commit) =>
             !stop && updated && err == None && releases == Within(commit.read.addresses, pools, true)
    {
      stop, updated, releases := true, false, [];
      err := store.Get(codec);
      if err.Some? {
        err := if err == Some(ErrKVNotExists) then None else err;
        return;
      }
      if codec.value.addresses == [] {
        return;
      }
      var addresses;
      addresses, releases := Split(codec.value.addresses, pools);
      codec.value := codec.value.(addresses := addresses);
      updated, err := store.UpdateElseGet(codec);
      stop := err.Some?;
    }

    method ReleaseContainerAddressesByIPPools(containerID: string, pools: seq<string>) returns (err: Option<Error>)
      requires Valid() && Keyed(store.kv, store.turns, ContainerInfoKey)
      modifies store, allocator.store, allocator.calico
      ensures var end := Detach(Container(containerID, hostname), pools, old(store.kv), old(store.turns), []);
        && store.kv == end.kv && store.turns == end.rest && err == end.err
        && allocator.Now() ==
           if end.commit.None? then old(allocator.Now())
           else UnallocAll(old(allocator.Now()), Within(end.commit.value.read.addresses, pools, true))
    {
      var codec := new Codec(ContainerInfoKey, ContainerInfo(Container(containerID, hostname), []));
      ghost var goal := Detach(codec.value.container, pools, store.kv, store.turns, []);
      ghost var losses := [];
      var updated, releases := false, [];
      while !updated
        invariant allocator.Now() == old(allocator.Now())
        invariant Keyed(store.kv, store.turns, ContainerInfoKey)
        invariant fresh(codec) && codec.keyOf == ContainerInfoKey
        invariant !updated ==> goal == Detach(codec.value.container, pools, store.kv, store.turns, losses)
        invariant updated ==> store.kv == goal.kv && store.turns == goal.rest && goal.err == None
        invariant updated ==> goal.commit.Some? && releases == Within(goal.commit.value.read.addresses, pools, true)
        decreases !updated, |store.turns|
      {
        ghost var attempt := TryDetach(codec.value.container, pools, store.kv, store.turns);
        var stop;
        stop, updated, releases, err := DetachOnce(codec, pools);
        if stop {
          return;
        }
        if attempt.Missed? {
          losses := losses + [attempt.window];
        }
      }
      ghost var after := UnallocAll(allocator.Now(), releases);
      ghost var kv', turns' := store.kv, store.turns;
      var i := 0;
      while i < |releases|
        invariant 0 <= i <= |releases|
        invariant after == UnallocAll(allocator.Now(), releases[i..])
        invariant store.kv == kv' && store.turns == turns'
      {
        assert releases[i..][1..] == releases[i + 1..];
        var _ := allocator.UnallocFixedIP(releases[i], false);
        i := i + 1;
      }
      return None;
    }
  }

  method Split(all: seq<IP>, pools: seq<string>) returns (addresses: seq<IP>, releases: seq<IP>)
    ensures addresses == Within(all, pools, false) && releases == Within(all, pools, true)
  {
    addresses, releases := [], [];
    var i := 0;
    while i < |all|
      invariant 0 <= i <= |all|
      invariant Within(all, pools, false) == addresses + Within(all[i..], pools, false)
      invariant Within(all, pools, true) == releases + Within(all[i..], pools, true)
    {
      assert all[i..][1..] == all[i + 1..];
      if all[i].poolID !in pools {
        addresses := addresses + [all[i]];
      } else {
        releases := releases + [all[i]];
      }
      i := i + 1;
    }
  }
}
