/**
 Any number of clients running fixed-IP operations against one etcd and one Calico. An event is one
 client beginning an operation, or making its next store or Calico call; every sequence of events is a
 run. `incs`, `live` and `writes` are history: what was ever committed, which no client can see.
 */
module Protocol {
  import opened Types
  import opened Codecs
  import opened Etcd
  import opened FixedIPOps

  /** A committed update: who made it, by which operation, and the incarnation and the record it had read. */
  datatype Commit = Commit(client: nat, op: Op, readInc: nat, read: IPInfo)

  /**
   One life of a record, from the Put that creates it to its Delete. `spans` holds, for each commit, the
   stretch of `writes` between the Get of the committed update and its swap.
   */
  datatype Incarnation = Incarnation(key: string, birth: IPInfo, commits: seq<Commit>, spans: seq<(nat, nat)>)

  datatype Change = Created | Updated | Deleted

  datatype Write = Write(client: nat, key: string, change: Change)

  /** Where an update was committed: its incarnation, its place there, and its place in `writes`. */
  datatype Lock = Lock(inc: nat, index: nat, at: nat)

  datatype Exchange = Exchange(call: Call, answer: Answer)

  /**
   `readInc` and `mark` belong to the last Get and `lock` to the swap after it, if that won; `windows`
   holds the Get-to-CAS stretches of `writes` in which a CAS lost. `calls` is all the operation has called so far.
   */
  datatype Client = Client(
    op: Op,
    local: Local,
    readInc: nat,
    mark: nat,
    lock: Option<Lock>,
    windows: seq<(nat, nat)>,
    calls: seq<Exchange>)

  datatype State = State(
    world: World,
    clients: map<nat, Client>,
    incs: seq<Incarnation>,
    live: map<string, nat>,
    writes: seq<Write>)

  datatype Event =
    | Begin(client: nat, op: Op)
    | Act(client: nat, fails: bool, offer: Option<IP>)

  predicate CanAct(s: State, c: nat) {
    && c in s.clients
    && !s.clients[c].local.Done?
    && WellFormed(s.clients[c].op, s.clients[c].local)
  }

  function NextCall(s: State, c: nat): Call
    requires CanAct(s, c)
  {
    CallOf(s.clients[c].op, s.clients[c].local)
  }

  function Answered(s: State, c: nat, fails: bool, offer: Option<IP>): Answer
    requires CanAct(s, c)
  {
    Exec(s.world, NextCall(s, c), fails, offer).1
  }

  /** History kept beside a call's effect on the world. */
  function Recorded(s: State, c: nat, call: Call, answer: Answer): State
    requires c in s.clients && (call.SwapCall? ==> s.clients[c].local.Swapping?)
  {
    match (call, answer)
    case (PutCall(k, v), FromStore(Ok)) =>
      s.(incs := s.incs + [Incarnation(k, v, [], [])],
         live := s.live[k := |s.incs|],
         writes := s.writes + [Write(c, k, Created)])
    case (SwapCall(k, _, _), FromStore(Swapped)) =>
      var i := if k in s.live then s.live[k] else 0;
      var span := (s.clients[c].mark, |s.writes|);
      s.(incs := if i < |s.incs| then s.incs[i := Extended(s.incs[i], CommitOf(s, c), span)] else s.incs,
         writes := s.writes + [Write(c, k, Updated)])
    case (DeleteCall(k), FromStore(Ok)) =>
      s.(live := map j | j in s.live && j != k :: s.live[j],
         writes := s.writes + [Write(c, k, Deleted)])
    case _ => s
  }

  function CommitOf(s: State, c: nat): Commit
    requires c in s.clients && s.clients[c].local.Swapping?
  {
    Commit(c, s.clients[c].op, s.clients[c].readInc, s.clients[c].local.read)
  }

  function Extended(inc: Incarnation, commit: Commit, span: (nat, nat)): Incarnation {
    inc.(commits := inc.commits + [commit], spans := inc.spans + [span])
  }

  /** The acting client's own history. */
  function Noted(s: State, client: Client, call: Call, answer: Answer): Client {
    match (call, answer)
    case (GetCall(k), FromStore(Read(_, _))) =>
      client.(readInc := if k in s.live then s.live[k] else 0, mark := |s.writes|, lock := None)
    case (SwapCall(k, _, _), FromStore(Swapped)) =>
      var i := if k in s.live then s.live[k] else 0;
      client.(lock := if i < |s.incs| then Some(Lock(i, |s.incs[i].commits|, |s.writes|)) else None)
    case (SwapCall(_, _, _), FromStore(Lost(_, _))) =>
      client.(windows := client.windows + [(client.mark, |s.writes|)])
    case _ => client
  }

  function Next(s: State, e: Event): State {
    match e
    case Begin(c, op) =>
      if c in s.clients && !s.clients[c].local.Done? then s
      else s.(clients := s.clients[c := Client(op, Start(op), 0, 0, None, [], [])])
    case Act(c, fails, offer) =>
      if !CanAct(s, c) then s
      else
        var client := s.clients[c];
        var call := NextCall(s, c);
        var (world, answer) := Exec(s.world, call, fails, offer);
        var client' := Noted(s, client, call, answer).(
          local := Advance(client.op, client.local, answer),
          calls := client.calls + [Exchange(call, answer)]);
        Recorded(s, c, call, answer).(world := world, clients := s.clients[c := client'])
  }

  function Initial(taken: set<string>): State {
    State(World(map[], taken), map[], [], map[], [])
  }

  function Run(s: State, events: seq<Event>): State
    decreases |events|
  {
    if events == [] then s
    else Next(Run(s, events[..|events| - 1]), events[|events| - 1])
  }

  lemma {:induction false} RunConcat(s: State, a: seq<Event>, b: seq<Event>)
    ensures Run(s, a + b) == Run(Run(s, a), b)
    decreases |b|
  {
    hide Next;
    if b == [] {
      assert a + b == a;
    } else {
      assert (a + b)[..|a + b| - 1] == a + b[..|b| - 1];
      RunConcat(s, a, b[..|b| - 1]);
    }
  }

  predicate ValidIP(ip: IP) {
    ip.address != "" && !Ambiguous(ip.poolID, ip.address)
  }

  /**
   The IPs named by callers and offered by Calico are not blank and have a key of their own; any pool id and any
   slash-free address will do.
   */
  predicate ValidEvent(e: Event) {
    match e
    case Begin(_, op) => op.AllocFromPools? || ValidIP(op.ip)
    case Act(_, _, offer) => offer.Some? ==> ValidIP(offer.value)
  }

  predicate ValidEvents(events: seq<Event>) {
    forall i :: 0 <= i < |events| ==> ValidEvent(events[i])
  }

  /** A state that some run can reach, with any number of clients and in any interleaving. */
  ghost predicate Reachable(s: State) {
    exists taken, events :: ValidEvents(events) && s == Run(Initial(taken), events)
  }

  /** The world's part of an Act, in one place. */
  lemma ActShape(s: State, c: nat, fails: bool, offer: Option<IP>)
    requires CanAct(s, c)
    ensures var s' := Next(s, Act(c, fails, offer));
      && s'.world == Exec(s.world, NextCall(s, c), fails, offer).0
      && s'.clients.Keys == s.clients.Keys
      && (forall d :: d in s.clients && d != c ==> s'.clients[d] == s.clients[d])
      && s'.clients[c].op == s.clients[c].op
      && s'.clients[c].local == Advance(s.clients[c].op, s.clients[c].local, Answered(s, c, fails, offer))
      && s'.clients[c].calls == s.clients[c].calls + [Exchange(NextCall(s, c), Answered(s, c, fails, offer))]
  {
  }

  // ----- what each kind of call changes beside the acting client

  lemma GetShape(s: State, c: nat, fails: bool, offer: Option<IP>)
    requires CanAct(s, c) && s.clients[c].local.Getting?
    ensures var s' := Next(s, Act(c, fails, offer));
      var client' := s'.clients[c];
      var k := NextCall(s, c).key;
      && s' == s.(clients := s'.clients)
      && client'.windows == s.clients[c].windows
      && (client'.local.Swapping? ==>
          && k in s.world.kv
          && client'.local == Swapping(s.clients[c].local.attempt, s.world.kv[k].value, s.world.kv[k].version)
          && Proceeds(client'.op, client'.local.read)
          && client'.readInc == (if k in s.live then s.live[k] else 0)
          && client'.mark == |s.writes| && client'.lock == None)
      && !client'.local.Getting? && !client'.local.Freeing? && !client'.local.Deleting?
  {
  }

  lemma PutShape(s: State, c: nat, fails: bool, offer: Option<IP>)
    requires CanAct(s, c) && s.clients[c].local.Putting?
    ensures var s' := Next(s, Act(c, fails, offer));
      var call := NextCall(s, c);
      && !s'.clients[c].local.Swapping? && !s'.clients[c].local.Deleting?
      && s'.world.taken == s.world.taken
      && ((s'.world == s.world && s'.incs == s.incs && s'.live == s.live && s'.writes == s.writes)
          || (call.key != "" && s'.world.kv == Written(s.world.kv, call.key, call.value) && s'.clients[c].local.Done?
              && s'.incs == s.incs + [Incarnation(call.key, call.value, [], [])]
              && s'.live == s.live[call.key := |s.incs|] && s'.writes == s.writes + [Write(c, call.key, Created)]))
      && (s'.clients[c].local.Freeing? ==> s'.clients[c].local.ip == s.clients[c].local.ip)
      && (s'.clients[c].local.Freeing? || s'.clients[c].local.Done?)
  {
  }

  predicate SameSnapshot(client: Client, client': Client) {
    client'.op == client.op && client'.readInc == client.readInc && client'.mark == client.mark
  }

  /** What a won swap changes: the record, and one more commit in the incarnation now live. */
  lemma CommitShape(s: State, c: nat, fails: bool, offer: Option<IP>)
    requires CanAct(s, c) && s.clients[c].local.Swapping?
    requires Answered(s, c, fails, offer) == FromStore(Swapped)
    ensures var s' := Next(s, Act(c, fails, offer));
      var client := s.clients[c];
      var k := IPInfoKey(client.local.read);
      && k in s.world.kv && s.world.kv[k].version == client.local.version
      && s'.world.kv == Written(s.world.kv, k, Modify(client.op, client.local.read))
      && s'.live == s.live
      && (k in s.live && s.live[k] < |s.incs| ==>
          && s'.incs == s.incs[s.live[k] := Extended(s.incs[s.live[k]], CommitOf(s, c), (client.mark, |s.writes|))]
          && s'.clients[c].lock == Some(Lock(s.live[k], |s.incs[s.live[k]].commits|, |s.writes|)))
      && s'.writes == s.writes + [Write(c, k, Updated)]
      && SameSnapshot(client, s'.clients[c])
      && s'.clients[c].local ==
         if client.op.Unalloc? then Deleting(Modify(client.op, client.local.read)) else Done(Success())
  {
  }

  lemma LostShape(s: State, c: nat, fails: bool, offer: Option<IP>)
    requires CanAct(s, c) && s.clients[c].local.Swapping? && s.clients[c].local.version >= 1
    requires Answered(s, c, fails, offer) != FromStore(Swapped)
    ensures var s' := Next(s, Act(c, fails, offer));
      && s'.incs == s.incs && s'.live == s.live && s'.world == s.world && s'.writes == s.writes
      && !s'.clients[c].local.Swapping?
      && (s'.clients[c].local.Deleting? ==>
          && s.clients[c].op.Unalloc?
          && Answered(s, c, fails, offer).FromStore? && Answered(s, c, fails, offer).reply.Err?
          && s'.clients[c].local == Deleting(Modify(s.clients[c].op, s.clients[c].local.read))
          && s'.clients[c].lock == s.clients[c].lock && SameSnapshot(s.clients[c], s'.clients[c]))
  {
  }

  lemma DeleteShape(s: State, c: nat, fails: bool, offer: Option<IP>)
    requires CanAct(s, c) && s.clients[c].local.Deleting?
    ensures var s' := Next(s, Act(c, fails, offer));
      var k := IPInfoKey(s.clients[c].local.info);
      && s'.incs == s.incs && s'.world.taken == s.world.taken
      && !s'.clients[c].local.Swapping?
      && (s'.clients[c].local.Freeing? ==> k in s.world.kv && s'.world.kv == Dropped(s.world.kv, k))
      && (s'.clients[c].local.Freeing? ==> s'.clients[c].local.ip == s.clients[c].op.ip)
      && (s'.clients[c].local.Freeing? || s'.clients[c].local.Done?)
      && ((s'.world.kv == s.world.kv && s'.live == s.live && s'.writes == s.writes)
          || (k in s.world.kv && s'.world.kv == Dropped(s.world.kv, k)
              && s'.live == (map j | j in s.live && j != k :: s.live[j])
              && s'.writes == s.writes + [Write(c, k, Deleted)]))
  {
  }

  lemma CalicoShape(s: State, c: nat, fails: bool, offer: Option<IP>)
    requires CanAct(s, c)
    requires s.clients[c].local.Allocating? || s.clients[c].local.Offering? || s.clients[c].local.Freeing?
    ensures var s' := Next(s, Act(c, fails, offer));
      && s'.incs == s.incs && s'.live == s.live && s'.world.kv == s.world.kv && s'.writes == s.writes
      && !s'.clients[c].local.Swapping? && !s'.clients[c].local.Deleting?
  {
  }
}
