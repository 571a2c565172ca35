/**
 Ownership of addresses, over every run: an address has at most one owner, which is either its record
 in the store (under any pool) or a client on its way from AllocIP to Put or from Delete to UnallocIP,
 and an owned address is allocated in Calico.
 */
module Ownership {
  import opened Types
  import opened Codecs
  import opened Etcd
  import opened FixedIPOps
  import opened Protocol

  function IPOf(info: IPInfo): IP {
    IP(info.poolID, info.address)
  }

  /** The address a client owns between two calls. */
  function Held(client: Client): Option<string> {
    match client.local
    case Putting(ip) => Some(ip.address)
    case Freeing(ip, _) => Some(ip.address)
    case _ => None
  }

  predicate ClientSound(client: Client) {
    && WellFormed(client.op, client.local)
    && (client.op.AllocFromPools? || ValidIP(client.op.ip))
    && match client.local
       case Swapping(_, read, version) => IPOf(read) == client.op.ip && version >= 1
       case Deleting(info) => IPOf(info) == client.op.ip
       case Putting(ip) => ValidIP(ip)
       case Freeing(ip, _) => ValidIP(ip)
       case _ => true
  }

  predicate ClientsSound(s: State) {
    forall c :: c in s.clients ==> ClientSound(s.clients[c])
  }

  predicate RecordSound(s: State, k: string)
    requires k in s.world.kv
  {
    var r := s.world.kv[k];
    k == IPInfoKey(r.value) && ValidIP(IPOf(r.value)) && r.version >= 1 && r.value.address in s.world.taken
  }

  predicate RecordsSound(s: State) {
    forall k :: k in s.world.kv ==> RecordSound(s, k)
  }

  predicate OneRecordEach(s: State) {
    forall j, k ::
      j in s.world.kv && k in s.world.kv && s.world.kv[j].value.address == s.world.kv[k].value.address ==> j == k
  }

  predicate HolderSound(s: State, c: nat)
    requires c in s.clients
  {
    var h := Held(s.clients[c]);
    h.Some? ==>
      && h.value in s.world.taken
      && (forall k :: k in s.world.kv ==> s.world.kv[k].value.address != h.value)
      && (forall d :: d in s.clients && d != c ==> Held(s.clients[d]) != h)
  }

  predicate HoldersSound(s: State) {
    forall c :: c in s.clients ==> HolderSound(s, c)
  }

  predicate Owned(s: State) {
    ClientsSound(s) && RecordsSound(s) && OneRecordEach(s) && HoldersSound(s)
  }

  lemma SameKeySameIP(x: IPInfo, ip: IP)
    requires ValidIP(IPOf(x)) && ValidIP(ip) && IPInfoKey(x) == IPKey(ip.poolID, ip.address)
    ensures IPOf(x) == ip
  {
    IPKeyInjective(x.poolID, x.address, ip.poolID, ip.address);
  }

  /** Whatever a sound client is answered it stays sound, provided what it reads is a record of its own IP. */
  lemma AdvanceSound(client: Client, answer: Answer, client': Client)
    requires ClientSound(client) && !client.local.Done?
    requires client'.op == client.op && client'.local == Advance(client.op, client.local, answer)
    requires client.local.Getting? && answer.FromStore? && answer.reply.Read? ==>
               IPOf(answer.reply.value) == client.op.ip && answer.reply.version >= 1
    requires answer.Offered? ==> ValidIP(answer.ip)
    ensures ClientSound(client')
  {
    AdvanceWellFormed(client.op, client.local, answer);
  }

  lemma ActorStaysSound(s: State, c: nat, fails: bool, offer: Option<IP>)
    requires Owned(s) && CanAct(s, c) && ValidEvent(Act(c, fails, offer))
    ensures ClientSound(Next(s, Act(c, fails, offer)).clients[c])
  {
    hide Next;
    ActShape(s, c, fails, offer);
    var client := s.clients[c];
    if client.local.Getting? {
      var k := NextCall(s, c).key;
      if k in s.world.kv {
        assert RecordSound(s, k);
        SameKeySameIP(s.world.kv[k].value, client.op.ip);
      }
    }
    AdvanceSound(client, Answered(s, c, fails, offer), Next(s, Act(c, fails, offer)).clients[c]);
  }

  /** A step of c that keeps every record's IP, and gives c at most an address nobody owns, keeps ownership. */
  lemma FrameOwned(s: State, s': State, c: nat)
    requires Owned(s) && c in s.clients && s'.clients.Keys == s.clients.Keys
    requires forall d :: d in s.clients && d != c ==> s'.clients[d] == s.clients[d]
    requires ClientSound(s'.clients[c])
    requires s'.world.kv.Keys == s.world.kv.Keys
    requires forall k :: k in s.world.kv ==>
        IPOf(s'.world.kv[k].value) == IPOf(s.world.kv[k].value) && s'.world.kv[k].version >= 1
    requires forall a :: a in s.world.taken ==> a in s'.world.taken || Held(s.clients[c]) == Some(a)
    requires Held(s'.clients[c]) == None || Held(s'.clients[c]).value in s'.world.taken - s.world.taken
    ensures Owned(s')
  {
    assert HolderSound(s, c);
    forall k | k in s'.world.kv ensures RecordSound(s', k) {
      assert RecordSound(s, k);
    }
    forall j, k | j in s'.world.kv && k in s'.world.kv && s'.world.kv[j].value.address == s'.world.kv[k].value.address
      ensures j == k
    {
      assert IPOf(s'.world.kv[j].value) == IPOf(s.world.kv[j].value);
      assert IPOf(s'.world.kv[k].value) == IPOf(s.world.kv[k].value);
    }
    forall d | d in s'.clients ensures HolderSound(s', d) {
      assert HolderSound(s, d);
      forall k | k in s'.world.kv ensures s.world.kv[k].value.address == s'.world.kv[k].value.address {
        assert IPOf(s'.world.kv[k].value) == IPOf(s.world.kv[k].value);
      }
      forall k | k in s.world.kv ensures s.world.kv[k].value.address in s.world.taken {
        assert RecordSound(s, k);
      }
    }
  }

  /** A swap against a version of at least 1 writes only over a record that is there. */
  lemma SwapEffect(kv: KV<IPInfo>, k: string, n: nat, v: IPInfo, fails: bool)
    requires n >= 1
    ensures SwapReply(kv, k, n, v, fails).0 == kv || (k in kv && SwapReply(kv, k, n, v, fails).0 == Written(kv, k, v))
  {
  }

  lemma SwapOwnsNothing(op: Op, local: Local, answer: Answer)
    requires WellFormed(op, local) && local.Swapping?
    ensures !Advance(op, local, answer).Putting? && !Advance(op, local, answer).Freeing?
  {
  }

  lemma SwapKeepsOwned(s: State, c: nat, fails: bool, offer: Option<IP>)
    requires Owned(s) && CanAct(s, c) && ValidEvent(Act(c, fails, offer)) && s.clients[c].local.Swapping?
    ensures Owned(Next(s, Act(c, fails, offer)))
  {
    hide Next;
    ActorStaysSound(s, c, fails, offer);
    ActShape(s, c, fails, offer);
    var client := s.clients[c];
    assert ClientSound(client);
    var k, v := IPInfoKey(client.local.read), Modify(client.op, client.local.read);
    SwapEffect(s.world.kv, k, client.local.version, v, fails);
    SwapOwnsNothing(client.op, client.local, Answered(s, c, fails, offer));
    if k in s.world.kv {
      assert RecordSound(s, k);
      SameKeySameIP(s.world.kv[k].value, client.op.ip);
    }
    forall j | j in s.world.kv ensures s.world.kv[j].version >= 1 {
      assert RecordSound(s, j);
    }
    FrameOwned(s, Next(s, Act(c, fails, offer)), c);
  }

  lemma PutKeepsOwned(s: State, c: nat, fails: bool, offer: Option<IP>)
    requires Owned(s) && CanAct(s, c) && ValidEvent(Act(c, fails, offer)) && s.clients[c].local.Putting?
    ensures Owned(Next(s, Act(c, fails, offer)))
  {
    hide Next, Exec, Advance, Answered, Modify, IPKey, Ambiguous;
    var s' := Next(s, Act(c, fails, offer));
    ActorStaysSound(s, c, fails, offer);
    ActShape(s, c, fails, offer);
    PutShape(s, c, fails, offer);
    assert HolderSound(s, c) && ClientSound(s.clients[c]);
    forall j | j in s'.world.kv ensures RecordSound(s', j) {
      assert j in s.world.kv ==> RecordSound(s, j);
    }
    forall d | d in s'.clients ensures HolderSound(s', d) {
      assert HolderSound(s, d);
    }
  }

  lemma DeleteKeepsOwned(s: State, c: nat, fails: bool, offer: Option<IP>)
    requires Owned(s) && CanAct(s, c) && ValidEvent(Act(c, fails, offer)) && s.clients[c].local.Deleting?
    ensures Owned(Next(s, Act(c, fails, offer)))
  {
    hide Next, Exec, Advance, Answered, Modify, IPKey, Ambiguous;
    var s' := Next(s, Act(c, fails, offer));
    ActorStaysSound(s, c, fails, offer);
    ActShape(s, c, fails, offer);
    DeleteShape(s, c, fails, offer);
    var k := NextCall(s, c).key;
    if k in s.world.kv {
      assert RecordSound(s, k);
      SameKeySameIP(s.world.kv[k].value, s.clients[c].op.ip);
    }
    forall j | j in s'.world.kv ensures RecordSound(s', j) {
      assert RecordSound(s, j);
    }
    forall d | d in s'.clients ensures HolderSound(s', d) {
      assert HolderSound(s, d);
    }
  }

  /**
   Calico's side: what a client holds after the call was free before it, and only the caller's own address is freed.
   */
  lemma CalicoEffect(s: State, c: nat, fails: bool, offer: Option<IP>)
    requires CanAct(s, c)
    requires var local := s.clients[c].local;
      local.Allocating? || local.Offering? || local.Freeing? || local.Getting?
    ensures var s' := Next(s, Act(c, fails, offer));
      && s'.world.kv == s.world.kv
      && (forall a :: a in s.world.taken ==> a in s'.world.taken || Held(s.clients[c]) == Some(a))
      && (Held(s'.clients[c]) == None || Held(s'.clients[c]).value in s'.world.taken - s.world.taken)
  {
  }

  lemma CalicoKeepsOwned(s: State, c: nat, fails: bool, offer: Option<IP>)
    requires Owned(s) && CanAct(s, c) && ValidEvent(Act(c, fails, offer))
    requires var local := s.clients[c].local;
      local.Allocating? || local.Offering? || local.Freeing? || local.Getting?
    ensures Owned(Next(s, Act(c, fails, offer)))
  {
    ActorStaysSound(s, c, fails, offer);
    ActShape(s, c, fails, offer);
    CalicoEffect(s, c, fails, offer);
    var s' := Next(s, Act(c, fails, offer));
    forall j | j in s.world.kv ensures s'.world.kv[j].version >= 1 {
      assert RecordSound(s, j);
    }
    FrameOwned(s, s', c);
  }

  lemma NextKeepsOwned(s: State, e: Event)
    requires Owned(s) && ValidEvent(e)
    ensures Owned(Next(s, e))
  {
    match e
    case Begin(c, op) =>
      var s' := Next(s, e);
      StartWellFormed(op);
      forall j | j in s'.world.kv ensures RecordSound(s', j) {
        assert RecordSound(s, j);
      }
      forall d | d in s'.clients ensures HolderSound(s', d) {
        assert d in s.clients ==> HolderSound(s, d);
      }
    case Act(c, fails, offer) =>
      if CanAct(s, c) {
        match s.clients[c].local {
          case Swapping(_, _, _) => SwapKeepsOwned(s, c, fails, offer);
          case Putting(_) => PutKeepsOwned(s, c, fails, offer);
          case Deleting(_) => DeleteKeepsOwned(s, c, fails, offer);
          case _ => CalicoKeepsOwned(s, c, fails, offer);
        }
      }
  }

  lemma {:induction false} RunKeepsOwned(taken: set<string>, events: seq<Event>)
    requires ValidEvents(events)
    ensures Owned(Run(Initial(taken), events))
    decreases |events|
  {
    if events != [] {
      RunKeepsOwned(taken, events[..|events| - 1]);
      NextKeepsOwned(Run(Initial(taken), events[..|events| - 1]), events[|events| - 1]);
    }
  }

  lemma ReachableOwned(s: State)
    requires Reachable(s)
    ensures Owned(s)
  {
    var taken, events :| ValidEvents(events) && s == Run(Initial(taken), events);
    RunKeepsOwned(taken, events);
  }

  datatype Owner = Record(key: string) | Holder(client: nat)

  function Owners(s: State, address: string): set<Owner> {
    (set k | k in s.world.kv && s.world.kv[k].value.address == address :: Record(k))
    + (set c | c in s.clients && Held(s.clients[c]) == Some(address) :: Holder(c))
  }

  /** In every reachable state each address has at most one owner, and only allocated addresses have one. */
  lemma AtMostOneOwner(s: State, address: string)
    requires Reachable(s)
    ensures |Owners(s, address)| <= 1
    ensures Owners(s, address) != {} ==> address in s.world.taken
  {
    ReachableOwned(s);
    var owners := Owners(s, address);
    forall x, y | x in owners && y in owners ensures x == y && address in s.world.taken {
      assert x.Holder? ==> HolderSound(s, x.client);
      assert y.Holder? ==> HolderSound(s, y.client);
      assert x.Record? ==> RecordSound(s, x.key);
    }
    if owners != {} {
      var x :| x in owners;
      assert owners == {x};
    }
  }

  /** A Put that creates a record never overwrites one, and finds no record of its address in any pool. */
  lemma PutsOnlyCreate(s: State, c: nat)
    requires Reachable(s) && CanAct(s, c) && NextCall(s, c).PutCall?
    ensures var call := NextCall(s, c);
      && call.key != "" && call.key !in s.world.kv
      && (forall k :: k in s.world.kv ==> s.world.kv[k].value.address != call.value.address)
  {
    ReachableOwned(s);
    var call := NextCall(s, c);
    assert HolderSound(s, c) && ClientSound(s.clients[c]);
    if call.key in s.world.kv {
      assert RecordSound(s, call.key);
      SameKeySameIP(s.world.kv[call.key].value, s.clients[c].local.ip);
    }
  }

  /** UnallocIP frees an address only while its caller is the sole owner: no record and no other client has it. */
  lemma FreesOnlyOwn(s: State, c: nat)
    requires Reachable(s) && CanAct(s, c) && NextCall(s, c).FreeCall?
    ensures var a := NextCall(s, c).address;
      Owners(s, a) == {Holder(c)} && a in s.world.taken
  {
    ReachableOwned(s);
    var a := NextCall(s, c).address;
    assert HolderSound(s, c);
    assert Holder(c) in Owners(s, a);
    forall x | x in Owners(s, a) ensures x == Holder(c) {
      assert x.Holder? ==> HolderSound(s, x.client);
    }
  }
}
