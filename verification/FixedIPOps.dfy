/**
 The seven fixed-IP operations as one automaton. Between two store or Calico calls an operation is
 in a `Local` state; `CallOf` says which call it makes next and `Advance` what it does with the answer.
 The pool's methods are proved to run this automaton, and the safety theorems are about
 any number of clients running it.
 */
module FixedIPOps {
  import opened Types
  import opened Codecs
  import opened Etcd

  const RETRY_MAX_COUNT := 3

  datatype Op =
    | Alloc(ip: IP)
    | AllocFromPools(pools: seq<string>)
    | Assign(ip: IP)
    | Unassign(ip: IP)
    | Borrow(ip: IP, container: Container)
    | Return(ip: IP, container: Container)
    | Unalloc(ip: IP, force: bool)

  datatype Outcome = Outcome(err: Option<Error>, ip: Option<IP>)

  datatype Local =
    | Getting(attempt: nat)
    | Swapping(attempt: nat, read: IPInfo, version: nat)
    | Allocating
    | Offering(pools: seq<string>)
    | Putting(ip: IP)
    | Deleting(info: IPInfo)
    | Freeing(ip: IP, outcome: Outcome)
    | Done(outcome: Outcome)

  datatype Call =
    | GetCall(key: string)
    | SwapCall(key: string, version: nat, value: IPInfo)
    | PutCall(key: string, value: IPInfo)
    | DeleteCall(key: string)
    | AllocCall(address: string)
    | OfferCall(poolID: string)
    | FreeCall(address: string)

  datatype Answer =
    | FromStore(reply: Reply<IPInfo>)
    | Accepted
    | Refused(error: Error)
    | Offered(ip: IP)

  /** The store's IP records and the addresses Calico has assigned. */
  datatype World = World(kv: KV<IPInfo>, taken: set<string>)

  /**
   One call against the world. AllocIP is exclusive; UnallocIP of a free address does nothing; Calico offers only
   free addresses.
   */
  function Exec(w: World, call: Call, fails: bool, offer: Option<IP>): (World, Answer) {
    match call
    case GetCall(k) => (w, FromStore(GetReply(w.kv, k, fails)))
    case SwapCall(k, n, v) =>
      var (kv, r) := SwapReply(w.kv, k, n, v, fails);
      (w.(kv := kv), FromStore(r))
    case PutCall(k, v) =>
      var (kv, r) := PutReply(w.kv, k, v, fails);
      (w.(kv := kv), FromStore(r))
    case DeleteCall(k) =>
      var (kv, r) := DeleteReply(w.kv, k, fails);
      (w.(kv := kv), FromStore(r))
    case AllocCall(a) =>
      if fails then (w, Refused(ErrUnavailable))
      else if a in w.taken then (w, Refused(ErrAlreadyAssigned))
      else (w.(taken := w.taken + {a}), Accepted)
    case OfferCall(p) =>
      if fails || offer.None? || offer.value.address in w.taken || offer.value.poolID != p
      then (w, Refused(ErrNoAddress))
      else (w.(taken := w.taken + {offer.value.address}), Offered(offer.value))
    case FreeCall(a) =>
      if fails then (w, Refused(ErrUnavailable)) else (w.(taken := w.taken - {a}), Accepted)
  }

  function Success(): Outcome { Outcome(None, None) }

  function Fail(e: Error): Outcome { Outcome(Some(e), None) }

  function Start(op: Op): Local {
    if op.AllocFromPools? then NextPool(op.pools, ErrNoAddress) else Getting(0)
  }

  /** The pools are tried one after the other; the last refusal is the operation's error. */
  function NextPool(pools: seq<string>, e: Error): Local {
    if pools == [] then Done(Fail(e)) else Offering(pools)
  }

  /** What the operation's compare-and-swap makes of the record it read. */
  function Modify(op: Op, info: IPInfo): IPInfo {
    match op
    case Assign(_) => info.(status := info.status + {InUse})
    case Unassign(_) => info.(status := info.status - {InUse})
    case Borrow(_, c) => info.(attrs := Some(info.Borrowers() + [c]))
    case Return(_, c) => info.(attrs := Some(Without(info.Borrowers(), c)))
    case Unalloc(_, _) => info.(status := info.status + {InUse, Retired})
    case _ => info
  }

  /** The list with every occurrence of c taken out. */
  function Without(s: seq<Container>, c: Container): (r: seq<Container>)
    ensures c !in r
    ensures forall d :: d != c ==> (d in r <==> d in s)
  {
    if s == [] then []
    else if s[0] == c then Without(s[1..], c)
    else [s[0]] + Without(s[1..], c)
  }

  /** The others stay, each as often as before. */
  lemma {:induction false} WithoutKeepsOthers(s: seq<Container>, c: Container)
    ensures multiset(Without(s, c)) == multiset(s)[c := 0]
  {
    if s != [] {
      assert s == [s[0]] + s[1..];
      WithoutKeepsOthers(s[1..], c);
    }
  }

  /** Whether the operation goes on to write a record in this state; otherwise it stops with `Verdict`. */
  predicate Proceeds(op: Op, info: IPInfo) {
    match op
    case Assign(_) => InUse !in info.status
    case Unassign(_) => InUse in info.status
    case Borrow(_, _) => true
    case Return(_, _) => info.Borrowers() != []
    case Unalloc(_, force) => InUse !in info.status && (force || info.Borrowers() == [])
    case _ => false
  }

  function Verdict(op: Op, info: IPInfo): Outcome {
    match op
    case Alloc(_) => if InUse in info.status then Fail(ErrIPInUse) else Success()
    case Assign(_) => Fail(ErrIPInUse)
    case Unalloc(_, _) => if InUse in info.status then Fail(ErrIPInUse) else Fail(ErrFixedIPHasBorrower)
    case _ => Success()
  }

  function CallOf(op: Op, local: Local): Call
    requires !local.Done?
    requires local.Getting? ==> !op.AllocFromPools?
    requires local.Allocating? ==> op.Alloc?
    requires local.Offering? ==> local.pools != []
  {
    match local
    case Getting(_) => GetCall(IPKey(op.ip.poolID, op.ip.address))
    case Swapping(_, read, version) => SwapCall(IPInfoKey(read), version, Modify(op, read))
    case Allocating => AllocCall(op.ip.address)
    case Offering(pools) => OfferCall(pools[0])
    case Putting(ip) => PutCall(IPKey(ip.poolID, ip.address), FreshInfo(ip))
    case Deleting(info) => DeleteCall(IPInfoKey(info))
    case Freeing(ip, _) => FreeCall(ip.address)
  }

  function AfterGet(op: Op, attempt: nat, reply: Reply<IPInfo>): Local
    requires !op.AllocFromPools?
  {
    match reply
    case Read(info, version) =>
      if Proceeds(op, info) then Swapping(attempt, info, version) else Done(Verdict(op, info))
    case Err(e) =>
      if e != ErrKVNotExists then Done(Fail(e))
      else if op.Alloc? then Allocating
      else Done(Fail(ErrFixedIPNotAllocated))
    case _ => Done(Success())
  }

  function AfterSwap(op: Op, attempt: nat, read: IPInfo, reply: Reply<IPInfo>): Local {
    if op.Unalloc? then
      // a failed lock update is only logged: the record is deleted all the same
      if reply.Lost? then Done(Fail(ErrIPInUse)) else Deleting(Modify(op, read))
    else
      match reply
      case Err(e) => Done(Fail(e))
      case Lost(_, _) =>
        if op.Assign? || op.Unassign? then Done(Fail(ErrIPInUse))
        else if attempt + 1 < RETRY_MAX_COUNT then Getting(attempt + 1)
        else Done(Fail(ErrMaxRetryCountExceeded))
      case _ => Done(Success())
  }

  function AfterPut(op: Op, ip: IP, reply: Reply<IPInfo>): Local {
    var given := if op.AllocFromPools? then Some(ip) else None;
    if !reply.Err? then Done(Outcome(None, given))
    else if op.AllocFromPools? then Freeing(ip, Outcome(Some(reply.error), given))
    else Done(Fail(reply.error))
  }

  function Advance(op: Op, local: Local, answer: Answer): Local
    requires !local.Done?
    requires local.Getting? ==> !op.AllocFromPools?
    requires local.Deleting? ==> op.Unalloc?
    requires local.Allocating? ==> op.Alloc?
    requires local.Offering? ==> local.pools != []
  {
    match (local, answer)
    case (Getting(n), FromStore(r)) => AfterGet(op, n, r)
    case (Swapping(n, read, _), FromStore(r)) => AfterSwap(op, n, read, r)
    case (Allocating, Accepted) => Putting(op.ip)
    case (Allocating, Refused(e)) => Done(Fail(e))
    case (Offering(_), Offered(ip)) => Putting(ip)
    case (Offering(pools), Refused(e)) => NextPool(pools[1..], e)
    case (Putting(ip), FromStore(r)) => AfterPut(op, ip, r)
    case (Deleting(_), FromStore(r)) => if r.Err? then Done(Fail(r.error)) else Freeing(op.ip, Success())
    case (Freeing(_, outcome), Accepted) => Done(outcome)
    case (Freeing(_, outcome), Refused(e)) => Done(if op.Unalloc? then Fail(e) else outcome)
    case _ => Done(Success())
  }

  predicate WellFormed(op: Op, local: Local) {
    match local
    case Getting(_) => !op.AllocFromPools?
    case Swapping(_, _, _) => !op.AllocFromPools? && !op.Alloc?
    case Allocating => op.Alloc?
    case Offering(pools) => op.AllocFromPools? && pools != []
    case Putting(ip) => op.AllocFromPools? || (op.Alloc? && op.ip == ip)
    case Deleting(_) => op.Unalloc?
    case Freeing(ip, _) => op.AllocFromPools? || (op.Unalloc? && op.ip == ip)
    case Done(_) => true
  }

  lemma StartWellFormed(op: Op)
    ensures WellFormed(op, Start(op))
  {
  }

  lemma AdvanceWellFormed(op: Op, local: Local, answer: Answer)
    requires WellFormed(op, local) && !local.Done?
    ensures WellFormed(op, Advance(op, local, answer))
  {
  }

  /** Every call brings an operation closer to its end. */
  function Remaining(local: Local): nat {
    match local
    case Getting(n) => if n < RETRY_MAX_COUNT then 12 - 2 * n else 6
    case Swapping(n, _, _) => if n < RETRY_MAX_COUNT then 11 - 2 * n else 5
    case Allocating => 3
    case Offering(pools) => 3 + |pools|
    case Putting(_) => 2
    case Deleting(_) => 2
    case Freeing(_, _) => 1
    case Done(_) => 0
  }

  lemma AdvanceProgresses(op: Op, local: Local, answer: Answer)
    requires WellFormed(op, local) && !local.Done?
    ensures Remaining(Advance(op, local, answer)) < Remaining(local)
  {
  }
}
