/**
 What a finished operation has called, what it was answered, and what it therefore reports: a table for each operation,
 written out from the calls themselves.
 */
module Stories {
  import opened Types
  import opened Codecs
  import opened Etcd
  import opened FixedIPOps
  import opened Protocol

  // ----- the answers a call can get

  predicate StoreError(e: Error) {
    e in {ErrKVNotExists, ErrKeyIsBlank, ErrEmptyKey, ErrUnavailable}
  }

  predicate Fits(e: Exchange) {
    match e.call
    case GetCall(_) => e.answer.FromStore? && (e.answer.reply.Read? || Erred(e))
    case SwapCall(_, _, _) => e.answer.FromStore? && (e.answer.reply.Swapped? || e.answer.reply.Lost? || Erred(e))
    case PutCall(_, _) => e.answer.FromStore? && (e.answer.reply.Ok? || Erred(e))
    case DeleteCall(_) => e.answer.FromStore? && (e.answer.reply.Ok? || Erred(e))
    case AllocCall(_) =>
      e.answer.Accepted? || (e.answer.Refused? && e.answer.error in {ErrUnavailable, ErrAlreadyAssigned})
    case OfferCall(p) => (e.answer.Offered? && e.answer.ip.poolID == p) || e.answer == Refused(ErrNoAddress)
    case FreeCall(_) => e.answer == Accepted || e.answer == Refused(ErrUnavailable)
  }

  predicate Erred(e: Exchange) {
    e.answer.FromStore? && e.answer.reply.Err? && StoreError(e.answer.reply.error)
  }

  predicate AllFit(calls: seq<Exchange>) {
    forall i :: 0 <= i < |calls| ==> Fits(calls[i])
  }

  lemma ExecFits(w: World, call: Call, fails: bool, offer: Option<IP>)
    ensures Fits(Exchange(call, Exec(w, call, fails, offer).1))
  {
  }

  // ----- the tables

  /** The Get's error as the caller sees it. */
  function Unread(e: Error): Outcome {
    Outcome(Some(if e == ErrKVNotExists then ErrFixedIPNotAllocated else e), None)
  }

  /** A swap that ends an operation: won, lost, or failed. */
  predicate SwapEnds(e: Exchange, read: IPInfo, version: nat, written: IPInfo, lost: Error, o: Outcome) {
    && e.call == SwapCall(IPKey(read.poolID, read.address), version, written)
    && e.answer.FromStore?
    && match e.answer.reply
       case Swapped => o == Outcome(None, None)
       case Lost(_, _) => o == Outcome(Some(lost), None)
       case Err(x) => o == Outcome(Some(x), None)
       case _ => false
  }

  predicate Gets(e: Exchange, ip: IP) {
    e.call == GetCall(KeyOf(ip)) && e.answer.FromStore?
  }

  predicate AssignStory(ip: IP, calls: seq<Exchange>, o: Outcome) {
    && calls != [] && Gets(calls[0], ip)
    && match calls[0].answer.reply
       case Err(e) => |calls| == 1 && o == Unread(e)
       case Read(info, n) =>
         if InUse in info.status then |calls| == 1 && o == Outcome(Some(ErrIPInUse), None)
         else
           && |calls| == 2
           && SwapEnds(calls[1], info, n, info.(status := info.status + {InUse}), ErrIPInUse, o)
       case _ => false
  }

  predicate UnassignStory(ip: IP, calls: seq<Exchange>, o: Outcome) {
    && calls != [] && Gets(calls[0], ip)
    && match calls[0].answer.reply
       case Err(e) => |calls| == 1 && o == Unread(e)
       case Read(info, n) =>
         if InUse !in info.status then |calls| == 1 && o == Outcome(None, None)
         else
           && |calls| == 2
           && SwapEnds(calls[1], info, n, info.(status := info.status - {InUse}), ErrIPInUse, o)
       case _ => false
  }

  predicate Puts(e: Exchange, ip: IP) {
    e.call == PutCall(KeyOf(ip), IPInfo(ip.poolID, ip.address, {}, None)) && e.answer.FromStore?
  }

  predicate AllocStory(ip: IP, calls: seq<Exchange>, o: Outcome) {
    && calls != [] && Gets(calls[0], ip)
    && match calls[0].answer.reply
       case Err(e) =>
         if e != ErrKVNotExists then |calls| == 1 && o == Outcome(Some(e), None)
         else
           && |calls| >= 2 && calls[1].call == AllocCall(ip.address)
           && if calls[1].answer.Refused? then |calls| == 2 && o == Outcome(Some(calls[1].answer.error), None)
              else
                && calls[1].answer.Accepted? && |calls| == 3 && Puts(calls[2], ip)
                && o == Outcome(ErrorOf(calls[2].answer.reply), None)
       case Read(info, _) =>
         |calls| == 1 && o == Outcome(if InUse in info.status then Some(ErrIPInUse) else None, None)
       case _ => false
  }

  /** The first n pools were asked in order, and each refused. */
  predicate Refusals(pools: seq<string>, calls: seq<Exchange>, n: nat) {
    && n <= |pools| && n <= |calls|
    && forall j :: 0 <= j < n ==> calls[j].call == OfferCall(pools[j]) && calls[j].answer.Refused?
  }

  function LastRefusal(calls: seq<Exchange>): Error {
    if calls != [] && calls[|calls| - 1].answer.Refused? then calls[|calls| - 1].answer.error else ErrNoAddress
  }

  predicate OfferStory(pools: seq<string>, calls: seq<Exchange>, n: nat, o: Outcome) {
    && n < |pools| && Refusals(pools, calls, n) && |calls| >= n + 2
    && calls[n].call == OfferCall(pools[n]) && calls[n].answer.Offered?
    && var ip := calls[n].answer.ip;
       && Puts(calls[n + 1], ip)
       && match calls[n + 1].answer.reply
          case Err(e) =>
            && |calls| == n + 3 && calls[n + 2].call == FreeCall(ip.address)
            && o == Outcome(Some(e), Some(ip))
          case _ => |calls| == n + 2 && o == Outcome(None, Some(ip))
  }

  ghost predicate AllocFromPoolsStory(pools: seq<string>, calls: seq<Exchange>, o: Outcome) {
    || (|calls| == |pools| && Refusals(pools, calls, |pools|) && o == Outcome(Some(LastRefusal(calls)), None))
    || exists n: nat :: OfferStory(pools, calls, n, o)
  }

  /** Round j of a retry loop: a Get, and a swap that was lost. */
  predicate LostRound(op: Op, calls: seq<Exchange>, j: nat) {
    && 2 * j + 1 < |calls|
    && var (get, swap) := (calls[2 * j], calls[2 * j + 1]);
       && (op.Borrow? || op.Return?) && Gets(get, op.ip) && get.answer.reply.Read?
       && var read := get.answer.reply.value;
          && (op.Return? ==> read.Borrowers() != [])
          && swap.call == SwapCall(IPKey(read.poolID, read.address), get.answer.reply.version, Relisted(op, read))
          && swap.answer.FromStore? && swap.answer.reply.Lost?
  }

  /** The record with c appended to its borrowers, or with every c taken out. */
  function Relisted(op: Op, read: IPInfo): IPInfo
    requires op.Borrow? || op.Return?
  {
    match op
    case Borrow(_, c) => read.(attrs := Some(read.Borrowers() + [c]))
    case Return(_, c) => read.(attrs := Some(Without(read.Borrowers(), c)))
  }

  predicate LostRounds(op: Op, calls: seq<Exchange>, n: nat) {
    2 * n <= |calls| && n <= 2 && forall j: nat :: j < n ==> LostRound(op, calls, j)
  }

  /** After n lost rounds the last one: at most three in all. */
  predicate RetryStory(op: Op, calls: seq<Exchange>, n: nat, o: Outcome) {
    && (op.Borrow? || op.Return?) && LostRounds(op, calls, n) && |calls| > 2 * n && Gets(calls[2 * n], op.ip)
    && match calls[2 * n].answer.reply
       case Err(e) => |calls| == 2 * n + 1 && o == Unread(e)
       case Read(info, v) =>
         if op.Return? && info.Borrowers() == [] then |calls| == 2 * n + 1 && o == Outcome(None, None)
         else
           && |calls| == 2 * n + 2
           && (calls[2 * n + 1].answer == FromStore(Swapped) || Erred(calls[2 * n + 1]) || n == 2)
           && SwapEnds(calls[2 * n + 1], info, v, Relisted(op, info), ErrMaxRetryCountExceeded, o)
       case _ => false
  }

  /** The record was neither in use nor, if not forced, borrowed. */
  predicate Retirable(info: IPInfo, force: bool) {
    InUse !in info.status && (force || info.Borrowers() == [])
  }

  predicate Locks(e: Exchange, read: IPInfo, version: nat) {
    && e.call == SwapCall(IPKey(read.poolID, read.address), version, read.(status := read.status + {InUse, Retired}))
    && e.answer.FromStore?
  }

  predicate Deletes(e: Exchange, read: IPInfo) {
    e.call == DeleteCall(IPKey(read.poolID, read.address)) && e.answer.FromStore?
  }

  predicate UnallocStory(ip: IP, force: bool, calls: seq<Exchange>, o: Outcome) {
    && calls != [] && Gets(calls[0], ip)
    && match calls[0].answer.reply
       case Err(e) => |calls| == 1 && o == Unread(e)
       case Read(info, n) =>
         if InUse in info.status then |calls| == 1 && o == Outcome(Some(ErrIPInUse), None)
         else if !force && info.Borrowers() != [] then
           |calls| == 1 && o == Outcome(Some(ErrFixedIPHasBorrower), None)
         else
           && |calls| >= 2 && Locks(calls[1], info, n)
           && if calls[1].answer.reply.Lost? then |calls| == 2 && o == Outcome(Some(ErrIPInUse), None)
              else
                && |calls| >= 3 && Deletes(calls[2], info)
                && if calls[2].answer.reply.Err? then
                     |calls| == 3 && o == Outcome(Some(calls[2].answer.reply.error), None)
                   else
                     && |calls| == 4 && calls[3].call == FreeCall(ip.address)
                     && o == Outcome(if calls[3].answer.Refused? then Some(calls[3].answer.error) else None, None)
       case _ => false
  }

  ghost predicate Story(op: Op, calls: seq<Exchange>, o: Outcome) {
    match op
    case Alloc(ip) => AllocStory(ip, calls, o)
    case AllocFromPools(pools) => AllocFromPoolsStory(pools, calls, o)
    case Assign(ip) => AssignStory(ip, calls, o)
    case Unassign(ip) => UnassignStory(ip, calls, o)
    case Borrow(_, _) => exists n: nat :: RetryStory(op, calls, n, o)
    case Return(_, _) => exists n: nat :: RetryStory(op, calls, n, o)
    case Unalloc(ip, force) => UnallocStory(ip, force, calls, o)
  }

  // ----- an operation on its way

  predicate ReadLast(op: Op, calls: seq<Exchange>, n: nat, read: IPInfo, version: nat) {
    && !op.AllocFromPools? && |calls| == 2 * n + 1 && LostRounds(op, calls, n)
    && calls[2 * n] == Exchange(GetCall(KeyOf(op.ip)), FromStore(Read(read, version)))
    && match op
       case Assign(_) => InUse !in read.status
       case Unassign(_) => InUse in read.status
       case Borrow(_, _) => true
       case Return(_, _) => read.Borrowers() != []
       case Unalloc(_, force) => Retirable(read, force)
       case _ => false
  }

  predicate RanLock(op: Op, calls: seq<Exchange>, info: IPInfo) {
    && op.Unalloc? && |calls| >= 2 && Gets(calls[0], op.ip) && calls[0].answer.reply.Read?
    && var read := calls[0].answer.reply.value;
       && Retirable(read, op.force) && Locks(calls[1], read, calls[0].answer.reply.version)
       && !calls[1].answer.reply.Lost?
       && IPInfoKey(info) == IPKey(read.poolID, read.address)
  }

  predicate Claimed(op: Op, calls: seq<Exchange>, ip: IP) {
    || (&& op.Alloc? && ip == op.ip && |calls| == 2
        && calls[0] == Exchange(GetCall(KeyOf(ip)), FromStore(Err(ErrKVNotExists)))
        && calls[1] == Exchange(AllocCall(ip.address), Accepted))
    || (&& op.AllocFromPools? && 0 < |calls| <= |op.pools| && Refusals(op.pools, calls, |calls| - 1)
        && calls[|calls| - 1] == Exchange(OfferCall(op.pools[|calls| - 1]), Offered(ip)))
  }

  predicate PutFailed(op: Op, calls: seq<Exchange>, ip: IP, o: Outcome) {
    && op.AllocFromPools? && |calls| >= 2 && Claimed(op, calls[..|calls| - 1], ip)
    && Puts(calls[|calls| - 1], ip) && calls[|calls| - 1].answer.reply.Err?
    && o == Outcome(Some(calls[|calls| - 1].answer.reply.error), Some(ip))
  }

  /** What an operation in this state has called and been answered. */
  ghost predicate Told(op: Op, local: Local, calls: seq<Exchange>) {
    match local
    case Getting(n) => !op.AllocFromPools? && |calls| == 2 * n && LostRounds(op, calls, n)
    case Swapping(n, read, version) => ReadLast(op, calls, n, read, version)
    case Allocating => op.Alloc? && calls == [Exchange(GetCall(KeyOf(op.ip)), FromStore(Err(ErrKVNotExists)))]
    case Offering(pools) =>
      && op.AllocFromPools? && Refusals(op.pools, calls, |calls|) && pools == op.pools[|calls|..] != []
    case Putting(ip) => Claimed(op, calls, ip)
    case Deleting(info) => |calls| == 2 && RanLock(op, calls, info)
    case Freeing(ip, o) =>
      || (&& op.Unalloc? && |calls| == 3 && calls[0].answer.FromStore? && calls[0].answer.reply.Read?
          && RanLock(op, calls, calls[0].answer.reply.value)
          && Deletes(calls[2], calls[0].answer.reply.value) && calls[2].answer.reply.Ok?
          && ip == op.ip && o == Outcome(None, None))
      || PutFailed(op, calls, ip, o)
    case Done(o) => Story(op, calls, o)
  }

  lemma LostRoundStays(op: Op, calls: seq<Exchange>, e: Exchange, n: nat)
    requires LostRounds(op, calls, n)
    ensures LostRounds(op, calls + [e], n)
  {
    forall j: nat | j < n ensures LostRound(op, calls + [e], j) {
      assert LostRound(op, calls, j);
    }
  }

  lemma OnlyRetriesLose(op: Op, calls: seq<Exchange>, n: nat)
    requires LostRounds(op, calls, n)
    ensures op.Borrow? || op.Return? || n == 0
  {
    assert n > 0 ==> LostRound(op, calls, 0);
  }

  /** What a Get is told: the operation goes on to a swap or an AllocIP, or is over. */
  lemma GetTold(op: Op, n: nat, calls: seq<Exchange>, e: Exchange)
    requires Told(op, Getting(n), calls) && e.call == CallOf(op, Getting(n)) && Fits(e)
    ensures Told(op, Advance(op, Getting(n), e.answer), calls + [e])
  {
    hide LostRounds;
    LostRoundStays(op, calls, e, n);
    OnlyRetriesLose(op, calls, n);
    var local' := Advance(op, Getting(n), e.answer);
    if (op.Borrow? || op.Return?) && local'.Done? {
      assert RetryStory(op, calls + [e], n, local'.outcome);
    }
  }

  lemma RoundIsLost(op: Op, n: nat, read: IPInfo, version: nat, calls: seq<Exchange>, e: Exchange)
    requires (op.Borrow? || op.Return?) && ReadLast(op, calls, n, read, version) && n < 2
    requires e.call == CallOf(op, Swapping(n, read, version)) && e.answer.FromStore? && e.answer.reply.Lost?
    ensures LostRounds(op, calls + [e], n + 1)
  {
    LostRoundStays(op, calls, e, n);
    forall j: nat | j < n + 1 ensures LostRound(op, calls + [e], j) {
      if j < n {
        assert LostRound(op, calls + [e], j);
      }
    }
  }

  lemma RetryTold(op: Op, n: nat, read: IPInfo, version: nat, calls: seq<Exchange>, e: Exchange)
    requires op.Borrow? || op.Return?
    requires Told(op, Swapping(n, read, version), calls) && e.call == CallOf(op, Swapping(n, read, version)) && Fits(e)
    ensures Told(op, Advance(op, Swapping(n, read, version), e.answer), calls + [e])
  {
    hide LostRounds;
    LostRoundsBounded(op, calls, n);
    LostRoundStays(op, calls, e, n);
    var local' := Advance(op, Swapping(n, read, version), e.answer);
    if local'.Done? {
      assert RetryStory(op, calls + [e], n, local'.outcome);
    } else {
      RoundIsLost(op, n, read, version, calls, e);
    }
  }

  lemma LostRoundsBounded(op: Op, calls: seq<Exchange>, n: nat)
    requires LostRounds(op, calls, n)
    ensures n <= 2
  {
  }

  lemma SwapTold(op: Op, n: nat, read: IPInfo, version: nat, calls: seq<Exchange>, e: Exchange)
    requires !op.Borrow? && !op.Return?
    requires Told(op, Swapping(n, read, version), calls) && e.call == CallOf(op, Swapping(n, read, version)) && Fits(e)
    ensures Told(op, Advance(op, Swapping(n, read, version), e.answer), calls + [e])
  {
    hide LostRounds;
    OnlyRetriesLose(op, calls, n);
  }

  lemma ClaimTold(op: Op, local: Local, calls: seq<Exchange>, e: Exchange)
    requires local.Allocating? || local.Offering?
    requires Told(op, local, calls) && e.call == CallOf(op, local) && Fits(e)
    ensures Told(op, Advance(op, local, e.answer), calls + [e])
  {
    assert local.Offering? ==> op.pools[|calls|..][1..] == op.pools[|calls + [e]|..];
  }

  lemma PutTold(op: Op, ip: IP, calls: seq<Exchange>, e: Exchange)
    requires Told(op, Putting(ip), calls) && e.call == CallOf(op, Putting(ip)) && Fits(e)
    ensures Told(op, Advance(op, Putting(ip), e.answer), calls + [e])
  {
    var calls' := calls + [e];
    assert calls'[..|calls'| - 1] == calls;
    var local' := Advance(op, Putting(ip), e.answer);
    if op.AllocFromPools? && local'.Done? {
      assert OfferStory(op.pools, calls', |calls| - 1, local'.outcome);
    }
  }

  lemma DeleteTold(op: Op, info: IPInfo, calls: seq<Exchange>, e: Exchange)
    requires Told(op, Deleting(info), calls) && e.call == CallOf(op, Deleting(info)) && Fits(e)
    ensures Told(op, Advance(op, Deleting(info), e.answer), calls + [e])
  {
  }

  lemma FreeTold(op: Op, ip: IP, o: Outcome, calls: seq<Exchange>, e: Exchange)
    requires Told(op, Freeing(ip, o), calls) && e.call == CallOf(op, Freeing(ip, o)) && Fits(e)
    ensures Told(op, Advance(op, Freeing(ip, o), e.answer), calls + [e])
  {
    if op.AllocFromPools? {
      assert OfferStory(op.pools, calls + [e], |calls| - 2, o);
    }
  }

  /** Every step keeps the account. */
  lemma StepTold(op: Op, local: Local, calls: seq<Exchange>, e: Exchange)
    requires !local.Done? && WellFormed(op, local)
    requires Told(op, local, calls) && e.call == CallOf(op, local) && Fits(e)
    ensures Told(op, Advance(op, local, e.answer), calls + [e])
  {
    hide Told, Fits;
    match local {
      case Getting(n) => GetTold(op, n, calls, e);
      case Swapping(n, read, version) =>
        if op.Borrow? || op.Return? {
          RetryTold(op, n, read, version, calls, e);
        } else {
          SwapTold(op, n, read, version, calls, e);
        }
      case Putting(ip) => PutTold(op, ip, calls, e);
      case Deleting(info) => DeleteTold(op, info, calls, e);
      case Freeing(ip, o) => FreeTold(op, ip, o, calls, e);
      case _ => ClaimTold(op, local, calls, e);
    }
  }

  lemma StartTold(op: Op)
    ensures Told(op, Start(op), [])
  {
  }
}
