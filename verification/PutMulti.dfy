/**
 Writing many records at once: the records become a map from key to value, the map's entries become
 operations in whatever order the map is iterated, and the operations go out in transactions of at
 most 125 each, which run in any order.
 */
module PutMulti {
  import opened Types
  import opened Etcd
  import opened FiniteSets

  datatype Op<+V> = Op(key: string, value: V)

  const TXN_LIMIT: nat := 125

  /** `responses` names the operation each response answers by its key. */
  datatype TxnResponse = TxnResponse(succeeded: bool, responses: seq<string>)

  function Length(n: nat): nat {
    n / TXN_LIMIT + if n % TXN_LIMIT != 0 then 1 else 0
  }

  /** Transaction i: full ones first, the tail last. */
  function Chunk<V>(ops: seq<Op<V>>, i: nat): seq<Op<V>>
    requires i < Length(|ops|)
  {
    if i == |ops| / TXN_LIMIT then ops[i * TXN_LIMIT..] else ops[i * TXN_LIMIT..(i + 1) * TXN_LIMIT]
  }

  function Joined<V>(ops: seq<Op<V>>, k: nat): seq<Op<V>>
    requires k <= Length(|ops|)
  {
    if k == 0 then [] else Joined(ops, k - 1) + Chunk(ops, k - 1)
  }

  function Min(a: int, b: int): int {
    if a < b then a else b
  }

  lemma {:induction false} JoinedIsPrefix<V>(ops: seq<Op<V>>, k: nat)
    requires k <= Length(|ops|)
    ensures Joined(ops, k) == ops[..Min(k * TXN_LIMIT, |ops|)]
  {
    if k > 0 {
      JoinedIsPrefix(ops, k - 1);
    }
  }

  /**
   The transactions are small enough, none is empty, and laid end to end they are the operations, each once and in
   order.
   */
  lemma ChunksPartition<V>(ops: seq<Op<V>>)
    ensures forall i :: 0 <= i < Length(|ops|) ==> 0 < |Chunk(ops, i)| <= TXN_LIMIT
    ensures Joined(ops, Length(|ops|)) == ops
  {
    JoinedIsPrefix(ops, Length(|ops|));
  }

  function ChunkOf(j: nat): nat {
    j / TXN_LIMIT
  }

  lemma ChunkMember<V>(ops: seq<Op<V>>, i: nat, m: nat) returns (j: nat)
    requires i < Length(|ops|) && m < |Chunk(ops, i)|
    ensures j < |ops| && ops[j] == Chunk(ops, i)[m] && ChunkOf(j) == i
    ensures j == i * TXN_LIMIT + m
  {
    j := i * TXN_LIMIT + m;
  }

  /** Operation j is in transaction j / 125 and in no other. */
  lemma InItsChunk<V>(ops: seq<Op<V>>, i: nat, j: nat)
    requires DistinctKeys(ops) && i < Length(|ops|) && j < |ops|
    ensures ChunkOf(j) < Length(|ops|)
    ensures ops[j] in Chunk(ops, i) <==> i == ChunkOf(j)
  {
    var c := Chunk(ops, i);
    if i == ChunkOf(j) {
      assert c[j - i * TXN_LIMIT] == ops[j];
    }
    if ops[j] in c {
      var m :| 0 <= m < |c| && c[m] == ops[j];
      var j' := ChunkMember(ops, i, m);
      assert j' == j;
    }
  }

  // ----- what a transaction does to the store

  predicate DistinctKeys<V>(ops: seq<Op<V>>) {
    forall i, j :: 0 <= i < j < |ops| ==> ops[i].key != ops[j].key
  }

  function Commit<V>(kv: KV<V>, ops: seq<Op<V>>): KV<V>
    decreases |ops|
  {
    if ops == [] then kv else Commit(Written(kv, ops[0].key, ops[0].value), ops[1..])
  }

  predicate SameAt<V(==)>(kv: KV<V>, kv': KV<V>, key: string) {
    (key in kv' <==> key in kv) && (key in kv ==> kv'[key] == kv[key])
  }

  /** One write of this key on top of what was there. */
  predicate LandedAt<V(==)>(kv: KV<V>, kv': KV<V>, op: Op<V>) {
    op.key in kv' && kv'[op.key] == Entry(op.value, VersionOf(kv, op.key) + 1)
  }

  lemma {:induction false} CommitFrame<V>(kv: KV<V>, ops: seq<Op<V>>, key: string)
    requires forall i :: 0 <= i < |ops| ==> ops[i].key != key
    ensures SameAt(kv, Commit(kv, ops), key)
    decreases |ops|
  {
    if ops != [] {
      CommitFrame(Written(kv, ops[0].key, ops[0].value), ops[1..], key);
    }
  }

  lemma {:induction false} CommitLands<V>(kv: KV<V>, ops: seq<Op<V>>, j: nat)
    requires DistinctKeys(ops) && j < |ops|
    ensures LandedAt(kv, Commit(kv, ops), ops[j])
    decreases |ops|
  {
    var kv' := Written(kv, ops[0].key, ops[0].value);
    if j == 0 {
      CommitFrame(kv', ops[1..], ops[0].key);
    } else {
      assert ops[1..][j - 1] == ops[j];
      CommitLands(kv', ops[1..], j - 1);
    }
  }

  // ----- the other clients during the call

  predicate Untouched<V>(turns: seq<Turn<V>>, key: string) {
    forall i :: 0 <= i < |turns| ==> !Touches(turns[i].writes, key)
  }

  function After<V>(turns: seq<Turn<V>>, calls: nat): seq<Turn<V>> {
    turns[Min(calls, |turns|)..]
  }

  predicate AnyFails<V>(turns: seq<Turn<V>>, calls: nat) {
    exists i :: 0 <= i < calls && i < |turns| && turns[i].fails
  }

  lemma NextCall<V>(kv: KV<V>, turns: seq<Turn<V>>, calls: nat)
    ensures var a := Arrive(kv, After(turns, calls));
      && a.rest == After(turns, calls + 1)
      && (AnyFails(turns, calls + 1) <==> AnyFails(turns, calls) || a.fails)
      && forall key :: Untouched(turns, key) ==> SameAt(kv, a.kv, key)
  {
    if calls < |turns| {
      assert After(turns, calls)[0] == turns[calls];
      assert After(turns, calls)[1..] == After(turns, calls + 1);
      forall key | Untouched(turns, key) ensures SameAt(kv, Arrive(kv, After(turns, calls)).kv, key) {
        InterfereFrame(kv, turns[calls].writes, key);
      }
    }
  }

  // ----- the transactions

  /** The key's record when these transactions, and no others, have been committed. */
  predicate Settled<V(==)>(kv: KV<V>, kv': KV<V>, ops: seq<Op<V>>, committed: set<nat>, key: string) {
    && (forall j :: 0 <= j < |ops| && ops[j].key == key ==>
          if ChunkOf(j) in committed then LandedAt(kv, kv', ops[j]) else SameAt(kv, kv', key))
    && ((forall j :: 0 <= j < |ops| ==> ops[j].key != key) ==> SameAt(kv, kv', key))
  }

  ghost predicate AllSettled<V>(kv: KV<V>, kv': KV<V>, ops: seq<Op<V>>, committed: set<nat>, turns: seq<Turn<V>>) {
    forall key :: Untouched(turns, key) ==> Settled(kv, kv', ops, committed, key)
  }

  lemma SettledCarries<V>(kv: KV<V>, kv1: KV<V>, kv2: KV<V>, ops: seq<Op<V>>, committed: set<nat>, key: string)
    requires Settled(kv, kv1, ops, committed, key) && SameAt(kv1, kv2, key)
    ensures Settled(kv, kv2, ops, committed, key)
  {
  }

  lemma ChunkDistinct<V>(ops: seq<Op<V>>, i: nat)
    requires DistinctKeys(ops) && i < Length(|ops|)
    ensures DistinctKeys(Chunk(ops, i))
  {
    var c := Chunk(ops, i);
    forall m, n | 0 <= m < n < |c| ensures c[m].key != c[n].key {
      var j := ChunkMember(ops, i, m);
      var j' := ChunkMember(ops, i, n);
    }
  }

  lemma CommitSettles<V>(kv: KV<V>, kv1: KV<V>, ops: seq<Op<V>>, committed: set<nat>, i: nat, key: string)
    requires DistinctKeys(ops) && i < Length(|ops|) && i !in committed
    requires Settled(kv, kv1, ops, committed, key)
    ensures Settled(kv, Commit(kv1, Chunk(ops, i)), ops, committed + {i}, key)
  {
    hide Commit, Chunk, ChunkOf, Length;
    var c := Chunk(ops, i);
    var kv2 := Commit(kv1, c);
    if exists j :: 0 <= j < |ops| && ops[j].key == key && ChunkOf(j) == i {
      var j :| 0 <= j < |ops| && ops[j].key == key && ChunkOf(j) == i;
      InItsChunk(ops, i, j);
      ChunkDistinct(ops, i);
      var m :| 0 <= m < |c| && c[m] == ops[j];
      CommitLands(kv1, c, m);
      assert LandedAt(kv, kv2, ops[j]);
    } else {
      forall m | 0 <= m < |c| ensures c[m].key != key {
        var j := ChunkMember(ops, i, m);
      }
      CommitFrame(kv1, c, key);
    }
  }

  function Keys<V>(ops: seq<Op<V>>): seq<string> {
    seq(|ops|, i requires 0 <= i < |ops| => ops[i].key)
  }

  /** Each transaction that has run has filled its own slot: the response, or the error. */
  predicate Filled<V>(ops: seq<Op<V>>, pending: set<nat>, resps: seq<TxnResponse>, errs: seq<Option<Error>>,
                      committed: set<nat>) {
    && |resps| == |errs| == Length(|ops|)
    && (forall i :: i in pending ==> i < |errs| && i !in committed && errs[i] == None)
    && (forall i :: 0 <= i < |errs| && i !in pending ==>
          errs[i] == if i in committed then None else Some(ErrUnavailable))
    && (forall i :: 0 <= i < |errs| && i in committed ==> resps[i] == TxnResponse(true, Keys(Chunk(ops, i))))
  }

  predicate AnyError(errs: seq<Option<Error>>) {
    exists i :: 0 <= i < |errs| && errs[i].Some?
  }

  lemma FilledStart<V>(ops: seq<Op<V>>, resps: seq<TxnResponse>, errs: seq<Option<Error>>)
    requires |resps| == |errs| == Length(|ops|) && forall i :: 0 <= i < |errs| ==> errs[i] == None
    ensures Filled(ops, Below(Length(|ops|)), resps, errs, {}) && !AnyError(errs)
  {
  }

  lemma FillError<V>(ops: seq<Op<V>>, pending: set<nat>, resps: seq<TxnResponse>, errs: seq<Option<Error>>,
                     committed: set<nat>, i: nat)
    requires Filled(ops, pending, resps, errs, committed) && i in pending
    ensures var errs' := errs[i := Some(ErrUnavailable)];
      Filled(ops, pending - {i}, resps, errs', committed) && AnyError(errs')
  {
    hide Chunk, Keys;
    assert errs[i := Some(ErrUnavailable)][i].Some?;
  }

  lemma FillResponse<V>(ops: seq<Op<V>>, pending: set<nat>, resps: seq<TxnResponse>, errs: seq<Option<Error>>,
                        committed: set<nat>, i: nat)
    requires Filled(ops, pending, resps, errs, committed) && i in pending
    ensures Filled(ops, pending - {i}, resps[i := TxnResponse(true, Keys(Chunk(ops, i)))], errs, committed + {i})
  {
    hide Chunk, Keys;
  }

  /** One transaction: all of its operations or none. */
  method Txn<V>(store: EtcdStore<V>, ops: seq<Op<V>>) returns (fails: bool)
    modifies store
    ensures var a := Arrive(old(store.kv), old(store.turns));
      && fails == a.fails && store.turns == a.rest
      && store.kv == if fails then a.kv else Commit(a.kv, ops)
  {
    fails := store.Await();
    if !fails {
      store.kv := Commit(store.kv, ops);
    }
  }

  /** Runs the transactions in any order and fills `resps` and `errs` by index. */
  method RunTransactions<V(==)>(store: EtcdStore<V>, ops: seq<Op<V>>)
    returns (resps: seq<TxnResponse>, errs: seq<Option<Error>>, ghost committed: set<nat>)
    requires DistinctKeys(ops)
    modifies store
    ensures Filled(ops, {}, resps, errs, committed)
    ensures store.turns == After(old(store.turns), Length(|ops|))
    ensures AnyFails(old(store.turns), Length(|ops|)) <==> AnyError(errs)
    ensures AllSettled(old(store.kv), store.kv, ops, committed, old(store.turns))
  {
    hide *;
    var length := Length(|ops|);
    resps := seq(length, _ => TxnResponse(true, []));
    errs := seq(length, _ => None);
    committed := {};
    var pending: set<nat> := Below(length);
    Start(store.kv, store.turns, ops);
    FilledStart(ops, resps, errs);
    while pending != {}
      invariant |pending| <= length && Filled(ops, pending, resps, errs, committed)
      invariant store.turns == After(old(store.turns), length - |pending|)
      invariant AnyFails(old(store.turns), length - |pending|) <==> AnyError(errs)
      invariant AllSettled(old(store.kv), store.kv, ops, committed, old(store.turns))
      decreases |pending|
    {
      var i: nat :| i in pending;
      PendingSlot(ops, pending, resps, errs, committed, i);
      TxnSettles(old(store.kv), store.kv, ops, committed, i, old(store.turns), length - |pending|);
      var fails := Txn(store, Chunk(ops, i));
      if fails {
        FillError(ops, pending, resps, errs, committed, i);
        errs := errs[i := Some(ErrUnavailable)];
      } else {
        FillResponse(ops, pending, resps, errs, committed, i);
        resps := resps[i := TxnResponse(true, Keys(Chunk(ops, i)))];
        committed := committed + {i};
      }
      pending := pending - {i};
    }
  }

  lemma PendingSlot<V>(ops: seq<Op<V>>, pending: set<nat>, resps: seq<TxnResponse>, errs: seq<Option<Error>>,
                       committed: set<nat>, i: nat)
    requires Filled(ops, pending, resps, errs, committed) && i in pending
    ensures i < Length(|ops|) == |errs| == |resps| && i !in committed
  {
  }

  /** The merged response answers the operations in their own order. */
  method DoBatchOp<V(==)>(store: EtcdStore<V>, ops: seq<Op<V>>)
    returns (resp: Option<TxnResponse>, err: Option<Error>, ghost committed: set<nat>)
    requires DistinctKeys(ops)
    modifies store
    ensures ops == [] ==>
        resp == None && err == Some(ErrNoOps) && store.kv == old(store.kv) && store.turns == old(store.turns)
    ensures ops != [] ==>
        && store.turns == After(old(store.turns), Length(|ops|))
        && err == (if AnyFails(old(store.turns), Length(|ops|)) then Some(ErrUnavailable) else None)
        && resp == (if err == None then Some(TxnResponse(true, Keys(ops))) else None)
        && (err == None <==> forall i :: 0 <= i < Length(|ops|) ==> i in committed)
        && AllSettled(old(store.kv), store.kv, ops, committed, old(store.turns))
  {
    hide Chunk, Keys, AllSettled, After, AnyFails, DistinctKeys;
    if |ops| == 0 {
      return None, Some(ErrNoOps), {};
    }
    var resps, errs;
    resps, errs, committed := RunTransactions(store, ops);
    var k := 0;
    while k < |errs|
      invariant 0 <= k <= |errs|
      invariant forall i :: 0 <= i < k ==> errs[i] == None
    {
      if errs[k].Some? {
        return None, errs[k], committed;
      }
      k := k + 1;
    }
    var merged := Merge(ops, resps);
    return Some(merged), None, committed;
  }

  lemma KeysOfJoin<V>(ops: seq<Op<V>>, i: nat)
    requires i < Length(|ops|)
    ensures Keys(Joined(ops, i + 1)) == Keys(Joined(ops, i)) + Keys(Chunk(ops, i))
  {
    hide Chunk;
  }

  /** Appends the responses of the later transactions to those of the first. */
  method Merge<V>(ghost ops: seq<Op<V>>, resps: seq<TxnResponse>) returns (resp: TxnResponse)
    requires ops != [] && |resps| == Length(|ops|)
    requires forall i :: 0 <= i < |resps| ==> resps[i] == TxnResponse(true, Keys(Chunk(ops, i)))
    ensures resp == TxnResponse(true, Keys(ops))
  {
    ChunksPartition(ops);
    KeysOfJoin(ops, 0);
    assert Keys(Joined(ops, 0)) == [];
    hide Chunk, Keys, Joined;
    resp := resps[0];
    var i := 1;
    while i < |resps|
      invariant 1 <= i <= |resps|
      invariant resp == TxnResponse(true, Keys(Joined(ops, i)))
    {
      KeysOfJoin(ops, i);
      resp := TxnResponse(resp.succeeded && resps[i].succeeded, resp.responses + resps[i].responses);
      i := i + 1;
    }
  }

  lemma Start<V>(kv: KV<V>, turns: seq<Turn<V>>, ops: seq<Op<V>>)
    ensures AllSettled(kv, kv, ops, {}, turns) && After(turns, 0) == turns && !AnyFails(turns, 0)
  {
  }

  lemma TxnSettles<V>(kv: KV<V>, kv1: KV<V>, ops: seq<Op<V>>, committed: set<nat>, i: nat, turns: seq<Turn<V>>,
                      calls: nat)
    requires DistinctKeys(ops) && i < Length(|ops|) && i !in committed
    requires AllSettled(kv, kv1, ops, committed, turns)
    ensures var a := Arrive(kv1, After(turns, calls));
      && a.rest == After(turns, calls + 1)
      && (AnyFails(turns, calls + 1) <==> AnyFails(turns, calls) || a.fails)
      && AllSettled(kv, a.kv, ops, committed, turns)
      && AllSettled(kv, Commit(a.kv, Chunk(ops, i)), ops, committed + {i}, turns)
  {
    hide Settled, SameAt, Arrive, After, Commit, Chunk, Untouched, Length;
    NextCall(kv1, turns, calls);
    var a := Arrive(kv1, After(turns, calls));
    forall key | Untouched(turns, key)
      ensures Settled(kv, a.kv, ops, committed, key)
      ensures Settled(kv, Commit(a.kv, Chunk(ops, i)), ops, committed + {i}, key)
    {
      SettledCarries(kv, kv1, a.kv, ops, committed, key);
      CommitSettles(kv, a.kv, ops, committed, i, key);
    }
  }

  // ----- from records to operations

  /** The records as a map: of two with one key the later wins. */
  function Data<V>(writes: seq<Op<V>>): map<string, V>
    decreases |writes|
  {
    if writes == [] then map[]
    else
      var last := writes[|writes| - 1];
      Data(writes[..|writes| - 1])[last.key := last.value]
  }

  predicate HasBlank<V>(writes: seq<Op<V>>) {
    exists i :: 0 <= i < |writes| && writes[i].key == ""
  }

  /** The operations are the entries of the map, each once. */
  predicate Lists<V(==)>(ops: seq<Op<V>>, data: map<string, V>) {
    && DistinctKeys(ops)
    && (forall i :: 0 <= i < |ops| ==> ops[i].key in data && ops[i].value == data[ops[i].key])
    && (forall k :: k in data ==> exists i :: 0 <= i < |ops| && ops[i].key == k)
    && |ops| == |data|
  }

  /** What the call leaves under a key that nobody else touches. */
  predicate Lands<V(==)>(kv: KV<V>, kv': KV<V>, data: map<string, V>, key: string) {
    if key in data then LandedAt(kv, kv', Op(key, data[key])) else SameAt(kv, kv', key)
  }

  /** A failed transaction leaves its keys as they were. */
  ghost predicate Outcome<V>(kv: KV<V>, kv': KV<V>, data: map<string, V>, failed: bool, turns: seq<Turn<V>>) {
    forall key :: Untouched(turns, key) ==> Lands(kv, kv', data, key) || (failed && SameAt(kv, kv', key))
  }

  lemma SettledIsOutcome<V>(kv: KV<V>, kv': KV<V>, ops: seq<Op<V>>, data: map<string, V>, committed: set<nat>,
                            failed: bool, turns: seq<Turn<V>>)
    requires Lists(ops, data) && AllSettled(kv, kv', ops, committed, turns)
    requires !failed ==> forall i :: 0 <= i < Length(|ops|) ==> i in committed
    ensures Outcome(kv, kv', data, failed, turns)
  {
    forall key | Untouched(turns, key) ensures Lands(kv, kv', data, key) || (failed && SameAt(kv, kv', key)) {
      assert Settled(kv, kv', ops, committed, key);
      if key in data {
        var j :| 0 <= j < |ops| && ops[j].key == key;
        InItsChunk(ops, 0, j);
        assert ops[j] == Op(key, data[key]);
      }
    }
  }

  /** One response for each entry of the map. */
  predicate Answers(resp: TxnResponse, keys: set<string>) {
    && resp.succeeded && |resp.responses| == |keys|
    && (forall i :: 0 <= i < |resp.responses| ==> resp.responses[i] in keys)
    && (forall i, j :: 0 <= i < j < |resp.responses| ==> resp.responses[i] != resp.responses[j])
    && (forall key :: key in keys ==> key in resp.responses)
  }

  lemma ListedAnswers<V>(ops: seq<Op<V>>, data: map<string, V>)
    requires Lists(ops, data)
    ensures Answers(TxnResponse(true, Keys(ops)), data.Keys)
  {
    forall key | key in data.Keys ensures key in Keys(ops) {
      var i :| 0 <= i < |ops| && ops[i].key == key;
      assert Keys(ops)[i] == key;
    }
  }

  lemma ListsNext<V>(ops: seq<Op<V>>, left: set<string>, data: map<string, V>, key: string)
    requires ListsBut(ops, left, data) && key in left
    ensures ListsBut(ops + [Op(key, data[key])], left - {key}, data)
  {
    var ops' := ops + [Op(key, data[key])];
    assert forall i :: 0 <= i < |ops| ==> ops'[i] == ops[i];
    forall k | k in data && k !in left - {key} ensures exists i :: 0 <= i < |ops'| && ops'[i].key == k {
      if k == key {
        assert ops'[|ops|].key == k;
      } else {
        var i :| 0 <= i < |ops| && ops[i].key == k;
        assert ops'[i].key == k;
      }
    }
  }

  /** The entries but for those left. */
  predicate ListsBut<V(==)>(ops: seq<Op<V>>, left: set<string>, data: map<string, V>) {
    && left <= data.Keys && |ops| + |left| == |data|
    && DistinctKeys(ops)
    && (forall i :: 0 <= i < |ops| ==>
          ops[i].key in data && ops[i].key !in left && ops[i].value == data[ops[i].key])
    && (forall k :: k in data && k !in left ==> exists i :: 0 <= i < |ops| && ops[i].key == k)
  }

  /** Lists the map in any order and sends it. */
  method BatchPut<V(==)>(store: EtcdStore<V>, data: map<string, V>)
    returns (resp: Option<TxnResponse>, err: Option<Error>)
    modifies store
    ensures data == map[] ==> err == Some(ErrNoOps) && store.kv == old(store.kv) && store.turns == old(store.turns)
    ensures data != map[] ==>
        && store.turns == After(old(store.turns), Length(|data|))
        && err == (if AnyFails(old(store.turns), Length(|data|)) then Some(ErrUnavailable) else None)
        && (resp == None <==> err.Some?) && (resp.Some? ==> Answers(resp.value, data.Keys))
        && Outcome(old(store.kv), store.kv, data, err.Some?, old(store.turns))
  {
    hide AllSettled, Outcome, AnyFails, After, Answers, Keys;
    var ops: seq<Op<V>> := [];
    var left := data.Keys;
    while left != {}
      invariant ListsBut(ops, left, data) && store.kv == old(store.kv) && store.turns == old(store.turns)
      decreases left
    {
      var key :| key in left;
      ListsNext(ops, left, data, key);
      ops := ops + [Op(key, data[key])];
      left := left - {key};
    }
    assert Lists(ops, data) && |ops| == |data| && (ops == [] <==> data == map[]);
    hide Lists, ListsBut;
    ghost var committed;
    resp, err, committed := DoBatchOp(store, ops);
    if data != map[] {
      SettledIsOutcome(old(store.kv), store.kv, ops, data, committed, err.Some?, old(store.turns));
      ListedAnswers(ops, data);
    }
  }

  function WritesOf<V>(codecs: seq<Codec<V>>): seq<Op<V>>
    reads codecs
  {
    seq(|codecs|, i requires 0 <= i < |codecs| reads codecs => Op(codecs[i].Key(), codecs[i].value))
  }

  lemma DataNext<V>(writes: seq<Op<V>>, i: nat)
    requires i < |writes|
    ensures Data(writes[..i + 1]) == Data(writes[..i])[writes[i].key := writes[i].value]
    ensures !HasBlank(writes[..i + 1]) <==> !HasBlank(writes[..i]) && writes[i].key != ""
    ensures HasBlank(writes[..i + 1]) ==> HasBlank(writes)
  {
    hide Data;
    var front, next := writes[..i], writes[..i + 1];
    assert next[..i] == front && next[i] == writes[i];
    assert forall j :: 0 <= j < i ==> next[j] == front[j] == writes[j];
    DataLast(next);
    if HasBlank(front) {
      var j :| 0 <= j < |front| && front[j].key == "";
      assert next[j].key == "";
    }
  }

  lemma NoData<V>()
    ensures Data<V>([]) == map[] && !HasBlank<V>([])
  {
  }

  lemma DataLast<V>(writes: seq<Op<V>>)
    requires writes != []
    ensures var n := |writes| - 1;
      Data(writes) == Data(writes[..n])[writes[n].key := writes[n].value]
  {
  }

  method PutMulti<V(==)>(store: EtcdStore<V>, codecs: seq<Codec<V>>) returns (err: Option<Error>)
    modifies store
    ensures var writes, data := WritesOf(codecs), Data(WritesOf(codecs));
      && (HasBlank(writes) ==> err == Some(ErrKeyIsBlank))
      && (!HasBlank(writes) && writes == [] ==> err == Some(ErrNoOps))
      && (HasBlank(writes) || writes == [] ==> store.kv == old(store.kv) && store.turns == old(store.turns))
      && (!HasBlank(writes) && writes != [] ==>
          && store.turns == After(old(store.turns), Length(|data|))
          && err == (if AnyFails(old(store.turns), Length(|data|)) then Some(ErrUnavailable) else None)
          && Outcome(old(store.kv), store.kv, data, err.Some?, old(store.turns)))
  {
    hide Outcome, AnyFails, After, Data, HasBlank;
    ghost var writes := WritesOf(codecs);
    NoData<V>();
    var data: map<string, V> := map[];
    var i := 0;
    while i < |codecs|
      invariant 0 <= i <= |codecs|
      invariant data == Data(writes[..i]) && !HasBlank(writes[..i])
      invariant i > 0 ==> data != map[]
      invariant store.kv == old(store.kv) && store.turns == old(store.turns)
    {
      DataNext(writes, i);
      var key := codecs[i].Key();
      assert writes[i] == Op(key, codecs[i].value);
      if key == "" {
        return Some(ErrKeyIsBlank);
      }
      data := data[key := codecs[i].value];
      assert key in data;
      i := i + 1;
    }
    assert writes[..i] == writes;
    var resp;
    resp, err := BatchPut(store, data);
  }

  // ----- against putting the records one by one

  function PutEach<V>(kv: KV<V>, writes: seq<Op<V>>): KV<V>
    decreases |writes|
  {
    if writes == [] then kv
    else
      var last := writes[|writes| - 1];
      PutReply(PutEach(kv, writes[..|writes| - 1]), last.key, last.value, false).0
  }

  function Occurrences<V>(writes: seq<Op<V>>, key: string): nat
    decreases |writes|
  {
    if writes == [] then 0
    else Occurrences(writes[..|writes| - 1], key) + if writes[|writes| - 1].key == key then 1 else 0
  }

  lemma {:induction false} PutEachAt<V>(kv: KV<V>, writes: seq<Op<V>>, key: string)
    requires !HasBlank(writes)
    ensures var kv', data := PutEach(kv, writes), Data(writes);
      && (key in kv' <==> key in kv || key in data)
      && (key in data ==> kv'[key].value == data[key])
      && (key !in data ==> SameAt(kv, kv', key))
      && VersionOf(kv', key) == VersionOf(kv, key) + Occurrences(writes, key)
      && (key in data <==> Occurrences(writes, key) > 0)
    decreases |writes|
  {
    if writes != [] {
      var front := writes[..|writes| - 1];
      assert forall i :: 0 <= i < |front| ==> front[i] == writes[i];
      assert writes[|writes| - 1].key != "";
      PutEachAt(kv, front, key);
    }
  }

  /**
   When no transaction fails, every key that nobody else touches has the value that putting the records one by one in
   order would leave. Its version grows by one however many records name it, where the puts would add one for each.
   */
  lemma SameValuesAsPuts<V>(kv: KV<V>, kv': KV<V>, writes: seq<Op<V>>, turns: seq<Turn<V>>, key: string)
    requires !HasBlank(writes) && Outcome(kv, kv', Data(writes), false, turns) && Untouched(turns, key)
    ensures var puts := PutEach(kv, writes);
      && (key in kv' <==> key in puts)
      && (key in kv' ==> kv'[key].value == puts[key].value)
      && VersionOf(kv', key) == VersionOf(kv, key) + Min(1, Occurrences(writes, key))
      && VersionOf(puts, key) == VersionOf(kv, key) + Occurrences(writes, key)
  {
    PutEachAt(kv, writes, key);
    assert Lands(kv, kv', Data(writes), key);
  }

  function ValuesOf<V>(kv: KV<V>): map<string, V> {
    map k | k in kv :: kv[k].value
  }

  /**
   With nobody else at work the store holds what the puts one by one would leave, whatever the order of map and
   transactions.
   */
  method PutMultiAlone<V(==)>(store: EtcdStore<V>, codecs: seq<Codec<V>>) returns (err: Option<Error>)
    requires store.turns == [] && !HasBlank(WritesOf(codecs)) && codecs != []
    modifies store
    ensures err == None && ValuesOf(store.kv) == ValuesOf(PutEach(old(store.kv), WritesOf(codecs)))
  {
    hide Outcome, PutEach, Data, HasBlank, Occurrences;
    ghost var writes := WritesOf(codecs);
    err := PutMulti(store, codecs);
    forall key ensures var puts := PutEach(old(store.kv), writes);
      && (key in store.kv <==> key in puts) && (key in store.kv ==> store.kv[key].value == puts[key].value) {
      SameValuesAsPuts(old(store.kv), store.kv, writes, [], key);
    }
  }
}
