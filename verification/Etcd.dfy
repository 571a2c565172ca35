/**
 The key-value store: what one etcd call does to the map, and the store class that wraps the calls
 around a codec. A key's version starts at 1 and grows by one with every write of that key; deleting
 the key forgets it.
 */
module Etcd {
  import opened Types

  datatype Entry<+V> = Entry(value: V, version: nat)

  type KV<V> = map<string, Entry<V>>

  /** What an etcd call answers. */
  datatype Reply<+V> =
    | Ok
    | Err(error: Error)
    | Read(value: V, version: nat)
    | Swapped
    | Lost(value: V, version: nat)

  function ErrorOf<V>(reply: Reply<V>): Option<Error> {
    if reply.Err? then Some(reply.error) else None
  }

  function VersionOf<V>(kv: KV<V>, key: string): nat {
    if key in kv then kv[key].version else 0
  }

  function Written<V>(kv: KV<V>, key: string, value: V): KV<V> {
    kv[key := Entry(value, VersionOf(kv, key) + 1)]
  }

  function Dropped<V>(kv: KV<V>, key: string): KV<V> {
    map k | k in kv && k != key :: kv[k]
  }

  function GetReply<V>(kv: KV<V>, key: string, fails: bool): Reply<V> {
    if fails then Err(ErrUnavailable)
    else if key == "" then Err(ErrEmptyKey)
    else if key !in kv then Err(ErrKVNotExists)
    else Read(kv[key].value, kv[key].version)
  }

  function PutReply<V>(kv: KV<V>, key: string, value: V, fails: bool): (KV<V>, Reply<V>) {
    if key == "" then (kv, Err(ErrKeyIsBlank))
    else if fails then (kv, Err(ErrUnavailable))
    else (Written(kv, key, value), Ok)
  }

  function DeleteReply<V>(kv: KV<V>, key: string, fails: bool): (KV<V>, Reply<V>) {
    if key == "" then (kv, Err(ErrKeyIsBlank))
    else if fails then (kv, Err(ErrUnavailable))
    else if key !in kv then (kv, Err(ErrKVNotExists))
    else (Dropped(kv, key), Ok)
  }

  /**
   Put if the key still has the given version, else read it. Version 0 against an absent key writes and still reports
   an error.
   */
  function SwapReply<V>(kv: KV<V>, key: string, version: int, value: V, fails: bool): (KV<V>, Reply<V>) {
    if fails then (kv, Err(ErrUnavailable))
    else if key == "" then (kv, Err(ErrEmptyKey))
    else if VersionOf(kv, key) == version then
      (Written(kv, key, value), if key in kv then Swapped else Err(ErrKVNotExists))
    else if key !in kv then (kv, Err(ErrKVNotExists))
    else (kv, Lost(kv[key].value, kv[key].version))
  }

  /** Exactly a swap of version 0 against an absent key changes the store and still reports an error. */
  lemma SwapErrsAfterWriting<V(!new)>(kv: KV<V>, key: string, version: int, value: V, fails: bool)
    ensures var (kv', reply) := SwapReply(kv, key, version, value, fails);
      reply.Err? && kv' != kv <==> !fails && key != "" && key !in kv && version == 0
  {
    var (kv', reply) := SwapReply(kv, key, version, value, fails);
    assert !fails && key != "" && key !in kv && version == 0 ==> key in kv';
  }

  /** The input at which it happens first: a fresh codec updated before it was ever put. */
  lemma FreshSwapWritesAndErrs<V>(value: V)
    ensures SwapReply(map[], "k", 0, value, false) == (map["k" := Entry(value, 1)], Err(ErrKVNotExists))
  {
  }

  /** What the other clients do to the store before one of our calls, and whether our call then fails without effect. */
  datatype Turn<V> = Turn(writes: seq<Rival<V>>, fails: bool)

  datatype Rival<V> = RivalPut(key: string, value: V) | RivalDelete(key: string)

  function Overwrite<V>(kv: KV<V>, write: Rival<V>): KV<V> {
    match write
    case RivalPut(k, v) => if k == "" then kv else Written(kv, k, v)
    case RivalDelete(k) => Dropped(kv, k)
  }

  function Interfere<V>(kv: KV<V>, writes: seq<Rival<V>>): KV<V>
    decreases writes
  {
    if writes == [] then kv else Interfere(Overwrite(kv, writes[0]), writes[1..])
  }

  datatype Arrival<V> = Arrival(kv: KV<V>, fails: bool, rest: seq<Turn<V>>)

  /** The store as one of our calls finds it; no turn left means no interference. */
  function Arrive<V>(kv: KV<V>, turns: seq<Turn<V>>): Arrival<V> {
    if turns == [] then Arrival(kv, false, [])
    else Arrival(Interfere(kv, turns[0].writes), turns[0].fails, turns[1..])
  }

  /** Every record sits under the key it encodes, in the store and in whatever the others are going to put. */
  predicate Keyed<V>(kv: KV<V>, turns: seq<Turn<V>>, keyOf: V -> string) {
    && (forall k :: k in kv ==> keyOf(kv[k].value) == k)
    && (forall i, j :: 0 <= i < |turns| && 0 <= j < |turns[i].writes| && turns[i].writes[j].RivalPut? ==>
          keyOf(turns[i].writes[j].value) == turns[i].writes[j].key)
  }

  predicate KeyedWrites<V>(writes: seq<Rival<V>>, keyOf: V -> string) {
    forall j :: 0 <= j < |writes| && writes[j].RivalPut? ==> keyOf(writes[j].value) == writes[j].key
  }

  lemma {:induction false} InterfereKeyed<V>(kv: KV<V>, writes: seq<Rival<V>>, keyOf: V -> string)
    requires forall k :: k in kv ==> keyOf(kv[k].value) == k
    requires KeyedWrites(writes, keyOf)
    ensures forall k :: k in Interfere(kv, writes) ==> keyOf(Interfere(kv, writes)[k].value) == k
    decreases writes
  {
    if writes != [] {
      assert KeyedWrites(writes[1..], keyOf) by {
        assert forall j :: 0 <= j < |writes[1..]| ==> writes[1..][j] == writes[j + 1];
      }
      InterfereKeyed(Overwrite(kv, writes[0]), writes[1..], keyOf);
    }
  }

  lemma ArriveKeyed<V>(kv: KV<V>, turns: seq<Turn<V>>, keyOf: V -> string)
    requires Keyed(kv, turns, keyOf)
    ensures Keyed(Arrive(kv, turns).kv, Arrive(kv, turns).rest, keyOf)
  {
    if turns != [] {
      InterfereKeyed(kv, turns[0].writes, keyOf);
      assert forall i :: 0 <= i < |turns[1..]| ==> turns[1..][i] == turns[i + 1];
    }
  }

  predicate Touches<V>(writes: seq<Rival<V>>, key: string) {
    exists i :: 0 <= i < |writes| && writes[i].key == key
  }

  /** Rivals that never name a key leave it alone. */
  lemma {:induction false} InterfereFrame<V>(kv: KV<V>, writes: seq<Rival<V>>, key: string)
    requires !Touches(writes, key)
    ensures key in Interfere(kv, writes) <==> key in kv
    ensures key in kv ==> Interfere(kv, writes)[key] == kv[key]
    decreases writes
  {
    if writes != [] {
      assert writes[0].key != key;
      assert !Touches(writes[1..], key) by {
        forall i | 0 <= i < |writes[1..]| ensures writes[1..][i].key != key {
          assert writes[1..][i] == writes[i + 1];
        }
      }
      InterfereFrame(Overwrite(kv, writes[0]), writes[1..], key);
    }
  }

  /** A record with its store key, and the version it was last seen at. */
  class Codec<V> {
    const keyOf: V -> string
    var value: V
    var version: int

    constructor (keyOf: V -> string, value: V)
      ensures this.keyOf == keyOf && this.value == value && version == 0
    {
      this.keyOf := keyOf;
      this.value := value;
      version := 0;
    }

    function Key(): string
      reads this
    {
      keyOf(value)
    }

    method SetVersion(v: int)
      modifies this`version
      ensures version == v
    {
      version := v;
    }

    method Decode(v: V)
      modifies this`value
      ensures value == v
    {
      value := v;
    }
  }

  class EtcdStore<V> {
    var kv: KV<V>
    var turns: seq<Turn<V>>

    constructor (kv: KV<V>, turns: seq<Turn<V>>)
      ensures this.kv == kv && this.turns == turns
    {
      this.kv := kv;
      this.turns := turns;
    }

    /** Lets the others act, as they do before each of our calls. */
    method Await() returns (fails: bool)
      modifies this
      ensures Arrival(kv, fails, turns) == Arrive(old(kv), old(turns))
    {
      if turns == [] {
        fails := false;
        return;
      }
      var turn := turns[0];
      turns := turns[1..];
      fails := turn.fails;
      ghost var goal := Interfere(kv, turn.writes);
      var i := 0;
      while i < |turn.writes|
        invariant 0 <= i <= |turn.writes|
        invariant Interfere(kv, turn.writes[i..]) == goal
        invariant turns == old(turns)[1..]
      {
        assert turn.writes[i..][1..] == turn.writes[i + 1..];
        kv := Overwrite(kv, turn.writes[i]);
        i := i + 1;
      }
    }

    method Get(codec: Codec<V>) returns (err: Option<Error>)
      modifies this, codec
      ensures var a := Arrive(old(kv), old(turns));
        && kv == a.kv && turns == a.rest
        && match GetReply(a.kv, old(codec.Key()), a.fails)
           case Read(v, n) => err == None && codec.value == v && codec.version == n
           case Err(e) => err == Some(e) && codec.value == old(codec.value) && codec.version == old(codec.version)
           case _ => false
    {
      var fails := Await();
      if fails {
        return Some(ErrUnavailable);
      }
      if codec.Key() == "" {
        return Some(ErrEmptyKey);
      }
      if codec.Key() !in kv {
        return Some(ErrKVNotExists);
      }
      var entry := kv[codec.Key()];
      codec.SetVersion(entry.version);
      codec.Decode(entry.value);
      return None;
    }

    method Put(codec: Codec<V>) returns (err: Option<Error>)
      modifies this, codec`version
      ensures var a := Arrive(old(kv), old(turns));
        var (kv', reply) := PutReply(a.kv, old(codec.Key()), codec.value, a.fails);
        && kv == kv' && turns == a.rest
        && err == ErrorOf(reply)
        && codec.version ==
           if reply.Err? then old(codec.version)
           else if codec.Key() in a.kv then a.kv[codec.Key()].version + 1 else 0
    {
      var fails := Await();
      var key := codec.Key();
      if key == "" {
        return Some(ErrKeyIsBlank);
      }
      if fails {
        return Some(ErrUnavailable);
      }
      var existed := key in kv;
      kv := Written(kv, key, codec.value);
      if existed {
        codec.SetVersion(kv[key].version);
      } else {
        codec.SetVersion(0);
      }
      return None;
    }

    method Delete(codec: Codec<V>) returns (err: Option<Error>)
      modifies this
      ensures var a := Arrive(old(kv), old(turns));
        var (kv', reply) := DeleteReply(a.kv, codec.Key(), a.fails);
        && kv == kv' && turns == a.rest
        && err == ErrorOf(reply)
    {
      var fails := Await();
      var key := codec.Key();
      if key == "" {
        return Some(ErrKeyIsBlank);
      }
      if fails {
        return Some(ErrUnavailable);
      }
      if key !in kv {
        return Some(ErrKVNotExists);
      }
      kv := Dropped(kv, key);
      return None;
    }

    method GetAndDelete(codec: Codec<V>) returns (err: Option<Error>)
      modifies this, codec
      ensures var a := Arrive(old(kv), old(turns));
        var key := old(codec.Key());
        var (kv', reply) := DeleteReply(a.kv, key, a.fails);
        && kv == kv' && turns == a.rest
        && err == ErrorOf(reply)
        && (reply.Ok? ==> key in a.kv && codec.value == a.kv[key].value && codec.version == 0)
        && (reply.Err? ==> codec.value == old(codec.value) && codec.version == old(codec.version))
    {
      var fails := Await();
      var key := codec.Key();
      if key == "" {
        return Some(ErrKeyIsBlank);
      }
      if fails {
        return Some(ErrUnavailable);
      }
      if key !in kv {
        return Some(ErrKVNotExists);
      }
      var entry := kv[key];
      kv := Dropped(kv, key);
      codec.SetVersion(0);
      codec.Decode(entry.value);
      return None;
    }

    /** Compare-and-swap on the key's version; a lost race leaves the current record in the codec. */
    method UpdateElseGet(codec: Codec<V>) returns (ok: bool, err: Option<Error>)
      modifies this, codec
      ensures var a := Arrive(old(kv), old(turns));
        var key, version, value := old(codec.Key()), old(codec.version), old(codec.value);
        var (kv', reply) := SwapReply(a.kv, key, version, value, a.fails);
        && kv == kv' && turns == a.rest
        && match reply
           case Swapped => ok && err == None && codec.value == value && codec.version == version + 1
           case Lost(v, n) => !ok && err == None && codec.value == v && codec.version == n
           case Err(e) => err == Some(e) && codec.value == value && codec.version == version
             && (ok <==> !a.fails && key != "" && VersionOf(a.kv, key) == version)
           case _ => false
    {
      var fails := Await();
      var value := codec.value;
      var key := codec.Key();
      var prevVersion := codec.version;
      if fails {
        return false, Some(ErrUnavailable);
      }
      if key == "" {
        return false, Some(ErrEmptyKey);
      }
      if VersionOf(kv, key) == prevVersion {
        var existed := key in kv;
        kv := Written(kv, key, value);
        if !existed {
          return true, Some(ErrKVNotExists);
        }
        codec.SetVersion(kv[key].version);
        return true, None;
      }
      if key !in kv {
        return false, Some(ErrKVNotExists);
      }
      codec.SetVersion(kv[key].version);
      codec.Decode(kv[key].value);
      return false, None;
    }
  }
}
