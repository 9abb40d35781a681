/** The in-memory idempotency repository: a map from idempotency key to the
    record `{response, payloadHash}` saved for it. `get` reads the map; `save`
    writes it unconditionally, so the last write wins. */
module IdempotencyRepository {
  import opened Wrappers

  datatype Record<R> = Record(response: R, payloadHash: string)

  /** `store.get(key)`: the record under `key`, or absent. */
  function Lookup<R>(store: map<string, Record<R>>, key: string): (r: Option<Record<R>>)
    ensures r.Some? <==> key in store
    ensures r.Some? ==> r.value == store[key]
  {
    if key in store then Some(store[key]) else None
  }

  /** The store after `store.set(key, {response, payloadHash})`. */
  function Saved<R>(store: map<string, Record<R>>, key: string, response: R, payloadHash: string): map<string, Record<R>>
  {
    store[key := Record(response, payloadHash)]
  }

  /** One call `save(key, response, payloadHash)`. */
  datatype Save<R> = Save(key: string, response: R, payloadHash: string)

  /** The store after a series of saves, applied first to last. */
  function SaveAll<R>(store: map<string, Record<R>>, saves: seq<Save<R>>): map<string, Record<R>>
    decreases |saves|
  {
    if saves == [] then store
    else SaveAll(Saved(store, saves[0].key, saves[0].response, saves[0].payloadHash), saves[1..])
  }

  /** Independent reference: what `get(key)` should see after a series of saves,
      found by looking for the last save to `key` from the end backwards. */
  function LastWrite<R>(store: map<string, Record<R>>, saves: seq<Save<R>>, key: string): Option<Record<R>>
    decreases |saves|
  {
    if saves == [] then Lookup(store, key)
    else
      var last := saves[|saves| - 1];
      if last.key == key then Some(Record(last.response, last.payloadHash))
      else LastWrite(store, saves[..|saves| - 1], key)
  }

  /** After `save(k, r, h)`, `get(k)` returns `{response: r, payloadHash: h}`. */
  lemma GetAfterSave<R>(store: map<string, Record<R>>, key: string, response: R, payloadHash: string)
    ensures Lookup(Saved(store, key, response, payloadHash), key) == Some(Record(response, payloadHash))
  {
  }

  /** `save(k, ...)` leaves every other key's entry as it was. */
  lemma SaveKeepsOtherKeys<R>(store: map<string, Record<R>>, key: string, response: R, payloadHash: string, other: string)
    requires other != key
    ensures Lookup(Saved(store, key, response, payloadHash), other) == Lookup(store, other)
  {
  }

  /** Saving twice to one key keeps the second record; saving the same record twice
      is the same as saving it once. */
  lemma SaveOverwrites<R>(store: map<string, Record<R>>, key: string, r1: R, h1: string, r2: R, h2: string)
    ensures Saved(Saved(store, key, r1, h1), key, r2, h2) == Saved(store, key, r2, h2)
    ensures Saved(Saved(store, key, r1, h1), key, r1, h1) == Saved(store, key, r1, h1)
  {
  }

  /** Last write wins, over any series of saves. */
  lemma {:induction false} LookupAfterSaves<R>(store: map<string, Record<R>>, saves: seq<Save<R>>, key: string)
    ensures Lookup(SaveAll(store, saves), key) == LastWrite(store, saves, key)
    decreases |saves|
  {
    if saves != [] {
      var s0 := saves[0];
      var store' := Saved(store, s0.key, s0.response, s0.payloadHash);
      LookupAfterSaves(store', saves[1..], key);
      LastWriteOfFirst(store, saves, key);
    }
  }

  /** Peeling the first save off the front, seen from the back. */
  lemma {:induction false} LastWriteOfFirst<R>(store: map<string, Record<R>>, saves: seq<Save<R>>, key: string)
    requires saves != []
    ensures LastWrite(store, saves, key)
         == LastWrite(Saved(store, saves[0].key, saves[0].response, saves[0].payloadHash), saves[1..], key)
    decreases |saves|
  {
    var s0 := saves[0];
    var store' := Saved(store, s0.key, s0.response, s0.payloadHash);
    if |saves| == 1 {
      assert saves[1..] == [];
      assert saves[..0] == [];
    } else {
      var init := saves[..|saves| - 1];
      assert init[0] == s0;
      assert init[1..] == saves[1..][..|saves[1..]| - 1];
      assert saves[1..][|saves[1..]| - 1] == saves[|saves| - 1];
      LastWriteOfFirst(store, init, key);
    }
  }

  /** A key that no save touched is absent from a fresh repository. */
  lemma {:induction false} NeverSavedIsAbsent<R>(saves: seq<Save<R>>, key: string)
    requires forall i :: 0 <= i < |saves| ==> saves[i].key != key
    ensures Lookup(SaveAll(map[], saves), key) == None
  {
    LookupAfterSaves(map[], saves, key);
    LastWriteMissing(map[], saves, key);
  }

  lemma {:induction false} LastWriteMissing<R>(store: map<string, Record<R>>, saves: seq<Save<R>>, key: string)
    requires forall i :: 0 <= i < |saves| ==> saves[i].key != key
    ensures LastWrite(store, saves, key) == Lookup(store, key)
    decreases |saves|
  {
    if saves != [] {
      var init := saves[..|saves| - 1];
      assert forall i :: 0 <= i < |init| ==> init[i] == saves[i];
      LastWriteMissing(store, init, key);
    }
  }

  /** `createInMemoryIdempotencyRepository()`: the object closing over `store`. */
  class InMemoryIdempotencyRepository<R> {
    var store: map<string, Record<R>>

    constructor ()
      ensures store == map[]
    {
      store := map[];
    }

    /** `get(key)`; it has no `modifies` clause, so the store is left as it was. */
    method Get(key: string) returns (r: Option<Record<R>>)
      ensures r == Lookup(store, key)
    {
      if key in store {
        r := Some(store[key]);
      } else {
        r := None;
      }
    }

    /** `save(key, response, payloadHash)`: an unconditional overwrite. */
    method Save(key: string, response: R, payloadHash: string)
      modifies this
      ensures store == Saved(old(store), key, response, payloadHash)
      ensures Lookup(store, key) == Some(Record(response, payloadHash))
      ensures forall k :: k != key ==> Lookup(store, k) == Lookup(old(store), k)
    {
      store := store[key := Record(response, payloadHash)];
    }
  }
}
