/**
  An in-memory stand-in for a MongoDB database, narrowed to what the id
  factory and the JUnit rule use: named collections of counter records
  (`_id` -> `_lastId`), a lookup by `_id`, an insert, an atomic
  increment-and-fetch, dropping a collection, and the acknowledgement of the
  last write (what `getLastError().ok()` reports).

  Whether a write is acknowledged is the environment's choice and is made
  nondeterministically. An unacknowledged write may or may not have taken
  effect; the model allows both.
 */
module Store {
  import opened Wrappers

  /** One collection: the `_lastId` of each record, by `_id`. */
  type Records = map<string, nat>

  /** The whole database: each collection's records, by collection name. */
  type Collections = map<string, Records>

  /** The record with `_id` `key` in collection `name`, if there is one. */
  function Lookup(cs: Collections, name: string, key: string): Option<nat>
  {
    if name in cs && key in cs[name] then Some(cs[name][key]) else None
  }

  /**
    The database after the record `key` of collection `name` is set to
    `value`, the collection being created if it did not exist.
   */
  function WithRecord(cs: Collections, name: string, key: string, value: nat): (r: Collections)
    ensures Lookup(r, name, key) == Some(value)
    ensures forall c, k :: (c != name || k != key) ==> Lookup(r, c, k) == Lookup(cs, c, k)
    ensures r.Keys == cs.Keys + {name}
  {
    cs[name := (if name in cs then cs[name] else map[])[key := value]]
  }

  class Database {
    var collections: Collections
    /** Whether the last write was acknowledged (`getLastError().ok()`). */
    var lastOk: bool

    constructor (initial: Collections)
      ensures collections == initial && lastOk
    {
      collections := initial;
      lastOk := true;
    }

    /** `findOne` by `_id`: reads, changes nothing. */
    method FindOne(name: string, key: string) returns (r: Option<nat>)
      ensures r == Lookup(collections, name, key)
    {
      if name in collections && key in collections[name] {
        r := Some(collections[name][key]);
      } else {
        r := None;
      }
    }

    /**
      `insert` of a record. `_id` is unique in a MongoDB collection, so an
      insert of a key that is already there is refused. Otherwise the write is
      acknowledged or not; an acknowledged insert has taken effect, an
      unacknowledged one may have.
     */
    method Insert(name: string, key: string, value: nat)
      modifies this
      ensures Lookup(old(collections), name, key).Some? ==> !lastOk && collections == old(collections)
      ensures lastOk ==> collections == WithRecord(old(collections), name, key, value)
      ensures collections == old(collections) || collections == WithRecord(old(collections), name, key, value)
    {
      if name in collections && key in collections[name] {
        lastOk := false;
      } else {
        var applied: bool := *;
        lastOk := *;
        if lastOk || applied {
          collections := WithRecord(collections, name, key, value);
        }
      }
    }

    /**
      `findAndModify` with `$inc` by `delta`, returning the new document, no
      upsert. An absent record is left absent and nothing is returned. A
      present record is raised by `delta` in one indivisible step when the
      write is acknowledged; an unacknowledged increment may or may not have
      taken effect.
     */
    method IncrementAndFetch(name: string, key: string, delta: nat) returns (r: Option<nat>)
      modifies this
      ensures Lookup(old(collections), name, key).None? ==> r.None? && collections == old(collections)
      ensures Lookup(old(collections), name, key).Some? && lastOk ==>
        var v := Lookup(old(collections), name, key).value;
        r == Some(v + delta) && collections == WithRecord(old(collections), name, key, v + delta)
      ensures Lookup(old(collections), name, key).Some? && !lastOk ==>
        var v := Lookup(old(collections), name, key).value;
        collections == old(collections) || collections == WithRecord(old(collections), name, key, v + delta)
    {
      lastOk := *;
      if name in collections && key in collections[name] {
        var applied: bool := *;
        var v := collections[name][key];
        if lastOk || applied {
          collections := WithRecord(collections, name, key, v + delta);
          r := Some(v + delta);
        } else {
          r := None;
        }
      } else {
        r := None;
      }
    }

    /** `drop`: the collection and all its records are gone. */
    method Drop(name: string)
      modifies this
      ensures collections == old(collections) - {name}
      ensures lastOk == old(lastOk)
    {
      collections := collections - {name};
    }
  }
}
