/**
  The sequence-id issuer of MongoIdFactoryComponent: a component that, once
  activated on a collection, hands out "1", "2", "3", ... by atomically
  incrementing the `_lastId` of the single counter record `{_id: "0"}` of
  that collection.
 */
module IdFactory {
  import opened Wrappers
  import opened Decimal
  import opened Store

  /** The `_id` of the counter record. */
  const SentinelKey := "0"

  /** The `$inc` applied to `_lastId` by each call. */
  const Delta := 1

  const MissingCollectionMessage := "The collection was not specified as part of the component configuration"

  function InitFailureMessage(name: string): string {
    "Could not initialize the id counter for collection: '" + name + "'"
  }

  function UpdateFailureMessage(name: string): string {
    "Failed to update the id counter for collection: '" + name + "'"
  }

  /**
    The configuration check: an error message exactly when no collection name
    was configured (null, here None) or the name is empty.
   */
  function ValidateCollectionName(value: Option<string>): (r: Option<string>)
    ensures r.Some? <==> value == None || value == Some("")
    ensures r.Some? ==> r.value == MissingCollectionMessage
  {
    if value.None? || value.value == [] then Some(MissingCollectionMessage) else None
  }

  /** The store after activation: the counter record exists, created at 0 if it was absent. */
  function Initialized(cs: Collections, name: string): (r: Collections)
    ensures Lookup(cs, name, SentinelKey).Some? ==> r == cs
    ensures Lookup(cs, name, SentinelKey).None? ==> Lookup(r, name, SentinelKey) == Some(0)
    ensures forall c, k :: (c != name || k != SentinelKey) ==> Lookup(r, c, k) == Lookup(cs, c, k)
  {
    if Lookup(cs, name, SentinelKey).Some? then cs else WithRecord(cs, name, SentinelKey, 0)
  }

  /** Activating again on an initialised store leaves the store as it is. */
  lemma InitializeOnce(cs: Collections, name: string)
    ensures Initialized(Initialized(cs, name), name) == Initialized(cs, name)
    ensures Lookup(Initialized(cs, name), name, SentinelKey).Some?
  {
  }

  /** What activation ends in: ready, or a configuration error with its message. */
  datatype Activation = Activated | ConfigurationError(message: string)

  /**
    What getNextId ends in: no value before activation (Java's null), an id,
    an IOException, or a NullPointerException when the store has no counter
    record to increment (findAndModify returned null).
   */
  datatype NextId = NoValue | Id(id: string) | IOError(message: string) | NullPointer

  class IdFactoryComponent {
    /** The configured name, recorded before it is validated. */
    var collectionName: Option<string>
    /** The canonical URI of the backing collection. */
    var uri: Option<string>
    /** The database behind the collection handle. */
    var db: Database?
    /** The collection handle, by name; None until activation binds it. */
    var collection: Option<string>

    ghost predicate Valid()
      reads this
    {
      collection.Some? <==> db != null
    }

    constructor ()
      ensures Valid()
      ensures collectionName == None && uri == None && collection == None && db == null
    {
      collectionName, uri, collection, db := None, None, None, null;
    }

    /** `getCollectionURI`: the URI fixed at activation. */
    function GetCollectionUri(): Option<string>
      reads this
    {
      uri
    }

    /**
      `activate`: validate the configured name, fix the URI, bind the
      collection and make sure its counter record exists. The message of a
      failed validation is assumed to be raised by the framework before
      anything else happens.
     */
    method Activate(name: Option<string>, providerUri: string, database: Database) returns (r: Activation)
      requires Valid()
      modifies this, database
      ensures Valid() && collectionName == name
      ensures ValidateCollectionName(name).Some? ==>
        r == ConfigurationError(MissingCollectionMessage) &&
        uri == old(uri) && collection == old(collection) && db == old(db) &&
        unchanged(database)
      ensures ValidateCollectionName(name).None? ==>
        uri == Some(providerUri + "/" + name.value) &&
        collection == name && db == database
      ensures ValidateCollectionName(name).None? && Lookup(old(database.collections), name.value, SentinelKey).Some? ==>
        r == Activated && database.collections == old(database.collections)
      ensures ValidateCollectionName(name).None? && Lookup(old(database.collections), name.value, SentinelKey).None? ==>
        (r == Activated <==> database.lastOk) &&
        (r == Activated ==> database.collections == Initialized(old(database.collections), name.value)) &&
        (r != Activated ==> r == ConfigurationError(InitFailureMessage(name.value)))
      ensures r != Activated ==>
        database.collections == old(database.collections) ||
        database.collections == Initialized(old(database.collections), name.value)
    {
      collectionName := name;
      var invalid := ValidateCollectionName(name);
      if invalid.Some? {
        return ConfigurationError(invalid.value);
      }
      var n := name.value;
      uri := Some(providerUri + "/" + n);
      db := database;
      collection := Some(n);

      var found := database.FindOne(n, SentinelKey);
      if found.None? {
        database.Insert(n, SentinelKey, 0);
        if !database.lastOk {
          return ConfigurationError(InitFailureMessage(n));
        }
      }
      r := Activated;
    }

    /**
      `getNextId`: nothing before activation; otherwise one atomic
      increment-and-fetch of the counter, whose new value is the id.
     */
    method GetNextId() returns (r: NextId)
      requires Valid()
      modifies db
      ensures Valid()
      ensures collectionName == old(collectionName) && uri == old(uri)
      ensures collection == old(collection) && db == old(db)
      ensures collection.None? <==> r == NoValue
      ensures collection.Some? && Lookup(old(db.collections), collection.value, SentinelKey).Some? ==>
        var before := old(db.collections);
        var v := Lookup(before, collection.value, SentinelKey).value;
        (r == Id(NatToDecimal(v + 1)) && db.collections == WithRecord(before, collection.value, SentinelKey, v + 1)) ||
        (r == IOError(UpdateFailureMessage(collection.value)) &&
          (db.collections == before || db.collections == WithRecord(before, collection.value, SentinelKey, v + 1)))
      ensures collection.Some? && Lookup(old(db.collections), collection.value, SentinelKey).None? ==>
        (r == NullPointer || r == IOError(UpdateFailureMessage(collection.value))) &&
        db.collections == old(db.collections)
      ensures collection.Some? ==> (r.IOError? <==> !db.lastOk)
    {
      if collection.None? {
        return NoValue;
      }
      var n := collection.value;
      var result := db.IncrementAndFetch(n, SentinelKey, Delta);
      if !db.lastOk {
        return IOError(UpdateFailureMessage(n));
      }
      if result.None? {
        return NullPointer;
      }
      r := Id(NatToDecimal(result.value));
    }
  }

  /**
    The ids and the store after `n` successive successful getNextId calls on
    collection `name`: each call raises the counter by one and issues the
    decimal text of the new value.
   */
  function IssueSuccessive(cs: Collections, name: string, n: nat): (res: (seq<string>, Collections))
    requires Lookup(cs, name, SentinelKey).Some?
    ensures |res.0| == n
    ensures Lookup(res.1, name, SentinelKey) == Some(Lookup(cs, name, SentinelKey).value + n)
    ensures forall c, k :: (c != name || k != SentinelKey) ==> Lookup(res.1, c, k) == Lookup(cs, c, k)
    decreases n
  {
    if n == 0 then ([], cs)
    else
      var v := Lookup(cs, name, SentinelKey).value;
      var rest := IssueSuccessive(WithRecord(cs, name, SentinelKey, v + Delta), name, n - 1);
      ([NatToDecimal(v + Delta)] + rest.0, rest.1)
  }

  /** The i-th of the successive ids is the counter's starting value plus i + 1. */
  lemma {:induction false} IssuedValues(cs: Collections, name: string, n: nat, i: nat)
    requires Lookup(cs, name, SentinelKey).Some?
    requires i < n
    ensures IssueSuccessive(cs, name, n).0[i] == NatToDecimal(Lookup(cs, name, SentinelKey).value + i + 1)
    decreases n
  {
    if i > 0 {
      var v := Lookup(cs, name, SentinelKey).value;
      IssuedValues(WithRecord(cs, name, SentinelKey, v + Delta), name, n - 1, i - 1);
    }
  }

  /** From a fresh counter, N successful calls issue exactly "1", ..., "N" and leave N stored. */
  lemma IssuedFromZero(cs: Collections, name: string, n: nat)
    requires Lookup(cs, name, SentinelKey) == Some(0)
    ensures forall i :: 0 <= i < n ==> IssueSuccessive(cs, name, n).0[i] == NatToDecimal(i + 1)
    ensures Lookup(IssueSuccessive(cs, name, n).1, name, SentinelKey) == Some(n)
  {
    forall i | 0 <= i < n
      ensures IssueSuccessive(cs, name, n).0[i] == NatToDecimal(i + 1)
    {
      IssuedValues(cs, name, n, i);
    }
  }

  /**
    Successive ids never repeat: a later id reads as a strictly greater number
    than an earlier one.
   */
  lemma IssuedIncreasing(cs: Collections, name: string, n: nat, i: nat, j: nat)
    requires Lookup(cs, name, SentinelKey).Some?
    requires i < j < n
    ensures IssueSuccessive(cs, name, n).0[i] != IssueSuccessive(cs, name, n).0[j]
    ensures ParseNat(IssueSuccessive(cs, name, n).0[i]).Some? && ParseNat(IssueSuccessive(cs, name, n).0[j]).Some?
    ensures ParseNat(IssueSuccessive(cs, name, n).0[i]).value < ParseNat(IssueSuccessive(cs, name, n).0[j]).value
  {
    var v := Lookup(cs, name, SentinelKey).value;
    IssuedValues(cs, name, n, i);
    IssuedValues(cs, name, n, j);
    ParseNatRoundTrip(v + i + 1);
    ParseNatRoundTrip(v + j + 1);
  }

  /** Every outcome in `results` is an issued id. */
  predicate AllIssued(results: seq<NextId>) {
    forall i :: 0 <= i < |results| ==> results[i].Id?
  }

  /**
    `n` successive getNextId calls on an activated component whose counter
    record exists. When every call succeeds, the ids are those of
    IssueSuccessive and the store is left as IssueSuccessive leaves it; from a
    counter at 0 they are "1", ..., "n".
   */
  method IssueIds(factory: IdFactoryComponent, n: nat) returns (results: seq<NextId>)
    requires factory.Valid() && factory.collection.Some?
    requires Lookup(factory.db.collections, factory.collection.value, SentinelKey).Some?
    modifies factory.db
    ensures factory.Valid() && factory.collection == old(factory.collection) && factory.db == old(factory.db)
    ensures factory.uri == old(factory.uri)
    ensures |results| == n
    ensures AllIssued(results) ==>
      var expected := IssueSuccessive(old(factory.db.collections), factory.collection.value, n);
      (forall i :: 0 <= i < n ==> results[i].id == expected.0[i]) &&
      factory.db.collections == expected.1
    ensures AllIssued(results) ==> forall i, j :: 0 <= i < j < n ==> results[i].id != results[j].id
    ensures AllIssued(results) && Lookup(old(factory.db.collections), factory.collection.value, SentinelKey) == Some(0) ==>
      (forall i :: 0 <= i < n ==> results[i].id == NatToDecimal(i + 1)) &&
      Lookup(factory.db.collections, factory.collection.value, SentinelKey) == Some(n)
  {
    var name := factory.collection.value;
    ghost var start := factory.db.collections;
    ghost var v0 := Lookup(start, name, SentinelKey).value;
    results := [];
    while |results| < n
      invariant |results| <= n
      invariant factory.Valid() && factory.collection == Some(name) && factory.db == old(factory.db)
      invariant factory.uri == old(factory.uri)
      invariant RunSoFar(start, name, results, factory.db.collections)
    {
      ghost var before := factory.db.collections;
      var r := factory.GetNextId();
      RunExtends(start, name, results, r, before, factory.db.collections);
      results := results + [r];
    }
    if AllIssued(results) {
      forall i | 0 <= i < n ensures results[i].id == IssueSuccessive(start, name, n).0[i] {
        IssuedValues(start, name, n, i);
      }
      forall i, j | 0 <= i < j < n ensures results[i].id != results[j].id {
        IssuedIncreasing(start, name, n, i, j);
      }
      if v0 == 0 {
        IssuedFromZero(start, name, n);
      }
    }
  }

  /** What a run of successful calls has issued so far, and where it has left the store. */
  ghost predicate RunSoFar(start: Collections, name: string, results: seq<NextId>, now: Collections)
    requires Lookup(start, name, SentinelKey).Some?
  {
    var v0 := Lookup(start, name, SentinelKey).value;
    AllIssued(results) ==>
      (forall i :: 0 <= i < |results| ==> results[i] == Id(NatToDecimal(v0 + i + 1))) &&
      now == IssueSuccessive(start, name, |results|).1
  }

  /**
    One more getNextId call, with the outcome its contract allows, keeps a run
    of successes in step with IssueSuccessive.
   */
  lemma RunExtends(start: Collections, name: string, results: seq<NextId>, r: NextId, before: Collections, after: Collections)
    requires Lookup(start, name, SentinelKey).Some?
    requires RunSoFar(start, name, results, before)
    requires Lookup(before, name, SentinelKey).Some? ==>
      var v := Lookup(before, name, SentinelKey).value;
      (r == Id(NatToDecimal(v + 1)) && after == WithRecord(before, name, SentinelKey, v + 1)) || r.IOError?
    requires Lookup(before, name, SentinelKey).None? ==> r.NullPointer? || r.IOError?
    ensures RunSoFar(start, name, results + [r], after)
  {
    var k := |results|;
    var v0 := Lookup(start, name, SentinelKey).value;
    if AllIssued(results + [r]) {
      assert (results + [r])[k] == r;
      assert AllIssued(results) by {
        forall i | 0 <= i < k ensures results[i].Id? {
          assert (results + [r])[i] == results[i];
        }
      }
      assert Lookup(before, name, SentinelKey) == Some(v0 + k);
      IssueSuccessiveStep(start, name, k);
    }
  }

  /** One more successful call extends a run by one increment of the counter. */
  lemma {:induction false} IssueSuccessiveStep(cs: Collections, name: string, k: nat)
    requires Lookup(cs, name, SentinelKey).Some?
    ensures
      var v := Lookup(cs, name, SentinelKey).value;
      IssueSuccessive(cs, name, k + 1).1 == WithRecord(IssueSuccessive(cs, name, k).1, name, SentinelKey, v + k + 1)
    decreases k
  {
    if k > 0 {
      var v := Lookup(cs, name, SentinelKey).value;
      IssueSuccessiveStep(WithRecord(cs, name, SentinelKey, v + Delta), name, k - 1);
    }
  }

  /**
    The integration test: an empty "junit_id" collection, activation, one
    call. When both writes are acknowledged the id is "1" and the store holds 1.
   */
  method FirstIdScenario(providerUri: string) returns (activation: Activation, first: NextId, stored: Option<nat>)
    ensures activation == Activated ==> first.Id? || first.IOError?
    ensures activation == Activated && first.Id? ==> first.id == "1" && stored == Some(1)
    ensures first.IOError? ==> first.message == UpdateFailureMessage("junit_id")
  {
    var database := new Database(map[]);
    var factory := new IdFactoryComponent();
    activation := factory.Activate(Some("junit_id"), providerUri, database);
    first := factory.GetNextId();
    stored := database.FindOne("junit_id", SentinelKey);
  }
}
