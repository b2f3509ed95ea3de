/**
  The MongoDatabase JUnit rule: it names the test database by a base URI
  built from host, port and database name, builds collection and object URIs
  below it, and after each test drops every collection but "system.indexes".
 */
module JunitDatabase {
  import opened Wrappers
  import opened Decimal
  import opened Store

  const DefaultHost := "localhost"
  const DefaultPort := 27017
  const DefaultDatabase := "junit"
  const Scheme := "mongodb://"
  const SystemIndexes := "system.indexes"

  const NoLocatorMessage := "Failed to get the IDatabaseLocator service"

  function NoDatabaseMessage(uri: string): string {
    "No database configured for: " + uri
  }

  /** The port as it appears in the base URI: left out when it is the default. */
  function PortPart(port: int): (s: string)
    ensures s == "" <==> port == DefaultPort
    ensures s != "" ==> s[0] == ':' && ParseInt(s[1..]) == Some(port)
    ensures '/' !in s
  {
    ParseIntRoundTrip(port);
    if port == DefaultPort then "" else ":" + IntToDecimal(port)
  }

  /** The base URI of the test database. */
  function BaseUri(hostname: string, port: int, database: string): (u: string)
    ensures |u| >= |Scheme| && u[..|Scheme|] == Scheme
  {
    Scheme + hostname + PortPart(port) + "/" + database
  }

  /** A host name that cannot be confused with the separators around it. */
  predicate PlainHost(hostname: string) {
    ':' !in hostname && '/' !in hostname
  }

  /** The parts a base URI names. */
  datatype Location = Location(hostname: string, port: int, database: string)

  /** The first position of `c` in `s`. */
  function IndexOf(s: string, c: char): (r: Option<nat>)
    ensures r.Some? ==> r.value < |s| && s[r.value] == c && c !in s[..r.value]
    ensures r.None? ==> c !in s
  {
    if s == [] then None
    else if s[0] == c then Some(0)
    else
      match IndexOf(s[1..], c)
      case Some(k) =>
        assert s[..k + 1] == [s[0]] + s[1..][..k];
        Some(k + 1)
      case None => None
  }

  /**
    Reads a base URI back: the host runs to the first ':' or '/', an absent
    port is the default one, and the database is everything after the first
    '/' that follows the scheme.
   */
  function ParseBaseUri(s: string): (r: Option<Location>)
  {
    if |s| < |Scheme| || s[..|Scheme|] != Scheme then None
    else
      var rest := s[|Scheme|..];
      match IndexOf(rest, '/')
      case None => None
      case Some(slash) =>
        var authority := rest[..slash];
        var database := rest[slash + 1..];
        match IndexOf(authority, ':')
        case None => Some(Location(authority, DefaultPort, database))
        case Some(colon) =>
          match ParseInt(authority[colon + 1..])
          case None => None
          case Some(port) => Some(Location(authority[..colon], port, database))
  }

  /** The first `c` in `a + [c] + b` is the one after `a` when `a` has none. */
  lemma IndexOfAfter(a: string, c: char, b: string)
    requires c !in a
    ensures IndexOf(a + [c] + b, c) == Some(|a|)
  {
    var s := a + [c] + b;
    assert s[|a|] == c;
  }

  /** Host, port and database can be read back from the base URI. */
  lemma BaseUriRoundTrip(hostname: string, port: int, database: string)
    requires PlainHost(hostname)
    ensures ParseBaseUri(BaseUri(hostname, port, database)) == Some(Location(hostname, port, database))
  {
    var s := BaseUri(hostname, port, database);
    var portPart := PortPart(port);
    var authority := hostname + portPart;
    assert '/' !in authority by {
      forall i | 0 <= i < |authority| ensures authority[i] != '/' {
        if i >= |hostname| { assert authority[i] == portPart[i - |hostname|]; }
      }
    }
    var rest := s[|Scheme|..];
    assert rest == authority + ['/'] + database;
    IndexOfAfter(authority, '/', database);
    assert rest[..|authority|] == authority;
    assert rest[|authority| + 1..] == database;
    if portPart == "" {
      assert authority == hostname;
    } else {
      IndexOfAfter(hostname, ':', portPart[1..]);
      assert authority == hostname + [':'] + portPart[1..];
      assert authority[|hostname| + 1..] == portPart[1..];
      assert authority[..|hostname|] == hostname;
    }
  }

  /** Different hosts, ports or databases give different base URIs. */
  lemma BaseUriInjective(h1: string, p1: int, d1: string, h2: string, p2: int, d2: string)
    requires PlainHost(h1) && PlainHost(h2)
    requires BaseUri(h1, p1, d1) == BaseUri(h2, p2, d2)
    ensures h1 == h2 && p1 == p2 && d1 == d2
  {
    BaseUriRoundTrip(h1, p1, d1);
    BaseUriRoundTrip(h2, p2, d2);
  }

  /** `URI.appendSegments`, taken as adding "/" and each segment in turn. */
  function AppendSegments(base: string, segments: seq<string>): (u: string)
    ensures |u| >= |base| && u[..|base|] == base
    decreases |segments|
  {
    if segments == [] then base
    else
      var u := AppendSegments(base + "/" + segments[0], segments[1..]);
      assert u[..|base|] == (base + "/" + segments[0])[..|base|];
      u
  }

  /** The collections the cleanup drops: all but "system.indexes". */
  function Dropped(names: set<string>): (d: set<string>)
    ensures d <= names && SystemIndexes !in d
  {
    set n | n in names && n != SystemIndexes
  }

  /** After the cleanup at most "system.indexes" is left, with its records as they were. */
  lemma CleanupKeepsSystemIndexes(cs: Collections)
    ensures (cs - Dropped(cs.Keys)).Keys == cs.Keys * {SystemIndexes}
    ensures SystemIndexes in cs ==> (cs - Dropped(cs.Keys))[SystemIndexes] == cs[SystemIndexes]
  {
  }

  /** The OSGi service that hands out the database for a URI. */
  class DatabaseLocator {
    var databases: map<string, Database>

    constructor (databases: map<string, Database>)
      ensures this.databases == databases
    {
      this.databases := databases;
    }

    function GetDatabase(uri: string): (d: Database?)
      reads this
      ensures d != null <==> uri in databases
      ensures d != null ==> d == databases[uri]
    {
      if uri in databases then databases[uri] else null
    }
  }

  /** What `before` ends in: ready, or a failed assertion with its message. */
  datatype Setup = Ready | AssertionFailure(message: string)

  class MongoDatabaseRule {
    const baseUri: string
    var databaseLocator: DatabaseLocator?
    var db: Database?

    /** The "junit" database on localhost at the default port. */
    constructor ()
      ensures baseUri == BaseUri(DefaultHost, DefaultPort, DefaultDatabase)
      ensures baseUri == "mongodb://localhost/junit"
      ensures databaseLocator == null && db == null
    {
      baseUri := BaseUri(DefaultHost, DefaultPort, DefaultDatabase);
      databaseLocator, db := null, null;
    }

    constructor WithLocator(dbLocator: DatabaseLocator?)
      ensures baseUri == BaseUri(DefaultHost, DefaultPort, DefaultDatabase)
      ensures databaseLocator == dbLocator && db == null
    {
      baseUri := BaseUri(DefaultHost, DefaultPort, DefaultDatabase);
      databaseLocator, db := dbLocator, null;
    }

    constructor OnDatabase(database: string)
      ensures baseUri == BaseUri(DefaultHost, DefaultPort, database)
      ensures databaseLocator == null && db == null
    {
      baseUri := BaseUri(DefaultHost, DefaultPort, database);
      databaseLocator, db := null, null;
    }

    constructor OnDatabaseWithLocator(database: string, dbLocator: DatabaseLocator?)
      ensures baseUri == BaseUri(DefaultHost, DefaultPort, database)
      ensures databaseLocator == dbLocator && db == null
    {
      baseUri := BaseUri(DefaultHost, DefaultPort, database);
      databaseLocator, db := dbLocator, null;
    }

    constructor OnHost(hostname: string, database: string)
      ensures baseUri == BaseUri(hostname, DefaultPort, database)
      ensures databaseLocator == null && db == null
    {
      baseUri := BaseUri(hostname, DefaultPort, database);
      databaseLocator, db := null, null;
    }

    constructor OnHostWithLocator(hostname: string, database: string, dbLocator: DatabaseLocator?)
      ensures baseUri == BaseUri(hostname, DefaultPort, database)
      ensures databaseLocator == dbLocator && db == null
    {
      baseUri := BaseUri(hostname, DefaultPort, database);
      databaseLocator, db := dbLocator, null;
    }

    constructor OnHostPort(hostname: string, port: int, database: string)
      ensures baseUri == BaseUri(hostname, port, database)
      ensures databaseLocator == null && db == null
    {
      baseUri := BaseUri(hostname, port, database);
      databaseLocator, db := null, null;
    }

    constructor OnHostPortWithLocator(hostname: string, port: int, database: string, dbLocator: DatabaseLocator?)
      ensures baseUri == BaseUri(hostname, port, database)
      ensures databaseLocator == dbLocator && db == null
    {
      baseUri := BaseUri(hostname, port, database);
      databaseLocator, db := dbLocator, null;
    }

    /** The URI of a collection: the base URI, the collection, and a trailing separator. */
    function CreateCollectionUri(collection: string): (u: string)
      ensures u == baseUri + "/" + collection + "/"
    {
      var segments := [collection, ""];
      assert segments[1..] == [""] && segments[1..][1..] == [];
      var collectionUri := baseUri + "/" + collection;
      assert AppendSegments(collectionUri, [""]) == AppendSegments(collectionUri + "/" + "", []);
      assert collectionUri + "/" + "" == collectionUri + "/";
      AppendSegments(baseUri, segments)
    }

    /** The URI of one object: the base URI, the collection and the id. */
    function CreateObjectUri(collection: string, id: string): (u: string)
      ensures u == baseUri + "/" + collection + "/" + id
    {
      var segments := [collection, id];
      assert segments[1..] == [id] && segments[1..][1..] == [];
      var collectionUri := baseUri + "/" + collection;
      assert AppendSegments(collectionUri, [id]) == AppendSegments(collectionUri + "/" + id, []);
      AppendSegments(baseUri, segments)
    }

    /** `getMongoDB` */
    function GetMongoDB(): Database?
      reads this
    {
      db
    }

    /** `getMongoDBService` */
    function GetMongoDBService(): DatabaseLocator?
      reads this
    {
      databaseLocator
    }

    /**
      `before`: without a locator of its own the rule takes the one the
      service tracker found (`tracked`), then asks it for the database of the
      base URI.
     */
    method Before(tracked: DatabaseLocator?) returns (r: Setup)
      modifies this
      ensures databaseLocator == if old(databaseLocator) == null then tracked else old(databaseLocator)
      ensures databaseLocator == null ==> r == AssertionFailure(NoLocatorMessage) && db == old(db)
      ensures databaseLocator != null ==> db == databaseLocator.GetDatabase(baseUri)
      ensures databaseLocator != null && db == null ==> r == AssertionFailure(NoDatabaseMessage(baseUri))
      ensures r == Ready <==> databaseLocator != null && db != null
    {
      if databaseLocator == null {
        databaseLocator := tracked;
      }
      if databaseLocator == null {
        return AssertionFailure(NoLocatorMessage);
      }
      db := databaseLocator.GetDatabase(baseUri);
      if db == null {
        return AssertionFailure(NoDatabaseMessage(baseUri));
      }
      r := Ready;
    }

    /**
      `after`: with a locator and a database, drop every collection except
      "system.indexes", in whatever order the database lists them.
     */
    method After()
      modifies db
      ensures databaseLocator != null && db != null ==>
        db.collections == old(db.collections) - Dropped(old(db.collections).Keys) &&
        db.lastOk == old(db.lastOk)
      ensures (databaseLocator == null && db != null) ==> unchanged(db)
    {
      if databaseLocator != null && db != null {
        var names := db.collections.Keys;
        ghost var all := names;
        while names != {}
          invariant names <= all
          invariant db.collections == old(db.collections) - Dropped(all - names)
          invariant db.lastOk == old(db.lastOk)
          decreases names
        {
          var n :| n in names;
          if n != SystemIndexes {
            db.Drop(n);
          }
          names := names - {n};
        }
      }
    }
  }

  /** An object URI extends the URI of its collection by the id. */
  lemma ObjectUriExtendsCollectionUri(rule: MongoDatabaseRule, collection: string, id: string)
    ensures rule.CreateObjectUri(collection, id) == rule.CreateCollectionUri(collection) + id
  {
  }
}
