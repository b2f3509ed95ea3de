# eMongo sequence-id issuer, modelled in Dafny

This project models two pieces of eMongo.

The first is `MongoIdFactoryComponent`, the component that issues sequence ids. When it is activated on a collection, it makes sure that the collection holds one counter record `{_id: "0", _lastId: n}`, creating it with `_lastId = 0` if it is absent. It also fixes the collection's URI as the provider URI plus `"/"` plus the collection name. Each `getNextId` call then does one atomic increment-and-fetch of `_lastId` and returns the new value as decimal text. The call returns null before activation and throws `IOException` when the store does not acknowledge the update.

The second is the `MongoDatabase` JUnit rule. It builds the base URI `mongodb://host[:port]/database`, leaving the port out when it is 27017. It builds collection and object URIs below that base. After each test it drops every collection except `system.indexes`.

MongoDB is replaced by an in-memory `Store.Database`: a map from each collection name to its records, each record mapping `_id` to `_lastId`. A write sets the `lastOk` flag, which plays the part of `getLastError().ok()`. Whether a write is acknowledged is chosen nondeterministically. An unacknowledged write may or may not have taken effect, so every property proved about the component holds whatever the store did.

Files:
- `wrappers.dfy`: `Option`, standing for a Java reference that may be null.
- `decimal.dfy`: decimal text of numbers, as `Long.toString` and `Integer.toString` write it, with a parser that inverts it.
- `store.dfy`: the database stand-in.
- `id_factory.dfy`: the component, the configuration check, and lemmas about runs of successive ids.
- `junit_database.dfy`: the JUnit rule, its URI functions, a base-URI parser that inverts the builder, and the cleanup.

Points of the code that the model keeps as they are:
- Activation does a `findOne` followed by an `insert`, not an atomic insert-if-absent. The model does the same.
- `activate` binds `collection` before it inserts the counter record. So after a failed insert the handle stays bound, and a later `getNextId` uses it. The model does the same.
- `activate` stores the configured name in `collectionName` before validating it. The model does the same.

## Model

| member | source | states |
|---|---|---|
| `IdFactory.ValidateCollectionName` | bundles/org.eclipselabs.emongo.components/src/org/eclipselabs/emongo/components/MongoIdFactoryComponent.java:43-49 | An error message is returned exactly when the name is null or empty, and it is the fixed "not specified" message. |
| `IdFactory.IdFactoryComponent.Activate` | bundles/org.eclipselabs.emongo.components/src/org/eclipselabs/emongo/components/MongoIdFactoryComponent.java:51-75 | An invalid name gives a configuration error, leaves the store untouched and computes no URI. A valid name fixes the URI as provider URI + "/" + name and binds the collection. An existing counter record is left as it is. An absent one is created at 0, and activation succeeds exactly when that insert is acknowledged; otherwise the error names the collection. |
| `IdFactory.Initialized` | bundles/org.eclipselabs.emongo.components/src/org/eclipselabs/emongo/components/MongoIdFactoryComponent.java:63-70 | After activation the counter record exists. It is 0 if it was created, it is untouched if it was already there, and no other record changes. |
| `IdFactory.InitializeOnce` | bundles/org.eclipselabs.emongo.components/src/org/eclipselabs/emongo/components/MongoIdFactoryComponent.java:63-70 | Initialising an already initialised store changes nothing, so a second activation never resets the counter. |
| `IdFactory.IdFactoryComponent.GetNextId` | bundles/org.eclipselabs.emongo.components/src/org/eclipselabs/emongo/components/MongoIdFactoryComponent.java:83-95 | Before activation it returns no value and touches nothing. Otherwise it either returns the decimal text of the stored counter plus one, having raised that counter by exactly one and changed nothing else, or it raises an IOException naming the collection exactly when the store did not acknowledge the update. In that case the store holds whatever it really holds: unchanged, or incremented. A missing counter record ends in a NullPointerException, not an id. The URI and the bound collection never change. |
| `IdFactory.IssueSuccessive` | bundles/org.eclipselabs.emongo.components/src/org/eclipselabs/emongo/components/MongoIdFactoryComponent.java:89-94 | N successive successful calls issue N ids and leave the counter at its start value plus N. No other record changes. |
| `IdFactory.IssuedValues` | bundles/org.eclipselabs.emongo.components/src/org/eclipselabs/emongo/components/MongoIdFactoryComponent.java:89-94 | The i-th of successive ids is the decimal text of the start value plus i + 1: no gaps and no repeats. |
| `IdFactory.IssuedFromZero` | tests/org.eclipselabs.emongo.junit.integration/src/org/eclipselabs/mongo/junit/integration/tests/TestMongoIdFactory.java:53-56 | From a counter at 0, N successive calls return "1", ..., "N" and leave N stored. |
| `IdFactory.IssuedIncreasing` | bundles/org.eclipselabs.emongo.components/src/org/eclipselabs/emongo/components/MongoIdFactoryComponent.java:89-94 | Of two successive ids, the later one is a different string and reads as a strictly greater number. |
| `IdFactory.IssueIds` | bundles/org.eclipselabs.emongo.components/src/org/eclipselabs/emongo/components/MongoIdFactoryComponent.java:83-95 | n successive `GetNextId` calls on an activated component: when all succeed, their ids and the final store are exactly those of `IssueSuccessive`, the ids are pairwise distinct, and from a counter at 0 they are "1", ..., "n" with n left stored. The URI and the bound collection do not change. |
| `IdFactory.FirstIdScenario` | tests/org.eclipselabs.emongo.junit.integration/src/org/eclipselabs/mongo/junit/integration/tests/TestMongoIdFactory.java:50-57 | On an empty "junit_id" collection, after a successful activation the first call returns "1" and the store holds 1, or else it fails with the IOException naming "junit_id". |
| `Store.Database.FindOne` | bundles/org.eclipselabs.emongo.components/src/org/eclipselabs/emongo/components/MongoIdFactoryComponent.java:63 | A lookup by `_id` returns the stored `_lastId` if the record exists and changes nothing. |
| `Store.Database.Insert` | bundles/org.eclipselabs.emongo.components/src/org/eclipselabs/emongo/components/MongoIdFactoryComponent.java:67-72 | An insert over an existing `_id` is refused and changes nothing. An acknowledged insert has added the record, and an unacknowledged one may or may not have. |
| `Store.Database.IncrementAndFetch` | bundles/org.eclipselabs.emongo.components/src/org/eclipselabs/emongo/components/MongoIdFactoryComponent.java:89-91 | An absent record stays absent and nothing is returned. An acknowledged increment raises the record by delta in one step and returns the new value. An unacknowledged one may or may not have taken effect. |
| `Store.Database.Drop` | bundles/org.eclipselabs.emongo.junit.util/src/org/eclipselabs/emongo/junit/util/MongoDatabase.java:176 | The collection and its records are gone and every other collection is unchanged. |
| `Store.WithRecord` | bundles/org.eclipselabs.emongo.components/src/org/eclipselabs/emongo/components/MongoIdFactoryComponent.java:67-70 | Writing one record changes that record only; the collection is created if needed. |
| `Decimal.NatToDecimal` | bundles/org.eclipselabs.emongo.components/src/org/eclipselabs/emongo/components/MongoIdFactoryComponent.java:94 | The text of a counter value is a non-empty string of digits with no leading zero. |
| `Decimal.ParseNatRoundTrip` | bundles/org.eclipselabs.emongo.components/src/org/eclipselabs/emongo/components/MongoIdFactoryComponent.java:94 | Reading an issued id back as a number gives the counter value it was made from. |
| `Decimal.NatToDecimalInjective` | bundles/org.eclipselabs.emongo.components/src/org/eclipselabs/emongo/components/MongoIdFactoryComponent.java:94 | Different counter values give different id strings. |
| `Decimal.IntToDecimal` | bundles/org.eclipselabs.emongo.junit.util/src/org/eclipselabs/emongo/junit/util/MongoDatabase.java:99 | The text of a port is non-empty, has a minus sign exactly when the port is negative, and otherwise has only digits. |
| `Decimal.ParseIntRoundTrip` | bundles/org.eclipselabs.emongo.junit.util/src/org/eclipselabs/emongo/junit/util/MongoDatabase.java:99 | Reading the text of a port back gives the port. |
| `Decimal.IntToDecimalInjective` | bundles/org.eclipselabs.emongo.junit.util/src/org/eclipselabs/emongo/junit/util/MongoDatabase.java:99 | Different ports are written as different texts. |
| `JunitDatabase.PortPart` | bundles/org.eclipselabs.emongo.junit.util/src/org/eclipselabs/emongo/junit/util/MongoDatabase.java:99 | The port part is empty exactly for port 27017. Otherwise it is ":" followed by text that reads back as the port. |
| `JunitDatabase.BaseUri` | bundles/org.eclipselabs.emongo.junit.util/src/org/eclipselabs/emongo/junit/util/MongoDatabase.java:99 | Its own contract fixes only the `mongodb://` prefix. `JunitDatabase.BaseUriRoundTrip` and `JunitDatabase.BaseUriInjective` state what the URI carries: host, port (left out for 27017, see `JunitDatabase.PortPart`) and database, all recoverable when the host contains no ':' or '/'. |
| `JunitDatabase.BaseUriRoundTrip` | bundles/org.eclipselabs.emongo.junit.util/src/org/eclipselabs/emongo/junit/util/MongoDatabase.java:99 | Host, port and database can be read back from the base URI when the host holds no ':' or '/'. A missing port reads as 27017. |
| `JunitDatabase.BaseUriInjective` | bundles/org.eclipselabs.emongo.junit.util/src/org/eclipselabs/emongo/junit/util/MongoDatabase.java:99 | When neither host contains ':' or '/', different hosts, ports or databases never give the same base URI. |
| `JunitDatabase.MongoDatabaseRule.constructor` | bundles/org.eclipselabs.emongo.junit.util/src/org/eclipselabs/emongo/junit/util/MongoDatabase.java:44-47 | The no-argument rule uses localhost, port 27017 and database "junit", so its base URI is `mongodb://localhost/junit`. It has no locator. |
| `JunitDatabase.MongoDatabaseRule.WithLocator` | bundles/org.eclipselabs.emongo.junit.util/src/org/eclipselabs/emongo/junit/util/MongoDatabase.java:49-52 | Same defaults, keeping the given locator. |
| `JunitDatabase.MongoDatabaseRule.OnDatabase` | bundles/org.eclipselabs.emongo.junit.util/src/org/eclipselabs/emongo/junit/util/MongoDatabase.java:59-62 | localhost, port 27017 and the given database, with no locator. |
| `JunitDatabase.MongoDatabaseRule.OnDatabaseWithLocator` | bundles/org.eclipselabs.emongo.junit.util/src/org/eclipselabs/emongo/junit/util/MongoDatabase.java:64-67 | localhost, port 27017 and the given database, keeping the locator. |
| `JunitDatabase.MongoDatabaseRule.OnHost` | bundles/org.eclipselabs.emongo.junit.util/src/org/eclipselabs/emongo/junit/util/MongoDatabase.java:75-78 | The given host and database with port 27017, with no locator. |
| `JunitDatabase.MongoDatabaseRule.OnHostWithLocator` | bundles/org.eclipselabs.emongo.junit.util/src/org/eclipselabs/emongo/junit/util/MongoDatabase.java:80-83 | The given host and database with port 27017, keeping the locator. |
| `JunitDatabase.MongoDatabaseRule.OnHostPort` | bundles/org.eclipselabs.emongo.junit.util/src/org/eclipselabs/emongo/junit/util/MongoDatabase.java:92-95 | The given host, port and database, with no locator. |
| `JunitDatabase.MongoDatabaseRule.OnHostPortWithLocator` | bundles/org.eclipselabs.emongo.junit.util/src/org/eclipselabs/emongo/junit/util/MongoDatabase.java:97-101 | The base URI is built from host, port and database, and the given locator is kept. |
| `JunitDatabase.MongoDatabaseRule.CreateCollectionUri` | bundles/org.eclipselabs.emongo.junit.util/src/org/eclipselabs/emongo/junit/util/MongoDatabase.java:110-113 | A collection URI is the base URI, "/", the collection and a trailing "/". |
| `JunitDatabase.MongoDatabaseRule.CreateObjectUri` | bundles/org.eclipselabs.emongo.junit.util/src/org/eclipselabs/emongo/junit/util/MongoDatabase.java:123-126 | An object URI is the base URI, "/", the collection, "/" and the id. |
| `JunitDatabase.ObjectUriExtendsCollectionUri` | bundles/org.eclipselabs.emongo.junit.util/src/org/eclipselabs/emongo/junit/util/MongoDatabase.java:110-126 | An object's URI is its collection's URI followed by the id. |
| `JunitDatabase.MongoDatabaseRule.Before` | bundles/org.eclipselabs.emongo.junit.util/src/org/eclipselabs/emongo/junit/util/MongoDatabase.java:148-163 | A rule without a locator takes the tracked one. With no locator at all, the first assertion fails. Otherwise the database is the locator's database for the base URI, and setup is ready exactly when that database exists. |
| `JunitDatabase.Dropped` | bundles/org.eclipselabs.emongo.junit.util/src/org/eclipselabs/emongo/junit/util/MongoDatabase.java:173-177 | The cleanup drops only listed collections, and never "system.indexes". |
| `JunitDatabase.CleanupKeepsSystemIndexes` | bundles/org.eclipselabs.emongo.junit.util/src/org/eclipselabs/emongo/junit/util/MongoDatabase.java:173-177 | After the cleanup at most "system.indexes" remains, and its records are untouched. |
| `JunitDatabase.MongoDatabaseRule.After` | bundles/org.eclipselabs.emongo.junit.util/src/org/eclipselabs/emongo/junit/util/MongoDatabase.java:165-186 | With a locator and a database, every collection except "system.indexes" is dropped, whatever order they are listed in. Without a locator nothing changes. |

## Left out

- Concurrency: the `volatile` fields and calls from several threads or processes are not modelled. The store's increment is one atomic step, so any interleaving of K calls is a sequence of K increments, and `IssuedValues` covers that sequence. The find-then-insert race in `activate` is not modelled either. The unique `_id` of a MongoDB collection prevents a duplicate counter record. What the losing `activate` then does depends on how the driver reports a duplicate key, which is left out.
- Store.Database.Insert: an insert over an existing `_id` is modelled as refused and unacknowledged. How the driver actually reports a duplicate key (an error field of `getLastError`, or an exception from `insert`) is not modelled.
- `handleIllegalConfiguration` belongs to `AbstractComponent`, which is not part of this model. It is assumed to throw when given a message and to do nothing when given null. `Activate` returns the error instead of throwing.
- The lookup of the collection name in the component's property map (`PROP_COLLECTION`) is left out. `Activate` takes the configured value, with None for null.
- The `DatabaseLocator` OSGi service is replaced by a map from URI to database. It is assumed to return the database registered for the URI, or null when there is none.
- `bindMongoDatabaseProvider` and the provider itself are left out. `Activate` takes the provider's URI and its database as parameters.
- The `query` and `update` fields are the constants `SentinelKey` ("0") and `Delta` (1).
- IdFactory.IdFactoryComponent.GetNextId: `_lastId` is an unbounded number, so the 64-bit range of the Java `Long` and the store's behaviour at its limit are not modelled.
- `getCollectionURI`, `getMongoDB` and `getMongoDBService` are plain accessors, modelled as functions without contracts of their own. The URI's stability is stated by `GetNextId`.
- MongoDB driver semantics (`DBCollection`, `findAndModify` flags, `BasicDBObject`, `getLastError`) are replaced by `Store.Database`. Records hold only `_lastId`.
- `URI.appendSegments` from EMF is taken to add "/" and each segment. Its handling of a base URI that already ends in "/", its segment validation and its encoding are not modelled, and neither is the parsing done by `URI.createURI`.
- The `ServiceTracker` lookup in `before` is left out. Its result is the parameter `tracked` of `Before`, and the one-second wait is not modelled.
- In `after`, `printStackTrace` and failures of `drop` are not modelled. A rule with a locator but no database does nothing, where Java raises a NullPointerException and swallows it.
