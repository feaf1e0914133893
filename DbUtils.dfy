/**
 * lib/db-utils.ts: the `Database` interface with its mock and MongoDB
 * implementations, the guard order of `MongoDatabase.connect`, and how the
 * module picks the instance it exports.
 */
module DbUtils {
  import opened Wrappers
  import opened PropertyTypes

  /** Which implementation of the `Database` interface an instance is. */
  datatype DbKind = MockDb | MongoDb

  /** `getProperties`: the mock returns its fixture whole; the MongoDB stub returns nothing. */
  function GetProperties(db: DbKind): (r: seq<Property>)
    ensures db == MockDb ==> r == StoreFixture
    ensures db == MongoDb ==> r == []
  {
    match db
    case MockDb => StoreFixture
    case MongoDb => []
  }

  /** `getPropertyById`: the first fixture record with that id for the mock; always null for the stub. */
  function GetPropertyById(db: DbKind, id: string): (r: Option<Property>)
    ensures r.Some? ==> db == MockDb && r.value in StoreFixture && r.value.id == id
    ensures r.None? <==> db == MongoDb || forall p :: p in StoreFixture ==> p.id != id
  {
    match db
    case MockDb => FindById(StoreFixture, id)
    case MongoDb => None
  }

  /** `getPropertyReviews`: the matching record's reviews, or `[]`; always `[]` for the stub. */
  function GetPropertyReviews(db: DbKind, propertyId: string): (r: seq<Review>)
    ensures db == MongoDb ==> r == []
    ensures (forall p :: p in StoreFixture ==> p.id != propertyId) ==> r == []
    ensures db == MockDb && GetPropertyById(db, propertyId).Some? ==>
      r == GetPropertyById(db, propertyId).value.reviews.GetOr([])
  {
    match db
    case MockDb => ReviewsOf(StoreFixture, propertyId)
    case MongoDb => []
  }

  /** Every review the mock hands out belongs to the property it was asked about. */
  lemma ReviewsComeFromTheProperty(propertyId: string, r: Review)
    requires r in GetPropertyReviews(MockDb, propertyId)
    ensures GetPropertyById(MockDb, propertyId).Some?
    ensures r in GetPropertyById(MockDb, propertyId).value.reviews.value
  {
    StoreFixtureLookups(propertyId);
  }

  /** Switching to the MongoDB stub loses every record the mock serves. */
  lemma MongoStubFindsNothing(id: string)
    ensures GetPropertyById(MockDb, "1").Some?
    ensures GetPropertyById(MongoDb, id).None? && GetPropertyReviews(MongoDb, id) == []
  {
    StoreFixtureLookups("1");
  }

  const MissingUriMessage := "MONGODB_URI is not defined"

  datatype ConnectError = MissingUri | ConnectionRejected

  /** A `MongoDatabase` and the connection state of the mongoose it wraps. */
  class MongoDatabase {
    var readyState: int
    /** The URIs handed to `mongoose.connect`, oldest first. */
    var connectCalls: seq<string>

    constructor (readyState: int)
      ensures this.readyState == readyState && connectCalls == []
    {
      this.readyState := readyState;
      connectCalls := [];
    }

    /**
     * `connect`: the URI is checked before the connection state, so a missing
     * or empty URI throws even on a live connection; a live connection is not
     * reopened; otherwise mongoose is asked to connect, which may reject.
     */
    method Connect(uri: Option<string>, accepted: bool) returns (r: Result<(), ConnectError>)
      modifies this
      ensures uri.None? || uri.value == "" ==>
        r == Failure(MissingUri) && readyState == old(readyState) && connectCalls == old(connectCalls)
      ensures uri.Some? && uri.value != "" && old(readyState) == 1 ==>
        r.Success? && readyState == 1 && connectCalls == old(connectCalls)
      ensures uri.Some? && uri.value != "" && old(readyState) != 1 ==>
        connectCalls == old(connectCalls) + [uri.value]
        && (r.Success? <==> accepted)
        && readyState == (if accepted then 1 else old(readyState))
      ensures r.Failure? ==> readyState == old(readyState)
    {
      if uri.None? || uri.value == "" {
        return Failure(MissingUri);
      }
      if readyState == 1 {
        return Success(());
      }
      connectCalls := connectCalls + [uri.value];
      if accepted {
        readyState := 1;
        r := Success(());
      } else {
        r := Failure(ConnectionRejected);
      }
    }
  }

  /**
   * The module's top level. `dbInstance` starts as the mock; `initDb` runs up
   * to its `await import('mongoose')` and suspends; the `export default` line
   * then runs and captures the current instance; the import settles later.
   */
  class DbModule {
    var dbInstance: DbKind
    var exported: DbKind
    /** `initDb` is suspended at the dynamic import. */
    var importPending: bool

    /** Evaluating the module body, up to the end of the file. */
    constructor (production: bool)
      ensures dbInstance == MockDb && exported == MockDb
      ensures importPending <==> production
    {
      dbInstance := MockDb;
      importPending := production;
      exported := dbInstance;
    }

    /** The dynamic import settles: success switches the instance, failure keeps the mock. */
    method ImportSettled(importOk: bool)
      requires importPending
      modifies this`dbInstance, this`importPending
      ensures !importPending
      ensures dbInstance == (if importOk then MongoDb else old(dbInstance))
    {
      if importOk {
        dbInstance := MongoDb;
      }
      importPending := false;
    }
  }

  /** The whole start-up: the instance is MongoDB only in production with a working import, yet the export is always the mock. */
  method StartUp(production: bool, importOk: bool) returns (instance: DbKind, exported: DbKind)
    ensures instance == MongoDb <==> production && importOk
    ensures exported == MockDb
  {
    var m := new DbModule(production);
    if m.importPending {
      m.ImportSettled(importOk);
    }
    instance := m.dbInstance;
    exported := m.exported;
  }
}
