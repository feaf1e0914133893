/**
 * lib/mockDb.ts: the development store, a plain object whose methods read a
 * fixed array.
 */
module MockDb {
  import opened Wrappers
  import opened PropertyTypes

  /** What `connect` resolves to: a connection object and its state. */
  datatype Connection = Connection(readyState: int)

  /** `connect`: always reports an open connection. */
  function Connect(): (c: Connection)
    ensures c.readyState == 1
  {
    Connection(1)
  }

  /** `getProperties`: the fixture array itself. */
  function GetProperties(): (r: seq<Property>)
    ensures r == StoreFixture
    ensures |r| == 1 && r[0].id == "1"
  {
    StoreFixture
  }

  /** `getPropertyById`: the first record with that id, or null. */
  function GetPropertyById(id: string): (r: Option<Property>)
    ensures r.None? <==> forall p :: p in GetProperties() ==> p.id != id
    ensures r.Some? ==> r.value in GetProperties() && r.value.id == id
  {
    FindById(StoreFixture, id)
  }

  /** `property ? property.reviews || [] : []`. */
  function GetPropertyReviews(propertyId: string): (r: seq<Review>)
    ensures GetPropertyById(propertyId).None? ==> r == []
    ensures GetPropertyById(propertyId).Some? ==> r == GetPropertyById(propertyId).value.reviews.GetOr([])
  {
    ReviewsOf(StoreFixture, propertyId)
  }
}
