/**
 * The records of types/property.ts that the listing core reads, and the
 * first-match lookups the two mock stores (lib/db-utils.ts, lib/mockDb.ts)
 * share.
 */
module PropertyTypes {
  import opened Wrappers

  datatype Location = Location(address: string, city: string, country: string)

  /** A review as stored inside a property record and shown by the review section. */
  datatype Review = Review(
    id: string,
    userId: string,
    userName: string,
    rating: real,
    comment: string,
    date: string)

  /**
   * A listed property. `images` is optional in the source type; `reviews` is
   * optional here because the store fixtures are untyped and a record may
   * lack it (None stands for a missing or falsy field).
   */
  datatype Property = Property(
    id: string,
    title: string,
    description: string,
    price: int,
    imageUrl: string,
    images: Option<seq<string>>,
    rating: real,
    reviewCount: int,
    propertyType: string,
    bedrooms: int,
    bathrooms: int,
    maxGuests: int,
    location: Location,
    amenities: seq<string>,
    reviews: Option<seq<Review>>)

  /** `find(p => p.id === id)`: the position of the first property with that id. */
  function FindIndex(ps: seq<Property>, id: string): (r: Option<nat>)
    ensures r.None? <==> forall k :: 0 <= k < |ps| ==> ps[k].id != id
    ensures r.Some? ==> r.value < |ps| && ps[r.value].id == id
    ensures r.Some? ==> forall k :: 0 <= k < r.value ==> ps[k].id != id
  {
    if ps == [] then None
    else if ps[0].id == id then Some(0)
    else
      match FindIndex(ps[1..], id)
      case None => None
      case Some(k) => Some(k + 1)
  }

  /** `find(p => p.id === id) || null`: the first property with that id, or None. */
  function FindById(ps: seq<Property>, id: string): (r: Option<Property>)
    ensures r.None? <==> forall k :: 0 <= k < |ps| ==> ps[k].id != id
    ensures r.Some? ==> r.value in ps && r.value.id == id
    ensures r.Some? ==> exists k :: 0 <= k < |ps| && ps[k] == r.value
                         && forall j :: 0 <= j < k ==> ps[j].id != id
  {
    match FindIndex(ps, id)
    case None => None
    case Some(k) => Some(ps[k])
  }

  /** `find(...)?.reviews || []`: the reviews of the first property with that id, else none. */
  function ReviewsOf(ps: seq<Property>, id: string): (r: seq<Review>)
    ensures (forall k :: 0 <= k < |ps| ==> ps[k].id != id) ==> r == []
    ensures forall k :: 0 <= k < |ps| && ps[k].id == id && (forall j :: 0 <= j < k ==> ps[j].id != id)
                        ==> r == (if ps[k].reviews.Some? then ps[k].reviews.value else [])
  {
    match FindIndex(ps, id)
    case None => []
    case Some(k) => ps[k].reviews.GetOr([])
  }

  /** The single record held by both store fixtures (lib/db-utils.ts and lib/mockDb.ts). */
  const StoreFixture: seq<Property> := [
    Property(
      "1",
      "Modern Apartment in Downtown",
      "A beautiful modern apartment in the heart of the city.",
      120,
      "/images/property1.jpg",
      Some(["/images/property1-1.jpg", "/images/property1-2.jpg"]),
      4.8,
      124,
      "Apartment",
      2,
      1,
      4,
      Location("123 Main St", "New York", "USA"),
      ["Wifi", "Kitchen", "Washer", "TV", "Air conditioning"],
      Some([Review("rev1", "user1", "Jane Smith", 5.0, "Great place to stay!", "2023-05-15")]))
  ]

  /** What the fixture answers: property "1" and its one review, nothing for any other id. */
  lemma StoreFixtureLookups(id: string)
    ensures FindById(StoreFixture, id) == (if id == "1" then Some(StoreFixture[0]) else None)
    ensures ReviewsOf(StoreFixture, id) == (if id == "1" then StoreFixture[0].reviews.value else [])
    ensures |ReviewsOf(StoreFixture, "1")| == 1 && ReviewsOf(StoreFixture, "1")[0].id == "rev1"
  {
    assert StoreFixture[0].id == "1";
  }
}
