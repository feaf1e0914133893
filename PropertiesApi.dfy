/**
 * The property-listing endpoint of pages/api/properties/index.ts: five
 * optional query parameters select, by a chain of `Array.filter` stages,
 * the matching properties of a fixed collection, in their original order.
 */
module PropertiesApi {
  import opened Wrappers
  import opened Text
  import opened Sequences
  import opened PropertyTypes

  /** The request's query string: parameter name to value. */
  type Query = map<string, string>

  /** The five parameters the handler destructures from the query (line 41). */
  datatype Criteria = Criteria(
    search: Option<string>,
    minPrice: Option<string>,
    maxPrice: Option<string>,
    propertyType: Option<string>,
    bedrooms: Option<string>)

  function Param(q: Query, name: string): Option<string> {
    if name in q then Some(q[name]) else None
  }

  function ReadCriteria(q: Query): Criteria {
    Criteria(Param(q, "search"), Param(q, "minPrice"), Param(q, "maxPrice"),
             Param(q, "propertyType"), Param(q, "bedrooms"))
  }

  function Value(v: Option<string>): string {
    v.GetOr("")
  }

  /** Case-insensitive substring search over title, description, city and country. */
  predicate MatchesSearch(p: Property, search: string) {
    var term := ToLower(search);
    || Contains(ToLower(p.title), term)
    || Contains(ToLower(p.description), term)
    || Contains(ToLower(p.location.city), term)
    || Contains(ToLower(p.location.country), term)
  }

  /** `property.price >= Number(minPrice)`; a NaN bound admits nothing. */
  predicate PriceAtLeast(p: Property, bound: string) {
    var b := ParseNumber(bound);
    b.Some? && p.price >= b.value
  }

  /** `property.price <= Number(maxPrice)`; a NaN bound admits nothing. */
  predicate PriceAtMost(p: Property, bound: string) {
    var b := ParseNumber(bound);
    b.Some? && p.price <= b.value
  }

  /** `property.type === propertyType.toLowerCase()`: the stored type is compared as it is. */
  predicate TypeIs(p: Property, criterion: string) {
    p.propertyType == ToLower(criterion)
  }

  /** `property.bedrooms >= Number(bedrooms)`; a NaN bound admits nothing. */
  predicate BedroomsAtLeast(p: Property, bound: string) {
    var b := ParseNumber(bound);
    b.Some? && p.bedrooms >= b.value
  }

  /** One `if (param) list = list.filter(keep)` step. */
  function Stage(ps: seq<Property>, on: bool, keep: Property -> bool): seq<Property> {
    if on then Filter(ps, keep) else ps
  }

  function SearchKeep(c: Criteria): Property -> bool {
    p => MatchesSearch(p, Value(c.search))
  }

  function MinPriceKeep(c: Criteria): Property -> bool {
    p => PriceAtLeast(p, Value(c.minPrice))
  }

  function MaxPriceKeep(c: Criteria): Property -> bool {
    p => PriceAtMost(p, Value(c.maxPrice))
  }

  function TypeKeep(c: Criteria): Property -> bool {
    p => TypeIs(p, Value(c.propertyType))
  }

  function BedroomsKeep(c: Criteria): Property -> bool {
    p => BedroomsAtLeast(p, Value(c.bedrooms))
  }

  /** The filter chain of lines 44-79, stage by stage in the source's order. */
  function FilterProperties(ps: seq<Property>, c: Criteria): seq<Property> {
    var afterSearch := Stage(ps, Truthy(c.search), SearchKeep(c));
    var afterMin := Stage(afterSearch, Truthy(c.minPrice), MinPriceKeep(c));
    var afterMax := Stage(afterMin, Truthy(c.maxPrice), MaxPriceKeep(c));
    var afterType := Stage(afterMax, Truthy(c.propertyType), TypeKeep(c));
    Stage(afterType, Truthy(c.bedrooms), BedroomsKeep(c))
  }

  /** What a property must satisfy to survive: every stage that is switched on. */
  predicate Admits(c: Criteria, p: Property) {
    && (Truthy(c.search) ==> MatchesSearch(p, c.search.value))
    && (Truthy(c.minPrice) ==> PriceAtLeast(p, c.minPrice.value))
    && (Truthy(c.maxPrice) ==> PriceAtMost(p, c.maxPrice.value))
    && (Truthy(c.propertyType) ==> TypeIs(p, c.propertyType.value))
    && (Truthy(c.bedrooms) ==> BedroomsAtLeast(p, c.bedrooms.value))
  }

  // The conjunction of the first one, two, three and four stages.
  predicate PassesSearch(c: Criteria, p: Property) {
    Truthy(c.search) ==> SearchKeep(c)(p)
  }

  predicate PassesMin(c: Criteria, p: Property) {
    PassesSearch(c, p) && (Truthy(c.minPrice) ==> MinPriceKeep(c)(p))
  }

  predicate PassesMax(c: Criteria, p: Property) {
    PassesMin(c, p) && (Truthy(c.maxPrice) ==> MaxPriceKeep(c)(p))
  }

  predicate PassesType(c: Criteria, p: Property) {
    PassesMax(c, p) && (Truthy(c.propertyType) ==> TypeKeep(c)(p))
  }

  /** A stage applied to a filtered list is one filter with the conjoined predicate. */
  lemma StageAfterFilter(ps: seq<Property>, acc: Property -> bool, on: bool,
                         keep: Property -> bool, both: Property -> bool)
    requires forall p :: both(p) == (acc(p) && (on ==> keep(p)))
    ensures Stage(Filter(ps, acc), on, keep) == Filter(ps, both)
  {
    if on {
      FilterTwice(ps, acc, keep, both);
    } else {
      FilterExtensional(ps, acc, both);
    }
  }

  /** The first three stages are one filter. */
  lemma FirstStagesAreOneFilter(ps: seq<Property>, c: Criteria)
    ensures Stage(Stage(Stage(ps, Truthy(c.search), SearchKeep(c)), Truthy(c.minPrice), MinPriceKeep(c)),
                  Truthy(c.maxPrice), MaxPriceKeep(c))
            == Filter(ps, p => PassesMax(c, p))
  {
    var s1 := Stage(ps, Truthy(c.search), SearchKeep(c));
    var s2 := Stage(s1, Truthy(c.minPrice), MinPriceKeep(c));
    FilterKeepsAll(ps, p => true);
    StageAfterFilter(ps, p => true, Truthy(c.search), SearchKeep(c), p => PassesSearch(c, p));
    StageAfterFilter(ps, p => PassesSearch(c, p), Truthy(c.minPrice), MinPriceKeep(c), p => PassesMin(c, p));
    StageAfterFilter(ps, p => PassesMin(c, p), Truthy(c.maxPrice), MaxPriceKeep(c), p => PassesMax(c, p));
  }

  /** The five-stage chain is a single stable filter by `Admits`. */
  lemma PipelineIsOneFilter(ps: seq<Property>, c: Criteria)
    ensures FilterProperties(ps, c) == Filter(ps, p => Admits(c, p))
  {
    FirstStagesAreOneFilter(ps, c);
    StageAfterFilter(ps, p => PassesMax(c, p), Truthy(c.propertyType), TypeKeep(c), p => PassesType(c, p));
    StageAfterFilter(ps, p => PassesType(c, p), Truthy(c.bedrooms), BedroomsKeep(c), p => Admits(c, p));
  }

  /** A property is returned iff it is in the collection and passes every active stage. */
  lemma FilterMembership(ps: seq<Property>, c: Criteria, p: Property)
    ensures p in FilterProperties(ps, c) <==> p in ps && Admits(c, p)
  {
    PipelineIsOneFilter(ps, c);
  }

  /** The result is the collection with some elements deleted and the rest in order. */
  lemma ResultIsSubsequence(ps: seq<Property>, c: Criteria)
    ensures IsSubsequence(FilterProperties(ps, c), ps)
  {
    PipelineIsOneFilter(ps, c);
    FilterIsSubsequence(ps, p => Admits(c, p));
  }

  /** Running the same query over its own result changes nothing. */
  lemma FilterIdempotent(ps: seq<Property>, c: Criteria)
    ensures FilterProperties(FilterProperties(ps, c), c) == FilterProperties(ps, c)
  {
    var r := FilterProperties(ps, c);
    PipelineIsOneFilter(ps, c);
    PipelineIsOneFilter(r, c);
    Sequences.FilterIdempotent(ps, p => Admits(c, p));
  }

  /** With every parameter absent or empty, the whole collection comes back in order. */
  lemma NoCriteriaIsIdentity(ps: seq<Property>, c: Criteria)
    requires !Truthy(c.search) && !Truthy(c.minPrice) && !Truthy(c.maxPrice)
    requires !Truthy(c.propertyType) && !Truthy(c.bedrooms)
    ensures FilterProperties(ps, c) == ps
  {
  }

  /** Every returned property respects each numeric bound that is set. */
  lemma ResultWithinBounds(ps: seq<Property>, c: Criteria)
    ensures Truthy(c.minPrice) ==> forall p :: p in FilterProperties(ps, c) ==>
              ParseNumber(c.minPrice.value).Some? && p.price >= ParseNumber(c.minPrice.value).value
    ensures Truthy(c.maxPrice) ==> forall p :: p in FilterProperties(ps, c) ==>
              ParseNumber(c.maxPrice.value).Some? && p.price <= ParseNumber(c.maxPrice.value).value
    ensures Truthy(c.bedrooms) ==> forall p :: p in FilterProperties(ps, c) ==>
              ParseNumber(c.bedrooms.value).Some? && p.bedrooms >= ParseNumber(c.bedrooms.value).value
  {
    PipelineIsOneFilter(ps, c);
  }

  /** A set but non-numeric minPrice, maxPrice or bedrooms value empties the result (NaN). */
  lemma NonNumericBoundEmpties(ps: seq<Property>, c: Criteria)
    requires || (Truthy(c.minPrice) && ParseNumber(c.minPrice.value).None?)
             || (Truthy(c.maxPrice) && ParseNumber(c.maxPrice.value).None?)
             || (Truthy(c.bedrooms) && ParseNumber(c.bedrooms.value).None?)
    ensures FilterProperties(ps, c) == []
  {
    PipelineIsOneFilter(ps, c);
    FilterKeepsNone(ps, p => Admits(c, p));
  }

  /** A stored type with a capital letter never matches any propertyType value. */
  lemma CapitalisedTypeNeverMatches(ps: seq<Property>, c: Criteria, p: Property, k: nat)
    requires Truthy(c.propertyType)
    requires k < |p.propertyType| && IsUpper(p.propertyType[k])
    ensures p !in FilterProperties(ps, c)
  {
    FilterMembership(ps, c, p);
  }

  /** The search is insensitive to the case of the term. */
  lemma SearchIgnoresTermCase(p: Property, s: string, t: string)
    requires ToLower(s) == ToLower(t)
    ensures MatchesSearch(p, s) == MatchesSearch(p, t)
  {
  }

  /** Typing a term with some letters in the other case selects the same properties. */
  lemma CaseVariantsSearchAlike(p: Property, s: string, t: string)
    requires |s| == |t|
    requires forall i :: 0 <= i < |s| ==> SameLetterUpToCase(s[i], t[i])
    ensures MatchesSearch(p, s) == MatchesSearch(p, t)
  {
    CaseVariantsLowerAlike(s, t);
    SearchIgnoresTermCase(p, s, t);
  }

  /** A property whose lowered city starts with the lowered term is found by that term. */
  lemma CityPrefixIsFound(ps: seq<Property>, c: Criteria, p: Property)
    requires p in ps && Truthy(c.search) && !Truthy(c.minPrice) && !Truthy(c.maxPrice)
    requires !Truthy(c.propertyType) && !Truthy(c.bedrooms)
    requires |c.search.value| <= |p.location.city|
    requires ToLower(p.location.city[..|c.search.value|]) == ToLower(c.search.value)
    ensures p in FilterProperties(ps, c)
  {
    var city := p.location.city;
    var n := |c.search.value|;
    ToLowerSlice(city, 0, n);
    assert OccursAt(ToLower(city), ToLower(c.search.value), 0);
    FilterMembership(ps, c, p);
  }

  /** A property none of whose four text fields contains the lowered term is not found. */
  lemma UnmatchedTermExcludes(ps: seq<Property>, c: Criteria, p: Property)
    requires Truthy(c.search) && !MatchesSearch(p, c.search.value)
    ensures p !in FilterProperties(ps, c)
  {
    FilterMembership(ps, c, p);
  }

  /** Query keys other than the five destructured ones (minRating among them) change nothing. */
  lemma OtherKeysIgnored(q: Query, key: string, value: string)
    requires key !in {"search", "minPrice", "maxPrice", "propertyType", "bedrooms"}
    ensures ReadCriteria(q[key := value]) == ReadCriteria(q)
  {
  }

  datatype Body = Listing(properties: seq<Property>) | Message(text: string)

  datatype Response = Response(status: nat, body: Body)

  /** The collection the endpoint serves (lines 5-38). */
  const MockProperties: seq<Property> := [
    Property(
      "1",
      "Modern Apartment in Downtown",
      "Beautiful modern apartment located in the heart of the city. Perfect for couples or solo travelers.",
      120,
      "https://images.unsplash.com/photo-1494526585095-c41746248156?ixlib=rb-4.0.3",
      None,
      4.8,
      124,
      "apartment",
      2,
      1,
      4,
      Location("123 Main St", "New York", "USA"),
      ["Wifi", "Kitchen", "Washer", "Air conditioning", "TV"],
      Some([]))
  ]

  /**
   * The endpoint: 200 with the filtered collection. The filter is total on
   * well-typed records, so the 500 branch is never taken in this model.
   */
  function Handler(q: Query): (r: Response)
    ensures r.status == 200 && r.body.Listing?
    ensures IsSubsequence(r.body.properties, MockProperties)
    ensures forall p :: p in r.body.properties <==> p in MockProperties && Admits(ReadCriteria(q), p)
  {
    var c := ReadCriteria(q);
    ResultIsSubsequence(MockProperties, c);
    PipelineIsOneFilter(MockProperties, c);
    Response(200, Listing(FilterProperties(MockProperties, c)))
  }
}
