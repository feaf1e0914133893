/**
 * The listing page of pages/index.tsx: search text and five filter fields,
 * the query parameters built from them, the favourites set, the active-filter
 * chips, and how a fetch outcome lands in the page state.
 */
module ListingPage {
  import opened Wrappers
  import opened Sequences
  import opened PropertyTypes
  import PropertiesApi

  datatype FilterKey = MinPrice | MaxPrice | PropertyType | Bedrooms | MinRating

  /** The order of the filter record's fields, which `Object.entries` follows. */
  const FilterOrder: seq<FilterKey> := [MinPrice, MaxPrice, PropertyType, Bedrooms, MinRating]

  /** The position of a key in the record. */
  function KeyIndex(k: FilterKey): (i: nat)
    ensures i < |FilterOrder| && FilterOrder[i] == k
  {
    match k
    case MinPrice => 0
    case MaxPrice => 1
    case PropertyType => 2
    case Bedrooms => 3
    case MinRating => 4
  }

  function KeyName(k: FilterKey): string {
    match k
    case MinPrice => "minPrice"
    case MaxPrice => "maxPrice"
    case PropertyType => "propertyType"
    case Bedrooms => "bedrooms"
    case MinRating => "minRating"
  }

  /** The filter record; every field is the raw string of its form control. */
  datatype Filters = Filters(
    minPrice: string,
    maxPrice: string,
    propertyType: string,
    bedrooms: string,
    minRating: string)
  {
    function Get(k: FilterKey): string {
      match k
      case MinPrice => minPrice
      case MaxPrice => maxPrice
      case PropertyType => propertyType
      case Bedrooms => bedrooms
      case MinRating => minRating
    }

    /** `{ ...prev, [name]: value }`: the named field replaced, the others kept. */
    function With(k: FilterKey, v: string): (r: Filters)
      ensures r.Get(k) == v
      ensures forall other :: other != k ==> r.Get(other) == Get(other)
    {
      match k
      case MinPrice => this.(minPrice := v)
      case MaxPrice => this.(maxPrice := v)
      case PropertyType => this.(propertyType := v)
      case Bedrooms => this.(bedrooms := v)
      case MinRating => this.(minRating := v)
    }
  }

  const NoFilters := Filters("", "", "", "", "")

  /** Line 119: some filter value or the search text is non-empty. */
  function HasActiveFilters(f: Filters, search: string): (active: bool)
    ensures active <==> (exists k :: f.Get(k) != "") || search != ""
  {
    f.Get(MinPrice) != "" || f.Get(MaxPrice) != "" || f.Get(PropertyType) != ""
    || f.Get(Bedrooms) != "" || f.Get(MinRating) != "" || search != ""
  }

  /** A query-string parameter: name and value. */
  type Param = (string, string)

  /** `Object.entries(filters)`: the `i`-th pair is the name and value of the record's `i`-th field. */
  function Entries(f: Filters): (r: seq<Param>)
    ensures |r| == |FilterOrder|
    ensures forall i :: 0 <= i < |FilterOrder| ==> r[i] == (KeyName(FilterOrder[i]), f.Get(FilterOrder[i]))
  {
    [("minPrice", f.minPrice), ("maxPrice", f.maxPrice), ("propertyType", f.propertyType),
     ("bedrooms", f.bedrooms), ("minRating", f.minRating)]
  }

  function NonEmptyValue(e: Param): bool {
    e.1 != ""
  }

  /** Lines 41-49: `search` first if it is non-empty, then each non-empty filter in record order. */
  function QueryParams(search: string, f: Filters): seq<Param> {
    (if search != "" then [("search", search)] else []) + Filter(Entries(f), NonEmptyValue)
  }

  /** The position of a parameter name in the order the page sends them: `search`, then the filters in record order. */
  function ParamRank(name: string): (r: nat)
    ensures forall k :: name == KeyName(k) ==> r == KeyIndex(k) + 1
  {
    if name == "search" then 0
    else if name == "minPrice" then 1
    else if name == "maxPrice" then 2
    else if name == "propertyType" then 3
    else if name == "bedrooms" then 4
    else if name == "minRating" then 5
    else 6
  }

  /** The parameters go out in order: `search` first, then the non-empty filters in record order. */
  lemma ParamsInSendingOrder(search: string, f: Filters)
    ensures var ps := QueryParams(search, f);
      forall i, j :: 0 <= i < j < |ps| ==> ParamRank(ps[i].0) < ParamRank(ps[j].0)
  {
    var sent := Filter(Entries(f), NonEmptyValue);
    SentInRecordOrder(f);
    var head: seq<Param> := if search != "" then [("search", search)] else [];
    var ps := head + sent;
    assert QueryParams(search, f) == ps;
    forall i, j | 0 <= i < j < |ps|
      ensures ParamRank(ps[i].0) < ParamRank(ps[j].0)
    {
      var h := |head|;
      assert ps[j] == sent[j - h] && 1 <= ParamRank(sent[j - h].0);
      if i >= h {
        assert ps[i] == sent[i - h];
      } else {
        assert ps[i] == ("search", search) && ParamRank("search") == 0;
      }
    }
  }

  /** The non-empty filters keep the record's order, and every one ranks after `search`. */
  lemma SentInRecordOrder(f: Filters)
    ensures forall i :: 0 <= i < |Filter(Entries(f), NonEmptyValue)| ==>
      1 <= ParamRank(Filter(Entries(f), NonEmptyValue)[i].0)
    ensures forall i, j :: 0 <= i < j < |Filter(Entries(f), NonEmptyValue)| ==>
      ParamRank(Filter(Entries(f), NonEmptyValue)[i].0) < ParamRank(Filter(Entries(f), NonEmptyValue)[j].0)
  {
    var rank := (e: Param) => ParamRank(e.0) as int;
    var es := Entries(f);
    EntriesRanked(f);
    FilterKeepsRankOrder(es, NonEmptyValue, rank);
    var sent := Filter(es, NonEmptyValue);
    forall i | 0 <= i < |sent|
      ensures 1 <= ParamRank(sent[i].0)
    {
      assert sent[i] in es;
    }
  }

  lemma EntriesRanked(f: Filters)
    ensures forall i :: 0 <= i < |Entries(f)| ==> ParamRank(Entries(f)[i].0) == i + 1
  {
    forall i | 0 <= i < |Entries(f)|
      ensures ParamRank(Entries(f)[i].0) == i + 1
    {
      KeyIndexOfOrder(i);
    }
  }

  /** The `forEach` loop that appends the non-empty filters to the URL parameters. */
  method BuildParams(search: string, f: Filters) returns (params: seq<Param>)
    ensures params == QueryParams(search, f)
  {
    params := [];
    if search != "" {
      params := params + [("search", search)];
    }
    params := AppendNonEmpty(params, Entries(f));
  }

  /** Appends, in order, every entry whose value is non-empty. */
  method AppendNonEmpty(head: seq<Param>, entries: seq<Param>) returns (params: seq<Param>)
    ensures params == head + Filter(entries, NonEmptyValue)
  {
    params := head;
    for i := 0 to |entries|
      invariant params == head + Filter(entries[..i], NonEmptyValue)
    {
      FilterSnoc(entries, i, NonEmptyValue);
      if entries[i].1 != "" {
        params := params + [entries[i]];
      }
    }
    assert entries[..|entries|] == entries;
  }

  /** A filter key is sent exactly when its value is non-empty, with that value. */
  lemma ParamsCarryExactlyActiveFilters(search: string, f: Filters, k: FilterKey)
    ensures (KeyName(k), f.Get(k)) in QueryParams(search, f) <==> f.Get(k) != ""
    ensures forall v :: (KeyName(k), v) in QueryParams(search, f) ==> v == f.Get(k) && v != ""
  {
    var i := KeyIndex(k);
    assert Entries(f)[i] == (KeyName(k), f.Get(k));
  }

  /** `search` is sent exactly when the search text is non-empty, and always first. */
  lemma ParamsCarrySearch(search: string, f: Filters)
    ensures search != "" ==> QueryParams(search, f)[0] == ("search", search)
    ensures forall v :: ("search", v) in QueryParams(search, f) ==> v == search && v != ""
  {
    var sent := Filter(Entries(f), NonEmptyValue);
    assert forall e :: e in sent ==> e.0 != "search";
  }

  /** The request carries no parameter exactly when no filter is active. */
  lemma ParamsEmptyIffInactive(search: string, f: Filters)
    ensures QueryParams(search, f) == [] <==> !HasActiveFilters(f, search)
  {
    if QueryParams(search, f) == [] {
      forall k ensures f.Get(k) == "" {
        ParamsCarryExactlyActiveFilters(search, f, k);
      }
    } else if !HasActiveFilters(f, search) {
      FilterKeepsNone(Entries(f), NonEmptyValue);
    }
  }

  /** How Next.js reads the query string back: parameter name to value. */
  function ToQuery(params: seq<Param>): PropertiesApi.Query {
    if params == [] then map[]
    else ToQuery(params[..|params| - 1])[params[|params| - 1].0 := params[|params| - 1].1]
  }

  lemma {:induction false} ToQueryAbsent(params: seq<Param>, name: string)
    requires forall v :: (name, v) !in params
    ensures name !in ToQuery(params)
  {
    if params != [] {
      var init := params[..|params| - 1];
      assert forall v :: (name, v) in init ==> (name, v) in params;
      ToQueryAbsent(init, name);
    }
  }

  lemma {:induction false} ToQueryPresent(params: seq<Param>, name: string, value: string)
    requires (name, value) in params
    requires forall v :: (name, v) in params ==> v == value
    ensures name in ToQuery(params) && ToQuery(params)[name] == value
  {
    var init := params[..|params| - 1];
    var last := params[|params| - 1];
    assert params == init + [last];
    if last.0 != name {
      assert forall v :: (name, v) in init ==> (name, v) in params;
      ToQueryPresent(init, name, value);
    }
  }

  function Sent(v: string): Option<string> {
    if v == "" then None else Some(v)
  }

  /** The server reads back each non-empty value and nothing for an empty one. */
  lemma ServerSeesActiveValues(search: string, f: Filters)
    ensures PropertiesApi.ReadCriteria(ToQuery(QueryParams(search, f)))
            == PropertiesApi.Criteria(Sent(search), Sent(f.minPrice), Sent(f.maxPrice),
                                      Sent(f.propertyType), Sent(f.bedrooms))
  {
    var ps := QueryParams(search, f);
    ParamsCarrySearch(search, f);
    if search != "" {
      ToQueryPresent(ps, "search", search);
    } else {
      ToQueryAbsent(ps, "search");
    }
    ReadBack(search, f, MinPrice);
    ReadBack(search, f, MaxPrice);
    ReadBack(search, f, PropertyType);
    ReadBack(search, f, Bedrooms);
  }

  lemma ReadBack(search: string, f: Filters, k: FilterKey)
    ensures PropertiesApi.Param(ToQuery(QueryParams(search, f)), KeyName(k)) == Sent(f.Get(k))
  {
    var ps := QueryParams(search, f);
    ParamsCarryExactlyActiveFilters(search, f, k);
    if f.Get(k) != "" {
      ToQueryPresent(ps, KeyName(k), f.Get(k));
    } else {
      ToQueryAbsent(ps, KeyName(k));
    }
  }

  /** The rating filter offered by the page never changes what the server returns. */
  lemma MinRatingHasNoEffect(ps: seq<Property>, search: string, f: Filters, rating: string)
    ensures PropertiesApi.FilterProperties(ps, PropertiesApi.ReadCriteria(ToQuery(QueryParams(search, f))))
         == PropertiesApi.FilterProperties(ps, PropertiesApi.ReadCriteria(ToQuery(QueryParams(search, f.With(MinRating, rating)))))
  {
    ServerSeesActiveValues(search, f);
    ServerSeesActiveValues(search, f.With(MinRating, rating));
  }

  /** Lines 89-99: add the id when `isFavorite`, delete it otherwise. */
  function UpdateFavorites(favorites: set<string>, id: string, isFavorite: bool): (r: set<string>)
    ensures id in r <==> isFavorite
    ensures forall other :: other != id ==> (other in r <==> other in favorites)
  {
    if isFavorite then favorites + {id} else favorites - {id}
  }

  /** The type options of lines 12-18: value and label. */
  const PropertyTypeOptions: seq<(string, string)> := [
    ("", "All Types"), ("apartment", "Apartment"), ("house", "House"),
    ("villa", "Villa"), ("cabin", "Cabin")]

  /** `find(t => t.value === value)` over a list of options: the first position holding `value`. */
  function OptionIndex(options: seq<(string, string)>, value: string): (r: Option<nat>)
    ensures r.None? <==> forall i :: 0 <= i < |options| ==> options[i].0 != value
    ensures r.Some? ==> r.value < |options| && options[r.value].0 == value
    ensures r.Some? ==> forall j :: 0 <= j < r.value ==> options[j].0 != value
  {
    if options == [] then None
    else if options[0].0 == value then Some(0)
    else
      match OptionIndex(options[1..], value)
      case None => None
      case Some(i) => Some(i + 1)
  }

  /** `propertyTypes.find(t => t.value === value)?.label || value`. */
  function TypeLabel(value: string): (shown: string)
    ensures (forall i :: 0 <= i < |PropertyTypeOptions| ==> PropertyTypeOptions[i].0 != value)
              ==> shown == value
    ensures forall i :: 0 <= i < |PropertyTypeOptions| && PropertyTypeOptions[i].0 == value
              ==> shown == PropertyTypeOptions[i].1
  {
    match OptionIndex(PropertyTypeOptions, value)
    case None => value
    case Some(i) => if PropertyTypeOptions[i].1 != "" then PropertyTypeOptions[i].1 else value
  }

  /** The text shown after the key on an active-filter chip (lines 321-330). */
  function ChipText(k: FilterKey, v: string): string {
    match k
    case PropertyType => TypeLabel(v)
    case MinRating => v + "+ stars"
    case Bedrooms => v + "+ " + (if v == "1" then "bedroom" else "bedrooms")
    case MinPrice => "$" + v
    case MaxPrice => "$" + v
  }

  /** The bedroom chip is singular only for "1"; prices are dollar-prefixed; ratings read "+ stars". */
  lemma ChipTextRules(v: string)
    ensures ChipText(Bedrooms, "1") == "1+ bedroom"
    ensures v != "1" ==> ChipText(Bedrooms, v) == v + "+ bedrooms"
    ensures ChipText(MinPrice, v)[1..] == v && ChipText(MinPrice, v)[0] == '$'
    ensures ChipText(MaxPrice, v)[1..] == v && ChipText(MaxPrice, v)[0] == '$'
    ensures ChipText(MinRating, v) == v + "+ stars"
  {
    assert "1" + "+ " + "bedroom" == "1+ bedroom";
  }

  /** A known type value shows its label; any other value is shown as it is. */
  lemma TypeChipRules(v: string)
    ensures ChipText(PropertyType, "villa") == "Villa"
    ensures v !in ["", "apartment", "house", "villa", "cabin"] ==> ChipText(PropertyType, v) == v
  {
    assert PropertyTypeOptions[3] == ("villa", "Villa");
  }

  /** One chip per non-empty filter, in record order: key and shown text. */
  function ActiveChips(f: Filters): (chips: seq<(FilterKey, string)>)
    ensures forall k :: (exists t :: (k, t) in chips) <==> f.Get(k) != ""
    ensures forall k, t :: (k, t) in chips ==> t == ChipText(k, f.Get(k))
    ensures forall i, j :: 0 <= i < j < |chips| ==> KeyIndex(chips[i].0) < KeyIndex(chips[j].0)
  {
    ChipsFrom(0, f)
  }

  /** The `i`-th field of the record is the key at position `i`. */
  lemma KeyIndexOfOrder(n: nat)
    requires n < |FilterOrder|
    ensures KeyIndex(FilterOrder[n]) == n
  {
  }

  /** The chips of the record's fields from position `n` on. */
  function ChipsFrom(n: nat, f: Filters): (chips: seq<(FilterKey, string)>)
    requires n <= |FilterOrder|
    ensures forall k :: (exists t :: (k, t) in chips) <==> n <= KeyIndex(k) && f.Get(k) != ""
    ensures forall k, t :: (k, t) in chips ==> t == ChipText(k, f.Get(k))
    ensures forall i :: 0 <= i < |chips| ==> n <= KeyIndex(chips[i].0)
    ensures forall i, j :: 0 <= i < j < |chips| ==> KeyIndex(chips[i].0) < KeyIndex(chips[j].0)
    decreases |FilterOrder| - n
  {
    if n == |FilterOrder| then []
    else
      var k := FilterOrder[n];
      KeyIndexOfOrder(n);
      var rest := ChipsFrom(n + 1, f);
      if f.Get(k) == "" then rest else [(k, ChipText(k, f.Get(k)))] + rest
  }

  const FetchErrorMessage := "Failed to load properties. Please try again later."

  /** The page's state: what it shows and what it will ask the server for. */
  class ListingController {
    var properties: seq<Property>
    var loading: bool
    var error: Option<string>
    var searchQuery: string
    var filters: Filters
    var favorites: set<string>

    /** Lines 22-34: loading, nothing shown, no search, no filters, no favourites. */
    constructor ()
      ensures properties == [] && loading && error == None
      ensures searchQuery == "" && filters == NoFilters && favorites == {}
      ensures !HasActiveFilters(filters, searchQuery)
    {
      properties := [];
      loading := true;
      error := None;
      searchQuery := "";
      filters := NoFilters;
      favorites := {};
    }

    function Active(): bool
      reads this
    {
      HasActiveFilters(filters, searchQuery)
    }

    /** Typing in the search box. */
    method SetSearchQuery(q: string)
      modifies this`searchQuery
      ensures searchQuery == q
    {
      searchQuery := q;
    }

    /** `handleFilterChange`: exactly the named field changes. */
    method HandleFilterChange(k: FilterKey, v: string)
      modifies this`filters
      ensures filters == old(filters).With(k, v)
      ensures filters.Get(k) == v
      ensures forall other :: other != k ==> filters.Get(other) == old(filters).Get(other)
    {
      filters := filters.With(k, v);
    }

    /** `clearFilters`: every filter and the search text emptied in one step. */
    method ClearFilters()
      modifies this`filters, this`searchQuery
      ensures filters == NoFilters && searchQuery == ""
      ensures !Active()
    {
      filters := NoFilters;
      searchQuery := "";
    }

    /** The close button of one filter chip (lines 341-345). */
    method RemoveFilterChip(k: FilterKey)
      modifies this`filters
      ensures filters == old(filters).With(k, "")
      ensures forall other :: other != k ==> filters.Get(other) == old(filters).Get(other)
    {
      filters := filters.With(k, "");
    }

    /** The close button of the search chip (line 310). */
    method RemoveSearchChip()
      modifies this`searchQuery
      ensures searchQuery == ""
    {
      searchQuery := "";
    }

    /** `handleFavoriteToggle`: copy the set, then add or delete the id. */
    method HandleFavoriteToggle(id: string, isFavorite: bool)
      modifies this`favorites
      ensures favorites == UpdateFavorites(old(favorites), id, isFavorite)
    {
      var next := favorites;
      if isFavorite {
        next := next + {id};
      } else {
        next := next - {id};
      }
      favorites := next;
    }

    /** The start of `fetchProperties`: loading is raised and the parameters are built. */
    method StartFetch() returns (params: seq<Param>)
      modifies this`loading
      ensures loading
      ensures params == QueryParams(searchQuery, filters)
    {
      loading := true;
      params := BuildParams(searchQuery, filters);
    }

    /** A response arrived: show it, clear the error, stop loading. */
    method FetchSucceeded(data: seq<Property>)
      modifies this`properties, this`error, this`loading
      ensures properties == data && error == None && !loading
    {
      properties := data;
      error := None;
      loading := false;
    }

    /** The request failed: fixed message, nothing shown, stop loading. */
    method FetchFailed()
      modifies this`properties, this`error, this`loading
      ensures error == Some(FetchErrorMessage) && properties == [] && !loading
    {
      error := Some(FetchErrorMessage);
      properties := [];
      loading := false;
    }
  }
}
