/**
 * components/property/PropertyGrid.tsx: which view the grid shows, the
 * card it renders for each property, the argument its favourite toggle
 * passes up, and its local `cn` helper.
 */
module PropertyGrid {
  import opened Wrappers
  import opened Text
  import opened Sequences
  import opened PropertyTypes
  import ListingPage

  const NoneFoundText := "No properties found"
  const GridClasses := "grid grid-cols-1 sm:grid-cols-2 lg:grid-cols-3 xl:grid-cols-4 gap-6"

  /** `onFavoriteToggle(property.id, !favorites.has(property.id))`: the id and the state it should take. */
  function ToggleArgs(favorites: set<string>, id: string): (args: (string, bool))
    ensures args.0 == id
    ensures args.1 <==> id !in favorites
  {
    (id, id !in favorites)
  }

  /** One card: its property, whether it is marked favourite, and what its toggle reports. */
  datatype GridCard = GridCard(property: Property, isFavorite: bool, toggle: (string, bool))

  datatype GridView = Spinner | GridError(message: string) | NoneFound(text: string) | Grid(className: string, cards: seq<GridCard>)

  /** `properties.map(...)`: one card per property, in order. */
  function Cards(properties: seq<Property>, favorites: set<string>): (cards: seq<GridCard>)
    ensures |cards| == |properties|
    ensures forall i :: 0 <= i < |properties| ==> cards[i].property == properties[i]
    ensures forall i :: 0 <= i < |properties| ==> (cards[i].isFavorite <==> properties[i].id in favorites)
    ensures forall i :: 0 <= i < |properties| ==> cards[i].toggle == ToggleArgs(favorites, properties[i].id)
  {
    seq(|properties|, i requires 0 <= i < |properties| =>
      GridCard(properties[i], properties[i].id in favorites, ToggleArgs(favorites, properties[i].id)))
  }

  /** The view: loading first, then a truthy error, then the empty message, then the grid. */
  function Render(properties: seq<Property>, loading: bool, error: Option<string>,
                  favorites: set<string>, className: string): (v: GridView)
    ensures loading ==> v == Spinner
    ensures !loading && Truthy(error) ==> v == GridError(error.value)
    ensures !loading && !Truthy(error) && properties == [] ==> v == NoneFound(NoneFoundText)
    ensures v.Grid? <==> !loading && !Truthy(error) && properties != []
    ensures v.Grid? ==> v.cards == Cards(properties, favorites) && v.className == Cn([GridClasses, className])
  {
    if loading then Spinner
    else if Truthy(error) then GridError(error.value)
    else if |properties| == 0 then NoneFound(NoneFoundText)
    else Grid(Cn([GridClasses, className]), Cards(properties, favorites))
  }

  /** With the default empty set, no card is marked favourite. */
  lemma NoFavoritesByDefault(properties: seq<Property>)
    ensures forall c :: c in Cards(properties, {}) ==> !c.isFavorite
  {
  }

  /** A toggle reported by the grid and applied by the listing page flips exactly that id. */
  lemma ToggleFlips(favorites: set<string>, id: string)
    ensures var a := ToggleArgs(favorites, id);
      var after := ListingPage.UpdateFavorites(favorites, a.0, a.1);
      (id in after <==> id !in favorites) && after - {id} == favorites - {id}
  {
  }

  /** Toggling the same card twice restores the favourites. */
  lemma ToggleTwiceRestores(favorites: set<string>, id: string)
    ensures var a := ToggleArgs(favorites, id);
      var once := ListingPage.UpdateFavorites(favorites, a.0, a.1);
      var b := ToggleArgs(once, id);
      ListingPage.UpdateFavorites(once, b.0, b.1) == favorites
  {
    var a := ToggleArgs(favorites, id);
    var once := ListingPage.UpdateFavorites(favorites, a.0, a.1);
    var b := ToggleArgs(once, id);
    var twice := ListingPage.UpdateFavorites(once, b.0, b.1);
    assert forall x :: x in twice <==> x in favorites;
  }

  predicate NonEmptyClass(c: string) {
    c != ""
  }

  /** `classes.filter(Boolean).join(' ')`. */
  function Cn(classes: seq<string>): string {
    Join(Filter(classes, NonEmptyClass), ' ')
  }

  /** Splitting the class string at spaces gives back the non-empty classes, in order. */
  lemma CnKeepsClasses(classes: seq<string>)
    requires forall k :: 0 <= k < |classes| ==> ' ' !in classes[k]
    requires exists k :: 0 <= k < |classes| && classes[k] != ""
    ensures Split(Cn(classes), ' ') == Filter(classes, NonEmptyClass)
  {
    var kept := Filter(classes, NonEmptyClass);
    var k :| 0 <= k < |classes| && classes[k] != "";
    assert classes[k] in kept;
    forall j | 0 <= j < |kept| ensures ' ' !in kept[j] {
      assert kept[j] in classes;
    }
    SplitJoin(kept, ' ');
  }

  /** An empty class name adds nothing: the default grid classes come through unchanged. */
  lemma CnDropsEmpty(c: string)
    ensures Cn([c, ""]) == c
  {
    assert Filter([c, ""], NonEmptyClass) == Filter([c], NonEmptyClass) by {
      FilterAppend([c], [""], NonEmptyClass);
      assert [c, ""] == [c] + [""];
    }
  }
}
