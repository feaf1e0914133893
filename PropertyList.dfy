/**
 * components/property/PropertyList.tsx: which view the list shows and the
 * id a card click reports.
 */
module PropertyList {
  import opened Wrappers
  import opened Text
  import opened PropertyTypes

  const SkeletonCount := 8
  const ErrorHeading := "Error loading properties"
  const NoneFoundText := "No properties found"

  /** One card and the id its click passes to `onPropertyClick`. */
  datatype ListCard = ListCard(property: Property, clickId: string)

  datatype ListView =
    | Skeletons(count: nat)
    | ListError(heading: string, message: string)
    | NoneFound(text: string)
    | CardList(cards: seq<ListCard>)

  function Cards(properties: seq<Property>): (cards: seq<ListCard>)
    ensures |cards| == |properties|
    ensures forall i :: 0 <= i < |properties| ==> cards[i].property == properties[i]
    ensures forall i :: 0 <= i < |properties| ==> cards[i].clickId == properties[i].id
  {
    seq(|properties|, i requires 0 <= i < |properties| => ListCard(properties[i], properties[i].id))
  }

  /** Eight placeholders while loading, whatever else holds; then a truthy error; then the empty message; then the cards. */
  function Render(properties: seq<Property>, loading: bool, error: Option<string>): (v: ListView)
    ensures loading ==> v == Skeletons(SkeletonCount)
    ensures !loading && Truthy(error) ==> v == ListError(ErrorHeading, error.value)
    ensures !loading && !Truthy(error) && properties == [] ==> v == NoneFound(NoneFoundText)
    ensures v.CardList? <==> !loading && !Truthy(error) && properties != []
    ensures v.CardList? ==> v.cards == Cards(properties)
  {
    if loading then Skeletons(SkeletonCount)
    else if Truthy(error) then ListError(ErrorHeading, error.value)
    else if |properties| == 0 then NoneFound(NoneFoundText)
    else CardList(Cards(properties))
  }

  /** Clicking the card at position `i` reports the id of the `i`-th property. */
  lemma ClickReportsId(properties: seq<Property>, i: nat)
    requires i < |properties|
    ensures Render(properties, false, None).CardList?
    ensures Render(properties, false, None).cards[i].clickId == properties[i].id
  {
  }
}
