/**
 * components/property/PropertyCard.tsx: which image a card shows, how the
 * amenities are cut short, the singular and plural words, and where a
 * click on the card or on its favourite button goes.
 */
module PropertyCard {
  import opened Wrappers
  import opened Text
  import opened PropertyTypes

  const PlaceholderImage := "/placeholder-property.jpg"
  const ShownAmenities := 3
  const RemoveFavoriteLabel := "Remove from favorites"
  const AddFavoriteLabel := "Add to favorites"

  /** `property.images?.[0]`: the first gallery image, if there is a gallery with one. */
  function FirstImage(p: Property): Option<string> {
    if p.images.Some? && |p.images.value| > 0 then Some(p.images.value[0]) else None
  }

  /** `images?.[0] || imageUrl || '/placeholder-property.jpg'`. */
  function ImageSource(p: Property): (src: string)
    ensures src != ""
    ensures Truthy(FirstImage(p)) ==> src == p.images.value[0]
    ensures !Truthy(FirstImage(p)) && p.imageUrl != "" ==> src == p.imageUrl
    ensures !Truthy(FirstImage(p)) && p.imageUrl == "" ==> src == PlaceholderImage
  {
    if Truthy(FirstImage(p)) then FirstImage(p).value
    else if p.imageUrl != "" then p.imageUrl
    else PlaceholderImage
  }

  /** The card always has an image to show, and it is one of the three candidates. */
  lemma ImageSourceCandidates(p: Property)
    ensures ImageSource(p) in {p.imageUrl, PlaceholderImage}
         || (p.images.Some? && ImageSource(p) in p.images.value)
  {
  }

  /** The amenity chips and the `+N more` note. */
  datatype AmenityBlock = AmenityBlock(chips: seq<string>, more: Option<string>)

  /** The number a `+N more` note reads as. */
  function NoteCount(note: string): Option<int> {
    if |note| > 6 then ParseNumber(note[1..|note| - 5]) else None
  }

  /** `+N more`. */
  function MoreNote(hidden: nat): (note: string)
    ensures |note| > 6 && note[0] == '+' && note[|note| - 5..] == " more"
    ensures NoteCount(note) == Some(hidden as int)
  {
    ParseNumberOfDecimal(hidden);
    var note := "+" + NatToDecimal(hidden) + " more";
    assert note[1..|note| - 5] == NatToDecimal(hidden);
    assert note[|note| - 5..] == " more";
    note
  }

  /**
   * Lines 123-139: nothing for no amenities; otherwise the first three, and a
   * note iff more remain, whose number makes up the rest.
   */
  function Amenities(amenities: seq<string>): (b: Option<AmenityBlock>)
    ensures b.None? <==> amenities == []
    ensures b.Some? ==> |b.value.chips| == if |amenities| < ShownAmenities then |amenities| else ShownAmenities
    ensures b.Some? ==> b.value.chips == amenities[..|b.value.chips|]
    ensures b.Some? ==> (b.value.more.Some? <==> |amenities| > ShownAmenities)
    ensures b.Some? && b.value.more.None? ==> b.value.chips == amenities
    ensures b.Some? && b.value.more.Some? ==>
      NoteCount(b.value.more.value) == Some(|amenities| - ShownAmenities)
  {
    if amenities == [] then None
    else if |amenities| > ShownAmenities then
      Some(AmenityBlock(amenities[..ShownAmenities], Some(MoreNote(|amenities| - ShownAmenities))))
    else
      Some(AmenityBlock(amenities, None))
  }

  /** `n === 1 ? singular : plural`. */
  function Word(n: int, singular: string, plural: string): (w: string)
    requires singular != plural
    ensures w == singular <==> n == 1
    ensures w == plural <==> n != 1
  {
    if n == 1 then singular else plural
  }

  /** The words beside the guest, review, bedroom and bathroom counts. */
  function GuestWord(p: Property): string { Word(p.maxGuests, "guest", "guests") }
  function ReviewWord(p: Property): string { Word(p.reviewCount, "review", "reviews") }
  function BedWord(p: Property): string { Word(p.bedrooms, "bed", "beds") }
  function BathWord(p: Property): string { Word(p.bathrooms, "bath", "baths") }

  /** `reviewCount || 0`: a falsy count is shown as 0. */
  function ShownReviewCount(p: Property): (n: int)
    ensures n == p.reviewCount
  {
    if p.reviewCount == 0 then 0 else p.reviewCount
  }

  /** Only a count of exactly one takes the singular; zero and every other count take the plural. */
  lemma PluralRules(p: Property)
    ensures GuestWord(p) == "guest" <==> p.maxGuests == 1
    ensures ReviewWord(p) == "review" <==> p.reviewCount == 1
    ensures BedWord(p) == "bed" <==> p.bedrooms == 1
    ensures BathWord(p) == "bath" <==> p.bathrooms == 1
    ensures p.reviewCount == 0 ==> ShownReviewCount(p) == 0 && ReviewWord(p) == "reviews"
  {
  }

  /** The favourite button's accessible name. */
  function FavoriteLabel(isFavorite: bool): (name: string)
    ensures name == RemoveFavoriteLabel <==> isFavorite
    ensures name == AddFavoriteLabel <==> !isFavorite
  {
    if isFavorite then RemoveFavoriteLabel else AddFavoriteLabel
  }

  datatype ClickTarget = FavoriteButton | CardBody

  /** What a click sets off: the favourite callback's argument, and whether the card's own `onClick` runs. */
  datatype CardEvents = CardEvents(favoriteToggled: Option<string>, cardClicked: bool)

  /**
   * A click bubbles from its target up to the card. The favourite button's
   * handler reports the property id and stops propagation, so the card's
   * handler runs only for a click elsewhere on the card.
   */
  function Click(p: Property, target: ClickTarget): (e: CardEvents)
    ensures e.favoriteToggled.Some? <==> target == FavoriteButton
    ensures e.favoriteToggled.Some? ==> e.favoriteToggled.value == p.id
    ensures e.cardClicked <==> target == CardBody
    ensures !(e.favoriteToggled.Some? && e.cardClicked)
  {
    var toggled := if target == FavoriteButton then Some(p.id) else None;
    var propagationStopped := target == FavoriteButton;
    CardEvents(toggled, !propagationStopped)
  }
}
