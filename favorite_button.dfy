/** The favorite button logic the card, the detail page and the detail modal share:
    a local flag flipped only when the store's toggle succeeds, and the toast text
    chosen from the flag as it was before the toggle. */
module FavoriteButton {
  import opened Wrappers
  import opened Records
  import opened Favorites

  /** The toast shown after a toggle attempt, given the flag read before it. */
  function ToggleToast(outcome: Result<Favorite>, wasFavorite: bool): string
  {
    if outcome.Err? then "Failed to update favorites"
    else if wasFavorite then "Removed from favorites"
    else "Added to favorites"
  }

  /** A failed toggle keeps the flag and tells the user so, whatever the flag was; a
      successful one flips it and its toast tells the two directions apart. */
  lemma ToggleFeedback(outcome: Result<Favorite>, wasFavorite: bool)
    ensures outcome.Err? ==> FlagAfter(outcome, wasFavorite) == wasFavorite
    ensures outcome.Err? <==> ToggleToast(outcome, wasFavorite) == "Failed to update favorites"
    ensures outcome.Ok? ==> FlagAfter(outcome, wasFavorite) != wasFavorite
    ensures outcome.Ok? ==> ToggleToast(outcome, true) != ToggleToast(outcome, false)
  {
  }

  /** The flag after a toggle attempt: flipped on success, kept on failure. */
  function FlagAfter(outcome: Result<Favorite>, wasFavorite: bool): bool
  {
    if outcome.Ok? then !wasFavorite else wasFavorite
  }

  /** The favorite button's text: `onText` ("Saved" on the detail page, "Favorited"
      in the modal) for a favorite, "Save" otherwise. */
  function Label(isFavorite: bool, onText: string): string
  {
    if isFavorite then onText else "Save"
  }

  /** A flag that agrees with the store before an uninterrupted toggle agrees after it,
      and the success toast then names what the store now holds. */
  lemma FlagTracksStore(data: seq<Favorite>, id: int, now: int, flag: bool)
    requires Unique(data) && flag == Has(data, id)
    ensures FlagAfter(Ok(Favorite(id, now)), flag) == Has(Toggled(data, id, now), id)
    ensures ToggleToast(Ok(Favorite(id, now)), flag) ==
      (if Has(Toggled(data, id, now), id) then "Added to favorites" else "Removed from favorites")
  {
    ToggledMembership(data, id, now, id);
  }
}
