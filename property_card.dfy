/** A property card (src/components/molecules/PropertyCard.jsx): its image carousel
    and its favorite button. */
module Card {
  import opened Wrappers
  import opened Records
  import opened Favorites
  import opened Carousel
  import opened FavoriteButton

  class PropertyCard {
    const property: Property
    var currentImageIndex: int
    var isFavorite: bool
    var isLoading: bool
    /** How many times `onFavoriteChange` was called. */
    var favoriteChanges: nat

    /** The carousel index points at one of the images (or is 0 when there are none). */
    ghost predicate Valid()
      reads this
    {
      if |property.images| == 0 then currentImageIndex == 0
      else 0 <= currentImageIndex < |property.images|
    }

    constructor (property: Property)
      ensures this.property == property && Valid()
      ensures currentImageIndex == 0 && !isFavorite && !isLoading && favoriteChanges == 0
    {
      this.property := property;
      currentImageIndex := 0;
      isFavorite := false;
      isLoading := false;
      favoriteChanges := 0;
    }

    /** The end of the mount-time status check: a failed read is ignored. */
    method FinishFavoriteCheck(outcome: Result<bool>)
      modifies this
      ensures outcome.Ok? ==> isFavorite == outcome.value
      ensures outcome.Err? ==> isFavorite == old(isFavorite)
      ensures currentImageIndex == old(currentImageIndex) && isLoading == old(isLoading)
      ensures favoriteChanges == old(favoriteChanges)
    {
      if outcome.Ok? {
        isFavorite := outcome.value;
      }
    }

    /** The mount-time status check against the store. */
    method CheckFavoriteStatus(store: FavoritesService)
      modifies this
      ensures isFavorite == Has(store.data, property.id)
      ensures currentImageIndex == old(currentImageIndex) && isLoading == old(isLoading)
      ensures favoriteChanges == old(favoriteChanges)
    {
      var b := store.IsFavorite(property.id);
      FinishFavoriteCheck(Ok(b));
    }

    /** The end of `handleFavoriteToggle`, given the store's answer: on success the
        flag flips and the parent is told once; the toast is read off the old flag. */
    method FinishToggle(outcome: Result<Favorite>) returns (toast: string)
      modifies this
      ensures isFavorite == FlagAfter(outcome, old(isFavorite))
      ensures toast == ToggleToast(outcome, old(isFavorite))
      ensures favoriteChanges == old(favoriteChanges) + (if outcome.Ok? then 1 else 0)
      ensures !isLoading && currentImageIndex == old(currentImageIndex)
      ensures old(Valid()) ==> Valid()
    {
      toast := ToggleToast(outcome, isFavorite);
      if outcome.Ok? {
        isFavorite := !isFavorite;
        favoriteChanges := favoriteChanges + 1;
      }
      isLoading := false;
    }

    /** `handleFavoriteToggle` against the store, run without interruption. */
    method HandleFavoriteToggle(store: FavoritesService, now: int) returns (toast: string)
      modifies this, store
      ensures store.data == Toggled(old(store.data), property.id, now)
      ensures currentImageIndex == old(currentImageIndex) && !isLoading
      ensures old(Valid()) ==> Valid()
      ensures isFavorite == !old(isFavorite) && favoriteChanges == old(favoriteChanges) + 1
      ensures toast == (if old(isFavorite) then "Removed from favorites" else "Added to favorites")
      ensures Unique(old(store.data)) && old(isFavorite) == Has(old(store.data), property.id) ==>
        isFavorite == Has(store.data, property.id)
    {
      isLoading := true;
      var r := store.Toggle(property.id, now);
      toast := FinishToggle(r);
    }

    /** The next-image button, present only when there are several images. */
    method NextImage()
      requires Valid() && |property.images| > 1
      modifies this
      ensures Valid()
      ensures currentImageIndex == Next(old(currentImageIndex), |property.images|)
      ensures isFavorite == old(isFavorite) && favoriteChanges == old(favoriteChanges)
      ensures isLoading == old(isLoading)
    {
      StepsInRange(currentImageIndex, |property.images|);
      currentImageIndex := Next(currentImageIndex, |property.images|);
    }

    /** The previous-image button, present only when there are several images. */
    method PrevImage()
      requires Valid() && |property.images| > 1
      modifies this
      ensures Valid()
      ensures currentImageIndex == Prev(old(currentImageIndex), |property.images|)
      ensures isFavorite == old(isFavorite) && favoriteChanges == old(favoriteChanges)
      ensures isLoading == old(isLoading)
    {
      StepsInRange(currentImageIndex, |property.images|);
      currentImageIndex := Prev(currentImageIndex, |property.images|);
    }
  }
}
