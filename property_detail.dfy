/** The property detail page (src/components/pages/PropertyDetail.jsx): loading the
    record named by the route, its carousel and thumbnails, and its favorite button. */
module Detail {
  import opened Wrappers
  import opened Records
  import opened Favorites
  import opened Properties
  import opened Carousel
  import opened FavoriteButton

  class PropertyDetailPage {
    var property: Option<Property>
    var loading: bool
    var error: Option<string>
    var currentImageIndex: int
    var isFavorite: bool
    var favoriteLoading: bool

    /** The carousel index points at one of the loaded record's images. */
    predicate IndexInRange()
      reads this
    {
      property.Some? && 0 <= currentImageIndex < |property.value.images|
    }

    constructor ()
      ensures property == None && loading && error == None
      ensures currentImageIndex == 0 && !isFavorite && !favoriteLoading
    {
      property := None;
      loading := true;
      error := None;
      currentImageIndex := 0;
      isFavorite := false;
      favoriteLoading := false;
    }

    /** `loadProperty` for the route's id. The carousel index is NOT reset, so it
        fits the new record only when that record has more images than the index. */
    method LoadProperty(store: PropertyService, id: int)
      modifies this
      ensures currentImageIndex == old(currentImageIndex) && isFavorite == old(isFavorite)
      ensures favoriteLoading == old(favoriteLoading) && !loading
      ensures (exists i :: 0 <= i < |store.data| && store.data[i].id == id) ==>
        && property == Some(store.data[IndexOfId(store.data, id)])
        && error == None
        && (IndexInRange() <==> 0 <= old(currentImageIndex) < |property.value.images|)
      ensures (forall i :: 0 <= i < |store.data| ==> store.data[i].id != id) ==>
        property == old(property) && error == Some("Property not found")
    {
      loading := true;
      error := None;
      var r := store.GetById(id);
      if r.Ok? {
        property := Some(r.value);
      } else {
        error := Some(r.message);
      }
      loading := false;
    }

    /** The status check run when a record is loaded; a failed read is ignored. */
    method FinishFavoriteCheck(outcome: Result<bool>)
      modifies this
      ensures outcome.Ok? ==> isFavorite == outcome.value
      ensures outcome.Err? ==> isFavorite == old(isFavorite)
      ensures property == old(property) && currentImageIndex == old(currentImageIndex)
      ensures loading == old(loading) && error == old(error) && favoriteLoading == old(favoriteLoading)
    {
      if outcome.Ok? {
        isFavorite := outcome.value;
      }
    }

    /** `checkFavoriteStatus`, run by the effect only once a record is loaded. */
    method CheckFavoriteStatus(store: FavoritesService)
      requires property.Some?
      modifies this
      ensures property == old(property) && currentImageIndex == old(currentImageIndex)
      ensures loading == old(loading) && error == old(error) && favoriteLoading == old(favoriteLoading)
      ensures isFavorite == Has(store.data, property.value.id)
    {
      var b := store.IsFavorite(property.value.id);
      FinishFavoriteCheck(Ok(b));
    }

    /** The end of `handleFavoriteToggle`, given the store's answer. */
    method FinishToggle(outcome: Result<Favorite>) returns (toast: string)
      modifies this
      ensures isFavorite == FlagAfter(outcome, old(isFavorite))
      ensures toast == ToggleToast(outcome, old(isFavorite))
      ensures !favoriteLoading
      ensures property == old(property) && currentImageIndex == old(currentImageIndex)
      ensures loading == old(loading) && error == old(error)
    {
      toast := ToggleToast(outcome, isFavorite);
      if outcome.Ok? {
        isFavorite := !isFavorite;
      }
      favoriteLoading := false;
    }

    /** `handleFavoriteToggle`; the button exists only once a record is loaded. */
    method HandleFavoriteToggle(store: FavoritesService, now: int) returns (toast: string)
      requires property.Some?
      modifies this, store
      ensures property == old(property) && currentImageIndex == old(currentImageIndex)
      ensures loading == old(loading) && error == old(error) && !favoriteLoading
      ensures store.data == Toggled(old(store.data), property.value.id, now)
      ensures isFavorite == !old(isFavorite)
      ensures toast == (if old(isFavorite) then "Removed from favorites" else "Added to favorites")
      ensures Label(isFavorite, "Saved") == (if old(isFavorite) then "Save" else "Saved")
      ensures Unique(old(store.data)) && old(isFavorite) == Has(old(store.data), property.value.id) ==>
        isFavorite == Has(store.data, property.value.id)
    {
      favoriteLoading := true;
      var r := store.Toggle(property.value.id, now);
      toast := FinishToggle(r);
    }

    /** The next-image button, drawn for a record with several images. The index may
        be left over from a record with more images (`LoadProperty` keeps it); from
        there the button counts on past the end and never wraps. */
    method NextImage()
      requires property.Some? && |property.value.images| > 1 && 0 <= currentImageIndex
      modifies this
      ensures property == old(property) && 0 <= currentImageIndex
      ensures isFavorite == old(isFavorite) && favoriteLoading == old(favoriteLoading)
      ensures loading == old(loading) && error == old(error)
      ensures currentImageIndex == Next(old(currentImageIndex), |property.value.images|)
      ensures old(IndexInRange()) ==> IndexInRange()
      ensures old(currentImageIndex) >= |property.value.images| ==>
        currentImageIndex == old(currentImageIndex) + 1
    {
      StepsNonNegative(currentImageIndex, |property.value.images|);
      if IndexInRange() {
        StepsInRange(currentImageIndex, |property.value.images|);
      }
      currentImageIndex := Next(currentImageIndex, |property.value.images|);
    }

    /** The previous-image button, drawn for a record with several images; from a
        left-over index past the end it steps back by one. */
    method PrevImage()
      requires property.Some? && |property.value.images| > 1 && 0 <= currentImageIndex
      modifies this
      ensures property == old(property) && 0 <= currentImageIndex
      ensures isFavorite == old(isFavorite) && favoriteLoading == old(favoriteLoading)
      ensures loading == old(loading) && error == old(error)
      ensures currentImageIndex == Prev(old(currentImageIndex), |property.value.images|)
      ensures old(IndexInRange()) ==> IndexInRange()
      ensures old(currentImageIndex) >= |property.value.images| ==>
        currentImageIndex == old(currentImageIndex) - 1
    {
      StepsNonNegative(currentImageIndex, |property.value.images|);
      if IndexInRange() {
        StepsInRange(currentImageIndex, |property.value.images|);
      }
      currentImageIndex := Prev(currentImageIndex, |property.value.images|);
    }

    /** A thumbnail click: one thumbnail per image, shown for several images. */
    method SelectImage(index: int)
      requires property.Some? && |property.value.images| > 1
      requires 0 <= index < |property.value.images|
      modifies this
      ensures IndexInRange() && currentImageIndex == index && property == old(property)
      ensures isFavorite == old(isFavorite) && favoriteLoading == old(favoriteLoading)
      ensures loading == old(loading) && error == old(error)
    {
      currentImageIndex := index;
    }
  }

  /** A stale index after navigation: three images, the third shown, then a
      one-image record loaded; the index stays 2 and points past its images. */
  method StaleIndexExample(store: PropertyService, first: Property, second: Property)
    returns (index: int, imageCount: int)
    requires |first.images| == 3 && |second.images| == 1 && first.id != second.id
    requires store.data == [first, second]
    ensures index == 2 && imageCount == 1
  {
    var page := new PropertyDetailPage();
    assert store.data[0].id == first.id;
    page.LoadProperty(store, first.id);
    assert page.property == Some(first);
    page.SelectImage(2);
    assert store.data[1].id == second.id;
    page.LoadProperty(store, second.id);
    assert page.property == Some(second);
    assert !page.IndexInRange();
    index := page.currentImageIndex;
    imageCount := |page.property.value.images|;
  }
}
