/** The property detail modal (src/components/organisms/PropertyDetailModal.jsx): the
    record it is given, its carousel and its favorite button. */
module Modal {
  import opened Wrappers
  import opened Records
  import opened Favorites
  import opened Carousel
  import opened FavoriteButton

  class PropertyDetailModal {
    /** The record passed in by the parent; `None` renders nothing. */
    var property: Option<Property>
    /** The parent's open flag; a closed modal draws nothing either. */
    var isOpen: bool
    var currentImageIndex: int
    var isFavorite: bool
    var isLoading: bool

    predicate IndexInRange()
      reads this
    {
      property.Some? && 0 <= currentImageIndex < |property.value.images|
    }

    /** The modal draws anything at all only when it is open and has a record. */
    predicate Renders()
      reads this
    {
      isOpen && property.Some?
    }

    constructor (property: Option<Property>, isOpen: bool)
      ensures this.property == property && this.isOpen == isOpen && currentImageIndex == 0
      ensures !isFavorite && !isLoading
      ensures Renders() <==> isOpen && property.Some?
      ensures property.Some? ==> (IndexInRange() <==> |property.value.images| > 0)
    {
      this.property := property;
      this.isOpen := isOpen;
      currentImageIndex := 0;
      isFavorite := false;
      isLoading := false;
    }

    /** The parent passes a new record, and the effect re-reads the flag given the
        read's outcome; a failed read keeps the previous flag. The carousel index is
        not reset. */
    method OnPropertyChange(p: Option<Property>, read: Result<bool>)
      modifies this
      ensures property == p && isOpen == old(isOpen) && currentImageIndex == old(currentImageIndex)
      ensures isLoading == old(isLoading)
      ensures p.Some? && read.Ok? ==> isFavorite == read.value
      ensures p.None? || read.Err? ==> isFavorite == old(isFavorite)
      ensures Renders() <==> old(isOpen) && p.Some?
      ensures p.Some? ==> (IndexInRange() <==> 0 <= old(currentImageIndex) < |p.value.images|)
    {
      property := p;
      if p.Some? && read.Ok? {
        isFavorite := read.value;
      }
    }

    /** The record change as evidently intended: the same effect, but the carousel
        goes back to the first image, so it always points at one of the new record's
        images when it has any. */
    method OnPropertyChangeResetting(p: Option<Property>, read: Result<bool>)
      modifies this
      ensures property == p && isOpen == old(isOpen) && isLoading == old(isLoading)
      ensures currentImageIndex == 0
      ensures p.Some? && read.Ok? ==> isFavorite == read.value
      ensures p.None? || read.Err? ==> isFavorite == old(isFavorite)
      ensures p.Some? ==> (IndexInRange() <==> |p.value.images| > 0)
    {
      OnPropertyChange(p, read);
      currentImageIndex := 0;
    }

    /** The same effect, reading the flag from the store. */
    method OnPropertyChangeFrom(p: Option<Property>, store: FavoritesService)
      modifies this
      ensures property == p && isOpen == old(isOpen) && currentImageIndex == old(currentImageIndex)
      ensures isLoading == old(isLoading)
      ensures p.Some? ==> isFavorite == Has(store.data, p.value.id)
      ensures p.None? ==> isFavorite == old(isFavorite)
    {
      var read: Result<bool> := Ok(false);
      if p.Some? {
        var b := store.IsFavorite(p.value.id);
        read := Ok(b);
      }
      OnPropertyChange(p, read);
    }

    /** The parent opens the modal (a map marker or list entry is clicked) or closes it
        (`onClose`); the record, flag and carousel index are kept. */
    method SetOpen(open: bool)
      modifies this
      ensures isOpen == open && property == old(property)
      ensures currentImageIndex == old(currentImageIndex) && isFavorite == old(isFavorite)
      ensures isLoading == old(isLoading)
      ensures Renders() <==> open && property.Some?
    {
      isOpen := open;
    }

    /** The end of `handleFavoriteToggle`, given the store's answer. */
    method FinishToggle(outcome: Result<Favorite>) returns (toast: string)
      modifies this
      ensures isFavorite == FlagAfter(outcome, old(isFavorite))
      ensures toast == ToggleToast(outcome, old(isFavorite))
      ensures !isLoading
      ensures property == old(property) && isOpen == old(isOpen)
      ensures currentImageIndex == old(currentImageIndex)
    {
      toast := ToggleToast(outcome, isFavorite);
      if outcome.Ok? {
        isFavorite := !isFavorite;
      }
      isLoading := false;
    }

    /** `handleFavoriteToggle`; the button exists only while the modal is drawn. */
    method HandleFavoriteToggle(store: FavoritesService, now: int) returns (toast: string)
      requires Renders()
      modifies this, store
      ensures property == old(property) && isOpen == old(isOpen)
      ensures currentImageIndex == old(currentImageIndex) && !isLoading
      ensures store.data == Toggled(old(store.data), property.value.id, now)
      ensures isFavorite == !old(isFavorite)
      ensures toast == (if old(isFavorite) then "Removed from favorites" else "Added to favorites")
      ensures Label(isFavorite, "Favorited") == (if old(isFavorite) then "Save" else "Favorited")
      ensures Unique(old(store.data)) && old(isFavorite) == Has(old(store.data), property.value.id) ==>
        isFavorite == Has(store.data, property.value.id)
    {
      isLoading := true;
      var r := store.Toggle(property.value.id, now);
      toast := FinishToggle(r);
    }

    /** The next-image button, drawn for a record with several images. The index may
        be left over from a record with more images (`OnPropertyChange` keeps it); from
        there the button counts on past the end and never wraps. */
    method NextImage()
      requires Renders() && |property.value.images| > 1 && 0 <= currentImageIndex
      modifies this
      ensures property == old(property) && isOpen == old(isOpen) && 0 <= currentImageIndex
      ensures isFavorite == old(isFavorite) && isLoading == old(isLoading)
      ensures currentImageIndex == Next(old(currentImageIndex), |property.value.images|)
      ensures old(IndexInRange()) ==> IndexInRange()
      ensures old(currentImageIndex) >= |property.value.images| ==>
        currentImageIndex == old(currentImageIndex) + 1
    {
      StepsNonNegative(currentImageIndex, |property.value.images|);
      if IndexInRange() {
        StepsInRange(currentImageIndex, |property.value.images|);
      }
      currentImageIndex := Next(currentImageIndex, |property.value.images|);
    }

    /** The previous-image button, drawn for a record with several images; from a
        left-over index past the end it steps back by one. */
    method PrevImage()
      requires Renders() && |property.value.images| > 1 && 0 <= currentImageIndex
      modifies this
      ensures property == old(property) && isOpen == old(isOpen) && 0 <= currentImageIndex
      ensures isFavorite == old(isFavorite) && isLoading == old(isLoading)
      ensures currentImageIndex == Prev(old(currentImageIndex), |property.value.images|)
      ensures old(IndexInRange()) ==> IndexInRange()
      ensures old(currentImageIndex) >= |property.value.images| ==>
        currentImageIndex == old(currentImageIndex) - 1
    {
      StepsNonNegative(currentImageIndex, |property.value.images|);
      if IndexInRange() {
        StepsInRange(currentImageIndex, |property.value.images|);
      }
      currentImageIndex := Prev(currentImageIndex, |property.value.images|);
    }
  }

  /** A left-over index in the still-mounted modal: the fifth of five images is shown,
      the parent passes a three-image record, and two presses of the next button go
      to index 6 instead of wrapping. */
  method StaleModalIndexExample(first: Property, second: Property)
    returns (index: int, imageCount: int)
    requires |first.images| == 5 && |second.images| == 3
    ensures index == 6 && imageCount == 3
  {
    var modal := new PropertyDetailModal(Some(first), true);
    modal.NextImage();
    modal.NextImage();
    modal.NextImage();
    modal.NextImage();
    modal.OnPropertyChange(Some(second), Ok(false));
    modal.NextImage();
    modal.NextImage();
    index := modal.currentImageIndex;
    imageCount := |modal.property.value.images|;
  }

  /** The same clicks with the resetting record change: the index stays on one of the
      three images of the new record. */
  method ResetModalIndexExample(first: Property, second: Property)
    returns (index: int, imageCount: int)
    requires |first.images| == 5 && |second.images| == 3
    ensures index == 2 && imageCount == 3 && 0 <= index < imageCount
  {
    var modal := new PropertyDetailModal(Some(first), true);
    modal.NextImage();
    modal.NextImage();
    modal.NextImage();
    modal.NextImage();
    modal.OnPropertyChangeResetting(Some(second), Ok(false));
    modal.NextImage();
    modal.NextImage();
    index := modal.currentImageIndex;
    imageCount := |modal.property.value.images|;
  }
}
