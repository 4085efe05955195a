/** The favorites page (src/components/pages/Favorites.jsx): the favorites joined with
    their property records, the page's own sort, and clear-all. */
module FavoritesPage {
  import opened Wrappers
  import opened Records
  import opened StableSort
  import opened Favorites
  import opened Properties

  /** A property record together with the time its favorite was saved. */
  datatype SavedProperty = SavedProperty(property: Property, savedAt: int)

  /** The join by position: the i-th record gets the i-th favorite's savedAt. */
  function Join(ps: seq<Property>, favs: seq<Favorite>): (r: seq<SavedProperty>)
    requires |ps| == |favs|
    ensures |r| == |favs|
    ensures forall i :: 0 <= i < |r| ==> r[i].property == ps[i] && r[i].savedAt == favs[i].savedAt
  {
    if ps == [] then [] else [SavedProperty(ps[0], favs[0].savedAt)] + Join(ps[1..], favs[1..])
  }

  /** Every favorite's property is in the table. */
  predicate AllFound(data: seq<Property>, favs: seq<Favorite>)
  {
    forall i :: 0 <= i < |favs| ==> IndexOfId(data, favs[i].propertyId) != -1
  }

  /** The rank each sort key orders by, ascending; `None` for an unhandled key. */
  function SavedRank(sortBy: string): Option<SavedProperty -> int>
  {
    if sortBy == "saved-newest" then Some((s: SavedProperty) => -s.savedAt)
    else if sortBy == "saved-oldest" then Some((s: SavedProperty) => s.savedAt)
    else if sortBy == "price-low" then Some((s: SavedProperty) => s.property.price)
    else if sortBy == "price-high" then Some((s: SavedProperty) => -s.property.price)
    else if sortBy == "beds-high" then Some((s: SavedProperty) => -s.property.bedrooms)
    else None
  }

  const DefaultSort := "saved-newest"

  /** The values the sort dropdown offers. */
  function SortOptions(): (r: seq<string>)
    ensures |r| == 5 && r[0] == DefaultSort
  {
    ["saved-newest", "saved-oldest", "price-low", "price-high", "beds-high"]
  }

  /** `getSortedProperties`: a sorted copy. */
  function SortSaved(properties: seq<SavedProperty>, sortBy: string): seq<SavedProperty>
  {
    match SavedRank(sortBy)
    case None => properties
    case Some(rank) => SortByRank(properties, rank)
  }

  /** Every dropdown value is a key the switch handles. */
  lemma OptionsAreHandled(i: nat)
    requires i < |SortOptions()|
    ensures SavedRank(SortOptions()[i]).Some?
  {
  }

  /** Whatever the key, the page shows exactly its saved listings. */
  lemma SortSavedPermutation(properties: seq<SavedProperty>, sortBy: string)
    ensures multiset(SortSaved(properties, sortBy)) == multiset(properties)
  {
    if SavedRank(sortBy).Some? {
      SortPermutation(properties, SavedRank(sortBy).value);
    }
  }

  /** Each handled key orders the page by its field in its direction. */
  lemma SortSavedOrder(properties: seq<SavedProperty>, sortBy: string, i: int, j: int)
    requires 0 <= i < j < |SortSaved(properties, sortBy)|
    ensures var t := SortSaved(properties, sortBy);
      && (sortBy == "saved-newest" ==> t[i].savedAt >= t[j].savedAt)
      && (sortBy == "saved-oldest" ==> t[i].savedAt <= t[j].savedAt)
      && (sortBy == "price-low" ==> t[i].property.price <= t[j].property.price)
      && (sortBy == "price-high" ==> t[i].property.price >= t[j].property.price)
      && (sortBy == "beds-high" ==> t[i].property.bedrooms >= t[j].property.bedrooms)
  {
    if SavedRank(sortBy).Some? {
      var rank := SavedRank(sortBy).value;
      SortSorted(properties, rank);
      assert rank(SortSaved(properties, sortBy)[i]) <= rank(SortSaved(properties, sortBy)[j]);
    }
  }

  /** Listings that tie on the key keep their order. */
  lemma SortSavedStable(properties: seq<SavedProperty>, sortBy: string)
    requires SavedRank(sortBy).Some?
    ensures Stable(properties, SortSaved(properties, sortBy), SavedRank(sortBy).value)
  {
    SortStable(properties, SavedRank(sortBy).value);
  }

  /** An unhandled key keeps the joined order. */
  lemma UnknownKeyKeepsOrder(properties: seq<SavedProperty>, sortBy: string)
    requires sortBy !in SortOptions()
    ensures SortSaved(properties, sortBy) == properties
  {
  }

  /** The store's list after deleting each favorite's id in turn (a missing id
      leaves the list as it is). */
  function AfterDeletes(data: seq<Favorite>, favs: seq<Favorite>): seq<Favorite>
  {
    if favs == [] then data
    else Removed(AfterDeletes(data, favs[..|favs| - 1]), favs[|favs| - 1].propertyId)
  }

  /** Every one of those deletes found its id. */
  ghost predicate AllDeleted(data: seq<Favorite>, favs: seq<Favorite>)
  {
    favs == [] ||
    (AllDeleted(data, favs[..|favs| - 1]) &&
     Has(AfterDeletes(data, favs[..|favs| - 1]), favs[|favs| - 1].propertyId))
  }

  /** The deletes keep ids unique. */
  lemma {:induction false} AfterDeletesUnique(data: seq<Favorite>, favs: seq<Favorite>)
    requires Unique(data)
    ensures Unique(AfterDeletes(data, favs))
  {
    if favs != [] {
      AfterDeletesUnique(data, favs[..|favs| - 1]);
      RemovedUnique(AfterDeletes(data, favs[..|favs| - 1]), favs[|favs| - 1].propertyId);
    }
  }

  /** With unique ids in the store, when every delete succeeds no listed id is left. */
  lemma {:induction false} ClearedLeavesNoListedId(data: seq<Favorite>, favs: seq<Favorite>, i: int)
    requires Unique(data) && AllDeleted(data, favs)
    requires 0 <= i < |favs|
    ensures !Has(AfterDeletes(data, favs), favs[i].propertyId)
  {
    var init := favs[..|favs| - 1];
    var last := favs[|favs| - 1].propertyId;
    AfterDeletesUnique(data, init);
    RemovedMembership(AfterDeletes(data, init), last, favs[i].propertyId);
    if i < |favs| - 1 {
      assert favs[i] == init[i];
      ClearedLeavesNoListedId(data, init, i);
    }
  }

  class FavoritesPageState {
    const favStore: FavoritesService
    const propStore: PropertyService
    var favorites: seq<Favorite>
    var properties: seq<SavedProperty>
    var loading: bool
    var error: Option<string>
    var sortBy: string

    constructor (favStore: FavoritesService, propStore: PropertyService)
      ensures this.favStore == favStore && this.propStore == propStore
      ensures favorites == [] && properties == [] && loading && error == None
      ensures sortBy == DefaultSort
    {
      this.favStore := favStore;
      this.propStore := propStore;
      favorites := [];
      properties := [];
      loading := true;
      error := None;
      sortBy := DefaultSort;
    }

    /** `loadFavorites`: the favorites, then one lookup per favorite; any failed
        lookup sets the error and leaves the listed properties as they were. */
    method LoadFavorites()
      modifies this
      ensures favorites == favStore.data && !loading && sortBy == old(sortBy)
      ensures AllFound(propStore.data, favorites) ==>
        && error == None
        && |properties| == |favorites|
        && forall i :: 0 <= i < |properties| ==>
             && properties[i].property == propStore.data[IndexOfId(propStore.data, favorites[i].propertyId)]
             && properties[i].property.id == favorites[i].propertyId
             && properties[i].savedAt == favorites[i].savedAt
      ensures !AllFound(propStore.data, favorites) ==>
        error == Some("Property not found") && properties == old(properties)
    {
      loading := true;
      error := None;
      var list := favStore.GetAll();
      favorites := list;
      var found: seq<Property> := [];
      var i := 0;
      var failed := false;
      while i < |list| && !failed
        invariant 0 <= i <= |list| && |found| == i
        invariant forall k :: 0 <= k < i ==>
          IndexOfId(propStore.data, list[k].propertyId) != -1 &&
          found[k] == propStore.data[IndexOfId(propStore.data, list[k].propertyId)]
        invariant failed ==> i < |list| && IndexOfId(propStore.data, list[i].propertyId) == -1
        invariant favorites == list && error == None && properties == old(properties)
        invariant sortBy == old(sortBy)
        decreases |list| - i, !failed
      {
        var r := propStore.GetById(list[i].propertyId);
        if r.Err? {
          failed := true;
        } else {
          found := found + [r.value];
          i := i + 1;
        }
      }
      if failed {
        error := Some("Property not found");
      } else {
        properties := Join(found, list);
      }
      loading := false;
    }

    /** `getSortedProperties` for the current key; the page's own list is untouched. */
    method GetSortedProperties() returns (r: seq<SavedProperty>)
      ensures r == SortSaved(properties, sortBy)
      ensures multiset(r) == multiset(properties)
    {
      r := SortSaved(properties, sortBy);
      SortSavedPermutation(properties, sortBy);
    }

    method SetSortBy(key: string)
      modifies this
      ensures sortBy == key
      ensures favorites == old(favorites) && properties == old(properties)
      ensures loading == old(loading) && error == old(error)
    {
      sortBy := key;
    }

    /** `handleClearAll`, given the user's answer to the confirmation: deletes every
        listed favorite; the lists are emptied only when every delete succeeded. */
    method ClearAll(confirmed: bool) returns (cleared: bool)
      modifies this, favStore
      ensures confirmed ==> favStore.data == AfterDeletes(old(favStore.data), old(favorites))
      ensures !confirmed ==> favStore.data == old(favStore.data)
      ensures sortBy == old(sortBy) && loading == old(loading) && error == old(error)
      ensures cleared <==> confirmed && AllDeleted(old(favStore.data), old(favorites))
      ensures cleared ==> favorites == [] && properties == []
      ensures !cleared ==> favorites == old(favorites) && properties == old(properties)
      ensures cleared && Unique(old(favStore.data)) ==>
        forall i :: 0 <= i < |old(favorites)| ==> !Has(favStore.data, old(favorites)[i].propertyId)
    {
      cleared := false;
      if !confirmed {
        return;
      }
      var list := favorites;
      var failed := DeleteAll(list);
      if !failed {
        favorites := [];
        properties := [];
        cleared := true;
        if Unique(old(favStore.data)) {
          forall k | 0 <= k < |list| ensures !Has(favStore.data, list[k].propertyId) {
            ClearedLeavesNoListedId(old(favStore.data), list, k);
          }
        }
      }
    }

    /** The deletes of clear-all, one per listed favorite, each allowed to fail. */
    method DeleteAll(list: seq<Favorite>) returns (failed: bool)
      modifies favStore
      ensures favStore.data == AfterDeletes(old(favStore.data), list)
      ensures failed <==> !AllDeleted(old(favStore.data), list)
    {
      ghost var d0 := favStore.data;
      failed := false;
      var i := 0;
      while i < |list|
        invariant 0 <= i <= |list|
        invariant favStore.data == AfterDeletes(d0, list[..i])
        invariant failed <==> !AllDeleted(d0, list[..i])
      {
        assert list[..i + 1][..i] == list[..i];
        var r := favStore.Delete(list[i].propertyId);
        if r.Err? {
          failed := true;
        }
        i := i + 1;
      }
      assert list[..i] == list;
    }
  }
}
