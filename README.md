# homefinder — a Dafny model of the listing, filtering, favorites and comparison core

homefinder is a single-page real-estate browser. Its core is three in-memory
services — the property table, the favorites store and the saved search filters —
and the page logic built on them: the browse page's search and filter pipeline,
the filter sidebar, the grid and favorites-page sorts, the three-property
comparison with its best-value crowns, and the image carousel and favorite button
of the property card, the detail page and the detail modal.

The model has one Dafny module per source component:

| module | file | source |
|---|---|---|
| `Wrappers`, `Records`, `Text`, `Seqs`, `StableSort` | wrappers, records, text, seqs, stable_sort | shared vocabulary: `Option`/`Result`, the records, ASCII lower-casing and substring search, `Array.prototype.filter`, the stable `Array.prototype.sort` |
| `FilterState` | search_filters.dfy | src/services/api/searchFiltersService.js |
| `Filtering` | filtering.dfy | the filter stages shared by src/services/api/propertyService.js and src/components/pages/Browse.jsx |
| `Properties` | properties.dfy | src/services/api/propertyService.js |
| `Favorites` | favorites.dfy | src/services/api/favoritesService.js |
| `Browse` | browse.dfy | src/components/pages/Browse.jsx |
| `Sidebar` | filter_sidebar.dfy | src/components/molecules/FilterSidebar.jsx |
| `Grid` | grid.dfy | src/components/organisms/PropertyGrid.jsx |
| `FavoritesPage` | favorites_page.dfy | src/components/pages/Favorites.jsx |
| `Compare` | compare.dfy | src/components/pages/Compare.jsx |
| `Carousel`, `FavoriteButton` | carousel.dfy, favorite_button.dfy | the carousel and favorite-button logic the card, detail page and modal share |
| `Card`, `Detail`, `Modal` | property_card.dfy, property_detail.dfy, detail_modal.dfy | src/components/molecules/PropertyCard.jsx, src/components/pages/PropertyDetail.jsx, src/components/organisms/PropertyDetailModal.jsx |

Services and components whose state the source updates step by step are classes
whose fields the methods reassign (`FavoritesService.data`, `PropertyService.data`,
the filter slot, each page's React state); every method's `ensures` ties the new
state to a pure function of the old one, and the lemmas next to those functions
state what the source promises. Pure logic (filter predicates, sorts, best values,
carousel steps) is functions and lemmas.

Modelling conventions:

- A filter bound is `Option<int>` (`Option<real>` for bathrooms): `None` stands for
  every JavaScript falsy value (absent, `null`, `''` and the number 0) and `Some(v)`
  for a truthy value that compares as the number v.
- Property ids, timestamps (`Date.now()`, `toISOString()`) and new record ids are
  integers passed in by the caller.
- Lower-casing is ASCII only.
- Each asynchronous service call is one atomic step. Where a component reacts to a
  call that may fail, a `Finish…` method takes the call's outcome as a parameter so
  both the success and the failure path are modelled; a second method runs the same
  handler against the model's store.

Behaviour of the code that a reader might not expect, and that the model keeps:

- An unrecognised sort key leaves the list in its incoming order; it is not an
  error (the comparator's default branch returns 0).
- A numeric bound of 0 imposes no constraint, because each stage tests the bound's
  truthiness before comparing.
- Every favorites entry carries savedAt, so the favorites page never sorts an entry
  without one.
- A quick price range does not set the minimum at all (see Findings).

## Model

Definitions without a contract of their own have no row; what they mean is stated by
the lemmas and methods in the table that are about them. These include the filter
predicates `Filtering.MatchesSearch` and `Filtering.MatchesFilters`; the store
updates `Favorites.Added`, `Favorites.Removed` and `Favorites.Toggled`; and
`FilterState.Load` and `Sidebar.FromNumber`. They also include
`Sidebar.ToggleType`, `Compare.ToggleSelection`, `Compare.BestValue` and
`Compare.IsBest`; the carousel steps `Carousel.Next` and `Carousel.Prev`; and the
favorite-button helpers `FavoriteButton.ToggleToast`, `FavoriteButton.FlagAfter` and
`FavoriteButton.Label`.

| member | source | states |
|---|---|---|
| Text.Lower | src/components/pages/Browse.jsx:49 | lower-casing keeps the length and maps each character through the ASCII lower-case map |
| Text.LowerIdempotent | src/components/pages/Browse.jsx:49-60 | lower-casing twice is lower-casing once |
| Text.IncludesIgnoringCaseOfTerm | src/components/pages/Browse.jsx:49-60 | a case-insensitive substring test gives the same answer for terms that differ only in letter case |
| Seqs.Keep | src/services/api/propertyService.js:12-43 | the filter result is no longer than its input, holds only input elements satisfying the test, and holds every input element satisfying it |
| Seqs.KeepIsSubsequence | src/services/api/propertyService.js:12-43 | a filter result is a subsequence of its input, order preserved |
| Seqs.KeepKeep | src/services/api/propertyService.js:12-43 | filtering by one test and then another equals one filter by their conjunction |
| Seqs.KeepAll | src/services/api/propertyService.js:10-12 | a test every element passes leaves the list unchanged |
| Seqs.KeepAgree | src/components/pages/Browse.jsx:45-92 | two tests that agree on every element give the same filter result |
| Seqs.KeepAppend | src/components/pages/Browse.jsx:45-92 | filtering distributes over concatenation |
| Seqs.KeepDistinctBy | src/components/pages/Compare.jsx:46 | filtering a list whose keys are distinct leaves them distinct |
| StableSort.SortPermutation | src/components/organisms/PropertyGrid.jsx:19-41 | the sort returns a permutation of its input |
| StableSort.SortSorted | src/components/organisms/PropertyGrid.jsx:22-36 | the sort orders its output by the comparator's key |
| StableSort.SortStable | src/components/organisms/PropertyGrid.jsx:23-35 | for each key value, the elements with that key keep their input order |
| StableSort.SortStableAt | src/components/organisms/PropertyGrid.jsx:23-35 | the elements with one given key value keep their input order |
| StableSort.SortConstantRank | src/components/organisms/PropertyGrid.jsx:37-38 | sorting by a key every element shares returns the input unchanged |
| StableSort.InsertMultiset | src/components/organisms/PropertyGrid.jsx:19-41 | one insertion step adds exactly the inserted element |
| StableSort.InsertSorted | src/components/organisms/PropertyGrid.jsx:22-36 | inserting into a sorted list keeps it sorted |
| StableSort.InsertWithRank | src/components/organisms/PropertyGrid.jsx:23-35 | an inserted element goes before every element of its key already in the list |
| FilterState.MergeComplete | src/services/api/searchFiltersService.js:40-44 | saving a complete filter object returns that object |
| FilterState.MergeKeys | src/services/api/searchFiltersService.js:40-44 | the saved object has every default key, and each key the caller gave wins over its default |
| FilterState.SaveIdempotent | src/services/api/searchFiltersService.js:42 | saving the result of a save returns the same object |
| FilterState.SaveThenLoad | src/services/api/searchFiltersService.js:20 | after a save, reading the slot gives back what the save returned |
| FilterState.EmptyPatchIsDefaults | src/services/api/searchFiltersService.js:6-25 | an empty stored object and an empty slot both read as the defaults |
| FilterState.PropertyTypes | src/services/api/searchFiltersService.js:53-64 | eight distinct property-type names |
| FilterState.PriceRanges | src/services/api/searchFiltersService.js:66-75 | six ranges starting at 0 with increasing minimums; each maximum is the next minimum, and only the last is open |
| FilterState.SearchFiltersService.GetAll | src/services/api/searchFiltersService.js:35-38 | returns what the slot reads as (defaults when empty) |
| FilterState.SearchFiltersService.constructor | src/services/api/searchFiltersService.js:4-15 | the service starts with the storage slot as given |
| FilterState.SearchFiltersService.Save | src/services/api/searchFiltersService.js:40-44 | returns the defaults overridden by the given keys, stores exactly that, and a later read returns it |
| FilterState.SearchFiltersService.Reset | src/services/api/searchFiltersService.js:47-51 | stores and returns exactly the defaults |
| Filtering.Step | src/services/api/propertyService.js:12-43 | one more filter stage narrows the running result to the conjunction of the tests so far |
| Filtering.PriceMinStage | src/services/api/propertyService.js:15-17 | the stage keeps exactly the records at or above a truthy minimum price, and all records otherwise |
| Filtering.PriceMaxStage | src/services/api/propertyService.js:18-20 | the stage keeps exactly the records at or below a truthy maximum price, and all records otherwise |
| Filtering.BedroomsStage | src/services/api/propertyService.js:21-23 | the stage keeps exactly the records with at least a truthy bedroom minimum |
| Filtering.BathroomsStage | src/services/api/propertyService.js:24-26 | the stage keeps exactly the records with at least a truthy bathroom minimum |
| Filtering.TypeStage | src/services/api/propertyService.js:27-31 | a non-empty type list keeps exactly the records of a listed type; an empty one keeps all |
| Filtering.LocationStage | src/services/api/propertyService.js:32-38 | a non-empty location keeps exactly the records whose city, state or street contains it, ignoring case |
| Filtering.SquareFeetStage | src/services/api/propertyService.js:39-41 | the stage keeps exactly the records with at least a truthy square-feet minimum |
| Filtering.ApplyFilterStages | src/services/api/propertyService.js:10-43 | the guarded stages in sequence keep exactly the records satisfying every filter, in table order |
| Filtering.DefaultsKeepAll | src/services/api/propertyService.js:10-12 | with every filter falsy and no type chosen, every record is kept |
| Filtering.PriceBoundsInclusive | src/services/api/propertyService.js:15-20 | a price equal to either bound passes; one unit past either bound fails |
| Filtering.TypeListMeaning | src/services/api/propertyService.js:27-31 | an empty type list imposes nothing; a non-empty one requires membership |
| Filtering.SearchIgnoresTermCase | src/components/pages/Browse.jsx:48-60 | whether a record matches the search does not depend on the term's letter case |
| Properties.IndexOfId | src/services/api/propertyService.js:48 | the position of the first record with the id, or -1 exactly when no record has it |
| Properties.PatchFields | src/services/api/propertyService.js:76-77 | each of the fourteen fields of the merged record is the patch's value when the patch carries it and the old record's value otherwise; an empty patch leaves the record unchanged |
| Properties.Featured | src/services/api/propertyService.js:55-58 | at most six records, all featured, forming a prefix of the featured records in table order |
| Properties.FeaturedIsSubsequence | src/services/api/propertyService.js:55-58 | the featured records are a subsequence of the table |
| Properties.PropertyService.GetAll | src/services/api/propertyService.js:10-44 | the records satisfying every truthy filter, as a subsequence of the table in its order |
| Properties.PropertyService.constructor | src/services/api/propertyService.js:6-8 | the table starts as the given records |
| Properties.PropertyService.GetById | src/services/api/propertyService.js:46-53 | the first record with the id, or "Property not found" exactly when none has it |
| Properties.PropertyService.GetFeatured | src/services/api/propertyService.js:55-58 | the featured prefix described by `Featured` |
| Properties.PropertyService.Create | src/services/api/propertyService.js:60-69 | appends one record carrying the new id and creation time, and returns it |
| Properties.PropertyService.Update | src/services/api/propertyService.js:71-79 | an absent id throws and changes nothing; otherwise only that record changes, to the merge of the patch over it, and the length is unchanged |
| Properties.PropertyService.Delete | src/services/api/propertyService.js:81-89 | an absent id throws and changes nothing; otherwise exactly the matched record is removed and returned |
| Favorites.IndexOf | src/services/api/favoritesService.js:64 | the position of the first entry for the id, or -1 exactly when there is none |
| Favorites.AddedShape | src/services/api/favoritesService.js:46-60 | create on a present id changes nothing; on a new id it appends exactly one entry at the end and keeps the earlier entries |
| Favorites.RemovedShape | src/services/api/favoritesService.js:69-72 | delete on a present id removes one entry and keeps the others in order |
| Favorites.RemovedAt | src/services/api/favoritesService.js:65-70 | after a delete, positions before the removed entry hold the same entries and later positions hold the entries one place further on |
| Favorites.AddedUnique | src/services/api/favoritesService.js:48-58 | create preserves at most one entry per property id |
| Favorites.RemovedUnique | src/services/api/favoritesService.js:69-70 | delete preserves at most one entry per property id |
| Favorites.AddedMembership | src/services/api/favoritesService.js:46-60 | after create, exactly the old ids and the new one are present |
| Favorites.RemovedMembership | src/services/api/favoritesService.js:63-72 | after delete, exactly the old ids other than the deleted one are present |
| Favorites.ToggledMembership | src/services/api/favoritesService.js:75-82 | toggle flips its id's membership and keeps every other id's |
| Favorites.ToggleTwice | src/services/api/favoritesService.js:75-82 | two toggles of one id restore every id's membership |
| Favorites.AddTwice | src/services/api/favoritesService.js:46-51 | a second create of the same id keeps the first entry and its savedAt |
| Favorites.ToggleRace | src/services/api/favoritesService.js:75-82 | two toggles that both read before either writes end with the id present (both saw it absent) or make the second delete find nothing (both saw it present) |
| Favorites.FavoritesService.GetAll | src/services/api/favoritesService.js:27-30 | a copy equal to the stored list |
| Favorites.FavoritesService.constructor | src/services/api/favoritesService.js:4-7 | the store starts with the list the storage slot holds |
| Favorites.FavoritesService.GetById | src/services/api/favoritesService.js:32-39 | the first entry for the id, or "Favorite not found" exactly when there is none |
| Favorites.FavoritesService.IsFavorite | src/services/api/favoritesService.js:41-44 | true iff some entry has the id; nothing changes |
| Favorites.FavoritesService.Create | src/services/api/favoritesService.js:46-61 | returns the existing entry unchanged, or appends and returns a new entry stamped with the given time |
| Favorites.FavoritesService.Delete | src/services/api/favoritesService.js:63-73 | an absent id throws "Favorite not found" and changes nothing; otherwise the first entry is removed and returned and the length drops by one |
| Favorites.FavoritesService.Toggle | src/services/api/favoritesService.js:75-82 | the list becomes the toggled list and the call succeeds; it returns the removed entry when the id was present and the new entry `Favorite(id, now)` when it was not; with unique ids the id's membership flips |
| Favorites.FavoritesService.ToggleWrite | src/services/api/favoritesService.js:77-81 | the write half of toggle given a possibly stale membership read: delete, which returns the removed entry or throws "Favorite not found" if the id is already gone; or create, which returns the existing entry, or the new `Favorite(id, now)` it appends |
| Browse.FilterAndSearch | src/components/pages/Browse.jsx:44-93 | the listing is exactly the properties matching the search and every truthy filter, as a subsequence in their order |
| Browse.BadgeCount | src/components/pages/Browse.jsx:190-196 | at most seven, and 0 exactly when no filter key is truthy and no type is chosen |
| Browse.NothingActiveListsAll | src/components/pages/Browse.jsx:45-92 | an empty term with a zero badge count lists every property unchanged |
| Browse.ListingIgnoresTermCase | src/components/pages/Browse.jsx:49 | terms that differ only in letter case give the same listing |
| Browse.ListingMeaning | src/components/pages/Browse.jsx:45-92 | every listed property matches the search and each filter, and every matching property is listed |
| Browse.PriceMaxExample | src/components/pages/Browse.jsx:66-68 | a 200000 maximum keeps a 150000 condo and drops a 500000 house |
| Browse.BrowsePage.ApplyFiltersAndSearch | src/components/pages/Browse.jsx:25-27 | the effect sets the listing from the current properties, filters and term |
| Browse.BrowsePage.constructor | src/components/pages/Browse.jsx:12-17 | no properties, the empty filter object (all falsy, the same as the defaults), no term and an empty listing |
| Browse.BrowsePage.LoadProperties | src/components/pages/Browse.jsx:29-42 | the page holds the whole table and the listing follows it |
| Browse.BrowsePage.HandleFiltersChange | src/components/pages/Browse.jsx:95-97 | new filters replace the old and the listing follows them |
| Browse.BrowsePage.HandleSearch | src/components/pages/Browse.jsx:99-101 | a new term replaces the old and the listing follows it |
| Sidebar.Get | src/components/molecules/FilterSidebar.jsx:42-44 | reading a key yields an update for that same key, and writing it back leaves the filters unchanged |
| Sidebar.SetChangesOnlyItsKey | src/components/molecules/FilterSidebar.jsx:42-44 | a filter change sets its own key and leaves every other key as it was |
| Sidebar.ToggleTypeMembership | src/components/molecules/FilterSidebar.jsx:54-60 | the toggled type is present afterwards iff it was absent; other types keep their membership |
| Sidebar.ToggleTypeNoDuplicates | src/components/molecules/FilterSidebar.jsx:56-58 | a type list without duplicates stays without duplicates |
| Sidebar.ToggleAbsentTwice | src/components/molecules/FilterSidebar.jsx:56-58 | toggling an absent type twice restores the list exactly |
| Sidebar.ActiveGroupsRange | src/components/molecules/FilterSidebar.jsx:80-89 | the active count lies in 0..6 and is 0 for the defaults |
| Sidebar.ActiveFiltersCount | src/components/molecules/FilterSidebar.jsx:80-89 | the counter counts each active group once, with both price bounds as one group, and stays at most 6 |
| Sidebar.BadgeAndSidebarCounts | src/components/pages/Browse.jsx:190-196 | the browse badge exceeds the sidebar count by one exactly when both price bounds are set, and the two are 0 together |
| Sidebar.QuickMax | src/components/molecules/FilterSidebar.jsx:196 | an open-ended range passes no maximum |
| Sidebar.QuickRangeIntended | src/components/molecules/FilterSidebar.jsx:194-197 | the corrected quick range sets both bounds from the range and leaves every other key as it was |
| Sidebar.QuickRangeLosesPriceMin | src/components/molecules/FilterSidebar.jsx:194-197 | on default filters the $200K–$400K button ends with no minimum and a 400000 maximum, where the intended result has a 200000 minimum |
| Sidebar.QuickRangeKeepsOldMin | src/components/molecules/FilterSidebar.jsx:194-197 | as written a quick range ends with the pre-click minimum and the range's maximum |
| Sidebar.FilterSidebar.LoadSavedFilters | src/components/molecules/FilterSidebar.jsx:29-40 | the sidebar shows and publishes what the filter service reads |
| Sidebar.FilterSidebar.constructor | src/components/molecules/FilterSidebar.jsx:11-19 | the sidebar starts with the default filters and has published nothing |
| Sidebar.FilterSidebar.ChangeFrom | src/components/molecules/FilterSidebar.jsx:42-52 | one change from a given snapshot: the snapshot with that key replaced is shown, saved and published |
| Sidebar.FilterSidebar.HandleFilterChange | src/components/molecules/FilterSidebar.jsx:42-52 | the current filters with one key replaced are shown, saved and published |
| Sidebar.FilterSidebar.HandlePropertyTypeToggle | src/components/molecules/FilterSidebar.jsx:54-61 | the type list is replaced by its toggle, then saved and published |
| Sidebar.FilterSidebar.HandleReset | src/components/molecules/FilterSidebar.jsx:63-71 | the filters become the defaults, which are saved and published |
| Sidebar.FilterSidebar.ClickQuickRange | src/components/molecules/FilterSidebar.jsx:194-197 | two publications, the second of which (the one kept and saved) has the range's maximum and the pre-click minimum |
| Grid.SortOptions | src/components/organisms/PropertyGrid.jsx:44-50 | five dropdown values, the first being the default price-low |
| Grid.OptionsAreHandled | src/components/organisms/PropertyGrid.jsx:21-39 | every dropdown value is a key the sort handles |
| Grid.GridSortPermutation | src/components/organisms/PropertyGrid.jsx:19-41 | the grid shows a permutation of the listings it was given |
| Grid.GridSortOrder | src/components/organisms/PropertyGrid.jsx:22-36 | price-low orders price non-decreasing; price-high, beds-high, sqft-high and newest order price, bedrooms, square feet and year built non-increasing |
| Grid.GridSortStable | src/components/organisms/PropertyGrid.jsx:23-35 | listings that tie on the key keep their incoming order |
| Grid.UnknownKeyKeepsOrder | src/components/organisms/PropertyGrid.jsx:37-38 | a key outside the dropdown leaves the incoming order |
| Grid.PropertyGrid.constructor | src/components/organisms/PropertyGrid.jsx:15-18 | the default key is price-low and the sorted list is the listings sorted by it |
| Grid.PropertyGrid.SortEffect | src/components/organisms/PropertyGrid.jsx:18-42 | the sorted copy is a permutation of the listings, which stay unchanged |
| Grid.PropertyGrid.SetSortBy | src/components/organisms/PropertyGrid.jsx:42 | a new key re-sorts the unchanged listings |
| Grid.PropertyGrid.SetProperties | src/components/organisms/PropertyGrid.jsx:42 | new listings are re-sorted with the current key |
| FavoritesPage.Join | src/components/pages/Favorites.jsx:36-39 | one record per favorite: the i-th property with the i-th favorite's savedAt |
| FavoritesPage.SortOptions | src/components/pages/Favorites.jsx:14 | five dropdown values, the first being the default saved-newest |
| FavoritesPage.OptionsAreHandled | src/components/pages/Favorites.jsx:76-94 | every dropdown value is a key the sort handles |
| FavoritesPage.SortSavedPermutation | src/components/pages/Favorites.jsx:74-96 | the sorted copy is a permutation of the page's list |
| FavoritesPage.SortSavedOrder | src/components/pages/Favorites.jsx:77-91 | saved-newest orders savedAt non-increasing and saved-oldest non-decreasing; price-low, price-high and beds-high order as in the grid |
| FavoritesPage.SortSavedStable | src/components/pages/Favorites.jsx:77-91 | ties keep the joined order |
| FavoritesPage.UnknownKeyKeepsOrder | src/components/pages/Favorites.jsx:92-93 | a key outside the dropdown keeps the joined order |
| FavoritesPage.AfterDeletesUnique | src/components/pages/Favorites.jsx:58-62 | clear-all's deletes keep the store at one entry per id |
| FavoritesPage.ClearedLeavesNoListedId | src/components/pages/Favorites.jsx:58-65 | when every delete succeeds on a store with unique ids, no listed id is left |
| FavoritesPage.FavoritesPageState.constructor | src/components/pages/Favorites.jsx:10-14 | empty lists, loading, no error, and saved-newest as the key |
| FavoritesPage.FavoritesPageState.LoadFavorites | src/components/pages/Favorites.jsx:20-48 | the favorites are the store's list; if every property is found, each listed record is the i-th favorite's property with its savedAt, otherwise the error is "Property not found" and the listed records stay; the sort key is kept |
| FavoritesPage.FavoritesPageState.GetSortedProperties | src/components/pages/Favorites.jsx:73-97 | the sorted copy for the current key, a permutation of the page's list |
| FavoritesPage.FavoritesPageState.SetSortBy | src/components/pages/Favorites.jsx:244 | the dropdown sets the sort key and leaves the lists unchanged; loading and error are kept |
| FavoritesPage.FavoritesPageState.DeleteAll | src/components/pages/Favorites.jsx:58-62 | every listed id is deleted in turn, and the result reports failure exactly when some delete found nothing |
| FavoritesPage.FavoritesPageState.ClearAll | src/components/pages/Favorites.jsx:54-71 | unconfirmed does nothing; confirmed deletes every listed id, empties both lists only if every delete succeeded (then no listed id remains), and otherwise leaves them; the sort key, loading and error are kept |
| Compare.ToggleRemoves | src/components/pages/Compare.jsx:43-46 | toggling a selected property removes it and keeps the others in order |
| Compare.ToggleAppends | src/components/pages/Compare.jsx:50-52 | toggling an unselected property with fewer than three selected appends it at the end, without warning |
| Compare.ToggleFull | src/components/pages/Compare.jsx:47-49 | toggling an unselected property into a full selection leaves the selection unchanged |
| Compare.ToggleKeepsInvariant | src/components/pages/Compare.jsx:41-54 | the selection never exceeds three and its ids stay distinct |
| Compare.ComparisonRows | src/components/pages/Compare.jsx:72-117 | no rows for an empty selection and the eight rows otherwise |
| Compare.Measures | src/components/pages/Compare.jsx:121-128 | the per-property values the best-value rule ranks, one per property |
| Compare.MinOf | src/components/pages/Compare.jsx:121 | the minimum is attained and bounds every value from below |
| Compare.MaxOf | src/components/pages/Compare.jsx:123-128 | the maximum is attained and bounds every value from above |
| Compare.RowsRawValue | src/components/pages/Compare.jsx:357-362 | on the drawn rows, text and status cells have no raw value and every other cell's raw value is what the rule ranks |
| Compare.TextRowsUncrowned | src/components/pages/Compare.jsx:130 | text and status rows have a null best and crown nobody |
| Compare.DrawnRowKinds | src/components/pages/Compare.jsx:75-116 | of the eight drawn rows the first is ranked by its minimum, the third to sixth by their maximum, and the rest are text or status rows |
| Compare.PriceCrown | src/components/pages/Compare.jsx:119-121 | on the price row a property is crowned iff no selected property is cheaper, so ties share the crown, and some property is crowned |
| Compare.MaxRowCrown | src/components/pages/Compare.jsx:122-129 | on bedrooms, bathrooms, square feet and year a property is crowned iff none has more, so ties share the crown, and some property is crowned |
| Compare.PriceCrownExample | src/components/pages/Compare.jsx:357-364 | of two properties with different prices only the cheaper is crowned |
| Compare.ComparePage.HandlePropertyToggle | src/components/pages/Compare.jsx:41-54 | the selection becomes its toggle, a warning is counted exactly when the selection was full, and the bound and distinct ids hold |
| Compare.ComparePage.constructor | src/components/pages/Compare.jsx:11 | the selection starts empty, with no warnings, and satisfies the at-most-three distinct-ids invariant |
| Compare.ComparePage.HandleClearComparison | src/components/pages/Compare.jsx:56-58 | the selection becomes empty |
| Carousel.StepsInRange | src/components/molecules/PropertyCard.jsx:64-76 | both steps keep an in-range index in range |
| Carousel.StepsWrap | src/components/molecules/PropertyCard.jsx:66-75 | next at the last image gives the first, prev at the first gives the last, and otherwise they move one place |
| Carousel.StepsInverse | src/components/molecules/PropertyCard.jsx:66-75 | prev undoes next and next undoes prev |
| Carousel.NextTimesAdvance | src/components/molecules/PropertyCard.jsx:66-68 | before the wrap, k presses of next move the index k places |
| Carousel.NextTimesCompose | src/components/molecules/PropertyCard.jsx:66-68 | a presses then b presses of next are a + b presses |
| Carousel.FullCycle | src/components/molecules/PropertyCard.jsx:66-68 | as many presses of next as there are images return to the start |
| Carousel.NextTimesPastEnd | src/components/organisms/PropertyDetailModal.jsx:58-62 | from an index at or past the image count, k presses of next add k: the index never wraps back |
| Carousel.StepsNonNegative | src/components/pages/PropertyDetail.jsx:84-94 | both steps keep a non-negative index non-negative, and past the end they move by exactly one |
| FavoriteButton.FlagTracksStore | src/components/molecules/PropertyCard.jsx:19-42 | a flag that equals store membership before a toggle equals it after, and the success toast says "Added" exactly when the id is now in the store and "Removed" otherwise |
| FavoriteButton.ToggleFeedback | src/components/molecules/PropertyCard.jsx:30-45 | a failed toggle keeps the flag and is the only outcome that shows the failure text; a successful toggle flips the flag, and its toast differs between removing and adding |
| Card.PropertyCard.constructor | src/components/molecules/PropertyCard.jsx:11-13 | first image, flag unset, not loading |
| Card.PropertyCard.FinishFavoriteCheck | src/components/molecules/PropertyCard.jsx:17-24 | a successful read sets the flag; a failed read is ignored |
| Card.PropertyCard.CheckFavoriteStatus | src/components/molecules/PropertyCard.jsx:16-26 | the flag becomes the store's membership of the card's id |
| Card.PropertyCard.FinishToggle | src/components/molecules/PropertyCard.jsx:32-45 | success flips the flag and notifies the parent once; failure changes neither; the toast is chosen from the pre-toggle flag |
| Card.PropertyCard.HandleFavoriteToggle | src/components/molecules/PropertyCard.jsx:28-46 | the store is toggled, the flag flips, the parent is notified once, and a flag that agreed with the store still agrees; the carousel index is kept and stays valid |
| Card.PropertyCard.NextImage | src/components/molecules/PropertyCard.jsx:64-69 | the index takes one wrapping step forward and stays in range; the flag, loading flag and notification count are kept |
| Card.PropertyCard.PrevImage | src/components/molecules/PropertyCard.jsx:71-76 | the index takes one wrapping step back and stays in range; the flag, loading flag and notification count are kept |
| Detail.PropertyDetailPage.LoadProperty | src/components/pages/PropertyDetail.jsx:30-43 | a found id shows its record, a missing one sets "Property not found" and keeps the record; the carousel index is not reset, so it fits only when the new record has enough images |
| Detail.PropertyDetailPage.constructor | src/components/pages/PropertyDetail.jsx:13-18 | no record, loading, no error, the first image and the flag unset |
| Detail.PropertyDetailPage.FinishFavoriteCheck | src/components/pages/PropertyDetail.jsx:45-52 | a successful read sets the flag; a failed read is ignored; the record, index, loading, error and favorite-loading flag are kept |
| Detail.PropertyDetailPage.CheckFavoriteStatus | src/components/pages/PropertyDetail.jsx:24-28 | with a record loaded, the flag becomes the store's membership of its id; the record, index, loading, error and favorite-loading flag are kept |
| Detail.PropertyDetailPage.FinishToggle | src/components/pages/PropertyDetail.jsx:57-69 | success flips the flag, failure keeps it, and the toast is chosen from the pre-toggle flag; the record, index, loading and error are kept |
| Detail.PropertyDetailPage.HandleFavoriteToggle | src/components/pages/PropertyDetail.jsx:54-70 | the store is toggled, the flag and the label flip, and a flag that agreed with the store still agrees; the record, carousel index, loading and error are kept; the toast says "Removed from favorites" when the old flag was set and "Added to favorites" otherwise |
| Detail.PropertyDetailPage.NextImage | src/components/pages/PropertyDetail.jsx:84-88 | one step forward that wraps at the last image; an in-range index stays in range, and an index left past the end by `LoadProperty` moves one further out; the index stays non-negative; the flag, loading flags and error are kept |
| Detail.PropertyDetailPage.PrevImage | src/components/pages/PropertyDetail.jsx:90-94 | one step back that wraps at the first image; an in-range index stays in range, and an index left past the end moves back by one; the index stays non-negative; the flag, loading flags and error are kept |
| Detail.PropertyDetailPage.SelectImage | src/components/pages/PropertyDetail.jsx:232-237 | a thumbnail click sets the index to the chosen in-range position; the flag, loading flags and error are kept |
| Detail.StaleIndexExample | src/components/pages/PropertyDetail.jsx:16-43 | after showing the third of three images and then loading a one-image record, the index is still 2 |
| Modal.PropertyDetailModal.constructor | src/components/organisms/PropertyDetailModal.jsx:9-12 | takes the record and open flag from the parent, shows the first image with the flag unset; it renders exactly when it is open and has a record |
| Modal.PropertyDetailModal.OnPropertyChange | src/components/organisms/PropertyDetailModal.jsx:14-26 | a new record re-reads the flag, a failed read or no record keeps it, the open flag and the index are kept (so the index fits the new record only if it has enough images), and it renders exactly when it is open and has a record |
| Modal.PropertyDetailModal.OnPropertyChangeFrom | src/components/organisms/PropertyDetailModal.jsx:14-26 | with a record, the flag becomes the store's membership of its id |
| Modal.PropertyDetailModal.OnPropertyChangeResetting | src/components/organisms/PropertyDetailModal.jsx:14-26 | the record change with the carousel reset to the first image (corrected behaviour, see Findings): the index then points at one of the new record's images whenever it has any |
| Modal.PropertyDetailModal.SetOpen | src/components/organisms/PropertyDetailModal.jsx:70-74 | the parent opening or closing the modal changes only the open flag; it renders exactly when open with a record |
| Modal.PropertyDetailModal.FinishToggle | src/components/organisms/PropertyDetailModal.jsx:31-43 | success flips the flag, failure keeps it, and the toast is chosen from the pre-toggle flag |
| Modal.PropertyDetailModal.HandleFavoriteToggle | src/components/organisms/PropertyDetailModal.jsx:28-44 | only while the modal is drawn: the store is toggled, the flag and the label ("Favorited" or "Save") flip, and a flag that agreed with the store still agrees; the record, open flag and carousel index are kept; the toast says "Removed from favorites" when the old flag was set and "Added to favorites" otherwise |
| Modal.PropertyDetailModal.NextImage | src/components/organisms/PropertyDetailModal.jsx:58-62 | one step forward that wraps at the last image; an in-range index stays in range, and an index left past the end by a record change moves one further out; the index stays non-negative; the flag and loading flag are kept |
| Modal.PropertyDetailModal.PrevImage | src/components/organisms/PropertyDetailModal.jsx:64-68 | one step back that wraps at the first image; an in-range index stays in range, and an index left past the end moves back by one; the index stays non-negative; the flag and loading flag are kept |
| Modal.StaleModalIndexExample | src/components/organisms/PropertyDetailModal.jsx:58-62 | with the fifth of five images shown and a three-image record passed in, two presses of next reach index 6 of 3 images |
| Modal.ResetModalIndexExample | src/components/organisms/PropertyDetailModal.jsx:58-62 | with the resetting record change, the same clicks leave the index at 2, inside the new record's three images |

## Left out

- Rendering: JSX, framer-motion animation, Tailwind classes, navigation and
  `window.location`, the atoms (Badge, Input, Select, SearchBar), `Layout.jsx` and
  the route table. They are presentational or constant data.
- src/components/pages/MapView.jsx is not part of this model: its map is a simulated
  grid with floating-point coordinates and zoom state.
- Persistence: `localStorage`, `JSON.parse`/`JSON.stringify` and the swallowed
  storage errors. Storage is a field the write replaces; an unreadable slot is
  modelled as an empty one.
- Async timing: `delay()`, `await` and `Promise.all` ordering. Each service call is
  one atomic step. The one interleaving that matters for data, two toggles of one id
  reading before either writes, is stated by `Favorites.ToggleRace` and
  `Favorites.FavoritesService.ToggleWrite`.
- Toasts, `console.error` and loading spinners; the toast text itself is modelled
  where the source picks it from state (`FavoriteButton.ToggleToast`).
- `Intl.NumberFormat` price and area formatting, a locale library call; the
  comparison table's formatted cells are left out and only raw values are compared.
- `window.confirm` is the `confirmed` parameter of clear-all.
- The clock and ids: `Date.now()` and `toISOString()` are integer parameters, and
  savedAt is compared as an integer, so an unparseable date is not modelled.
- Unicode: `toLowerCase` is ASCII only.
- String-to-number coercion of form inputs: a bound is `Option<int>` as described
  above; text such as "abc" in a number field is not modelled.
- The route parameter of the detail page is a string in the source and is compared
  with the stored id by strict equality; the model passes the id as an integer, so a
  string-versus-number mismatch is not modelled.
- The comparison page's own favorites loading (src/components/pages/Compare.jsx:19-39)
  is the same lookup-per-favorite pattern as `FavoritesPage.FavoritesPageState.LoadFavorites`
  and is not modelled a second time.
- Compare.BestValue: `Math.min()`/`Math.max()` of no values give ±Infinity, which
  equals no cell; the model returns no best value for an empty selection, which
  crowns the same (nobody).
- StableSort.SortByRank: `Array.prototype.sort` is modelled by an insertion sort;
  the lemmas prove it sorted, a permutation and stable, which determines the output
  of any stable sort, but that uniqueness is not itself proved.
- Browse.BrowsePage.LoadProperties: the failure branch of loading (an error message)
  is not modelled because the property service's `getAll` cannot fail.

## Findings

| source | as written | input that shows it | evidently intended | confidence | as-written member | corrected member |
|---|---|---|---|---|---|---|
| src/components/molecules/FilterSidebar.jsx:194-197 | a quick price-range button makes two filter changes, and each spreads the same pre-click `filters`, so the second (priceMax) overwrites the first and the minimum is never set | default filters, click "$200K - $400K": the filters end with no minimum and a 400000 maximum | both bounds set from the range: minimum 200000, maximum 400000 | not executed | Sidebar.QuickRangeLosesPriceMin | Sidebar.QuickRangeIntended |
| src/components/organisms/PropertyDetailModal.jsx:14-26 | a new record from the parent keeps the carousel index, so after showing the fifth of five images a three-image record is drawn with `images[4]` undefined; the next button then counts on (5, 6, …) and never wraps, since it only tests for the last index; the detail page's route change does the same (`Detail.StaleIndexExample`) | fifth of five images shown, then a three-image record passed in, then next pressed twice: the index is 6 and the counter reads "7 / 3" | the index goes back to the first image when the record changes | not executed | Modal.StaleModalIndexExample | Modal.ResetModalIndexExample |
