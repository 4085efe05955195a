/** The filter sidebar (src/components/molecules/FilterSidebar.jsx): single-key
    updates saved through the filter-state service, the property-type toggle, reset,
    the active-group count and the quick price-range buttons. */
module Sidebar {
  import opened Wrappers
  import opened Seqs
  import opened FilterState
  import Browse

  datatype FilterKey = PriceMinKey | PriceMaxKey | BedroomsMinKey | BathroomsMinKey
                     | PropertyTypesKey | LocationKey | SquareFeetMinKey

  /** A `handleFilterChange(key, value)` call: the key and its new value. */
  datatype FilterUpdate =
    | PriceMin(priceMin: Option<int>)
    | PriceMax(priceMax: Option<int>)
    | BedroomsMin(bedroomsMin: Option<int>)
    | BathroomsMin(bathroomsMin: Option<real>)
    | PropertyTypes(types: seq<string>)
    | Location(location: string)
    | SquareFeetMin(squareFeetMin: Option<int>)

  function KeyOf(u: FilterUpdate): FilterKey
  {
    match u
    case PriceMin(_) => PriceMinKey
    case PriceMax(_) => PriceMaxKey
    case BedroomsMin(_) => BedroomsMinKey
    case BathroomsMin(_) => BathroomsMinKey
    case PropertyTypes(_) => PropertyTypesKey
    case Location(_) => LocationKey
    case SquareFeetMin(_) => SquareFeetMinKey
  }

  /** The value f holds under key k, as an update that would set it. */
  function Get(f: Filters, k: FilterKey): (u: FilterUpdate)
    ensures KeyOf(u) == k
    ensures Set(f, u) == f
  {
    match k
    case PriceMinKey => PriceMin(f.priceMin)
    case PriceMaxKey => PriceMax(f.priceMax)
    case BedroomsMinKey => BedroomsMin(f.bedroomsMin)
    case BathroomsMinKey => BathroomsMin(f.bathroomsMin)
    case PropertyTypesKey => PropertyTypes(f.propertyTypes)
    case LocationKey => Location(f.location)
    case SquareFeetMinKey => SquareFeetMin(f.squareFeetMin)
  }

  /** The filters with one key replaced. */
  function Set(f: Filters, u: FilterUpdate): Filters
  {
    match u
    case PriceMin(v) => f.(priceMin := v)
    case PriceMax(v) => f.(priceMax := v)
    case BedroomsMin(v) => f.(bedroomsMin := v)
    case BathroomsMin(v) => f.(bathroomsMin := v)
    case PropertyTypes(v) => f.(propertyTypes := v)
    case Location(v) => f.(location := v)
    case SquareFeetMin(v) => f.(squareFeetMin := v)
  }

  /** An update sets its own key and changes no other key. */
  lemma SetChangesOnlyItsKey(f: Filters, u: FilterUpdate, k: FilterKey)
    ensures Get(Set(f, u), k) == if k == KeyOf(u) then u else Get(f, k)
  {
  }

  /** A JavaScript number as a filter value: 0 is falsy. */
  function FromNumber(n: int): Option<int>
  {
    if n == 0 then None else Some(n)
  }

  /** The property-type checkbox: a selected type is removed (every occurrence),
      an unselected one is appended. */
  function ToggleType(types: seq<string>, t: string): seq<string>
  {
    if t in types then Keep(types, Other(t)) else types + [t]
  }

  /** The test "differs from t". */
  function Other(t: string): string -> bool
  {
    (x: string) => x != t
  }

  function Name(x: string): string
  {
    x
  }

  /** No value occurs twice. */
  predicate Distinct(s: seq<string>)
  {
    DistinctBy(s, Name)
  }

  /** The toggled type is present afterwards iff it was absent; other types keep
      their membership. */
  lemma ToggleTypeMembership(types: seq<string>, t: string, x: string)
    ensures t in ToggleType(types, t) <==> t !in types
    ensures x != t ==> (x in ToggleType(types, t) <==> x in types)
  {
    if t in types {
      if x != t && x in types {
        var i :| 0 <= i < |types| && types[i] == x;
      }
    }
  }

  /** Without duplicates before, none after. */
  lemma {:induction false} ToggleTypeNoDuplicates(types: seq<string>, t: string)
    requires Distinct(types)
    ensures Distinct(ToggleType(types, t))
  {
    if t in types {
      KeepDistinctBy(types, Other(t), Name);
    } else {
      var r := types + [t];
      forall i, j | 0 <= i < j < |r| ensures r[i] != r[j] {
        if j == |types| { assert r[i] == types[i]; }
      }
    }
  }

  /** Toggling a type that is absent twice restores the list exactly. */
  lemma ToggleAbsentTwice(types: seq<string>, t: string)
    requires t !in types
    ensures ToggleType(ToggleType(types, t), t) == types
  {
    var p := Other(t);
    assert t in types + [t];
    KeepAppend(types, [t], p);
    KeepAll(types, p);
    assert Keep([t], p) == [];
  }

  /** The number of active filter groups; the two price bounds form one group. */
  function ActiveGroups(f: Filters): nat
  {
    (if f.priceMin.Some? || f.priceMax.Some? then 1 else 0) +
    (if f.bedroomsMin.Some? then 1 else 0) + (if f.bathroomsMin.Some? then 1 else 0) +
    (if |f.propertyTypes| > 0 then 1 else 0) + (if f.location != [] then 1 else 0) +
    (if f.squareFeetMin.Some? then 1 else 0)
  }

  /** The count lies in 0..6 and is 0 for the defaults. */
  lemma ActiveGroupsRange(f: Filters)
    ensures 0 <= ActiveGroups(f) <= 6
    ensures ActiveGroups(Defaults) == 0
  {
  }

  /** The browse page's badge counts the two price bounds separately, so it exceeds
      the sidebar's count by one exactly when both bounds are set; the two agree on
      whether anything is active. */
  lemma BadgeAndSidebarCounts(f: Filters)
    ensures Browse.BadgeCount(f) == ActiveGroups(f) + (if f.priceMin.Some? && f.priceMax.Some? then 1 else 0)
    ensures Browse.BadgeCount(f) == 0 <==> ActiveGroups(f) == 0
  {
  }

  /** `getActiveFiltersCount`: increments a counter once per active group. */
  method ActiveFiltersCount(f: Filters) returns (count: nat)
    ensures count == ActiveGroups(f)
    ensures count <= 6
  {
    count := 0;
    if f.priceMin.Some? || f.priceMax.Some? { count := count + 1; }
    if f.bedroomsMin.Some? { count := count + 1; }
    if f.bathroomsMin.Some? { count := count + 1; }
    if |f.propertyTypes| > 0 { count := count + 1; }
    if f.location != [] { count := count + 1; }
    if f.squareFeetMin.Some? { count := count + 1; }
  }

  /** The value a quick-range button passes for priceMax: the range's maximum, or
      unset when the range is open-ended (or its maximum is 0). */
  function QuickMax(r: PriceRange): (b: Option<int>)
    ensures r.max.None? ==> b.None?
  {
    if r.max.Some? then FromNumber(r.max.value) else None
  }

  /** The filters a quick-range click ends with as written: both updates spread the
      same pre-click snapshot, so the second one (priceMax) discards the first. */
  function QuickRangeAsWritten(snapshot: Filters, r: PriceRange): Filters
  {
    Set(snapshot, PriceMax(QuickMax(r)))
  }

  /** The filters a quick-range click is evidently meant to end with: both bounds set. */
  function QuickRangeIntended(f: Filters, r: PriceRange): (g: Filters)
    ensures g.priceMin == FromNumber(r.min) && g.priceMax == QuickMax(r)
    ensures forall k :: k != PriceMinKey && k != PriceMaxKey ==> Get(g, k) == Get(f, k)
  {
    Set(Set(f, PriceMin(FromNumber(r.min))), PriceMax(QuickMax(r)))
  }

  /** The "$200K - $400K" button on default filters: as written the minimum stays
      unset, while the intended result has a minimum of 200000. */
  lemma QuickRangeLosesPriceMin()
    ensures var r := PriceRanges()[1];
      && QuickRangeAsWritten(Defaults, r).priceMin == None
      && QuickRangeAsWritten(Defaults, r).priceMax == Some(400000)
      && QuickRangeIntended(Defaults, r).priceMin == Some(200000)
  {
  }

  /** As written, a quick range keeps the pre-click minimum whatever the range. */
  lemma QuickRangeKeepsOldMin(snapshot: Filters, r: PriceRange)
    ensures QuickRangeAsWritten(snapshot, r).priceMin == snapshot.priceMin
    ensures QuickRangeAsWritten(snapshot, r).priceMax == QuickMax(r)
  {
  }

  class FilterSidebar {
    var filters: Filters
    /** The values passed to `onFiltersChange`, oldest first. */
    var published: seq<Filters>
    const service: SearchFiltersService

    /** The initial state: every bound '' and no type, which reads like the defaults. */
    constructor (service: SearchFiltersService)
      ensures filters == Defaults && published == [] && this.service == service
    {
      filters := Defaults;
      published := [];
      this.service := service;
    }

    /** The mount effect: reads the saved filters and publishes them. */
    method LoadSavedFilters()
      modifies this
      ensures filters == Load(service.slot) && published == old(published) + [filters]
    {
      var saved := service.GetAll();
      filters := saved;
      published := published + [saved];
    }

    /** One `handleFilterChange` whose `filters` is the given snapshot. */
    method ChangeFrom(snapshot: Filters, u: FilterUpdate)
      modifies this, service
      ensures filters == Set(snapshot, u)
      ensures service.slot == Some(ToPatch(filters))
      ensures published == old(published) + [filters]
    {
      var newFilters := Set(snapshot, u);
      filters := newFilters;
      var _ := service.Save(ToPatch(newFilters));
      published := published + [newFilters];
    }

    /** `handleFilterChange(key, value)`. */
    method HandleFilterChange(u: FilterUpdate)
      modifies this, service
      ensures filters == Set(old(filters), u)
      ensures service.slot == Some(ToPatch(filters))
      ensures published == old(published) + [filters]
    {
      ChangeFrom(filters, u);
    }

    /** `handlePropertyTypeToggle(type)`. */
    method HandlePropertyTypeToggle(t: string)
      modifies this, service
      ensures filters == old(filters).(propertyTypes := ToggleType(old(filters).propertyTypes, t))
      ensures service.slot == Some(ToPatch(filters))
      ensures published == old(published) + [filters]
    {
      HandleFilterChange(PropertyTypes(ToggleType(filters.propertyTypes, t)));
    }

    /** `handleReset`. */
    method HandleReset()
      modifies this, service
      ensures filters == Defaults && service.slot == Some(ToPatch(Defaults))
      ensures published == old(published) + [Defaults]
    {
      var r := service.Reset();
      filters := r;
      published := published + [r];
    }

    /** A quick-range click: two updates built from one render's `filters`. */
    method ClickQuickRange(r: PriceRange)
      modifies this, service
      ensures filters == QuickRangeAsWritten(old(filters), r)
      ensures filters.priceMin == old(filters).priceMin
      ensures service.slot == Some(ToPatch(filters))
      ensures published == old(published) + [old(filters).(priceMin := FromNumber(r.min)), filters]
    {
      var snapshot := filters;
      ChangeFrom(snapshot, PriceMin(FromNumber(r.min)));
      ChangeFrom(snapshot, PriceMax(QuickMax(r)));
    }
  }
}
