/** The filter state shared by the filter sidebar, the browse page and the
    filter-state service (src/services/api/searchFiltersService.js). */
module FilterState {
  import opened Wrappers

  /** A filter object with every key present. A bound is `None` when the JavaScript
      value is falsy (null, '' or the number 0) and `Some(v)` when it is truthy and
      compares as the number v (so the typed string "0" is `Some(0)`). */
  datatype Filters = Filters(
    priceMin: Option<int>,
    priceMax: Option<int>,
    bedroomsMin: Option<int>,
    bathroomsMin: Option<real>,
    propertyTypes: seq<string>,
    location: string,
    squareFeetMin: Option<int>)

  /** A partial filter object: `None` for a key the object does not have. */
  datatype FilterPatch = FilterPatch(
    priceMin: Option<Option<int>>,
    priceMax: Option<Option<int>>,
    bedroomsMin: Option<Option<int>>,
    bathroomsMin: Option<Option<real>>,
    propertyTypes: Option<seq<string>>,
    location: Option<string>,
    squareFeetMin: Option<Option<int>>)

  /** `defaultFilters`: no bound, no type, empty location. */
  const Defaults := Filters(None, None, None, None, [], "", None)

  const EmptyPatch := FilterPatch(None, None, None, None, None, None, None)

  function Pick<T>(base: T, over: Option<T>): T
  {
    if over.Some? then over.value else base
  }

  /** Object spread of patch over base: a key present in patch wins. */
  function Merge(base: Filters, patch: FilterPatch): Filters
  {
    Filters(
      Pick(base.priceMin, patch.priceMin),
      Pick(base.priceMax, patch.priceMax),
      Pick(base.bedroomsMin, patch.bedroomsMin),
      Pick(base.bathroomsMin, patch.bathroomsMin),
      Pick(base.propertyTypes, patch.propertyTypes),
      Pick(base.location, patch.location),
      Pick(base.squareFeetMin, patch.squareFeetMin))
  }

  /** A complete filter object seen as an object with every key present. */
  function ToPatch(f: Filters): FilterPatch
  {
    FilterPatch(Some(f.priceMin), Some(f.priceMax), Some(f.bedroomsMin), Some(f.bathroomsMin),
                Some(f.propertyTypes), Some(f.location), Some(f.squareFeetMin))
  }

  /** Spreading a complete object over anything yields that object. */
  lemma MergeComplete(base: Filters, f: Filters)
    ensures Merge(base, ToPatch(f)) == f
  {
  }

  /** The slot's value as `loadFromStorage` reads it: `None` stands for an empty or
      unparseable slot. */
  function Load(slot: Option<FilterPatch>): Filters
  {
    if slot.None? then Defaults else Merge(Defaults, slot.value)
  }

  /** Every key of the merge comes from the patch when the patch has it and from the
      defaults otherwise. */
  lemma MergeKeys(p: FilterPatch)
    ensures var r := Merge(Defaults, p);
      && (p.priceMin.Some? ==> r.priceMin == p.priceMin.value)
      && (p.priceMin.None? ==> r.priceMin == Defaults.priceMin)
      && (p.priceMax.Some? ==> r.priceMax == p.priceMax.value)
      && (p.priceMax.None? ==> r.priceMax == Defaults.priceMax)
      && (p.bedroomsMin.Some? ==> r.bedroomsMin == p.bedroomsMin.value)
      && (p.bedroomsMin.None? ==> r.bedroomsMin == Defaults.bedroomsMin)
      && (p.bathroomsMin.Some? ==> r.bathroomsMin == p.bathroomsMin.value)
      && (p.bathroomsMin.None? ==> r.bathroomsMin == Defaults.bathroomsMin)
      && (p.propertyTypes.Some? ==> r.propertyTypes == p.propertyTypes.value)
      && (p.propertyTypes.None? ==> r.propertyTypes == [])
      && (p.location.Some? ==> r.location == p.location.value)
      && (p.location.None? ==> r.location == "")
      && (p.squareFeetMin.Some? ==> r.squareFeetMin == p.squareFeetMin.value)
      && (p.squareFeetMin.None? ==> r.squareFeetMin == Defaults.squareFeetMin)
  {
  }

  /** Saving what save returned returns it again. */
  lemma SaveIdempotent(p: FilterPatch)
    ensures Merge(Defaults, ToPatch(Merge(Defaults, p))) == Merge(Defaults, p)
  {
    MergeComplete(Defaults, Merge(Defaults, p));
  }

  /** What save writes to the slot, getAll reads back unchanged. */
  lemma SaveThenLoad(p: FilterPatch)
    ensures Load(Some(ToPatch(Merge(Defaults, p)))) == Merge(Defaults, p)
  {
    MergeComplete(Defaults, Merge(Defaults, p));
  }

  /** An empty object merges to the defaults, so `{}` and an empty slot read alike. */
  lemma EmptyPatchIsDefaults()
    ensures Load(Some(EmptyPatch)) == Load(None) == Defaults
  {
  }

  /** `getPropertyTypes`: eight distinct type names. */
  function PropertyTypes(): (r: seq<string>)
    ensures |r| == 8
    ensures forall i, j :: 0 <= i < j < |r| ==> r[i] != r[j]
  {
    ["House", "Apartment", "Condo", "Townhouse", "Single Family", "Multi Family", "Land", "Commercial"]
  }

  datatype PriceRange = PriceRange(title: string, min: int, max: Option<int>)

  /** `getPriceRanges`: six contiguous ranges starting at 0, the last one open. */
  function PriceRanges(): (r: seq<PriceRange>)
    ensures |r| == 6 && r[0].min == 0
    ensures forall i :: 0 <= i < |r| - 1 ==> r[i].max == Some(r[i + 1].min)
    ensures forall i :: 0 <= i < |r| - 1 ==> r[i].min < r[i + 1].min
    ensures r[|r| - 1].max.None?
  {
    [ PriceRange("Under $200K", 0, Some(200000)),
      PriceRange("$200K - $400K", 200000, Some(400000)),
      PriceRange("$400K - $600K", 400000, Some(600000)),
      PriceRange("$600K - $800K", 600000, Some(800000)),
      PriceRange("$800K - $1M", 800000, Some(1000000)),
      PriceRange("Over $1M", 1000000, None) ]
  }

  /** The service with its one storage slot. */
  class SearchFiltersService {
    /** The stored object; `None` when the slot is empty or does not parse. */
    var slot: Option<FilterPatch>

    constructor (stored: Option<FilterPatch>)
      ensures slot == stored
    {
      slot := stored;
    }

    /** `getAll`: the defaults overridden by what the slot holds. */
    method GetAll() returns (r: Filters)
      ensures r == Load(slot)
    {
      if slot.None? {
        r := Defaults;
      } else {
        r := Merge(Defaults, slot.value);
      }
    }

    /** `save`: completes the object with the defaults, stores and returns it. */
    method Save(filters: FilterPatch) returns (r: Filters)
      modifies this
      ensures r == Merge(Defaults, filters)
      ensures slot == Some(ToPatch(r))
      ensures Load(slot) == r
    {
      r := Merge(Defaults, filters);
      slot := Some(ToPatch(r));
      SaveThenLoad(filters);
    }

    /** `reset`: stores and returns the defaults. */
    method Reset() returns (r: Filters)
      modifies this
      ensures r == Defaults
      ensures slot == Some(ToPatch(Defaults))
      ensures Load(slot) == Defaults
    {
      r := Defaults;
      slot := Some(ToPatch(Defaults));
    }
  }
}
