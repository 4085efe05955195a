/** The browse page (src/components/pages/Browse.jsx): free-text search followed by
    the seven filter stages, and the count shown on the mobile "Filters" button. */
module Browse {
  import opened Wrappers
  import opened Text
  import opened Records
  import opened Seqs
  import opened FilterState
  import opened Filtering
  import Properties

  /** A property is listed when it passes the search and every filter. */
  predicate Matches(p: Property, f: Filters, term: string)
  {
    MatchesSearch(p, term) && MatchesFilters(p, f)
  }

  /** What the page lists for the given properties, filters and term. */
  function Listing(properties: seq<Property>, f: Filters, term: string): seq<Property>
  {
    Keep(properties, p => Matches(p, f, term))
  }

  /** `applyFiltersAndSearch`: search when the term is non-empty, then the filter stages. */
  method FilterAndSearch(properties: seq<Property>, filters: Filters, searchTerm: string)
    returns (filtered: seq<Property>)
    ensures filtered == Keep(properties, p => Matches(p, filters, searchTerm))
    ensures IsSubsequence(filtered, properties)
  {
    filtered := properties;
    if searchTerm != [] {
      filtered := Keep(filtered, (p: Property) => MatchesSearch(p, searchTerm));
    } else {
      KeepAll(properties, (p: Property) => MatchesSearch(p, searchTerm));
    }
    ghost var searched := filtered;
    filtered := ApplyFilterStages(filtered, filters);
    Step(properties, searched, filtered, (p: Property) => MatchesSearch(p, searchTerm),
         p => MatchesFilters(p, filters), p => Matches(p, filters, searchTerm));
    KeepIsSubsequence(properties, p => Matches(p, filters, searchTerm));
  }

  function Truthy(b: bool): nat { if b then 1 else 0 }

  /** Filters with no truthy value and no chosen type. */
  predicate NoneActive(f: Filters)
  {
    f.priceMin.None? && f.priceMax.None? && f.bedroomsMin.None? && f.bathroomsMin.None? &&
    |f.propertyTypes| == 0 && f.location == [] && f.squareFeetMin.None?
  }

  /** The badge: how many keys have a truthy value (a list only when non-empty). */
  function BadgeCount(f: Filters): (n: nat)
    ensures n <= 7
    ensures n == 0 <==> NoneActive(f)
  {
    Truthy(f.priceMin.Some?) + Truthy(f.priceMax.Some?) + Truthy(f.bedroomsMin.Some?) +
    Truthy(f.bathroomsMin.Some?) + Truthy(|f.propertyTypes| > 0) + Truthy(f.location != []) +
    Truthy(f.squareFeetMin.Some?)
  }

  /** With an empty term and a zero badge, the page lists every property unchanged. */
  lemma {:induction false} NothingActiveListsAll(properties: seq<Property>, f: Filters)
    requires BadgeCount(f) == 0
    ensures Keep(properties, p => Matches(p, f, "")) == properties
  {
    KeepAll(properties, p => Matches(p, f, ""));
  }

  /** Letter case in the term does not change the listing. */
  lemma {:induction false} ListingIgnoresTermCase(properties: seq<Property>, f: Filters, t1: string, t2: string)
    requires Lower(t1) == Lower(t2)
    ensures Keep(properties, p => Matches(p, f, t1)) == Keep(properties, p => Matches(p, f, t2))
  {
    forall i | 0 <= i < |properties| ensures Matches(properties[i], f, t1) == Matches(properties[i], f, t2) {
      SearchIgnoresTermCase(properties[i], t1, t2);
    }
    KeepAgree(properties, p => Matches(p, f, t1), p => Matches(p, f, t2));
  }

  /** Every listed property passes the search and each filter, and every property
      passing them all is listed. */
  lemma ListingMeaning(properties: seq<Property>, f: Filters, term: string)
    ensures var r := Keep(properties, p => Matches(p, f, term));
      && (forall i :: 0 <= i < |r| ==>
            (MatchesSearch(r[i], term) && PriceMinOk(r[i], f) && PriceMaxOk(r[i], f) &&
             BedroomsOk(r[i], f) && BathroomsOk(r[i], f) && TypeOk(r[i], f) && LocationOk(r[i], f) &&
             SquareFeetOk(r[i], f)))
      && (forall i :: 0 <= i < |properties| && Matches(properties[i], f, term) ==> properties[i] in r)
  {
  }

  /** A sample listing with the fields the worked example below looks at. */
  function Sample(id: int, price: int, bedrooms: int, propertyType: string, city: string): Property
  {
    Property(id, "", price, Address("", city, "", ""), bedrooms, 1.0, 1000, propertyType, [], None,
             2000, "For Sale", false, None)
  }

  /** A maximum price of 200000 keeps the 150000 condo and drops the 500000 house. */
  lemma PriceMaxExample()
    ensures var condo := Sample(1, 150000, 2, "Condo", "Austin");
      var house := Sample(2, 500000, 4, "House", "Austin");
      Keep([condo, house], p => Matches(p, Defaults.(priceMax := Some(200000)), "")) == [condo]
  {
    var condo := Sample(1, 150000, 2, "Condo", "Austin");
    var house := Sample(2, 500000, 4, "House", "Austin");
    var m := p => Matches(p, Defaults.(priceMax := Some(200000)), "");
    assert m(condo) && !m(house);
    assert [condo, house][1..] == [house];
    assert [house][1..] == [];
  }

  class BrowsePage {
    var properties: seq<Property>
    var filters: Filters
    var searchTerm: string
    var filteredProperties: seq<Property>

    /** Initial state; the empty filter object `{}` reads like the defaults. */
    constructor ()
      ensures properties == [] && filters == Defaults && searchTerm == [] && filteredProperties == []
    {
      properties, filters, searchTerm, filteredProperties := [], Defaults, [], [];
    }

    /** The effect that re-runs whenever properties, filters or the term change. */
    method ApplyFiltersAndSearch()
      modifies this
      ensures filteredProperties == Listing(properties, filters, searchTerm)
      ensures properties == old(properties) && filters == old(filters) && searchTerm == old(searchTerm)
    {
      filteredProperties := FilterAndSearch(properties, filters, searchTerm);
    }

    /** `loadProperties`: the whole table, then the effect. */
    method LoadProperties(service: Properties.PropertyService)
      modifies this
      ensures properties == service.data
      ensures filteredProperties == Listing(properties, filters, searchTerm)
      ensures filters == old(filters) && searchTerm == old(searchTerm)
    {
      var data := service.GetAll(Defaults);
      DefaultsKeepAll(service.data);
      properties := data;
      ApplyFiltersAndSearch();
    }

    method HandleFiltersChange(newFilters: Filters)
      modifies this
      ensures filters == newFilters && properties == old(properties) && searchTerm == old(searchTerm)
      ensures filteredProperties == Listing(properties, filters, searchTerm)
    {
      filters := newFilters;
      ApplyFiltersAndSearch();
    }

    method HandleSearch(term: string)
      modifies this
      ensures searchTerm == term && properties == old(properties) && filters == old(filters)
      ensures filteredProperties == Listing(properties, filters, searchTerm)
    {
      searchTerm := term;
      ApplyFiltersAndSearch();
    }
  }
}
