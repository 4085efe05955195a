/** The filter stages that both the property service's `getAll` and the browse page
    apply, and the browse page's free-text search. Each stage is skipped when its
    filter value is falsy. */
module Filtering {
  import opened Wrappers
  import opened Text
  import opened Records
  import opened Seqs
  import opened FilterState

  predicate PriceMinOk(p: Property, f: Filters)     { f.priceMin.None? || p.price >= f.priceMin.value }
  predicate PriceMaxOk(p: Property, f: Filters)     { f.priceMax.None? || p.price <= f.priceMax.value }
  predicate BedroomsOk(p: Property, f: Filters)     { f.bedroomsMin.None? || p.bedrooms >= f.bedroomsMin.value }
  predicate BathroomsOk(p: Property, f: Filters)    { f.bathroomsMin.None? || p.bathrooms >= f.bathroomsMin.value }
  predicate TypeOk(p: Property, f: Filters)         { |f.propertyTypes| == 0 || p.propertyType in f.propertyTypes }
  predicate SquareFeetOk(p: Property, f: Filters)   { f.squareFeetMin.None? || p.squareFeet >= f.squareFeetMin.value }

  /** The location text occurs, ignoring case, in the city, the state or the street. */
  predicate LocationOk(p: Property, f: Filters)
  {
    f.location == [] ||
    IncludesIgnoringCase(p.address.city, f.location) ||
    IncludesIgnoringCase(p.address.state, f.location) ||
    IncludesIgnoringCase(p.address.street, f.location)
  }

  /** The conjunction of the seven stages. */
  predicate MatchesFilters(p: Property, f: Filters)
  {
    PriceMinOk(p, f) && PriceMaxOk(p, f) && BedroomsOk(p, f) && BathroomsOk(p, f) &&
    TypeOk(p, f) && LocationOk(p, f) && SquareFeetOk(p, f)
  }

  /** Some amenity contains the term; a missing amenity list matches nothing. */
  predicate AmenityMatches(amenities: Option<seq<string>>, term: string)
  {
    amenities.Some? && exists i :: 0 <= i < |amenities.value| && IncludesIgnoringCase(amenities.value[i], term)
  }

  /** The search stage: the term occurs, ignoring case, in the title, city, state,
      street or type, or in some amenity. An empty term skips the stage. */
  predicate MatchesSearch(p: Property, term: string)
  {
    term == [] ||
    IncludesIgnoringCase(p.title, term) ||
    IncludesIgnoringCase(p.address.city, term) ||
    IncludesIgnoringCase(p.address.state, term) ||
    IncludesIgnoringCase(p.address.street, term) ||
    IncludesIgnoringCase(p.propertyType, term) ||
    AmenityMatches(p.amenities, term)
  }

  /** Filtering by acc and then by ok is filtering by acc2, their conjunction. */
  lemma Step(s: seq<Property>, before: seq<Property>, after: seq<Property>,
             acc: Property -> bool, ok: Property -> bool, acc2: Property -> bool)
    requires before == Keep(s, acc) && after == Keep(before, ok)
    requires forall p :: acc2(p) == (acc(p) && ok(p))
    ensures after == Keep(s, acc2)
  {
    KeepKeep(s, acc, ok, acc2);
  }

  method PriceMinStage(s: seq<Property>, f: Filters) returns (r: seq<Property>)
    ensures r == Keep(s, p => PriceMinOk(p, f))
  {
    r := s;
    if f.priceMin.Some? {
      r := Keep(r, (p: Property) => p.price >= f.priceMin.value);
      KeepAgree(s, (p: Property) => p.price >= f.priceMin.value, p => PriceMinOk(p, f));
    } else {
      KeepAll(s, p => PriceMinOk(p, f));
    }
  }

  method PriceMaxStage(s: seq<Property>, f: Filters) returns (r: seq<Property>)
    ensures r == Keep(s, p => PriceMaxOk(p, f))
  {
    r := s;
    if f.priceMax.Some? {
      r := Keep(r, (p: Property) => p.price <= f.priceMax.value);
      KeepAgree(s, (p: Property) => p.price <= f.priceMax.value, p => PriceMaxOk(p, f));
    } else {
      KeepAll(s, p => PriceMaxOk(p, f));
    }
  }

  method BedroomsStage(s: seq<Property>, f: Filters) returns (r: seq<Property>)
    ensures r == Keep(s, p => BedroomsOk(p, f))
  {
    r := s;
    if f.bedroomsMin.Some? {
      r := Keep(r, (p: Property) => p.bedrooms >= f.bedroomsMin.value);
      KeepAgree(s, (p: Property) => p.bedrooms >= f.bedroomsMin.value, p => BedroomsOk(p, f));
    } else {
      KeepAll(s, p => BedroomsOk(p, f));
    }
  }

  method BathroomsStage(s: seq<Property>, f: Filters) returns (r: seq<Property>)
    ensures r == Keep(s, p => BathroomsOk(p, f))
  {
    r := s;
    if f.bathroomsMin.Some? {
      r := Keep(r, (p: Property) => p.bathrooms >= f.bathroomsMin.value);
      KeepAgree(s, (p: Property) => p.bathrooms >= f.bathroomsMin.value, p => BathroomsOk(p, f));
    } else {
      KeepAll(s, p => BathroomsOk(p, f));
    }
  }

  method TypeStage(s: seq<Property>, f: Filters) returns (r: seq<Property>)
    ensures r == Keep(s, p => TypeOk(p, f))
  {
    r := s;
    if |f.propertyTypes| > 0 {
      r := Keep(r, (p: Property) => p.propertyType in f.propertyTypes);
      KeepAgree(s, (p: Property) => p.propertyType in f.propertyTypes, p => TypeOk(p, f));
    } else {
      KeepAll(s, p => TypeOk(p, f));
    }
  }

  method LocationStage(s: seq<Property>, f: Filters) returns (r: seq<Property>)
    ensures r == Keep(s, p => LocationOk(p, f))
  {
    r := s;
    if f.location != [] {
      r := Keep(r, (p: Property) => LocationOk(p, f));
    } else {
      KeepAll(s, p => LocationOk(p, f));
    }
  }

  method SquareFeetStage(s: seq<Property>, f: Filters) returns (r: seq<Property>)
    ensures r == Keep(s, p => SquareFeetOk(p, f))
  {
    r := s;
    if f.squareFeetMin.Some? {
      r := Keep(r, (p: Property) => p.squareFeet >= f.squareFeetMin.value);
      KeepAgree(s, (p: Property) => p.squareFeet >= f.squareFeetMin.value, p => SquareFeetOk(p, f));
    } else {
      KeepAll(s, p => SquareFeetOk(p, f));
    }
  }

  /** Runs the seven stages one after the other, as both call sites do. */
  method ApplyFilterStages(s: seq<Property>, f: Filters) returns (r: seq<Property>)
    ensures r == Keep(s, p => MatchesFilters(p, f))
  {
    var r1 := PriceMinStage(s, f);
    var r2 := PriceMaxStage(r1, f);
    Step(s, r1, r2, p => PriceMinOk(p, f), p => PriceMaxOk(p, f), p => Upto(p, f, 2));
    var r3 := BedroomsStage(r2, f);
    Step(s, r2, r3, p => Upto(p, f, 2), p => BedroomsOk(p, f), p => Upto(p, f, 3));
    var r4 := BathroomsStage(r3, f);
    Step(s, r3, r4, p => Upto(p, f, 3), p => BathroomsOk(p, f), p => Upto(p, f, 4));
    var r5 := TypeStage(r4, f);
    Step(s, r4, r5, p => Upto(p, f, 4), p => TypeOk(p, f), p => Upto(p, f, 5));
    var r6 := LocationStage(r5, f);
    Step(s, r5, r6, p => Upto(p, f, 5), p => LocationOk(p, f), p => Upto(p, f, 6));
    r := SquareFeetStage(r6, f);
    Step(s, r6, r, p => Upto(p, f, 6), p => SquareFeetOk(p, f), p => MatchesFilters(p, f));
  }

  /** The first n stages' conjunction (n from 2 to 6), the state after n stages. */
  predicate Upto(p: Property, f: Filters, n: nat)
  {
    PriceMinOk(p, f) && PriceMaxOk(p, f) &&
    (n >= 3 ==> BedroomsOk(p, f)) && (n >= 4 ==> BathroomsOk(p, f)) &&
    (n >= 5 ==> TypeOk(p, f)) && (n >= 6 ==> LocationOk(p, f))
  }

  /** With every filter falsy and no type chosen, nothing is filtered out. */
  lemma {:induction false} DefaultsKeepAll(s: seq<Property>)
    ensures Keep(s, p => MatchesFilters(p, Defaults)) == s
  {
    KeepAll(s, p => MatchesFilters(p, Defaults));
  }

  /** Bounds are inclusive: a price equal to a bound passes that bound's stage, and
      a price one beyond it does not. */
  lemma PriceBoundsInclusive(p: Property, f: Filters)
    ensures f.priceMin == Some(p.price) ==> PriceMinOk(p, f)
    ensures f.priceMax == Some(p.price) ==> PriceMaxOk(p, f)
    ensures f.priceMin == Some(p.price + 1) ==> !PriceMinOk(p, f)
    ensures f.priceMax == Some(p.price - 1) ==> !PriceMaxOk(p, f)
  {
  }

  /** An empty type list constrains nothing; a non-empty one demands membership. */
  lemma TypeListMeaning(p: Property, f: Filters)
    ensures |f.propertyTypes| == 0 ==> TypeOk(p, f)
    ensures |f.propertyTypes| > 0 ==> (TypeOk(p, f) <==> p.propertyType in f.propertyTypes)
  {
  }

  /** The search does not depend on the letter case of the term. */
  lemma SearchIgnoresTermCase(p: Property, t1: string, t2: string)
    requires Lower(t1) == Lower(t2)
    ensures MatchesSearch(p, t1) == MatchesSearch(p, t2)
  {
    assert |t1| == |Lower(t1)| == |Lower(t2)| == |t2|;
  }
}
