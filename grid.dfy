/** The property grid's client-side sort (src/components/organisms/PropertyGrid.jsx). */
module Grid {
  import opened Wrappers
  import opened Records
  import opened StableSort

  /** The rank each sort key orders by, ascending; `None` for a key the switch does
      not handle, which leaves the copy unsorted. */
  function GridRank(sortBy: string): Option<Property -> int>
  {
    if sortBy == "price-low" then Some((p: Property) => p.price)
    else if sortBy == "price-high" then Some((p: Property) => -p.price)
    else if sortBy == "beds-high" then Some((p: Property) => -p.bedrooms)
    else if sortBy == "sqft-high" then Some((p: Property) => -p.squareFeet)
    else if sortBy == "newest" then Some((p: Property) => -p.yearBuilt)
    else None
  }

  /** The grid's ordering of a list under a sort key. */
  function GridSort(properties: seq<Property>, sortBy: string): seq<Property>
  {
    match GridRank(sortBy)
    case None => properties
    case Some(rank) => SortByRank(properties, rank)
  }

  /** The values the sort dropdown offers. */
  function SortOptions(): (r: seq<string>)
    ensures |r| == 5 && r[0] == DefaultSort
  {
    ["price-low", "price-high", "beds-high", "sqft-high", "newest"]
  }

  const DefaultSort := "price-low"

  /** Every dropdown value is a key the switch handles. */
  lemma OptionsAreHandled(i: nat)
    requires i < |SortOptions()|
    ensures GridRank(SortOptions()[i]).Some?
  {
  }

  /** Whatever the key, the grid shows exactly the listings it was given. */
  lemma GridSortPermutation(properties: seq<Property>, sortBy: string)
    ensures multiset(GridSort(properties, sortBy)) == multiset(properties)
  {
    if GridRank(sortBy).Some? {
      SortPermutation(properties, GridRank(sortBy).value);
    }
  }

  /** Each handled key orders the grid by its field in its direction. */
  lemma GridSortOrder(properties: seq<Property>, sortBy: string, i: int, j: int)
    requires 0 <= i < j < |GridSort(properties, sortBy)|
    ensures sortBy == "price-low" ==> GridSort(properties, sortBy)[i].price <= GridSort(properties, sortBy)[j].price
    ensures sortBy == "price-high" ==> GridSort(properties, sortBy)[i].price >= GridSort(properties, sortBy)[j].price
    ensures sortBy == "beds-high" ==> GridSort(properties, sortBy)[i].bedrooms >= GridSort(properties, sortBy)[j].bedrooms
    ensures sortBy == "sqft-high" ==> GridSort(properties, sortBy)[i].squareFeet >= GridSort(properties, sortBy)[j].squareFeet
    ensures sortBy == "newest" ==> GridSort(properties, sortBy)[i].yearBuilt >= GridSort(properties, sortBy)[j].yearBuilt
  {
    if GridRank(sortBy).Some? {
      var rank := GridRank(sortBy).value;
      SortSorted(properties, rank);
      assert rank(GridSort(properties, sortBy)[i]) <= rank(GridSort(properties, sortBy)[j]);
    }
  }

  /** Listings that tie on the key keep the order they arrived in. */
  lemma GridSortStable(properties: seq<Property>, sortBy: string)
    requires GridRank(sortBy).Some?
    ensures Stable(properties, GridSort(properties, sortBy), GridRank(sortBy).value)
  {
    SortStable(properties, GridRank(sortBy).value);
  }

  /** An unhandled key shows the listings in the order they arrived. */
  lemma UnknownKeyKeepsOrder(properties: seq<Property>, sortBy: string)
    requires sortBy !in SortOptions()
    ensures GridSort(properties, sortBy) == properties
  {
  }

  class PropertyGrid {
    var properties: seq<Property>
    var sortBy: string
    var sortedProperties: seq<Property>

    /** Mounting: the default key, then the sort effect. */
    constructor (properties: seq<Property>)
      ensures this.properties == properties && sortBy == DefaultSort
      ensures sortedProperties == GridSort(properties, DefaultSort)
    {
      this.properties := properties;
      sortBy := DefaultSort;
      sortedProperties := GridSort(properties, DefaultSort);
    }

    /** The sort effect: a sorted copy of the current listings. */
    method SortEffect()
      modifies this
      ensures properties == old(properties) && sortBy == old(sortBy)
      ensures sortedProperties == GridSort(properties, sortBy)
      ensures multiset(sortedProperties) == multiset(properties)
    {
      sortedProperties := GridSort(properties, sortBy);
      GridSortPermutation(properties, sortBy);
    }

    /** Choosing a dropdown value re-runs the effect. */
    method SetSortBy(key: string)
      modifies this
      ensures properties == old(properties) && sortBy == key
      ensures sortedProperties == GridSort(properties, key)
      ensures multiset(sortedProperties) == multiset(properties)
    {
      sortBy := key;
      SortEffect();
    }

    /** New listings from the parent re-run the effect with the current key. */
    method SetProperties(ps: seq<Property>)
      modifies this
      ensures properties == ps && sortBy == old(sortBy)
      ensures sortedProperties == GridSort(ps, sortBy)
      ensures multiset(sortedProperties) == multiset(ps)
    {
      properties := ps;
      SortEffect();
    }
  }
}
