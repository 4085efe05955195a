/** The property table (src/services/api/propertyService.js): an in-memory list of
    records, queried by filter, id and featured flag, and changed in place by create,
    update and delete. */
module Properties {
  import opened Wrappers
  import opened Records
  import opened Seqs
  import opened FilterState
  import opened Filtering

  /** The most records `getFeatured` returns. */
  const FeaturedLimit := 6

  /** The position of the first record with that id, or -1. */
  function IndexOfId(data: seq<Property>, id: int): (r: int)
    ensures -1 <= r < |data|
    ensures r == -1 <==> forall i :: 0 <= i < |data| ==> data[i].id != id
    ensures r >= 0 ==> data[r].id == id && forall j :: 0 <= j < r ==> data[j].id != id
  {
    if data == [] then -1
    else if data[0].id == id then 0
    else
      var k := IndexOfId(data[1..], id);
      if k == -1 then -1 else k + 1
  }

  /** The fields an `update` call passes; `None` for a field it leaves out. */
  datatype PropertyPatch = PropertyPatch(
    id: Option<int>,
    title: Option<string>,
    price: Option<int>,
    address: Option<Address>,
    bedrooms: Option<int>,
    bathrooms: Option<real>,
    squareFeet: Option<int>,
    propertyType: Option<string>,
    images: Option<seq<string>>,
    amenities: Option<Option<seq<string>>>,
    yearBuilt: Option<int>,
    status: Option<string>,
    featured: Option<bool>,
    createdAt: Option<Option<int>>)

  /** The record with every field the patch carries replaced. */
  function ApplyPatch(p: Property, u: PropertyPatch): Property
  {
    Property(
      Pick(p.id, u.id), Pick(p.title, u.title), Pick(p.price, u.price), Pick(p.address, u.address),
      Pick(p.bedrooms, u.bedrooms), Pick(p.bathrooms, u.bathrooms), Pick(p.squareFeet, u.squareFeet),
      Pick(p.propertyType, u.propertyType), Pick(p.images, u.images), Pick(p.amenities, u.amenities),
      Pick(p.yearBuilt, u.yearBuilt), Pick(p.status, u.status), Pick(p.featured, u.featured),
      Pick(p.createdAt, u.createdAt))
  }

  /** One field of a patched record: the patch's value when it carries one, and the
      record's own value otherwise. */
  predicate FieldFrom<T(==)>(patched: T, original: T, carried: Option<T>)
  {
    (carried.Some? ==> patched == carried.value) && (carried.None? ==> patched == original)
  }

  /** Every field the patch carries is taken from it and every other field is kept; a
      patch that names no field leaves the record as it is. */
  lemma PatchFields(p: Property, u: PropertyPatch)
    ensures var r := ApplyPatch(p, u);
      && FieldFrom(r.id, p.id, u.id)
      && FieldFrom(r.title, p.title, u.title)
      && FieldFrom(r.price, p.price, u.price)
      && FieldFrom(r.address, p.address, u.address)
      && FieldFrom(r.bedrooms, p.bedrooms, u.bedrooms)
      && FieldFrom(r.bathrooms, p.bathrooms, u.bathrooms)
      && FieldFrom(r.squareFeet, p.squareFeet, u.squareFeet)
      && FieldFrom(r.propertyType, p.propertyType, u.propertyType)
      && FieldFrom(r.images, p.images, u.images)
      && FieldFrom(r.amenities, p.amenities, u.amenities)
      && FieldFrom(r.yearBuilt, p.yearBuilt, u.yearBuilt)
      && FieldFrom(r.status, p.status, u.status)
      && FieldFrom(r.featured, p.featured, u.featured)
      && FieldFrom(r.createdAt, p.createdAt, u.createdAt)
    ensures u == PropertyPatch(None, None, None, None, None, None, None, None, None, None, None, None, None, None)
            ==> ApplyPatch(p, u) == p
  {
  }

  /** The featured records, in table order, at most six of them. */
  function Featured(data: seq<Property>): (r: seq<Property>)
    ensures |r| <= FeaturedLimit
    ensures forall i :: 0 <= i < |r| ==> r[i].featured
    ensures var all := Keep(data, (p: Property) => p.featured);
      |r| == (if |all| < FeaturedLimit then |all| else FeaturedLimit) && r == all[..|r|]
  {
    var all := Keep(data, (p: Property) => p.featured);
    if |all| <= FeaturedLimit then all else all[..FeaturedLimit]
  }

  /** The featured list keeps table order: it is a subsequence of the table. */
  lemma FeaturedIsSubsequence(data: seq<Property>)
    ensures IsSubsequence(Featured(data), data)
  {
    var all := Keep(data, (p: Property) => p.featured);
    KeepIsSubsequence(data, (p: Property) => p.featured);
    PrefixIsSubsequence(all, |Featured(data)|, data);
  }

  /** A prefix of a subsequence is a subsequence. */
  lemma {:induction false} PrefixIsSubsequence<T>(a: seq<T>, n: nat, b: seq<T>)
    requires n <= |a| && IsSubsequence(a, b)
    ensures IsSubsequence(a[..n], b)
    decreases |b|
  {
    if n > 0 && b != [] {
      if a[0] == b[0] && IsSubsequence(a[1..], b[1..]) {
        PrefixIsSubsequence(a[1..], n - 1, b[1..]);
        assert a[..n][1..] == a[1..][..n - 1];
      } else {
        PrefixIsSubsequence(a, n, b[1..]);
      }
    }
  }

  class PropertyService {
    var data: seq<Property>

    constructor (initial: seq<Property>)
      ensures data == initial
    {
      data := initial;
    }

    /** `getAll(filters)`: the records passing every truthy filter, in table order. */
    method GetAll(filters: Filters) returns (r: seq<Property>)
      ensures r == Keep(data, p => MatchesFilters(p, filters))
      ensures IsSubsequence(r, data)
    {
      r := ApplyFilterStages(data, filters);
      KeepIsSubsequence(data, p => MatchesFilters(p, filters));
    }

    /** `getById`: the first record with the id, or "Property not found". */
    method GetById(id: int) returns (r: Result<Property>)
      ensures r.Ok? <==> exists i :: 0 <= i < |data| && data[i].id == id
      ensures r.Ok? ==> r.value == data[IndexOfId(data, id)] && r.value.id == id
      ensures r.Err? ==> r.message == "Property not found"
    {
      var k := IndexOfId(data, id);
      if k == -1 {
        r := Err("Property not found");
      } else {
        r := Ok(data[k]);
      }
    }

    /** `getFeatured`: the first six featured records, in table order. */
    method GetFeatured() returns (r: seq<Property>)
      ensures r == Featured(data)
    {
      var all := Keep(data, (p: Property) => p.featured);
      r := if |all| <= FeaturedLimit then all else all[..FeaturedLimit];
    }

    /** `create`: appends the record with a fresh id and creation time. */
    method Create(property: Property, newId: int, now: int) returns (r: Property)
      modifies this
      ensures r == property.(id := newId, createdAt := Some(now))
      ensures data == old(data) + [r]
    {
      r := property.(id := newId, createdAt := Some(now));
      data := data + [r];
    }

    /** `update`: merges the patch over the record with the id, or throws. */
    method Update(id: int, patch: PropertyPatch) returns (r: Result<Property>)
      modifies this
      ensures var k := IndexOfId(old(data), id);
        && (k == -1 ==> r == Err("Property not found") && data == old(data))
        && (k >= 0 ==> r == Ok(ApplyPatch(old(data)[k], patch)) && data == old(data)[k := r.value])
      ensures |data| == |old(data)|
    {
      var k := IndexOfId(data, id);
      if k == -1 {
        r := Err("Property not found");
      } else {
        data := data[k := ApplyPatch(data[k], patch)];
        r := Ok(data[k]);
      }
    }

    /** `delete`: splices out and returns the record with the id, or throws. */
    method Delete(id: int) returns (r: Result<Property>)
      modifies this
      ensures var k := IndexOfId(old(data), id);
        && (k == -1 ==> r == Err("Property not found") && data == old(data))
        && (k >= 0 ==> r == Ok(old(data)[k]) && data == old(data)[..k] + old(data)[k + 1..]
                       && |data| == |old(data)| - 1)
    {
      var k := IndexOfId(data, id);
      if k == -1 {
        r := Err("Property not found");
      } else {
        r := Ok(data[k]);
        data := data[..k] + data[k + 1..];
      }
    }
  }
}
