/** The favorites store (src/services/api/favoritesService.js): a list of
    `{propertyId, savedAt}` entries, changed in place by create and delete and
    written through to storage after each change. */
module Favorites {
  import opened Wrappers
  import opened Records

  /** Some entry is for `id`. */
  predicate Has(data: seq<Favorite>, id: int)
  {
    exists i :: 0 <= i < |data| && data[i].propertyId == id
  }

  /** `findIndex`: the first entry for `id`, or -1. */
  function IndexOf(data: seq<Favorite>, id: int): (r: int)
    ensures -1 <= r < |data|
    ensures r == -1 <==> !Has(data, id)
    ensures r >= 0 ==> data[r].propertyId == id
    ensures r >= 0 ==> forall j :: 0 <= j < r ==> data[j].propertyId != id
  {
    if data == [] then -1
    else if data[0].propertyId == id then 0
    else
      var k := IndexOf(data[1..], id);
      if k == -1 then -1 else k + 1
  }

  /** At most one entry per property id. */
  ghost predicate Unique(data: seq<Favorite>)
  {
    forall i, j :: 0 <= i < j < |data| ==> data[i].propertyId != data[j].propertyId
  }

  /** The list after `create(id)` at time `now`. */
  function Added(data: seq<Favorite>, id: int, now: int): seq<Favorite>
  {
    if Has(data, id) then data else data + [Favorite(id, now)]
  }

  /** The list after a successful `delete(id)`: the first entry for id spliced out. */
  function Removed(data: seq<Favorite>, id: int): seq<Favorite>
  {
    var k := IndexOf(data, id);
    if k == -1 then data else data[..k] + data[k + 1..]
  }

  /** The list after `toggle(id)`, run without interruption. */
  function Toggled(data: seq<Favorite>, id: int, now: int): seq<Favorite>
  {
    if Has(data, id) then Removed(data, id) else Added(data, id, now)
  }

  /** create on a new id appends exactly one entry; on a present id it changes nothing. */
  lemma AddedShape(data: seq<Favorite>, id: int, now: int)
    ensures Has(data, id) ==> Added(data, id, now) == data
    ensures !Has(data, id) ==>
      (|Added(data, id, now)| == |data| + 1 &&
       Added(data, id, now)[..|data|] == data &&
       Added(data, id, now)[|data|] == Favorite(id, now))
  {
  }

  /** delete on a present id removes one entry and keeps the others in order. */
  lemma RemovedShape(data: seq<Favorite>, id: int)
    requires Has(data, id)
    ensures var k := IndexOf(data, id);
      && |Removed(data, id)| == |data| - 1
      && Removed(data, id)[..k] == data[..k]
      && Removed(data, id)[k..] == data[k + 1..]
  {
    var k := IndexOf(data, id);
    assert Removed(data, id) == data[..k] + data[k + 1..];
  }

  lemma AddedUnique(data: seq<Favorite>, id: int, now: int)
    requires Unique(data)
    ensures Unique(Added(data, id, now))
  {
  }

  /** The entries after a delete are the old ones with the first match skipped. */
  lemma RemovedAt(data: seq<Favorite>, id: int, i: int)
    requires Has(data, id) && 0 <= i < |Removed(data, id)|
    ensures var k := IndexOf(data, id);
      Removed(data, id)[i] == if i < k then data[i] else data[i + 1]
  {
  }

  lemma RemovedUnique(data: seq<Favorite>, id: int)
    requires Unique(data)
    ensures Unique(Removed(data, id))
  {
    if Has(data, id) {
      var k := IndexOf(data, id);
      var r := Removed(data, id);
      forall i, j | 0 <= i < j < |r| ensures r[i].propertyId != r[j].propertyId {
        RemovedAt(data, id, i);
        RemovedAt(data, id, j);
        var i' := if i < k then i else i + 1;
        var j' := if j < k then j else j + 1;
        assert i' < j' && r[i] == data[i'] && r[j] == data[j'];
      }
    }
  }

  /** After create, exactly the old ids and the new one are present. */
  lemma AddedMembership(data: seq<Favorite>, id: int, now: int, x: int)
    ensures Has(Added(data, id, now), x) <==> Has(data, x) || x == id
  {
    if !Has(data, id) {
      var r := Added(data, id, now);
      assert r[|data|].propertyId == id;
      if Has(data, x) {
        var i :| 0 <= i < |data| && data[i].propertyId == x;
        assert r[i] == data[i];
      }
    }
  }

  /** After delete, with unique ids, exactly the old ids other than the deleted one remain. */
  lemma RemovedMembership(data: seq<Favorite>, id: int, x: int)
    requires Unique(data)
    ensures Has(Removed(data, id), x) <==> Has(data, x) && x != id
  {
    if Has(data, id) {
      var k := IndexOf(data, id);
      var r := Removed(data, id);
      if Has(r, x) {
        var i :| 0 <= i < |r| && r[i].propertyId == x;
        RemovedAt(data, id, i);
        var j := if i < k then i else i + 1;
        assert data[j].propertyId == x && j != k;
      }
      if Has(data, x) && x != id {
        var i :| 0 <= i < |data| && data[i].propertyId == x;
        assert i != k;
        var j := if i < k then i else i - 1;
        RemovedAt(data, id, j);
        assert r[j].propertyId == x;
      }
    }
  }

  /** toggle flips the membership of its id and of no other id. */
  lemma ToggledMembership(data: seq<Favorite>, id: int, now: int, x: int)
    requires Unique(data)
    ensures Has(Toggled(data, id, now), x) <==> if x == id then !Has(data, id) else Has(data, x)
  {
    if Has(data, id) {
      RemovedMembership(data, id, x);
    } else {
      AddedMembership(data, id, now, x);
    }
  }

  /** Two toggles restore every id's membership. */
  lemma ToggleTwice(data: seq<Favorite>, id: int, t1: int, t2: int, x: int)
    requires Unique(data)
    ensures Has(Toggled(Toggled(data, id, t1), id, t2), x) == Has(data, x)
  {
    ToggledMembership(data, id, t1, x);
    ToggledMembership(data, id, t1, id);
    if Has(data, id) { RemovedUnique(data, id); } else { AddedUnique(data, id, t1); }
    ToggledMembership(Toggled(data, id, t1), id, t2, x);
  }

  /** Two creates of one id leave one entry, carrying the first call's savedAt. */
  lemma AddTwice(data: seq<Favorite>, id: int, t1: int, t2: int)
    requires !Has(data, id)
    ensures Added(Added(data, id, t1), id, t2) == data + [Favorite(id, t1)]
  {
    AddedMembership(data, id, t1, id);
  }

  /** Two toggles of one id that both read before either writes: when both saw the id
      absent, the second create is a no-op and the id ends present, as after ONE toggle;
      when both saw it present, the id is gone after the first delete, so the second
      delete finds nothing and throws. */
  lemma ToggleRace(data: seq<Favorite>, id: int, t1: int, t2: int)
    requires Unique(data)
    ensures !Has(data, id) ==> Added(Added(data, id, t1), id, t2) == Toggled(data, id, t1)
    ensures Has(data, id) ==> !Has(Removed(data, id), id)
  {
    if Has(data, id) {
      RemovedMembership(data, id, id);
    } else {
      AddedMembership(data, id, t1, id);
    }
  }

  class FavoritesService {
    /** `this.data`, mirrored to storage after every change. */
    var data: seq<Favorite>

    constructor (stored: seq<Favorite>)
      ensures data == stored
    {
      data := stored;
    }

    /** `getAll`: a copy of the list. */
    method GetAll() returns (r: seq<Favorite>)
      ensures r == data
    {
      r := data;
    }

    /** `getById`: the first entry for id, or "Favorite not found". */
    method GetById(id: int) returns (r: Result<Favorite>)
      ensures r.Ok? <==> Has(data, id)
      ensures r.Ok? ==> r.value in data && r.value.propertyId == id
      ensures r.Ok? ==> r.value == data[IndexOf(data, id)]
      ensures r.Err? ==> r.message == "Favorite not found"
    {
      var k := IndexOf(data, id);
      if k == -1 {
        r := Err("Favorite not found");
      } else {
        r := Ok(data[k]);
      }
    }

    /** `isFavorite`: a pure membership query. */
    method IsFavorite(id: int) returns (b: bool)
      ensures b <==> exists i :: 0 <= i < |data| && data[i].propertyId == id
    {
      var k := IndexOf(data, id);
      b := k != -1;
    }

    /** `create`: returns the existing entry, or appends and returns a new one. */
    method Create(id: int, now: int) returns (r: Favorite)
      modifies this
      ensures data == Added(old(data), id, now)
      ensures Has(old(data), id) ==> r == old(data)[IndexOf(old(data), id)] && data == old(data)
      ensures !Has(old(data), id) ==> r == Favorite(id, now) && data == old(data) + [r]
      ensures Unique(old(data)) ==> Unique(data)
    {
      var k := IndexOf(data, id);
      if k != -1 {
        r := data[k];
      } else {
        r := Favorite(id, now);
        data := data + [r];
      }
      if Unique(old(data)) {
        AddedUnique(old(data), id, now);
      }
    }

    /** `delete`: splices out and returns the entry, or throws "Favorite not found". */
    method Delete(id: int) returns (r: Result<Favorite>)
      modifies this
      ensures r.Ok? <==> Has(old(data), id)
      ensures r.Ok? ==> r.value == old(data)[IndexOf(old(data), id)] && data == Removed(old(data), id)
      ensures r.Ok? ==> |data| == |old(data)| - 1
      ensures r.Err? ==> r.message == "Favorite not found" && data == old(data)
      ensures Unique(old(data)) ==> Unique(data)
    {
      var k := IndexOf(data, id);
      if k == -1 {
        r := Err("Favorite not found");
      } else {
        r := Ok(data[k]);
        data := data[..k] + data[k + 1..];
      }
      if Unique(old(data)) {
        RemovedUnique(old(data), id);
      }
    }

    /** `toggle`: the membership read, then delete or create. */
    method Toggle(id: int, now: int) returns (r: Result<Favorite>)
      modifies this
      ensures data == Toggled(old(data), id, now)
      ensures r.Ok?
      ensures Has(old(data), id) ==> r.value == old(data)[IndexOf(old(data), id)]
      ensures !Has(old(data), id) ==> r.value == Favorite(id, now)
      ensures Unique(old(data)) ==> Unique(data) && Has(data, id) == !Has(old(data), id)
    {
      var isFav := IsFavorite(id);
      r := ToggleWrite(id, isFav, now);
      if Unique(old(data)) {
        ToggledMembership(old(data), id, now, id);
      }
    }

    /** The write half of `toggle`, given the membership it read earlier.
        When another toggle of the same id ran in between, the read is stale: the
        delete may then throw, or the create may find the entry already there. */
    method ToggleWrite(id: int, wasFavorite: bool, now: int) returns (r: Result<Favorite>)
      modifies this
      ensures wasFavorite ==> data == (if Has(old(data), id) then Removed(old(data), id) else old(data))
      ensures wasFavorite ==> (r.Ok? <==> Has(old(data), id))
      ensures wasFavorite && r.Ok? ==> r.value == old(data)[IndexOf(old(data), id)]
      ensures wasFavorite && r.Err? ==> r.message == "Favorite not found"
      ensures !wasFavorite ==> data == Added(old(data), id, now) && r.Ok?
      ensures !wasFavorite && Has(old(data), id) ==> r.value == old(data)[IndexOf(old(data), id)]
      ensures !wasFavorite && !Has(old(data), id) ==> r.value == Favorite(id, now)
      ensures Unique(old(data)) ==> Unique(data)
    {
      if wasFavorite {
        r := Delete(id);
      } else {
        var created := Create(id, now);
        r := Ok(created);
      }
    }
  }
}
