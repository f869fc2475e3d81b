/**
 * The favorites list of src/contexts/FavoritesContext.tsx: properties
 * kept at most once per id, in the order they were added.
 */
module Favorites {
  import opened PropertyTypes
  import opened Seqs
  import opened Catalog

  /** No two favorites share an id. */
  predicate UniqueIds(favorites: seq<Property>) {
    forall i, j :: 0 <= i < j < |favorites| ==> favorites[i].id != favorites[j].id
  }

  /** The list after `addToFavorites(property)`. */
  function Added(favorites: seq<Property>, property: Property): (r: seq<Property>)
    ensures HasId(favorites, property.id) ==> r == favorites
    ensures !HasId(favorites, property.id) ==> r == favorites + [property]
    ensures HasId(r, property.id)
    ensures UniqueIds(favorites) ==> UniqueIds(r)
  {
    if HasId(favorites, property.id) then favorites
    else
      assert (favorites + [property])[|favorites|].id == property.id;
      favorites + [property]
  }

  /** The list after `removeFromFavorites(propertyId)`. */
  function Removed(favorites: seq<Property>, propertyId: int): (r: seq<Property>)
    ensures !HasId(r, propertyId)
    ensures forall i :: 0 <= i < |favorites| && favorites[i].id != propertyId ==> favorites[i] in r
    ensures forall i :: 0 <= i < |r| ==> r[i] in favorites
  {
    Filter(favorites, (f: Property) => f.id != propertyId)
  }

  /** Removal keeps the other favorites in their order. */
  lemma RemovedKeepsOrder(favorites: seq<Property>, propertyId: int)
    ensures IsSubsequence(Removed(favorites, propertyId), favorites)
  {
    FilterIsSubsequence(favorites, (f: Property) => f.id != propertyId);
  }

  lemma {:induction false} RemovedKeepsUnique(favorites: seq<Property>, propertyId: int)
    requires UniqueIds(favorites)
    ensures UniqueIds(Removed(favorites, propertyId))
  {
    if favorites != [] {
      UniqueTail(favorites);
      RemovedKeepsUnique(favorites[1..], propertyId);
      var tail := Removed(favorites[1..], propertyId);
      if favorites[0].id != propertyId {
        assert Removed(favorites, propertyId) == [favorites[0]] + tail;
        HeadIdNotInTail(favorites, tail);
        UniqueCons(favorites[0], tail);
      } else {
        assert Removed(favorites, propertyId) == tail;
      }
    }
  }

  lemma UniqueTail(favorites: seq<Property>)
    requires favorites != [] && UniqueIds(favorites)
    ensures UniqueIds(favorites[1..])
  {
    var rest := favorites[1..];
    forall i, j | 0 <= i < j < |rest| ensures rest[i].id != rest[j].id {
      assert rest[i] == favorites[i + 1] && rest[j] == favorites[j + 1];
    }
  }

  /** No element drawn from the rest of a duplicate-free list shares the head's id. */
  lemma HeadIdNotInTail(favorites: seq<Property>, tail: seq<Property>)
    requires favorites != [] && UniqueIds(favorites)
    requires forall k :: 0 <= k < |tail| ==> tail[k] in favorites[1..]
    ensures forall k :: 0 <= k < |tail| ==> tail[k].id != favorites[0].id
  {
    forall k | 0 <= k < |tail| ensures tail[k].id != favorites[0].id {
      var m :| 0 <= m < |favorites[1..]| && favorites[1..][m] == tail[k];
      assert favorites[m + 1] == tail[k];
    }
  }

  lemma UniqueCons(head: Property, tail: seq<Property>)
    requires UniqueIds(tail)
    requires forall k :: 0 <= k < |tail| ==> tail[k].id != head.id
    ensures UniqueIds([head] + tail)
  {
    var r := [head] + tail;
    forall i, j | 0 <= i < j < |r| ensures r[i].id != r[j].id {
      assert r[j] == tail[j - 1];
      if i > 0 {
        assert r[i] == tail[i - 1];
      }
    }
  }

  /** Adding a property whose id is absent and then removing that id restores the list. */
  lemma AddThenRemove(favorites: seq<Property>, property: Property)
    requires !HasId(favorites, property.id)
    ensures Removed(Added(favorites, property), property.id) == favorites
  {
    var keep := (f: Property) => f.id != property.id;
    FilterAppend(favorites, [property], keep);
    FilterKeepsAll(favorites, keep);
    assert Filter([property], keep) == [];
  }

  /** The list after `toggleFavorite(property)`. */
  function Toggled(favorites: seq<Property>, property: Property): seq<Property> {
    if HasId(favorites, property.id) then Removed(favorites, property.id) else Added(favorites, property)
  }

  /** Toggling flips whether the id is a favorite and leaves every other id as it was. */
  lemma ToggleFlips(favorites: seq<Property>, property: Property, otherId: int)
    requires otherId != property.id
    ensures HasId(Toggled(favorites, property), property.id) <==> !HasId(favorites, property.id)
    ensures HasId(Toggled(favorites, property), otherId) <==> HasId(favorites, otherId)
  {
    var r := Toggled(favorites, property);
    if HasId(favorites, otherId) {
      var i :| 0 <= i < |favorites| && favorites[i].id == otherId;
      assert favorites[i] in r;
    }
    if HasId(r, otherId) {
      var i :| 0 <= i < |r| && r[i].id == otherId;
      if !HasId(favorites, property.id) {
        assert i < |favorites| ==> favorites[i] == r[i];
      }
    }
  }

  /** Toggling preserves the one-entry-per-id invariant. */
  lemma ToggleKeepsUnique(favorites: seq<Property>, property: Property)
    requires UniqueIds(favorites)
    ensures UniqueIds(Toggled(favorites, property))
  {
    if HasId(favorites, property.id) {
      RemovedKeepsUnique(favorites, property.id);
    }
  }

  class FavoritesStore {
    var favorites: seq<Property>

    ghost predicate Valid()
      reads this
    {
      UniqueIds(favorites)
    }

    /** The provider starts with an empty list. */
    constructor ()
      ensures favorites == [] && Valid()
    {
      favorites := [];
    }

    /** `isFavorite(propertyId)`. */
    function IsFavorite(propertyId: int): (r: bool)
      reads this
      ensures r <==> exists i :: 0 <= i < |favorites| && favorites[i].id == propertyId
    {
      HasId(favorites, propertyId)
    }

    /** `favoriteCount`. */
    function FavoriteCount(): (n: nat)
      reads this
      ensures n == |favorites|
    {
      |favorites|
    }

    method AddToFavorites(property: Property)
      requires Valid()
      modifies this
      ensures Valid()
      ensures favorites == Added(old(favorites), property)
      ensures IsFavorite(property.id)
    {
      var present := HasId(favorites, property.id);
      if !present {
        favorites := favorites + [property];
      }
    }

    method RemoveFromFavorites(propertyId: int)
      requires Valid()
      modifies this
      ensures Valid()
      ensures favorites == Removed(old(favorites), propertyId)
      ensures !IsFavorite(propertyId)
    {
      RemovedKeepsUnique(favorites, propertyId);
      favorites := Removed(favorites, propertyId);
    }

    method ToggleFavorite(property: Property)
      requires Valid()
      modifies this
      ensures Valid()
      ensures favorites == Toggled(old(favorites), property)
      ensures IsFavorite(property.id) <==> !old(IsFavorite(property.id))
    {
      if IsFavorite(property.id) {
        RemoveFromFavorites(property.id);
      } else {
        AddToFavorites(property);
      }
    }

    method ClearFavorites()
      requires Valid()
      modifies this
      ensures Valid()
      ensures favorites == [] && FavoriteCount() == 0
    {
      favorites := [];
    }
  }
}
