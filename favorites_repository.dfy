/** `FavoritesRepository`: an in-memory list of at most five distinct
    colours, kept in the order they were added. */
module Favorites {
  import opened Rgb

  const MaxFavorites: nat := 5

  predicate NoDuplicates<T(==)>(s: seq<T>) {
    forall i, j :: 0 <= i < j < |s| ==> s[i] != s[j]
  }

  /** Kotlin's `MutableList.remove(element)`: drops the first occurrence of
      `x`, if there is one, and keeps the rest in order. */
  function RemoveFirst<T(==)>(s: seq<T>, x: T): (r: seq<T>)
    ensures x !in s ==> r == s
    ensures x in s ==> |r| == |s| - 1
  {
    if s == [] then []
    else
      assert s == [s[0]] + s[1..];
      if s[0] == x then s[1..]
      else [s[0]] + RemoveFirst(s[1..], x)
  }

  /** The index of the first occurrence of `x`. */
  function FirstIndex<T(==)>(s: seq<T>, x: T): (i: nat)
    requires x in s
    ensures i < |s| && s[i] == x && x !in s[..i]
  {
    if s[0] == x then 0 else 1 + FirstIndex(s[1..], x)
  }

  /** Removal cuts out exactly the first occurrence. */
  lemma {:induction false} RemoveFirstCutsFirstOccurrence<T>(s: seq<T>, x: T)
    requires x in s
    ensures RemoveFirst(s, x) == s[..FirstIndex(s, x)] + s[FirstIndex(s, x) + 1..]
  {
    if s[0] != x {
      var t := s[1..];
      var k := FirstIndex(t, x);
      RemoveFirstCutsFirstOccurrence(t, x);
      calc {
        RemoveFirst(s, x);
        [s[0]] + RemoveFirst(t, x);
        [s[0]] + (t[..k] + t[k + 1..]);
        { assert [s[0]] + t[..k] == s[..k + 1]; assert t[k + 1..] == s[k + 2..]; }
        s[..k + 1] + s[k + 2..];
      }
    }
  }

  /** Removing from a duplicate-free list keeps it duplicate-free and leaves
      no copy of the removed element. */
  lemma {:induction false} RemoveFirstKeepsDistinct<T>(s: seq<T>, x: T)
    requires NoDuplicates(s)
    ensures NoDuplicates(RemoveFirst(s, x))
    ensures x !in RemoveFirst(s, x)
  {
    if x in s {
      var k := FirstIndex(s, x);
      RemoveFirstCutsFirstOccurrence(s, x);
      var r := s[..k] + s[k + 1..];
      assert |r| == |s| - 1;
      assert forall i :: 0 <= i < |r| ==> r[i] == s[if i < k then i else i + 1];
    }
  }

  class FavoritesRepository {
    var favorites: seq<RgbColor>

    ghost predicate Valid()
      reads this
    {
      |favorites| <= MaxFavorites && NoDuplicates(favorites)
    }

    constructor()
      ensures Valid() && favorites == []
    {
      favorites := [];
    }

    /** Refuses when the list is full or already holds the colour;
        otherwise appends it. */
    method AddFavorite(color: RgbColor) returns (added: bool)
      requires Valid()
      modifies this
      ensures Valid()
      ensures added <==> |old(favorites)| < MaxFavorites && color !in old(favorites)
      ensures favorites == if added then old(favorites) + [color] else old(favorites)
    {
      if |favorites| >= MaxFavorites {
        return false;
      }
      if color in favorites {
        return false;
      }
      favorites := favorites + [color];
      added := true;
    }

    /** True iff the colour was present; its one occurrence is removed and
        the others keep their order. */
    method RemoveFavorite(color: RgbColor) returns (removed: bool)
      requires Valid()
      modifies this
      ensures Valid()
      ensures removed <==> color in old(favorites)
      ensures favorites == RemoveFirst(old(favorites), color)
      ensures color !in favorites
    {
      removed := color in favorites;
      RemoveFirstKeepsDistinct(favorites, color);
      favorites := RemoveFirst(favorites, color);
    }

    /** A copy of the list in insertion order. */
    method GetFavorites() returns (list: seq<RgbColor>)
      ensures list == favorites
    {
      list := favorites;
    }

    method ClearFavorites()
      modifies this
      ensures Valid() && favorites == []
    {
      favorites := [];
    }

    method IsFavorite(color: RgbColor) returns (present: bool)
      ensures present <==> color in favorites
    {
      present := color in favorites;
    }

    method CanAddMore() returns (room: bool)
      ensures room <==> |favorites| < MaxFavorites
    {
      room := |favorites| < MaxFavorites;
    }
  }

  /** What a caller can conclude from the contracts alone: a second add of
      the same colour and a sixth distinct colour are both refused, and a
      cleared list has room again. */
  method FavoritesScenario(colors: seq<RgbColor>)
    requires |colors| == 6 && NoDuplicates(colors)
  {
    var repo := new FavoritesRepository();
    var ok := repo.AddFavorite(colors[0]);
    assert ok;
    ok := repo.AddFavorite(colors[0]);
    assert !ok && repo.favorites == colors[..1];
    for i := 1 to 5
      invariant repo.Valid() && repo.favorites == colors[..i]
    {
      assert colors[i] !in colors[..i];
      ok := repo.AddFavorite(colors[i]);
      assert colors[..i] + [colors[i]] == colors[..i + 1];
    }
    assert colors[5] !in repo.favorites;
    ok := repo.AddFavorite(colors[5]);
    assert !ok && |repo.favorites| == 5;
    ok := repo.RemoveFavorite(colors[5]);
    assert !ok;
    repo.ClearFavorites();
    var room := repo.CanAddMore();
    assert room;
  }
}
