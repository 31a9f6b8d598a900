/** The saved favorites: an ordered list of cities kept unique by name. The
    JSON round-trip through `localStorage` is abstracted into the field
    `entries` of a store object. */
module Favorites {
  import opened Wrappers
  import Search

  type City = Search.City

  /** Some entry of `s` carries `name` (what `favorites.find(f => f.name === name)` tests). */
  predicate HasName(s: seq<City>, name: string)
  {
    exists i :: 0 <= i < |s| && s[i].name == name
  }

  /** No two entries share a name. */
  predicate UniqueNames(s: seq<City>)
  {
    forall i, j :: 0 <= i < j < |s| ==> s[i].name != s[j].name
  }

  /** `favorites.filter(f => f.name !== name)`: every entry named `name` is
      dropped, every other entry is kept, and no entry is invented. */
  function Without(s: seq<City>, name: string): (r: seq<City>)
    ensures |r| <= |s|
    ensures !HasName(r, name)
    ensures forall c :: c in r <==> c in s && c.name != name
    ensures !HasName(s, name) ==> r == s
  {
    if s == [] then []
    else
      var rest := Without(s[1..], name);
      assert !HasName(s[1..], name) ==> rest == s[1..];
      if s[0].name == name then rest else [s[0]] + rest
  }

  /** Filtering a concatenation filters each part: the entries kept stay in
      their original relative order. */
  lemma {:induction false} WithoutDistributes(a: seq<City>, b: seq<City>, name: string)
    ensures Without(a + b, name) == Without(a, name) + Without(b, name)
  {
    if a != [] {
      assert (a + b)[1..] == a[1..] + b;
      WithoutDistributes(a[1..], b, name);
    } else {
      assert a + b == b;
    }
  }

  /** Removing a name keeps the names of the list unique. */
  lemma {:induction false} WithoutKeepsUnique(s: seq<City>, name: string)
    requires UniqueNames(s)
    ensures UniqueNames(Without(s, name))
  {
    if s != [] {
      WithoutKeepsUnique(s[1..], name);
      var rest := Without(s[1..], name);
      if s[0].name != name {
        forall c | c in rest ensures c.name != s[0].name {
          assert c in s[1..];
          var j :| 0 <= j < |s[1..]| && s[1..][j] == c;
          assert s[j + 1] == c;
        }
      }
    }
  }

  /** Adding a new city and then removing it by name gives back the list. */
  lemma AddThenRemove(s: seq<City>, c: City)
    requires !HasName(s, c.name)
    ensures Without(s + [c], c.name) == s
  {
    WithoutDistributes(s, [c], c.name);
  }

  /** What clicking the favorite button does. */
  datatype AddOutcome =
    | NoCitySelected   // shows "Aucune ville sélectionnée."
    | AlreadySaved     // silently does nothing
    | Added

  class FavoritesStore {
    /** The list stored under the favorites key, in insertion order. */
    var entries: seq<City>

    constructor (stored: seq<City>)
      ensures entries == stored
    {
      entries := stored;
    }

    /** The favorite button's handler: without a current city it reports an
        error; with one whose name is already saved it changes nothing;
        otherwise it appends the current city at the end. */
    method AddCurrent(current: Option<City>) returns (outcome: AddOutcome)
      modifies this
      ensures current.None? ==> outcome == NoCitySelected && entries == old(entries)
      ensures current.Some? && HasName(old(entries), current.value.name) ==>
        outcome == AlreadySaved && entries == old(entries)
      ensures current.Some? && !HasName(old(entries), current.value.name) ==>
        outcome == Added && entries == old(entries) + [current.value]
      ensures UniqueNames(old(entries)) ==> UniqueNames(entries)
    {
      if current.None? {
        return NoCitySelected;
      }
      var city := current.value;
      if HasName(entries, city.name) {
        return AlreadySaved;
      }
      entries := entries + [city];
      outcome := Added;
    }

    /** `removeFavorite(cityName)`: the stored list filtered by name. */
    method Remove(cityName: string)
      modifies this
      ensures entries == Without(old(entries), cityName)
      ensures UniqueNames(old(entries)) ==> UniqueNames(entries)
    {
      if UniqueNames(entries) {
        WithoutKeepsUnique(entries, cityName);
      }
      entries := Without(entries, cityName);
    }
  }
}
