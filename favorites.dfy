/** The favourites hook: a list of lot ids with add, remove, toggle and
    membership, written to the browser's storage after every change. */
module Favorites {
  import opened Wrappers
  import opened FavoritesJson

  const StorageKey: string := "favorite_parking_lots"

  predicate NoDuplicates(l: seq<string>) {
    forall i, j :: 0 <= i < j < |l| ==> l[i] != l[j]
  }

  // ----- the list transforms of addFavorite and removeFavorite -----

  /** `addFavorite`'s update: the list stays as it is when the id is present,
      otherwise the id goes at the end. */
  function Add(l: seq<string>, id: string): (r: seq<string>)
    ensures id in r
    ensures forall x :: x in r <==> x in l || x == id
    ensures |r| == if id in l then |l| else |l| + 1
    ensures r[..|l|] == l
    ensures NoDuplicates(l) ==> NoDuplicates(r)
  {
    if id in l then l else l + [id]
  }

  /** `removeFavorite`'s update: `filter(x => x !== id)`. */
  function Remove(l: seq<string>, id: string): (r: seq<string>)
    ensures id !in r
    ensures forall x :: x in r <==> x in l && x != id
    ensures |r| <= |l|
    ensures NoDuplicates(l) ==> NoDuplicates(r)
  {
    if l == [] then []
    else if l[0] == id then Remove(l[1..], id)
    else
      var rest := Remove(l[1..], id);
      assert NoDuplicates(l) ==> l[0] !in rest && NoDuplicates(l[1..]) by {
        if NoDuplicates(l) {
          assert forall j :: 0 < j < |l| ==> l[0] != l[j];
        }
      }
      assert NoDuplicates(l) ==> NoDuplicates([l[0]] + rest) by {
        if NoDuplicates(l) {
          forall i, j | 0 <= i < j < |rest| + 1 ensures ([l[0]] + rest)[i] != ([l[0]] + rest)[j] {
            if i > 0 {
              assert ([l[0]] + rest)[i] == rest[i - 1];
            }
          }
        }
      }
      [l[0]] + rest
  }

  /** Removal works element by element: it distributes over concatenation, so
      the remaining ids keep their order. */
  lemma {:induction false} RemoveAppend(a: seq<string>, b: seq<string>, id: string)
    ensures Remove(a + b, id) == Remove(a, id) + Remove(b, id)
    decreases |a|
  {
    if a != [] {
      assert (a + b)[1..] == a[1..] + b;
      RemoveAppend(a[1..], b, id);
    } else {
      assert a + b == b;
    }
  }

  /** Removing an id that is not there changes nothing. */
  lemma {:induction false} RemoveAbsent(l: seq<string>, id: string)
    requires id !in l
    ensures Remove(l, id) == l
    decreases |l|
  {
    if l != [] {
      RemoveAbsent(l[1..], id);
    }
  }

  /** `toggleFavorite`'s update. */
  function Toggle(l: seq<string>, id: string): seq<string> {
    if id in l then Remove(l, id) else Add(l, id)
  }

  /** Toggling flips the membership of that id and of no other. */
  lemma ToggleFlips(l: seq<string>, id: string)
    ensures id in Toggle(l, id) <==> id !in l
    ensures forall x :: x != id ==> (x in Toggle(l, id) <==> x in l)
    ensures NoDuplicates(l) ==> NoDuplicates(Toggle(l, id))
  {
  }

  /** Toggling an absent id twice restores the exact list. */
  lemma ToggleTwiceAbsent(l: seq<string>, id: string)
    requires id !in l
    ensures Toggle(Toggle(l, id), id) == l
  {
    RemoveAppend(l, [id], id);
    RemoveAbsent(l, id);
  }

  /** Toggling a present id twice restores the set of ids but moves that id
      to the end. */
  lemma ToggleTwicePresent(l: seq<string>, id: string)
    requires id in l
    ensures Toggle(Toggle(l, id), id) == Remove(l, id) + [id]
    ensures forall x :: x in Toggle(Toggle(l, id), id) <==> x in l
  {
  }

  // ----- loading from storage -----

  /** The initial list: the stored text parsed, or empty when the key is missing,
      the text is empty or it does not parse. */
  function Load(storage: map<string, string>): (r: seq<string>)
    ensures StorageKey !in storage || storage[StorageKey] == "" ==> r == []
    ensures StorageKey in storage && Parse(storage[StorageKey]).None? ==> r == []
  {
    if StorageKey !in storage || storage[StorageKey] == "" then []
    else match Parse(storage[StorageKey])
      case Some(l) => l
      case None => []
  }

  /** What was saved is what the next session loads. */
  lemma ReloadRestores(storage: map<string, string>, l: seq<string>)
    ensures Load(storage[StorageKey := Stringify(l)]) == l
  {
    ParseStringify(l);
  }

  /** The hook's state: the list and the storage it mirrors. */
  class FavoritesStore {
    var favorites: seq<string>
    var storage: map<string, string>

    /** Storage holds the serialised current list. */
    predicate Persisted()
      reads this
    {
      StorageKey in storage && storage[StorageKey] == Stringify(favorites)
    }

    /** The lazy initial state, then the mount-time write of the persist effect. */
    constructor (stored: map<string, string>)
      ensures favorites == Load(stored)
      ensures storage == stored[StorageKey := Stringify(Load(stored))]
      ensures Persisted()
    {
      var initial := Load(stored);
      favorites := initial;
      storage := stored[StorageKey := Stringify(initial)];
    }

    function IsFavorite(id: string): (r: bool)
      reads this
      ensures r <==> exists i :: 0 <= i < |favorites| && favorites[i] == id
    {
      id in favorites
    }

    /** The persist effect, run after each change of the list. */
    method Persist()
      modifies this`storage
      ensures storage == old(storage)[StorageKey := Stringify(favorites)]
      ensures Persisted()
    {
      storage := storage[StorageKey := Stringify(favorites)];
    }

    method AddFavorite(id: string)
      modifies this
      ensures favorites == Add(old(favorites), id)
      ensures storage == old(storage)[StorageKey := Stringify(favorites)]
      ensures Persisted()
    {
      favorites := Add(favorites, id);
      Persist();
    }

    method RemoveFavorite(id: string)
      modifies this
      ensures favorites == Remove(old(favorites), id)
      ensures storage == old(storage)[StorageKey := Stringify(favorites)]
      ensures Persisted()
    {
      favorites := Remove(favorites, id);
      Persist();
    }

    method ToggleFavorite(id: string)
      modifies this
      ensures favorites == Toggle(old(favorites), id)
      ensures IsFavorite(id) <==> !old(IsFavorite(id))
      ensures forall x :: x != id ==> (IsFavorite(x) <==> old(IsFavorite(x)))
      ensures storage == old(storage)[StorageKey := Stringify(favorites)]
      ensures Persisted()
    {
      ToggleFlips(favorites, id);
      if id in favorites {
        RemoveFavorite(id);
      } else {
        AddFavorite(id);
      }
    }
  }
}
