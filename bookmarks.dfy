/** The bookmark lists of the Pokédex tab (js/pokedex.js): three lists of
    Pokémon names under the icon ids "1", "2" and "3", kept in the
    `BOOKMARKS` object. Saving to and loading from local storage is not
    modelled; `initBookmarks` receives the parsed object, if there is one. */
module Bookmarks {
  import opened Wrappers
  import opened Seqs

  /** A value under an icon id: a list of names, or any other JSON value. */
  datatype Stored = Names(names: seq<string>) | NotAList

  /** `Array.isArray(m[k])`. */
  predicate IsList(m: map<string, Stored>, k: string) {
    k in m && m[k].Names?
  }

  /** All three icon ids hold a list. */
  predicate Ready(m: map<string, Stored>) {
    IsList(m, "1") && IsList(m, "2") && IsList(m, "3")
  }

  /** The lists a fresh page starts with. */
  function EmptyLists(): (m: map<string, Stored>)
    ensures Ready(m)
  {
    map["1" := Names([]), "2" := Names([]), "3" := Names([])]
  }

  /** The repair in `initBookmarks`: an icon id that does not hold a list
      gets an empty one. */
  function RepairOne(m: map<string, Stored>, k: string): (r: map<string, Stored>)
    ensures IsList(r, k)
    ensures IsList(m, k) ==> r == m
    ensures !IsList(m, k) ==> r == m[k := Names([])]
  {
    if IsList(m, k) then m else m[k := Names([])]
  }

  function Repaired(m: map<string, Stored>): map<string, Stored> {
    RepairOne(RepairOne(RepairOne(m, "1"), "2"), "3")
  }

  /** After the repair the three ids hold lists; a list that was there is
      kept as it was, and every other key is left alone. */
  lemma RepairedProperties(m: map<string, Stored>)
    ensures Ready(Repaired(m))
    ensures forall k :: IsList(m, k) ==> k in Repaired(m) && Repaired(m)[k] == m[k]
    ensures forall k :: k in m && k != "1" && k != "2" && k != "3" ==> k in Repaired(m) && Repaired(m)[k] == m[k]
    ensures forall k :: k in Repaired(m) ==> k in m || k == "1" || k == "2" || k == "3"
  {
    var m1 := RepairOne(m, "1");
    var m2 := RepairOne(m1, "2");
    assert IsList(m2, "1");
  }

  /** The list `toggleBookmark` leaves: the first occurrence of the name
      removed if there is one, the name appended otherwise. */
  function Toggled(list: seq<string>, name: string): seq<string> {
    match IndexOf(list, name)
    case Some(i) => RemoveAt(list, i)
    case None => list + [name]
  }

  /** A present name loses its first occurrence and nothing else moves; an
      absent name is appended. */
  lemma ToggledShape(list: seq<string>, name: string)
    ensures name in list ==>
      exists i :: 0 <= i < |list| && list[i] == name && name !in list[..i]
        && Toggled(list, name) == list[..i] + list[i + 1..]
    ensures name !in list ==> Toggled(list, name) == list + [name]
    ensures name in list ==> multiset(Toggled(list, name)) == multiset(list) - multiset{name}
    ensures name !in list ==> multiset(Toggled(list, name)) == multiset(list) + multiset{name}
  {
    if name in list {
      var i := IndexOf(list, name).value;
      assert list[..i] + list[i + 1..] == RemoveAt(list, i);
    }
  }

  /** On a list without repeats, toggling flips the name's membership,
      leaves every other name's membership alone, and keeps the list free
      of repeats. */
  lemma ToggledMembership(list: seq<string>, name: string)
    requires NoDup(list)
    ensures NoDup(Toggled(list, name))
    ensures name in Toggled(list, name) <==> name !in list
    ensures forall x :: x != name ==> (x in Toggled(list, name) <==> x in list)
  {
    var r := Toggled(list, name);
    match IndexOf(list, name)
    case Some(i) =>
      assert r == RemoveAt(list, i);
      forall x | x != name
        ensures x in r <==> x in list
      {
        if x in list {
          var k :| 0 <= k < |list| && list[k] == x;
          if k < i { assert r[k] == x; } else { assert k > i && r[k - 1] == x; }
        }
      }
    case None =>
  }

  /** Adding a name and toggling it again gives the list back. */
  lemma ToggleTwiceRestores(list: seq<string>, name: string)
    requires name !in list
    ensures Toggled(Toggled(list, name), name) == list
  {
    var l2 := list + [name];
    assert IndexOf(l2, name) == Some(|list|) by {
      assert l2[|list|] == name && l2[..|list|] == list;
    }
    assert RemoveAt(l2, |list|) == list;
  }

  /** The `BOOKMARKS` object. */
  class BookmarkStore {
    var lists: map<string, Stored>

    constructor()
      ensures lists == EmptyLists()
    {
      lists := EmptyLists();
    }

    /** `initBookmarks` given the parsed stored object: nothing stored (or
        text that does not parse) leaves the lists alone; a stored object
        replaces them, with the three ids repaired. */
    method Init(stored: Option<map<string, Stored>>)
      modifies this
      ensures stored.None? ==> lists == old(lists)
      ensures stored.Some? ==> lists == Repaired(stored.value) && Ready(lists)
    {
      if stored.Some? {
        lists := stored.value;
        if !IsList(lists, "1") { lists := lists["1" := Names([])]; }
        if !IsList(lists, "2") { lists := lists["2" := Names([])]; }
        if !IsList(lists, "3") { lists := lists["3" := Names([])]; }
        RepairedProperties(stored.value);
      }
    }

    /** `hasBookmark(iconId, name)`: `includes` on the icon's list, false
        when the icon holds no list. */
    predicate Has(iconId: string, name: string)
      reads this
      ensures Has(iconId, name) <==>
        IsList(lists, iconId) && exists i :: 0 <= i < |lists[iconId].names| && lists[iconId].names[i] == name
    {
      iconId in lists && match lists[iconId]
        case Names(list) => IndexOf(list, name).Some?
        case NotAList => false
    }

    /** `toggleBookmark(iconId, name)`: the name's first occurrence is
        removed, or the name is appended; `added` tells which. No other
        list changes. */
    method Toggle(iconId: string, name: string) returns (added: bool)
      requires IsList(lists, iconId)
      modifies this
      ensures added <==> !old(Has(iconId, name))
      ensures lists == old(lists)[iconId := Names(Toggled(old(lists)[iconId].names, name))]
      ensures forall k, x :: k != iconId ==> (Has(k, x) <==> old(Has(k, x)))
      ensures NoDup(old(lists)[iconId].names) ==>
        && (Has(iconId, name) <==> !old(Has(iconId, name)))
        && (forall x :: x != name ==> (Has(iconId, x) <==> old(Has(iconId, x))))
        && NoDup(lists[iconId].names)
    {
      ghost var before := lists[iconId].names;
      if NoDup(before) {
        ToggledMembership(before, name);
      }
      var list := lists[iconId].names;
      var idx := IndexOf(list, name);
      if idx.Some? {
        list := RemoveAt(list, idx.value);
      } else {
        list := list + [name];
      }
      lists := lists[iconId := Names(list)];
      added := idx.None?;
    }

    /** The list update of `clearAllBookmarks`, once the user confirmed. */
    method ClearAll(iconId: string, confirmed: bool)
      modifies this
      ensures confirmed ==> lists == old(lists)[iconId := Names([])]
      ensures !confirmed ==> lists == old(lists)
    {
      if confirmed {
        lists := lists[iconId := Names([])];
      }
    }
  }

  /** Toggling twice on a list without repeats restores the membership of
      the name, so `hasBookmark` answers as before. */
  lemma HasAfterToggle(list: seq<string>, name: string)
    requires NoDup(list)
    ensures (name in Toggled(list, name)) == (name !in list)
    ensures (name in Toggled(Toggled(list, name), name)) == (name in list)
  {
    ToggledMembership(list, name);
    ToggledMembership(Toggled(list, name), name);
  }
}
