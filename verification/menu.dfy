/**
 * The older integration's coordinator helpers: flattening the boiler's
 * configuration menus into one dictionary of `menus_<menu>_<item>` keys,
 * refreshing that cache at most once an hour, and the tolerant reader of
 * the consumption statistics returned by the API.
 */
module Menu {
  import opened Wrappers
  import opened Text
  import opened Json

  // ---------------------------------------------------------------------
  // Flattening one menu

  /** The (item, value) pairs of a menu: a dictionary's entries, or the `id`/`value` of each dictionary in a list. */
  function Entries(menu: Json): (r: seq<(string, Json)>)
    ensures menu.JObj? ==> r == menu.fields
    ensures !menu.JObj? && !menu.JList? ==> r == []
  {
    match menu
    case JObj(fields) => fields
    case JList(items) => ListEntries(items)
    case _ => []
  }

  /** `[(str(i.get("id")), i.get("value")) for i in items if isinstance(i, dict)]`. */
  function ListEntries(items: seq<Json>): (r: seq<(string, Json)>)
    ensures |r| <= |items|
    ensures forall e :: e in r ==>
      (exists i :: 0 <= i < |items| && items[i].JObj? && e == (Str(Get(items[i].fields, "id")), Get(items[i].fields, "value")))
    ensures forall i :: 0 <= i < |items| && items[i].JObj? ==>
      (Str(Get(items[i].fields, "id")), Get(items[i].fields, "value")) in r
  {
    if |items| == 0 then []
    else
      var rest := ListEntries(items[1..]);
      assert forall i :: 1 <= i < |items| ==> items[i] == items[1..][i - 1];
      if items[0].JObj? then [(Str(Get(items[0].fields, "id")), Get(items[0].fields, "value"))] + rest
      else rest
  }

  /** The flattened key of an item. */
  function FlatKey(menuName: string, item: string): string {
    "menus_" + menuName + "_" + item
  }

  /** "N/A" stands for no value. */
  function Cleaned(v: Json): Json {
    if v == JStr("N/A") then JNull else v
  }

  /** The entries with flattened keys and cleaned values, in order. */
  function Renamed(menuName: string, entries: seq<(string, Json)>): (r: seq<(string, Json)>)
    ensures |r| == |entries|
    ensures forall i :: 0 <= i < |entries| ==> r[i] == (FlatKey(menuName, entries[i].0), Cleaned(entries[i].1))
  {
    seq(|entries|, i requires 0 <= i < |entries| => (FlatKey(menuName, entries[i].0), Cleaned(entries[i].1)))
  }

  /**
   * `_flatten_menu`: an empty menu, or one that is neither a dictionary nor
   * a list, flattens to nothing; otherwise every entry is stored under its
   * flattened key, a later entry with the same key overwriting the value.
   */
  function FlattenMenu(menuName: string, menu: Json): (r: seq<(string, Json)>)
    ensures !Truthy(menu) ==> r == []
    ensures !menu.JObj? && !menu.JList? ==> r == []
    ensures UniqueKeys(r)
  {
    if !Truthy(menu) then [] else UpdateWith([], Renamed(menuName, Entries(menu)))
  }

  /** Two flattened keys of one menu are equal only when the items are. */
  lemma FlatKeyInjective(menuName: string, a: string, b: string)
    requires FlatKey(menuName, a) == FlatKey(menuName, b)
    ensures a == b
  {
    var p := "menus_" + menuName + "_";
    assert FlatKey(menuName, a) == p + a && FlatKey(menuName, b) == p + b;
    assert a == (p + a)[|p|..];
    assert b == (p + b)[|p|..];
  }

  /** Storing entries with distinct keys one after the other leaves each key with its own value. */
  lemma {:induction false} UpdateWithDistinct(d: seq<(string, Json)>, e: seq<(string, Json)>, k: string, v: Json)
    requires UniqueKeys(e)
    requires Lookup(e, k) == Some(v)
    ensures Lookup(UpdateWith(d, e), k) == Some(v)
    decreases |e|
  {
    if e[0].0 == k {
      assert Lookup(e[1..], k).None? by {
        forall i | 0 <= i < |e[1..]|
          ensures e[1..][i].0 != k
        {
          assert e[1..][i] == e[i + 1];
        }
      }
      assert Lookup(Store(d, k, e[0].1), k) == Some(v);
    } else {
      assert UniqueKeys(e[1..]);
      UpdateWithDistinct(Store(d, e[0].0, e[0].1), e[1..], k, v);
    }
  }

  /** A key after storing entries was there before or is one of the entries' keys. */
  lemma {:induction false} UpdateWithOrigin(d: seq<(string, Json)>, e: seq<(string, Json)>, k: string)
    requires Lookup(UpdateWith(d, e), k).Some?
    ensures Lookup(d, k).Some? || Lookup(e, k).Some?
    decreases |e|
  {
    if |e| > 0 {
      UpdateWithOrigin(Store(d, e[0].0, e[0].1), e[1..], k);
    }
  }

  /**
   * An item of a menu dictionary (whose keys are distinct, as Python's
   * are) appears under its flattened key with its cleaned value.
   */
  lemma FlattenKeepsDictItems(menuName: string, fields: seq<(string, Json)>, item: string, v: Json)
    requires |fields| > 0 && UniqueKeys(fields)
    requires Lookup(fields, item) == Some(v)
    ensures Lookup(FlattenMenu(menuName, JObj(fields)), FlatKey(menuName, item)) == Some(Cleaned(v))
  {
    var menu := JObj(fields);
    assert Truthy(menu) && Entries(menu) == fields;
    var e := Renamed(menuName, fields);
    assert FlattenMenu(menuName, menu) == UpdateWith([], e);
    RenamedUnique(menuName, fields);
    var i :| 0 <= i < |fields| && fields[i].0 == item && fields[i].1 == v;
    assert e[i] == (FlatKey(menuName, item), Cleaned(v));
    LookupAt(e, i);
    UpdateWithDistinct([], e, FlatKey(menuName, item), Cleaned(v));
  }

  /** Renaming keeps distinct keys distinct. */
  lemma RenamedUnique(menuName: string, entries: seq<(string, Json)>)
    requires UniqueKeys(entries)
    ensures UniqueKeys(Renamed(menuName, entries))
  {
    var e := Renamed(menuName, entries);
    forall i, j | 0 <= i < j < |e|
      ensures e[i].0 != e[j].0
    {
      if e[i].0 == e[j].0 {
        FlatKeyInjective(menuName, entries[i].0, entries[j].0);
      }
    }
  }

  lemma LookupAt(e: seq<(string, Json)>, i: nat)
    requires UniqueKeys(e) && i < |e|
    ensures Lookup(e, e[i].0) == Some(e[i].1)
  {
    var r := Lookup(e, e[i].0);
    assert r.Some?;
    var j :| 0 <= j < |e| && e[j].0 == e[i].0 && e[j].1 == r.value;
    assert j == i;
  }

  /** Every flattened key carries the menu's prefix and comes from one of the menu's items. */
  lemma FlattenOnlyMenuItems(menuName: string, menu: Json, key: string)
    requires Lookup(FlattenMenu(menuName, menu), key).Some?
    ensures exists i :: 0 <= i < |Entries(menu)| && key == FlatKey(menuName, Entries(menu)[i].0)
  {
    var e := Renamed(menuName, Entries(menu));
    UpdateWithOrigin([], e, key);
    var j :| 0 <= j < |e| && e[j].0 == key && e[j].1 == Lookup(e, key).value;
  }

  /** The flattened key and cleaned value a dictionary item of a list menu is stored under. */
  function ListItemEntry(menuName: string, item: Json): (string, Json)
    requires item.JObj?
  {
    (FlatKey(menuName, Str(Get(item.fields, "id"))), Cleaned(Get(item.fields, "value")))
  }

  /** Storing `[e0] + rest` renamed is storing `e0` renamed, then the rest. */
  lemma RenamedCons(menuName: string, e0: (string, Json), rest: seq<(string, Json)>, d: seq<(string, Json)>)
    ensures UpdateWith(d, Renamed(menuName, [e0] + rest)) ==
      UpdateWith(Store(d, FlatKey(menuName, e0.0), Cleaned(e0.1)), Renamed(menuName, rest))
  {
    var e := Renamed(menuName, [e0] + rest);
    assert e[1..] == Renamed(menuName, rest);
  }

  /** No dictionary item with `id` text `id` means no entry under its flattened key. */
  lemma ListWithoutIdHasNoKey(menuName: string, items: seq<Json>, id: string)
    requires forall j :: 0 <= j < |items| && items[j].JObj? ==> Str(Get(items[j].fields, "id")) != id
    ensures Lookup(Renamed(menuName, ListEntries(items)), FlatKey(menuName, id)).None?
  {
    var entries := ListEntries(items);
    forall t | 0 <= t < |entries|
      ensures Renamed(menuName, entries)[t].0 != FlatKey(menuName, id)
    {
      assert entries[t] in entries;
      var j :| 0 <= j < |items| && items[j].JObj? &&
        entries[t] == (Str(Get(items[j].fields, "id")), Get(items[j].fields, "value"));
      if Renamed(menuName, entries)[t].0 == FlatKey(menuName, id) {
        FlatKeyInjective(menuName, entries[t].0, id);
      }
    }
  }

  /** The condition that no dictionary item after the `i`-th shares its `id` text. */
  predicate LastWithItsId(items: seq<Json>, i: nat)
    requires i < |items| && items[i].JObj?
  {
    forall j :: i < j < |items| && items[j].JObj? ==> Str(Get(items[j].fields, "id")) != Str(Get(items[i].fields, "id"))
  }

  /** Dropping the first item keeps the `i`-th item the last with its `id`. */
  lemma LastWithItsIdTail(items: seq<Json>, i: nat)
    requires 0 < i < |items| && items[i].JObj? && LastWithItsId(items, i)
    ensures items[1..][i - 1] == items[i] && LastWithItsId(items[1..], i - 1)
  {
    forall j | i - 1 < j < |items[1..]| && items[1..][j].JObj?
      ensures Str(Get(items[1..][j].fields, "id")) != Str(Get(items[1..][i - 1].fields, "id"))
    {
      assert items[1..][j] == items[j + 1];
    }
  }

  /**
   * Storing a list menu's entries: the `i`-th item, a dictionary that no
   * later dictionary item shares its `id` text with, ends up under its key
   * with its value.
   */
  lemma {:induction false} ListItemsLastWins(menuName: string, items: seq<Json>, d: seq<(string, Json)>, i: nat)
    requires i < |items| && items[i].JObj? && LastWithItsId(items, i)
    ensures Lookup(UpdateWith(d, Renamed(menuName, ListEntries(items))), ListItemEntry(menuName, items[i]).0) ==
      Some(ListItemEntry(menuName, items[i]).1)
    decreases |items|
  {
    var rest := ListEntries(items[1..]);
    if items[0].JObj? {
      var e0 := (Str(Get(items[0].fields, "id")), Get(items[0].fields, "value"));
      assert ListEntries(items) == [e0] + rest;
      RenamedCons(menuName, e0, rest, d);
      var d' := Store(d, FlatKey(menuName, e0.0), Cleaned(e0.1));
      assert UpdateWith(d, Renamed(menuName, ListEntries(items))) == UpdateWith(d', Renamed(menuName, rest));
      if i == 0 {
        forall j | 0 <= j < |items[1..]| && items[1..][j].JObj?
          ensures Str(Get(items[1..][j].fields, "id")) != e0.0
        {
          assert items[1..][j] == items[j + 1];
        }
        ListWithoutIdHasNoKey(menuName, items[1..], e0.0);
      } else {
        LastWithItsIdTail(items, i);
        ListItemsLastWins(menuName, items[1..], d', i - 1);
      }
    } else {
      assert ListEntries(items) == rest;
      LastWithItsIdTail(items, i);
      ListItemsLastWins(menuName, items[1..], d, i - 1);
    }
  }

  /**
   * A dictionary item of a list menu appears under `menus_<menu>_<str(id)>`
   * with its cleaned `value`; of several items with the same `id` text, the
   * last one wins.
   */
  lemma FlattenKeepsListItems(menuName: string, items: seq<Json>, i: nat)
    requires i < |items| && items[i].JObj?
    requires forall j :: i < j < |items| && items[j].JObj? ==>
      Str(Get(items[j].fields, "id")) != Str(Get(items[i].fields, "id"))
    ensures Lookup(FlattenMenu(menuName, JList(items)), FlatKey(menuName, Str(Get(items[i].fields, "id")))) ==
      Some(Cleaned(Get(items[i].fields, "value")))
  {
    assert Truthy(JList(items)) && Entries(JList(items)) == ListEntries(items);
    ListItemsLastWins(menuName, items, [], i);
  }

  // ---------------------------------------------------------------------
  // The hourly menu cache

  /** The flattened menus, the raw menus they came from and when they were taken (seconds). */
  datatype MenuCache = MenuCache(flat: seq<(string, Json)>, raw: Json, lastUpdate: Option<real>)

  const EmptyCache: MenuCache := MenuCache([], JObj([]), None)

  /** Menus are refreshed when they never were, or more than an hour ago. */
  function ShouldUpdateMenu(lastUpdate: Option<real>, now: real): (r: bool)
    ensures lastUpdate.None? ==> r
    ensures lastUpdate.Some? && now - lastUpdate.value <= 3600.0 ==> !r
    ensures lastUpdate.Some? && now - lastUpdate.value > 3600.0 ==> r
  {
    lastUpdate.None? || now - lastUpdate.value > 3600.0
  }

  /** All menus flattened into one dictionary, menu by menu; a later key overwrites an earlier one. */
  function FlattenAll(menus: seq<(string, Json)>, acc: seq<(string, Json)>): (r: seq<(string, Json)>)
    ensures UniqueKeys(acc) ==> UniqueKeys(r)
    ensures forall k :: Lookup(r, k).Some? && Lookup(acc, k).None? ==>
      exists i :: 0 <= i < |menus| && Lookup(FlattenMenu(menus[i].0, menus[i].1), k).Some?
    decreases |menus|
  {
    if |menus| == 0 then acc
    else
      var acc' := UpdateWith(acc, FlattenMenu(menus[0].0, menus[0].1));
      var r := FlattenAll(menus[1..], acc');
      assert forall k :: Lookup(r, k).Some? && Lookup(acc, k).None? ==>
          exists i :: 0 <= i < |menus| && Lookup(FlattenMenu(menus[i].0, menus[i].1), k).Some? by {
        forall k | Lookup(r, k).Some? && Lookup(acc, k).None?
          ensures exists i :: 0 <= i < |menus| && Lookup(FlattenMenu(menus[i].0, menus[i].1), k).Some?
        {
          if Lookup(acc', k).None? {
            var i :| 0 <= i < |menus[1..]| && Lookup(FlattenMenu(menus[1..][i].0, menus[1..][i].1), k).Some?;
            assert menus[i + 1] == menus[1..][i];
          } else {
            assert Lookup(FlattenMenu(menus[0].0, menus[0].1), k).Some?;
          }
        }
      }
      r
  }

  /** The flattened form of the `i`-th menu. */
  function MenuItems(menus: seq<(string, Json)>, i: nat): seq<(string, Json)>
    requires i < |menus|
  {
    FlattenMenu(menus[i].0, menus[i].1)
  }

  /** A key that none of the menus has keeps the value it had before flattening. */
  lemma {:induction false} FlattenAllKeepsOtherKeys(menus: seq<(string, Json)>, acc: seq<(string, Json)>, k: string)
    requires forall j :: 0 <= j < |menus| ==> Lookup(MenuItems(menus, j), k).None?
    ensures Lookup(FlattenAll(menus, acc), k) == Lookup(acc, k)
    decreases |menus|
  {
    if |menus| > 0 {
      assert Lookup(MenuItems(menus, 0), k).None?;
      var acc' := UpdateWith(acc, MenuItems(menus, 0));
      forall j | 0 <= j < |menus[1..]|
        ensures Lookup(MenuItems(menus[1..], j), k).None?
      {
        assert menus[1..][j] == menus[j + 1];
        assert Lookup(MenuItems(menus, j + 1), k).None?;
      }
      FlattenAllKeepsOtherKeys(menus[1..], acc', k);
    }
  }

  /**
   * A later menu overwrites an earlier one: a key ends up with the value
   * it has in the last menu that has it.
   */
  lemma {:induction false} FlattenAllLastMenuWins(menus: seq<(string, Json)>, acc: seq<(string, Json)>, i: nat, k: string)
    requires i < |menus|
    requires Lookup(MenuItems(menus, i), k).Some?
    requires forall j :: i < j < |menus| ==> Lookup(MenuItems(menus, j), k).None?
    ensures Lookup(FlattenAll(menus, acc), k) == Lookup(MenuItems(menus, i), k)
    decreases |menus|
  {
    var acc' := UpdateWith(acc, MenuItems(menus, 0));
    if i == 0 {
      UpdateWithDistinct(acc, MenuItems(menus, 0), k, Lookup(MenuItems(menus, 0), k).value);
      forall j | 0 <= j < |menus[1..]|
        ensures Lookup(MenuItems(menus[1..], j), k).None?
      {
        assert menus[1..][j] == menus[j + 1];
        assert Lookup(MenuItems(menus, j + 1), k).None?;
      }
      FlattenAllKeepsOtherKeys(menus[1..], acc', k);
    } else {
      assert menus[1..][i - 1] == menus[i];
      forall j | i - 1 < j < |menus[1..]|
        ensures Lookup(MenuItems(menus[1..], j), k).None?
      {
        assert menus[1..][j] == menus[j + 1];
        assert Lookup(MenuItems(menus, j + 1), k).None?;
      }
      FlattenAllLastMenuWins(menus[1..], acc', i - 1, k);
    }
  }

  /** Every key of every menu is present after flattening. */
  lemma {:induction false} FlattenAllKeepsEveryKey(menus: seq<(string, Json)>, acc: seq<(string, Json)>, i: nat, k: string)
    requires i < |menus|
    requires Lookup(MenuItems(menus, i), k).Some?
    ensures Lookup(FlattenAll(menus, acc), k).Some?
    decreases |menus| - i
  {
    if exists j :: i < j < |menus| && Lookup(MenuItems(menus, j), k).Some? {
      var j :| i < j < |menus| && Lookup(MenuItems(menus, j), k).Some?;
      FlattenAllKeepsEveryKey(menus, acc, j, k);
    } else {
      FlattenAllLastMenuWins(menus, acc, i, k);
    }
  }

  /**
   * The menu step of a coordinator update on the payload dictionary `data`:
   * when a refresh is due and the payload has menus that form a
   * dictionary, the cache takes their flattened form and the raw menus and
   * remembers the time; otherwise it stays as it was.
   */
  function RefreshMenus(cache: MenuCache, data: seq<(string, Json)>, now: real): (r: MenuCache)
    ensures r == cache || r.lastUpdate == Some(now)
    ensures r != cache ==> ShouldUpdateMenu(cache.lastUpdate, now) && Lookup(data, "menus").Some? && Lookup(data, "menus").value.JObj?
    ensures ShouldUpdateMenu(cache.lastUpdate, now) && Lookup(data, "menus").Some? && Lookup(data, "menus").value.JObj? ==>
      r.lastUpdate == Some(now) && r.raw == Lookup(data, "menus").value && UniqueKeys(r.flat)
    ensures r != cache ==> r.raw.JObj? && forall k :: Lookup(r.flat, k).Some? ==>
      exists i :: 0 <= i < |r.raw.fields| && Lookup(FlattenMenu(r.raw.fields[i].0, r.raw.fields[i].1), k).Some?
  {
    if ShouldUpdateMenu(cache.lastUpdate, now) && Lookup(data, "menus").Some? then
      var raw := Lookup(data, "menus").value;
      if raw.JObj? then MenuCache(FlattenAll(raw.fields, []), raw, Some(now))
      else cache
    else cache
  }

  /** Within the hour after a refresh, further updates leave the cache alone. */
  lemma {:induction false} MenusRefreshAtMostHourly(cache: MenuCache, data1: seq<(string, Json)>, t1: real,
                                                    data2: seq<(string, Json)>, t2: real)
    requires RefreshMenus(cache, data1, t1) != cache
    requires t2 - t1 <= 3600.0
    ensures RefreshMenus(RefreshMenus(cache, data1, t1), data2, t2) == RefreshMenus(cache, data1, t1)
  {
    var c1 := RefreshMenus(cache, data1, t1);
    assert c1.lastUpdate == Some(t1);
    assert !ShouldUpdateMenu(c1.lastUpdate, t2);
  }

  /**
   * After a refresh, a key of the `i`-th menu is in the cache, with the
   * value of the last menu that has it.
   */
  lemma RefreshTakesLastMenuValue(cache: MenuCache, data: seq<(string, Json)>, now: real, i: nat, k: string)
    requires ShouldUpdateMenu(cache.lastUpdate, now)
    requires Lookup(data, "menus").Some? && Lookup(data, "menus").value.JObj?
    requires i < |Lookup(data, "menus").value.fields|
    requires Lookup(MenuItems(Lookup(data, "menus").value.fields, i), k).Some?
    ensures Lookup(RefreshMenus(cache, data, now).flat, k).Some?
    ensures (forall j :: i < j < |Lookup(data, "menus").value.fields| ==>
               Lookup(MenuItems(Lookup(data, "menus").value.fields, j), k).None?) ==>
      Lookup(RefreshMenus(cache, data, now).flat, k) == Lookup(MenuItems(Lookup(data, "menus").value.fields, i), k)
  {
    var menus := Lookup(data, "menus").value.fields;
    FlattenAllKeepsEveryKey(menus, [], i, k);
    if forall j :: i < j < |menus| ==> Lookup(MenuItems(menus, j), k).None? {
      FlattenAllLastMenuWins(menus, [], i, k);
    }
  }

  // ---------------------------------------------------------------------
  // Reading the consumption statistics

  /**
   * `get_safe(lst, s_idx, d_idx)`: the number at `lst[s_idx]["data"][d_idx][1]`,
   * 0 whenever the structure is not as expected or the value is not a
   * number. The one failure it does not catch is a data point that is a
   * dictionary: indexing it with 1 raises `KeyError`.
   */
  function GetSafe(lst: Json, sIdx: nat, dIdx: nat): (r: Result<real, Fault>)
    ensures !lst.JList? || |lst.items| <= sIdx ==> r == Success(0.0)
    ensures r.Failure? ==> r.error == KeyError
    ensures r.Failure? <==>
      lst.JList? && sIdx < |lst.items| && lst.items[sIdx].JObj? &&
      Lookup(lst.items[sIdx].fields, "data").Some? &&
      Lookup(lst.items[sIdx].fields, "data").value.JList? &&
      dIdx < |Lookup(lst.items[sIdx].fields, "data").value.items| &&
      Lookup(lst.items[sIdx].fields, "data").value.items[dIdx].JObj?
  {
    if !lst.JList? || |lst.items| <= sIdx then Success(0.0)
    else
      var sub := lst.items[sIdx];
      if !sub.JObj? || Lookup(sub.fields, "data").None? then Success(0.0)
      else
        var points := Lookup(sub.fields, "data").value;
        if !points.JList? || |points.items| <= dIdx then Success(0.0)
        else
          match points.items[dIdx]
          case JList(pair) => if |pair| > 1 then Success(FloatOfText(pair[1]).GetOr(0.0)) else Success(0.0)
          case JStr(s) => if |s| > 1 then Success(FloatOfText(JStr([s[1]])).GetOr(0.0)) else Success(0.0)
          case JObj(_) => Failure(KeyError)
          case _ => Success(0.0)
  }

  /** A well-formed statistics reply gives back the integer stored at the requested point. */
  lemma GetSafeReadsPoint(stamp: Json, i: int)
    ensures GetSafe(JList([JObj([("data", JList([JList([stamp, JStr(IntToString(i))])]))])]), 0, 0) == Success(i as real)
    ensures GetSafe(JList([JObj([("data", JList([JList([stamp, JInt(i)])]))])]), 0, 0) == Success(i as real)
  {
    FloatOfTextOfIntString(i);
  }
}
