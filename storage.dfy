/** The persistence shim over the browser's key-value store. The store is an
    abstract map from the three keys the application uses to the values
    stored under them; serialisation is not modelled. */
module Storage {
  import opened Types
  import Constants

  /** 'menufacil_items', 'menufacil_info' and 'menufacil_views'. */
  datatype Key = MenuKey | InfoKey | ViewsKey

  /** What is stored under a key. */
  datatype Blob =
    | MenuBlob(items: seq<MenuItem>)
    | InfoBlob(info: RestaurantInfo)
    | ViewsBlob(counts: map<string, nat>)

  type Entries = map<Key, Blob>

  /** Each key holds the kind of value its reader parses it as. */
  predicate WellTyped(e: Entries)
  {
    && (MenuKey in e ==> e[MenuKey].MenuBlob?)
    && (InfoKey in e ==> e[InfoKey].InfoBlob?)
    && (ViewsKey in e ==> e[ViewsKey].ViewsBlob?)
  }

  /** The menu `getMenu` returns: the stored one, or the seed catalog. */
  function MenuOf(e: Entries): (r: seq<MenuItem>)
    requires WellTyped(e)
    ensures MenuKey in e ==> r == e[MenuKey].items
    ensures MenuKey !in e ==> r == Constants.INITIAL_MENU
  {
    if MenuKey in e then e[MenuKey].items else Constants.INITIAL_MENU
  }

  /** The store after `getMenu`: the seed catalog written if the key was
      absent. Afterwards the key is present, reads as before, and every
      other key is untouched. */
  function SeedMenu(e: Entries): (r: Entries)
    requires WellTyped(e)
    ensures WellTyped(r)
    ensures MenuKey in r && MenuOf(r) == MenuOf(e)
    ensures r.Keys == e.Keys + {MenuKey}
    ensures forall k :: k in e && k != MenuKey ==> r[k] == e[k]
  {
    if MenuKey in e then e else e[MenuKey := MenuBlob(Constants.INITIAL_MENU)]
  }

  /** The profile `getRestaurantInfo` returns: the stored one, or the
      defaults. */
  function InfoOf(e: Entries): (r: RestaurantInfo)
    requires WellTyped(e)
    ensures InfoKey in e ==> r == e[InfoKey].info
    ensures InfoKey !in e ==> r == Constants.INITIAL_RESTAURANT_INFO
  {
    if InfoKey in e then e[InfoKey].info else Constants.INITIAL_RESTAURANT_INFO
  }

  /** The store after `getRestaurantInfo`: the defaults written if the key
      was absent, with the same guarantees as `SeedMenu`. */
  function SeedInfo(e: Entries): (r: Entries)
    requires WellTyped(e)
    ensures WellTyped(r)
    ensures InfoKey in r && InfoOf(r) == InfoOf(e)
    ensures r.Keys == e.Keys + {InfoKey}
    ensures forall k :: k in e && k != InfoKey ==> r[k] == e[k]
  {
    if InfoKey in e then e else e[InfoKey := InfoBlob(Constants.INITIAL_RESTAURANT_INFO)]
  }

  /** The per-day counters; an absent key reads as the empty object. */
  function ViewsOf(e: Entries): (r: map<string, nat>)
    requires WellTyped(e)
    ensures ViewsKey in e ==> r == e[ViewsKey].counts
    ensures ViewsKey !in e ==> r == map[]
  {
    if ViewsKey in e then e[ViewsKey].counts else map[]
  }

  /** `views[today] || 0`: the recorded count, and 0 for a day never
      recorded. A positive count means the day was recorded. */
  function DayCount(views: map<string, nat>, day: string): (r: nat)
    ensures day in views ==> r == views[day]
    ensures r > 0 ==> day in views
  {
    if day in views then views[day] else 0
  }

  /** `views[today] = (views[today] || 0) + 1`. */
  function Bump(views: map<string, nat>, day: string): (r: map<string, nat>)
    ensures r.Keys == views.Keys + {day}
    ensures r[day] == DayCount(views, day) + 1
    ensures forall d :: d in views && d != day ==> r[d] == views[d]
  {
    views[day := DayCount(views, day) + 1]
  }

  /** The counters after `n` visits on the same day. */
  function BumpTimes(views: map<string, nat>, day: string, n: nat): map<string, nat>
  {
    if n == 0 then views else Bump(BumpTimes(views, day, n - 1), day)
  }

  class StorageService {
    var entries: Entries

    ghost predicate Valid()
      reads this
    {
      WellTyped(entries)
    }

    /** A browser profile with nothing stored yet. */
    constructor ()
      ensures Valid() && entries == map[]
    {
      entries := map[];
    }

    method GetMenu() returns (menu: seq<MenuItem>)
      requires Valid()
      modifies this
      ensures Valid()
      ensures menu == MenuOf(old(entries))
      ensures entries == SeedMenu(old(entries))
    {
      if MenuKey !in entries {
        entries := entries[MenuKey := MenuBlob(Constants.INITIAL_MENU)];
        menu := Constants.INITIAL_MENU;
      } else {
        menu := entries[MenuKey].items;
      }
    }

    method SaveMenu(menu: seq<MenuItem>)
      requires Valid()
      modifies this
      ensures Valid()
      ensures entries == old(entries)[MenuKey := MenuBlob(menu)]
    {
      entries := entries[MenuKey := MenuBlob(menu)];
    }

    method GetRestaurantInfo() returns (info: RestaurantInfo)
      requires Valid()
      modifies this
      ensures Valid()
      ensures info == InfoOf(old(entries))
      ensures entries == SeedInfo(old(entries))
    {
      if InfoKey !in entries {
        entries := entries[InfoKey := InfoBlob(Constants.INITIAL_RESTAURANT_INFO)];
        info := Constants.INITIAL_RESTAURANT_INFO;
      } else {
        info := entries[InfoKey].info;
      }
    }

    method SaveRestaurantInfo(info: RestaurantInfo)
      requires Valid()
      modifies this
      ensures Valid()
      ensures entries == old(entries)[InfoKey := InfoBlob(info)]
    {
      entries := entries[InfoKey := InfoBlob(info)];
    }

    /** Counts one visit on `today` (the date part of the current ISO time). */
    method IncrementViews(today: string)
      requires Valid()
      modifies this
      ensures Valid()
      ensures entries == old(entries)[ViewsKey := ViewsBlob(Bump(ViewsOf(old(entries)), today))]
    {
      var views := if ViewsKey in entries then entries[ViewsKey].counts else map[];
      views := views[today := (if today in views then views[today] else 0) + 1];
      entries := entries[ViewsKey := ViewsBlob(views)];
    }

    method GetTodayViews(today: string) returns (n: nat)
      requires Valid()
      ensures today !in ViewsOf(entries) ==> n == 0
      ensures today in ViewsOf(entries) ==> n == ViewsOf(entries)[today]
    {
      var views := if ViewsKey in entries then entries[ViewsKey].counts else map[];
      n := if today in views then views[today] else 0;
    }
  }

  /** `getMenu` on a store without a menu returns the seed catalog, and the
      seeded store answers the same from then on. */
  lemma GetMenuSeedsOnce(e: Entries)
    requires WellTyped(e)
    ensures MenuKey !in e ==> MenuOf(e) == Constants.INITIAL_MENU
    ensures MenuOf(SeedMenu(e)) == MenuOf(e)
    ensures SeedMenu(SeedMenu(e)) == SeedMenu(e)
  {
  }

  /** `saveMenu(m)` then `getMenu()` gives `m` back and writes nothing more. */
  lemma SaveThenGetMenu(e: Entries, m: seq<MenuItem>)
    requires WellTyped(e)
    ensures WellTyped(e[MenuKey := MenuBlob(m)])
    ensures MenuOf(e[MenuKey := MenuBlob(m)]) == m
    ensures SeedMenu(e[MenuKey := MenuBlob(m)]) == e[MenuKey := MenuBlob(m)]
  {
  }

  lemma GetRestaurantInfoSeedsOnce(e: Entries)
    requires WellTyped(e)
    ensures InfoKey !in e ==> InfoOf(e) == Constants.INITIAL_RESTAURANT_INFO
    ensures InfoOf(SeedInfo(e)) == InfoOf(e)
    ensures SeedInfo(SeedInfo(e)) == SeedInfo(e)
  {
  }

  lemma SaveThenGetRestaurantInfo(e: Entries, info: RestaurantInfo)
    requires WellTyped(e)
    ensures WellTyped(e[InfoKey := InfoBlob(info)])
    ensures InfoOf(e[InfoKey := InfoBlob(info)]) == info
    ensures SeedInfo(e[InfoKey := InfoBlob(info)]) == e[InfoKey := InfoBlob(info)]
  {
  }

  /** Writing one key leaves what the other two readers return unchanged. */
  lemma WritesAreIndependent(e: Entries, m: seq<MenuItem>, info: RestaurantInfo, day: string)
    requires WellTyped(e)
    ensures InfoOf(e[MenuKey := MenuBlob(m)]) == InfoOf(e)
    ensures ViewsOf(e[MenuKey := MenuBlob(m)]) == ViewsOf(e)
    ensures MenuOf(e[InfoKey := InfoBlob(info)]) == MenuOf(e)
    ensures ViewsOf(e[InfoKey := InfoBlob(info)]) == ViewsOf(e)
    ensures MenuOf(e[ViewsKey := ViewsBlob(Bump(ViewsOf(e), day))]) == MenuOf(e)
    ensures InfoOf(e[ViewsKey := ViewsBlob(Bump(ViewsOf(e), day))]) == InfoOf(e)
  {
  }

  /** `n` visits on one day from no entry for that day count `n`, and leave
      every other day's counter as it was. */
  lemma {:induction false} BumpTimesCounts(views: map<string, nat>, day: string, n: nat)
    requires day !in views
    ensures DayCount(BumpTimes(views, day, n), day) == n
    ensures forall d :: d != day ==> DayCount(BumpTimes(views, day, n), d) == DayCount(views, d)
  {
    if n > 0 {
      BumpTimesCounts(views, day, n - 1);
    }
  }

  /** A fresh store reads 0 today; three visits read 3; the next day starts
      at 1 and the previous day keeps 3. */
  lemma ViewCounterScenario(today: string, tomorrow: string)
    requires today != tomorrow
    ensures DayCount(map[], today) == 0
    ensures DayCount(BumpTimes(map[], today, 3), today) == 3
    ensures DayCount(Bump(BumpTimes(map[], today, 3), tomorrow), tomorrow) == 1
    ensures DayCount(Bump(BumpTimes(map[], today, 3), tomorrow), today) == 3
  {
    BumpTimesCounts(map[], today, 3);
  }

  /** The same scenario through the store's own operations. */
  method ViewCounterThroughStore(today: string, tomorrow: string)
    requires today != tomorrow
  {
    var store := new StorageService();
    var n := store.GetTodayViews(today);
    assert n == 0;
    store.IncrementViews(today);
    store.IncrementViews(today);
    store.IncrementViews(today);
    n := store.GetTodayViews(today);
    assert n == 3;
    store.IncrementViews(tomorrow);
    n := store.GetTodayViews(tomorrow);
    assert n == 1;
    n := store.GetTodayViews(today);
    assert n == 3;
  }
}
