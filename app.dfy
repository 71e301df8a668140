/** src/App.js, `fetchPokemon`: the foreground reconciler between the stored
    list and the upstream API. It shows a stored list at once, stops there
    when offline, otherwise reloads every record in slices of 50, persists
    the result down a ladder of fallbacks when the storage quota is
    exhausted, and heals a stored value that does not parse. */
module App {
  import opened Base
  import opened Pokedex
  import opened WebStorage
  import opened AppEvents

  const CacheKey: string := "pokepwa-pokemon-cache"
  const TimeKey: string := "pokepwa-cache-time"
  /** Keys of earlier versions, removed to make room. */
  const LegacyKeys: seq<string> :=
    ["pokemonCache", "pokemonCacheTimestamp", "pokepwa-pokemon-data", "pokepwa-pokemon-timestamp"]
  /** The cap of the last persisting attempt. */
  const ReducedSize: nat := 500

  /** The first 500 records (`slice(0, 500)`). */
  function Reduced(all: seq<Pokemon>): seq<Pokemon>
  {
    all[..Min(ReducedSize, |all|)]
  }

  /** One persisting attempt: the list, then the time stamp. It succeeds
      only when both writes fit; a failed write ends the attempt. */
  function WritePair(st: Store, list: seq<Pokemon>, now: int): (Store, bool)
  {
    var (s1, ok1) := st.Set(CacheKey, ListJson(list));
    if !ok1 then (s1, false) else s1.Set(TimeKey, NumberText(now))
  }

  function RemoveLegacy(st: Store): Store
  {
    st.Remove(LegacyKeys[0]).Remove(LegacyKeys[1]).Remove(LegacyKeys[2]).Remove(LegacyKeys[3])
  }

  /** The persisting ladder: the full list; if that fails, the full list
      again after removing the legacy keys; if that fails too, the first 500
      records; a last failure is swallowed. */
  function Persisted(st: Store, all: seq<Pokemon>, now: int): Store
  {
    var (a, ok1) := WritePair(st, all, now);
    if ok1 then a
    else
      var (b, ok2) := WritePair(RemoveLegacy(a), all, now);
      if ok2 then b else WritePair(b, Reduced(all), now).0
  }

  /** One attempt either stores both the list and the time stamp, or
      leaves the list as it was or as the list written; it touches no other
      key. It succeeds exactly when both writes fit. */
  lemma WritePairEffect(st: Store, list: seq<Pokemon>, now: int)
    ensures var (q, ok) := WritePair(st, list, now);
      && (ok <==> st.Fits() && st.Set(CacheKey, ListJson(list)).0.Fits())
      && (ok ==> q.Get(CacheKey) == Some(ListJson(list)) && q.Get(TimeKey) == Some(NumberText(now)))
      && (q.Get(CacheKey) == Some(ListJson(list)) || q.Get(CacheKey) == st.Get(CacheKey))
      && (forall k :: k != CacheKey && k != TimeKey ==> q.Get(k) == st.Get(k))
  {
  }

  lemma RemoveLegacyEffect(st: Store)
    ensures forall k :: k in LegacyKeys ==> RemoveLegacy(st).Get(k).None?
    ensures forall k :: k !in LegacyKeys ==> RemoveLegacy(st).Get(k) == st.Get(k)
    ensures RemoveLegacy(st).quota == st.quota
  {
  }

  /** What the ladder leaves behind: the stored list is the full list, its
      first 500 records, or what was stored before; the legacy keys are
      removed exactly when the first attempt failed; no other key changes;
      and when the first two writes fit the full list and the time stamp
      are stored. */
  lemma PersistOutcomes(st: Store, all: seq<Pokemon>, now: int)
    ensures var q := Persisted(st, all, now);
      && (q.Get(CacheKey) == Some(ListJson(all)) || q.Get(CacheKey) == Some(ListJson(Reduced(all)))
          || q.Get(CacheKey) == st.Get(CacheKey))
      && (WritePair(st, all, now).1 ==> forall k :: k in LegacyKeys ==> q.Get(k) == st.Get(k))
      && (!WritePair(st, all, now).1 ==> forall k :: k in LegacyKeys ==> q.Get(k).None?)
      && (forall k :: k != CacheKey && k != TimeKey && k !in LegacyKeys ==> q.Get(k) == st.Get(k))
      && (st.Fits() && st.Set(CacheKey, ListJson(all)).0.Fits() ==>
            q.Get(CacheKey) == Some(ListJson(all)) && q.Get(TimeKey) == Some(NumberText(now)))
  {
    var (a, ok1) := WritePair(st, all, now);
    WritePairEffect(st, all, now);
    assert "pokemonCache" != CacheKey && "pokemonCacheTimestamp" != TimeKey;
    assert forall k :: k in LegacyKeys ==> k != CacheKey && k != TimeKey;
    if !ok1 {
      var r := RemoveLegacy(a);
      RemoveLegacyEffect(a);
      var (b, ok2) := WritePair(r, all, now);
      WritePairEffect(r, all, now);
      if !ok2 {
        WritePairEffect(b, Reduced(all), now);
      }
    }
  }

  /** Round trip: reading the list back after persisting gives the full
      list or its first 500 records, unless every write of the list failed,
      in which case the stored value is the one from before. */
  lemma PersistThenLoad(st: Store, all: seq<Pokemon>, now: int)
    ensures var v := Persisted(st, all, now).Get(CacheKey);
      v == st.Get(CacheKey)
      || (v.Some? && ParseList(v.value).Some? && ParseList(v.value).value in {all, Reduced(all)})
  {
    PersistOutcomes(st, all, now);
  }

  /** The outcome of a run: the state setters called, in order, and the
      storage afterwards. */
  datatype Run = Run(events: seq<Event>, store: Store)

  /** The stored list, when there is one and it parses. */
  function StoredList(st: Store): Option<seq<Pokemon>>
  {
    var c := st.Get(CacheKey);
    if Truthy(c) then ParseList(c.value) else None
  }

  /** A stored value that is there but does not parse. */
  predicate Corrupt(st: Store)
  {
    Truthy(st.Get(CacheKey)) && StoredList(st).None?
  }

  /** The first step: a stored list that parses is shown at once; a stored
      value that does not parse is removed with its time stamp. */
  function ShowStored(st: Store): Run
  {
    match StoredList(st)
    case Some(items) => Run([Publish(items), SetCacheLoaded(true), SetLoading(false)], st)
    case None => Run([], if Corrupt(st) then st.Remove(CacheKey).Remove(TimeKey) else st)
  }

  /** The outer catch: the stored list read again and published; a value
      that does not parse is removed with its time stamp; nothing stored
      publishes the empty list. */
  function Caught(st: Store): Run
  {
    if Truthy(st.Get(CacheKey)) then ShowCaught(st) else Run([Publish([])], st)
  }

  function ShowCaught(st: Store): Run
  {
    match StoredList(st)
    case Some(items) => Run([Publish(items)], st)
    case None => Run([], st.Remove(CacheKey).Remove(TimeKey))
  }

  /** The request part: with no listing (the list request or its JSON
      threw) the outer catch; otherwise the batched load, the persisting
      ladder, and the milestone check when notifications are enabled and
      something loaded. */
  function Reload(st: Store, listing: Option<seq<Option<Detail>>>, now: int, notify: bool): Run
  {
    match listing
    case None => Caught(st)
    case Some(ds) =>
      var all := Successes(ds);
      Run(Progress(ds) + (if notify && |all| > 0 then [Milestones(|all|)] else []), Persisted(st, all, now))
  }

  /** The whole of `fetchPokemon`. `online` is `navigator.onLine`;
      `listing` is the outcome of the list request and its JSON (`None`:
      it threw), holding the outcome of each record's detail request;
      `now` is `Date.now()`; `notify` is the `notificationsEnabled` the
      function closed over. The offline gate tests the value read at the
      start, so an unparseable stored value sends an offline call on to the
      request. */
  function Fetch(st: Store, online: bool, listing: Option<seq<Option<Detail>>>, now: int, notify: bool): Run
  {
    var first := ShowStored(st);
    if StoredList(st).Some? && !online then
      Run([SetLoading(true)] + first.events + [SetLoading(false)], first.store)
    else if !online && !Truthy(st.Get(CacheKey)) then
      Run([SetLoading(true), Publish([]), SetLoading(false), SetLoading(false)], first.store)
    else
      var r := Reload(first.store, listing, now, notify);
      Run([SetLoading(true)] + first.events + r.events + [SetLoading(false)], r.store)
  }

  /** `loading` is set at the start and always ends false. */
  lemma LoadingAlwaysEnds(st: Store, online: bool, listing: Option<seq<Option<Detail>>>, now: int, notify: bool)
    ensures var es := Fetch(st, online, listing, now, notify).events;
      |es| >= 2 && es[0] == SetLoading(true) && es[|es| - 1] == SetLoading(false)
  {
  }

  /** A stored list that parses is shown before any request: it is the first
      list published, with `cacheLoaded` set and `loading` cleared; offline,
      nothing else happens: no request, no write. */
  lemma StoredListShownFirst(st: Store, online: bool, listing: Option<seq<Option<Detail>>>, now: int, notify: bool)
    requires StoredList(st).Some?
    ensures var r := Fetch(st, online, listing, now, notify);
      r.events[..4] == [SetLoading(true), Publish(StoredList(st).value), SetCacheLoaded(true), SetLoading(false)]
    ensures !online ==> (Fetch(st, online, listing, now, notify) ==
      Run([SetLoading(true), Publish(StoredList(st).value), SetCacheLoaded(true), SetLoading(false),
           SetLoading(false)], st))
  {
  }

  /** Offline with nothing stored: the empty list is published and nothing
      is requested or written. */
  lemma OfflineWithoutStoredList(st: Store, listing: Option<seq<Option<Detail>>>, now: int, notify: bool)
    requires !Truthy(st.Get(CacheKey))
    ensures Fetch(st, false, listing, now, notify) ==
      Run([SetLoading(true), Publish([]), SetLoading(false), SetLoading(false)], st)
  {
  }

  /** Self-healing: a stored value that does not parse is removed with its
      time stamp, and it is never left behind: afterwards the key holds
      either nothing or a list that parses. */
  lemma CorruptStoredListHealed(st: Store, online: bool, listing: Option<seq<Option<Detail>>>, now: int, notify: bool)
    requires Truthy(st.Get(CacheKey))
    ensures var v := Fetch(st, online, listing, now, notify).store.Get(CacheKey);
      v.None? || v.value.ListJson?
    ensures Corrupt(st) && listing.None? ==>
      Fetch(st, online, listing, now, notify).store == st.Remove(CacheKey).Remove(TimeKey)
  {
    var st1 := ShowStored(st).store;
    assert st1.Get(CacheKey).None? || st1.Get(CacheKey).value.ListJson?;
    if listing.Some? {
      PersistOutcomes(st1, Successes(listing.value), now);
    }
  }

  /** Online with a value that is absent or parses, the run is the first
      step, then the request step on the storage as it was. */
  lemma OnlineRun(st: Store, ds: seq<Option<Detail>>, now: int, notify: bool)
    requires !Corrupt(st)
    ensures var r := Reload(st, Some(ds), now, notify);
      Fetch(st, true, Some(ds), now, notify) ==
        Run([SetLoading(true)] + ShowStored(st).events + r.events + [SetLoading(false)], r.store)
  {
  }

  /** A successful reload publishes the running list after every slice of
      50, right after the stored list when there is one, and leaves the
      storage as the persisting ladder does. */
  lemma ReloadPublishesProgress(st: Store, ds: seq<Option<Detail>>, now: int, notify: bool)
    requires !Corrupt(st)
    ensures var r := Fetch(st, true, Some(ds), now, notify);
      var shown := if StoredList(st).Some? then 3 else 0;
      && r.events[1 + shown..1 + shown + |Progress(ds)|] == Progress(ds)
      && r.store == Persisted(st, Successes(ds), now)
  {
    OnlineRun(st, ds, now, notify);
    var first := ShowStored(st).events;
    var r := Reload(st, Some(ds), now, notify);
    var es := [SetLoading(true)] + first + r.events + [SetLoading(false)];
    assert r.events[..|Progress(ds)|] == Progress(ds);
    assert es[1 + |first|..1 + |first| + |Progress(ds)|] == r.events[..|Progress(ds)|];
  }

  /** The milestone check runs after a successful reload exactly when
      notifications are enabled and something loaded. */
  lemma ReloadChecksMilestones(st: Store, ds: seq<Option<Detail>>, now: int, notify: bool)
    requires !Corrupt(st)
    ensures Milestones(|Successes(ds)|) in Fetch(st, true, Some(ds), now, notify).events
      <==> notify && |Successes(ds)| > 0
  {
    OnlineRun(st, ds, now, notify);
    var m := Milestones(|Successes(ds)|);
    var first := ShowStored(st).events;
    var r := Reload(st, Some(ds), now, notify);
    assert m !in first;
    assert forall k :: 0 <= k < |Progress(ds)| ==> Progress(ds)[k].Publish?;
    assert m in r.events <==> notify && |Successes(ds)| > 0;
  }

  /** When the list request fails (online, or offline with a stored value
      that does not parse), the stored list is read again: a parseable one
      is published, an unparseable one removed, and with none the empty list
      is published. */
  lemma FailedReloadFallsBack(st: Store, online: bool, now: int, notify: bool)
    requires online || Corrupt(st)
    ensures var r := Fetch(st, online, None, now, notify);
      && (StoredList(st).Some? ==> r.events[|r.events| - 2] == Publish(StoredList(st).value) && r.store == st)
      && (Corrupt(st) ==> r.store.Get(CacheKey).None? && r.store.Get(TimeKey).None?)
      && (!Truthy(st.Get(CacheKey)) ==> r.events == [SetLoading(true), Publish([]), SetLoading(false)] && r.store == st)
  {
  }

  method PersistList(store: LocalStorage, all: seq<Pokemon>, now: int)
    modifies store
    ensures store.State() == Persisted(old(store.State()), all, now)
  {
    var ok := store.SetItem(CacheKey, ListJson(all));
    if ok {
      ok := store.SetItem(TimeKey, NumberText(now));
    }
    if ok {
      return;
    }
    store.RemoveItem(LegacyKeys[0]);
    store.RemoveItem(LegacyKeys[1]);
    store.RemoveItem(LegacyKeys[2]);
    store.RemoveItem(LegacyKeys[3]);
    ok := store.SetItem(CacheKey, ListJson(all));
    if ok {
      ok := store.SetItem(TimeKey, NumberText(now));
    }
    if ok {
      return;
    }
    var reduced := all[..Min(ReducedSize, |all|)];
    ok := store.SetItem(CacheKey, ListJson(reduced));
    if ok {
      ok := store.SetItem(TimeKey, NumberText(now));
    }
  }

  /** Reads the stored value and shows or removes it. */
  method LoadStored(store: LocalStorage) returns (events: seq<Event>)
    modifies store
    ensures Run(events, store.State()) == ShowStored(old(store.State()))
  {
    events := [];
    var cached := store.GetItem(CacheKey);
    if Truthy(cached) {
      var parsed := ParseList(cached.value);
      if parsed.Some? {
        events := [Publish(parsed.value), SetCacheLoaded(true), SetLoading(false)];
      } else {
        store.RemoveItem(CacheKey);
        store.RemoveItem(TimeKey);
      }
    }
  }

  /** The request part of `fetchPokemon` and its catch block. */
  method ReloadList(store: LocalStorage, listing: Option<seq<Option<Detail>>>, now: int, notify: bool)
    returns (events: seq<Event>)
    modifies store
    ensures Run(events, store.State()) == Reload(old(store.State()), listing, now, notify)
  {
    match listing {
      case None =>
        var again := store.GetItem(CacheKey);
        if Truthy(again) {
          var parsed := ParseList(again.value);
          if parsed.Some? {
            events := [Publish(parsed.value)];
          } else {
            events := [];
            store.RemoveItem(CacheKey);
            store.RemoveItem(TimeKey);
          }
        } else {
          events := [Publish([])];
        }
      case Some(ds) =>
        var all, published := LoadInBatches(ds);
        events := Publications(published);
        PersistList(store, all, now);
        if notify && |all| > 0 {
          events := events + [Milestones(|all|)];
        }
    }
  }

  method FetchPokemon(store: LocalStorage, online: bool, listing: Option<seq<Option<Detail>>>, now: int, notify: bool)
    returns (events: seq<Event>)
    modifies store
    ensures Run(events, store.State()) == Fetch(old(store.State()), online, listing, now, notify)
  {
    var cached := store.GetItem(CacheKey);
    var stored := StoredList(store.State());
    var shown := LoadStored(store);
    events := [SetLoading(true)] + shown;
    if stored.Some? && !online {
      events := events + [SetLoading(false)];
      return;
    }
    if !online && !Truthy(cached) {
      events := events + [Publish([]), SetLoading(false), SetLoading(false)];
      return;
    }
    var more := ReloadList(store, listing, now, notify);
    events := events + more + [SetLoading(false)];
  }
}
