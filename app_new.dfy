/** src/App-new.js, `fetchPokemon`: the earlier loader. A stored list younger
    than a day is used with no request; otherwise every record is reloaded
    in slices of 50 and the list and the time are written with no quota
    fallback; any error republishes the stored list. */
module AppNew {
  import opened Base
  import opened Pokedex
  import opened WebStorage
  import opened AppEvents

  const CacheKey: string := "pokemonCache"
  const TimeKey: string := "pokemonCacheTimestamp"
  /** 24 * 60 * 60 * 1000 milliseconds. */
  const OneDay: int := 86400000

  /** Both keys hold a value and the stored time is less than a day before
      `now`. A time stamp that `parseInt` turns into NaN makes the
      comparison false. */
  predicate Fresh(st: Store, now: int)
  {
    var c := st.Get(CacheKey);
    var t := st.Get(TimeKey);
    Truthy(c) && Truthy(t) && ParseInt(t.value).Some? && now - ParseInt(t.value).value < OneDay
  }

  /** The outcome of a run: the state setters called, the storage
      afterwards, and whether the returned promise rejected (a parse error
      thrown inside the catch block escapes it). */
  datatype Run = Run(events: seq<Event>, store: Store, rejected: bool)

  /** The catch block: a stored value is parsed and published; if it does
      not parse, the error escapes. Nothing stored publishes nothing. */
  function Caught(st: Store): Run
  {
    var c := st.Get(CacheKey);
    if Truthy(c) then
      match ParseList(c.value)
      case Some(items) => Run([Publish(items)], st, false)
      case None => Run([], st, true)
    else Run([], st, false)
  }

  /** The save after a full load: the list, then the time; a failed write
      throws into the catch block. */
  function Saved(st: Store, all: seq<Pokemon>, now: int): Run
  {
    var (s1, ok1) := st.Set(CacheKey, ListJson(all));
    if !ok1 then Caught(s1)
    else
      var (s2, ok2) := s1.Set(TimeKey, NumberText(now));
      if !ok2 then Caught(s2) else Run([], s2, false)
  }

  /** The whole of `fetchPokemon`, with the same inputs as the current
      loader's but no online flag; `setLoading(false)` in `finally` runs
      whether or not the promise rejects. */
  function Fetch(st: Store, listing: Option<seq<Option<Detail>>>, now: int): Run
  {
    var r :=
      if Fresh(st, now) then
        match ParseList(st.Get(CacheKey).value)
        case Some(items) => Run([Publish(items), SetLoading(false)], st, false)
        case None => Caught(st)
      else
        match listing
        case None => Caught(st)
        case Some(ds) =>
          var saved := Saved(st, Successes(ds), now);
          Run(Progress(ds) + saved.events, saved.store, saved.rejected);
    Run([SetLoading(true)] + r.events + [SetLoading(false)], r.store, r.rejected)
  }

  /** A fresh stored list that parses is used as it is: it is published, no
      request is made (the result is the same whatever the network would
      have answered), nothing is written. */
  lemma FreshListUsedWithoutRequest(st: Store, listing: Option<seq<Option<Detail>>>, now: int)
    requires Fresh(st, now) && ParseList(st.Get(CacheKey).value).Some?
    ensures Fetch(st, listing, now) ==
      Run([SetLoading(true), Publish(st.Get(CacheKey).value.items), SetLoading(false), SetLoading(false)], st, false)
  {
  }

  /** Anything else goes to the network: a successful listing publishes the
      running list after every slice of 50, and when both writes fit the
      list and the time are stored and nothing is republished. */
  lemma StaleListReloaded(st: Store, ds: seq<Option<Detail>>, now: int)
    requires !Fresh(st, now)
    ensures var r := Fetch(st, Some(ds), now);
      r.events[1..1 + |Progress(ds)|] == Progress(ds)
    ensures st.Fits() && st.Set(CacheKey, ListJson(Successes(ds))).0.Fits() ==>
      var r := Fetch(st, Some(ds), now);
      && r.events == [SetLoading(true)] + Progress(ds) + [SetLoading(false)]
      && r.store.Get(CacheKey) == Some(ListJson(Successes(ds)))
      && r.store.Get(TimeKey) == Some(NumberText(now))
      && !r.rejected
  {
    var saved := Saved(st, Successes(ds), now);
    assert Fetch(st, Some(ds), now).events == [SetLoading(true)] + Progress(ds) + saved.events + [SetLoading(false)];
  }

  /** No quota fallback: when the list does not fit, the stored value stays
      as it was, and the catch block republishes it after the freshly loaded
      progress (or rejects when it does not parse). */
  lemma QuotaFailureRepublishesStoredList(st: Store, ds: seq<Option<Detail>>, now: int)
    requires !Fresh(st, now) && !st.Fits()
    ensures var r := Fetch(st, Some(ds), now);
      && r.store.items == st.items
      && (StoredListParses(st) ==>
            r.events == [SetLoading(true)] + Progress(ds) + [Publish(st.Get(CacheKey).value.items), SetLoading(false)])
      && (Truthy(st.Get(CacheKey)) && !StoredListParses(st) ==> r.rejected)
  {
    var saved := Saved(st, Successes(ds), now);
    assert st.Set(CacheKey, ListJson(Successes(ds))).0.Get(CacheKey) == st.Get(CacheKey);
    assert st.Set(CacheKey, ListJson(Successes(ds))).0.items == st.items;
  }

  predicate StoredListParses(st: Store)
  {
    Truthy(st.Get(CacheKey)) && ParseList(st.Get(CacheKey).value).Some?
  }

  /** A stored list that is fresh but does not parse is never healed: the
      parse error is caught, parsed again in the catch block, and escapes;
      the storage is left as it was. */
  lemma CorruptFreshListRejects(st: Store, listing: Option<seq<Option<Detail>>>, now: int)
    requires Fresh(st, now) && ParseList(st.Get(CacheKey).value).None?
    ensures Fetch(st, listing, now) == Run([SetLoading(true), SetLoading(false)], st, true)
  {
  }

  /** `loading` always ends false, even when the promise rejects. */
  lemma LoadingAlwaysEnds(st: Store, listing: Option<seq<Option<Detail>>>, now: int)
    ensures var es := Fetch(st, listing, now).events;
      |es| >= 2 && es[0] == SetLoading(true) && es[|es| - 1] == SetLoading(false)
  {
  }

  /** The catch block as a method: `rejected` stands for the escaping
      parse error. */
  method Recover(store: LocalStorage) returns (events: seq<Event>, rejected: bool)
    ensures Run(events, store.State(), rejected) == Caught(store.State())
  {
    var cached := store.GetItem(CacheKey);
    events := [];
    rejected := false;
    if Truthy(cached) {
      var parsed := ParseList(cached.value);
      if parsed.Some? {
        events := [Publish(parsed.value)];
      } else {
        rejected := true;
      }
    }
  }

  method FetchPokemon(store: LocalStorage, listing: Option<seq<Option<Detail>>>, now: int)
    returns (events: seq<Event>, rejected: bool)
    modifies store
    ensures Run(events, store.State(), rejected) == Fetch(old(store.State()), listing, now)
  {
    var more: seq<Event>;
    if Fresh(store.State(), now) {
      var parsed := ParseList(store.GetItem(CacheKey).value);
      if parsed.Some? {
        more, rejected := [Publish(parsed.value), SetLoading(false)], false;
      } else {
        more, rejected := Recover(store);
      }
    } else if listing.None? {
      more, rejected := Recover(store);
    } else {
      var all, published := LoadInBatches(listing.value);
      var ok := store.SetItem(CacheKey, ListJson(all));
      if ok {
        ok := store.SetItem(TimeKey, NumberText(now));
      }
      if ok {
        more, rejected := [], false;
      } else {
        more, rejected := Recover(store);
      }
      more := Publications(published) + more;
    }
    events := [SetLoading(true)] + more + [SetLoading(false)];
  }
}
