/** The browser's CacheStorage: named partitions ("caches"), each a map from
    request URL to a stored response. The pure functions describe one
    operation on the whole collection; the class `CacheStorage` holds the
    collection and changes it in place, as `caches.open`, `cache.put` and
    `caches.delete` do. */
module Partitions {
  import opened Base
  import opened Http

  type Entries = map<string, Response>
  type Partitions = map<string, Entries>

  /** The entries of a partition; an absent partition has none. */
  function EntriesOf(p: Partitions, name: string): Entries
  {
    if name in p then p[name] else map[]
  }

  /** `caches.open(name)`: creates the partition when it does not exist and
      changes nothing else. */
  function Opened(p: Partitions, name: string): (q: Partitions)
    ensures q.Keys == p.Keys + {name}
    ensures forall n :: n in p ==> q[n] == p[n]
    ensures EntriesOf(q, name) == EntriesOf(p, name)
  {
    if name in p then p else p[name := map[]]
  }

  /** `cache.match(key)` on partition `name`. */
  function Lookup(p: Partitions, name: string, key: string): Option<Response>
  {
    if name in p && key in p[name] then Some(p[name][key]) else None
  }

  /** `cache.put(key, r)` on partition `name`: the entry is replaced whole. */
  function Stored(p: Partitions, name: string, key: string, r: Response): (q: Partitions)
    ensures Lookup(q, name, key) == Some(r)
    ensures forall n, k :: (n, k) != (name, key) ==> Lookup(q, n, k) == Lookup(p, n, k)
  {
    p[name := EntriesOf(p, name)[key := r]]
  }

  /** The guard every handler puts in front of `cache.put`: only `ok`
      responses are stored. */
  function StoredIfOk(p: Partitions, name: string, key: string, r: Response): Partitions
  {
    if r.Ok() then Stored(p, name, key, r) else p
  }

  /** What is left after deleting every partition whose name is not in
      `keep`. */
  function Retained(p: Partitions, keep: set<string>): (q: Partitions)
    ensures forall n :: n in q <==> n in p && n in keep
    ensures forall n :: n in q ==> q[n] == p[n]
  {
    map n | n in p && n in keep :: p[n]
  }

  /** A background revalidation a handler starts and does not wait for: a
      later fetch of `key` whose response, when ok, replaces the entry in
      `partition`. */
  datatype Refresh = Refresh(partition: string, key: string)

  /** What a fetch handler resolves to: the response given to the page and
      the revalidation (if any) it left running. */
  datatype Served = Served(response: Response, background: Option<Refresh>)

  /** The effect of a revalidation once its fetch settles: an ok response
      overwrites the entry, anything else (a non-ok status, a rejection)
      leaves the partitions as they were; errors are swallowed. */
  function Revalidated(p: Partitions, task: Refresh, net: NetOutcome): Partitions
  {
    match net
    case Resp(r) => StoredIfOk(p, task.partition, task.key, r)
    case Fail => p
  }

  lemma RevalidationOverwritesOnlyOnOk(p: Partitions, task: Refresh, net: NetOutcome)
    ensures var q := Revalidated(p, task, net);
      && (net.Resp? && net.response.Ok() ==> Lookup(q, task.partition, task.key) == Some(net.response))
      && (!(net.Resp? && net.response.Ok()) ==> q == p)
      && forall n, k :: (n, k) != (task.partition, task.key) ==> Lookup(q, n, k) == Lookup(p, n, k)
  {
  }

  /** A handler's whole effect: what it resolves to and the partitions
      afterwards. */
  datatype Step = Step(served: Served, after: Partitions)

  /** The cache-first pattern most handlers share: open `name`; on a hit
      return the stored entry (starting a revalidation when `refresh`); on a
      miss return whatever the network answers, storing it only when ok; when
      the fetch rejects, the catch block looks the request up again (still a
      miss, nothing has changed) and answers `onFail`. */
  function CacheFirstStep(p: Partitions, name: string, key: string, net: NetOutcome,
                          refresh: bool, onFail: Response): Step
  {
    var q := Opened(p, name);
    match Lookup(q, name, key)
    case Some(hit) => Step(Served(hit, if refresh then Some(Refresh(name, key)) else None), q)
    case None =>
      match net
      case Resp(r) => Step(Served(r, None), StoredIfOk(q, name, key, r))
      case Fail => Step(Served(onFail, None), q)
  }

  /** A hit never waits on the network: the result is the same whatever the
      network would have answered, the stored entry is returned unchanged and
      nothing is written. */
  lemma CacheFirstHitIgnoresNetwork(p: Partitions, name: string, key: string, net1: NetOutcome,
                                    net2: NetOutcome, refresh: bool, onFail: Response)
    requires Lookup(p, name, key).Some?
    ensures CacheFirstStep(p, name, key, net1, refresh, onFail) == CacheFirstStep(p, name, key, net2, refresh, onFail)
    ensures var st := CacheFirstStep(p, name, key, net1, refresh, onFail);
      && st.served.response == Lookup(p, name, key).value
      && st.after == p
      && (st.served.background.Some? <==> refresh)
  {
  }

  /** On a miss the network's response is returned whatever its status, and
      the partition gains exactly that entry when it is ok; a non-ok response
      leaves every entry as it was. */
  lemma CacheFirstMissStoresOnlyOk(p: Partitions, name: string, key: string, r: Response,
                                   refresh: bool, onFail: Response)
    requires Lookup(p, name, key).None?
    ensures var st := CacheFirstStep(p, name, key, Resp(r), refresh, onFail);
      && st.served == Served(r, None)
      && (r.Ok() ==> Lookup(st.after, name, key) == Some(r))
      && (forall n, k :: (n, k) != (name, key) ==> Lookup(st.after, n, k) == Lookup(p, n, k))
      && (!r.Ok() ==> forall n, k :: Lookup(st.after, n, k) == Lookup(p, n, k))
  {
  }

  /** The first answer for a key lands in the partition and the next request
      for it is a hit that does not depend on the network any more. */
  lemma CacheFirstSecondRequestHits(p: Partitions, name: string, key: string, r: Response,
                                    net2: NetOutcome, refresh: bool, onFail: Response)
    requires Lookup(p, name, key).None? && r.Ok()
    ensures var first := CacheFirstStep(p, name, key, Resp(r), refresh, onFail);
      CacheFirstStep(first.after, name, key, net2, refresh, onFail)
        == Step(Served(r, if refresh then Some(Refresh(name, key)) else None), first.after)
  {
  }

  /** `q` differs from `p` only by ok responses written over or beside the
      old entries: nothing was removed and nothing non-ok was written. */
  ghost predicate OnlyOkWrites(p: Partitions, q: Partitions)
  {
    forall n, k :: Lookup(q, n, k) != Lookup(p, n, k) ==> Lookup(q, n, k).Some? && Lookup(q, n, k).value.Ok()
  }

  /** Opening a partition, storing an ok response, and two such changes in a
      row are all only-ok writes. */
  lemma OnlyOkWritesSteps(p: Partitions, name: string, key: string, r: Response, q: Partitions, s: Partitions)
    ensures OnlyOkWrites(p, p)
    ensures OnlyOkWrites(p, Opened(p, name))
    ensures OnlyOkWrites(p, StoredIfOk(p, name, key, r))
    ensures OnlyOkWrites(p, q) && OnlyOkWrites(q, s) ==> OnlyOkWrites(p, s)
  {
    assert forall n, k :: Lookup(Opened(p, name), n, k) == Lookup(p, n, k);
  }

  /** An only-ok write keeps every stored entry stored, and keeps a
      partition whose entries are all ok that way. */
  lemma OnlyOkWritesKeep(p: Partitions, q: Partitions, name: string)
    requires OnlyOkWrites(p, q)
    ensures forall k :: k in EntriesOf(p, name) ==> k in EntriesOf(q, name)
    ensures (forall k :: k in EntriesOf(p, name) ==> EntriesOf(p, name)[k].Ok())
        ==> forall k :: k in EntriesOf(q, name) ==> EntriesOf(q, name)[k].Ok()
  {
    forall k | k in EntriesOf(p, name)
      ensures k in EntriesOf(q, name)
    {
      assert Lookup(p, name, k).Some?;
    }
    if forall k :: k in EntriesOf(p, name) ==> EntriesOf(p, name)[k].Ok() {
      forall k | k in EntriesOf(q, name)
        ensures EntriesOf(q, name)[k].Ok()
      {
        assert Lookup(q, name, k) == Some(EntriesOf(q, name)[k]);
        if Lookup(q, name, k) == Lookup(p, name, k) {
          assert k in EntriesOf(p, name);
        }
      }
    }
  }

  /** A cache-first step and a revalidation only ever write ok responses. */
  lemma CacheFirstOnlyOkWrites(p: Partitions, name: string, key: string, net: NetOutcome,
                               refresh: bool, onFail: Response, task: Refresh)
    ensures OnlyOkWrites(p, CacheFirstStep(p, name, key, net, refresh, onFail).after)
    ensures OnlyOkWrites(p, Revalidated(p, task, net))
  {
    var q := Opened(p, name);
    OnlyOkWritesSteps(p, name, key, if net.Resp? then net.response else onFail, q, q);
    if Lookup(q, name, key).None? && net.Resp? {
      OnlyOkWritesSteps(q, name, key, net.response, StoredIfOk(q, name, key, net.response), q);
    }
    if net.Resp? {
      OnlyOkWritesSteps(p, task.partition, task.key, net.response, p, p);
    }
  }

  /** The first cached response among two keys, or `otherwise`
      (`await cache.match(k1) || await cache.match(k2) || otherwise`). */
  function FirstCached(p: Partitions, name: string, k1: string, k2: string, otherwise: Response): (r: Response)
    ensures Lookup(p, name, k1).Some? ==> r == Lookup(p, name, k1).value
    ensures Lookup(p, name, k1).None? && Lookup(p, name, k2).Some? ==> r == Lookup(p, name, k2).value
    ensures Lookup(p, name, k1).None? && Lookup(p, name, k2).None? ==> r == otherwise
  {
    match Lookup(p, name, k1)
    case Some(r1) => r1
    case None =>
      match Lookup(p, name, k2)
      case Some(r2) => r2
      case None => otherwise
  }

  /** `cache.add(url)`: fetch, and store the response only when it is ok
      (a non-ok response or a rejection makes `add` reject and stores
      nothing). */
  function Added(e: Entries, key: string, net: NetOutcome): Entries
  {
    if net.Resp? && net.response.Ok() then e[key := net.response] else e
  }

  /** `cache.add` for every URL of `urls`, each independently (a failure is
      caught per URL). */
  function AddedEach(e: Entries, origin: string, urls: seq<string>, outcome: string -> NetOutcome): Entries
  {
    if urls == [] then e
    else
      var u := urls[|urls| - 1];
      Added(AddedEach(e, origin, urls[..|urls| - 1], outcome), Resolve(origin, u), outcome(u))
  }

  /** One URL's failure does not keep any other URL out of the partition:
      each listed URL ends up stored exactly when its own fetch was ok (or
      it was stored before), and with its own response. */
  lemma {:induction false} AddedEachIndependent(e: Entries, origin: string, urls: seq<string>,
                                                outcome: string -> NetOutcome, u: string)
    requires u in urls
    ensures var q := AddedEach(e, origin, urls, outcome);
      && (Resolve(origin, u) in q <==>
          (outcome(u).Resp? && outcome(u).response.Ok()) || Resolve(origin, u) in e)
      && (outcome(u).Resp? && outcome(u).response.Ok() ==> q[Resolve(origin, u)] == outcome(u).response)
  {
    var init := urls[..|urls| - 1];
    var last := urls[|urls| - 1];
    if u != last {
      assert u in init by {
        var j :| 0 <= j < |urls| && urls[j] == u;
        assert j < |urls| - 1;
        assert init[j] == u;
      }
      AddedEachIndependent(e, origin, init, outcome, u);
      ResolveInjective(origin, u, last);
    } else if u in init {
      AddedEachIndependent(e, origin, init, outcome, u);
    } else {
      AddedEachUnlisted(e, origin, init, outcome, u);
    }
  }

  /** Keys resolved against one origin are distinct for distinct paths. */
  lemma ResolveInjective(origin: string, a: string, b: string)
    ensures Resolve(origin, a) == Resolve(origin, b) ==> a == b
  {
    assert Resolve(origin, a)[|origin|..] == a;
    assert Resolve(origin, b)[|origin|..] == b;
  }

  /** A URL that is not listed keeps whatever the partition held for it. */
  lemma {:induction false} AddedEachUnlisted(e: Entries, origin: string, urls: seq<string>,
                                             outcome: string -> NetOutcome, u: string)
    requires u !in urls
    ensures var q := AddedEach(e, origin, urls, outcome);
      (Resolve(origin, u) in q <==> Resolve(origin, u) in e)
      && (Resolve(origin, u) in e ==> q[Resolve(origin, u)] == e[Resolve(origin, u)])
  {
    if urls != [] {
      var init := urls[..|urls| - 1];
      var last := urls[|urls| - 1];
      assert urls == init + [last];
      AddedEachUnlisted(e, origin, init, outcome, u);
      ResolveInjective(origin, u, last);
    }
  }

  class CacheStorage {
    var partitions: Partitions

    constructor (initial: Partitions)
      ensures partitions == initial
    {
      partitions := initial;
    }

    /** `cache.match(key)` on an opened partition. */
    function Match(name: string, key: string): Option<Response>
      reads this
    {
      Lookup(partitions, name, key)
    }

    method Open(name: string)
      modifies this
      ensures partitions == Opened(old(partitions), name)
    {
      if name !in partitions {
        partitions := partitions[name := map[]];
      }
    }

    method Put(name: string, key: string, r: Response)
      modifies this
      ensures partitions == Stored(old(partitions), name, key, r)
    {
      partitions := partitions[name := EntriesOf(partitions, name)[key := r]];
    }

    method Delete(name: string)
      modifies this
      ensures partitions == old(partitions) - {name}
    {
      partitions := partitions - {name};
    }

    /** The activation clean-up every worker runs: walk `caches.keys()` and
      delete each partition whose name is not in `keep`. */
    method PurgeExcept(keep: set<string>)
      modifies this
      ensures partitions == Retained(old(partitions), keep)
    {
      var names := partitions.Keys;
      while names != {}
        invariant names <= old(partitions).Keys
        invariant forall n :: n in partitions <==> n in old(partitions) && (n in names || n in keep)
        invariant forall n :: n in partitions ==> partitions[n] == old(partitions)[n]
        decreases names
      {
        var n :| n in names;
        if n !in keep {
          Delete(n);
        }
        names := names - {n};
      }
      assert partitions == Retained(old(partitions), keep);
    }

    /** The cache-first handler body shared by several workers (see
      `CacheFirstStep`). */
    method CacheFirst(name: string, key: string, net: NetOutcome, refresh: bool, onFail: Response)
      returns (s: Served)
      modifies this
      ensures Step(s, partitions) == CacheFirstStep(old(partitions), name, key, net, refresh, onFail)
    {
      Open(name);
      var cached := Match(name, key);
      if cached.Some? {
        s := Served(cached.value, if refresh then Some(Refresh(name, key)) else None);
        return;
      }
      match net {
        case Resp(r) =>
          if r.Ok() {
            Put(name, key, r);
          }
          s := Served(r, None);
        case Fail =>
          s := Served(onFail, None);
      }
    }

    /** Runs a revalidation a handler left in the background, once its fetch
      has settled with `net`. */
    method Revalidate(task: Refresh, net: NetOutcome)
      modifies this
      ensures partitions == Revalidated(old(partitions), task, net)
    {
      if net.Resp? && net.response.Ok() {
        Put(task.partition, task.key, net.response);
      }
    }

    /** Opens `name` and runs `cache.add` for every URL of `urls`, a failure
      of one being caught and logged (`Promise.allSettled` over
      `cache.add(url).catch(...)`). */
    method AddEach(name: string, origin: string, urls: seq<string>, outcome: string -> NetOutcome)
      modifies this
      ensures partitions == Opened(old(partitions), name)[name :=
                AddedEach(EntriesOf(old(partitions), name), origin, urls, outcome)]
    {
      Open(name);
      var i := 0;
      while i < |urls|
        invariant 0 <= i <= |urls|
        invariant partitions == Opened(old(partitions), name)[name :=
                    AddedEach(EntriesOf(old(partitions), name), origin, urls[..i], outcome)]
      {
        var u := urls[i];
        assert urls[..i + 1][..i] == urls[..i];
        var fetched := outcome(u);
        if fetched.Resp? && fetched.response.Ok() {
          Put(name, Resolve(origin, u), fetched.response);
        }
        i := i + 1;
      }
      assert urls[..|urls|] == urls;
    }
  }
}
