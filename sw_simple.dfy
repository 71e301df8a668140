/** public/service-worker-simple.js, the minimal variant: navigations go
    to the network and fall back to the install-time copy of the page;
    scripts, styles, images and /static/ URLs are cache-first in a second
    partition; everything else goes straight to the network. */
module SwSimple {
  import opened Base
  import opened Http
  import opened Partitions
  import Pokedex

  /** Runtime partition for static resources. */
  const CacheName: string := "pokepwa-v6"
  /** Install-time partition for the essential pages. */
  const StaticCacheName: string := "pokepwa-static-v6"

  const CurrentNames: set<string> := {CacheName, StaticCacheName}

  const EssentialUrls: seq<string> := ["/", "/index.html", "/manifest.json"]

  const Offline: Response := TextResponse(503, "Offline")
  const NotFound: Response := TextResponse(404, "Not found")
  const NetworkError: Response := TextResponse(503, "Network error")

  datatype Route = Navigation | Static | Other

  /** The static-resource test: a script, style or image destination, or
      "/static/" anywhere in the URL. */
  predicate IsStatic(req: Request)
  {
    req.destination == "script" || req.destination == "style" || req.destination == "image"
    || Contains(req.url, "/static/")
  }

  /** `handleFetch` tests the mode first, then the static-resource test. */
  function RouteOf(req: Request): (c: Route)
    ensures c == Navigation <==> req.IsNavigation()
    ensures c == Static <==> !req.IsNavigation() && IsStatic(req)
    ensures c == Other <==> !req.IsNavigation() && !IsStatic(req)
  {
    if req.IsNavigation() then Navigation
    else if IsStatic(req) then Static
    else Other
  }

  /** The whole fetch handler. A navigation returns the network's response
      without storing it; when the fetch rejects, the install-time
      "/index.html", else "/", else 503 "Offline". A static resource is
      cache-first in the runtime partition, storing ok responses, 404 when
      both fail (the catch's second lookup finds nothing new). Anything else
      is the network's answer, or 503 "Network error". */
  function RequestStep(p: Partitions, self: string, req: Request, net: NetOutcome): Step
  {
    match RouteOf(req)
    case Navigation =>
      (match net
       case Resp(r) => Step(Served(r, None), p)
       case Fail =>
         var q := Opened(p, StaticCacheName);
         Step(Served(FirstCached(q, StaticCacheName, Resolve(self, "/index.html"), Resolve(self, "/"), Offline), None), q))
    case Static => CacheFirstStep(p, CacheName, req.url, net, false, NotFound)
    case Other => Step(Served(match net case Resp(r) => r case Fail => NetworkError, None), p)
  }

  /** A sprite URL has no "/static/" in it, so whether it is cached
      depends on the request alone: it is a static asset exactly when its
      destination is a script, a style or an image (an `<img>` load), and
      a plain `fetch` of it goes to the network. */
  lemma SpritesStaticOnlyAsImages(id: nat, req: Request)
    requires req.url == Pokedex.SpriteUrl(id) && !req.IsNavigation()
    ensures RouteOf(req) == Static <==> req.destination in {"script", "style", "image"}
  {
    Pokedex.SpriteUrlAvoids(id);
  }

  /** Requests never write the install-time partition: the only copies a
      navigation can fall back on are the ones install stored. */
  lemma RequestsNeverWriteInstallPartition(p: Partitions, self: string, req: Request, net: NetOutcome)
    ensures EntriesOf(RequestStep(p, self, req, net).after, StaticCacheName) == EntriesOf(p, StaticCacheName)
    ensures RouteOf(req) != Static ==> forall n, k :: Lookup(RequestStep(p, self, req, net).after, n, k) == Lookup(p, n, k)
  {
  }

  /** With a miss and a rejected fetch a static resource gets 404 and
      anything else that is not a navigation gets 503. */
  lemma TotalFailureResponses(p: Partitions, self: string, req: Request)
    requires !req.IsNavigation()
    requires IsStatic(req) ==> Lookup(p, CacheName, req.url).None?
    ensures var resp := RequestStep(p, self, req, Fail).served.response;
      (IsStatic(req) ==> resp == NotFound) && (!IsStatic(req) ==> resp == NetworkError)
  {
  }

  /** Every URL of `urls` fetches ok: the condition under which `addAll`
      stores anything. */
  predicate AllFetchedOk(urls: seq<string>, outcome: string -> NetOutcome)
  {
    forall u :: u in urls ==> outcome(u).Resp? && outcome(u).response.Ok()
  }

  /** `cache.addAll(urls)`: all or nothing. */
  function AddedAll(e: Entries, self: string, urls: seq<string>, outcome: string -> NetOutcome): Entries
  {
    if AllFetchedOk(urls, outcome) then AddedEach(e, self, urls, outcome) else e
  }

  /** `addAll` is atomic: either every URL is stored with its own response,
      or (some fetch failed) the partition is exactly as before. */
  lemma AddAllAtomic(e: Entries, self: string, urls: seq<string>, outcome: string -> NetOutcome)
    ensures var q := AddedAll(e, self, urls, outcome);
      && (AllFetchedOk(urls, outcome) ==>
            forall u :: u in urls ==> Resolve(self, u) in q && q[Resolve(self, u)] == outcome(u).response)
      && (!AllFetchedOk(urls, outcome) ==> q == e)
  {
    if AllFetchedOk(urls, outcome) {
      forall u | u in urls
        ensures Resolve(self, u) in AddedAll(e, self, urls, outcome)
        ensures AddedAll(e, self, urls, outcome)[Resolve(self, u)] == outcome(u).response
      {
        AddedEachIndependent(e, self, urls, outcome, u);
      }
    }
  }

  /** After an install whose fetches all succeeded, an offline navigation
      is answered with the page install fetched for "/index.html", whatever
      requests ran in between. */
  lemma OfflineNavigationAfterInstall(p: Partitions, self: string, outcome: string -> NetOutcome,
                                      between: Partitions, req: Request)
    requires AllFetchedOk(EssentialUrls, outcome)
    requires EntriesOf(between, StaticCacheName) ==
             AddedAll(EntriesOf(p, StaticCacheName), self, EssentialUrls, outcome)
    requires req.IsNavigation()
    ensures RequestStep(between, self, req, Fail).served.response == outcome("/index.html").response
  {
    AddedEachIndependent(EntriesOf(p, StaticCacheName), self, EssentialUrls, outcome, "/index.html");
    assert Lookup(between, StaticCacheName, Resolve(self, "/index.html")).Some?;
  }

  method HandleFetch(cs: CacheStorage, self: string, req: Request, net: NetOutcome) returns (s: Served)
    modifies cs
    ensures Step(s, cs.partitions) == RequestStep(old(cs.partitions), self, req, net)
  {
    if req.IsNavigation() {
      match net {
        case Resp(r) =>
          s := Served(r, None);
        case Fail =>
          cs.Open(StaticCacheName);
          var cached := cs.Match(StaticCacheName, Resolve(self, "/index.html"));
          if cached.None? {
            cached := cs.Match(StaticCacheName, Resolve(self, "/"));
          }
          s := Served(if cached.Some? then cached.value else Offline, None);
      }
      return;
    }
    if IsStatic(req) {
      s := cs.CacheFirst(CacheName, req.url, net, false, NotFound);
      return;
    }
    s := Served(match net case Resp(r) => r case Fail => NetworkError, None);
  }

  /** Install: open the install-time partition and `addAll` the essential
      URLs; a failure is logged and leaves the (opened) partition as it
      was. */
  method Install(cs: CacheStorage, self: string, outcome: string -> NetOutcome)
    modifies cs
    ensures cs.partitions == Opened(old(cs.partitions), StaticCacheName)[StaticCacheName :=
              AddedAll(EntriesOf(old(cs.partitions), StaticCacheName), self, EssentialUrls, outcome)]
  {
    cs.Open(StaticCacheName);
    if AllFetchedOk(EssentialUrls, outcome) {
      cs.AddEach(StaticCacheName, self, EssentialUrls, outcome);
    }
  }

  /** Activate: keep exactly the runtime and install-time partitions. */
  method Activate(cs: CacheStorage)
    modifies cs
    ensures cs.partitions == Retained(old(cs.partitions), CurrentNames)
  {
    cs.PurgeExcept(CurrentNames);
  }
}
