/** public/service-worker.js, the worker the application registers: three
    partitions (shell, API, images), a router that tries the app shell, then
    the upstream API, then images, then lets the request through, and
    fallbacks that always resolve to some response. */
module ServiceWorker {
  import opened Base
  import opened Http
  import opened Partitions
  import Pokedex

  const CacheName: string := "pokepwa-v7"
  const ApiCacheName: string := "pokepwa-api-v7"
  const ImageCacheName: string := "pokepwa-images-v7"

  /** The partitions activation keeps. */
  const CurrentNames: set<string> := {CacheName, ApiCacheName, ImageCacheName}

  /** Paths cached at install time. */
  const CriticalResources: seq<string> := ["/", "/index.html", "/manifest.json", "/favicon.ico"]

  /** The API's answer when it is offline and nothing is cached: 503 with a
      JSON body carrying `offline: true`. */
  const OfflineApiResponse: Response := Response(503, "application/json", OfflineApiError("API no disponible offline"))

  /** The synthesized offline page (`createOfflineResponse`). */
  const OfflinePage: Response := Response(200, "text/html", ShellOfflinePage)

  const NotAvailable: Response := TextResponse(404, "Recurso no disponible")
  const NoImage: Response := TextResponse(404, "")
  const Offline: Response := TextResponse(503, "Offline")

  datatype Route = AppShell | Api | Image | Passthrough

  /** `isAppResource`: a same-origin request that is a navigation, a script
      or a style, or whose path is under /static/ or is one of the shell's
      own documents. `self` is the worker's origin (`location.origin`). */
  predicate IsAppResource(req: Request, self: string)
  {
    req.origin == self &&
    (req.IsNavigation() || req.destination == "script" || req.destination == "style"
     || StartsWith(req.path, "/static/")
     || req.path == "/" || req.path == "/index.html" || req.path == "/manifest.json")
  }

  /** `isImageRequest`: an image destination, a sprite host or sprite path,
      or an image extension at the very end of the URL. */
  predicate IsImageRequest(req: Request)
  {
    req.destination == "image"
    || Contains(req.url, "raw.githubusercontent.com")
    || Contains(req.url, "sprites")
    || HasImageExtension(req.url)
  }

  /** `handleRequest`'s routing: the first of the four tests that holds
      decides, in the order app shell, "pokeapi.co" in the URL, image,
      anything else. */
  function RouteOf(req: Request, self: string): (c: Route)
    ensures c == AppShell <==> IsAppResource(req, self)
    ensures c == Api <==> !IsAppResource(req, self) && Contains(req.url, "pokeapi.co")
    ensures c == Image <==> !IsAppResource(req, self) && !Contains(req.url, "pokeapi.co") && IsImageRequest(req)
    ensures c == Passthrough <==>
      !IsAppResource(req, self) && !Contains(req.url, "pokeapi.co") && !IsImageRequest(req)
  {
    if IsAppResource(req, self) then AppShell
    else if Contains(req.url, "pokeapi.co") then Api
    else if IsImageRequest(req) then Image
    else Passthrough
  }

  /** Precedence: a same-origin image under /static/ is a shell resource,
      not an image; a pokeapi.co URL ending in ".png" is an API request. */
  lemma RoutingPrecedence(req: Request, self: string)
    ensures req.origin == self && StartsWith(req.path, "/static/") && req.destination == "image"
      ==> RouteOf(req, self) == AppShell
    ensures req.origin != self && Contains(req.url, "pokeapi.co") && HasImageExtension(req.url)
      ==> RouteOf(req, self) == Api
  {
  }

  /** The records' sprite URLs (`Pokedex.SpriteUrl`), requested from the
      sprite host rather than the worker's own origin, take the image
      route: they mention neither "pokeapi.co" nor anything a shell test
      looks at. */
  lemma SpritesRouteAsImages(id: nat, req: Request, self: string)
    requires req.url == Pokedex.SpriteUrl(id) && req.origin != self
    ensures RouteOf(req, self) == Image
  {
    Pokedex.SpriteUrlIsImage(id);
    Pokedex.SpriteUrlAvoids(id);
  }

  /** The partition each cached route reads and writes. */
  function PartitionOf(c: Route): string
  {
    match c
    case AppShell => CacheName
    case Api => ApiCacheName
    case Image => ImageCacheName
    case Passthrough => ""  // a passthrough reads no partition; the name is never used
  }

  /** `handleAppResource`. A navigation is network-first: the network's
      response is returned whatever it is, and stored only when ok; when the
      fetch rejects the result is the cached "/", else the cached
      "/index.html", else the offline page. Everything else is cache-first
      with a background revalidation, and 404 when both cache and network
      fail. (The outer catch's navigation branch is reachable only through a
      failing Cache API, which the model does not include.) */
  function AppResourceStep(p: Partitions, self: string, req: Request, net: NetOutcome): Step
  {
    if req.IsNavigation() then
      match net
      case Resp(r) =>
        Step(Served(r, None), if r.Ok() then Stored(Opened(p, CacheName), CacheName, req.url, r) else p)
      case Fail =>
        var q := Opened(p, CacheName);
        Step(Served(FirstCached(q, CacheName, Resolve(self, "/"), Resolve(self, "/index.html"), OfflinePage), None), q)
    else
      CacheFirstStep(p, CacheName, req.url, net, true, NotAvailable)
  }

  /** The whole fetch listener: routing, then the route's strategy. */
  function RequestStep(p: Partitions, self: string, req: Request, net: NetOutcome): Step
  {
    match RouteOf(req, self)
    case AppShell => AppResourceStep(p, self, req, net)
    case Api => CacheFirstStep(p, ApiCacheName, req.url, net, true, OfflineApiResponse)
    case Image => CacheFirstStep(p, ImageCacheName, req.url, net, false, NoImage)
    case Passthrough =>
      Step(Served(match net case Resp(r) => r case Fail => Offline, None), p)
  }

  /** A navigation always gets a page: the network's own response (stored
      in the shell partition only when ok), or on a rejected fetch a cached
      root document, or the offline page with status 200 and text/html. */
  lemma NavigationIsNetworkFirst(p: Partitions, self: string, req: Request, net: NetOutcome)
    requires req.origin == self && req.IsNavigation()
    ensures var st := RequestStep(p, self, req, net);
      && st.served.background.None?
      && (net.Resp? ==>
            && st.served.response == net.response
            && (net.response.Ok() ==> Lookup(st.after, CacheName, req.url) == Some(net.response))
            && (!net.response.Ok() ==> st.after == p))
      && (net.Resp? && net.response.Ok() ==>
            forall n, k :: (n, k) != (CacheName, req.url) ==> Lookup(st.after, n, k) == Lookup(p, n, k))
      && (net.Fail? ==> forall n, k :: Lookup(st.after, n, k) == Lookup(p, n, k))
      && (net.Fail? ==>
            var root := Lookup(p, CacheName, Resolve(self, "/"));
            var index := Lookup(p, CacheName, Resolve(self, "/index.html"));
            && (root.Some? ==> st.served.response == root.value)
            && (root.None? && index.Some? ==> st.served.response == index.value)
            && (root.None? && index.None? ==>
                  st.served.response.status == 200 && st.served.response.contentType == "text/html"))
  {
  }

  /** Cache hits never wait on the network: for a shell asset, an API call
      or an image that is already stored, the stored entry is returned
      whatever the network would answer and nothing is written; shell and API
      hits leave a revalidation running, image hits do not. */
  lemma HitsNeverWaitOnNetwork(p: Partitions, self: string, req: Request, net1: NetOutcome, net2: NetOutcome)
    requires RouteOf(req, self) in {AppShell, Api, Image} && !req.IsNavigation()
    requires Lookup(p, PartitionOf(RouteOf(req, self)), req.url).Some?
    ensures RequestStep(p, self, req, net1) == RequestStep(p, self, req, net2)
    ensures var c := RouteOf(req, self);
      var st := RequestStep(p, self, req, net1);
      && st.served.response == Lookup(p, PartitionOf(c), req.url).value
      && st.after == p
      && st.served.background == (if c == Image then None else Some(Refresh(PartitionOf(c), req.url)))
  {
  }

  /** On a miss the network's response is returned whatever its status;
      only the request's own entry may change, and a non-ok response leaves
      every partition's entries as they were. */
  lemma MissReturnsNetworkResponse(p: Partitions, self: string, req: Request, r: Response)
    requires RouteOf(req, self) in {AppShell, Api, Image} && !req.IsNavigation()
    requires Lookup(p, PartitionOf(RouteOf(req, self)), req.url).None?
    ensures var st := RequestStep(p, self, req, Resp(r));
      && st.served == Served(r, None)
      && (r.Ok() ==> Lookup(st.after, PartitionOf(RouteOf(req, self)), req.url) == Some(r))
      && (forall n, k :: (n, k) != (PartitionOf(RouteOf(req, self)), req.url) ==> Lookup(st.after, n, k) == Lookup(p, n, k))
      && (!r.Ok() ==> forall n, k :: Lookup(st.after, n, k) == Lookup(p, n, k))
  {
    CacheFirstMissStoresOnlyOk(p, PartitionOf(RouteOf(req, self)), req.url, r,
                               RouteOf(req, self) != Image,
                               match RouteOf(req, self)
                               case AppShell => NotAvailable
                               case Api => OfflineApiResponse
                               case _ => NoImage);
  }

  /** When the cache misses and the fetch rejects, every route still
      resolves: 404 for a shell asset, 503 with the offline JSON body for the
      API, an empty 404 for an image, 503 "Offline" for anything else. */
  lemma TotalFailureResponses(p: Partitions, self: string, req: Request)
    requires !req.IsNavigation()
    requires RouteOf(req, self) != Passthrough ==> Lookup(p, PartitionOf(RouteOf(req, self)), req.url).None?
    ensures var resp := RequestStep(p, self, req, Fail).served.response;
      match RouteOf(req, self)
      case AppShell => resp.status == 404
      case Api => resp.status == 503 && resp.body.OfflineApiError? && resp.contentType == "application/json"
      case Image => resp.status == 404 && resp.body == Text("")
      case Passthrough => resp.status == 503 && resp.body == Text("Offline")
  {
  }

  /** Issuing the same API request twice on an empty cache: the first
      answer (when ok) is stored, and the second request is served from the
      cache with a background revalidation, whatever the network says. */
  lemma ApiSecondRequestFromCache(p: Partitions, self: string, req: Request, r: Response, net2: NetOutcome)
    requires RouteOf(req, self) == Api
    requires Lookup(p, ApiCacheName, req.url).None? && r.Ok()
    ensures var first := RequestStep(p, self, req, Resp(r));
      && first.served.response == r
      && RequestStep(first.after, self, req, net2).served == Served(r, Some(Refresh(ApiCacheName, req.url)))
  {
    CacheFirstSecondRequestHits(p, ApiCacheName, req.url, r, net2, true, OfflineApiResponse);
  }

  method HandleAppResource(cs: CacheStorage, self: string, req: Request, net: NetOutcome) returns (s: Served)
    modifies cs
    ensures Step(s, cs.partitions) == AppResourceStep(old(cs.partitions), self, req, net)
  {
    if req.IsNavigation() {
      match net {
        case Resp(r) =>
          if r.Ok() {
            cs.Open(CacheName);
            cs.Put(CacheName, req.url, r);
          }
          s := Served(r, None);
        case Fail =>
          cs.Open(CacheName);
          var cached := cs.Match(CacheName, Resolve(self, "/"));
          if cached.None? {
            cached := cs.Match(CacheName, Resolve(self, "/index.html"));
          }
          s := Served(if cached.Some? then cached.value else OfflinePage, None);
      }
      return;
    }
    s := cs.CacheFirst(CacheName, req.url, net, true, NotAvailable);
  }

  /** `handleApiRequest`: cache-first in the API partition with a background
      revalidation on a hit. */
  method HandleApiRequest(cs: CacheStorage, req: Request, net: NetOutcome) returns (s: Served)
    modifies cs
    ensures Step(s, cs.partitions) == CacheFirstStep(old(cs.partitions), ApiCacheName, req.url, net, true, OfflineApiResponse)
  {
    s := cs.CacheFirst(ApiCacheName, req.url, net, true, OfflineApiResponse);
  }

  /** `handleImageRequest`: cache-first in the image partition, no
      revalidation. */
  method HandleImageRequest(cs: CacheStorage, req: Request, net: NetOutcome) returns (s: Served)
    modifies cs
    ensures Step(s, cs.partitions) == CacheFirstStep(old(cs.partitions), ImageCacheName, req.url, net, false, NoImage)
  {
    s := cs.CacheFirst(ImageCacheName, req.url, net, false, NoImage);
  }

  /** The fetch listener (`handleRequest`). `net` is what the one fetch the
      handler may issue answers. */
  method HandleRequest(cs: CacheStorage, self: string, req: Request, net: NetOutcome) returns (s: Served)
    modifies cs
    ensures Step(s, cs.partitions) == RequestStep(old(cs.partitions), self, req, net)
  {
    if IsAppResource(req, self) {
      s := HandleAppResource(cs, self, req, net);
    } else if Contains(req.url, "pokeapi.co") {
      s := HandleApiRequest(cs, req, net);
    } else if IsImageRequest(req) {
      s := HandleImageRequest(cs, req, net);
    } else {
      s := Served(match net case Resp(r) => r case Fail => Offline, None);
    }
  }

  /** Install: open the shell partition and cache each critical path
      independently, so one failure does not stop the others. `outcome`
      gives the network's answer for each path. */
  method Install(cs: CacheStorage, self: string, outcome: string -> NetOutcome)
    modifies cs
    ensures cs.partitions == Opened(old(cs.partitions), CacheName)[CacheName :=
              AddedEach(EntriesOf(old(cs.partitions), CacheName), self, CriticalResources, outcome)]
  {
    cs.AddEach(CacheName, self, CriticalResources, outcome);
  }

  /** Activate: delete exactly the partitions whose names are not current. */
  method Activate(cs: CacheStorage)
    modifies cs
    ensures cs.partitions == Retained(old(cs.partitions), CurrentNames)
  {
    cs.PurgeExcept(CurrentNames);
  }
}
