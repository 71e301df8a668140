/** public/sw-optimized.js, a variant worker: the listener sends API calls
    and images to their own partitions and everything else (cross-origin
    requests included) to the app handler; there is no passthrough. A
    navigation that finds nothing answers 503, not a synthesized page. */
module SwOptimized {
  import opened Base
  import opened Http
  import opened Partitions
  import Pokedex

  const CacheName: string := "pokepwa-v5"
  const ApiCacheName: string := "pokepwa-api-v5"
  /** The image partition is one version behind the other two. */
  const ImageCacheName: string := "pokepwa-images-v4"

  const CurrentNames: set<string> := {CacheName, ApiCacheName, ImageCacheName}

  const UrlsToCache: seq<string> :=
    ["/", "/index.html", "/manifest.json", "/favicon.ico", "/logo192.png", "/logo512.png"]

  const OfflineApiResponse: Response :=
    Response(503, "application/json", OfflineApiError("No se puede acceder a la API sin conexión a internet"))
  const AppUnavailable: Response := Response(503, "text/html", Text("Aplicación no disponible offline"))
  const NotAvailable: Response := TextResponse(404, "Recurso no disponible")
  const NoImage: Response := TextResponse(404, "")

  datatype Route = Api | Image | App

  /** The fetch listener's if / else-if / else: "pokeapi.co" in the URL
      first, then a sprite host, "sprites" or an image destination, then the
      app handler for everything else. */
  function RouteOf(req: Request): (c: Route)
    ensures c == Api <==> Contains(req.url, "pokeapi.co")
    ensures c == Image <==> !Contains(req.url, "pokeapi.co") && LooksLikeImage(req)
    ensures c == App <==> !Contains(req.url, "pokeapi.co") && !LooksLikeImage(req)
  {
    if Contains(req.url, "pokeapi.co") then Api
    else if LooksLikeImage(req) then Image
    else App
  }

  /** The listener's image test (no extension test in this variant). */
  predicate LooksLikeImage(req: Request)
  {
    Contains(req.url, "raw.githubusercontent.com") || Contains(req.url, "sprites") || req.destination == "image"
  }

  /** The records' sprite URLs take the image route, whatever the
      request's destination. */
  lemma SpritesRouteAsImages(id: nat, req: Request)
    requires req.url == Pokedex.SpriteUrl(id)
    ensures RouteOf(req) == Image
  {
    Pokedex.SpriteUrlIsImage(id);
    Pokedex.SpriteUrlAvoids(id);
  }

  function PartitionOf(c: Route): string
  {
    match c
    case Api => ApiCacheName
    case Image => ImageCacheName
    case App => CacheName
  }

  /** `handleAppRequest`. A navigation is network-first, storing ok
      responses; on a rejected fetch it serves the cached "/", else
      "/index.html", else 503 text/html. Other requests are
      stale-while-revalidate on a hit, store only ok responses on a miss,
      and answer 404 when both fail. */
  function AppStep(p: Partitions, self: string, req: Request, net: NetOutcome): Step
  {
    if req.IsNavigation() then
      match net
      case Resp(r) =>
        Step(Served(r, None), if r.Ok() then Stored(Opened(p, CacheName), CacheName, req.url, r) else p)
      case Fail =>
        var q := Opened(p, CacheName);
        Step(Served(FirstCached(q, CacheName, Resolve(self, "/"), Resolve(self, "/index.html"), AppUnavailable), None), q)
    else
      CacheFirstStep(p, CacheName, req.url, net, true, NotAvailable)
  }

  function RequestStep(p: Partitions, self: string, req: Request, net: NetOutcome): Step
  {
    match RouteOf(req)
    case Api => CacheFirstStep(p, ApiCacheName, req.url, net, true, OfflineApiResponse)
    case Image => CacheFirstStep(p, ImageCacheName, req.url, net, false, NoImage)
    case App => AppStep(p, self, req, net)
  }

  /** Every request is answered from one of the three partitions' strategies
      and never bypasses the cache: in particular a cross-origin request that
      is neither an API call nor an image is cached in the shell partition
      when the network answers it ok. */
  lemma NoPassthrough(p: Partitions, self: string, req: Request, r: Response)
    requires RouteOf(req) == App && !req.IsNavigation() && r.Ok()
    requires Lookup(p, CacheName, req.url).None?
    ensures var st := RequestStep(p, self, req, Resp(r));
      st.served == Served(r, None) && Lookup(st.after, CacheName, req.url) == Some(r)
  {
  }

  /** A navigation whose fetch rejects gets the cached "/", else the cached
      "/index.html", else status 503 with text/html (where the registered
      worker answers 200). */
  lemma NavigationFallback(p: Partitions, self: string, req: Request)
    requires RouteOf(req) == App && req.IsNavigation()
    ensures var resp := RequestStep(p, self, req, Fail).served.response;
      var root := Lookup(p, CacheName, Resolve(self, "/"));
      var index := Lookup(p, CacheName, Resolve(self, "/index.html"));
      && (root.Some? ==> resp == root.value)
      && (root.None? && index.Some? ==> resp == index.value)
      && (root.None? && index.None? ==> resp.status == 503 && resp.contentType == "text/html")
  {
  }

  /** Hits never wait on the network; API and app hits leave a revalidation
      running, image hits do not. */
  lemma HitsNeverWaitOnNetwork(p: Partitions, self: string, req: Request, net1: NetOutcome, net2: NetOutcome)
    requires !(RouteOf(req) == App && req.IsNavigation())
    requires Lookup(p, PartitionOf(RouteOf(req)), req.url).Some?
    ensures RequestStep(p, self, req, net1) == RequestStep(p, self, req, net2)
    ensures var st := RequestStep(p, self, req, net1);
      && st.served.response == Lookup(p, PartitionOf(RouteOf(req)), req.url).value
      && st.after == p
      && (st.served.background.Some? <==> RouteOf(req) != Image)
  {
  }

  /** With a miss and a rejected fetch: 503 with the offline JSON body for
      the API, an empty 404 for an image, 404 for any other non-navigation. */
  lemma TotalFailureResponses(p: Partitions, self: string, req: Request)
    requires !req.IsNavigation()
    requires Lookup(p, PartitionOf(RouteOf(req)), req.url).None?
    ensures var resp := RequestStep(p, self, req, Fail).served.response;
      match RouteOf(req)
      case Api => resp.status == 503 && resp.body.OfflineApiError? && resp.contentType == "application/json"
      case Image => resp.status == 404 && resp.body == Text("")
      case App => resp.status == 404
  {
  }

  method HandleApiRequest(cs: CacheStorage, req: Request, net: NetOutcome) returns (s: Served)
    modifies cs
    ensures Step(s, cs.partitions) == CacheFirstStep(old(cs.partitions), ApiCacheName, req.url, net, true, OfflineApiResponse)
  {
    s := cs.CacheFirst(ApiCacheName, req.url, net, true, OfflineApiResponse);
  }

  method HandleImageRequest(cs: CacheStorage, req: Request, net: NetOutcome) returns (s: Served)
    modifies cs
    ensures Step(s, cs.partitions) == CacheFirstStep(old(cs.partitions), ImageCacheName, req.url, net, false, NoImage)
  {
    s := cs.CacheFirst(ImageCacheName, req.url, net, false, NoImage);
  }

  method HandleAppRequest(cs: CacheStorage, self: string, req: Request, net: NetOutcome) returns (s: Served)
    modifies cs
    ensures Step(s, cs.partitions) == AppStep(old(cs.partitions), self, req, net)
  {
    if req.IsNavigation() {
      match net {
        case Resp(r) =>
          if r.Ok() {
            cs.Open(CacheName);
            cs.Put(CacheName, req.url, r);
          }
          s := Served(r, None);
        case Fail =>
          cs.Open(CacheName);
          var cached := cs.Match(CacheName, Resolve(self, "/"));
          if cached.None? {
            cached := cs.Match(CacheName, Resolve(self, "/index.html"));
          }
          s := Served(if cached.Some? then cached.value else AppUnavailable, None);
      }
      return;
    }
    s := cs.CacheFirst(CacheName, req.url, net, true, NotAvailable);
  }

  /** The fetch listener. */
  method HandleFetch(cs: CacheStorage, self: string, req: Request, net: NetOutcome) returns (s: Served)
    modifies cs
    ensures Step(s, cs.partitions) == RequestStep(old(cs.partitions), self, req, net)
  {
    if Contains(req.url, "pokeapi.co") {
      s := HandleApiRequest(cs, req, net);
    } else if LooksLikeImage(req) {
      s := HandleImageRequest(cs, req, net);
    } else {
      s := HandleAppRequest(cs, self, req, net);
    }
  }

  /** Install: each of the six URLs is cached independently in the shell
      partition. */
  method Install(cs: CacheStorage, self: string, outcome: string -> NetOutcome)
    modifies cs
    ensures cs.partitions == Opened(old(cs.partitions), CacheName)[CacheName :=
              AddedEach(EntriesOf(old(cs.partitions), CacheName), self, UrlsToCache, outcome)]
  {
    cs.AddEach(CacheName, self, UrlsToCache, outcome);
  }

  /** Activate: keep exactly the three named partitions (shell and API at
      v5, images at v4). */
  method Activate(cs: CacheStorage)
    modifies cs
    ensures cs.partitions == Retained(old(cs.partitions), CurrentNames)
  {
    cs.PurgeExcept(CurrentNames);
  }
}
