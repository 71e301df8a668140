/** public/sw-final.js, the "offline first" variant: two partitions (the
    shell and one shared by API answers and images), a cache-first strategy
    everywhere, handlers that may throw, and one outer catch that turns any
    thrown error into the cached root document, a built-in offline page or a
    503. Its install step guarantees that the root documents are always
    cached, with the built-in page standing in for any that cannot be
    fetched. */
module SwFinal {
  import opened Base
  import opened Http
  import opened Partitions
  import Pokedex

  const CacheName: string := "pokepwa-final-v2"
  /** Shared by API answers and images. */
  const ApiCacheName: string := "pokepwa-api-final-v2"

  const CurrentNames: set<string> := {CacheName, ApiCacheName}

  const CriticalResources: seq<string> :=
    ["/", "/index.html", "/static/js/main.62bd48ee.js", "/static/css/main.9972529c.css",
     "/manifest.json", "/favicon.ico"]

  /** `new Response(OFFLINE_PAGE, {headers: {'Content-Type': 'text/html'}})`:
      status 200 by default. */
  const OfflinePage: Response := Response(200, "text/html", FinalOfflinePage)
  /** The "Sin imagen" placeholder, status 200. */
  const ImagePlaceholder: Response := Response(200, "image/svg+xml", SvgPlaceholder)
  const Offline: Response := TextResponse(503, "Offline")

  datatype Route = AppResource | Api | Image | Other

  /** `isAppResource`: same origin and a shell path: "/", "/index.html",
      anything under /static/, "/manifest.json" or "/favicon.ico". Unlike
      the registered worker it does not look at the mode or destination. */
  predicate IsAppResource(req: Request, self: string)
  {
    req.origin == self &&
    (req.path == "/" || req.path == "/index.html" || StartsWith(req.path, "/static/")
     || req.path == "/manifest.json" || req.path == "/favicon.ico")
  }

  /** The API test compares the host name exactly. */
  predicate IsApiRequest(req: Request)
  {
    req.host == "pokeapi.co"
  }

  /** `isImageRequest`: an image destination, any githubusercontent.com URL,
      or an image extension at the end of the URL. */
  predicate IsImageRequest(req: Request)
  {
    req.destination == "image" || Contains(req.url, "githubusercontent.com") || HasImageExtension(req.url)
  }

  /** `handleFetch`'s routing: the first test that holds decides. */
  function RouteOf(req: Request, self: string): (c: Route)
    ensures c == AppResource <==> IsAppResource(req, self)
    ensures c == Api <==> !IsAppResource(req, self) && IsApiRequest(req)
    ensures c == Image <==> !IsAppResource(req, self) && !IsApiRequest(req) && IsImageRequest(req)
    ensures c == Other <==> !IsAppResource(req, self) && !IsApiRequest(req) && !IsImageRequest(req)
  {
    if IsAppResource(req, self) then AppResource
    else if IsApiRequest(req) then Api
    else if IsImageRequest(req) then Image
    else Other
  }

  /** What a handler does before the outer catch sees it: it either
      answers (`answer` is `Some`) or throws (`None`), having changed the
      partitions to `after` either way. */
  datatype Attempt = Attempt(answer: Option<Served>, after: Partitions)

  /** `handleAppResource`: cache-first with no revalidation; on a miss the
      network's answer is returned and stored when ok; when the fetch
      rejects a navigation gets the built-in page and anything else throws. */
  function AppResourceAttempt(p: Partitions, req: Request, net: NetOutcome): Attempt
  {
    var q := Opened(p, CacheName);
    match Lookup(q, CacheName, req.url)
    case Some(hit) => Attempt(Some(Served(hit, None)), q)
    case None =>
      match net
      case Resp(r) => Attempt(Some(Served(r, None)), StoredIfOk(q, CacheName, req.url, r))
      case Fail => Attempt(if req.IsNavigation() then Some(Served(OfflinePage, None)) else None, q)
  }

  /** `handleApiRequest`: cache-first; a hit starts a revalidation only when
      the browser reports itself online (`navigator.onLine`); on a miss the
      network's answer is returned and stored when ok; a rejected fetch is
      not caught here. */
  function ApiAttempt(p: Partitions, req: Request, net: NetOutcome, online: bool): Attempt
  {
    var q := Opened(p, ApiCacheName);
    match Lookup(q, ApiCacheName, req.url)
    case Some(hit) => Attempt(Some(Served(hit, if online then Some(Refresh(ApiCacheName, req.url)) else None)), q)
    case None =>
      match net
      case Resp(r) => Attempt(Some(Served(r, None)), StoredIfOk(q, ApiCacheName, req.url, r))
      case Fail => Attempt(None, q)
  }

  /** `handleImageRequest`: cache-first in the API partition, no
      revalidation, the placeholder SVG when the fetch rejects. */
  function ImageStep(p: Partitions, req: Request, net: NetOutcome): Step
  {
    CacheFirstStep(p, ApiCacheName, req.url, net, false, ImagePlaceholder)
  }

  /** The handler chosen by the routing, before the outer catch. */
  function RouteAttempt(p: Partitions, self: string, req: Request, net: NetOutcome, online: bool): Attempt
  {
    match RouteOf(req, self)
    case AppResource => AppResourceAttempt(p, req, net)
    case Api => ApiAttempt(p, req, net, online)
    case Image =>
      var st := ImageStep(p, req, net);
      Attempt(Some(st.served), st.after)
    case Other => Attempt(match net case Resp(r) => Some(Served(r, None)) case Fail => None, p)
  }

  /** The outer catch of `handleFetch`: a navigation gets the cached "/",
      else the cached "/index.html", else the built-in page; anything else
      gets 503 "Offline". */
  function Caught(p: Partitions, self: string, req: Request): Step
  {
    if req.IsNavigation() then
      var q := Opened(p, CacheName);
      Step(Served(FirstCached(q, CacheName, Resolve(self, "/"), Resolve(self, "/index.html"), OfflinePage), None), q)
    else
      Step(Served(Offline, None), p)
  }

  /** The whole fetch listener. */
  function RequestStep(p: Partitions, self: string, req: Request, net: NetOutcome, online: bool): Step
  {
    var a := RouteAttempt(p, self, req, net, online);
    match a.answer
    case Some(s) => Step(s, a.after)
    case None => Caught(a.after, self, req)
  }

  /** Every stored response in a partition is ok. */
  predicate AllOk(e: Entries)
  {
    forall k :: k in e ==> e[k].Ok()
  }

  /** The shell is in place: both partitions hold only ok responses and the
      root document is cached. */
  predicate ShellReady(p: Partitions, self: string)
  {
    AllOk(EntriesOf(p, CacheName)) && AllOk(EntriesOf(p, ApiCacheName))
    && Resolve(self, "/") in EntriesOf(p, CacheName)
  }

  /** The worker's promise: once the shell is in place, a navigation never
      fails for want of a network. Whatever route it takes and however it
      fails, it is answered with an ok response: a cached one, the built-in
      page, the placeholder image, or the cached root document via the outer
      catch. */
  lemma OfflineNavigationAlwaysOk(p: Partitions, self: string, req: Request, online: bool)
    requires req.IsNavigation() && ShellReady(p, self)
    ensures RequestStep(p, self, req, Fail, online).served.response.Ok()
  {
    var a := RouteAttempt(p, self, req, Fail, online);
    if a.answer.None? {
      assert EntriesOf(Opened(a.after, CacheName), CacheName) == EntriesOf(p, CacheName);
    }
  }

  /** A request that is not a navigation and that nothing answers gets 503
      "Offline": an uncached API call, a non-navigation shell resource that
      is not cached, or any other request, when the fetch rejects. */
  lemma OfflineNonNavigation(p: Partitions, self: string, req: Request, online: bool)
    requires !req.IsNavigation()
    requires RouteOf(req, self) != Image
    requires RouteOf(req, self) != Other ==> Lookup(p, PartitionOf(RouteOf(req, self)), req.url).None?
    ensures RequestStep(p, self, req, Fail, online).served == Served(Offline, None)
  {
  }

  /** The records' sprite URLs, requested from the sprite host, take the
      image route (by their ".png" ending alone). */
  lemma SpritesRouteAsImages(id: nat, req: Request, self: string)
    requires req.url == Pokedex.SpriteUrl(id) && req.host == Pokedex.SpriteHost && req.origin != self
    ensures RouteOf(req, self) == Image
  {
    Pokedex.SpriteUrlIsImage(id);
  }

  /** The partition each cached route uses; images share the API's. */
  function PartitionOf(c: Route): string
  {
    match c
    case AppResource => CacheName
    case Api => ApiCacheName
    case Image => ApiCacheName
    case Other => CacheName  // a plain fetch reads no partition; the name is never used
  }

  /** The handlers and the outer catch only ever write ok responses. */
  lemma RouteAttemptOnlyOkWrites(p: Partitions, self: string, req: Request, net: NetOutcome, online: bool)
    ensures OnlyOkWrites(p, RequestStep(p, self, req, net, online).after)
  {
    var a := RouteAttempt(p, self, req, net, online);
    var c := if RouteOf(req, self) == Api || RouteOf(req, self) == Image then ApiCacheName else CacheName;
    var r := if net.Resp? then net.response else Offline;
    var q := Opened(p, c);
    OnlyOkWritesSteps(p, c, req.url, r, q, q);
    if Lookup(q, c, req.url).None? && net.Resp? {
      OnlyOkWritesSteps(q, c, req.url, r, StoredIfOk(q, c, req.url, r), q);
    }
    assert OnlyOkWrites(p, a.after);
    if a.answer.None? {
      OnlyOkWritesSteps(a.after, CacheName, req.url, r, Opened(a.after, CacheName), p);
      OnlyOkWritesSteps(p, CacheName, req.url, r, a.after, Opened(a.after, CacheName));
    }
  }

  /** Handling requests keeps the shell in place: every entry a request
      changes is an ok response (so nothing is ever removed), and the root
      document stays cached. */
  lemma RequestsKeepShellReady(p: Partitions, self: string, req: Request, net: NetOutcome, online: bool)
    requires ShellReady(p, self)
    ensures var q := RequestStep(p, self, req, net, online).after;
      ShellReady(q, self) && OnlyOkWrites(p, q)
  {
    var q := RequestStep(p, self, req, net, online).after;
    RouteAttemptOnlyOkWrites(p, self, req, net, online);
    OnlyOkWritesKeep(p, q, CacheName);
    OnlyOkWritesKeep(p, q, ApiCacheName);
  }

  /** A background revalidation keeps the shell in place as well. */
  lemma RevalidationKeepsShellReady(p: Partitions, self: string, task: Refresh, net: NetOutcome)
    requires ShellReady(p, self)
    ensures ShellReady(Revalidated(p, task, net), self)
  {
    var q := Revalidated(p, task, net);
    CacheFirstOnlyOkWrites(p, CacheName, task.key, net, false, Offline, task);
    OnlyOkWritesKeep(p, q, CacheName);
    OnlyOkWritesKeep(p, q, ApiCacheName);
  }

  /** The root documents, for which install stores the built-in page when
      they cannot be fetched. */
  predicate IsRootDocument(u: string)
  {
    u == "/" || u == "/index.html"
  }

  /** What install stores for one resource: the fetched response when ok,
      the built-in page for a root document that could not be fetched,
      nothing otherwise. */
  function InstallValue(u: string, net: NetOutcome): (v: Option<Response>)
    ensures v.Some? <==> (net.Resp? && net.response.Ok()) || IsRootDocument(u)
    ensures v.Some? ==> v.value.Ok()
  {
    if net.Resp? && net.response.Ok() then Some(net.response)
    else if IsRootDocument(u) then Some(OfflinePage)
    else None
  }

  /** Install's loop over `urls`, one resource at a time, in order. */
  function Installed(e: Entries, self: string, urls: seq<string>, outcome: string -> NetOutcome): Entries
  {
    if urls == [] then e
    else
      var u := urls[|urls| - 1];
      var e' := Installed(e, self, urls[..|urls| - 1], outcome);
      match InstallValue(u, outcome(u))
      case Some(v) => e'[Resolve(self, u) := v]
      case None => e'
  }

  /** Each listed resource ends up with its own install value; one whose
      value is none keeps whatever the partition held. */
  lemma {:induction false} InstalledEach(e: Entries, self: string, urls: seq<string>,
                                         outcome: string -> NetOutcome, u: string)
    requires u in urls
    ensures var q := Installed(e, self, urls, outcome);
      var v := InstallValue(u, outcome(u));
      && (v.Some? ==> Resolve(self, u) in q && q[Resolve(self, u)] == v.value)
      && (v.None? ==> (Resolve(self, u) in q <==> Resolve(self, u) in e))
  {
    var init := urls[..|urls| - 1];
    var last := urls[|urls| - 1];
    if u != last {
      assert u in init by {
        var j :| 0 <= j < |urls| && urls[j] == u;
        assert j < |urls| - 1;
        assert init[j] == u;
      }
      InstalledEach(e, self, init, outcome, u);
      ResolveInjective(self, u, last);
    } else if u in init {
      InstalledEach(e, self, init, outcome, u);
    } else {
      InstalledUnlisted(e, self, init, outcome, u);
    }
  }

  lemma {:induction false} InstalledUnlisted(e: Entries, self: string, urls: seq<string>,
                                             outcome: string -> NetOutcome, u: string)
    requires u !in urls
    ensures Resolve(self, u) in Installed(e, self, urls, outcome) <==> Resolve(self, u) in e
  {
    if urls != [] {
      var init := urls[..|urls| - 1];
      var last := urls[|urls| - 1];
      assert urls == init + [last];
      InstalledUnlisted(e, self, init, outcome, u);
      ResolveInjective(self, u, last);
    }
  }

  /** Install writes only ok responses. */
  lemma {:induction false} InstalledAllOk(e: Entries, self: string, urls: seq<string>, outcome: string -> NetOutcome)
    requires AllOk(e)
    ensures AllOk(Installed(e, self, urls, outcome))
  {
    if urls != [] {
      InstalledAllOk(e, self, urls[..|urls| - 1], outcome);
    }
  }

  /** Whatever the network does during install, afterwards both root
      documents are cached, and the shell partition holds only ok responses
      if it did before. */
  lemma InstallGuaranteesRootDocuments(e: Entries, self: string, outcome: string -> NetOutcome)
    ensures var q := Installed(e, self, CriticalResources, outcome);
      && Resolve(self, "/") in q && Resolve(self, "/index.html") in q
      && (AllOk(e) ==> AllOk(q))
  {
    InstalledEach(e, self, CriticalResources, outcome, "/");
    InstalledEach(e, self, CriticalResources, outcome, "/index.html");
    if AllOk(e) {
      InstalledAllOk(e, self, CriticalResources, outcome);
    }
  }

  /** From an empty cache storage, install followed by activation leaves the
      shell ready. */
  lemma FreshInstallIsReady(self: string, outcome: string -> NetOutcome)
    ensures var q := map[CacheName := Installed(map[], self, CriticalResources, outcome)];
      ShellReady(Retained(q, CurrentNames), self)
  {
    InstallGuaranteesRootDocuments(map[], self, outcome);
    var q := map[CacheName := Installed(map[], self, CriticalResources, outcome)];
    assert EntriesOf(Retained(q, CurrentNames), CacheName) == q[CacheName];
  }

  method HandleAppResource(cs: CacheStorage, req: Request, net: NetOutcome) returns (answer: Option<Served>)
    modifies cs
    ensures Attempt(answer, cs.partitions) == AppResourceAttempt(old(cs.partitions), req, net)
  {
    cs.Open(CacheName);
    var cached := cs.Match(CacheName, req.url);
    if cached.Some? {
      return Some(Served(cached.value, None));
    }
    match net {
      case Resp(r) =>
        if r.Ok() {
          cs.Put(CacheName, req.url, r);
        }
        answer := Some(Served(r, None));
      case Fail =>
        answer := if req.IsNavigation() then Some(Served(OfflinePage, None)) else None;
    }
  }

  method HandleApiRequest(cs: CacheStorage, req: Request, net: NetOutcome, online: bool) returns (answer: Option<Served>)
    modifies cs
    ensures Attempt(answer, cs.partitions) == ApiAttempt(old(cs.partitions), req, net, online)
  {
    cs.Open(ApiCacheName);
    var cached := cs.Match(ApiCacheName, req.url);
    if cached.Some? {
      return Some(Served(cached.value, if online then Some(Refresh(ApiCacheName, req.url)) else None));
    }
    match net {
      case Resp(r) =>
        if r.Ok() {
          cs.Put(ApiCacheName, req.url, r);
        }
        answer := Some(Served(r, None));
      case Fail =>
        answer := None;
    }
  }

  method HandleImageRequest(cs: CacheStorage, req: Request, net: NetOutcome) returns (s: Served)
    modifies cs
    ensures Step(s, cs.partitions) == ImageStep(old(cs.partitions), req, net)
  {
    s := cs.CacheFirst(ApiCacheName, req.url, net, false, ImagePlaceholder);
  }

  /** `handleFetch`, with `online` standing for `navigator.onLine`. */
  method HandleFetch(cs: CacheStorage, self: string, req: Request, net: NetOutcome, online: bool) returns (s: Served)
    modifies cs
    ensures Step(s, cs.partitions) == RequestStep(old(cs.partitions), self, req, net, online)
  {
    var answer: Option<Served>;
    if IsAppResource(req, self) {
      answer := HandleAppResource(cs, req, net);
    } else if IsApiRequest(req) {
      answer := HandleApiRequest(cs, req, net, online);
    } else if IsImageRequest(req) {
      var served := HandleImageRequest(cs, req, net);
      answer := Some(served);
    } else {
      answer := match net case Resp(r) => Some(Served(r, None)) case Fail => None;
    }
    if answer.Some? {
      return answer.value;
    }
    if req.IsNavigation() {
      cs.Open(CacheName);
      var cached := cs.Match(CacheName, Resolve(self, "/"));
      if cached.None? {
        cached := cs.Match(CacheName, Resolve(self, "/index.html"));
      }
      s := Served(if cached.Some? then cached.value else OfflinePage, None);
    } else {
      s := Served(Offline, None);
    }
  }

  /** Install: the resources are added one after the other; a root document
      that cannot be fetched is stored as the built-in page instead. */
  method Install(cs: CacheStorage, self: string, outcome: string -> NetOutcome)
    modifies cs
    ensures cs.partitions == Opened(old(cs.partitions), CacheName)[CacheName :=
              Installed(EntriesOf(old(cs.partitions), CacheName), self, CriticalResources, outcome)]
  {
    cs.Open(CacheName);
    var i := 0;
    while i < |CriticalResources|
      invariant 0 <= i <= |CriticalResources|
      invariant cs.partitions == Opened(old(cs.partitions), CacheName)[CacheName :=
                  Installed(EntriesOf(old(cs.partitions), CacheName), self, CriticalResources[..i], outcome)]
    {
      var resource := CriticalResources[i];
      assert CriticalResources[..i + 1][..i] == CriticalResources[..i];
      var fetched := outcome(resource);
      if fetched.Resp? && fetched.response.Ok() {
        cs.Put(CacheName, Resolve(self, resource), fetched.response);
      } else if resource == "/" || resource == "/index.html" {
        cs.Put(CacheName, Resolve(self, resource), OfflinePage);
      }
      i := i + 1;
    }
    assert CriticalResources[..|CriticalResources|] == CriticalResources;
  }

  /** Activate: keep exactly the shell and API partitions. */
  method Activate(cs: CacheStorage)
    modifies cs
    ensures cs.partitions == Retained(old(cs.partitions), CurrentNames)
  {
    cs.PurgeExcept(CurrentNames);
  }
}
