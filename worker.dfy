/** The modular worker (assets/sw/sw.js with assets/sw/routes.js): registers the
    routes in the order of the route table, answers a fetch only when the router
    produced a response promise, and sequences install and activate. */
module Worker {
  import opened Wrappers
  import opened Web
  import opened Routing
  import opened Caches
  import opened Precache
  import NavigationRoute
  import PagePartialsRoute
  import ThirdPartyAssetsRoute

  /** The factories of the `routes` object, in its property order. */
  datatype RouteFactory = CreateNavigationRoute | CreatePagePartialsRoute | CreateStaticAssetsRoute | CreateThirdPartyAssetsRoute

  const RouteTable: seq<RouteFactory> :=
    [CreateNavigationRoute, CreatePagePartialsRoute, CreateStaticAssetsRoute, CreateThirdPartyAssetsRoute]

  /** Calls a factory. The static-assets route module is not part of this model: its
      route is known only by its matcher and handler kinds. */
  function MakeRoute(f: RouteFactory): (r: Route)
    ensures f == CreateNavigationRoute ==> r.matcher == NavigationMatch
    ensures f == CreatePagePartialsRoute ==> r.matcher == PagePartialsMatch
    ensures f == CreateStaticAssetsRoute ==> r.matcher == StaticAssetsMatch
    ensures f == CreateThirdPartyAssetsRoute ==> r.matcher == ThirdPartyAssetsMatch
  {
    match f
    case CreateNavigationRoute => NavigationRoute.CreateNavigationRoute()
    case CreatePagePartialsRoute => PagePartialsRoute.CreatePagePartialsRoute()
    case CreateStaticAssetsRoute => Route(StaticAssetsMatch, StaticAssetsStrategy)
    case CreateThirdPartyAssetsRoute => ThirdPartyAssetsRoute.CreateThirdPartyAssetsRoute()
  }

  /** Workbox's router, as far as this worker uses it: the routes in registration order. */
  class Router {
    var routes: seq<Route>

    constructor ()
      ensures routes == []
    {
      routes := [];
    }

    /** `registerRoute(route)` */
    method RegisterRoute(route: Route)
      modifies this
      ensures routes == old(routes) + [route]
    {
      routes := routes + [route];
    }
  }

  /** What the fetch listener does with an event. */
  datatype FetchDecision = RespondWith(response: Outcome<Response>) | DefaultHandling

  /** The fetch listener: `respondWith` only when `router.handleRequest` returned a
      promise. The router's choice of route is workbox's and is given. */
  function OnFetch(responsePromise: Option<Outcome<Response>>): (d: FetchDecision)
    ensures d.RespondWith? <==> responsePromise.Some?
    ensures d.RespondWith? ==> d.response == responsePromise.value
  {
    if responsePromise.Some? then RespondWith(responsePromise.value) else DefaultHandling
  }

  /** The worker global scope: its router, the precache module, Cache Storage, and
      whether `skipWaiting` was called. */
  class ServiceWorker {
    const router: Router
    const precache: PrecacheModule
    const storage: CacheStorage
    var skippedWaiting: bool

    ghost predicate Valid()
      reads this, precache, storage
    {
      precache.Valid() && storage.Valid()
    }

    /** Script evaluation: one route per factory, registered in table order. */
    constructor (storage: CacheStorage)
      requires storage.Valid()
      ensures Valid()
      ensures this.storage == storage && fresh(router) && fresh(precache)
      ensures router.routes == [NavigationRoute.CreateNavigationRoute(), PagePartialsRoute.CreatePagePartialsRoute(),
                                Route(StaticAssetsMatch, StaticAssetsStrategy), ThirdPartyAssetsRoute.CreateThirdPartyAssetsRoute()]
      ensures precache.precacheController == null && precache.broadcastUpdatePlugin == null
      ensures !skippedWaiting
    {
      var r := new Router();
      for i := 0 to |RouteTable|
        invariant fresh(r)
        invariant |r.routes| == i
        invariant forall j :: 0 <= j < i ==> r.routes[j] == MakeRoute(RouteTable[j])
      {
        r.RegisterRoute(MakeRoute(RouteTable[i]));
      }
      router := r;
      precache := new PrecacheModule();
      this.storage := storage;
      skippedWaiting := false;
    }

    /** The install listener: awaits `precache.install()` and only then calls
        `skipWaiting`. */
    method OnInstall(manifest: seq<ManifestEntry>, net: Network, installFailure: Option<JsError>)
      returns (error: Option<JsError>)
      requires Valid()
      modifies this, precache, storage, precache.precacheController
      ensures Valid()
      ensures skippedWaiting == (old(skippedWaiting) || error.None?)
      ensures installFailure.Some? ==> error == installFailure
      ensures error.None? ==> (|precache.log| == |old(precache.log)| + 3 &&
        precache.log[|old(precache.log)|] == AddedToCacheList(|manifest|) &&
        precache.log[|old(precache.log)| + 1] == ControllerInstalled)
    {
      error := precache.Install(storage, manifest, net, installFailure);
      if error.None? {
        skippedWaiting := true;
      }
    }

    /** The activate listener: awaits `precache.activate()` and only then sweeps the
        caches that are not one of the five current partitions. */
    method OnActivate(activateFailure: Option<JsError>) returns (error: Option<JsError>, deleted: seq<string>)
      requires Valid()
      modifies precache, storage, precache.precacheController
      ensures Valid()
      ensures error == activateFailure
      ensures error.Some? ==> (deleted == [] && storage.order == old(storage.order) &&
        storage.partitions == old(storage.partitions))
      ensures error.None? ==> (deleted == InvalidNames(old(storage.order), ValidCacheNames) &&
        storage.order == KeepValid(old(storage.order), ValidCacheNames) &&
        storage.partitions == Swept(old(storage.partitions), ValidCacheNames) &&
        precache.log == old(precache.log) + [ControllerActivated])
    {
      deleted := [];
      error := precache.Activate(activateFailure);
      if error.None? {
        deleted := DeleteUnusedCaches(storage);
      }
    }
  }

  /** The registered routes are one per factory, in table order, and every matcher
      kind appears exactly once. */
  lemma RouteOrder()
    ensures |RouteTable| == 4
    ensures forall i, j :: 0 <= i < j < |RouteTable| ==> MakeRoute(RouteTable[i]).matcher != MakeRoute(RouteTable[j]).matcher
    ensures MakeRoute(RouteTable[0]).handler == NavigationComposer
    ensures MakeRoute(RouteTable[1]).handler == StaleWhileRevalidate("pw:v1:pages")
    ensures MakeRoute(RouteTable[3]).handler == NetworkFirst("pw:v1:third-party-assets")
  {
  }

  /** The third-party matcher never accepts a URL the navigation or page-partials
      matchers accept: they require the worker's host and it requires another. */
  lemma ThirdPartyDisjoint(request: Request, host: string)
    ensures ThirdPartyAssetsRoute.ThirdPartyAssetsMatcher(request.url, host) ==>
      !NavigationRoute.NavigationMatcher(request, host) && !PagePartialsRoute.PagePartialsMatcher(request.url, host)
  {
  }
}
