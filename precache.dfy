/** The precache module (assets/sw/precache.js): the lazily created precache
    controller and broadcast-update plugin, the conditional analytics precache, and
    the install and activate sequences. The workbox controller and plugin are
    stand-ins that record what is asked of them. */
module Precache {
  import opened Wrappers
  import opened Web
  import opened Caches

  /** Workbox's broadcast-update plugin: a channel name and the headers it compares. */
  class BroadcastUpdatePlugin {
    const channelName: string
    const headersToCheck: seq<string>

    constructor (channelName: string, headersToCheck: seq<string>)
      ensures this.channelName == channelName && this.headersToCheck == headersToCheck
    {
      this.channelName := channelName;
      this.headersToCheck := headersToCheck;
    }
  }

  /** Workbox's precache controller, bound to one cache: the entries it was given, how
      often its install completed, and the plugin lists of its activations. */
  class PrecacheController {
    const cacheName: string
    var cacheList: seq<ManifestEntry>
    var installs: nat
    var activations: seq<seq<BroadcastUpdatePlugin>>

    constructor (cacheName: string)
      ensures this.cacheName == cacheName
      ensures cacheList == [] && installs == 0 && activations == []
    {
      this.cacheName := cacheName;
      cacheList := [];
      installs := 0;
      activations := [];
    }

    /** `addToCacheList(entries)` */
    method AddToCacheList(entries: seq<ManifestEntry>)
      modifies this
      ensures cacheList == old(cacheList) + entries
      ensures installs == old(installs) && activations == old(activations)
    {
      cacheList := cacheList + entries;
    }

    /** `install()`, which settles with the given failure or completes. */
    method Install(failure: Option<JsError>) returns (error: Option<JsError>)
      modifies this
      ensures error == failure
      ensures installs == old(installs) + (if failure.None? then 1 else 0)
      ensures cacheList == old(cacheList) && activations == old(activations)
    {
      error := failure;
      if failure.None? {
        installs := installs + 1;
      }
    }

    /** `activate({plugins})`, which settles with the given failure or completes. */
    method Activate(plugins: seq<BroadcastUpdatePlugin>, failure: Option<JsError>) returns (error: Option<JsError>)
      modifies this
      ensures error == failure
      ensures activations == old(activations) + (if failure.None? then [plugins] else [])
      ensures cacheList == old(cacheList) && installs == old(installs)
    {
      error := failure;
      if failure.None? {
        activations := activations + [plugins];
      }
    }
  }

  const AnalyticsJsUrl := "https://www.google-analytics.com/analytics.js"
  const BroadcastChannel := "api-updates"
  const BroadcastHeaders: seq<string> := ["ETag"]

  /** The asynchronous steps of install and activate, in the order they complete. */
  datatype Step = AddedToCacheList(count: nat) | ControllerInstalled | AnalyticsPrecached(fetched: bool) | ControllerActivated

  /** What install appends to the log: the manifest and the controller install, then,
      only once that install resolved, the analytics precache. */
  function InstallSteps(count: nat, installed: bool, analytics: Option<bool>): seq<Step> {
    [AddedToCacheList(count)] +
    (if installed then [ControllerInstalled] + (if analytics.Some? then [AnalyticsPrecached(analytics.value)] else []) else [])
  }

  /** The partitions after the analytics precache: THIRD_PARTY_ASSETS exists, and
      holds the fetched response under the analytics URL when it had no entry before
      and the fetch produced a response. */
  function AfterAnalyticsPrecache(m: map<string, Partition>, net: Network): map<string, Partition> {
    var tp := CacheName.THIRD_PARTY_ASSETS.Name();
    var withCache := Opened(m, tp);
    if Lookup(m, tp, AnalyticsJsUrl).None? && AnalyticsJsUrl in net then
      withCache[tp := withCache[tp][AnalyticsJsUrl := net[AnalyticsJsUrl]]]
    else withCache
  }

  /** The module-level state of precache.js: the two lazily assigned singletons and
      the log of completed steps. */
  class PrecacheModule {
    var broadcastUpdatePlugin: BroadcastUpdatePlugin?
    var precacheController: PrecacheController?
    var log: seq<Step>

    /** Every controller this module creates is bound to LAYOUT and every plugin uses
        the `api-updates` channel and checks `ETag`. */
    ghost predicate Valid()
      reads this
    {
      (precacheController != null ==> precacheController.cacheName == CacheName.LAYOUT.Name()) &&
      (broadcastUpdatePlugin != null ==>
        broadcastUpdatePlugin.channelName == BroadcastChannel && broadcastUpdatePlugin.headersToCheck == BroadcastHeaders)
    }

    /** The module as first evaluated: neither singleton exists yet. */
    constructor ()
      ensures Valid()
      ensures broadcastUpdatePlugin == null && precacheController == null && log == []
    {
      broadcastUpdatePlugin := null;
      precacheController := null;
      log := [];
    }

    /** `getOrCreateBroadcastUpdatePlugin()` */
    method GetOrCreateBroadcastUpdatePlugin() returns (p: BroadcastUpdatePlugin)
      requires Valid()
      modifies this
      ensures Valid()
      ensures broadcastUpdatePlugin == p
      ensures old(broadcastUpdatePlugin) != null ==> p == old(broadcastUpdatePlugin)
      ensures old(broadcastUpdatePlugin) == null ==> fresh(p)
      ensures precacheController == old(precacheController) && log == old(log)
    {
      if broadcastUpdatePlugin == null {
        broadcastUpdatePlugin := new BroadcastUpdatePlugin(BroadcastChannel, BroadcastHeaders);
      }
      p := broadcastUpdatePlugin;
    }

    /** `getOrCreatePrecacheController()` */
    method GetOrCreatePrecacheController() returns (c: PrecacheController)
      requires Valid()
      modifies this
      ensures Valid()
      ensures precacheController == c && c.cacheName == "pw:v1:layout"
      ensures old(precacheController) != null ==> c == old(precacheController)
      ensures old(precacheController) == null ==> fresh(c) && c.cacheList == [] && c.installs == 0 && c.activations == []
      ensures broadcastUpdatePlugin == old(broadcastUpdatePlugin) && log == old(log)
    {
      if precacheController == null {
        precacheController := new PrecacheController(CacheName.LAYOUT.Name());
      }
      c := precacheController;
    }

    /** `precacheAnalyticsJs()`: opens THIRD_PARTY_ASSETS and, only when the analytics
        script is not in it, fetches it in no-cors mode and stores the response whatever
        its status. Settles with whether a fetch was made, or with the fetch's failure. */
    method PrecacheAnalyticsJs(storage: CacheStorage, net: Network) returns (r: Outcome<bool>)
      requires storage.Valid()
      modifies storage, this
      ensures storage.Valid()
      ensures Lookup(old(storage.partitions), CacheName.THIRD_PARTY_ASSETS.Name(), AnalyticsJsUrl).Some? ==>
        r == Fulfilled(false) && storage.partitions == old(storage.partitions)
      ensures Lookup(old(storage.partitions), CacheName.THIRD_PARTY_ASSETS.Name(), AnalyticsJsUrl).None? ==>
        (r.Fulfilled? <==> AnalyticsJsUrl in net) && (r.Fulfilled? ==> r.value) &&
        (r.Rejected? ==> r.error == TypeError(FailedToFetch))
      ensures storage.partitions == AfterAnalyticsPrecache(old(storage.partitions), net)
      ensures storage.order == OpenedOrder(old(storage.order), CacheName.THIRD_PARTY_ASSETS.Name())
      ensures log == old(log) + (if r.Fulfilled? then [AnalyticsPrecached(r.value)] else [])
      ensures precacheController == old(precacheController) && broadcastUpdatePlugin == old(broadcastUpdatePlugin)
    {
      var tp := CacheName.THIRD_PARTY_ASSETS.Name();
      storage.Open(tp);
      var found := storage.Match(tp, AnalyticsJsUrl);
      if found.None? {
        var analyticsJsRequest := Request("GET", Url(AnalyticsJsUrl, "www.google-analytics.com", "/analytics.js", "", ""), NoCors);
        var response := Fetch(net, analyticsJsRequest.url.href);
        if response.Rejected? {
          return Rejected(response.error);
        }
        storage.Put(tp, AnalyticsJsUrl, response.value);
        r := Fulfilled(true);
      } else {
        r := Fulfilled(false);
      }
      log := log + [AnalyticsPrecached(r.value)];
    }

    /** `install()`: hands the manifest to the controller and awaits its install, then
        awaits the analytics precache; the first failure ends the sequence. */
    method Install(storage: CacheStorage, manifest: seq<ManifestEntry>, net: Network, installFailure: Option<JsError>)
      returns (error: Option<JsError>)
      requires Valid() && storage.Valid()
      modifies this, storage, precacheController
      ensures Valid() && storage.Valid()
      ensures precacheController != null && precacheController.cacheName == "pw:v1:layout"
      ensures old(precacheController) != null ==> precacheController == old(precacheController)
      ensures old(precacheController) != null ==>
        precacheController.cacheList == old(precacheController.cacheList) + manifest
      ensures old(precacheController) == null ==> precacheController.cacheList == manifest
      ensures installFailure.Some? ==> (error == installFailure && storage.partitions == old(storage.partitions) &&
        log == old(log) + InstallSteps(|manifest|, false, None))
      ensures installFailure.None? ==> (
        var missing := Lookup(old(storage.partitions), CacheName.THIRD_PARTY_ASSETS.Name(), AnalyticsJsUrl).None?;
        storage.partitions == AfterAnalyticsPrecache(old(storage.partitions), net) &&
        (error.None? <==> !missing || AnalyticsJsUrl in net) &&
        (error.None? ==> log == old(log) + InstallSteps(|manifest|, true, Some(missing))) &&
        (error.Some? ==> error == Some(TypeError(FailedToFetch)) && log == old(log) + InstallSteps(|manifest|, true, None)))
      ensures broadcastUpdatePlugin == old(broadcastUpdatePlugin)
    {
      error := InstallController(manifest, installFailure);
      if error.Some? {
        return;
      }
      var analytics := PrecacheAnalyticsJs(storage, net);
      if analytics.Rejected? {
        error := Some(analytics.error);
      }
    }

    /** The first half of `install()`: the manifest goes to the controller, whose
        install is awaited. */
    method InstallController(manifest: seq<ManifestEntry>, installFailure: Option<JsError>)
      returns (error: Option<JsError>)
      requires Valid()
      modifies this, precacheController
      ensures Valid() && error == installFailure
      ensures precacheController != null && precacheController.cacheName == "pw:v1:layout"
      ensures old(precacheController) != null ==> precacheController == old(precacheController)
      ensures old(precacheController) != null ==>
        precacheController.cacheList == old(precacheController.cacheList) + manifest
      ensures old(precacheController) == null ==> precacheController.cacheList == manifest
      ensures log == old(log) + InstallSteps(|manifest|, installFailure.None?, None)
      ensures broadcastUpdatePlugin == old(broadcastUpdatePlugin)
    {
      var controller := GetOrCreatePrecacheController();
      controller.AddToCacheList(manifest);
      log := log + [AddedToCacheList(|manifest|)];
      error := controller.Install(installFailure);
      if error.None? {
        log := log + [ControllerInstalled];
      }
    }

    /** `activate()`: activates the same controller with the single plugin; a controller
        created by this call (a worker restarted between install and activate) starts
        with no activations. */
    method Activate(activateFailure: Option<JsError>) returns (error: Option<JsError>)
      requires Valid()
      modifies this, precacheController
      ensures Valid()
      ensures error == activateFailure
      ensures precacheController != null && precacheController.cacheName == "pw:v1:layout"
      ensures old(precacheController) != null ==> precacheController == old(precacheController)
      ensures broadcastUpdatePlugin != null
      ensures old(broadcastUpdatePlugin) != null ==> broadcastUpdatePlugin == old(broadcastUpdatePlugin)
      ensures precacheController.activations ==
        (if old(precacheController) == null then [] else old(precacheController.activations)) +
        (if error.None? then [[broadcastUpdatePlugin]] else [])
      ensures log == old(log) + (if error.None? then [ControllerActivated] else [])
    {
      var controller := GetOrCreatePrecacheController();
      var plugin := GetOrCreateBroadcastUpdatePlugin();
      error := controller.Activate([plugin], activateFailure);
      if error.None? {
        log := log + [ControllerActivated];
      }
    }
  }

  /** The analytics entry is stored whatever the response's status, so an opaque
      no-cors response (status 0) is cached too; an entry already present is kept. */
  lemma AnalyticsStoredWithoutStatusCheck(m: map<string, Partition>, net: Network)
    ensures var tp := CacheName.THIRD_PARTY_ASSETS.Name();
      var after := AfterAnalyticsPrecache(m, net);
      tp in after &&
      (Lookup(m, tp, AnalyticsJsUrl).Some? ==> after == m) &&
      (Lookup(m, tp, AnalyticsJsUrl).None? && AnalyticsJsUrl in net ==>
         Lookup(after, tp, AnalyticsJsUrl) == Some(net[AnalyticsJsUrl])) &&
      (forall n :: n in m && n != tp ==> n in after && after[n] == m[n])
  {
  }

  /** Install's steps come in a fixed order: the analytics precache never precedes the
      controller install, which never precedes the manifest hand-over. */
  lemma InstallStepsOrdered(count: nat, installed: bool, analytics: Option<bool>)
    ensures var s := InstallSteps(count, installed, analytics);
      s[0] == AddedToCacheList(count) &&
      (|s| > 1 ==> installed && s[1] == ControllerInstalled) &&
      (|s| > 2 ==> analytics.Some? && s[2] == AnalyticsPrecached(analytics.value)) &&
      |s| <= 3
  {
  }
}
