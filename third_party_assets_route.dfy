/** The route for assets on other hosts (assets/sw/routes/third-party-assets-route.js). */
module ThirdPartyAssetsRoute {
  import opened Strings
  import opened Web
  import opened Routing
  import Caches

  /** `/\.(?:js|mp4)$/`, case-sensitive and anchored at the end only. */
  predicate ScriptOrVideoPath(p: string) {
    EndsWith(p, ".js") || EndsWith(p, ".mp4")
  }

  /** `thirdParthAssetsMatcher`: a URL on another host whose path ends in `.js` or `.mp4`. */
  predicate ThirdPartyAssetsMatcher(url: Url, host: string) {
    url.hostname != host && ScriptOrVideoPath(url.pathname)
  }

  /** The network-first handler of the module, bound to THIRD_PARTY_ASSETS. */
  const ThirdPartyAssetsHandler: Handler := NetworkFirst(Caches.CacheName.THIRD_PARTY_ASSETS.Name())

  /** `createThirdPartyAssetsRoute()` */
  function CreateThirdPartyAssetsRoute(): (r: Route)
    ensures r.matcher == ThirdPartyAssetsMatch
    ensures r.handler == ThirdPartyAssetsHandler && r.handler.cacheName == "pw:v1:third-party-assets"
  {
    Route(ThirdPartyAssetsMatch, ThirdPartyAssetsHandler)
  }

  /** The extension test is case-sensitive: an upper-case extension does not match. */
  lemma ExtensionIsCaseSensitive(url: Url, host: string)
    requires url.hostname != host
    ensures ThirdPartyAssetsMatcher(url.(pathname := "/analytics.js"), host)
    ensures ThirdPartyAssetsMatcher(url.(pathname := "/intro.mp4"), host)
    ensures !ThirdPartyAssetsMatcher(url.(pathname := "/analytics.JS"), host)
    ensures !ThirdPartyAssetsMatcher(url.(pathname := "/analytics.js.map"), host)
  {
    assert "/analytics.js"[10..] == ".js";
    assert "/intro.mp4"[6..] == ".mp4";
    assert "/analytics.JS"[10..] != ".js" by { assert "/analytics.JS"[10..][1] == 'J'; }
    assert "/analytics.JS"[9..] != ".mp4" by { assert "/analytics.JS"[9..][0] == 's'; }
    assert "/analytics.js.map"[14..] != ".js" by { assert "/analytics.js.map"[14..][0] == 'm'; }
    assert "/analytics.js.map"[13..] != ".mp4" by { assert "/analytics.js.map"[13..][2] == 'a'; }
  }
}
