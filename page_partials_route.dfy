/** The route for page-content fragments (assets/sw/routes/page-partials-route.js). */
module PagePartialsRoute {
  import opened Strings
  import opened Web
  import opened Routing
  import Caches

  const ContentPartialSuffix := "index.content.html"

  /** `pagePartialsMatcher`: a same-host URL whose path ends with `index.content.html`. */
  predicate PagePartialsMatcher(url: Url, host: string) {
    url.hostname == host && EndsWith(url.pathname, ContentPartialSuffix)
  }

  /** The single stale-while-revalidate handler of the module, bound to PAGES. */
  const PagePartialsHandler: Handler := StaleWhileRevalidate(Caches.CacheName.PAGES.Name())

  /** `createPagePartialsRoute()` */
  function CreatePagePartialsRoute(): (r: Route)
    ensures r.matcher == PagePartialsMatch
    ensures r.handler == PagePartialsHandler && r.handler.cacheName == "pw:v1:pages"
  {
    Route(PagePartialsMatch, PagePartialsHandler)
  }

  /** The matcher holds exactly for same-host URLs whose path ends with the suffix; the
      query, the hash and the request method play no part. */
  lemma PagePartialsMatcherSpec(url: Url, other: Url, host: string)
    requires other.hostname == url.hostname && other.pathname == url.pathname
    ensures PagePartialsMatcher(url, host) <==>
      url.hostname == host && |url.pathname| >= 18 &&
      url.pathname[|url.pathname| - 18..] == "index.content.html"
    ensures PagePartialsMatcher(url, host) == PagePartialsMatcher(other, host)
  {
  }
}
