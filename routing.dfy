/** The route table's vocabulary: which matcher a route uses and which handler it
    invokes. The workbox strategies behind the handlers are abstract: a `Resolver`
    says what a strategy resolves each key to. */
module Routing {
  import opened Web

  /** The matcher of a route, one per route module. */
  datatype MatcherKind = NavigationMatch | PagePartialsMatch | StaticAssetsMatch | ThirdPartyAssetsMatch

  /** The handler of a route: the navigation composer, or a workbox strategy bound to a cache. */
  datatype Handler =
    | NavigationComposer
    | CacheFirst(cacheName: string)
    | StaleWhileRevalidate(cacheName: string)
    | NetworkFirst(cacheName: string)
    | StaticAssetsStrategy

  /** `new Route(matcher, handler)` */
  datatype Route = Route(matcher: MatcherKind, handler: Handler)

  /** What an abstract strategy's `handle` resolves to for each key; a key with no entry
      is one for which the strategy rejects. */
  type Resolver = map<string, Response>
}
