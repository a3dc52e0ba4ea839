/** The route for page navigations (assets/sw/routes/navigation-route.js): a page is
    composed from the two cached layout shells around the page's content fragment,
    and the network is used instead whenever any of the three cannot be had. */
module NavigationRoute {
  import opened Wrappers
  import opened Strings
  import opened Web
  import opened Routing
  import opened Patterns
  import Caches

  /** `navigationMatcher`: the worker's own host and an anchored navigation path.
      The request mode is not consulted (that test is commented out). */
  predicate NavigationMatcher(request: Request, host: string) {
    request.url.hostname == host && NavigationPath(request.url.pathname)
  }

  const ShellStartKey := "/shell-start.html"
  const ShellEndKey := "/shell-end.html"
  const HtmlContentType := "text/html; charset=utf-8"

  /** The content fragment of a page: `${pathname}index.content.html`. */
  function ContentKey(pathname: string): (k: string)
    ensures StartsWith(k, pathname) && EndsWith(k, "index.content.html")
    ensures |k| == |pathname| + 18
  {
    EndsWithAppend(pathname, "index.content.html");
    pathname + "index.content.html"
  }

  /** The three fake-event URLs, in the order of the `Promise.all` array. */
  function FragmentKeys(pathname: string): (keys: seq<string>)
    ensures |keys| == 3
  {
    [ShellStartKey, ContentKey(pathname), ShellEndKey]
  }

  /** The cache-first handler bound to LAYOUT that serves both shells. */
  const LayoutHandler: Handler := CacheFirst(Caches.CacheName.LAYOUT.Name())

  /** Which handler serves the `i`-th fragment: the layout handler for the shells,
      the pages handler for the content. */
  function ResolverFor(i: nat, layout: Resolver, pages: Resolver): Resolver {
    if i == 1 then pages else layout
  }

  /** What `navigationHandler` settles with: the composed page when all three
      fragments resolve, otherwise whatever `fetch(event.request)` settles with. */
  function ComposeOrFetch(request: Request, layout: Resolver, pages: Resolver, net: Network): Outcome<Response>
  {
    var content := ContentKey(request.url.pathname);
    if ShellStartKey in layout && content in pages && ShellEndKey in layout then
      Fulfilled(Response(200, "", layout[ShellStartKey].body + pages[content].body + layout[ShellEndKey].body,
                         HtmlContentType))
    else
      Fetch(net, request.url.href)
  }

  /** `navigationHandler`: the three handler calls in array order, their texts joined
      with `''`, and the network fallback on the first failure. Fragment responses are
      read whatever their status. */
  method NavigationHandler(request: Request, layout: Resolver, pages: Resolver, net: Network)
    returns (r: Outcome<Response>)
    ensures r == ComposeOrFetch(request, layout, pages, net)
  {
    var keys := FragmentKeys(request.url.pathname);
    var texts: seq<string> := [];
    var failed := false;
    var i := 0;
    while i < 3 && !failed
      invariant 0 <= i <= 3
      invariant !failed ==> |texts| == i
      invariant !failed ==> forall j :: 0 <= j < i ==>
        keys[j] in ResolverFor(j, layout, pages) && texts[j] == ResolverFor(j, layout, pages)[keys[j]].body
      invariant failed ==> exists j :: 0 <= j < 3 && keys[j] !in ResolverFor(j, layout, pages)
    {
      var resolver := ResolverFor(i, layout, pages);
      if keys[i] in resolver {
        texts := texts + [resolver[keys[i]].body];
      } else {
        failed := true;
      }
      i := i + 1;
    }
    if failed {
      r := Fetch(net, request.url.href);
    } else {
      JoinEmptyThree(texts[0], texts[1], texts[2]);
      assert texts == [texts[0], texts[1], texts[2]];
      r := Fulfilled(Response(200, "", Join(texts, ""), HtmlContentType));
    }
  }

  /** `createNavigationRoute()` */
  function CreateNavigationRoute(): (r: Route)
    ensures r.matcher == NavigationMatch && r.handler == NavigationComposer
  {
    Route(NavigationMatch, NavigationComposer)
  }

  /** The matcher ignores the request mode and method: only host and path decide. */
  lemma NavigationMatcherIgnoresMode(request: Request, host: string, verb: string, mode: Mode)
    ensures NavigationMatcher(request, host) == NavigationMatcher(request.(verb := verb, mode := mode), host)
    ensures NavigationMatcher(request, host) <==> request.url.hostname == host && NavigationPath(request.url.pathname)
  {
  }

  /** The shells are looked up under their fixed keys through the LAYOUT handler, the
      content under the page's own key through the pages handler. */
  lemma FragmentKeysSpec(pathname: string, layout: Resolver, pages: Resolver)
    ensures FragmentKeys(pathname)[0] == "/shell-start.html" && FragmentKeys(pathname)[2] == "/shell-end.html"
    ensures FragmentKeys(pathname)[1] == pathname + "index.content.html"
    ensures ResolverFor(0, layout, pages) == layout && ResolverFor(2, layout, pages) == layout
    ensures ResolverFor(1, layout, pages) == pages
    ensures LayoutHandler == CacheFirst("pw:v1:layout")
  {
  }

  /** The handler never yields a partial page: it yields the full composition, with
      start, content and end in that order, exactly when all three fragments resolve,
      and otherwise exactly what the network gives for the original request. */
  lemma NeverPartialPage(request: Request, layout: Resolver, pages: Resolver, net: Network)
    ensures var r := ComposeOrFetch(request, layout, pages, net);
      var keys := FragmentKeys(request.url.pathname);
      if keys[0] in layout && keys[1] in pages && keys[2] in layout then
        r.Fulfilled? && r.value.status == 200 && r.value.contentType == "text/html; charset=utf-8" &&
        r.value.body == Join([layout[keys[0]].body, pages[keys[1]].body, layout[keys[2]].body], "")
      else
        r == Fetch(net, request.url.href) &&
        (r.Fulfilled? <==> request.url.href in net) &&
        (r.Fulfilled? ==> r.value == net[request.url.href])
  {
    var keys := FragmentKeys(request.url.pathname);
    if keys[0] in layout && keys[1] in pages && keys[2] in layout {
      JoinEmptyThree(layout[keys[0]].body, pages[keys[1]].body, layout[keys[2]].body);
    }
  }

  /** When offline and a fragment is missing, the handler rejects: there is no
      half-built page to return instead. */
  lemma OfflineMissingFragmentRejects(request: Request, layout: Resolver, pages: Resolver, net: Network)
    requires request.url.href !in net
    requires ContentKey(request.url.pathname) !in pages
    ensures ComposeOrFetch(request, layout, pages, net) == Rejected(TypeError(FailedToFetch))
  {
  }
}
