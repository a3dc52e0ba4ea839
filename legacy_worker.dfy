/** The single-file worker (assets/sw.js): the full-page matcher, the first-fulfilled
    race, the cache-or-network content lookup, the full-page composer and the
    activate-time sweep over its own cache names. */
module LegacyWorker {
  import opened Wrappers
  import opened Strings
  import opened Web
  import opened Patterns
  import opened Caches

  /** This worker's cache names, with their spelling. */
  const LegacyLayout := "pw:laytout"
  const LegacyLayoutTemp := "pw:laytout-temp"
  const LegacyPages := "pw:pages"
  const LegacyStaticAssets := "pw:static"
  const LegacyGoogleAnalytics := "pw:analytics"

  /** `new Set(Object.values(cacheNames))` */
  const LegacyValidCacheNames: set<string> :=
    {LegacyLayout, LegacyLayoutTemp, LegacyPages, LegacyStaticAssets, LegacyGoogleAnalytics}

  const ShellStartKey := "/shell-start.html"
  const ShellEndKey := "/shell-end.html"
  const HtmlContentType := "text/html; charset=utf-8"

  // ---------------------------------------------------------------- matching

  /** `fullPageMatcher`: a navigation to the worker's host on `/` or on a path with
      the `/about/` or `/articles/` prefix. */
  predicate FullPageMatcher(request: Request, host: string) {
    request.mode == Navigate && request.url.hostname == host && FullPagePath(request.url.pathname)
  }

  /** All three conditions are required, and the path test is a prefix test. */
  lemma FullPageMatcherSpec(request: Request, host: string)
    ensures FullPageMatcher(request, host) <==>
      request.mode == Navigate && request.url.hostname == host &&
      (request.url.pathname == "/" || StartsWith(request.url.pathname, "/about/") ||
       StartsWith(request.url.pathname, "/articles/"))
  {
    FullPagePathSpec(request.url.pathname);
  }

  // ---------------------------------------------------------------- the race

  const ReduceOfEmptyArray := "Reduce of empty array with no initial value"
  const NoPromisesFulfilled := "No promises were fulfilled"

  /** The value of the first attempt to fulfil, in settle order. */
  function FirstFulfilled<T>(settled: seq<Outcome<T>>): (r: Option<T>)
    ensures r.Some? <==> exists i :: 0 <= i < |settled| && settled[i].Fulfilled?
    ensures r.Some? ==> exists i :: (0 <= i < |settled| && settled[i] == Fulfilled(r.value) &&
      forall j :: 0 <= j < i ==> settled[j].Rejected?)
  {
    if settled == [] then None
    else
      var last := settled[|settled| - 1];
      var earlier := FirstFulfilled(settled[..|settled| - 1]);
      if earlier.Some? then earlier
      else if last.Fulfilled? then Some(last.value)
      else None
  }

  /** What `promiseFirst` settles with, given the attempts in settle order. */
  function PromiseFirstResult<T>(settled: seq<Outcome<T>>): Outcome<T> {
    if settled == [] then Rejected(TypeError(ReduceOfEmptyArray))
    else
      var first := FirstFulfilled(settled);
      if first.Some? then Fulfilled(first.value) else Rejected(Error(NoPromisesFulfilled))
  }

  /** `promiseFirst(promises)`, with the attempts given in the order they settle.
      The first loop is the `forEach` of `then(resolve)` registrations (only the
      first call of `resolve` counts); the second is the `reduce` of `catch` links,
      which rejects only when every attempt rejected. An empty array makes the
      `reduce` throw inside the executor. */
  method PromiseFirst<T>(settled: seq<Outcome<T>>) returns (r: Outcome<T>)
    ensures r == PromiseFirstResult(settled)
    ensures r.Fulfilled? <==> exists i :: 0 <= i < |settled| && settled[i].Fulfilled?
    ensures r.Fulfilled? ==> exists i :: (0 <= i < |settled| && settled[i] == r &&
      forall j :: 0 <= j < i ==> settled[j].Rejected?)
    ensures settled == [] ==> r == Rejected(TypeError(ReduceOfEmptyArray))
    ensures settled != [] && r.Rejected? ==> r == Rejected(Error(NoPromisesFulfilled))
  {
    if |settled| == 0 {
      return Rejected(TypeError(ReduceOfEmptyArray));
    }
    var resolved: Option<T> := None;
    for i := 0 to |settled|
      invariant resolved == FirstFulfilled(settled[..i])
    {
      assert settled[..i + 1][..i] == settled[..i];
      if resolved.None? && settled[i].Fulfilled? {
        resolved := Some(settled[i].value);
      }
    }
    assert settled[..|settled|] == settled;
    var chain := settled[0];
    for i := 1 to |settled|
      invariant chain.Rejected? <==> forall j :: 0 <= j < i ==> settled[j].Rejected?
    {
      if chain.Rejected? {
        chain := settled[i];
      }
    }
    if resolved.Some? {
      r := Fulfilled(resolved.value);
    } else if chain.Rejected? {
      r := Rejected(Error(NoPromisesFulfilled));
    } else {
      assert false;
    }
  }

  /** The race fulfils exactly when some attempt fulfils, with the first such value in
      settle order, and rejects only when every attempt rejects. */
  lemma PromiseFirstSpec<T>(settled: seq<Outcome<T>>, i: nat)
    requires i < |settled| && settled[i].Fulfilled?
    requires forall j :: 0 <= j < i ==> settled[j].Rejected?
    ensures PromiseFirstResult(settled) == settled[i]
  {
    var r := PromiseFirstResult(settled);
    var k :| 0 <= k < |settled| && settled[k] == r && forall j :: 0 <= j < k ==> settled[j].Rejected?;
    assert !(k < i) && !(i < k);
  }

  /** Unlike `Promise.race`, an early rejection does not decide the race. */
  lemma EarlyRejectionDoesNotDecide<T>(e: JsError, v: T)
    ensures PromiseFirstResult([Rejected(e), Fulfilled(v)]) == Fulfilled(v)
  {
    PromiseFirstSpec([Rejected(e), Fulfilled(v)], 1);
  }

  // ---------------------------------------------------------------- page content

  /** The text of the message a `TypeError` carries when `.text()` is read off `undefined`. */
  const UndefinedResponseText := "Cannot read properties of undefined (reading 'text')"

  /** `getResponseText`: the body of the response the promise fulfils with; a miss
      (`undefined`) throws a `TypeError`, a rejection passes through. */
  function GetResponseText(p: Outcome<Option<Response>>): (t: Outcome<string>)
    ensures t.Fulfilled? <==> p.Fulfilled? && p.value.Some?
    ensures t.Fulfilled? ==> t.value == p.value.value.body
    ensures p.Rejected? ==> t == Rejected(p.error)
    ensures p == Fulfilled(None) ==> t == Rejected(TypeError(UndefinedResponseText))
  {
    match p
    case Rejected(e) => Rejected(e)
    case Fulfilled(None) => Rejected(TypeError(UndefinedResponseText))
    case Fulfilled(Some(response)) => Fulfilled(response.body)
  }

  /** `${url.pathname}index.content.html` */
  function PageContentKey(pathname: string): string {
    pathname + "index.content.html"
  }

  /** The network attempt of the race: the fetched response, whatever its status. */
  function NetworkAttempt(net: Network, resource: string): (r: Outcome<Option<Response>>)
    ensures r.Fulfilled? <==> resource in net
    ensures r.Fulfilled? ==> r.value == Some(net[resource])
  {
    var f := Fetch(net, resource);
    if f.Fulfilled? then Fulfilled(Some(f.value)) else Rejected(f.error)
  }

  /** The two attempts in settle order. */
  function SettleOrder(cached: Option<Response>, net: Network, resource: string, networkFirst: bool): seq<Outcome<Option<Response>>> {
    if networkFirst then [NetworkAttempt(net, resource), Fulfilled(cached)]
    else [Fulfilled(cached), NetworkAttempt(net, resource)]
  }

  /** What `getPageContentFromCacheOrNetwork` settles with, given what PAGES held. */
  function ContentRace(cached: Option<Response>, net: Network, resource: string, networkFirst: bool): Outcome<Option<Response>> {
    PromiseFirstResult(SettleOrder(cached, net, resource, networkFirst))
  }

  /** The cache partitions after the race: PAGES exists, and holds the fetched
      response under `resource` when that response was ok. */
  function AfterContentRace(m: map<string, Partition>, net: Network, resource: string): map<string, Partition> {
    var afterOpen := Opened(m, LegacyPages);
    if resource in net && net[resource].Ok() then
      afterOpen[LegacyPages := afterOpen[LegacyPages][resource := net[resource]]]
    else afterOpen
  }

  /** `getPageContentFromCacheOrNetwork(url)`: races a PAGES lookup against a fetch of
      the content key, writing an ok network response to PAGES. The lookup reads PAGES
      as it was when the race began; `networkFirst` says which attempt settles first. */
  method PageContentFromCacheOrNetwork(storage: CacheStorage, url: Url, net: Network, networkFirst: bool)
    returns (r: Outcome<Option<Response>>)
    requires storage.Valid()
    modifies storage
    ensures storage.Valid()
    ensures var resource := PageContentKey(url.pathname);
      r == ContentRace(Lookup(old(storage.partitions), LegacyPages, resource), net, resource, networkFirst)
    ensures storage.partitions == AfterContentRace(old(storage.partitions), net, PageContentKey(url.pathname))
    ensures storage.order == OpenedOrder(old(storage.order), LegacyPages)
  {
    var resource := PageContentKey(url.pathname);
    // getResourceFromCache
    storage.Open(LegacyPages);
    var cached := storage.Match(LegacyPages, resource);
    var cacheAttempt: Outcome<Option<Response>> := Fulfilled(cached);
    // getResourceFromNetwork
    var fetched := Fetch(net, resource);
    var networkAttempt: Outcome<Option<Response>>;
    if fetched.Fulfilled? {
      if fetched.value.Ok() {
        storage.Open(LegacyPages);
        storage.Put(LegacyPages, resource, fetched.value);
      }
      networkAttempt := Fulfilled(Some(fetched.value));
    } else {
      networkAttempt := Rejected(fetched.error);
    }
    if networkFirst {
      r := PromiseFirst([networkAttempt, cacheAttempt]);
    } else {
      r := PromiseFirst([cacheAttempt, networkAttempt]);
    }
  }

  /** The cache lookup always fulfils, so the race never rejects; a miss fulfils with
      `undefined`, and wins when it settles first. */
  lemma ContentRaceNeverRejects(cached: Option<Response>, net: Network, resource: string, networkFirst: bool)
    ensures ContentRace(cached, net, resource, networkFirst).Fulfilled?
    ensures !networkFirst ==> ContentRace(cached, net, resource, networkFirst) == Fulfilled(cached)
    ensures networkFirst && resource in net ==>
      ContentRace(cached, net, resource, networkFirst) == Fulfilled(Some(net[resource]))
    ensures networkFirst && resource !in net ==>
      ContentRace(cached, net, resource, networkFirst) == Fulfilled(cached)
  {
    var s := SettleOrder(cached, net, resource, networkFirst);
    if networkFirst && resource !in net {
      PromiseFirstSpec(s, 1);
    } else {
      PromiseFirstSpec(s, 0);
    }
  }

  /** Only an ok response is written to PAGES; any other leaves the entry as it was. */
  lemma OnlyOkResponsesCached(m: map<string, Partition>, net: Network, resource: string)
    ensures var after := AfterContentRace(m, net, resource);
      LegacyPages in after &&
      (resource in net && net[resource].Ok() ==> resource in after[LegacyPages] && after[LegacyPages][resource] == net[resource]) &&
      (!(resource in net && net[resource].Ok()) ==> after == Opened(m, LegacyPages)) &&
      (forall n :: n in m && n != LegacyPages ==> n in after && after[n] == m[n])
  {
  }

  // ---------------------------------------------------------------- full page

  /** What `fullPageHandler` settles with: the composed page when both shells are in
      LAYOUT and the content race yields a response, otherwise the network's answer
      to the original request. */
  function FullPageResult(m: map<string, Partition>, request: Request, net: Network, networkFirst: bool): Outcome<Response> {
    var resource := PageContentKey(request.url.pathname);
    var start := GetResponseText(Fulfilled(Lookup(m, LegacyLayout, ShellStartKey)));
    var content := GetResponseText(ContentRace(Lookup(m, LegacyPages, resource), net, resource, networkFirst));
    var end := GetResponseText(Fulfilled(Lookup(m, LegacyLayout, ShellEndKey)));
    if start.Fulfilled? && content.Fulfilled? && end.Fulfilled? then
      Fulfilled(Response(200, "", Join([start.value, content.value, end.value], ""), HtmlContentType))
    else
      Fetch(net, request.url.href)
  }

  /** `Promise.all` over the three texts: all values in array order, or a failure. */
  method AllTexts(texts: seq<Outcome<string>>) returns (values: Option<seq<string>>)
    ensures values.Some? <==> forall i :: 0 <= i < |texts| ==> texts[i].Fulfilled?
    ensures values.Some? ==> (|values.value| == |texts| &&
      forall i :: 0 <= i < |texts| ==> values.value[i] == texts[i].value)
  {
    var collected: seq<string> := [];
    for i := 0 to |texts|
      invariant |collected| == i
      invariant forall j :: 0 <= j < i ==> texts[j].Fulfilled? && collected[j] == texts[j].value
    {
      if texts[i].Rejected? {
        return None;
      }
      collected := collected + [texts[i].value];
    }
    values := Some(collected);
  }

  /** `fullPageHandler`: opens LAYOUT, reads both shells and races the content, joins
      the three texts, and falls back to `fetch(event.request)` on any failure. */
  method FullPageHandler(storage: CacheStorage, request: Request, net: Network, networkFirst: bool)
    returns (r: Outcome<Response>)
    requires storage.Valid()
    modifies storage
    ensures storage.Valid()
    ensures r == FullPageResult(old(storage.partitions), request, net, networkFirst)
    ensures storage.partitions ==
      AfterContentRace(Opened(old(storage.partitions), LegacyLayout), net, PageContentKey(request.url.pathname))
    ensures storage.order == OpenedOrder(OpenedOrder(old(storage.order), LegacyLayout), LegacyPages)
  {
    ghost var m := storage.partitions;
    var resource := PageContentKey(request.url.pathname);
    storage.Open(LegacyLayout);
    ghost var afterOpen := storage.partitions;
    var start := storage.Match(LegacyLayout, ShellStartKey);
    var content := PageContentFromCacheOrNetwork(storage, request.url, net, networkFirst);
    var end := storage.Match(LegacyLayout, ShellEndKey);
    assert Lookup(afterOpen, LegacyPages, resource) == Lookup(m, LegacyPages, resource);
    assert Lookup(storage.partitions, LegacyLayout, ShellEndKey) == Lookup(m, LegacyLayout, ShellEndKey);
    r := ComposeTexts(GetResponseText(Fulfilled(start)), GetResponseText(content), GetResponseText(Fulfilled(end)),
                      net, request.url.href);
  }

  /** The `Promise.all` of the three texts and what follows it: the joined page when
      all three settled with a text, otherwise `fetch` of the original request. */
  method ComposeTexts(start: Outcome<string>, content: Outcome<string>, end: Outcome<string>, net: Network, href: string)
    returns (r: Outcome<Response>)
    ensures start.Fulfilled? && content.Fulfilled? && end.Fulfilled? ==>
      r == Fulfilled(Response(200, "", Join([start.value, content.value, end.value], ""), HtmlContentType))
    ensures !(start.Fulfilled? && content.Fulfilled? && end.Fulfilled?) ==> r == Fetch(net, href)
  {
    var texts := [start, content, end];
    var values := AllTexts(texts);
    if values.Some? {
      assert values.value == [texts[0].value, texts[1].value, texts[2].value];
      r := Fulfilled(Response(200, "", Join(values.value, ""), HtmlContentType));
    } else {
      assert !texts[0].Fulfilled? || !texts[1].Fulfilled? || !texts[2].Fulfilled?;
      r := Fetch(net, href);
    }
  }

  /** The composer never returns a partial page: either every fragment was read and
      the body is shell-start, content and shell-end in that order, or the result is
      the network's answer to the original request. */
  lemma FullPageNeverPartial(m: map<string, Partition>, request: Request, net: Network, networkFirst: bool)
    ensures var r := FullPageResult(m, request, net, networkFirst);
      var resource := PageContentKey(request.url.pathname);
      var content := ContentRace(Lookup(m, LegacyPages, resource), net, resource, networkFirst);
      if Lookup(m, LegacyLayout, ShellStartKey).Some? && content.Fulfilled? && content.value.Some? &&
         Lookup(m, LegacyLayout, ShellEndKey).Some? then
        r == Fulfilled(Response(200, "", m[LegacyLayout][ShellStartKey].body + content.value.value.body +
                                         m[LegacyLayout][ShellEndKey].body, "text/html; charset=utf-8"))
      else
        r == Fetch(net, request.url.href)
  {
    var resource := PageContentKey(request.url.pathname);
    var content := ContentRace(Lookup(m, LegacyPages, resource), net, resource, networkFirst);
    if Lookup(m, LegacyLayout, ShellStartKey).Some? && content.Fulfilled? && content.value.Some? &&
       Lookup(m, LegacyLayout, ShellEndKey).Some? {
      JoinEmptyThree(m[LegacyLayout][ShellStartKey].body, content.value.value.body, m[LegacyLayout][ShellEndKey].body);
    }
  }

  /** A content miss in PAGES that settles before the network wins the race with
      `undefined`; reading its text throws, so the page comes from the network even
      when the network could have served the content. */
  lemma CacheMissFallsBackToNetwork(m: map<string, Partition>, request: Request, net: Network)
    requires Lookup(m, LegacyPages, PageContentKey(request.url.pathname)).None?
    ensures FullPageResult(m, request, net, false) == Fetch(net, request.url.href)
  {
    var resource := PageContentKey(request.url.pathname);
    ContentRaceNeverRejects(None, net, resource, false);
  }

  // ---------------------------------------------------------------- activation

  /** The activate handler: `precache.activate` (whose outcome is a parameter), then,
      only if it resolved, the sweep over this worker's own cache names. */
  method LegacyActivate(storage: CacheStorage, precacheActivated: bool) returns (deleted: seq<string>)
    requires storage.Valid()
    modifies storage
    ensures storage.Valid()
    ensures !precacheActivated ==> (deleted == [] && storage.order == old(storage.order) &&
      storage.partitions == old(storage.partitions))
    ensures precacheActivated ==> (deleted == InvalidNames(old(storage.order), LegacyValidCacheNames) &&
      storage.order == KeepValid(old(storage.order), LegacyValidCacheNames) &&
      storage.partitions == Swept(old(storage.partitions), LegacyValidCacheNames))
  {
    deleted := [];
    if precacheActivated {
      deleted := Sweep(storage, LegacyValidCacheNames);
    }
  }

  /** No legacy cache name is one of the current five, so the current worker's sweep
      keeps none of the caches this worker created. */
  lemma LegacyNamesSweptByCurrentWorker(names: seq<string>)
    requires forall i :: 0 <= i < |names| ==> names[i] in LegacyValidCacheNames
    ensures KeepValid(names, ValidCacheNames) == []
    ensures InvalidNames(names, ValidCacheNames) == names
  {
    ValidNamesVersioned();
    LegacyNamesUnversioned();
    KeepValidNone(names);
  }

  /** No name of the old worker carries the version prefix of the current worker. */
  lemma LegacyNamesUnversioned()
    ensures forall n :: n in LegacyValidCacheNames ==> |n| < 6 || n[..6] != "pw:v1:"
  {
    forall n | n in LegacyValidCacheNames
      ensures |n| < 6 || n[..6] != "pw:v1:"
    {
      assert n[3] != 'v';
    }
  }

  lemma {:induction false} KeepValidNone(names: seq<string>)
    requires forall i :: 0 <= i < |names| ==> names[i] !in ValidCacheNames
    ensures KeepValid(names, ValidCacheNames) == []
    ensures InvalidNames(names, ValidCacheNames) == names
  {
    if names != [] {
      KeepValidNone(names[..|names| - 1]);
    }
  }
}
