# Offline page serving for the boogie77 blog, in Dafny

This project models the offline layer of the blog's service worker and the build-time
helpers that choose the keys and manifests that layer relies on. It proves properties
of that model. Two workers are covered:

- **The modular worker** (`assets/sw/…`):
  - a registry of five versioned cache partitions and the activate-time sweep that deletes every other cache;
  - four routes, registered in a fixed order:
    - navigation: composes a page from two cached layout shells around the page's content fragment, with a network fallback;
    - page partials: stale-while-revalidate on PAGES;
    - static assets;
    - third-party assets: network-first on THIRD_PARTY_ASSETS;
  - a precache module with lazily created singletons and a fixed install and activate sequence.
- **The older single-file worker** (`assets/sw.js`): the same composition, but the page content comes from a "first fulfilled" race between a PAGES lookup and the network.

On the client and build side the project models:

- the content-partial path the page loader fetches, and its error alerts (`content-loader.js`);
- the `history2` navigation helper;
- the path helpers, memoised hashes and cache data of the content build (`tasks/content.js`);
- the revisioned-asset manifest (`tasks/asset-manifest.js`);
- the unhashed-name, chunk-name and leading-slash rules of the script build (`tasks/javascript.js`).

How things are represented:

| Source thing | Model |
|---|---|
| Browser Cache Storage | a class: the cache names in creation order, plus a map from name to partition |
| The network | an oracle: a map from URL to the response a fetch would give; a missing URL is a failed fetch |
| Workbox strategies | resolvers: a map from key to the response the strategy settles with; a missing key is a rejection |
| A promise | an `Outcome` that is fulfilled or rejected |
| Concurrent settlement | a given settle order |
| Node's POSIX `path` functions | functions that follow Node's scanning rules; the lemmas relate them to paths built from clean name segments |
| Rendering and digest functions, `config.json` values, the working directory | parameters |

Where the code and the design prose for this system disagree, the model follows the code:

- **Cache misses count as fulfilments.** A cache miss fulfils the race with `undefined` and can win it. The design prose says only successful results compete.
- **Fragment status is not checked.** A fragment's text is used whatever its HTTP status.
- **The analytics script is stored whatever its status.** The design prose says error statuses are never cached.
- **No version ledger.** The staleness ledger the design describes does not appear in the code. `cache-manifest.json` is written but never read, so no ledger is modelled.
- **A failed delete would end the sweep.** The code awaits each delete, so a rejected delete would end the sweep rather than be skipped. The model's delete never fails.
- **The modular navigation matcher ignores the request mode.** Its mode test is commented out.

## Model

| member | source | states |
|---|---|---|
| Caches.CacheNamesDistinct | assets/sw/caches.js:1-7 | the five partition names are pairwise distinct; the valid set holds exactly the partition names and has exactly five members |
| Caches.ValidNamesVersioned | assets/sw/caches.js:1-7 | every current partition name starts with the version prefix `pw:v1:` |
| Caches.KeepValidMembers | assets/sw/caches.js:12-16 | a name survives the sweep iff it existed before and is valid |
| Caches.InvalidNamesMembers | assets/sw/caches.js:12-15 | a name is deleted iff it existed before and is not valid |
| Caches.KeepValidDistinct | assets/sw/caches.js:10-16 | the surviving cache names still have no duplicates |
| Caches.SweepIdempotent | assets/sw/caches.js:12-16 | a second sweep with the same valid set deletes nothing and leaves names and contents as the first left them |
| Caches.SweptSpec | assets/sw/caches.js:10-16 | after the sweep the caches are a subset of those before and of the valid set; every valid cache that existed survives with unchanged contents |
| Caches.Opened | assets/sw/precache.js:11 | opening a cache adds it, empty, only when missing; every existing cache keeps its contents |
| Caches.OpenedOrder | assets/sw/precache.js:11 | opening a cache never removes a name and adds no name except the opened one |
| Caches.Lookup | assets/sw/precache.js:12 | a lookup finds an entry iff the cache exists and holds the key, and then yields the stored response |
| Caches.CacheStorage.constructor | assets/sw/caches.js:10 | Cache Storage starts as a previous version left it: distinct names, one partition per name |
| Caches.CacheStorage.Keys | assets/sw/caches.js:10 | `caches.keys()` reports the caches in creation order, without duplicates |
| Caches.CacheStorage.Open | assets/sw/precache.js:11 | an existing cache is left alone; a missing one is appended to the order and created empty |
| Caches.CacheStorage.Match | assets/sw/precache.js:12 | a match finds exactly the stored entry, or `undefined` when the cache or key is missing |
| Caches.CacheStorage.Put | assets/sw/precache.js:17 | a put replaces one entry wholesale and changes nothing else |
| Caches.CacheStorage.Delete | assets/sw/caches.js:14 | a delete removes exactly that cache and its name, and reports whether it existed |
| Caches.SweepVisit | assets/sw/caches.js:13-15 | one iteration deletes the visited name exactly when it is not valid, and leaves the names not yet visited in place |
| Caches.Sweep | assets/sw/caches.js:12-16 | the sweep deletes exactly the invalid names, one at a time, in the order `caches.keys()` gave them; the order keeps the valid names; the contents are the valid partitions, unchanged |
| Caches.DeleteUnusedCaches | assets/sw/caches.js:9-17 | the sweep over the five current partition names |
| LegacyWorker.FullPageMatcherSpec | assets/sw.js:42-47 | the matcher holds iff the mode is `navigate`, the host is the worker's, and the path is `/` or starts with `/about/` or `/articles/` (a prefix test) |
| LegacyWorker.FirstFulfilled | assets/sw.js:58-61 | there is a value iff some attempt fulfils, and it is the value of the first fulfilment in settle order |
| LegacyWorker.PromiseFirst | assets/sw.js:58-67 | the race fulfils iff some attempt fulfils, with the first fulfilment in settle order; if every attempt rejects it rejects with `No promises were fulfilled`; an empty list rejects with the reduce's `TypeError` |
| LegacyWorker.PromiseFirstSpec | assets/sw.js:58-65 | when the first `i` attempts reject and attempt `i` fulfils, the race settles with attempt `i` |
| LegacyWorker.EarlyRejectionDoesNotDecide | assets/sw.js:54-65 | unlike `Promise.race`, a rejection that settles first does not decide the race |
| LegacyWorker.GetResponseText | assets/sw.js:49-52 | the text is there iff a response arrived; a rejection passes through; `undefined` throws a `TypeError` |
| LegacyWorker.NetworkAttempt | assets/sw.js:75-88 | the network attempt fulfils iff the fetch gets a response, whatever its status |
| LegacyWorker.PageContentFromCacheOrNetwork | assets/sw.js:69-94 | the result is the race of the PAGES lookup (made before the put) against the fetch of `pathname + index.content.html`; PAGES is opened and gets the response only when it is ok |
| LegacyWorker.ContentRaceNeverRejects | assets/sw.js:71-93 | the race never rejects, because the cache attempt always fulfils; when the cache settles first, its possibly `undefined` result wins |
| LegacyWorker.OnlyOkResponsesCached | assets/sw.js:76-87 | PAGES receives the network response only when it is ok; otherwise PAGES is only opened; other caches are untouched |
| LegacyWorker.AllTexts | assets/sw.js:100-104 | `Promise.all` yields every text in array order iff every one fulfilled |
| LegacyWorker.FullPageHandler | assets/sw.js:97-114 | the handler settles with the composed page or the network fallback, and leaves LAYOUT and PAGES opened, with PAGES updated as the race writes it |
| LegacyWorker.ComposeTexts | assets/sw.js:100-113 | all three texts give a 200 `text/html; charset=utf-8` page of start, content and end joined with `''`; any failure gives `fetch(event.request)` |
| LegacyWorker.FullPageNeverPartial | assets/sw.js:99-113 | the result is the full start+content+end page, or exactly the network's answer to the original request; never a partial page |
| LegacyWorker.CacheMissFallsBackToNetwork | assets/sw.js:90-113 | a PAGES miss that settles first wins the race with `undefined`, its text throws, and the page comes from the network |
| LegacyWorker.LegacyActivate | assets/sw.js:175-196 | only after the precache activation resolves, the caches outside this worker's five names are swept; otherwise nothing changes |
| LegacyWorker.LegacyNamesSweptByCurrentWorker | assets/sw.js:14-20 | the current worker's sweep keeps none of this worker's caches and deletes all of them |
| LegacyWorker.LegacyNamesUnversioned | assets/sw.js:14-20 | no legacy cache name carries the current `pw:v1:` prefix |
| Patterns.SegmentRun | assets/sw/routes/navigation-route.js:19 | the greedy run of `[\w-]` characters is maximal: every character in it matches and the next one does not |
| Patterns.OptionalSegmentAnchored | assets/sw/routes/navigation-route.js:19 | the anchored group `([\w-]+\/)?$` consumes the remainder iff it is empty or one segment with one trailing slash |
| Patterns.FullPagePathSpec | assets/sw.js:45-46 | the unanchored full-page pattern is exactly `/` or a `/about/` or `/articles/` prefix |
| Patterns.NavigationPathSpec | assets/sw/routes/navigation-route.js:18-19 | the navigation pattern accepts exactly `/`, or `/about/` or `/articles/` followed by nothing or by one `[\w-]+/` segment |
| Patterns.NavigationPathIsFullPagePath | assets/sw/routes/navigation-route.js:18-19 | every navigation path is also accepted by the older full-page pattern |
| Patterns.NavigationPathAcceptsRoots | assets/sw/routes/navigation-route.js:18-19 | `/`, `/about/` and `/articles/` are navigation paths |
| Patterns.SegmentPathAccepted | assets/sw/routes/navigation-route.js:19 | a section plus one segment and its slash is accepted |
| Patterns.MissingSlashRejected | assets/sw/routes/navigation-route.js:19 | a segment without its trailing slash (`/articles/foo`) is rejected, though the unanchored pattern accepts it |
| Patterns.NestedSegmentsRejected | assets/sw/routes/navigation-route.js:19 | two nested segments (`/articles/foo/bar/`) are rejected, though the unanchored pattern accepts them |
| NavigationRoute.ContentKey | assets/sw/routes/navigation-route.js:35-36 | the content key is the pathname followed by `index.content.html` |
| NavigationRoute.FragmentKeys | assets/sw/routes/navigation-route.js:33-36 | there are exactly three fragment keys |
| NavigationRoute.NavigationHandler | assets/sw/routes/navigation-route.js:31-54 | the three handler calls give the composed page when all fragments resolve, otherwise `fetch(event.request)` |
| NavigationRoute.CreateNavigationRoute | assets/sw/routes/navigation-route.js:56-58 | the route pairs the navigation matcher with the composer |
| NavigationRoute.NavigationMatcherIgnoresMode | assets/sw/routes/navigation-route.js:15-20 | the matcher depends only on host and path; mode and method play no part, since the mode test is commented out |
| NavigationRoute.FragmentKeysSpec | assets/sw/routes/navigation-route.js:22-42 | the keys are `/shell-start.html`, the content key and `/shell-end.html`; the shells go through the LAYOUT cache-first handler and the content through the pages handler |
| NavigationRoute.NeverPartialPage | assets/sw/routes/navigation-route.js:38-53 | when all three fragments resolve, the body is start, content and end, in that order, as `text/html; charset=utf-8`; otherwise the result is exactly the network's answer to the original request |
| NavigationRoute.OfflineMissingFragmentRejects | assets/sw/routes/navigation-route.js:49-53 | offline, with the content fragment missing, the handler rejects rather than return half a page |
| PagePartialsRoute.CreatePagePartialsRoute | assets/sw/routes/page-partials-route.js:13-24 | every route created pairs the matcher with the one stale-while-revalidate handler bound to `pw:v1:pages` |
| PagePartialsRoute.PagePartialsMatcherSpec | assets/sw/routes/page-partials-route.js:8-11 | the matcher holds iff the host is the worker's and the path ends with `index.content.html`; URLs that agree on host and path are treated alike |
| ThirdPartyAssetsRoute.CreateThirdPartyAssetsRoute | assets/sw/routes/third-party-assets-route.js:10-16 | the route uses the network-first handler bound to `pw:v1:third-party-assets` |
| ThirdPartyAssetsRoute.ExtensionIsCaseSensitive | assets/sw/routes/third-party-assets-route.js:7 | `.js` and `.mp4` match at the end; `.JS` and `.js.map` do not |
| Precache.BroadcastUpdatePlugin.constructor | assets/sw/precache.js:24-26 | the plugin keeps the channel name and headers it is given |
| Precache.PrecacheController.constructor | assets/sw/precache.js:34 | a new controller is bound to its cache and has done nothing yet |
| Precache.PrecacheController.AddToCacheList | assets/sw/precache.js:41 | the entries are appended to the controller's list |
| Precache.PrecacheController.Install | assets/sw/precache.js:43 | install settles with the given outcome and counts only completed installs |
| Precache.PrecacheController.Activate | assets/sw/precache.js:49-51 | activate settles with the given outcome and records the plugin list only when it completes |
| Precache.PrecacheModule.constructor | assets/sw/precache.js:21-31 | neither singleton exists when the module is first evaluated |
| Precache.PrecacheModule.GetOrCreateBroadcastUpdatePlugin | assets/sw/precache.js:21-29 | at most one plugin (`api-updates`, `ETag`) is made, and the same one is returned on every later call |
| Precache.PrecacheModule.GetOrCreatePrecacheController | assets/sw/precache.js:31-37 | at most one controller is made, on LAYOUT, and the same instance is returned on every later call |
| Precache.PrecacheModule.PrecacheAnalyticsJs | assets/sw/precache.js:9-19 | with the analytics script already cached, nothing is fetched or changed; otherwise it is fetched and stored whatever its status, and the call rejects only when the fetch fails |
| Precache.PrecacheModule.Install | assets/sw/precache.js:39-45 | the manifest goes to the single LAYOUT controller, its install completes, and only then is analytics precached; the first failure ends the sequence before the analytics step |
| Precache.PrecacheModule.InstallController | assets/sw/precache.js:40-43 | the first half of install: the manifest is appended to the single controller's list and its install awaited |
| Precache.PrecacheModule.Activate | assets/sw/precache.js:47-52 | activate uses the same controller instance install used, or creates it with no activations when none exists yet (a worker restarted between install and activate); a successful activation appends exactly one activation with the single broadcast plugin, a failed one appends none |
| Precache.AnalyticsStoredWithoutStatusCheck | assets/sw/precache.js:14-18 | an absent analytics entry exists afterwards and holds the fetched response, whatever its status; a present one is left as it was; other caches are untouched |
| Precache.InstallStepsOrdered | assets/sw/precache.js:39-45 | the steps run in a fixed order: manifest hand-over, then controller install, then the analytics precache |
| Worker.MakeRoute | assets/sw/routes.js:7-12 | each factory yields the route with its own matcher |
| Worker.Router.constructor | assets/sw/sw.js:16 | a new router has no routes |
| Worker.Router.RegisterRoute | assets/sw/sw.js:18 | registering appends the route at the end |
| Worker.OnFetch | assets/sw/sw.js:21-26 | the event gets `respondWith` iff the router returned a promise, and then gets exactly that promise |
| Worker.ServiceWorker.constructor | assets/sw/sw.js:16-19 | routes are registered once each, in the order navigation, page partials, static assets, third party |
| Worker.ServiceWorker.OnInstall | assets/sw/sw.js:28-36 | `skipWaiting` is called only after `precache.install` resolved, and the install steps ran in order |
| Worker.ServiceWorker.OnActivate | assets/sw/sw.js:38-48 | the sweep runs only after `precache.activate` resolved; otherwise no cache changes |
| Worker.RouteOrder | assets/sw/routes.js:7-12 | there are four routes with pairwise different matchers, bound to the composer, PAGES and THIRD_PARTY_ASSETS handlers |
| Worker.ThirdPartyDisjoint | assets/sw/routes/third-party-assets-route.js:5-8 | a URL the third-party matcher accepts is never accepted by the navigation or page-partials matchers |
| Web.Fetch | assets/javascript/content-loader.js:42 | a fetch fulfils iff a response arrives, with that response whatever its status, and otherwise rejects with a `TypeError` |
| ContentLoader.ContentPartialOfDirectory | assets/javascript/content-loader.js:17-22 | a directory path maps to itself followed by `index.content.html` |
| ContentLoader.ContentPartialOfHtml | assets/javascript/content-loader.js:21 | only the final `.html` becomes `.content.html`; everything before it is kept |
| ContentLoader.ContentPartialOther | assets/javascript/content-loader.js:21 | a path ending in neither `/` nor `.html` is returned unchanged |
| ContentLoader.ContentPartialIsNavigationKey | assets/javascript/content-loader.js:17-22 | for a directory path, the client fetches exactly the key the worker's composer reads |
| ContentLoader.AlertFor | assets/javascript/content-loader.js:67-76 | the alert has the fixed title; a `TypeError` gets the connection hint, and any other error gets its own message |
| ContentLoader.NonOkMessageInjective | assets/javascript/content-loader.js:55-56 | the message `Response: (status) statusText` determines both the status and the status text |
| ContentLoader.FetchPage | assets/javascript/content-loader.js:33-80 | an ok response settles with its text and raises no alert; a non-ok response and a failed fetch each raise the matching alert and rethrow the same error |
| Content.GetTemplate | tasks/content.js:41-53 | a template path is always absolute |
| Content.GetOutputFile | tasks/content.js:56-62 | an output path is always absolute |
| Content.GetTemplateOfRoot | tasks/content.js:41-53 | `/` maps to `index.html` under the templates directory |
| Content.TemplateFileOfDirectory | tasks/content.js:46-47 | a directory `/…/d/` names the template file `/…/d.html` |
| Content.GetTemplateOfDirectory | tasks/content.js:41-53 | a directory `/…/d/` maps to `…/d.html` under the templates directory |
| Content.GetTemplateOfFile | tasks/content.js:41-53 | any other path maps to itself under the templates directory, even when it is absolute |
| Content.DirectoryIndexPath | tasks/content.js:57-59 | a directory path gets `index.html` appended |
| Content.FileIndexPath | tasks/content.js:57-59 | a file path is left as it is |
| Content.GetOutputFileOfDirectory | tasks/content.js:56-62 | a directory's output file is its `index.html` under the public directory |
| Content.GetOutputFileOfFile | tasks/content.js:56-62 | a file path is its own output file under the public directory |
| Content.GetPartialOutputFileOfHtml | tasks/content.js:65-69 | `…/stem.html` becomes `…/stem` plus the suffix, in the same directory |
| Content.GetPartialOutputFileOther | tasks/content.js:65-69 | an output file not ending in `.html` keeps its whole name before the suffix |
| Content.StripExtension | tasks/content.js:76-77 | the extension of `…/stem.x` is `.x`, and removing it leaves `stem` |
| Content.GetPartialPathOfFile | tasks/content.js:72-81 | `…/stem.x` becomes `…/stem` plus the suffix: the extension after the last dot is replaced |
| Content.GetPartialPathOfDirectory | tasks/content.js:72-81 | a directory `…/d/` becomes `…/d/index` plus the suffix |
| Content.PartialPathAgreesWithClientAndWorker | tasks/content.js:72-81 | with the `.content.html` suffix, the build's partial path for a directory page is the path the client fetches and the worker reads |
| Content.Hash | tasks/content.js:22-24 | the hash is the first ten characters of the digest: exactly ten when the digest has ten or more, the whole digest otherwise |
| Content.ShellHashComputedOnce | tasks/content.js:27-38 | once a truthy shell hash is stored, later calls return it whatever the templates' digest becomes |
| Content.PageKey | tasks/content.js:301 | an entry with a partial path is keyed by that path |
| Content.Entry.constructor | tasks/content.js:259 | a record loaded from `book.yaml` has none of the build's fields yet |
| Content.PagesMapKeys | tasks/content.js:300-302 | the keys of the pages map are exactly the entries' partial-path keys |
| Content.PagesMapLastWins | tasks/content.js:300-302 | under each key the pages map holds the hash of the last entry with that key, so a page overwrites an earlier article |
| Content.ContentTask.constructor | tasks/content.js:19-38 | the build starts with no book and empty memo caches; the helpers compute the path functions |
| Content.ContentTask.InitBook | tasks/content.js:258-279 | pages, resources and articles get their template and output fields in three loops; an entry listed twice keeps the fields of the last loop |
| Content.ContentTask.InitPages | tasks/content.js:261-265 | every page gets its template, output file and partial output file |
| Content.ContentTask.InitResources | tasks/content.js:267-270 | every resource gets its template and output file, and no partial output |
| Content.ContentTask.InitArticles | tasks/content.js:272-276 | every article gets the shared `article.html` template, its output file and its partial output file |
| Content.ContentTask.RenderArticleContentPartials | tasks/content.js:171-188 | every article gets rendered content, its partial path and the hash of that content; its file fields are unchanged |
| Content.ContentTask.RenderPageContentPartials | tasks/content.js:207-222 | every non-private page gets content, partial path and hash; a private page keeps none of them |
| Content.ContentTask.Render | tasks/content.js:282-286 | `initBook`, then the article partials, then the page partials; a public page that is also an article ends with its page rendering; a private page that is not an article keeps its content, partial path and hash, so it adds no rendered key |
| Content.ContentTask.HashShell | tasks/content.js:27-38 | the shell hash is computed and stored only while no truthy hash is stored |
| Content.ContentTask.GetCacheData | tasks/content.js:289-306 | the first call builds `layouts` with the single key `shell` plus the pages map, articles first and then pages; every later call returns the stored value |
| Content.ContentTask.Inline | tasks/content.js:101-120 | a file is read only while no truthy text is cached; a missing file throws in production, otherwise caches `''`, which makes the next use read again |
| AssetManifest.AddEntry | tasks/asset-manifest.js:39-47 | adding fails iff a truthy entry is present; otherwise it sets that one entry and no other entry changes |
| AssetManifest.AddEntryInsertOnce | tasks/asset-manifest.js:40-44 | after a truthy revision is added, adding the same name again fails and the first revision stays |
| AssetManifest.AddEntryEmptyRetried | tasks/asset-manifest.js:40-44 | an empty revision counts as absent, so a later registration replaces it |
| AssetManifest.AddEntryCommutes | tasks/asset-manifest.js:39-47 | adding two different names in either order gives the same dictionary |
| AssetManifest.ManifestStore.constructor | tasks/asset-manifest.js:6-7 | the dictionary is the loaded file, or `{}` when it cannot be read |
| AssetManifest.ManifestStore.GetManifest | tasks/asset-manifest.js:10 | returns the current dictionary |
| AssetManifest.ManifestStore.ResetManifest | tasks/asset-manifest.js:19-22 | the dictionary is left empty |
| AssetManifest.ManifestStore.GetAsset | tasks/asset-manifest.js:25-36 | returns the stored entry, or `undefined`; it throws only in production when no truthy entry exists; the dictionary never changes |
| AssetManifest.ManifestStore.AddAsset | tasks/asset-manifest.js:39-47 | rejects and leaves the dictionary unchanged when a truthy entry exists; otherwise sets exactly that entry |
| JavaScript.FindHash | tasks/javascript.js:58 | finds the first index where a separator and ten lower-case hex digits start, or reports that there is none |
| JavaScript.UnhashSpec | tasks/javascript.js:57-58 | a name without the pattern is unchanged; otherwise exactly the 11 characters of the first match are cut out |
| JavaScript.UnhashHashed | tasks/javascript.js:57-58 | `stem-0123456789rest` becomes `stem rest` when the stem has no separator; a later match stays |
| JavaScript.UnhashedNameOfEmitted | tasks/javascript.js:57-58 | an emitted `/dir/…/main-0123456789.js` is registered as `main.js` |
| JavaScript.RegisteredKeepsPresent | tasks/javascript.js:53-62 | the reduce never overwrites a truthy entry: the first registration wins |
| JavaScript.RegisteredCovers | tasks/javascript.js:53-62 | after the reduce, the unhashed name of every emitted file with a non-empty path is present |
| JavaScript.RegisteredKeys | tasks/javascript.js:53-62 | every new or changed key is the unhashed name of an emitted file, and maps to that file's path |
| JavaScript.Generate | tasks/javascript.js:53-62 | each file is registered through `addAsset` in order; the result is the shared manifest, or the seed when there are no files |
| JavaScript.ChunkName | tasks/javascript.js:36-43 | a truthy chunk name is kept; otherwise the name is the first ten characters of the digest of the module identifiers joined with `,` |
| JavaScript.Prefixed | tasks/javascript.js:198-200 | the entries keep their count and order, and each URL gets a leading `/` |
| JavaScript.PrefixedSpec | tasks/javascript.js:197-201 | every URL is `/` followed by the original URL, revisions are kept, and the transform is injective |
| JavaScript.PrefixLeadingSlash | tasks/javascript.js:197-201 | the in-place `forEach` leaves the array holding the prefixed entries |
| NodePath.Resolve | tasks/content.js:52 | `path.resolve` always gives an absolute path |
| NodePath.Basename | tasks/content.js:66 | `path.basename` never contains a slash |
| NodePath.Extname | tasks/content.js:76 | `path.extname` is empty or starts with a dot |
| NodePath.JoinClean | tasks/content.js:67-68 | `path.join` of two clean paths puts one slash between them; a leading slash on the second is absorbed |
| NodePath.ResolveAbsolute | tasks/content.js:52 | resolving a clean absolute path leaves it unchanged |
| NodePath.ResolveRelative | tasks/content.js:52 | resolving a clean relative path appends it to the working directory |
| NodePath.BasenameClean | tasks/content.js:66 | the base of a clean path is its last name |
| NodePath.DirnameClean | tasks/content.js:78 | the directory of a clean path is the path without its last name |
| NodePath.DirnameOfChild | tasks/content.js:68 | `dirname(pre + '/' + n)` is `pre` for a slash-free `n` |
| NodePath.ExtnameClean | tasks/content.js:76 | the extension of `…/stem.x` is the part from its last dot |
| NodePath.ExtnameNone | tasks/content.js:76 | a last name with no dot after its first character has no extension |
| NodePath.BasenameExtClean | tasks/content.js:66 | `basename(p, ext)` drops a trailing `ext` from the last name |
| NodePath.BasenameExtKeep | tasks/content.js:66 | `basename(p, ext)` keeps a last name that does not end in `ext` |
| History2.History2.constructor | _partials/scripts/history2.js:7 | the current record is the parsed page URL, no title or state is set, and `change` holds the registering method |
| History2.History2.Add | _partials/scripts/history2.js:22-46 | the current URL is a no-op; `pushState` is called exactly when not driven by popstate; for a different page a truthy title is set and `this.change` is called; `current` becomes the next record unless that call throws |
| History2.History2.Change | _partials/scripts/history2.js:48-50 | `change(cb)` calls whatever `this.change` holds: the original method stores `cb`, a registered callback is called with `cb`, and a stored record throws |
| History2.UnregisteredSecondPageChangeThrows | _partials/scripts/history2.js:39-45 | as written, two page changes with no registered callback: the second throws a `TypeError` |
| History2.SecondRegistrationCallsFirst | _partials/scripts/history2.js:48-50 | as written, a second `change(cb)` calls the first callback instead of replacing it |
| History2.FixedHistory2.constructor | _partials/scripts/history2.js:7 | the intended helper starts with no callback |
| History2.FixedHistory2.Add | _partials/scripts/history2.js:22-46 | `add` never throws; a new URL always becomes current; the callback fires exactly on a change of page or query, and a hash-only change does not fire it |
| History2.FixedHistory2.Change | _partials/scripts/history2.js:48-50 | `change(cb)` registers `cb`, replacing any earlier callback |
| History2.FixedPageChangesGoThrough | _partials/scripts/history2.js:39-50 | in the scenario that throws as written, the intended helper completes both page changes and the callback sees the second |

## Left out

- **Workbox internals.** The Router's matching loop, `CacheFirst`/`StaleWhileRevalidate`/`NetworkFirst`, the precache controller's revision bookkeeping and the broadcast-update plugin's messages are not shown. The strategies are resolvers. The controller and plugin are stand-ins that record what is asked of them.
- **The navigation route's pages handler.** `navigation-route.js` imports `pagePartialsHandler`, which `page-partials-route.js` does not export. As written, rollup refuses the missing named export and no worker bundle is produced; with a lenient bundler `pagePartialsHandler` is `undefined`, its `.handle` throws inside the composer's `try`, and every navigation falls back to `fetch(event.request)`. The composer's content lookup is therefore an abstract pages resolver, standing for the handler the import evidently intends.
- **The navigation route's own plugin.** The broadcast plugin its cache-first handler is given (`ETag` and `Content-Length`) is not modelled; plugins carry no behaviour here.
- **Modules not part of this model:** `assets/sw/routes/static-assets-route.js` (its route is known only by its matcher and handler kinds) and `assets/sw/utils.js` (`createFakeFetchEvent`).
- **`tasks/utils/assets` is not part of this model.** `tasks/javascript.js` imports `addAsset` and `getManifest` from it. The model assumes they behave as in `tasks/asset-manifest.js`.
- **Host APIs.** Cache Storage, `fetch` and `Response` are modelled as values: the network is an oracle, and a response is a snapshot of status, status text, body and content type. Headers other than the content type are left out, and so are `clone()` and the other event objects.
- **The legacy worker's fire-and-forget put.** The put in `getPageContentFromCacheOrNetwork` is modelled as done by the time the handler returns. The PAGES lookup reads the cache as it was before the race. Real interleavings and timing are left out; `networkFirst` fixes the settle order.
- **The legacy worker's install and fetch listeners and its router set-up.** They follow the same sequencing as the modular worker's, which is modelled in `Worker`.
- **Analytics initialisation in both workers.** It only calls workbox.
- **Page-loader side effects.** Analytics timing and events (`gaTest`, `Timer`), the DOM, the drawer, and the alerts module itself are left out. The model records only the alert `fetchPage` passes on.
- **Content rendering.** Markdown, nunjucks, minification and highlighting are parameters (`render`). So is the `md5`/`hash-files` digest. `article.markup`, the buildTime clock and the file writes of `buildArticles`, `buildPages`, `buildResources` and `buildCacheManifest` are left out. The model's renderer is total: in `renderArticleContentPartials` a missing `.md` file makes `fs.readFile` reject and the whole render with it (tasks/content.js:172-174), which is not modelled.
- **Configuration.** The `config.json` values and the working directory of `path.resolve` are parameters.
- **Node `path` lemmas cover only clean paths.** The lemmas about Node's `path` functions are proved for paths built from clean name segments, the shapes these helpers produce. The functions themselves follow Node's scanning code.
- **The `undefined` key of a private page.** The pages map keeps a private page's entry under the key `undefined` with no hash. Dropping undefined values when the JSON file is written is part of the file output, which is not modelled.
- **Inherited keys of plain objects.** The asset manifest, the `inline` cache and the pages map are plain JavaScript objects; the model treats them as maps of their own keys only. Inherited keys such as `constructor`, `toString` and `__proto__` are truthy in the source (so `addAsset('constructor', p)` rejects and `getAsset('toString')` returns a function), and this is not modelled.
- **The asset manifest's file I/O.** `saveManifest`'s write and the console warning of `getAsset` are left out.
- **`generate`'s unawaited rejection.** A rejection of the promise `addAsset` returns inside `generate` is never awaited. The model lets the reduce go on with the dictionary unchanged and drops the unhandled-rejection report.
- **Manifest entries are values.** The entries behind `PrefixLeadingSlash` are values in an array, so aliasing of the entry objects is not modelled.
- **Build tooling.** The webpack, rollup, babel and terser configuration of `tasks/javascript.js` is left out.
- **Parts of `history2` not modelled:**
  - its early return when the browser has no `pushState` (line 3);
  - the initial `replaceState` (line 11);
  - the `popstate` listener (lines 15-17), whose calls are `Add` with `popstate` set;
  - browser history itself;
  - `parseUrl`, which the file does not define and which is a parameter.

  History state is an optional string.

## Findings

| source | as written | input that shows it | evidently intended | confidence | as-written member | corrected member |
|---|---|---|---|---|---|---|
| _partials/scripts/history2.js:39-50 | `change` is both the registering method and the callback slot, and `if (this.change)` is always true. Without a registered callback, the first page change calls the registering method with the next record, which stores that record in `change`. The next page change then calls the record and throws a `TypeError`, leaving `current` stale. A second `change(cb2)` calls the first callback with `cb2` instead of replacing it | `add('/about/', 'About')` then `add('/articles/', 'Articles')` with no `change(cb)` call before them; or `change(1)` then `change(2)` | the callback has a slot of its own; `change(cb)` only fills it; `add` calls it only when one is registered, and never throws | not executed | History2.UnregisteredSecondPageChangeThrows | History2.FixedPageChangesGoThrough |
