/** The build step that renders pages and articles (tasks/content.js): where each page's
    template, output file and content partial live, the memoised shell hash and cache
    data written to `cache-manifest.json`, the `inline` template filter and its cache,
    and the rule that private pages get no content partial. */
module Content {
  import opened Wrappers
  import opened Strings
  import opened NodePath
  import ContentLoader
  import NavigationRoute

  /** The values of `config.json` the helpers read. */
  datatype Config = Config(templatesDir: string, publicDir: string, contentPartialsSuffix: string)

  // ---------------------------------------------------------------- path helpers

  /** The template file named by a page path: `/` is `index.html`, `p/` is `p.html`,
      anything else is itself. */
  function TemplateFile(pathname: string): string {
    if pathname == "/" then "index.html"
    else if EndsWith(pathname, "/") then pathname[..|pathname| - 1] + ".html"
    else pathname
  }

  /** `getTemplate(pathname)`, resolved against the working directory `cwd`. */
  function GetTemplate(cfg: Config, cwd: string, pathname: string): (r: string)
    ensures StartsWith(r, "/")
  {
    Resolve(cwd, JoinPaths([cfg.templatesDir, TemplateFile(pathname)]))
  }

  /** A directory path gets `index.html`; the local reassignment of `pathname` in
      `getOutputFile` and `getPartialPath`. */
  function IndexPath(pathname: string): string {
    if EndsWith(pathname, "/") then pathname + "index.html" else pathname
  }

  /** `getOutputFile(pathname)`, resolved against the working directory `cwd`. */
  function GetOutputFile(cfg: Config, cwd: string, pathname: string): (r: string)
    ensures StartsWith(r, "/")
  {
    Resolve(cwd, JoinPaths([cfg.publicDir, IndexPath(pathname)]))
  }

  /** `getPartialOutputFile(outputFile)` */
  function GetPartialOutputFile(cfg: Config, outputFile: string): string {
    JoinPaths([Dirname(outputFile), BasenameExt(outputFile, ".html") + cfg.contentPartialsSuffix])
  }

  /** `getPartialPath(pathname)` */
  function GetPartialPath(cfg: Config, pathname: string): string {
    var p := IndexPath(pathname);
    JoinPaths([Dirname(p), BasenameExt(p, Extname(p)) + cfg.contentPartialsSuffix])
  }

  /** The page path of a directory: `/`, or `/a/b/`. */
  function DirectoryPath(segs: seq<string>): (p: string)
    ensures EndsWith(p, "/")
  {
    if segs == [] then "/" else PathOf(true, segs) + "/"
  }

  /** A name after a directory path is the clean path one level down. */
  lemma DirectoryChild(segs: seq<string>, n: string)
    requires AllNames(segs) && IsName(n)
    ensures DirectoryPath(segs) + n == PathOf(true, segs + [n])
  {
    PathOfAppend(true, segs, n);
  }

  /** A single name is a relative path. */
  lemma SingleName(n: string)
    ensures PathOf(false, [n]) == n
  {
  }

  lemma HtmlName(n: string)
    requires IsName(n)
    ensures IsName(n + ".html") && IsName(n + "." + "html")
  {
    assert '/' !in ".html";
    assert n + "." + "html" == n + ".html";
  }

  /** `path.join(dir, f)` then `path.resolve` of clean relative `dir` and clean `f`
      under a clean working directory. */
  lemma ResolveJoin(cwd: seq<string>, d: seq<string>, leading: bool, f: seq<string>)
    requires AllNames(cwd) && AllNames(d) && d != [] && AllNames(f) && f != []
    ensures Resolve(PathOf(true, cwd), JoinPaths([PathOf(false, d), PathOf(leading, f)])) ==
      PathOf(true, cwd + (d + f))
  {
    assert JoinPaths([PathOf(false, d), PathOf(leading, f)]) == PathOf(false, d + f) by {
      JoinClean(false, d, leading, f);
    }
    assert Resolve(PathOf(true, cwd), PathOf(false, d + f)) == PathOf(true, cwd + (d + f)) by {
      NamesAppend(d, f);
      ResolveRelative(cwd, d + f);
    }
  }

  /** The site root's template is `index.html` in the templates directory. */
  lemma GetTemplateOfRoot(cwd: seq<string>, t: seq<string>, cfg: Config)
    requires AllNames(cwd) && AllNames(t) && t != [] && cfg.templatesDir == PathOf(false, t)
    ensures GetTemplate(cfg, PathOf(true, cwd), "/") == PathOf(true, cwd + (t + ["index.html"]))
  {
    assert TemplateFile("/") == PathOf(false, ["index.html"]) by { SingleName("index.html"); }
    ResolveJoin(cwd, t, false, ["index.html"]);
  }

  /** Without its final slash, a directory path other than the root is a clean path. */
  lemma DirectoryPathTrim(segs: seq<string>)
    requires AllNames(segs) && segs != []
    ensures var d := DirectoryPath(segs);
      d != "/" && d[..|d| - 1] == PathOf(true, segs)
  {
    PathOfShape(true, segs);
  }

  /** Text appended to a clean path lands on its last name. */
  lemma AppendToLastName(init: seq<string>, last: string, suffix: string)
    requires AllNames(init) && IsName(last) && IsName(last + suffix)
    ensures PathOf(true, init + [last]) + suffix == PathOf(true, init + [last + suffix])
  {
    if init == [] {
      AppendToRootName(last, suffix);
      assert init + [last] == [last] && init + [last + suffix] == [last + suffix];
    } else {
      AppendToInnerName(init, last, suffix);
    }
  }

  lemma AppendToRootName(last: string, suffix: string)
    requires IsName(last) && IsName(last + suffix)
    ensures PathOf(true, [last]) + suffix == PathOf(true, [last + suffix])
  {
    RootChild(last);
    RootChild(last + suffix);
    SlashAssoc("", last, suffix);
  }

  lemma AppendToInnerName(init: seq<string>, last: string, suffix: string)
    requires AllNames(init) && init != [] && IsName(last) && IsName(last + suffix)
    ensures PathOf(true, init + [last]) + suffix == PathOf(true, init + [last + suffix])
  {
    PathOfAppend(true, init, last);
    PathOfAppend(true, init, last + suffix);
    SlashAssoc(PathOf(true, init), last, suffix);
  }

  lemma SlashAssoc(q: string, last: string, suffix: string)
    ensures q + "/" + last + suffix == q + "/" + (last + suffix)
    ensures "/" + last + suffix == "/" + (last + suffix)
  {
  }

  /** The template file of a directory `/…/d/` is `/…/d.html`. */
  lemma TemplateFileOfDirectory(segs: seq<string>)
    requires AllNames(segs) && segs != []
    ensures var last := segs[|segs| - 1];
      TemplateFile(DirectoryPath(segs)) == PathOf(true, segs[..|segs| - 1] + [last + ".html"])
  {
    var init, last := segs[..|segs| - 1], segs[|segs| - 1];
    assert segs == init + [last];
    HtmlName(last);
    DirectoryPathTrim(segs);
    AppendToLastName(init, last, ".html");
  }

  /** A directory `/…/d/`'s template is `…/d.html` in the templates directory. */
  lemma GetTemplateOfDirectory(cwd: seq<string>, t: seq<string>, cfg: Config, segs: seq<string>)
    requires AllNames(cwd) && AllNames(t) && t != [] && cfg.templatesDir == PathOf(false, t)
    requires AllNames(segs) && segs != []
    ensures var last := segs[|segs| - 1];
      GetTemplate(cfg, PathOf(true, cwd), DirectoryPath(segs)) ==
        PathOf(true, cwd + (t + (segs[..|segs| - 1] + [last + ".html"])))
  {
    var init, last := segs[..|segs| - 1], segs[|segs| - 1];
    var f := init + [last + ".html"];
    TemplateFileOfDirectory(segs);
    assert AllNames(f) by {
      HtmlName(last);
      NamesAppend(init, [last + ".html"]);
    }
    ResolveJoin(cwd, t, true, f);
  }

  /** Any other path names its template file directly, below the templates directory;
      an absolute path does not escape it. */
  lemma GetTemplateOfFile(cwd: seq<string>, t: seq<string>, cfg: Config, leading: bool, segs: seq<string>)
    requires AllNames(cwd) && AllNames(t) && t != [] && cfg.templatesDir == PathOf(false, t)
    requires AllNames(segs) && segs != []
    ensures GetTemplate(cfg, PathOf(true, cwd), PathOf(leading, segs)) == PathOf(true, cwd + (t + segs))
  {
    var p := PathOf(leading, segs);
    assert TemplateFile(p) == p by { PathOfShape(leading, segs); }
    ResolveJoin(cwd, t, leading, segs);
  }

  lemma OutputFileParts(cfg: Config, cwd: string, pathname: string, q: string)
    requires IndexPath(pathname) == q
    ensures GetOutputFile(cfg, cwd, pathname) == Resolve(cwd, JoinPaths([cfg.publicDir, q]))
  {
  }

  /** A directory path names its `index.html`. */
  lemma DirectoryIndexPath(segs: seq<string>)
    requires AllNames(segs)
    ensures IndexPath(DirectoryPath(segs)) == PathOf(true, segs + ["index.html"])
    ensures AllNames(segs + ["index.html"])
  {
    DirectoryChild(segs, "index.html");
    NamesAppend(segs, ["index.html"]);
  }

  /** A clean file path names itself. */
  lemma FileIndexPath(segs: seq<string>)
    requires AllNames(segs) && segs != []
    ensures IndexPath(PathOf(true, segs)) == PathOf(true, segs)
  {
    PathOfShape(true, segs);
  }

  /** A directory's output file is its `index.html` in the public directory. */
  lemma GetOutputFileOfDirectory(cwd: seq<string>, pub: seq<string>, cfg: Config, segs: seq<string>)
    requires AllNames(cwd) && AllNames(pub) && pub != [] && cfg.publicDir == PathOf(false, pub)
    requires AllNames(segs)
    ensures GetOutputFile(cfg, PathOf(true, cwd), DirectoryPath(segs)) ==
      PathOf(true, cwd + (pub + (segs + ["index.html"])))
  {
    var f := segs + ["index.html"];
    DirectoryIndexPath(segs);
    OutputFileParts(cfg, PathOf(true, cwd), DirectoryPath(segs), PathOf(true, f));
    ResolveJoin(cwd, pub, true, f);
  }

  /** Any other path is its own output file, below the public directory. */
  lemma GetOutputFileOfFile(cwd: seq<string>, pub: seq<string>, cfg: Config, segs: seq<string>)
    requires AllNames(cwd) && AllNames(pub) && pub != [] && cfg.publicDir == PathOf(false, pub)
    requires AllNames(segs) && segs != []
    ensures GetOutputFile(cfg, PathOf(true, cwd), PathOf(true, segs)) == PathOf(true, cwd + (pub + segs))
  {
    FileIndexPath(segs);
    OutputFileParts(cfg, PathOf(true, cwd), PathOf(true, segs), PathOf(true, segs));
    ResolveJoin(cwd, pub, true, segs);
  }

  /** A name joined to a clean absolute directory. */
  lemma JoinName(a: seq<string>, m: string)
    requires AllNames(a) && IsName(m)
    ensures JoinPaths([PathOf(true, a), m]) == PathOf(true, a + [m])
  {
    SingleName(m);
    JoinClean(true, a, false, [m]);
  }

  lemma PartialOutputFileParts(cfg: Config, outputFile: string, dir: string, base: string)
    requires Dirname(outputFile) == dir && BasenameExt(outputFile, ".html") == base
    ensures GetPartialOutputFile(cfg, outputFile) == JoinPaths([dir, base + cfg.contentPartialsSuffix])
  {
  }

  /** The partial of an output file `…/stem.html` is `…/stem` plus the suffix, in the
      same directory. */
  lemma GetPartialOutputFileOfHtml(cfg: Config, a: seq<string>, stem: string)
    requires AllNames(a) && IsName(stem) && IsName(stem + cfg.contentPartialsSuffix)
    ensures GetPartialOutputFile(cfg, PathOf(true, a + [stem + ".html"])) ==
      PathOf(true, a + [stem + cfg.contentPartialsSuffix])
  {
    var o := PathOf(true, a + [stem + ".html"]);
    HtmlName(stem);
    DirnameClean(true, a, stem + ".html");
    BasenameExtClean(a, stem + ".html", stem, ".html");
    PartialOutputFileParts(cfg, o, PathOf(true, a), stem);
    JoinName(a, stem + cfg.contentPartialsSuffix);
  }

  /** An output file not ending in `.html` keeps its whole name before the suffix. */
  lemma GetPartialOutputFileOther(cfg: Config, a: seq<string>, n: string)
    requires AllNames(a) && IsName(n) && IsName(n + cfg.contentPartialsSuffix)
    requires !EndsWith(n, ".html")
    ensures GetPartialOutputFile(cfg, PathOf(true, a + [n])) == PathOf(true, a + [n + cfg.contentPartialsSuffix])
  {
    var o := PathOf(true, a + [n]);
    DirnameClean(true, a, n);
    assert '/' !in ".html";
    BasenameExtKeep(a, n, ".html");
    PartialOutputFileParts(cfg, o, PathOf(true, a), n);
    JoinName(a, n + cfg.contentPartialsSuffix);
  }

  lemma PartialPathParts(cfg: Config, pathname: string, dir: string, base: string)
    requires var p := IndexPath(pathname); Dirname(p) == dir && BasenameExt(p, Extname(p)) == base
    ensures GetPartialPath(cfg, pathname) == JoinPaths([dir, base + cfg.contentPartialsSuffix])
  {
  }

  /** The last name `stem.x` of a clean path loses its extension `.x`. */
  lemma StripExtension(a: seq<string>, stem: string, x: string)
    requires AllNames(a) && IsName(stem + "." + x) && stem != "" && '.' !in x
    ensures var p := PathOf(true, a + [stem + "." + x]);
      BasenameExt(p, Extname(p)) == stem
  {
    var n := stem + "." + x;
    BasenameClean(true, a, n);
    LastNameShorter(a, n);
    StripExtensionOfBase(PathOf(true, a + [n]), stem, x);
  }

  /** The partial of a file path `…/stem.x` is `…/stem` plus the suffix: the extension
      after the last dot is replaced. */
  lemma GetPartialPathOfFile(cfg: Config, a: seq<string>, stem: string, x: string)
    requires AllNames(a) && IsName(stem + "." + x) && stem != "" && '.' !in x
    requires IsName(stem + cfg.contentPartialsSuffix)
    ensures GetPartialPath(cfg, PathOf(true, a + [stem + "." + x])) ==
      PathOf(true, a + [stem + cfg.contentPartialsSuffix])
  {
    var n := stem + "." + x;
    NamesAppend(a, [n]);
    FileIndexPath(a + [n]);
    StemParts(a, stem, x);
    PartialPathParts(cfg, PathOf(true, a + [n]), PathOf(true, a), stem);
    JoinName(a, stem + cfg.contentPartialsSuffix);
  }

  /** A clean file path `…/stem.x` has the directory `…` and the extensionless base `stem`. */
  lemma StemParts(a: seq<string>, stem: string, x: string)
    requires AllNames(a) && IsName(stem + "." + x) && stem != "" && '.' !in x
    ensures var p := PathOf(true, a + [stem + "." + x]);
      Dirname(p) == PathOf(true, a) && BasenameExt(p, Extname(p)) == stem
  {
    StripExtension(a, stem, x);
    DirnameClean(true, a, stem + "." + x);
  }

  /** The partial of a directory `…/d/` is `…/d/index` plus the suffix. */
  lemma GetPartialPathOfDirectory(cfg: Config, segs: seq<string>)
    requires AllNames(segs) && IsName("index" + cfg.contentPartialsSuffix)
    ensures GetPartialPath(cfg, DirectoryPath(segs)) ==
      PathOf(true, segs + ["index" + cfg.contentPartialsSuffix])
  {
    DirectoryIndexPath(segs);
    IndexStemParts(segs);
    PartialPathParts(cfg, DirectoryPath(segs), PathOf(true, segs), "index");
    JoinName(segs, "index" + cfg.contentPartialsSuffix);
  }

  lemma IndexStemParts(segs: seq<string>)
    requires AllNames(segs)
    ensures var p := PathOf(true, segs + ["index.html"]);
      Dirname(p) == PathOf(true, segs) && BasenameExt(p, Extname(p)) == "index"
  {
    assert "index.html" == "index" + "." + "html";
    StemParts(segs, "index", "html");
  }

  /** With the `.content.html` suffix, the build writes each directory page's partial
      exactly where the client fetches it and the worker's composer reads it:
      `${pathname}index.content.html`. */
  lemma PartialPathAgreesWithClientAndWorker(cfg: Config, segs: seq<string>)
    requires AllNames(segs) && cfg.contentPartialsSuffix == ContentLoader.ContentSuffix
    ensures var d := DirectoryPath(segs);
      GetPartialPath(cfg, d) == ContentLoader.GetContentPartialPath(d) &&
      GetPartialPath(cfg, d) == NavigationRoute.ContentKey(d)
  {
    var d := DirectoryPath(segs);
    assert "index" + cfg.contentPartialsSuffix == "index.content.html";
    GetPartialPathOfDirectory(cfg, segs);
    DirectoryChild(segs, "index.content.html");
    ContentLoader.ContentPartialOfDirectory(d);
  }

  // ---------------------------------------------------------------- build state

  /** `hash(data)`: the first ten hex digits of the MD5 digest, the digest given as `md5`. */
  function Hash(md5: string -> string, data: string): (h: string)
    ensures |h| == if |md5(data)| < 10 then |md5(data)| else 10
    ensures h == md5(data)[..|h|]
  {
    Take(md5(data), 10)
  }

  /** What `hashShell` settles with: the stored hash while it is truthy, otherwise the
      first ten characters of the digest of the shell templates. */
  function ShellHash(stored: Option<string>, digest: string): string {
    if Truthy(stored) then stored.value else Take(digest, 10)
  }

  /** Once `hashShell` has stored a truthy hash, later calls return it whatever the
      digest of the templates has become. */
  lemma ShellHashComputedOnce(stored: Option<string>, digest: string, later: string)
    requires Truthy(Some(ShellHash(stored, digest)))
    ensures ShellHash(Some(ShellHash(stored, digest)), later) == ShellHash(stored, digest)
  {
  }

  /** The key `cacheData.pages[page.partialPath]` uses: the partial path, or the text
      `undefined` for an entry that has none (a private page). */
  function PageKey(partialPath: Option<string>): (k: string)
    ensures partialPath.Some? ==> k == partialPath.value
  {
    if partialPath.Some? then partialPath.value else "undefined"
  }

  /** A page or article record of `book.yaml`, whose fields the build fills in. */
  class Entry {
    const path: string
    /** `page.private`; absent, so falsy, on articles and resources. */
    const isPrivate: bool
    var template: Option<string>
    var output: Option<string>
    var partialOutput: Option<string>
    var content: Option<string>
    var partialPath: Option<string>
    var hash: Option<string>

    constructor (path: string, isPrivate: bool)
      ensures this.path == path && this.isPrivate == isPrivate
      ensures template == None && output == None && partialOutput == None
      ensures content == None && partialPath == None && hash == None
    {
      this.path := path;
      this.isPrivate := isPrivate;
      template, output, partialOutput := None, None, None;
      content, partialPath, hash := None, None, None;
    }
  }

  /** The `pages` map of the cache data after the loop over `entries`: each entry in
      turn writes its hash under its partial path. */
  function PagesMap(entries: seq<Entry>): map<string, Option<string>>
    reads set e | e in entries
  {
    if entries == [] then map[]
    else
      var last := entries[|entries| - 1];
      PagesMap(entries[..|entries| - 1])[PageKey(last.partialPath) := last.hash]
  }

  /** The keys of the `pages` map are the keys of the entries. */
  lemma {:induction false} PagesMapKeys(entries: seq<Entry>, k: string)
    ensures k in PagesMap(entries) <==> exists i :: 0 <= i < |entries| && PageKey(entries[i].partialPath) == k
  {
    if entries != [] {
      var init := entries[..|entries| - 1];
      PagesMapKeys(init, k);
      if k in PagesMap(init) {
        var i :| 0 <= i < |init| && PageKey(init[i].partialPath) == k;
        assert entries[i] == init[i];
      }
      forall i | 0 <= i < |init|
        ensures entries[i] == init[i]
      {
      }
    }
  }

  /** Under each key the `pages` map holds the hash of the LAST entry with that key:
      a later page overwrites an earlier article or page with the same partial path. */
  lemma {:induction false} PagesMapLastWins(entries: seq<Entry>, i: nat)
    requires i < |entries|
    requires forall j :: i < j < |entries| ==> PageKey(entries[j].partialPath) != PageKey(entries[i].partialPath)
    ensures PageKey(entries[i].partialPath) in PagesMap(entries)
    ensures PagesMap(entries)[PageKey(entries[i].partialPath)] == entries[i].hash
  {
    var n := |entries|;
    if i < n - 1 {
      var init := entries[..n - 1];
      assert init[i] == entries[i];
      forall j | i < j < |init|
        ensures PageKey(init[j].partialPath) != PageKey(init[i].partialPath)
      {
        assert init[j] == entries[j];
      }
      PagesMapLastWins(init, i);
    }
  }

  /** The objects of a list of entries. */
  function Entries(es: seq<Entry>): set<Entry> {
    set e | e in es
  }

  /** The memoised `cacheData`: the shell hash under `shell`, and the pages map. */
  datatype CacheData = CacheData(layouts: map<string, string>, pages: map<string, Option<string>>)

  /** The module-level state of the content build: the loaded book, and the closures'
      caches of `hashShell`, `inline` and `getCacheData`. `cwd` is the working directory
      `path.resolve` uses. */
  class ContentTask {
    const cfg: Config
    const cwd: string
    /** The module's path helpers, as the values the names `getTemplate`,
        `getOutputFile`, `getPartialOutputFile` and `getPartialPath` are bound to. */
    const getTemplate: string -> string
    const getOutputFile: string -> string
    const getPartialOutputFile: string -> string
    const getPartialPath: string -> string
    var pages: seq<Entry>
    var resources: seq<Entry>
    var articles: seq<Entry>
    var shellTemplateHash: Option<string>
    var inlineCache: map<string, string>
    var cacheData: Option<CacheData>

    constructor (cfg: Config, cwd: string)
      ensures this.cfg == cfg && this.cwd == cwd && Helpers()
      ensures pages == [] && resources == [] && articles == []
      ensures shellTemplateHash == None && inlineCache == map[] && cacheData == None
    {
      this.cfg, this.cwd := cfg, cwd;
      getTemplate := p => GetTemplate(cfg, cwd, p);
      getOutputFile := p => GetOutputFile(cfg, cwd, p);
      getPartialOutputFile := p => GetPartialOutputFile(cfg, p);
      getPartialPath := p => GetPartialPath(cfg, p);
      pages, resources, articles := [], [], [];
      shellTemplateHash, inlineCache, cacheData := None, map[], None;
    }

    /** The helpers compute what the path functions of this module define. */
    ghost predicate Helpers() {
      (forall p :: getTemplate(p) == GetTemplate(cfg, cwd, p)) &&
      (forall p :: getOutputFile(p) == GetOutputFile(cfg, cwd, p)) &&
      (forall p :: getPartialOutputFile(p) == GetPartialOutputFile(cfg, p)) &&
      (forall p :: getPartialPath(p) == GetPartialPath(cfg, p))
    }

    /** The file fields `initBook` gives a page. */
    predicate PageFiles(e: Entry)
      reads e
    {
      e.template == Some(getTemplate(e.path)) &&
      e.output == Some(getOutputFile(e.path)) &&
      e.partialOutput == Some(getPartialOutputFile(getOutputFile(e.path)))
    }

    /** The file fields `initBook` gives a resource. */
    predicate ResourceFiles(e: Entry)
      reads e
    {
      e.template == Some(getTemplate(e.path)) &&
      e.output == Some(getOutputFile(e.path))
    }

    /** The file fields `initBook` gives an article: every article shares the
        `article.html` template. */
    predicate ArticleFiles(e: Entry)
      reads e
    {
      e.template == Some(getTemplate("article.html")) &&
      e.output == Some(getOutputFile(e.path)) &&
      e.partialOutput == Some(getPartialOutputFile(getOutputFile(e.path)))
    }

    /** The fields a render of the content partial gives an entry: the rendered text,
        the partial path and the hash of the text. */
    predicate Rendered(e: Entry, render: string -> string, md5: string -> string)
      reads e
    {
      e.content == Some(render(e.path)) &&
      e.partialPath == Some(getPartialPath(e.path)) &&
      e.hash == Some(Hash(md5, render(e.path)))
    }

    /** `initBook`, given the lists `book.yaml` loads: the three loops in order, so an
        entry listed twice keeps the fields of the last loop that saw it. */
    method InitBook(pages: seq<Entry>, resources: seq<Entry>, articles: seq<Entry>)
      modifies this`pages, this`resources, this`articles
      modifies Entries(pages + resources + articles)`template
      modifies Entries(pages + resources + articles)`output
      modifies Entries(pages + resources + articles)`partialOutput
      ensures this.pages == pages && this.resources == resources && this.articles == articles
      ensures forall a :: a in articles ==> ArticleFiles(a)
      ensures forall r :: r in resources && r !in articles ==> ResourceFiles(r)
      ensures forall p :: p in pages && p !in resources && p !in articles ==> PageFiles(p)
    {
      this.pages, this.resources, this.articles := pages, resources, articles;
      InitPages(pages);
      InitResources(resources);
      InitArticles(articles);
    }

    /** The first loop of `initBook`. */
    method InitPages(es: seq<Entry>)
      modifies Entries(es)`template, Entries(es)`output, Entries(es)`partialOutput
      ensures forall e :: e in es ==> PageFiles(e)
    {
      for i := 0 to |es|
        invariant forall j :: 0 <= j < i ==> PageFiles(es[j])
      {
        var page := es[i];
        page.template := Some(getTemplate(page.path));
        page.output := Some(getOutputFile(page.path));
        page.partialOutput := Some(getPartialOutputFile(page.output.value));
      }
    }

    /** The second loop of `initBook`: a resource gets no partial output. */
    method InitResources(es: seq<Entry>)
      modifies Entries(es)`template, Entries(es)`output
      ensures forall e :: e in es ==> ResourceFiles(e)
    {
      for i := 0 to |es|
        invariant forall j :: 0 <= j < i ==> ResourceFiles(es[j])
      {
        var resource := es[i];
        resource.template := Some(getTemplate(resource.path));
        resource.output := Some(getOutputFile(resource.path));
      }
    }

    /** The third loop of `initBook`. */
    method InitArticles(es: seq<Entry>)
      modifies Entries(es)`template, Entries(es)`output, Entries(es)`partialOutput
      ensures forall e :: e in es ==> ArticleFiles(e)
    {
      for i := 0 to |es|
        invariant forall j :: 0 <= j < i ==> ArticleFiles(es[j])
      {
        var article := es[i];
        article.template := Some(getTemplate("article.html"));
        article.output := Some(getOutputFile(article.path));
        article.partialOutput := Some(getPartialOutputFile(article.output.value));
      }
    }

    /** `renderArticleContentPartials`: every article gets its rendered partial, its
        partial path and the hash of the partial. `render` stands for the markdown and
        template rendering of the article at a path. */
    method RenderArticleContentPartials(render: string -> string, md5: string -> string)
      modifies set a | a in articles
      ensures forall a :: a in articles ==> Rendered(a, render, md5)
      ensures forall a :: a in articles ==>
        a.template == old(a.template) && a.output == old(a.output) && a.partialOutput == old(a.partialOutput)
    {
      for i := 0 to |articles|
        invariant forall j :: 0 <= j < i ==> Rendered(articles[j], render, md5)
        invariant forall a :: a in articles ==>
          a.template == old(a.template) && a.output == old(a.output) && a.partialOutput == old(a.partialOutput)
      {
        var article := articles[i];
        article.content := Some(render(article.path));
        article.partialPath := Some(getPartialPath(article.path));
        article.hash := Some(Hash(md5, article.content.value));
        assert Rendered(article, render, md5);
      }
    }

    /** `renderPageContentPartials`: every page that is not private gets its rendered
        partial, partial path and hash; a private page is left as it was. */
    method RenderPageContentPartials(render: string -> string, md5: string -> string)
      modifies set p | p in pages
      ensures forall p :: p in pages && !p.isPrivate ==> Rendered(p, render, md5)
      ensures forall p :: p in pages && p.isPrivate ==>
        p.content == old(p.content) && p.partialPath == old(p.partialPath) && p.hash == old(p.hash)
      ensures forall p :: p in pages ==>
        p.template == old(p.template) && p.output == old(p.output) && p.partialOutput == old(p.partialOutput)
    {
      for i := 0 to |pages|
        invariant forall j :: 0 <= j < i && !pages[j].isPrivate ==> Rendered(pages[j], render, md5)
        invariant forall p :: p in pages && p.isPrivate ==>
          p.content == old(p.content) && p.partialPath == old(p.partialPath) && p.hash == old(p.hash)
        invariant forall p :: p in pages ==>
          p.template == old(p.template) && p.output == old(p.output) && p.partialOutput == old(p.partialOutput)
      {
        var page := pages[i];
        if !page.isPrivate {
          page.content := Some(render(page.path));
          page.partialPath := Some(getPartialPath(page.path));
          page.hash := Some(Hash(md5, page.content.value));
          assert Rendered(page, render, md5);
        }
      }
    }

    /** `render()`: `initBook`, then the article partials, then the page partials. A
        page that is also listed as an article is rendered again as a page. */
    method Render(pages: seq<Entry>, resources: seq<Entry>, articles: seq<Entry>,
                  renderArticle: string -> string, renderPage: string -> string, md5: string -> string)
      modifies this`pages, this`resources, this`articles, Entries(pages + resources + articles)
      ensures this.pages == pages && this.resources == resources && this.articles == articles
      ensures forall a :: a in articles ==> ArticleFiles(a)
      ensures forall r :: r in resources && r !in articles ==> ResourceFiles(r)
      ensures forall p :: p in pages && p !in resources && p !in articles ==> PageFiles(p)
      ensures forall a :: a in articles && (a !in pages || a.isPrivate) ==> Rendered(a, renderArticle, md5)
      ensures forall p :: p in pages && !p.isPrivate ==> Rendered(p, renderPage, md5)
      ensures forall p :: p in pages && p.isPrivate && p !in articles ==>
        p.content == old(p.content) && p.partialPath == old(p.partialPath) && p.hash == old(p.hash)
    {
      InitBook(pages, resources, articles);
      RenderArticleContentPartials(renderArticle, md5);
      RenderPageContentPartials(renderPage, md5);
    }

    /** `hashShell()`, given the digest `hash-files` would compute: computed and stored
        only while no truthy hash is stored. */
    method HashShell(digest: string) returns (h: string)
      modifies this`shellTemplateHash
      ensures h == ShellHash(old(shellTemplateHash), digest)
      ensures shellTemplateHash == if Truthy(old(shellTemplateHash)) then old(shellTemplateHash) else Some(h)
    {
      if Truthy(shellTemplateHash) {
        h := shellTemplateHash.value;
      } else {
        h := Take(digest, 10);
        shellTemplateHash := Some(h);
      }
    }

    /** `getCacheData()`: built once, on the first call, from the shell hash and the
        partial paths and hashes of the articles and then the pages; every later call
        returns the stored value. */
    method GetCacheData(shellDigest: string) returns (data: CacheData)
      modifies this`shellTemplateHash, this`cacheData
      ensures old(cacheData).Some? ==>
        data == old(cacheData).value && cacheData == old(cacheData) &&
        shellTemplateHash == old(shellTemplateHash)
      ensures old(cacheData).None? ==>
        data == CacheData(map["shell" := ShellHash(old(shellTemplateHash), shellDigest)],
                          PagesMap(articles + pages)) &&
        cacheData == Some(data)
    {
      if cacheData.None? {
        var shell := HashShell(shellDigest);
        var all := articles + pages;
        var m: map<string, Option<string>> := map[];
        for i := 0 to |all|
          invariant m == PagesMap(all[..i])
        {
          assert all[..i + 1][..i] == all[..i];
          m := m[PageKey(all[i].partialPath) := all[i].hash];
        }
        assert all[..|all|] == all;
        cacheData := Some(CacheData(map["shell" := shell], m));
      }
      data := cacheData.value;
    }

    /** The `inline` filter's cached text for a file, if any. */
    function Cached(filepath: string): Option<string>
      reads this
    {
      if filepath in inlineCache then Some(inlineCache[filepath]) else None
    }

    /** `inline(filepath)` with the public directory's files given as `files`: reads the
        file (`read`) only while no truthy text is cached for it. A missing file is an
        error in production; otherwise `''` is cached, which is falsy, so the file is
        read again on the next use. */
    method Inline(filepath: string, files: map<string, string>, production: bool)
      returns (r: Outcome<string>, read: bool)
      modifies this`inlineCache
      ensures read <==> !Truthy(old(Cached(filepath)))
      ensures !read ==> r == Fulfilled(old(inlineCache)[filepath]) && inlineCache == old(inlineCache)
      ensures var full := JoinPaths([cfg.publicDir, filepath]);
        read && full in files ==>
          r == Fulfilled(files[full]) && inlineCache == old(inlineCache)[filepath := files[full]]
      ensures var full := JoinPaths([cfg.publicDir, filepath]);
        read && full !in files && production ==>
          r == Rejected(NoSuchFile(full)) && inlineCache == old(inlineCache)
      ensures var full := JoinPaths([cfg.publicDir, filepath]);
        read && full !in files && !production ==>
          r == Fulfilled("") && inlineCache == old(inlineCache)[filepath := ""] && !Truthy(Cached(filepath))
    {
      read := !Truthy(Cached(filepath));
      if read {
        var full := JoinPaths([cfg.publicDir, filepath]);
        if full in files {
          inlineCache := inlineCache[filepath := files[full]];
        } else if production {
          r := Rejected(NoSuchFile(full));
          return;
        } else {
          inlineCache := inlineCache[filepath := ""];
        }
      }
      r := Fulfilled(inlineCache[filepath]);
    }
  }

  /** The error `fs.readFileSync` throws for a missing file. */
  function NoSuchFile(p: string): JsError {
    Error("ENOENT: no such file or directory, open '" + p + "'")
  }
}
