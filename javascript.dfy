/** The naming and manifest logic of the script build (tasks/javascript.js): the
    unhashed name an emitted file is registered under, the manifest `generate` reduce,
    the naming rule for chunks, and the leading-slash transform of the precache
    manifest. */
module JavaScript {
  import opened Wrappers
  import opened Strings
  import opened Web
  import NodePath
  import opened AssetManifest

  // ---------------------------------------------------------------- unhashed names

  predicate IsSeparator(c: char) {
    c == '_' || c == '.' || c == '-'
  }

  /** The regular expression `[_\.\-][0-9a-f]{10}` matches `s` at index `i`. */
  predicate HashAt(s: string, i: nat) {
    i + 11 <= |s| && IsSeparator(s[i]) && forall k :: i < k <= i + 10 ==> IsLowerHex(s[k])
  }

  /** The first index at or after `from` where the pattern matches, as the regular
      expression search finds it. */
  function FindHash(s: string, from: nat): (r: Option<nat>)
    ensures r.Some? ==> from <= r.value && HashAt(s, r.value)
    ensures r.Some? ==> forall j :: from <= j < r.value ==> !HashAt(s, j)
    ensures r.None? ==> forall j :: from <= j ==> !HashAt(s, j)
    decreases |s| - from
  {
    if from + 11 > |s| then None
    else if HashAt(s, from) then Some(from)
    else FindHash(s, from + 1)
  }

  /** `basename.replace(/[_\.\-][0-9a-f]{10}/, '')`: the first match, if any, is removed. */
  function Unhash(b: string): string {
    match FindHash(b, 0)
    case None => b
    case Some(i) => b[..i] + b[i + 11..]
  }

  /** The name an emitted file is registered under: its basename, unhashed. */
  function UnhashedName(emittedPath: string): string {
    Unhash(NodePath.Basename(emittedPath))
  }

  /** A name without the pattern is kept; otherwise exactly the 11 characters of its
      first match are cut out, and what precedes the match holds no match. */
  lemma UnhashSpec(b: string)
    ensures (forall j: nat :: !HashAt(b, j)) ==> Unhash(b) == b
    ensures (exists j: nat :: HashAt(b, j)) ==>
      exists i: nat :: HashAt(b, i) && (forall j: nat :: j < i ==> !HashAt(b, j)) && Unhash(b) == b[..i] + b[i + 11..]
  {
    var r := FindHash(b, 0);
    if r.Some? {
      var i := r.value;
      assert HashAt(b, i) && (forall j: nat :: j < i ==> !HashAt(b, j)) && Unhash(b) == b[..i] + b[i + 11..];
    }
  }

  /** A hashed file name `stem` + separator + ten hex digits + `rest`, whose stem holds no
      separator, is registered under `stem + rest`: `main-0123456789.js` under `main.js`.
      Only that first match goes; a further match inside `rest` stays. */
  lemma UnhashHashed(stem: string, sep: char, digits: string, rest: string)
    requires forall k :: 0 <= k < |stem| ==> !IsSeparator(stem[k])
    requires IsSeparator(sep) && |digits| == 10
    requires forall k :: 0 <= k < 10 ==> IsLowerHex(digits[k])
    ensures Unhash(stem + [sep] + digits + rest) == stem + rest
  {
    var b := stem + [sep] + digits + rest;
    assert forall k :: |stem| < k <= |stem| + 10 ==> b[k] == digits[k - |stem| - 1];
    assert HashAt(b, |stem|);
    assert forall j: nat :: j < |stem| ==> !HashAt(b, j) by {
      forall j: nat | j < |stem| ensures !IsSeparator(b[j]) { assert b[j] == stem[j]; }
    }
    assert FindHash(b, 0) == Some(|stem|);
    assert b[..|stem|] == stem;
    assert b[|stem| + 11..] == rest;
  }

  /** An emitted file `/dir/.../main-0123456789.js` is registered under `main.js`. */
  lemma UnhashedNameOfEmitted(dirs: seq<string>, stem: string, sep: char, digits: string, rest: string)
    requires NodePath.AllNames(dirs) && NodePath.IsName(stem + [sep] + digits + rest)
    requires forall k :: 0 <= k < |stem| ==> !IsSeparator(stem[k])
    requires IsSeparator(sep) && |digits| == 10
    requires forall k :: 0 <= k < 10 ==> IsLowerHex(digits[k])
    ensures UnhashedName(NodePath.PathOf(true, dirs + [stem + [sep] + digits + rest])) == stem + rest
  {
    NodePath.BasenameClean(true, dirs, stem + [sep] + digits + rest);
    UnhashHashed(stem, sep, digits, rest);
  }

  // ---------------------------------------------------------------- the generate reduce

  /** One step of the reduce: `addAsset(unhashedName, opts.path)`. A rejection of the
      promise it returns is never awaited, so it leaves the dictionary as it was and the
      reduce goes on. */
  function RegisterStep(m: Manifest, emittedPath: string): Manifest {
    var r := AddEntry(m, UnhashedName(emittedPath), emittedPath);
    if r.Fulfilled? then r.value else m
  }

  /** The dictionary after registering `files` in order. */
  function Registered(m: Manifest, files: seq<string>): Manifest
    decreases |files|
  {
    if files == [] then m
    else RegisterStep(Registered(m, files[..|files| - 1]), files[|files| - 1])
  }

  /** Registration never overwrites a present entry: the first registration wins. */
  lemma {:induction false} RegisteredKeepsPresent(m: Manifest, files: seq<string>, k: string)
    requires Present(m, k)
    ensures Present(Registered(m, files), k) && Registered(m, files)[k] == m[k]
    decreases |files|
  {
    if files != [] {
      RegisteredKeepsPresent(m, files[..|files| - 1], k);
    }
  }

  /** After the reduce, the unhashed name of every emitted file with a non-empty path is
      present. */
  lemma {:induction false} RegisteredCovers(m: Manifest, files: seq<string>, i: nat)
    requires i < |files| && files[i] != ""
    ensures Present(Registered(m, files), UnhashedName(files[i]))
    decreases |files|
  {
    var init := files[..|files| - 1];
    var before := Registered(m, init);
    if i == |files| - 1 {
      var r := AddEntry(before, UnhashedName(files[i]), files[i]);
    } else {
      assert init[i] == files[i];
      RegisteredCovers(m, init, i);
      RegisteredKeepsPresent(before, [files[|files| - 1]], UnhashedName(files[i]));
      assert [files[|files| - 1]][..0] == [];
    }
  }

  /** Every key of the result was already a key, or is the unhashed name of an emitted
      file, registered to one of the emitted paths. */
  lemma {:induction false} RegisteredKeys(m: Manifest, files: seq<string>, k: string)
    requires k in Registered(m, files)
    ensures k in m || exists i :: 0 <= i < |files| && k == UnhashedName(files[i])
    ensures k !in m || Registered(m, files)[k] != m[k] ==>
      exists i :: 0 <= i < |files| && k == UnhashedName(files[i]) && Registered(m, files)[k] == files[i]
    decreases |files|
  {
    if files != [] {
      var init := files[..|files| - 1];
      var last := files[|files| - 1];
      var before := Registered(m, init);
      forall i | 0 <= i < |init| ensures init[i] == files[i] { }
      if k in before && before[k] == Registered(m, files)[k] {
        RegisteredKeys(m, init, k);
      } else {
        assert k == UnhashedName(last) && Registered(m, files)[k] == last;
      }
    }
  }

  /** `generate(seed, files)` with paths `files` in emission order: every file is
      registered through `addAsset`, and the reduce returns `getManifest()` after the last
      step, or the seed when there are no files. */
  method Generate(store: ManifestStore, seed: Manifest, files: seq<string>) returns (result: Manifest)
    modifies store
    ensures store.manifest == Registered(old(store.manifest), files)
    ensures result == if files == [] then seed else store.manifest
  {
    result := seed;
    for i := 0 to |files|
      invariant store.manifest == Registered(old(store.manifest), files[..i])
      invariant i == 0 ==> result == seed
      invariant i > 0 ==> result == store.manifest
    {
      assert files[..i + 1][..i] == files[..i] && files[..i + 1][i] == files[i];
      assert Registered(old(store.manifest), files[..i + 1]) ==
        RegisterStep(Registered(old(store.manifest), files[..i]), files[i]);
      ghost var before := store.manifest;
      var unhashedName := UnhashedName(files[i]);
      var _ := store.AddAsset(unhashedName, files[i]);
      assert store.manifest == RegisterStep(before, files[i]);
      result := store.GetManifest();
    }
    assert files[..|files|] == files;
  }

  // ---------------------------------------------------------------- chunk names

  /** The name `NamedChunksPlugin` gives a chunk: its own name when truthy, otherwise the
      first ten characters of the digest of its module identifiers joined with `,`. */
  function ChunkName(name: Option<string>, moduleIds: seq<string>, md5: string -> string): (r: string)
    ensures Truthy(name) ==> r == name.value
    ensures !Truthy(name) ==> |r| <= 10 && |r| <= |md5(Join(moduleIds, ","))| && r == md5(Join(moduleIds, ","))[..|r|]
    ensures !Truthy(name) && |md5(Join(moduleIds, ","))| >= 10 ==> |r| == 10
  {
    if Truthy(name) then name.value else Take(md5(Join(moduleIds, ",")), 10)
  }

  // ---------------------------------------------------------------- precache manifest

  /** The entries with `/` put in front of every URL. */
  function Prefixed(s: seq<ManifestEntry>): (r: seq<ManifestEntry>)
    ensures |r| == |s|
    ensures forall i :: 0 <= i < |s| ==> r[i] == s[i].(url := "/" + s[i].url)
  {
    if s == [] then [] else Prefixed(s[..|s| - 1]) + [s[|s| - 1].(url := "/" + s[|s| - 1].url)]
  }

  /** The transform loses nothing: every URL starts with `/` followed by the original
      URL, each revision is kept, and different manifests stay different. */
  lemma PrefixedSpec(s: seq<ManifestEntry>, t: seq<ManifestEntry>)
    ensures forall i :: 0 <= i < |s| ==>
      StartsWith(Prefixed(s)[i].url, "/") && Prefixed(s)[i].url[1..] == s[i].url &&
      Prefixed(s)[i].revision == s[i].revision
    ensures Prefixed(s) == Prefixed(t) ==> s == t
  {
    if Prefixed(s) == Prefixed(t) {
      assert |s| == |t|;
      forall i | 0 <= i < |s| ensures s[i] == t[i] {
        assert Prefixed(s)[i].url[1..] == s[i].url;
        assert Prefixed(t)[i].url[1..] == t[i].url;
      }
    }
  }

  /** The `manifestTransforms` step: `manifest.forEach((e) => e.url = '/' + e.url)`. */
  method PrefixLeadingSlash(manifest: array<ManifestEntry>)
    modifies manifest
    ensures manifest[..] == Prefixed(old(manifest[..]))
  {
    for i := 0 to manifest.Length
      invariant manifest[..i] == Prefixed(old(manifest[..]))[..i]
      invariant manifest[i..] == old(manifest[..])[i..]
    {
      manifest[i] := manifest[i].(url := "/" + manifest[i].url);
    }
  }
}
