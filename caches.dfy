/** The cache registry of the service worker (assets/sw/caches.js): the fixed set of
    partition names and the sweep that deletes every other cache, over a model of the
    browser's Cache Storage. */
module Caches {
  import opened Wrappers
  import opened Web

  /** The keys of the `cacheNames` object. */
  datatype CacheName = LAYOUT | LAYOUT_TEMP | PAGES | STATIC_ASSETS | THIRD_PARTY_ASSETS {
    /** The value `cacheNames[key]`. */
    function Name(): string {
      match this
      case LAYOUT => "pw:v1:layout"
      case LAYOUT_TEMP => "pw:v1:layout-temp"
      case PAGES => "pw:v1:pages"
      case STATIC_ASSETS => "pw:v1:static"
      case THIRD_PARTY_ASSETS => "pw:v1:third-party-assets"
    }
  }

  /** `Object.values(cacheNames)`, in declaration order. */
  const CacheNameValues: seq<string> :=
    [LAYOUT.Name(), LAYOUT_TEMP.Name(), PAGES.Name(), STATIC_ASSETS.Name(), THIRD_PARTY_ASSETS.Name()]

  /** `new Set(Object.values(cacheNames))` */
  const ValidCacheNames: set<string> :=
    {LAYOUT.Name(), LAYOUT_TEMP.Name(), PAGES.Name(), STATIC_ASSETS.Name(), THIRD_PARTY_ASSETS.Name()}

  /** The five partition names are pairwise distinct, so the valid set has exactly five members,
      and it holds exactly the names of the partitions. */
  lemma CacheNamesDistinct()
    ensures forall a: CacheName, b: CacheName :: a != b ==> a.Name() != b.Name()
    ensures forall a: CacheName :: a.Name() in ValidCacheNames
    ensures forall n :: n in ValidCacheNames ==> exists a: CacheName :: a.Name() == n
    ensures |ValidCacheNames| == 5
  {
    forall a: CacheName, b: CacheName | a != b ensures a.Name() != b.Name() {
      NameKey(a);
      NameKey(b);
    }
    ValidCacheNamesSize();
  }

  /** The length of a partition name and its seventh character tell the partitions apart. */
  lemma NameKey(a: CacheName)
    ensures |a.Name()| > 6
    ensures (|a.Name()|, a.Name()[6]) == match a
      case LAYOUT => (12, 'l')
      case LAYOUT_TEMP => (17, 'l')
      case PAGES => (11, 'p')
      case STATIC_ASSETS => (12, 's')
      case THIRD_PARTY_ASSETS => (24, 't')
  {
  }

  lemma ValidCacheNamesSize()
    ensures |ValidCacheNames| == 5
  {
    var s1: set<string> := {LAYOUT.Name()};
    var s2 := s1 + {LAYOUT_TEMP.Name()};
    var s3 := s2 + {PAGES.Name()};
    var s4 := s3 + {STATIC_ASSETS.Name()};
    var s5 := s4 + {THIRD_PARTY_ASSETS.Name()};
    assert LAYOUT_TEMP.Name() != LAYOUT.Name() by { assert |LAYOUT_TEMP.Name()| != |LAYOUT.Name()|; }
    assert STATIC_ASSETS.Name() != LAYOUT.Name() by { assert STATIC_ASSETS.Name()[6] != LAYOUT.Name()[6]; }
    assert |s2| == 2;
    assert |s3| == 3;
    assert |s4| == 4;
    assert s5 == ValidCacheNames;
  }

  /** Every partition name carries the version prefix `pw:v1:`. */
  lemma ValidNamesVersioned()
    ensures forall n :: n in ValidCacheNames ==> |n| >= 6 && n[..6] == "pw:v1:"
  {
  }

  /** One cache: request key to the response snapshot stored under it. */
  type Partition = map<string, Response>

  predicate Distinct(s: seq<string>) {
    forall i, j :: 0 <= i < j < |s| ==> s[i] != s[j]
  }

  /** The names of `names` that are in `valid`, in their original order. */
  function KeepValid(names: seq<string>, valid: set<string>): seq<string>
  {
    if names == [] then []
    else
      var last := names[|names| - 1];
      KeepValid(names[..|names| - 1], valid) + (if last in valid then [last] else [])
  }

  /** The names of `names` that are not in `valid`, in their original order. */
  function InvalidNames(names: seq<string>, valid: set<string>): seq<string>
  {
    if names == [] then []
    else
      var last := names[|names| - 1];
      InvalidNames(names[..|names| - 1], valid) + (if last in valid then [] else [last])
  }

  /** `names` with every occurrence of `x` removed. */
  function Without(names: seq<string>, x: string): seq<string>
  {
    if names == [] then []
    else
      var last := names[|names| - 1];
      Without(names[..|names| - 1], x) + (if last == x then [] else [last])
  }

  /** The cache storage that remains when only the partitions named in `valid` survive. */
  function Swept(m: map<string, Partition>, valid: set<string>): map<string, Partition>
  {
    map n | n in m && n in valid :: m[n]
  }

  lemma {:induction false} KeepValidMembers(names: seq<string>, valid: set<string>)
    ensures forall n :: n in KeepValid(names, valid) <==> n in names && n in valid
  {
    if names != [] {
      var pre := names[..|names| - 1];
      KeepValidMembers(pre, valid);
      assert names == pre + [names[|names| - 1]];
    }
  }

  /** The names the sweep deletes are exactly the names of `names` outside `valid`. */
  lemma {:induction false} InvalidNamesMembers(names: seq<string>, valid: set<string>)
    ensures forall n :: n in InvalidNames(names, valid) <==> n in names && n !in valid
  {
    if names != [] {
      var pre := names[..|names| - 1];
      InvalidNamesMembers(pre, valid);
      assert names == pre + [names[|names| - 1]];
    }
  }

  lemma {:induction false} KeepValidDistinct(names: seq<string>, valid: set<string>)
    requires Distinct(names)
    ensures Distinct(KeepValid(names, valid))
  {
    if names != [] {
      var pre := names[..|names| - 1];
      var last := names[|names| - 1];
      assert Distinct(pre);
      KeepValidDistinct(pre, valid);
      KeepValidMembers(pre, valid);
      assert last !in pre;
    }
  }

  lemma {:induction false} WithoutMembers(names: seq<string>, x: string)
    ensures forall n :: n in Without(names, x) <==> n in names && n != x
  {
    if names != [] {
      var pre := names[..|names| - 1];
      WithoutMembers(pre, x);
      assert names == pre + [names[|names| - 1]];
    }
  }

  lemma {:induction false} WithoutDistinct(names: seq<string>, x: string)
    requires Distinct(names)
    ensures Distinct(Without(names, x))
  {
    if names != [] {
      var pre := names[..|names| - 1];
      assert Distinct(pre);
      WithoutDistinct(pre, x);
      WithoutMembers(pre, x);
      assert names[|names| - 1] !in pre;
    }
  }

  lemma {:induction false} WithoutAbsent(names: seq<string>, x: string)
    requires x !in names
    ensures Without(names, x) == names
  {
    if names != [] {
      var pre := names[..|names| - 1];
      assert names == pre + [names[|names| - 1]];
      WithoutAbsent(pre, x);
    }
  }

  /** Deleting the first name of the not-yet-visited tail leaves the rest in place. */
  lemma {:induction false} WithoutMiddle(pre: seq<string>, x: string, post: seq<string>)
    requires x !in pre && x !in post
    ensures Without(pre + [x] + post, x) == pre + post
  {
    if post == [] {
      assert (pre + [x] + post)[..|pre + [x]| - 1] == pre;
      WithoutAbsent(pre, x);
    } else {
      var s := pre + [x] + post;
      var post' := post[..|post| - 1];
      assert s[..|s| - 1] == pre + [x] + post';
      WithoutMiddle(pre, x, post');
      assert pre + post == pre + post' + [post[|post| - 1]];
    }
  }

  /** Running the sweep a second time with the same valid set deletes nothing and
      leaves the storage as the first run left it. */
  lemma {:induction false} SweepIdempotent(names: seq<string>, m: map<string, Partition>, valid: set<string>)
    ensures InvalidNames(KeepValid(names, valid), valid) == []
    ensures KeepValid(KeepValid(names, valid), valid) == KeepValid(names, valid)
    ensures Swept(Swept(m, valid), valid) == Swept(m, valid)
  {
    if names != [] {
      var pre := names[..|names| - 1];
      var last := names[|names| - 1];
      SweepIdempotent(pre, m, valid);
      var k := KeepValid(pre, valid);
      if last in valid {
        assert KeepValid(names, valid) == k + [last];
        assert (k + [last])[..|k + [last]| - 1] == k;
      } else {
        assert KeepValid(names, valid) == k;
      }
    }
  }

  /** After the sweep, every surviving cache is a valid partition that existed before,
      with its contents untouched; every valid partition that existed survives. */
  lemma SweptSpec(m: map<string, Partition>, valid: set<string>)
    ensures Swept(m, valid).Keys <= m.Keys
    ensures Swept(m, valid).Keys <= valid
    ensures forall n :: n in m && n in valid ==> n in Swept(m, valid) && Swept(m, valid)[n] == m[n]
  {
  }

  /** The partitions after `caches.open(name)`: unchanged, or with `name` added empty. */
  function Opened(m: map<string, Partition>, name: string): (r: map<string, Partition>)
    ensures name in r && r.Keys == m.Keys + {name}
    ensures forall n :: n in m ==> r[n] == m[n]
    ensures name !in m ==> r[name] == map[]
  {
    if name in m then m else m[name := map[]]
  }

  /** The creation order after `caches.open(name)`. */
  function OpenedOrder(order: seq<string>, name: string): (r: seq<string>)
    ensures name in r && forall n :: n in order ==> n in r
    ensures forall n :: n in r ==> n in order || n == name
  {
    if name in order then order else order + [name]
  }

  /** What `cache.match(key)` on the cache `name` finds; a missing cache is empty. */
  function Lookup(m: map<string, Partition>, name: string, key: string): (r: Option<Response>)
    ensures r.Some? <==> name in m && key in m[name]
    ensures r.Some? ==> r.value == m[name][key]
  {
    if name in m && key in m[name] then Some(m[name][key]) else None
  }

  /** The browser's Cache Storage: the caches that exist, in creation order (the order
      `caches.keys()` reports them), and the contents of each. */
  class CacheStorage {
    var order: seq<string>
    var partitions: map<string, Partition>

    ghost predicate Valid()
      reads this
    {
      Distinct(order) && (forall n :: n in partitions <==> n in order)
    }

    /** Cache Storage as a previous worker version left it. */
    constructor (existing: seq<string>, contents: map<string, Partition>)
      requires Distinct(existing)
      requires forall n :: n in contents <==> n in existing
      ensures Valid()
      ensures order == existing && partitions == contents
    {
      order := existing;
      partitions := contents;
    }

    /** `caches.keys()` */
    method Keys() returns (names: seq<string>)
      requires Valid()
      ensures names == order
      ensures Distinct(names)
    {
      names := order;
    }

    /** `caches.open(name)`: creates the cache, empty, when it does not exist yet. */
    method Open(name: string)
      requires Valid()
      modifies this
      ensures Valid()
      ensures name in partitions
      ensures name in old(partitions) ==> order == old(order) && partitions == old(partitions)
      ensures name !in old(partitions) ==>
        order == old(order) + [name] && partitions == old(partitions)[name := map[]]
    {
      if name !in partitions {
        order := order + [name];
        partitions := partitions[name := map[]];
      }
    }

    /** `cache.match(key)` on the cache `name`; `None` is the `undefined` of a miss. */
    method Match(name: string, key: string) returns (r: Option<Response>)
      ensures r.Some? <==> name in partitions && key in partitions[name]
      ensures r.Some? ==> r.value == partitions[name][key]
    {
      if name in partitions && key in partitions[name] {
        r := Some(partitions[name][key]);
      } else {
        r := None;
      }
    }

    /** `cache.put(key, response)` on an opened cache: replaces the entry wholesale. */
    method Put(name: string, key: string, response: Response)
      requires Valid()
      requires name in partitions
      modifies this
      ensures Valid()
      ensures order == old(order)
      ensures partitions == old(partitions)[name := old(partitions)[name][key := response]]
    {
      partitions := partitions[name := partitions[name][key := response]];
    }

    /** `caches.delete(name)`: resolves to whether the cache existed. */
    method Delete(name: string) returns (existed: bool)
      requires Valid()
      modifies this
      ensures Valid()
      ensures existed == (name in old(partitions))
      ensures partitions == old(partitions) - {name}
      ensures order == Without(old(order), name)
    {
      existed := name in partitions;
      WithoutMembers(order, name);
      WithoutDistinct(order, name);
      partitions := partitions - {name};
      order := Without(order, name);
    }
  }

  /** One iteration of the sweep, on the order of the caches: the visited prefix is
      filtered, the unvisited suffix untouched. */
  lemma SweepStep(used: seq<string>, i: nat, valid: set<string>)
    requires Distinct(used) && i < |used|
    ensures var name := used[i];
      var before := KeepValid(used[..i], valid) + used[i..];
      KeepValid(used[..i + 1], valid) + used[i + 1..] ==
        (if name in valid then before else Without(before, name))
    ensures InvalidNames(used[..i + 1], valid) ==
      InvalidNames(used[..i], valid) + (if used[i] in valid then [] else [used[i]])
  {
    assert used[..i + 1][..i] == used[..i];
    assert used[..i + 1][i] == used[i];
    SweepStepOrder(used, i, valid);
  }

  /** The order part of one sweep step: the names still to visit follow the kept ones. */
  lemma SweepStepOrder(used: seq<string>, i: nat, valid: set<string>)
    requires Distinct(used) && i < |used|
    requires KeepValid(used[..i + 1], valid) == KeepValid(used[..i], valid) + (if used[i] in valid then [used[i]] else [])
    ensures var name := used[i];
      var before := KeepValid(used[..i], valid) + used[i..];
      KeepValid(used[..i + 1], valid) + used[i + 1..] ==
        (if name in valid then before else Without(before, name))
  {
    var name := used[i];
    var k := KeepValid(used[..i], valid);
    assert used[i..] == [name] + used[i + 1..];
    assert k + used[i..] == k + [name] + used[i + 1..];
    KeepValidMembers(used[..i], valid);
    assert name !in used[..i];
    assert name !in used[i + 1..];
    if name !in valid {
      WithoutMiddle(k, name, used[i + 1..]);
    }
  }

  /** What the sweep leaves behind, on the contents: the valid partitions, unchanged. */
  lemma SweepResult(before: map<string, Partition>, after: map<string, Partition>,
                    used: seq<string>, order: seq<string>, valid: set<string>)
    requires forall n :: n in before <==> n in used
    requires forall n :: n in after <==> n in order
    requires order == KeepValid(used, valid)
    requires forall n :: n in after ==> n in before && after[n] == before[n]
    ensures after == Swept(before, valid)
  {
    KeepValidMembers(used, valid);
    assert after.Keys == Swept(before, valid).Keys;
  }

  /** One iteration of the sweep loop: deletes `used[i]` when it is not a valid name. */
  method SweepVisit(storage: CacheStorage, used: seq<string>, i: nat, valid: set<string>,
                    ghost before: map<string, Partition>) returns (removed: bool)
    requires storage.Valid() && Distinct(used) && i < |used|
    requires storage.order == KeepValid(used[..i], valid) + used[i..]
    requires forall n :: n in storage.partitions ==> n in before && storage.partitions[n] == before[n]
    modifies storage
    ensures removed == (used[i] !in valid)
    ensures storage.Valid()
    ensures storage.order == KeepValid(used[..i + 1], valid) + used[i + 1..]
    ensures forall n :: n in storage.partitions ==> n in before && storage.partitions[n] == before[n]
  {
    SweepStep(used, i, valid);
    removed := used[i] !in valid;
    if removed {
      var _ := storage.Delete(used[i]);
    }
  }

  /** The sweep loop: deletes, one at a time and in the order `caches.keys()` reports
      them, every cache whose name is not in `valid`; returns the deleted names. */
  method Sweep(storage: CacheStorage, valid: set<string>) returns (deleted: seq<string>)
    requires storage.Valid()
    modifies storage
    ensures storage.Valid()
    ensures deleted == InvalidNames(old(storage.order), valid)
    ensures storage.order == KeepValid(old(storage.order), valid)
    ensures storage.partitions == Swept(old(storage.partitions), valid)
  {
    var used := storage.Keys();
    ghost var before := storage.partitions;
    deleted := [];
    for i := 0 to |used|
      invariant storage.Valid()
      invariant storage.order == KeepValid(used[..i], valid) + used[i..]
      invariant deleted == InvalidNames(used[..i], valid)
      invariant forall n :: n in storage.partitions ==> n in before && storage.partitions[n] == before[n]
    {
      SweepStep(used, i, valid);
      var removed := SweepVisit(storage, used, i, valid, before);
      if removed {
        deleted := deleted + [used[i]];
      }
    }
    assert used[..|used|] == used;
    SweepResult(before, storage.partitions, used, storage.order, valid);
  }

  /** `deleteUnusedCaches()`: the sweep over the five partition names. */
  method DeleteUnusedCaches(storage: CacheStorage) returns (deleted: seq<string>)
    requires storage.Valid()
    modifies storage
    ensures storage.Valid()
    ensures deleted == InvalidNames(old(storage.order), ValidCacheNames)
    ensures storage.order == KeepValid(old(storage.order), ValidCacheNames)
    ensures storage.partitions == Swept(old(storage.partitions), ValidCacheNames)
  {
    deleted := Sweep(storage, ValidCacheNames);
  }
}
