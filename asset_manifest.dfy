/** The revisioned-asset manifest of the build (tasks/asset-manifest.js): a module-level
    dictionary from an asset's plain file name to its revisioned file name, with
    insert-once registration, lookup and reset. Presence is JavaScript truthiness, so an
    entry holding the empty string counts as missing. */
module AssetManifest {
  import opened Wrappers

  type Manifest = map<string, string>

  /** `revisionedAssetManifest[filename]` is truthy. */
  predicate Present(m: Manifest, filename: string) {
    filename in m && m[filename] != ""
  }

  function AlreadyExists(filename: string): JsError {
    Error("Revision for file '" + filename + "' already exists")
  }

  function Missing(filename: string): JsError {
    Error("Revisioned file for '" + filename + "' doesn't exist")
  }

  /** The dictionary `addAsset(filename, revisionedFilename)` leaves, or the error it
      throws: a present entry is never overwritten; otherwise exactly that one entry is
      set and every other entry stays as it was. */
  function AddEntry(m: Manifest, filename: string, revisionedFilename: string): (r: Outcome<Manifest>)
    ensures r.Rejected? <==> Present(m, filename)
    ensures r.Rejected? ==> r.error == AlreadyExists(filename)
    ensures r.Fulfilled? ==> filename in r.value && r.value[filename] == revisionedFilename
    ensures r.Fulfilled? ==> forall k :: k != filename ==> (k in r.value <==> k in m)
    ensures r.Fulfilled? ==> forall k :: k != filename && k in m ==> r.value[k] == m[k]
  {
    if Present(m, filename) then Rejected(AlreadyExists(filename))
    else Fulfilled(m[filename := revisionedFilename])
  }

  /** Registration is insert-once: after a truthy revision is added, adding the same file
      name again fails and the dictionary keeps the first revision. */
  lemma AddEntryInsertOnce(m: Manifest, filename: string, first: string, second: string)
    requires !Present(m, filename) && first != ""
    ensures AddEntry(m, filename, first).Fulfilled?
    ensures var m1 := AddEntry(m, filename, first).value;
      Present(m1, filename) && AddEntry(m1, filename, second) == Rejected(AlreadyExists(filename))
  {
  }

  /** An empty revision is stored but counts as missing, so a later registration of the
      same file name succeeds and replaces it. */
  lemma AddEntryEmptyRetried(m: Manifest, filename: string, second: string)
    requires !Present(m, filename)
    ensures AddEntry(m, filename, "").Fulfilled?
    ensures var m1 := AddEntry(m, filename, "").value;
      !Present(m1, filename) && AddEntry(m1, filename, second).Fulfilled? &&
      AddEntry(m1, filename, second).value[filename] == second
  {
  }

  /** Registrations of two different file names commute. */
  lemma AddEntryCommutes(m: Manifest, f1: string, r1: string, f2: string, r2: string)
    requires f1 != f2 && !Present(m, f1) && !Present(m, f2)
    ensures AddEntry(m, f1, r1).Fulfilled? && AddEntry(m, f2, r2).Fulfilled?
    ensures AddEntry(AddEntry(m, f1, r1).value, f2, r2).Fulfilled?
    ensures AddEntry(AddEntry(m, f2, r2).value, f1, r1).Fulfilled?
    ensures AddEntry(AddEntry(m, f1, r1).value, f2, r2).value == AddEntry(AddEntry(m, f2, r2).value, f1, r1).value
  {
    var m1 := AddEntry(m, f1, r1).value;
    var m2 := AddEntry(m, f2, r2).value;
    assert !Present(m1, f2) && !Present(m2, f1);
    var a := AddEntry(m1, f2, r2).value;
    var b := AddEntry(m2, f1, r1).value;
    assert forall k :: k in a <==> k in b;
    assert forall k :: k in a ==> a[k] == b[k];
  }

  /** The module-level dictionary `revisionedAssetManifest`. */
  class ManifestStore {
    var manifest: Manifest

    /** Module load: the dictionary read from the manifest file, or `{}` when the file
        cannot be read or parsed (`readJsonSync` with `throws: false` gives `null`). */
    constructor (loaded: Option<Manifest>)
      ensures manifest == if loaded.Some? then loaded.value else map[]
    {
      manifest := if loaded.Some? then loaded.value else map[];
    }

    /** `getManifest()`: the current dictionary itself. */
    method GetManifest() returns (m: Manifest)
      ensures m == manifest
    {
      m := manifest;
    }

    /** `resetManifest()`: the dictionary is replaced by an empty one. */
    method ResetManifest()
      modifies this
      ensures manifest == map[]
    {
      manifest := map[];
      // saveManifest() writes the file; file output is not modelled
    }

    /** `getAsset(filename)`: the stored entry, `undefined` (None) when there is none; a
        missing or empty entry throws in production and only warns otherwise. The
        dictionary is never changed. */
    method GetAsset(filename: string, production: bool) returns (r: Outcome<Option<string>>)
      ensures r.Rejected? <==> production && !Present(manifest, filename)
      ensures r.Rejected? ==> r.error == Missing(filename)
      ensures r.Fulfilled? ==> r.value == if filename in manifest then Some(manifest[filename]) else None
    {
      if !Present(manifest, filename) && production {
        return Rejected(Missing(filename));
      }
      // outside production a missing entry only logs a warning
      r := Fulfilled(if filename in manifest then Some(manifest[filename]) else None);
    }

    /** `addAsset(filename, revisionedFilename)`: the returned promise rejects, and the
        dictionary is unchanged, when a truthy entry exists; otherwise the entry is set. */
    method AddAsset(filename: string, revisionedFilename: string) returns (r: Outcome<()>)
      modifies this
      ensures AddEntry(old(manifest), filename, revisionedFilename).Rejected? ==>
        r == Rejected(AlreadyExists(filename)) && manifest == old(manifest)
      ensures AddEntry(old(manifest), filename, revisionedFilename).Fulfilled? ==>
        r == Fulfilled(()) && manifest == AddEntry(old(manifest), filename, revisionedFilename).value
    {
      if Present(manifest, filename) {
        return Rejected(AlreadyExists(filename));
      }
      manifest := manifest[filename := revisionedFilename];
      r := Fulfilled(());
    }
  }
}
