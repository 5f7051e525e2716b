/** The feed loader: `Notus`, which reloads the advisory store from the
    feed directory and answers the scanner's queries from it.

    One reload pass walks the feed files in directory order; a file whose
    signature the verifier rejects is skipped, and every advisory of an
    accepted file is normalised and pushed under its oid. An advisory
    without an `oid` key raises out of the pass, leaving whatever was
    stored before it. */
module FeedLoader {
  import opened Text
  import opened Normalizer
  import opened AdvisoryStore

  /** A `*.notus` file of the feed directory, already parsed. */
  datatype FeedFile = FeedFile(path: string, meta: FileMeta, advisories: seq<RawAdvisory>)

  /** What a pass leaves in the store, and whether it ran to the end
      (`complete == false`: it stopped at an advisory without an oid). */
  datatype Outcome = Outcome(db: Db, complete: bool)

  /** The loader's view of the world: the store and its two flags. */
  datatype LoaderState = LoaderState(db: Db, loaded: bool, loading: bool)

  /** Storing the advisories `advs` of the accepted file `f`, in order. */
  function LoadAdvisories(prefix: string, db: Db, f: FeedFile, advs: seq<RawAdvisory>): (o: Outcome)
    ensures NoEmptyList(db) ==> NoEmptyList(o.db)
    decreases |advs|
  {
    if advs == [] then Outcome(db, true)
    else
      var o := LoadAdvisories(prefix, db, f, advs[..|advs| - 1]);
      var a := advs[|advs| - 1];
      if !o.complete then o
      else if a.oid.None? then Outcome(o.db, false)
      else Outcome(Push(o.db, Key(prefix, a.oid.value), ToOspd(f.path, a, f.meta)), true)
  }

  /** One pass over the feed files, in order. */
  function LoadFiles(prefix: string, verifier: string -> bool, db: Db, files: seq<FeedFile>): (o: Outcome)
    ensures NoEmptyList(db) ==> NoEmptyList(o.db)
    decreases |files|
  {
    if files == [] then Outcome(db, true)
    else
      var o := LoadFiles(prefix, verifier, db, files[..|files| - 1]);
      var f := files[|files| - 1];
      if !o.complete || !verifier(f.path) then o
      else LoadAdvisories(prefix, o.db, f, f.advisories)
  }

  /** `reload_cache` with the flags released on every way out of the pass. */
  function Reload(prefix: string, verifier: string -> bool, s: LoaderState, files: seq<FeedFile>): (r: LoaderState)
    ensures s.loading ==> r == s
    ensures !s.loading ==> !r.loading
    ensures !s.loading ==> (r.loaded <==> LoadFiles(prefix, verifier, s.db, files).complete)
    ensures !s.loading ==> r.db == LoadFiles(prefix, verifier, s.db, files).db
  {
    if s.loading then s
    else
      var o := LoadFiles(prefix, verifier, s.db, files);
      LoaderState(o.db, o.complete, false)
  }

  /** `reload_cache` as written: an exception out of the pass skips the
      final `self.loading = False`. */
  function ReloadAsWritten(prefix: string, verifier: string -> bool, s: LoaderState, files: seq<FeedFile>): (r: LoaderState)
    ensures s.loading ==> r == s
    ensures !s.loading ==> r.db == Reload(prefix, verifier, s, files).db
    ensures !s.loading ==> (r.loaded <==> !r.loading)
    ensures !s.loading ==> (r.loading <==> !LoadFiles(prefix, verifier, s.db, files).complete)
  {
    if s.loading then s
    else
      var o := LoadFiles(prefix, verifier, s.db, files);
      LoaderState(o.db, o.complete, !o.complete)
  }

  /** A verified feed file holding one advisory without an oid leaves the
      loader marked as loading for good: every later reload returns at once,
      so the store is never loaded again. */
  lemma ReloadAsWrittenSticks(verifier: string -> bool, adv: RawAdvisory)
    requires verifier("/var/lib/notus/advisories/a.notus") && adv.oid.None?
    ensures var s := ReloadAsWritten(DefaultPrefix, verifier, LoaderState(map[], false, false),
                                     [FeedFile("/var/lib/notus/advisories/a.notus", FileMeta(None, None), [adv])]);
      && s.loading && !s.loaded
      && forall files :: ReloadAsWritten(DefaultPrefix, verifier, s, files) == s
  {
    var f := FeedFile("/var/lib/notus/advisories/a.notus", FileMeta(None, None), [adv]);
    assert [f][..0] == [];
    assert [adv][..0] == [];
  }

  /** Whether a key is overwritten by a pass decides what is read there
      afterwards: the pass's own latest value if it wrote one, else the old. */
  function Overlay(top: Option<Record>, below: Option<Record>): Option<Record> {
    if top.Some? then top else below
  }

  lemma {:induction false} LoadAdvisoriesOverlay(prefix: string, db: Db, f: FeedFile, advs: seq<RawAdvisory>, k: string)
    ensures LoadAdvisories(prefix, db, f, advs).complete == LoadAdvisories(prefix, map[], f, advs).complete
    ensures Latest(LoadAdvisories(prefix, db, f, advs).db, k)
         == Overlay(Latest(LoadAdvisories(prefix, map[], f, advs).db, k), Latest(db, k))
    decreases |advs|
  {
    if advs != [] {
      LoadAdvisoriesOverlay(prefix, db, f, advs[..|advs| - 1], k);
    }
  }

  /** A pass acts on the latest-wins view as the same pass on an empty store
      laid over the old view, and whether it completes does not depend on
      the store. */
  lemma {:induction false} LoadFilesOverlay(prefix: string, verifier: string -> bool, db: Db, files: seq<FeedFile>, k: string)
    ensures LoadFiles(prefix, verifier, db, files).complete == LoadFiles(prefix, verifier, map[], files).complete
    ensures Latest(LoadFiles(prefix, verifier, db, files).db, k)
         == Overlay(Latest(LoadFiles(prefix, verifier, map[], files).db, k), Latest(db, k))
    decreases |files|
  {
    if files != [] {
      var init := files[..|files| - 1];
      var f := files[|files| - 1];
      LoadFilesOverlay(prefix, verifier, db, init, k);
      var o := LoadFiles(prefix, verifier, db, init);
      var e := LoadFiles(prefix, verifier, map[], init);
      if o.complete && verifier(f.path) {
        LoadAdvisoriesOverlay(prefix, o.db, f, f.advisories, k);
        LoadAdvisoriesOverlay(prefix, e.db, f, f.advisories, k);
      }
    }
  }

  /** Reloading twice with an unchanged feed reads the same as reloading
      once: same flags, same latest value under every key. */
  lemma ReloadTwiceReadsAsOnce(prefix: string, verifier: string -> bool, s: LoaderState, files: seq<FeedFile>, k: string)
    requires !s.loading
    ensures var once := Reload(prefix, verifier, s, files);
      var twice := Reload(prefix, verifier, once, files);
      twice.loaded == once.loaded && twice.loading == once.loading && Latest(twice.db, k) == Latest(once.db, k)
  {
    var once := Reload(prefix, verifier, s, files);
    LoadFilesOverlay(prefix, verifier, s.db, files, k);
    LoadFilesOverlay(prefix, verifier, once.db, files, k);
  }

  /** `after` keeps every list of `before` as its tail: values are only pushed. */
  ghost predicate Extends(before: Db, after: Db) {
    forall k :: k in before ==> k in after && |before[k]| <= |after[k]| && after[k][|after[k]| - |before[k]|..] == before[k]
  }

  lemma ExtendsTrans(a: Db, b: Db, c: Db)
    requires Extends(a, b) && Extends(b, c)
    ensures Extends(a, c)
  {
    forall k | k in a
      ensures k in c && |a[k]| <= |c[k]| && c[k][|c[k]| - |a[k]|..] == a[k]
    {
      var t := c[k][|c[k]| - |b[k]|..];
      assert t[|t| - |a[k]|..] == c[k][|c[k]| - |a[k]|..];
    }
  }

  /** A value held under a key is still held there once the store is extended. */
  lemma ExtendsKeeps(before: Db, after: Db, key: string, value: Record)
    requires Extends(before, after) && key in before && value in before[key]
    ensures key in after && value in after[key]
  {
    var l := after[key];
    assert l[|l| - |before[key]|..] == before[key];
  }

  lemma PushExtends(db: Db, key: string, value: Record)
    ensures Extends(db, Push(db, key, value))
  {
    var p := Push(db, key, value);
    forall k | k in db ensures k in p && |db[k]| <= |p[k]| && p[k][|p[k]| - |db[k]|..] == db[k] {
      if k == key {
        assert p[k][1..] == db[k];
      }
    }
  }

  lemma {:induction false} LoadAdvisoriesExtends(prefix: string, db: Db, f: FeedFile, advs: seq<RawAdvisory>)
    ensures Extends(db, LoadAdvisories(prefix, db, f, advs).db)
    decreases |advs|
  {
    if advs == [] {
      assert Extends(db, db);
    } else {
      var o := LoadAdvisories(prefix, db, f, advs[..|advs| - 1]);
      LoadAdvisoriesExtends(prefix, db, f, advs[..|advs| - 1]);
      var a := advs[|advs| - 1];
      var d := LoadAdvisories(prefix, db, f, advs).db;
      if o.complete && a.oid.Some? {
        var key, rec := Key(prefix, a.oid.value), ToOspd(f.path, a, f.meta);
        assert d == Push(o.db, key, rec);
        PushExtends(o.db, key, rec);
        ExtendsTrans(db, o.db, d);
      } else {
        assert d == o.db;
      }
    }
  }

  /** A pass never drops or rewrites a value already stored: the old list
      under each key stays as the tail of the new one. */
  lemma {:induction false} LoadFilesExtends(prefix: string, verifier: string -> bool, db: Db, files: seq<FeedFile>)
    ensures Extends(db, LoadFiles(prefix, verifier, db, files).db)
    decreases |files|
  {
    if files == [] {
      assert Extends(db, db);
    } else {
      var o := LoadFiles(prefix, verifier, db, files[..|files| - 1]);
      LoadFilesExtends(prefix, verifier, db, files[..|files| - 1]);
      var f := files[|files| - 1];
      if o.complete && verifier(f.path) {
        LoadAdvisoriesExtends(prefix, o.db, f, f.advisories);
        ExtendsTrans(db, o.db, LoadAdvisories(prefix, o.db, f, f.advisories).db);
      }
    }
  }

  lemma {:induction false} AdvisoriesStored(prefix: string, db: Db, f: FeedFile, advs: seq<RawAdvisory>, j: nat)
    requires j < |advs| && LoadAdvisories(prefix, db, f, advs).complete
    ensures advs[j].oid.Some?
    ensures var d := LoadAdvisories(prefix, db, f, advs).db;
      Key(prefix, advs[j].oid.value) in d && ToOspd(f.path, advs[j], f.meta) in d[Key(prefix, advs[j].oid.value)]
    decreases |advs|
  {
    var init := advs[..|advs| - 1];
    var o := LoadAdvisories(prefix, db, f, init);
    var d := LoadAdvisories(prefix, db, f, advs).db;
    if j < |advs| - 1 {
      AdvisoriesStored(prefix, db, f, init, j);
      var a := advs[|advs| - 1];
      assert d == Push(o.db, Key(prefix, a.oid.value), ToOspd(f.path, a, f.meta));
      PushExtends(o.db, Key(prefix, a.oid.value), ToOspd(f.path, a, f.meta));
      ExtendsKeeps(o.db, d, Key(prefix, advs[j].oid.value), ToOspd(f.path, advs[j], f.meta));
    }
  }

  /** After a pass that completes, every advisory of every file the
      verifier accepted is in the list under its oid. */
  lemma {:induction false} VerifiedAdvisoriesStored(prefix: string, verifier: string -> bool, db: Db, files: seq<FeedFile>, i: nat, j: nat)
    requires i < |files| && verifier(files[i].path) && j < |files[i].advisories|
    requires LoadFiles(prefix, verifier, db, files).complete
    ensures files[i].advisories[j].oid.Some?
    ensures var a := files[i].advisories[j];
      var d := LoadFiles(prefix, verifier, db, files).db;
      Key(prefix, a.oid.value) in d && ToOspd(files[i].path, a, files[i].meta) in d[Key(prefix, a.oid.value)]
    decreases |files|
  {
    var init := files[..|files| - 1];
    var f := files[|files| - 1];
    var o := LoadFiles(prefix, verifier, db, init);
    var a := files[i].advisories[j];
    if i < |files| - 1 {
      VerifiedAdvisoriesStored(prefix, verifier, db, init, i, j);
      if verifier(f.path) {
        LoadAdvisoriesExtends(prefix, o.db, f, f.advisories);
        var d := LoadFiles(prefix, verifier, db, files).db;
        ExtendsKeeps(o.db, d, Key(prefix, a.oid.value), ToOspd(files[i].path, a, files[i].meta));
      }
    } else {
      AdvisoriesStored(prefix, o.db, f, f.advisories, j);
    }
  }

  /** The feed with the rejected files left out: exactly the accepted
      files, each as often as in the feed. */
  function Accepted(verifier: string -> bool, files: seq<FeedFile>): (r: seq<FeedFile>)
    ensures forall g :: g in r <==> g in files && verifier(g.path)
    decreases |files|
  {
    if files == [] then []
    else
      var rest := Accepted(verifier, files[..|files| - 1]);
      var f := files[|files| - 1];
      assert files == files[..|files| - 1] + [f];
      if verifier(f.path) then rest + [f] else rest
  }

  /** Each accepted file is kept as often as the feed holds it, and a
      rejected one never. */
  lemma {:induction false} AcceptedCounts(verifier: string -> bool, files: seq<FeedFile>, g: FeedFile)
    ensures multiset(Accepted(verifier, files))[g] == if verifier(g.path) then multiset(files)[g] else 0
    decreases |files|
  {
    if files != [] {
      var init := files[..|files| - 1];
      var f := files[|files| - 1];
      AcceptedCounts(verifier, init, g);
      assert files == init + [f];
    }
  }

  /** The filter keeps the feed's order: filtering a concatenation is
      concatenating the filtered parts. */
  lemma {:induction false} AcceptedAppend(verifier: string -> bool, a: seq<FeedFile>, b: seq<FeedFile>)
    ensures Accepted(verifier, a + b) == Accepted(verifier, a) + Accepted(verifier, b)
    decreases |b|
  {
    if b == [] {
      assert a + b == a;
    } else {
      var init := b[..|b| - 1];
      var f := b[|b| - 1];
      AcceptedAppend(verifier, a, init);
      var ab := a + b;
      assert ab[..|ab| - 1] == a + init && ab[|ab| - 1] == f;
      assert b[..|b| - 1] == init;
      var x, y := Accepted(verifier, a), Accepted(verifier, init);
      if verifier(f.path) {
        assert Accepted(verifier, ab) == Accepted(verifier, a + init) + [f];
        assert Accepted(verifier, b) == y + [f];
        assert (x + y) + [f] == x + (y + [f]);
      } else {
        assert Accepted(verifier, ab) == Accepted(verifier, a + init);
        assert Accepted(verifier, b) == y;
      }
    }
  }

  /** A file the verifier rejects contributes nothing: the pass over the
      whole feed is the pass over the accepted files alone. */
  lemma {:induction false} RejectedFilesContributeNothing(prefix: string, verifier: string -> bool, db: Db, files: seq<FeedFile>)
    ensures LoadFiles(prefix, verifier, db, files) == LoadFiles(prefix, verifier, db, Accepted(verifier, files))
    decreases |files|
  {
    if files != [] {
      var init := files[..|files| - 1];
      var f := files[|files| - 1];
      RejectedFilesContributeNothing(prefix, verifier, db, init);
      if verifier(f.path) {
        var acc := Accepted(verifier, init) + [f];
        assert acc[..|acc| - 1] == Accepted(verifier, init);
      }
    }
  }

  /** One more advisory of the file, as the loop of the pass takes it: a
      pass that ran to the end of `advs[..j]` stops at an advisory without
      an oid and otherwise pushes its record. */
  lemma LoadNextAdvisory(prefix: string, db: Db, f: FeedFile, j: nat, current: Db)
    requires j < |f.advisories|
    requires LoadAdvisories(prefix, db, f, f.advisories[..j]) == Outcome(current, true)
    ensures f.advisories[j].oid.None? ==> LoadAdvisories(prefix, db, f, f.advisories[..j + 1]) == Outcome(current, false)
    ensures f.advisories[j].oid.Some? ==>
      LoadAdvisories(prefix, db, f, f.advisories[..j + 1])
      == Outcome(Push(current, Key(prefix, f.advisories[j].oid.value), ToOspd(f.path, f.advisories[j], f.meta)), true)
  {
    var advs := f.advisories[..j + 1];
    assert advs[..|advs| - 1] == f.advisories[..j];
    assert advs[|advs| - 1] == f.advisories[j];
  }

  /** Once an advisory without an oid stops the pass, the rest of it does nothing. */
  lemma {:induction false} LoadAdvisoriesStops(prefix: string, db: Db, f: FeedFile, advs: seq<RawAdvisory>, n: nat)
    requires n <= |advs| && !LoadAdvisories(prefix, db, f, advs[..n]).complete
    ensures LoadAdvisories(prefix, db, f, advs) == LoadAdvisories(prefix, db, f, advs[..n])
    decreases |advs| - n
  {
    if n < |advs| {
      assert advs[..|advs| - 1][..n] == advs[..n];
      LoadAdvisoriesStops(prefix, db, f, advs[..|advs| - 1], n);
    } else {
      assert advs[..n] == advs;
    }
  }

  lemma {:induction false} LoadFilesStops(prefix: string, verifier: string -> bool, db: Db, files: seq<FeedFile>, n: nat)
    requires n <= |files| && !LoadFiles(prefix, verifier, db, files[..n]).complete
    ensures LoadFiles(prefix, verifier, db, files) == LoadFiles(prefix, verifier, db, files[..n])
    decreases |files| - n
  {
    if n < |files| {
      assert files[..|files| - 1][..n] == files[..n];
      LoadFilesStops(prefix, verifier, db, files[..|files| - 1], n);
    } else {
      assert files[..n] == files;
    }
  }

  /** The `(filename, oid)` pairs read back for the keys `ks`. */
  function Pairs(db: Db, prefix: string, ks: set<string>): set<(string, string)> {
    set k | k in ks && Latest(db, Key(prefix, k)).Some? :: (Latest(db, Key(prefix, k)).value.filename, k)
  }

  lemma PairsStep(db: Db, prefix: string, ks: set<string>, k: string)
    ensures Pairs(db, prefix, ks + {k}) == Pairs(db, prefix, ks)
      + (if Latest(db, Key(prefix, k)).Some? then {(Latest(db, Key(prefix, k)).value.filename, k)} else {})
  {
  }

  /** What `get_filenames_and_oids` yields once the store is loaded. */
  function FilenamesAndOids(db: Db, prefix: string): (r: set<(string, string)>)
    ensures forall p :: p in r ==> Latest(db, Key(prefix, p.1)).Some? && Latest(db, Key(prefix, p.1)).value.filename == p.0
    ensures forall p :: p in r ==> p.1 in KeysUnder(db, prefix) && '/' !in p.1
  {
    Pairs(db, prefix, KeysUnder(db, prefix))
  }

  /** Every stored oid without a '/' is enumerated, with the file name of
      its latest record. */
  lemma FilenamesAndOidsComplete(db: Db, prefix: string, oid: string)
    requires '/' !in oid && Latest(db, Key(prefix, oid)).Some?
    ensures (Latest(db, Key(prefix, oid)).value.filename, oid) in FilenamesAndOids(db, prefix)
  {
    KeysUnderEnumeratesOids(db, prefix, oid);
  }

  class Notus {
    const cache: Cache
    const verifier: string -> bool
    var loaded: bool
    var loading: bool

    ghost predicate Valid()
      reads this, cache
    {
      cache.Valid()
    }

    function State(): LoaderState
      reads this, cache
    {
      LoaderState(cache.db, loaded, loading)
    }

    constructor (cache: Cache, verifier: string -> bool)
      requires cache.Valid()
      ensures Valid() && !loaded && !loading
      ensures this.cache == cache && this.verifier == verifier
    {
      this.cache := cache;
      this.verifier := verifier;
      loaded, loading := false, false;
    }

    /** `reload_cache()` over the feed's files; `ok == false` when the pass
        raised on an advisory without an oid. */
    method ReloadCache(files: seq<FeedFile>) returns (ok: bool)
      requires Valid()
      modifies this, cache
      ensures Valid()
      ensures State() == Reload(cache.prefix, verifier, old(State()), files)
      ensures ok <==> old(loading) || LoadFiles(cache.prefix, verifier, old(cache.db), files).complete
    {
      if loading {
        // The wait `while not self.loading` never runs: return at once.
        return true;
      }
      loading := true;
      loaded := false;
      ghost var db0 := cache.db;
      var i := 0;
      while i < |files|
        invariant 0 <= i <= |files|
        invariant Valid() && loading && !loaded
        invariant LoadFiles(cache.prefix, verifier, db0, files[..i]) == Outcome(cache.db, true)
      {
        var f := files[i];
        assert files[..i + 1][..i] == files[..i];
        if verifier(f.path) {
          var stored := StoreFileAdvisories(f);
          if !stored {
            LoadFilesStops(cache.prefix, verifier, db0, files, i + 1);
            loading := false;
            return false;
          }
        }
        i := i + 1;
      }
      assert files[..i] == files;
      loading := false;
      loaded := true;
      ok := true;
    }

    /** The inner loop of `reload_cache` over one accepted file; `false` when
        an advisory without an oid raised, the store then holding what was
        pushed before it. */
    method StoreFileAdvisories(f: FeedFile) returns (ok: bool)
      requires Valid()
      modifies cache
      ensures Valid()
      ensures LoadAdvisories(cache.prefix, old(cache.db), f, f.advisories) == Outcome(cache.db, ok)
    {
      var j := 0;
      while j < |f.advisories|
        invariant 0 <= j <= |f.advisories|
        invariant Valid()
        invariant LoadAdvisories(cache.prefix, old(cache.db), f, f.advisories[..j]) == Outcome(cache.db, true)
      {
        var advisory := f.advisories[j];
        var record := ToOspd(f.path, advisory, f.meta);
        LoadNextAdvisory(cache.prefix, old(cache.db), f, j, cache.db);
        if advisory.oid.None? {
          // `advisory["oid"]` raises a KeyError
          LoadAdvisoriesStops(cache.prefix, old(cache.db), f, f.advisories, j + 1);
          return false;
        }
        var _ := cache.StoreAdvisory(advisory.oid.value, record);
        j := j + 1;
      }
      assert f.advisories[..j] == f.advisories;
      ok := true;
    }

    /** `get_filenames_and_oids()`: reloads first when nothing is loaded;
        `None` when that reload raised. */
    method GetFilenamesAndOids(files: seq<FeedFile>) returns (r: Option<set<(string, string)>>)
      requires Valid()
      modifies this, cache
      ensures Valid()
      ensures old(loaded) ==> State() == old(State())
      ensures !old(loaded) ==> State() == Reload(cache.prefix, verifier, old(State()), files)
      ensures r.None? <==> !old(loaded) && !old(loading) && !LoadFiles(cache.prefix, verifier, old(cache.db), files).complete
      ensures r.Some? ==> r.value == FilenamesAndOids(cache.db, cache.prefix)
    {
      if !loaded {
        var ok := ReloadCache(files);
        if !ok {
          return None;
        }
      }
      var pairs := ReadFilenamesAndOids();
      r := Some(pairs);
    }

    /** The generator loop of `get_filenames_and_oids` over the stored keys:
        a key whose advisory cannot be read is skipped. */
    method ReadFilenamesAndOids() returns (pairs: set<(string, string)>)
      ensures pairs == FilenamesAndOids(cache.db, cache.prefix)
    {
      var keys := cache.GetKeys();
      var todo := keys;
      pairs := {};
      while todo != {}
        invariant todo <= keys
        invariant pairs == Pairs(cache.db, cache.prefix, keys - todo)
        decreases |todo|
      {
        var k :| k in todo;
        PairsStep(cache.db, cache.prefix, keys - todo, k);
        assert keys - (todo - {k}) == (keys - todo) + {k};
        var advisory := cache.GetAdvisory(k);
        if advisory.Some? {
          pairs := pairs + {(advisory.value.filename, k)};
        }
        todo := todo - {k};
      }
      assert keys - todo == keys;
    }

    /** `exists(oid)`: no reload is triggered. */
    function Exists(oid: string): (r: bool)
      requires Valid()
      reads this, cache
      ensures r <==> GetNvtMetadata(oid).Some?
    {
      cache.Exists(oid)
    }

    /** `get_nvt_metadata(oid)`: no reload is triggered. */
    function GetNvtMetadata(oid: string): (r: Option<Record>)
      reads this, cache
      ensures r.None? <==> Key(cache.prefix, oid) !in cache.db || cache.db[Key(cache.prefix, oid)] == []
      ensures r.Some? ==> r.value == cache.db[Key(cache.prefix, oid)][0]
    {
      cache.GetAdvisory(oid)
    }
  }
}
