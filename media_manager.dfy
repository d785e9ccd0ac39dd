/**
 * The photo and music pools. Scanning the media folders fills three
 * caches: photos per normalized category name, photos per
 * "category/subtopic" key, and the normalized-to-original category names.
 * Lookups find a category's or a subtopic's photos by a cascade of
 * matching rules, and selection falls back to ever larger pools, skips
 * photos already used in the current series, prefers photos and tracks
 * that are off cooldown, and picks any element of what is left.
 *
 * The folders are given as data: what `iterdir` and `rglob` would list,
 * with each item's name, suffix and kind. The random pick is a free
 * choice among the final pool.
 */
module MediaManager {
  import opened Builtins
  import opened Dicts
  import ContentHistory

  const PhotoExtensions: set<string> := {".jpg", ".jpeg", ".png", ".webp", ".avif", ".heif", ".heic"}
  const MusicExtensions: set<string> := {".mp3", ".m4a", ".aac", ".wav"}

  /** The suffix test, which ignores case. */
  predicate IsPhoto(suffix: string) {
    Lower(suffix) in PhotoExtensions
  }

  predicate IsMusic(suffix: string) {
    Lower(suffix) in MusicExtensions
  }

  /** A photo or a track; `category` is the original name of the folder it was found under. */
  datatype MediaFile = MediaFile(path: string, category: Option<string>)

  /** Something listed inside a subtopic folder; only its suffix is looked at. */
  datatype Entry = Entry(path: string, suffix: string)

  /** Something listed inside a category folder: a file, a subtopic folder, or neither. */
  datatype Child = Child(path: string, name: string, suffix: string, isFile: bool, isDir: bool, entries: seq<Entry>)

  /** Something listed in the photo root; only folders are categories. */
  datatype Folder = Folder(name: string, isDir: bool, children: seq<Child>)

  /** A file found walking the music root; `parent` is its folder's name, None for the root itself. */
  datatype Track = Track(path: string, suffix: string, isFile: bool, parent: Option<string>)

  // ---------------------------------------------------------------------
  // Names and keys
  // ---------------------------------------------------------------------

  /** `category.lower().strip()` */
  function NormalizeCategory(c: string): string {
    Strip(Lower(c))
  }

  /** A normalized name has no surrounding whitespace, and lowering it changes nothing. */
  lemma NormalizedShape(c: string)
    ensures var r := NormalizeCategory(c);
      (r == [] || (!IsSpace(r[0]) && !IsSpace(r[|r| - 1]))) && Lower(r) == r
  {
    var l := Lower(c);
    StripSlice(l);
    var a, b :| 0 <= a <= b <= |l| && Strip(l) == l[a..b];
    LowerSlice(l, a, b);
    LowerIdempotent(c);
  }

  /** Normalizing a normalized name changes nothing, so normalized keys match normalized queries. */
  lemma NormalizeIdempotent(c: string)
    ensures NormalizeCategory(NormalizeCategory(c)) == NormalizeCategory(c)
  {
    var n := NormalizeCategory(c);
    NormalizedShape(c);
    assert Lower(n) == n;
    StripNoop(n);
  }

  /** The key of a subtopic folder in the subtopic cache. */
  function SubtopicKey(normalizedCategory: string, subtopic: string): string {
    normalizedCategory + "/" + NormalizeCategory(subtopic)
  }

  /** The part of a key before its first `/`. */
  function CategoryPart(key: string): string {
    var i := Find(key, '/');
    if i < 0 then key else key[..i]
  }

  /** `key.split("/", 1)[1]`: the part after the first `/`. */
  function SubtopicPart(key: string): string {
    var i := Find(key, '/');
    if i < 0 then [] else key[i + 1..]
  }

  /** A key built from a slash-free category name splits back into its two halves. */
  lemma SubtopicKeyParts(n: string, subtopic: string)
    requires '/' !in n
    ensures CategoryPart(SubtopicKey(n, subtopic)) == n
    ensures SubtopicPart(SubtopicKey(n, subtopic)) == NormalizeCategory(subtopic)
  {
    var k := SubtopicKey(n, subtopic);
    assert k[|n|] == '/';
    assert forall i :: 0 <= i < |n| ==> k[i] == n[i];
    assert Find(k, '/') == |n|;
    assert k[..|n|] == n;
  }

  /** Lowering and stripping never make a slash. */
  lemma NormalizeNoSlash(c: string)
    requires '/' !in c
    ensures '/' !in NormalizeCategory(c)
  {
    var l := Lower(c);
    assert '/' !in l by {
      forall i | 0 <= i < |l|
        ensures l[i] != '/'
      {
        LowerCharSlash(c[i]);
      }
    }
    StripSlice(l);
    var a, b :| 0 <= a <= b <= |l| && Strip(l) == l[a..b];
    SliceAvoids(l, a, b, '/');
  }

  // ---------------------------------------------------------------------
  // What scanning the photo folders produces
  // ---------------------------------------------------------------------

  /** The photo files among the first `j` children of a category folder, in listing order. */
  function DirectPhotos(category: string, cs: seq<Child>, j: nat): seq<MediaFile>
    requires j <= |cs|
  {
    if j == 0 then []
    else
      var c := cs[j - 1];
      DirectPhotos(category, cs, j - 1)
        + (if c.isFile && IsPhoto(c.suffix) then [MediaFile(c.path, Some(category))] else [])
  }

  /** The photos among the first `k` entries of a subtopic folder (any entry with a photo suffix, file or not). */
  function EntryPhotos(category: string, es: seq<Entry>, k: nat): seq<MediaFile>
    requires k <= |es|
  {
    if k == 0 then []
    else
      var e := es[k - 1];
      EntryPhotos(category, es, k - 1)
        + (if IsPhoto(e.suffix) then [MediaFile(e.path, Some(category))] else [])
  }

  /** The photos of one subtopic folder. */
  function SubtopicPhotos(category: string, es: seq<Entry>): seq<MediaFile> {
    EntryPhotos(category, es, |es|)
  }

  /** What one child of a category folder adds to the category's list: a subtopic folder's photos. */
  function ChildPhotos(category: string, c: Child): seq<MediaFile> {
    if c.isDir then SubtopicPhotos(category, c.entries) else []
  }

  /** The photos of the subtopic folders among the first `j` children, folder after folder. */
  function NestedPhotos(category: string, cs: seq<Child>, j: nat): seq<MediaFile>
    requires j <= |cs|
  {
    if j == 0 then [] else NestedPhotos(category, cs, j - 1) + ChildPhotos(category, cs[j - 1])
  }

  /** A category's cached list: its own photos first, then those of its subtopic folders. */
  function CategoryPhotos(category: string, cs: seq<Child>): seq<MediaFile> {
    DirectPhotos(category, cs, |cs|) + NestedPhotos(category, cs, |cs|)
  }

  /** The subtopic cache after one child of category `n` is scanned: a subtopic folder with photos gets its key. */
  function SubtopicPut(subs: Dict<string, seq<MediaFile>>, n: string, category: string, c: Child): Dict<string, seq<MediaFile>> {
    var ps := SubtopicPhotos(category, c.entries);
    if c.isDir && ps != [] then Put(subs, SubtopicKey(n, c.name), ps) else subs
  }

  /** The subtopic cache after the first `j` children of one category are scanned. */
  function SubtopicPuts(subs: Dict<string, seq<MediaFile>>, n: string, category: string, cs: seq<Child>, j: nat): Dict<string, seq<MediaFile>>
    requires j <= |cs|
  {
    if j == 0 then subs else SubtopicPut(SubtopicPuts(subs, n, category, cs, j - 1), n, category, cs[j - 1])
  }

  datatype Caches = Caches(
    photos: Dict<string, seq<MediaFile>>,
    subtopics: Dict<string, seq<MediaFile>>,
    mapping: Dict<string, string>)

  /** The key each item of the photo root is cached under: its normalized name. */
  function FolderKeys(fs: seq<Folder>): (ks: seq<string>)
    ensures |ks| == |fs| && forall m :: 0 <= m < |fs| ==> ks[m] == NormalizeCategory(fs[m].name)
  {
    seq(|fs|, m requires 0 <= m < |fs| => NormalizeCategory(fs[m].name))
  }

  /*
   * The caches are defined for any choice of keys `ks`, one per item;
   * the scan uses FolderKeys. Proofs about them only need the keys to be
   * distinct and slash-free, not how they are computed.
   */

  /** The category cache after the first `i` items of the photo root are scanned. */
  function PhotoCache(fs: seq<Folder>, ks: seq<string>, i: nat): Dict<string, seq<MediaFile>>
    requires i <= |fs| == |ks|
  {
    if i == 0 then []
    else
      var st := PhotoCache(fs, ks, i - 1);
      var f := fs[i - 1];
      var cp := CategoryPhotos(f.name, f.children);
      if f.isDir && cp != [] then Put(st, ks[i - 1], cp) else st
  }

  /** The subtopic cache after the first `i` items of the photo root are scanned. */
  function SubtopicCache(fs: seq<Folder>, ks: seq<string>, i: nat): Dict<string, seq<MediaFile>>
    requires i <= |fs| == |ks|
  {
    if i == 0 then []
    else
      var st := SubtopicCache(fs, ks, i - 1);
      var f := fs[i - 1];
      if f.isDir then SubtopicPuts(st, ks[i - 1], f.name, f.children, |f.children|) else st
  }

  /** The mapping from keys to folder names after the first `i` items are scanned. */
  function MappingCache(fs: seq<Folder>, ks: seq<string>, i: nat): Dict<string, string>
    requires i <= |fs| == |ks|
  {
    if i == 0 then []
    else
      var st := MappingCache(fs, ks, i - 1);
      var f := fs[i - 1];
      if f.isDir then Put(st, ks[i - 1], f.name) else st
  }

  /** Scanning one more item changes the caches only if it is a category folder. */
  lemma ScanStep(fs: seq<Folder>, ks: seq<string>, i: nat)
    requires i < |fs| == |ks|
    ensures var f := fs[i];
      var cp := CategoryPhotos(f.name, f.children);
      PhotoCache(fs, ks, i + 1) == (if f.isDir && cp != [] then Put(PhotoCache(fs, ks, i), ks[i], cp) else PhotoCache(fs, ks, i))
      && SubtopicCache(fs, ks, i + 1) == (if f.isDir then SubtopicPuts(SubtopicCache(fs, ks, i), ks[i], f.name, f.children, |f.children|) else SubtopicCache(fs, ks, i))
      && MappingCache(fs, ks, i + 1) == (if f.isDir then Put(MappingCache(fs, ks, i), ks[i], f.name) else MappingCache(fs, ks, i))
  {
  }

  /** The three caches after the first `i` items are scanned with keys `ks`. */
  function ScanWith(fs: seq<Folder>, ks: seq<string>, i: nat): Caches
    requires i <= |fs| == |ks|
  {
    Caches(PhotoCache(fs, ks, i), SubtopicCache(fs, ks, i), MappingCache(fs, ks, i))
  }

  /** The three caches after the first `i` items of the photo root are scanned. */
  function ScanFolders(fs: seq<Folder>, i: nat): Caches
    requires i <= |fs|
  {
    ScanWith(fs, FolderKeys(fs), i)
  }

  /** The caches for a photo root that may be missing. */
  function ScanRoot(root: Option<seq<Folder>>): Caches {
    if root.None? then Caches([], [], []) else ScanFolders(root.value, |root.value|)
  }

  /** The music files among the first `i` items of the walk, in walking order. */
  function MusicFiles(ts: seq<Track>, i: nat): (r: seq<MediaFile>)
    requires i <= |ts|
    ensures forall m :: m in r <==> exists k :: 0 <= k < i && ts[k].isFile && IsMusic(ts[k].suffix) && m == MediaFile(ts[k].path, ts[k].parent)
  {
    if i == 0 then []
    else
      var t := ts[i - 1];
      MusicFiles(ts, i - 1) + (if t.isFile && IsMusic(t.suffix) then [MediaFile(t.path, t.parent)] else [])
  }

  /** The music cache for a root that may be missing. */
  function MusicRoot(root: Option<seq<Track>>): seq<MediaFile> {
    if root.None? then [] else MusicFiles(root.value, |root.value|)
  }

  // ---------------------------------------------------------------------
  // The scan invariant
  // ---------------------------------------------------------------------

  /** The keys of the category folders among the first `i` items, in order. */
  function CategoryKeys(fs: seq<Folder>, ks: seq<string>, i: nat): seq<string>
    requires i <= |fs| == |ks|
  {
    if i == 0 then [] else CategoryKeys(fs, ks, i - 1) + (if fs[i - 1].isDir then [ks[i - 1]] else [])
  }

  /** No two category folders share a normalized name, and no name holds a slash. */
  predicate DistinctCategories(fs: seq<Folder>) {
    (forall i :: 0 <= i < |fs| && fs[i].isDir ==> '/' !in fs[i].name)
    && forall i, j :: 0 <= i < j < |fs| && fs[i].isDir && fs[j].isDir ==>
         NormalizeCategory(fs[i].name) != NormalizeCategory(fs[j].name)
  }

  /** The category folders' keys are pairwise different and slash-free. */
  predicate GoodKeys(fs: seq<Folder>, ks: seq<string>)
    requires |fs| == |ks|
  {
    (forall i :: 0 <= i < |fs| && fs[i].isDir ==> '/' !in ks[i])
    && forall i, j :: 0 <= i < j < |fs| && fs[i].isDir && fs[j].isDir ==> ks[i] != ks[j]
  }

  /** Distinct, slash-free names give good keys. */
  lemma DistinctGoodKeys(fs: seq<Folder>)
    requires DistinctCategories(fs)
    ensures GoodKeys(fs, FolderKeys(fs))
  {
    forall i | 0 <= i < |fs| && fs[i].isDir
      ensures '/' !in FolderKeys(fs)[i]
    {
      NormalizeNoSlash(fs[i].name);
    }
  }

  /** Every cached subtopic list lies inside the cached list of the category its key names. */
  ghost predicate Covered(photos: Dict<string, seq<MediaFile>>, subs: Dict<string, seq<MediaFile>>) {
    forall k :: HasKey(subs, k) ==>
      HasKey(photos, CategoryPart(k))
      && forall p :: p in Get(subs, k).value ==> p in Get(photos, CategoryPart(k)).value
  }

  /** Every subtopic key names a category already scanned. */
  ghost predicate Owned(subs: Dict<string, seq<MediaFile>>, names: seq<string>) {
    forall k :: HasKey(subs, k) ==> CategoryPart(k) in names
  }

  /** The list under `k` was already there, or is a non-empty list drawn from `pool`. */
  ghost predicate KeptOrFrom(before: Dict<string, seq<MediaFile>>, after: Dict<string, seq<MediaFile>>, k: string, pool: seq<MediaFile>) {
    Get(after, k) == Get(before, k)
    || (Get(after, k).Some? && Get(after, k).value != [] && forall p :: p in Get(after, k).value ==> p in pool)
  }

  /**
   * Going from `subs` to `after` touched only keys of category `n`, and
   * every list stored anew is non-empty and drawn from `pool`.
   */
  ghost predicate PutsEffect(subs: Dict<string, seq<MediaFile>>, after: Dict<string, seq<MediaFile>>, n: string, pool: seq<MediaFile>) {
    (forall k :: CategoryPart(k) != n ==> Get(after, k) == Get(subs, k))
    && forall k :: KeptOrFrom(subs, after, k, pool)
  }

  /** Scanning one more child keeps the effect, with the child's photos added to the pool. */
  lemma SubtopicPutStep(subs: Dict<string, seq<MediaFile>>, before: Dict<string, seq<MediaFile>>, n: string, category: string, c: Child, pool: seq<MediaFile>)
    requires '/' !in n
    requires PutsEffect(subs, before, n, pool) == true
    ensures PutsEffect(subs, SubtopicPut(before, n, category, c), n, pool + ChildPhotos(category, c)) == true
  {
    var after := SubtopicPut(before, n, category, c);
    var pool' := pool + ChildPhotos(category, c);
    var ps := SubtopicPhotos(category, c.entries);
    var key := SubtopicKey(n, c.name);
    SubtopicKeyParts(n, c.name);
    forall k
      ensures CategoryPart(k) != n ==> Get(after, k) == Get(subs, k)
      ensures KeptOrFrom(subs, after, k, pool')
    {
      if c.isDir && ps != [] && k == key {
        assert Get(after, k) == Some(ps);
      } else {
        assert Get(after, k) == Get(before, k);
        assert KeptOrFrom(subs, before, k, pool);
      }
    }
  }

  /** Scanning the children from `j` on keeps the effect to the end. */
  lemma SubtopicPutsFrom(subs: Dict<string, seq<MediaFile>>, n: string, category: string, cs: seq<Child>, j: nat)
    requires '/' !in n && j <= |cs|
    requires PutsEffect(subs, SubtopicPuts(subs, n, category, cs, j), n, NestedPhotos(category, cs, j)) == true
    ensures PutsEffect(subs, SubtopicPuts(subs, n, category, cs, |cs|), n, NestedPhotos(category, cs, |cs|)) == true
    decreases |cs| - j
  {
    if j < |cs| {
      SubtopicPutStep(subs, SubtopicPuts(subs, n, category, cs, j), n, category, cs[j], NestedPhotos(category, cs, j));
      SubtopicPutsFrom(subs, n, category, cs, j + 1);
    }
  }

  /**
   * Scanning one category's subtopic folders touches only keys of that
   * category, and every list it stores is non-empty and part of the
   * category's nested photos.
   */
  lemma SubtopicPutsEffect(subs: Dict<string, seq<MediaFile>>, n: string, category: string, cs: seq<Child>)
    requires '/' !in n
    ensures PutsEffect(subs, SubtopicPuts(subs, n, category, cs, |cs|), n, NestedPhotos(category, cs, |cs|)) == true
  {
    SubtopicPutsFrom(subs, n, category, cs, 0);
  }

  /**
   * One category's scan keeps the invariant: it stores its photo list
   * under its own key, which no earlier category owns, and its subtopic
   * lists only under keys of that category, drawn from the same photos.
   */
  lemma CoveredStep(photos: Dict<string, seq<MediaFile>>, subs: Dict<string, seq<MediaFile>>,
                    photos': Dict<string, seq<MediaFile>>, subs': Dict<string, seq<MediaFile>>,
                    names: seq<string>, n: string, cp: seq<MediaFile>, nested: seq<MediaFile>)
    requires Covered(photos, subs) && Owned(subs, names) && n !in names
    requires photos' == if cp != [] then Put(photos, n, cp) else photos
    requires forall k :: CategoryPart(k) != n ==> Get(subs', k) == Get(subs, k)
    requires forall k :: KeptOrFrom(subs, subs', k, nested)
    requires forall p :: p in nested ==> p in cp
    ensures Covered(photos', subs') && Owned(subs', names + [n])
  {
    forall k | HasKey(subs', k)
      ensures HasKey(photos', CategoryPart(k))
      ensures forall p :: p in Get(subs', k).value ==> p in Get(photos', CategoryPart(k)).value
      ensures CategoryPart(k) in names + [n]
    {
      if CategoryPart(k) != n {
        assert Get(subs', k) == Get(subs, k);
        assert HasKey(subs, k);
        assert Get(photos', CategoryPart(k)) == Get(photos, CategoryPart(k));
      } else {
        assert !HasKey(subs, k);
        assert KeptOrFrom(subs, subs', k, nested);
        var q := Get(subs', k).value[0];
        assert q in cp;
        assert Get(photos', n) == Some(cp);
      }
    }
  }

  /** With good keys, a category's key is not among the keys of the folders before it. */
  lemma {:induction false} KeyIsNew(fs: seq<Folder>, ks: seq<string>, i: nat, j: nat)
    requires i <= j < |fs| == |ks| && fs[j].isDir && GoodKeys(fs, ks)
    ensures ks[j] !in CategoryKeys(fs, ks, i)
  {
    if i > 0 {
      KeyIsNew(fs, ks, i - 1, j);
    }
  }

  /** Scanning one category folder under a fresh, slash-free key keeps the invariant. */
  lemma CategoryCovers(photos: Dict<string, seq<MediaFile>>, subs: Dict<string, seq<MediaFile>>, names: seq<string>, n: string, f: Folder)
    requires Covered(photos, subs) && Owned(subs, names) && n !in names && '/' !in n
    ensures var cp := CategoryPhotos(f.name, f.children);
      var subs' := SubtopicPuts(subs, n, f.name, f.children, |f.children|);
      Covered(if cp != [] then Put(photos, n, cp) else photos, subs') && Owned(subs', names + [n])
  {
    var cp := CategoryPhotos(f.name, f.children);
    var nested := NestedPhotos(f.name, f.children, |f.children|);
    SubtopicPutsEffect(subs, n, f.name, f.children);
    assert forall p :: p in nested ==> p in cp;
    CoveredStep(photos, subs, if cp != [] then Put(photos, n, cp) else photos,
      SubtopicPuts(subs, n, f.name, f.children, |f.children|), names, n, cp, nested);
  }

  /** The invariant of the scan after the first `i` items. */
  ghost predicate ScanInvariant(fs: seq<Folder>, ks: seq<string>, i: nat)
    requires i <= |fs| == |ks|
  {
    Covered(PhotoCache(fs, ks, i), SubtopicCache(fs, ks, i)) && Owned(SubtopicCache(fs, ks, i), CategoryKeys(fs, ks, i))
  }

  /*
   * The two lemmas below pass the invariant along as `ScanInvariant(..) == true`,
   * which the verifier checks as one fact instead of one fact per conjunct.
   */

  /** Scanning one more item under a fresh, slash-free key keeps the invariant. */
  lemma ScanCoversStep(fs: seq<Folder>, ks: seq<string>, i: nat)
    requires i < |fs| == |ks|
    requires fs[i].isDir ==> '/' !in ks[i] && ks[i] !in CategoryKeys(fs, ks, i)
    requires ScanInvariant(fs, ks, i) == true
    ensures ScanInvariant(fs, ks, i + 1) == true
  {
    var f := fs[i];
    if f.isDir {
      CategoryCovers(PhotoCache(fs, ks, i), SubtopicCache(fs, ks, i), CategoryKeys(fs, ks, i), ks[i], f);
      assert CategoryKeys(fs, ks, i + 1) == CategoryKeys(fs, ks, i) + [ks[i]];
    } else {
      assert CategoryKeys(fs, ks, i + 1) == CategoryKeys(fs, ks, i);
    }
  }

  /** Scanning the items from `i` on keeps the invariant to the end. */
  lemma ScanCoversFrom(fs: seq<Folder>, ks: seq<string>, i: nat)
    requires i <= |fs| == |ks| && GoodKeys(fs, ks)
    requires ScanInvariant(fs, ks, i) == true
    ensures ScanInvariant(fs, ks, |fs|) == true
    decreases |fs| - i
  {
    if i < |fs| {
      if fs[i].isDir {
        KeyIsNew(fs, ks, i, i);
      }
      ScanCoversStep(fs, ks, i);
      ScanCoversFrom(fs, ks, i + 1);
    }
  }

  /** The scan with good keys keeps every subtopic list inside its category's list. */
  lemma ScanCovers(fs: seq<Folder>, ks: seq<string>)
    requires |fs| == |ks| && GoodKeys(fs, ks)
    ensures ScanInvariant(fs, ks, |fs|) == true
  {
    ScanCoversFrom(fs, ks, 0);
  }

  /** A category folder with photos is cached under its key with all of them. */
  ghost predicate CategoryCached(photos: Dict<string, seq<MediaFile>>, f: Folder, key: string) {
    f.isDir && CategoryPhotos(f.name, f.children) != [] ==>
      Get(photos, key) == Some(CategoryPhotos(f.name, f.children))
  }

  /** Caching another folder under a different key leaves a category's list in place. */
  lemma CachedStep(photos: Dict<string, seq<MediaFile>>, f: Folder, key: string, g: Folder, gkey: string)
    requires f.isDir && g.isDir ==> key != gkey
    requires CategoryCached(photos, f, key) == true
    ensures var cp := CategoryPhotos(g.name, g.children);
      CategoryCached(if g.isDir && cp != [] then Put(photos, gkey, cp) else photos, f, key) == true
  {
    var cp := CategoryPhotos(g.name, g.children);
    if g.isDir && cp != [] && f.isDir {
      assert Get(Put(photos, gkey, cp), key) == Get(photos, key);
    }
  }

  /** Every category among the first `i` items is cached as it should be. */
  ghost predicate AllCached(fs: seq<Folder>, ks: seq<string>, i: nat)
    requires i <= |fs| == |ks|
  {
    forall k {:trigger CategoryCached(PhotoCache(fs, ks, i), fs[k], ks[k])} ::
      0 <= k < i ==> CategoryCached(PhotoCache(fs, ks, i), fs[k], ks[k])
  }

  /** Scanning item `i` caches it, and leaves an earlier category with another key cached. */
  lemma CachedNext(fs: seq<Folder>, ks: seq<string>, i: nat, k: nat)
    requires k <= i < |fs| == |ks|
    requires k < i ==> CategoryCached(PhotoCache(fs, ks, i), fs[k], ks[k])
    requires k < i && fs[k].isDir && fs[i].isDir ==> ks[k] != ks[i]
    ensures CategoryCached(PhotoCache(fs, ks, i + 1), fs[k], ks[k])
  {
    var photos := PhotoCache(fs, ks, i);
    var g := fs[i];
    var cp := CategoryPhotos(g.name, g.children);
    if k == i {
      if g.isDir && cp != [] {
        assert Get(Put(photos, ks[i], cp), ks[i]) == Some(cp);
      }
    } else {
      CachedStep(photos, fs[k], ks[k], g, ks[i]);
    }
  }

  /** With good keys, scanning one more item caches it and leaves the earlier categories in place. */
  lemma AllCachedStep(fs: seq<Folder>, ks: seq<string>, i: nat)
    requires i < |fs| == |ks| && GoodKeys(fs, ks)
    requires AllCached(fs, ks, i) == true
    ensures AllCached(fs, ks, i + 1) == true
  {
    forall k | 0 <= k < i + 1
      ensures CategoryCached(PhotoCache(fs, ks, i + 1), fs[k], ks[k])
    {
      CachedNext(fs, ks, i, k);
    }
  }

  /** Scanning the items from `i` on keeps every category cached to the end. */
  lemma AllCachedFrom(fs: seq<Folder>, ks: seq<string>, i: nat)
    requires i <= |fs| == |ks| && GoodKeys(fs, ks)
    requires AllCached(fs, ks, i) == true
    ensures AllCached(fs, ks, |fs|) == true
    decreases |fs| - i
  {
    if i < |fs| {
      AllCachedStep(fs, ks, i);
      AllCachedFrom(fs, ks, i + 1);
    }
  }

  /**
   * With good keys, each category with photos is cached under its key
   * with all of them once the whole root is scanned: its own photos, then
   * every subtopic folder's.
   */
  lemma ScanCachesCategories(fs: seq<Folder>, ks: seq<string>)
    requires |fs| == |ks| && GoodKeys(fs, ks)
    ensures AllCached(fs, ks, |fs|) == true
  {
    AllCachedFrom(fs, ks, 0);
  }

  /**
   * When category names are distinct and slash-free, every photo cached
   * under a subtopic key is also cached under that key's category, and
   * each category with photos is cached under its normalized name with
   * all of them: its own photos, then every subtopic folder's.
   */
  lemma ScanRootCovers(root: Option<seq<Folder>>)
    requires root.Some? ==> DistinctCategories(root.value)
    ensures root.None? ==> ScanRoot(root) == Caches([], [], [])
    ensures Covered(ScanRoot(root).photos, ScanRoot(root).subtopics)
    ensures root.Some? ==> forall k :: 0 <= k < |root.value| ==>
      CategoryCached(ScanRoot(root).photos, root.value[k], NormalizeCategory(root.value[k].name))
  {
    if root.Some? {
      var fs := root.value;
      var ks := FolderKeys(fs);
      assert ScanRoot(root) == ScanWith(fs, ks, |fs|);
      DistinctGoodKeys(fs);
      ScanCovers(fs, ks);
      ScanCachesCategories(fs, ks);
    }
  }

  /**
   * Two category folders: the first holds one subtopic folder with one
   * photo, the second holds one photo directly.
   */
  function ClashFolders(first: string, second: string, subtopic: string, photoA: string, photoX: string): seq<Folder> {
    [Folder(first, true, [Child(first + "/" + subtopic, subtopic, "", false, true, [Entry(photoA, ".jpg")])]),
     Folder(second, true, [Child(photoX, "x.jpg", ".jpg", true, false, [])])]
  }

  /** The photos each of the two folders contributes. */
  lemma ClashPhotos(first: string, second: string, subtopic: string, photoA: string, photoX: string)
    ensures var fs := ClashFolders(first, second, subtopic, photoA, photoX);
      SubtopicPhotos(first, fs[0].children[0].entries) == [MediaFile(photoA, Some(first))]
      && CategoryPhotos(first, fs[0].children) == [MediaFile(photoA, Some(first))]
      && CategoryPhotos(second, fs[1].children) == [MediaFile(photoX, Some(second))]
  {
    var fs := ClashFolders(first, second, subtopic, photoA, photoX);
    var a := MediaFile(photoA, Some(first));
    var sub := fs[0].children[0];
    var file := fs[1].children[0];
    assert IsPhoto(".jpg") by {
      assert Lower(".jpg") == ".jpg";
    }
    assert EntryPhotos(first, sub.entries, 1) == [a];
    assert NestedPhotos(first, [sub], 1) == [a];
    assert DirectPhotos(first, [sub], 1) == [];
    assert DirectPhotos(second, [file], 1) == [MediaFile(photoX, Some(second))];
    assert NestedPhotos(second, [file], 1) == [];
  }

  /** What scanning the two folders caches, under one shared key `n`. */
  lemma ClashCaches(first: string, second: string, subtopic: string, photoA: string, photoX: string, n: string)
    ensures var fs := ClashFolders(first, second, subtopic, photoA, photoX);
      var ks := [n, n];
      SubtopicCache(fs, ks, 2) == Put([], SubtopicKey(n, subtopic), [MediaFile(photoA, Some(first))])
      && PhotoCache(fs, ks, 2) == Put(Put([], n, [MediaFile(photoA, Some(first))]), n, [MediaFile(photoX, Some(second))])
  {
    var fs := ClashFolders(first, second, subtopic, photoA, photoX);
    var ks := [n, n];
    var a := MediaFile(photoA, Some(first));
    var sub := fs[0].children[0];
    var file := fs[1].children[0];
    ClashPhotos(first, second, subtopic, photoA, photoX);
    assert fs[0].children == [sub] && fs[1].children == [file];
    assert SubtopicPut([], n, first, sub) == Put([], SubtopicKey(n, subtopic), [a]);
    assert SubtopicCache(fs, ks, 0) == [];
    assert fs[0].isDir && fs[0].name == first && ks[0] == n && fs[1].isDir;
    var sc1 := SubtopicCache(fs, ks, 1);
    assert sc1 == SubtopicPuts([], n, first, fs[0].children, 1);
    assert SubtopicPuts(sc1, n, second, [file], 1) == sc1;
    assert PhotoCache(fs, ks, 1) == Put([], n, [a]);
  }

  /**
   * Without distinct names the cache invariant can fail. Two category
   * folders whose names normalize alike share one key: the later folder
   * replaces the category list, while the earlier folder's subtopic list
   * stays, so the subtopic photo is missing from the category list it is
   * filed under.
   */
  lemma ScanNameClash(first: string, second: string, subtopic: string, photoA: string, photoX: string)
    requires NormalizeCategory(first) == NormalizeCategory(second) && '/' !in NormalizeCategory(first)
    requires photoA != photoX
    ensures var c := ScanRoot(Some(ClashFolders(first, second, subtopic, photoA, photoX)));
      !Covered(c.photos, c.subtopics)
  {
    var n := NormalizeCategory(first);
    var a := MediaFile(photoA, Some(first));
    var x := MediaFile(photoX, Some(second));
    var fs := ClashFolders(first, second, subtopic, photoA, photoX);
    var ks := FolderKeys(fs);
    assert ks == [n, n];
    ClashCaches(first, second, subtopic, photoA, photoX, n);
    var key := SubtopicKey(n, subtopic);
    SubtopicKeyParts(n, subtopic);
    var c := ScanRoot(Some(fs));
    assert c == ScanWith(fs, ks, 2);
    assert Get(c.subtopics, key) == Some([a]);
    assert Get(c.photos, n) == Some([x]);
    assert a in Get(c.subtopics, key).value && a !in Get(c.photos, CategoryPart(key)).value;
  }

  /** `Batumi` and `batumi`, two distinct folder names on a case-sensitive file system, normalize alike. */
  lemma BatumiNamesClash()
    ensures NormalizeCategory("Batumi") == NormalizeCategory("batumi") == "batumi"
    ensures '/' !in NormalizeCategory("Batumi")
  {
    assert Lower("Batumi") == "batumi";
    assert Lower("batumi") == "batumi";
    StripNoop("batumi");
  }

  // ---------------------------------------------------------------------
  // Lookups
  // ---------------------------------------------------------------------

  /** `category_id.replace("_", " ").lower()` */
  function NormalizeId(id: string): string {
    Lower(ReplaceChar(id, '_', ' '))
  }

  /** The id rule: the key contains the normalized id, or is contained in it. */
  predicate IdMatches(normalizedId: string, key: string) {
    Contains(key, normalizedId) || Contains(normalizedId, key)
  }

  /** The word rule: some word of the name longer than three characters occurs in the key. */
  predicate WordMatches(words: seq<string>, key: string) {
    exists w :: w in words && |w| > 3 && Contains(key, w)
  }

  /**
   * Where the photos for a topic category are found: the entry of the
   * exact normalized name, else the first key matching the id rule, else
   * the first key matching the word rule, else -1.
   */
  function CategoryMatch(cache: Dict<string, seq<MediaFile>>, id: string, name: string): (i: int)
    ensures -1 <= i < |cache|
    ensures HasKey(cache, NormalizeCategory(name)) ==> i == IndexOf(cache, NormalizeCategory(name))
  {
    var n := NormalizeCategory(name);
    if HasKey(cache, n) then IndexOf(cache, n)
    else
      var nid := NormalizeId(id);
      var i := FirstKeyWhere(cache, k => IdMatches(nid, k), 0);
      if i >= 0 then i
      else
        var words := Words(n);
        FirstKeyWhere(cache, k => WordMatches(words, k), 0)
  }

  /** `find_photos_for_category`: the list at the matching entry, or nothing. */
  function FindPhotosForCategory(cache: Dict<string, seq<MediaFile>>, id: string, name: string): (r: seq<MediaFile>)
    ensures HasKey(cache, NormalizeCategory(name)) ==> Some(r) == Get(cache, NormalizeCategory(name))
    ensures r == [] || exists i :: 0 <= i < |cache| && r == cache[i].1
  {
    var i := CategoryMatch(cache, id, name);
    if i < 0 then [] else cache[i].1
  }

  /** Without an exact match, the first key in cache order that matches the id rule wins. */
  lemma FindCategoryById(cache: Dict<string, seq<MediaFile>>, id: string, name: string, i: nat)
    requires !HasKey(cache, NormalizeCategory(name))
    requires i < |cache| && IdMatches(NormalizeId(id), cache[i].0)
    requires forall j :: 0 <= j < i ==> !IdMatches(NormalizeId(id), cache[j].0)
    ensures FindPhotosForCategory(cache, id, name) == cache[i].1
  {
    var nid := NormalizeId(id);
    var f := FirstKeyWhere(cache, k => IdMatches(nid, k), 0);
    assert f == i;
  }

  /** With neither an exact nor an id match, the first key matching the word rule wins. */
  lemma FindCategoryByWord(cache: Dict<string, seq<MediaFile>>, id: string, name: string, i: nat)
    requires !HasKey(cache, NormalizeCategory(name))
    requires forall j :: 0 <= j < |cache| ==> !IdMatches(NormalizeId(id), cache[j].0)
    requires i < |cache| && WordMatches(Words(NormalizeCategory(name)), cache[i].0)
    requires forall j :: 0 <= j < i ==> !WordMatches(Words(NormalizeCategory(name)), cache[j].0)
    ensures FindPhotosForCategory(cache, id, name) == cache[i].1
  {
    var nid := NormalizeId(id);
    var words := Words(NormalizeCategory(name));
    var f := FirstKeyWhere(cache, k => IdMatches(nid, k), 0);
    assert f == -1;
    var g := FirstKeyWhere(cache, k => WordMatches(words, k), 0);
    assert g == i;
  }

  /** No entry matches exactly when none of the three rules matches any key. */
  lemma CategoryMatchNone(cache: Dict<string, seq<MediaFile>>, id: string, name: string)
    ensures CategoryMatch(cache, id, name) == -1 <==>
      !HasKey(cache, NormalizeCategory(name))
      && (forall j :: 0 <= j < |cache| ==> !IdMatches(NormalizeId(id), cache[j].0))
      && (forall j :: 0 <= j < |cache| ==> !WordMatches(Words(NormalizeCategory(name)), cache[j].0))
  {
    var n := NormalizeCategory(name);
    var nid := NormalizeId(id);
    var words := Words(n);
    if !HasKey(cache, n) {
      var f := FirstKeyWhere(cache, k => IdMatches(nid, k), 0);
      var g := FirstKeyWhere(cache, k => WordMatches(words, k), 0);
      assert f == -1 <==> forall j :: 0 <= j < |cache| ==> !IdMatches(nid, cache[j].0);
      assert g == -1 <==> forall j :: 0 <= j < |cache| ==> !WordMatches(words, cache[j].0);
    }
  }

  /** Over a cache of non-empty lists, the lookup comes back empty exactly when no entry matches. */
  lemma FindCategoryNothing(cache: Dict<string, seq<MediaFile>>, id: string, name: string)
    requires forall i :: 0 <= i < |cache| ==> cache[i].1 != []
    ensures FindPhotosForCategory(cache, id, name) == [] <==> CategoryMatch(cache, id, name) == -1
  {
  }

  /** The partial rule for subtopics: a key of the same category whose subtopic part contains, or is contained in, the subtopic. */
  predicate SubtopicMatches(normalizedCategory: string, normalizedSubtopic: string, key: string) {
    StartsWith(key, normalizedCategory + "/")
    && (Contains(SubtopicPart(key), normalizedSubtopic) || Contains(normalizedSubtopic, SubtopicPart(key)))
  }

  /** The photos for a subtopic: the exact key, else the first partial match, else nothing. */
  function FindPhotosForSubtopic(cache: Dict<string, seq<MediaFile>>, category: string, subtopic: string): (r: seq<MediaFile>)
    ensures HasKey(cache, NormalizeCategory(category) + "/" + NormalizeCategory(subtopic)) ==>
      Some(r) == Get(cache, NormalizeCategory(category) + "/" + NormalizeCategory(subtopic))
    ensures r == [] || exists i :: 0 <= i < |cache| && r == cache[i].1
  {
    var nc := NormalizeCategory(category);
    var ns := NormalizeCategory(subtopic);
    var key := nc + "/" + ns;
    if HasKey(cache, key) then Get(cache, key).value
    else
      var i := FirstKeyWhere(cache, k => SubtopicMatches(nc, ns, k), 0);
      if i >= 0 then cache[i].1 else []
  }

  /** Without the exact key, the first key of the same category whose subtopic part matches wins. */
  lemma FindSubtopicPartial(cache: Dict<string, seq<MediaFile>>, category: string, subtopic: string, i: nat)
    requires !HasKey(cache, NormalizeCategory(category) + "/" + NormalizeCategory(subtopic))
    requires i < |cache| && SubtopicMatches(NormalizeCategory(category), NormalizeCategory(subtopic), cache[i].0)
    requires forall j :: 0 <= j < i ==> !SubtopicMatches(NormalizeCategory(category), NormalizeCategory(subtopic), cache[j].0)
    ensures FindPhotosForSubtopic(cache, category, subtopic) == cache[i].1
  {
    var nc := NormalizeCategory(category);
    var ns := NormalizeCategory(subtopic);
    var f := FirstKeyWhere(cache, k => SubtopicMatches(nc, ns, k), 0);
    assert f == i;
  }

  /** A key under a slash-free category name matches on its subtopic half. */
  lemma SubtopicMatchesKey(n: string, ns: string, sub: string)
    requires '/' !in n
    ensures SubtopicMatches(n, ns, SubtopicKey(n, sub)) <==>
      Contains(NormalizeCategory(sub), ns) || Contains(ns, NormalizeCategory(sub))
  {
    SubtopicKeyParts(n, sub);
    var k := SubtopicKey(n, sub);
    assert k[..|n + "/"|] == n + "/";
  }

  // ---------------------------------------------------------------------
  // Selection pools
  // ---------------------------------------------------------------------

  /** A filter's result replaces the pool only when it keeps something. */
  function KeepIfAny<T>(filtered: seq<T>, pool: seq<T>): (r: seq<T>)
    ensures r == filtered || r == pool
    ensures r == [] ==> filtered == [] && pool == []
  {
    if filtered != [] then filtered else pool
  }

  /** What the content history knows about recent uses, read on day `today`. */
  datatype Cooldowns = Cooldowns(
    lastUsedPhotos: map<string, int>,
    photoDays: int,
    lastUsedMusic: map<string, int>,
    musicDays: int,
    today: int)

  predicate PhotoAvailable(h: Cooldowns, p: MediaFile) {
    ContentHistory.Available(h.lastUsedPhotos, h.photoDays, p.path, h.today)
  }

  predicate MusicAvailable(h: Cooldowns, t: MediaFile) {
    ContentHistory.Available(h.lastUsedMusic, h.musicDays, t.path, h.today)
  }

  /** The pool before filtering: the subtopic's photos, else the category's, else the whole library. */
  function BasePhotoPool(photos: Dict<string, seq<MediaFile>>, subtopics: Dict<string, seq<MediaFile>>,
                         id: string, name: string, subtopic: Option<string>): seq<MediaFile> {
    var fromSubtopic := if subtopic.Some? && subtopic.value != [] then FindPhotosForSubtopic(subtopics, name, subtopic.value) else [];
    var fromCategory := if fromSubtopic != [] then fromSubtopic else FindPhotosForCategory(photos, id, name);
    if fromCategory != [] then fromCategory else Flatten(photos)
  }

  /** The pool after the exclusion filter and the cooldown filter, each kept only when it keeps something. */
  function PhotoPool(base: seq<MediaFile>, exclude: seq<string>, checkCooldown: bool, history: Option<Cooldowns>): seq<MediaFile> {
    var afterExclude := if exclude != [] then KeepIfAny(Filter((p: MediaFile) => p.path !in exclude, base), base) else base;
    if checkCooldown && history.Some? then
      var h := history.value;
      KeepIfAny(Filter((p: MediaFile) => PhotoAvailable(h, p), afterExclude), afterExclude)
    else afterExclude
  }

  /** The filters only narrow the pool, and never empty a non-empty one. */
  lemma PhotoPoolWithin(base: seq<MediaFile>, exclude: seq<string>, checkCooldown: bool, history: Option<Cooldowns>)
    ensures forall p :: p in PhotoPool(base, exclude, checkCooldown, history) ==> p in base
    ensures PhotoPool(base, exclude, checkCooldown, history) == [] <==> base == []
  {
  }

  /** If the pool holds a photo not used in the series, no excluded photo can be picked. */
  lemma PhotoPoolAvoidsExcluded(base: seq<MediaFile>, exclude: seq<string>, checkCooldown: bool, history: Option<Cooldowns>, q: MediaFile)
    requires q in base && q.path !in exclude
    ensures forall p :: p in PhotoPool(base, exclude, checkCooldown, history) ==> p.path !in exclude
  {
  }

  /**
   * If the pool holds a photo that is neither excluded nor on cooldown,
   * every photo left to pick from is neither.
   */
  lemma PhotoPoolPrefersAvailable(base: seq<MediaFile>, exclude: seq<string>, history: Cooldowns, q: MediaFile)
    requires q in base && q.path !in exclude && PhotoAvailable(history, q)
    ensures forall p :: p in PhotoPool(base, exclude, true, Some(history)) ==>
      p.path !in exclude && PhotoAvailable(history, p)
  {
    var afterExclude := if exclude != [] then KeepIfAny(Filter((p: MediaFile) => p.path !in exclude, base), base) else base;
    assert q in afterExclude;
    assert forall p :: p in afterExclude ==> p.path !in exclude;
  }

  /**
   * Over caches of non-empty lists, the base pool is empty only when
   * there is no photo at all, and with no photo and no subtopic entry it is.
   */
  lemma BasePhotoPoolEmpty(photos: Dict<string, seq<MediaFile>>, subtopics: Dict<string, seq<MediaFile>>,
                           id: string, name: string, subtopic: Option<string>)
    requires forall i :: 0 <= i < |photos| ==> photos[i].1 != []
    ensures BasePhotoPool(photos, subtopics, id, name, subtopic) == [] ==> photos == []
    ensures photos == [] && subtopics == [] ==> BasePhotoPool(photos, subtopics, id, name, subtopic) == []
  {
    if photos != [] {
      assert photos[0].1 != [] && photos[0].1[0] in Flatten(photos);
    }
  }

  /** The label a track is counted under: its folder, or "root". */
  function MusicLabel(t: MediaFile): string {
    if t.category.Some? && t.category.value != [] then t.category.value else "root"
  }

  function MusicLabels(ts: seq<MediaFile>): (r: seq<string>)
    ensures |r| == |ts| && forall i :: 0 <= i < |ts| ==> r[i] == MusicLabel(ts[i])
  {
    if ts == [] then [] else MusicLabels(ts[..|ts| - 1]) + [MusicLabel(ts[|ts| - 1])]
  }

  /** The track pool after the category filter and the cooldown filter, each kept only when it keeps something. */
  function MusicPool(tracks: seq<MediaFile>, category: Option<string>, checkCooldown: bool, history: Option<Cooldowns>): seq<MediaFile> {
    var afterCategory := if category.Some? && category.value != [] then
      var c := category.value;
      KeepIfAny(Filter((t: MediaFile) => t.category == Some(c), tracks), tracks)
    else tracks;
    if checkCooldown && history.Some? then
      var h := history.value;
      KeepIfAny(Filter((t: MediaFile) => MusicAvailable(h, t), afterCategory), afterCategory)
    else afterCategory
  }

  /** The filters only narrow the track pool, and never empty a non-empty one. */
  lemma MusicPoolWithin(tracks: seq<MediaFile>, category: Option<string>, checkCooldown: bool, history: Option<Cooldowns>)
    ensures forall t :: t in MusicPool(tracks, category, checkCooldown, history) ==> t in tracks
    ensures MusicPool(tracks, category, checkCooldown, history) == [] <==> tracks == []
  {
  }

  /** If some track is in the requested folder, only tracks of that folder can be picked. */
  lemma MusicPoolKeepsCategory(tracks: seq<MediaFile>, category: string, checkCooldown: bool, history: Option<Cooldowns>, q: MediaFile)
    requires category != [] && q in tracks && q.category == Some(category)
    ensures forall t :: t in MusicPool(tracks, Some(category), checkCooldown, history) ==> t.category == Some(category)
  {
  }

  /** If some track of the pool is off cooldown, only tracks off cooldown can be picked. */
  lemma MusicPoolPrefersAvailable(tracks: seq<MediaFile>, history: Cooldowns, q: MediaFile)
    requires q in tracks && MusicAvailable(history, q)
    ensures forall t :: t in MusicPool(tracks, None, true, Some(history)) ==> MusicAvailable(history, t)
  {
  }

  // ---------------------------------------------------------------------
  // Statistics
  // ---------------------------------------------------------------------

  /** `{cat: len(photos) for cat, photos in cache.items()}` */
  function PhotoCounts(cache: Dict<string, seq<MediaFile>>): (r: Dict<string, nat>)
    ensures |r| == |cache| && forall i :: 0 <= i < |cache| ==> r[i] == (cache[i].0, |cache[i].1|)
  {
    if cache == [] then [] else PhotoCounts(cache[..|cache| - 1]) + [(cache[|cache| - 1].0, |cache[|cache| - 1].1|)]
  }

  lemma {:induction false} SumValuesSnoc(d: Dict<string, nat>, e: (string, nat))
    ensures SumValues(d + [e]) == SumValues(d) + e.1
  {
    if d != [] {
      assert (d + [e])[1..] == d[1..] + [e];
      SumValuesSnoc(d[1..], e);
    }
  }

  /** The photo total, the sum of the per-category counts, is the number of cached photos. */
  lemma {:induction false} PhotoTotal(cache: Dict<string, seq<MediaFile>>)
    ensures SumValues(PhotoCounts(cache)) == |Flatten(cache)|
  {
    if cache != [] {
      var init := cache[..|cache| - 1];
      PhotoTotal(init);
      SumValuesSnoc(PhotoCounts(init), (cache[|cache| - 1].0, |cache[|cache| - 1].1|));
    }
  }

  // ---------------------------------------------------------------------
  // The manager
  // ---------------------------------------------------------------------

  class MediaManager {
    var photosCache: Dict<string, seq<MediaFile>>
    var subtopicCache: Dict<string, seq<MediaFile>>
    var categoryMapping: Dict<string, string>
    var musicCache: seq<MediaFile>

    /** Scans both roots; a root given as None does not exist. */
    constructor (photoRoot: Option<seq<Folder>>, musicRoot: Option<seq<Track>>)
      ensures Caches(photosCache, subtopicCache, categoryMapping) == ScanRoot(photoRoot)
      ensures musicCache == MusicRoot(musicRoot)
    {
      new;
      ScanPhotos(photoRoot);
      ScanMusic(musicRoot);
    }

    /** Clears the photo caches and refills them from the folders, one category at a time. */
    method ScanPhotos(root: Option<seq<Folder>>)
      modifies this
      ensures Caches(photosCache, subtopicCache, categoryMapping) == ScanRoot(root)
      ensures musicCache == old(musicCache)
    {
      photosCache, subtopicCache, categoryMapping := [], [], [];
      if root.Some? {
        photosCache, subtopicCache, categoryMapping := ScanFolderList(root.value);
      }
    }

    /** The scanning loop over the items of the photo root, on the three caches as values. */
    static method ScanFolderList(fs: seq<Folder>)
      returns (photos: Dict<string, seq<MediaFile>>, subs: Dict<string, seq<MediaFile>>, mapping: Dict<string, string>)
      ensures Caches(photos, subs, mapping) == ScanFolders(fs, |fs|)
    {
      photos, subs, mapping := [], [], [];
      ghost var ks := FolderKeys(fs);
      var i := 0;
      while i < |fs|
        invariant 0 <= i <= |fs|
        invariant Caches(photos, subs, mapping) == ScanWith(fs, ks, i)
      {
        photos, subs, mapping := ScanItem(fs, ks, i, photos, subs, mapping);
        i := i + 1;
      }
    }

    /** Scans the `i`-th item of the photo root: a folder is a category, anything else is skipped. */
    static method ScanItem(fs: seq<Folder>, ghost ks: seq<string>, i: nat,
                           photos0: Dict<string, seq<MediaFile>>, subs0: Dict<string, seq<MediaFile>>, mapping0: Dict<string, string>)
      returns (photos: Dict<string, seq<MediaFile>>, subs: Dict<string, seq<MediaFile>>, mapping: Dict<string, string>)
      requires i < |fs| && ks == FolderKeys(fs)
      requires Caches(photos0, subs0, mapping0) == ScanWith(fs, ks, i)
      ensures Caches(photos, subs, mapping) == ScanWith(fs, ks, i + 1)
    {
      ScanStep(fs, ks, i);
      photos, subs, mapping := photos0, subs0, mapping0;
      if fs[i].isDir {
        var n := NormalizeCategory(fs[i].name);
        assert n == ks[i];
        photos, subs, mapping := ScanCategory(fs[i], n, photos, subs, mapping);
      }
    }

    /** Scans one category folder under its key `n`: its direct photos, then each subtopic folder. */
    static method ScanCategory(f: Folder, n: string, photos0: Dict<string, seq<MediaFile>>, subs0: Dict<string, seq<MediaFile>>, mapping0: Dict<string, string>)
      returns (photos: Dict<string, seq<MediaFile>>, subs: Dict<string, seq<MediaFile>>, mapping: Dict<string, string>)
      ensures var cp := CategoryPhotos(f.name, f.children);
        photos == (if cp != [] then Put(photos0, n, cp) else photos0)
        && subs == SubtopicPuts(subs0, n, f.name, f.children, |f.children|)
        && mapping == Put(mapping0, n, f.name)
    {
      var name := f.name;
      var cs := f.children;
      mapping := Put(mapping0, n, name);
      var direct := CollectDirect(name, cs);
      var categoryPhotos;
      subs, categoryPhotos := ScanSubtopics(name, n, cs, subs0, direct);
      photos := photos0;
      if categoryPhotos != [] {
        photos := Put(photos, n, categoryPhotos);
      }
    }

    /**
     * Scans the subtopic folders of a category: each one's photos are
     * appended to the category's list and, when there are any, stored
     * under the subtopic's key.
     */
    static method ScanSubtopics(name: string, n: string, cs: seq<Child>, subs0: Dict<string, seq<MediaFile>>, direct: seq<MediaFile>)
      returns (subs: Dict<string, seq<MediaFile>>, categoryPhotos: seq<MediaFile>)
      ensures subs == SubtopicPuts(subs0, n, name, cs, |cs|)
      ensures categoryPhotos == direct + NestedPhotos(name, cs, |cs|)
    {
      subs, categoryPhotos := subs0, direct;
      var j := 0;
      assert direct + [] == direct;
      while j < |cs|
        invariant 0 <= j <= |cs|
        invariant categoryPhotos == direct + NestedPhotos(name, cs, j)
        invariant subs == SubtopicPuts(subs0, n, name, cs, j)
      {
        subs, categoryPhotos := ScanSubtopicItem(name, n, cs, j, subs0, direct, subs, categoryPhotos);
        j := j + 1;
      }
    }

    /** One round of the subtopic loop: scanning child `j` extends both results by it. */
    static method ScanSubtopicItem(name: string, n: string, cs: seq<Child>, j: nat,
                                   ghost subs0: Dict<string, seq<MediaFile>>, ghost direct: seq<MediaFile>,
                                   subs1: Dict<string, seq<MediaFile>>, photos1: seq<MediaFile>)
      returns (subs: Dict<string, seq<MediaFile>>, photos: seq<MediaFile>)
      requires j < |cs|
      requires photos1 == direct + NestedPhotos(name, cs, j)
      requires subs1 == SubtopicPuts(subs0, n, name, cs, j)
      ensures photos == direct + NestedPhotos(name, cs, j + 1)
      ensures subs == SubtopicPuts(subs0, n, name, cs, j + 1)
    {
      ConcatAssoc(direct, NestedPhotos(name, cs, j), ChildPhotos(name, cs[j]));
      subs, photos := ScanSubtopicFolder(name, n, cs[j], subs1, photos1);
    }

    /** Scans one child of a category folder, if it is a subtopic folder. */
    static method ScanSubtopicFolder(name: string, n: string, c: Child, subs0: Dict<string, seq<MediaFile>>, photos0: seq<MediaFile>)
      returns (subs: Dict<string, seq<MediaFile>>, photos: seq<MediaFile>)
      ensures photos == photos0 + ChildPhotos(name, c)
      ensures subs == SubtopicPut(subs0, n, name, c)
    {
      subs, photos := subs0, photos0;
      if c.isDir {
        var subtopicPhotos := CollectSubtopic(name, c.entries);
        photos := photos + subtopicPhotos;
        if subtopicPhotos != [] {
          subs := Put(subs, SubtopicKey(n, c.name), subtopicPhotos);
        }
      } else {
        assert photos0 + [] == photos0;
      }
    }

    /** Lists the photo files lying directly in a category folder. */
    static method CollectDirect(category: string, cs: seq<Child>) returns (photos: seq<MediaFile>)
      ensures photos == DirectPhotos(category, cs, |cs|)
    {
      photos := [];
      var j := 0;
      while j < |cs|
        invariant 0 <= j <= |cs|
        invariant photos == DirectPhotos(category, cs, j)
      {
        if cs[j].isFile && IsPhoto(cs[j].suffix) {
          photos := photos + [MediaFile(cs[j].path, Some(category))];
        }
        j := j + 1;
      }
    }

    /** Lists the photos of one subtopic folder. */
    static method CollectSubtopic(category: string, es: seq<Entry>) returns (photos: seq<MediaFile>)
      ensures photos == SubtopicPhotos(category, es)
    {
      photos := [];
      var k := 0;
      while k < |es|
        invariant 0 <= k <= |es|
        invariant photos == EntryPhotos(category, es, k)
      {
        if IsPhoto(es[k].suffix) {
          photos := photos + [MediaFile(es[k].path, Some(category))];
        }
        k := k + 1;
      }
    }

    /** Clears the music cache and refills it from the walk of the music root. */
    method ScanMusic(root: Option<seq<Track>>)
      modifies this
      ensures musicCache == MusicRoot(root)
      ensures photosCache == old(photosCache) && subtopicCache == old(subtopicCache)
      ensures categoryMapping == old(categoryMapping)
    {
      musicCache := [];
      if root.None? {
        return;
      }
      var ts := root.value;
      var i := 0;
      while i < |ts|
        invariant 0 <= i <= |ts|
        invariant musicCache == MusicFiles(ts, i)
        invariant photosCache == old(photosCache) && subtopicCache == old(subtopicCache)
        invariant categoryMapping == old(categoryMapping)
      {
        if ts[i].isFile && IsMusic(ts[i].suffix) {
          musicCache := musicCache + [MediaFile(ts[i].path, ts[i].parent)];
        }
        i := i + 1;
      }
    }

    /** The exclusion and cooldown filters of a photo selection, each dropped when it would leave nothing. */
    static method FilterPhotos(base: seq<MediaFile>, exclude: seq<string>, checkCooldown: bool, history: Option<Cooldowns>)
      returns (photos: seq<MediaFile>)
      ensures photos == PhotoPool(base, exclude, checkCooldown, history)
      ensures forall p :: p in photos ==> p in base
      ensures photos == [] <==> base == []
      ensures (exists q :: q in base && q.path !in exclude) ==> forall p :: p in photos ==> p.path !in exclude
      ensures checkCooldown && history.Some? && (exists q :: q in base && q.path !in exclude && PhotoAvailable(history.value, q)) ==>
        forall p :: p in photos ==> p.path !in exclude && PhotoAvailable(history.value, p)
    {
      PhotoPoolWithin(base, exclude, checkCooldown, history);
      if q :| q in base && q.path !in exclude {
        PhotoPoolAvoidsExcluded(base, exclude, checkCooldown, history, q);
      }
      if checkCooldown && history.Some? {
        if q :| q in base && q.path !in exclude && PhotoAvailable(history.value, q) {
          PhotoPoolPrefersAvailable(base, exclude, history.value, q);
        }
      }
      photos := base;
      if exclude != [] {
        var filtered := Filter((p: MediaFile) => p.path !in exclude, photos);
        if filtered != [] {
          photos := filtered;
        }
      }
      if checkCooldown && history.Some? {
        var h := history.value;
        var available := Filter((p: MediaFile) => PhotoAvailable(h, p), photos);
        if available != [] {
          photos := available;
        }
      }
    }

    /**
     * Picks a photo: from the subtopic, else the category, else the whole
     * library; then skips excluded photos and photos on cooldown unless
     * that would leave nothing. None only when there is nothing to pick.
     */
    method SelectPhoto(id: string, name: string, subtopic: Option<string>, checkCooldown: bool,
                       exclude: seq<string>, history: Option<Cooldowns>) returns (r: Option<MediaFile>)
      ensures r.None? <==> BasePhotoPool(photosCache, subtopicCache, id, name, subtopic) == []
      ensures r.Some? ==> r.value in PhotoPool(BasePhotoPool(photosCache, subtopicCache, id, name, subtopic), exclude, checkCooldown, history)
    {
      var photos := [];
      if subtopic.Some? && subtopic.value != [] {
        photos := FindPhotosForSubtopic(subtopicCache, name, subtopic.value);
      }
      if photos == [] {
        photos := FindPhotosForCategory(photosCache, id, name);
      }
      if photos == [] {
        var all := Flatten(photosCache);
        if all != [] {
          photos := all;
        } else {
          return None;
        }
      }
      assert photos == BasePhotoPool(photosCache, subtopicCache, id, name, subtopic);
      photos := FilterPhotos(photos, exclude, checkCooldown, history);
      PhotoPoolWithin(BasePhotoPool(photosCache, subtopicCache, id, name, subtopic), exclude, checkCooldown, history);
      assert photos[0] in photos;
      var selected :| selected in photos;
      r := Some(selected);
    }

    /**
     * Picks a track: None when there are none; otherwise from the requested
     * folder's tracks and then from those off cooldown, each filter kept
     * only when it leaves something.
     */
    method SelectMusic(category: Option<string>, checkCooldown: bool, history: Option<Cooldowns>) returns (r: Option<MediaFile>)
      ensures r.None? <==> musicCache == []
      ensures r.Some? ==> r.value in MusicPool(musicCache, category, checkCooldown, history)
    {
      var tracks := musicCache;
      if tracks == [] {
        return None;
      }
      if category.Some? && category.value != [] {
        var c := category.value;
        var categoryTracks := Filter((t: MediaFile) => t.category == Some(c), tracks);
        if categoryTracks != [] {
          tracks := categoryTracks;
        }
      }
      if checkCooldown && history.Some? {
        var h := history.value;
        var available := Filter((t: MediaFile) => MusicAvailable(h, t), tracks);
        if available != [] {
          tracks := available;
        }
      }
      assert tracks == MusicPool(musicCache, category, checkCooldown, history);
      assert tracks[0] in tracks;
      var selected :| selected in tracks;
      r := Some(selected);
    }

    /**
     * The statistics: photo counts per category and their total, and
     * track counts per folder ("root" for the music root) and their total.
     */
    method GetStats() returns (photoTotal: nat, photosByCategory: Dict<string, nat>, musicTotal: nat, musicByCategory: Dict<string, nat>)
      ensures photosByCategory == PhotoCounts(photosCache)
      ensures photoTotal == SumValues(photosByCategory) == |Flatten(photosCache)|
      ensures musicByCategory == Tally(MusicLabels(musicCache))
      ensures musicTotal == |musicCache| == SumValues(musicByCategory)
      ensures forall key :: Get(musicByCategory, key) == (if Count(MusicLabels(musicCache), key) == 0 then None else Some(Count(MusicLabels(musicCache), key)))
    {
      photosByCategory := PhotoCounts(photosCache);
      PhotoTotal(photosCache);
      photoTotal := SumValues(photosByCategory);
      musicByCategory := [];
      var i := 0;
      while i < |musicCache|
        invariant 0 <= i <= |musicCache|
        invariant musicByCategory == Tally(MusicLabels(musicCache[..i]))
      {
        var ks := MusicLabels(musicCache[..i + 1]);
        assert musicCache[..i + 1][..i] == musicCache[..i];
        assert ks[..i] == MusicLabels(musicCache[..i]) && ks[i] == MusicLabel(musicCache[i]);
        var tag := MusicLabel(musicCache[i]);
        musicByCategory := Bump(musicByCategory, tag);
        i := i + 1;
      }
      assert musicCache[..i] == musicCache;
      TallySum(MusicLabels(musicCache));
      forall key
        ensures Get(musicByCategory, key) == (if Count(MusicLabels(musicCache), key) == 0 then None else Some(Count(MusicLabels(musicCache), key)))
      {
        TallyGet(MusicLabels(musicCache), key);
      }
      musicTotal := |musicCache|;
    }
  }
}
