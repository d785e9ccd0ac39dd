/**
 * Topic selection: the categories of the topics file flattened into
 * (category id, category name, subtopic) triples, the triples that are off
 * cooldown and have photos, a free choice among the candidates, and the
 * lookups by category name and by subtopic.
 *
 * Reading the topics file is not modelled: the selector is given the
 * loaded categories. Whether a subtopic's folders hold photos is a
 * question to the file system, given as a test on (category name,
 * subtopic) when a photos folder is configured; the cooldowns are what the
 * content history knows on the day of the call.
 */
module TopicSelector {
  import opened Builtins
  import opened Dicts
  import ContentHistory

  /** One category of the topics file; a category without "subtopics" has none. */
  datatype Category = Category(id: string, name: string, subtopics: seq<string>)

  /** A (category id, category name, subtopic) triple; also the selection result. */
  datatype Topic = Topic(categoryId: string, categoryName: string, subtopic: string)

  /** The content history's subtopic dates and cooldown, read on `today`. */
  datatype SubtopicCooldown = SubtopicCooldown(lastUsed: map<string, int>, days: int, today: int)

  /**
   * The selector's state: the loaded categories, the content history if
   * one was given, and the photo-folder test if a photos folder was given.
   */
  datatype Selector = Selector(
    categories: seq<Category>,
    history: Option<SubtopicCooldown>,
    photos: Option<(string, string) -> bool>)

  // ---------------------------------------------------------------------
  // Flattening
  // ---------------------------------------------------------------------

  /** The triples of the first `j` subtopics of a category. */
  function CategoryTopics(c: Category, j: nat): (r: seq<Topic>)
    requires j <= |c.subtopics|
    ensures |r| == j && forall i :: 0 <= i < j ==> r[i] == Topic(c.id, c.name, c.subtopics[i])
  {
    if j == 0 then [] else CategoryTopics(c, j - 1) + [Topic(c.id, c.name, c.subtopics[j - 1])]
  }

  /** The triples of all categories, in category order and then subtopic order. */
  function Flattened(cs: seq<Category>): seq<Topic> {
    if cs == [] then []
    else
      var last := cs[|cs| - 1];
      Flattened(cs[..|cs| - 1]) + CategoryTopics(last, |last.subtopics|)
  }

  /** The number of subtopics over all categories. */
  function SubtopicCount(cs: seq<Category>): nat {
    if cs == [] then 0 else SubtopicCount(cs[..|cs| - 1]) + |cs[|cs| - 1].subtopics|
  }

  /** The flat list is as long as all subtopic lists together. */
  lemma {:induction false} FlattenedLength(cs: seq<Category>)
    ensures |Flattened(cs)| == SubtopicCount(cs)
  {
    if cs != [] {
      FlattenedLength(cs[..|cs| - 1]);
    }
  }

  /** Flattening a prefix and the rest gives the flat list of the whole. */
  lemma {:induction false} FlattenedSplit(cs: seq<Category>, i: nat)
    requires i <= |cs|
    ensures Flattened(cs) == Flattened(cs[..i]) + Flattened(cs[i..])
    decreases |cs|
  {
    if i == |cs| {
      assert cs[..i] == cs && cs[i..] == [];
    } else {
      var init := cs[..|cs| - 1];
      var last := cs[|cs| - 1];
      FlattenedSplit(init, i);
      assert init[..i] == cs[..i];
      assert cs[i..][..|cs[i..]| - 1] == init[i..];
      assert cs[i..][|cs[i..]| - 1] == last;
      ConcatAssoc(Flattened(cs[..i]), Flattened(init[i..]), CategoryTopics(last, |last.subtopics|));
    }
  }

  /** Every subtopic of every category appears in the flat list. */
  lemma {:induction false} FlattenedComplete(cs: seq<Category>, k: nat, j: nat)
    requires k < |cs| && j < |cs[k].subtopics|
    ensures Topic(cs[k].id, cs[k].name, cs[k].subtopics[j]) in Flattened(cs)
  {
    var init := cs[..|cs| - 1];
    var last := cs[|cs| - 1];
    if k < |cs| - 1 {
      FlattenedComplete(init, k, j);
      assert init[k] == cs[k];
    } else {
      assert CategoryTopics(last, |last.subtopics|)[j] == Topic(cs[k].id, cs[k].name, cs[k].subtopics[j]);
    }
  }

  /** Everything in the flat list is a subtopic of some category, with that category's id and name. */
  lemma {:induction false} FlattenedSound(cs: seq<Category>, t: Topic)
    requires t in Flattened(cs)
    ensures exists k, j :: 0 <= k < |cs| && 0 <= j < |cs[k].subtopics| && t == Topic(cs[k].id, cs[k].name, cs[k].subtopics[j])
  {
    var init := cs[..|cs| - 1];
    var last := cs[|cs| - 1];
    var tail := CategoryTopics(last, |last.subtopics|);
    if t in Flattened(init) {
      FlattenedSound(init, t);
      var k, j :| 0 <= k < |init| && 0 <= j < |init[k].subtopics| && t == Topic(init[k].id, init[k].name, init[k].subtopics[j]);
      assert init[k] == cs[k];
    } else {
      assert t in tail;
      var j :| 0 <= j < |tail| && tail[j] == t;
      assert t == Topic(cs[|cs| - 1].id, cs[|cs| - 1].name, cs[|cs| - 1].subtopics[j]);
    }
  }

  /** `get_all_subtopics`: the nested append loop yields the flat list. */
  method GetAllSubtopics(s: Selector) returns (result: seq<Topic>)
    ensures result == Flattened(s.categories)
  {
    var cs := s.categories;
    result := [];
    for i := 0 to |cs|
      invariant result == Flattened(cs[..i])
    {
      var cat := cs[i];
      ghost var before := result;
      for j := 0 to |cat.subtopics|
        invariant result == before + CategoryTopics(cat, j)
      {
        result := result + [Topic(cat.id, cat.name, cat.subtopics[j])];
      }
      assert cs[..i + 1][..i] == cs[..i] && cs[..i + 1][i] == cat;
    }
    assert cs[..|cs|] == cs;
  }

  // ---------------------------------------------------------------------
  // Availability
  // ---------------------------------------------------------------------

  /** Without a history every subtopic is off cooldown. */
  predicate OffCooldown(history: Option<SubtopicCooldown>, subtopic: string) {
    history.None? || ContentHistory.Available(history.value.lastUsed, history.value.days, subtopic, history.value.today)
  }

  /** `_has_photos_for_subtopic`: without a photos folder every topic counts as having photos. */
  predicate HasPhotos(photos: Option<(string, string) -> bool>, t: Topic) {
    photos.None? || photos.value(t.categoryName, t.subtopic)
  }

  /** A triple `get_available_subtopics` keeps. */
  predicate Eligible(s: Selector, t: Topic, checkPhotos: bool) {
    OffCooldown(s.history, t.subtopic) && (!checkPhotos || HasPhotos(s.photos, t))
  }

  /** The flat list with the triples on cooldown, or without photos when asked, left out. */
  function AvailableTopics(s: Selector, checkPhotos: bool): (r: seq<Topic>)
    ensures IsSubseq(r, Flattened(s.categories))
    ensures forall t :: t in r <==> t in Flattened(s.categories) && Eligible(s, t, checkPhotos)
  {
    Filter((t: Topic) => Eligible(s, t, checkPhotos), Flattened(s.categories))
  }

  /** With no photos folder, asking for photos changes nothing. */
  lemma NoPhotosFolderNoPhotoFilter(s: Selector)
    requires s.photos.None?
    ensures AvailableTopics(s, true) == AvailableTopics(s, false)
  {
    FilterSame((t: Topic) => Eligible(s, t, true), (t: Topic) => Eligible(s, t, false), Flattened(s.categories));
  }

  /** The eligible triples of one more element of the flat list. */
  lemma AvailableSnoc(s: Selector, checkPhotos: bool, all: seq<Topic>, i: nat)
    requires i < |all|
    ensures Filter((t: Topic) => Eligible(s, t, checkPhotos), all[..i + 1]) ==
      if Eligible(s, all[i], checkPhotos) then Filter((t: Topic) => Eligible(s, t, checkPhotos), all[..i]) + [all[i]]
      else Filter((t: Topic) => Eligible(s, t, checkPhotos), all[..i])
  {
    assert all[..i + 1] == all[..i] + [all[i]];
    FilterSnoc((t: Topic) => Eligible(s, t, checkPhotos), all[..i], all[i]);
  }

  /** One step of the availability loop: the triple is kept exactly when it is eligible. */
  method AvailableStep(s: Selector, checkPhotos: bool, all: seq<Topic>, i: nat, available: seq<Topic>)
    returns (r: seq<Topic>)
    requires i < |all|
    requires available == Filter((t: Topic) => Eligible(s, t, checkPhotos), all[..i])
    ensures r == Filter((t: Topic) => Eligible(s, t, checkPhotos), all[..i + 1])
  {
    var t := all[i];
    AvailableSnoc(s, checkPhotos, all, i);
    r := available;
    if s.history.Some? && !ContentHistory.Available(s.history.value.lastUsed, s.history.value.days, t.subtopic, s.history.value.today) {
      return;
    }
    if checkPhotos && s.photos.Some? && !s.photos.value(t.categoryName, t.subtopic) {
      return;
    }
    r := available + [t];
  }

  /** `get_available_subtopics` */
  method GetAvailableSubtopics(s: Selector, checkPhotos: bool) returns (available: seq<Topic>)
    ensures available == AvailableTopics(s, checkPhotos)
  {
    var all := GetAllSubtopics(s);
    available := [];
    for i := 0 to |all|
      invariant available == Filter((t: Topic) => Eligible(s, t, checkPhotos), all[..i])
    {
      available := AvailableStep(s, checkPhotos, all, i, available);
    }
    assert all[..|all|] == all;
  }

  // ---------------------------------------------------------------------
  // Random selection
  // ---------------------------------------------------------------------

  /**
   * The candidates of `select_random` before the category filter: the
   * available triples; but when the cooldown is not checked, every triple
   * with photos (every triple when there is no photos folder), and with
   * neither check every triple.
   */
  function Candidates(s: Selector, checkCooldown: bool, checkPhotos: bool): seq<Topic> {
    var all := Flattened(s.categories);
    if checkCooldown || checkPhotos then
      if !checkCooldown then
        if checkPhotos && s.photos.Some? then Filter((t: Topic) => HasPhotos(s.photos, t), all)
        else all
      else AvailableTopics(s, checkPhotos)
    else all
  }

  /** Each flag drops exactly the triples that fail its test, and nothing else is dropped. */
  lemma CandidatesMembers(s: Selector, checkCooldown: bool, checkPhotos: bool, t: Topic)
    ensures t in Candidates(s, checkCooldown, checkPhotos) <==>
      t in Flattened(s.categories) &&
      (checkCooldown ==> OffCooldown(s.history, t.subtopic)) &&
      (checkPhotos ==> HasPhotos(s.photos, t))
  {
  }

  /** The candidates keep the order of the flat list. */
  lemma CandidatesInOrder(s: Selector, checkCooldown: bool, checkPhotos: bool)
    ensures IsSubseq(Candidates(s, checkCooldown, checkPhotos), Flattened(s.categories))
  {
    IsSubseqRefl(Flattened(s.categories));
  }

  /** `if category_id:` keeps the triples of that category; an absent or empty id keeps all. */
  function InCategory(candidates: seq<Topic>, categoryId: Option<string>): (r: seq<Topic>)
    ensures categoryId.Some? && categoryId.value != [] ==>
      forall t :: t in r <==> t in candidates && t.categoryId == categoryId.value
    ensures !(categoryId.Some? && categoryId.value != []) ==> r == candidates
  {
    if categoryId.Some? && categoryId.value != [] then
      var id := categoryId.value;
      Filter((t: Topic) => t.categoryId == id, candidates)
    else candidates
  }

  /** The pool `select_random` picks from. */
  function Pool(s: Selector, categoryId: Option<string>, checkCooldown: bool, checkPhotos: bool): seq<Topic> {
    InCategory(Candidates(s, checkCooldown, checkPhotos), categoryId)
  }

  /** The candidate computation of `select_random`, with its loops. */
  method SelectCandidates(s: Selector, checkCooldown: bool, checkPhotos: bool) returns (candidates: seq<Topic>)
    ensures candidates == Candidates(s, checkCooldown, checkPhotos)
  {
    if checkCooldown || checkPhotos {
      candidates := GetAvailableSubtopics(s, checkPhotos);
      if !checkCooldown {
        var all := GetAllSubtopics(s);
        if checkPhotos && s.photos.Some? {
          candidates := Filter((t: Topic) => HasPhotos(s.photos, t), all);
        } else {
          candidates := all;
        }
      }
    } else {
      candidates := GetAllSubtopics(s);
    }
  }

  /**
   * `select_random`: None when there are no candidates or none in the
   * requested category; otherwise some candidate, of that category when
   * one was named.
   */
  method SelectRandom(s: Selector, categoryId: Option<string>, checkCooldown: bool, checkPhotos: bool)
    returns (r: Option<Topic>)
    ensures r.None? <==> Pool(s, categoryId, checkCooldown, checkPhotos) == []
    ensures r.Some? ==> r.value in Pool(s, categoryId, checkCooldown, checkPhotos)
  {
    var candidates := SelectCandidates(s, checkCooldown, checkPhotos);
    if candidates == [] {
      return None;
    }
    if categoryId.Some? && categoryId.value != [] {
      var id := categoryId.value;
      candidates := Filter((t: Topic) => t.categoryId == id, candidates);
      if candidates == [] {
        return None;
      }
    }
    assert candidates[0] in candidates;
    var choice :| choice in candidates;
    r := Some(choice);
  }

  /** What `select_random` can return is a subtopic of the categories, of the named category if any. */
  lemma PoolWithin(s: Selector, categoryId: Option<string>, checkCooldown: bool, checkPhotos: bool, t: Topic)
    requires t in Pool(s, categoryId, checkCooldown, checkPhotos)
    ensures t in Flattened(s.categories)
    ensures categoryId.Some? && categoryId.value != [] ==> t.categoryId == categoryId.value
  {
    CandidatesMembers(s, checkCooldown, checkPhotos, t);
  }

  // ---------------------------------------------------------------------
  // Lookups by name
  // ---------------------------------------------------------------------

  /** The position of the first category whose name equals `name` ignoring case, or -1. */
  function FirstNamed(cs: seq<Category>, name: string, from: nat): (k: int)
    requires from <= |cs|
    ensures k == -1 || (from <= k < |cs| && Lower(cs[k].name) == Lower(name))
    ensures forall j :: from <= j < |cs| && (k == -1 || j < k) ==> Lower(cs[j].name) != Lower(name)
    decreases |cs| - from
  {
    if from == |cs| then -1
    else if Lower(cs[from].name) == Lower(name) then from
    else FirstNamed(cs, name, from + 1)
  }

  /**
   * `select_for_category`: None when no category has that name;
   * otherwise what `select_random` does for the id of the first category
   * with that name, with both checks on.
   */
  method SelectForCategory(s: Selector, name: string) returns (r: Option<Topic>)
    ensures var k := FirstNamed(s.categories, name, 0);
      (k == -1 ==> r.None?) &&
      (k >= 0 ==> (r.None? <==> Pool(s, Some(s.categories[k].id), true, true) == [])) &&
      (k >= 0 && r.Some? ==> r.value in Pool(s, Some(s.categories[k].id), true, true))
  {
    var cs := s.categories;
    for i := 0 to |cs|
      invariant FirstNamed(cs, name, 0) == FirstNamed(cs, name, i)
    {
      if Lower(cs[i].name) == Lower(name) {
        r := SelectRandom(s, Some(cs[i].id), true, true);
        return;
      }
    }
    r := None;
  }

  /** `sub.lower().strip()`, the form `select_specific` compares. */
  function SubtopicKey(sub: string): string {
    Strip(Lower(sub))
  }

  /** The first triple whose subtopic has key `key`, or None. */
  function FirstMatching(ts: seq<Topic>, key: string): Option<Topic> {
    if ts == [] then None
    else if SubtopicKey(ts[0].subtopic) == key then Some(ts[0])
    else FirstMatching(ts[1..], key)
  }

  /** The search finds nothing exactly when no triple matches, and what it finds matches. */
  lemma {:induction false} FirstMatchingFound(ts: seq<Topic>, key: string)
    ensures FirstMatching(ts, key).None? <==> forall i :: 0 <= i < |ts| ==> SubtopicKey(ts[i].subtopic) != key
    ensures FirstMatching(ts, key).Some? ==>
      FirstMatching(ts, key).value in ts && SubtopicKey(FirstMatching(ts, key).value.subtopic) == key
  {
    if ts != [] {
      FirstMatchingFound(ts[1..], key);
      if SubtopicKey(ts[0].subtopic) != key {
        forall i | 1 <= i < |ts|
          ensures ts[i] == ts[1..][i - 1]
        {
        }
      }
    }
  }

  /** A match with no match before it is the first match. */
  lemma {:induction false} FirstMatchingIsFirst(ts: seq<Topic>, key: string, i: nat)
    requires i < |ts| && SubtopicKey(ts[i].subtopic) == key
    requires forall j :: 0 <= j < i ==> SubtopicKey(ts[j].subtopic) != key
    ensures FirstMatching(ts, key) == Some(ts[i])
  {
    if i > 0 {
      FirstMatchingIsFirst(ts[1..], key, i - 1);
    }
  }

  /** A first match in a prefix with no match continues into what follows. */
  lemma {:induction false} FirstMatchingAppend(a: seq<Topic>, b: seq<Topic>, key: string)
    requires FirstMatching(a, key).None?
    ensures FirstMatching(a + b, key) == FirstMatching(b, key)
  {
    if a == [] {
      assert a + b == b;
    } else {
      assert FirstMatching(a, key) == FirstMatching(a[1..], key);
      assert (a + b)[0] == a[0];
      assert (a + b)[1..] == a[1..] + b;
      FirstMatchingAppend(a[1..], b, key);
    }
  }

  /** A match found in a prefix is the first match of any extension. */
  lemma {:induction false} FirstMatchingPrefix(a: seq<Topic>, b: seq<Topic>, key: string)
    requires FirstMatching(a, key).Some?
    ensures FirstMatching(a + b, key) == FirstMatching(a, key)
  {
    assert (a + b)[0] == a[0];
    if SubtopicKey(a[0].subtopic) != key {
      assert (a + b)[1..] == a[1..] + b;
      FirstMatchingPrefix(a[1..], b, key);
    }
  }

  /** Within one category, the first matching subtopic gives the category's first match. */
  lemma CategoryFirstMatch(c: Category, j: nat, key: string)
    requires j < |c.subtopics|
    requires FirstMatching(CategoryTopics(c, j), key).None?
    requires SubtopicKey(c.subtopics[j]) == key
    ensures FirstMatching(CategoryTopics(c, |c.subtopics|), key) == Some(Topic(c.id, c.name, c.subtopics[j]))
  {
    var all := CategoryTopics(c, |c.subtopics|);
    var head := CategoryTopics(c, j);
    assert all == head + all[j..];
    FirstMatchingAppend(head, all[j..], key);
    assert all[j..][0] == Topic(c.id, c.name, c.subtopics[j]);
  }

  /** Where the nested search stops: the first match of the flat list is the triple it found. */
  lemma FirstMatchAt(cs: seq<Category>, i: nat, j: nat, key: string)
    requires i < |cs| && j < |cs[i].subtopics|
    requires FirstMatching(Flattened(cs[..i]), key).None?
    requires FirstMatching(CategoryTopics(cs[i], j), key).None?
    requires SubtopicKey(cs[i].subtopics[j]) == key
    ensures FirstMatching(Flattened(cs), key) == Some(Topic(cs[i].id, cs[i].name, cs[i].subtopics[j]))
  {
    var c := cs[i];
    var all := CategoryTopics(c, |c.subtopics|);
    var upto := cs[..i + 1];
    assert upto[..i] == cs[..i] && upto[i] == c;
    assert Flattened(upto) == Flattened(cs[..i]) + all;
    FlattenedSplit(cs, i + 1);
    FirstMatchingAppend(Flattened(cs[..i]), all, key);
    CategoryFirstMatch(c, j, key);
    FirstMatchingPrefix(Flattened(upto), Flattened(cs[i + 1..]), key);
  }

  /** The search of one category, stopping at the first subtopic that matches. */
  method SearchCategory(c: Category, key: string) returns (found: int)
    ensures -1 <= found < |c.subtopics|
    ensures found == -1 ==> FirstMatching(CategoryTopics(c, |c.subtopics|), key).None?
    ensures found >= 0 ==> SubtopicKey(c.subtopics[found]) == key && FirstMatching(CategoryTopics(c, found), key).None?
  {
    for j := 0 to |c.subtopics|
      invariant FirstMatching(CategoryTopics(c, j), key).None?
    {
      if SubtopicKey(c.subtopics[j]) == key {
        return j;
      }
      FirstMatchingAppend(CategoryTopics(c, j), [Topic(c.id, c.name, c.subtopics[j])], key);
    }
    return -1;
  }

  /** A category without a match extends a prefix without a match. */
  lemma NoMatchThrough(cs: seq<Category>, i: nat, key: string)
    requires i < |cs|
    requires FirstMatching(Flattened(cs[..i]), key).None?
    requires FirstMatching(CategoryTopics(cs[i], |cs[i].subtopics|), key).None?
    ensures FirstMatching(Flattened(cs[..i + 1]), key).None?
  {
    assert cs[..i + 1][..i] == cs[..i] && cs[..i + 1][i] == cs[i];
    FirstMatchingAppend(Flattened(cs[..i]), CategoryTopics(cs[i], |cs[i].subtopics|), key);
  }

  /**
   * `select_specific`: the first triple, in category order and then
   * subtopic order, whose subtopic equals the requested one after
   * lowering and stripping both; the original spelling is returned.
   */
  method SelectSpecific(s: Selector, subtopic: string) returns (r: Option<Topic>)
    ensures r == FirstMatching(Flattened(s.categories), SubtopicKey(subtopic))
  {
    var cs := s.categories;
    var key := SubtopicKey(subtopic);
    for i := 0 to |cs|
      invariant FirstMatching(Flattened(cs[..i]), key).None?
    {
      var cat := cs[i];
      var j := SearchCategory(cat, key);
      if j >= 0 {
        FirstMatchAt(cs, i, j, key);
        return Some(Topic(cat.id, cat.name, cat.subtopics[j]));
      }
      NoMatchThrough(cs, i, key);
    }
    assert cs[..|cs|] == cs;
    r := None;
  }

  // ---------------------------------------------------------------------
  // Statistics
  // ---------------------------------------------------------------------

  /** One entry of `get_categories_list`: id, name and number of subtopics. */
  datatype CategorySummary = CategorySummary(id: string, name: string, subtopicsCount: nat)

  /** The category list, one summary per category in the loaded order. */
  function CategoriesList(cs: seq<Category>): (r: seq<CategorySummary>)
    ensures |r| == |cs|
    ensures forall i :: 0 <= i < |cs| ==>
      r[i].id == cs[i].id && r[i].name == cs[i].name && r[i].subtopicsCount == |cs[i].subtopics|
  {
    seq(|cs|, i requires 0 <= i < |cs| => CategorySummary(cs[i].id, cs[i].name, |cs[i].subtopics|))
  }

  /** The subtopic counts summed over a prefix of the category list. */
  function SummaryTotal(r: seq<CategorySummary>): nat {
    if r == [] then 0 else SummaryTotal(r[..|r| - 1]) + r[|r| - 1].subtopicsCount
  }

  /** The counts of the category list add up to the length of the flat subtopic list. */
  lemma {:induction false} CategoriesListTotal(cs: seq<Category>)
    ensures SummaryTotal(CategoriesList(cs)) == |Flattened(cs)|
  {
    if cs == [] {
    } else {
      var init := cs[..|cs| - 1];
      CategoriesListTotal(init);
      assert CategoriesList(cs)[..|cs| - 1] == CategoriesList(init);
      FlattenedLength(cs);
      FlattenedLength(init);
    }
  }

  datatype CategoryStats = CategoryStats(total: nat, available: nat)

  datatype Stats = Stats(
    totalCategories: nat, totalSubtopics: nat, availableSubtopics: nat,
    byCategory: Dict<string, CategoryStats>)

  /** What `get_stats` counts as available: the available triples when there is a history, else all. */
  function StatsPool(s: Selector): seq<Topic> {
    if s.history.Some? then AvailableTopics(s, true) else Flattened(s.categories)
  }

  /** The entry of one category: its number of subtopics and the available triples with its id. */
  function CategoryEntry(c: Category, available: seq<Topic>): CategoryStats {
    CategoryStats(|c.subtopics|, |Filter((t: Topic) => t.categoryId == c.id, available)|)
  }

  /** The per-category table after the first `n` categories, keyed by name. */
  function ByCategory(cs: seq<Category>, available: seq<Topic>, n: nat): Dict<string, CategoryStats>
    requires n <= |cs|
  {
    if n == 0 then []
    else Put(ByCategory(cs, available, n - 1), cs[n - 1].name, CategoryEntry(cs[n - 1], available))
  }

  /** A category whose name no later category repeats has its own entry in the table. */
  lemma {:induction false} ByCategoryGet(cs: seq<Category>, available: seq<Topic>, n: nat, k: nat)
    requires k < n <= |cs|
    requires forall j :: k < j < n ==> cs[j].name != cs[k].name
    ensures Get(ByCategory(cs, available, n), cs[k].name) == Some(CategoryEntry(cs[k], available))
  {
    if k < n - 1 {
      ByCategoryGet(cs, available, n - 1, k);
    }
  }

  /** `get_stats` */
  method GetStats(s: Selector) returns (st: Stats)
    ensures st.totalCategories == |s.categories|
    ensures st.totalSubtopics == SubtopicCount(s.categories)
    ensures st.availableSubtopics == |StatsPool(s)| <= st.totalSubtopics
    ensures st.byCategory == ByCategory(s.categories, StatsPool(s), |s.categories|)
  {
    var all := GetAllSubtopics(s);
    var available := all;
    if s.history.Some? {
      available := GetAvailableSubtopics(s, true);
    }
    IsSubseqLength(AvailableTopics(s, true), all);
    FlattenedLength(s.categories);
    var cs := s.categories;
    var byCategory := [];
    for i := 0 to |cs|
      invariant byCategory == ByCategory(cs, available, i)
    {
      var cat := cs[i];
      var catAvailable := Filter((t: Topic) => t.categoryId == cat.id, available);
      byCategory := Put(byCategory, cat.name, CategoryStats(|cat.subtopics|, |catAvailable|));
    }
    st := Stats(|cs|, |all|, |available|, byCategory);
  }
}
