/**
 * Stock-photo search: keyword extraction from a caption, the list of
 * queries tried for a story, their case-insensitive deduplication, the
 * loop that stops at the first query whose search and download succeed,
 * and the Unsplash-then-Pexels fallback of one search. The HTTP calls
 * themselves are oracles: what each provider answered, and what one
 * search-and-download attempt produced.
 */
module ImageSearcher {
  import opened Builtins

  /** One search hit, as a provider reports it. */
  datatype ImageResult = ImageResult(
    id: string, url: string, thumbUrl: string, author: string, source: string,
    description: Option<string>)

  // ---------------------------------------------------------------------
  // Attribution
  // ---------------------------------------------------------------------

  /** `str.upper` on one character, for the letters `LowerChar` maps. */
  function UpperChar(c: char): char {
    if 'a' <= c <= 'z' then (c as int - 32) as char
    else if 0x0430 <= c as int <= 0x044F then (c as int - 32) as char
    else if 0x0450 <= c as int <= 0x045F then (c as int - 80) as char
    else c
  }

  /** `str.capitalize`: the first character upper-cased, the rest lower-cased. */
  function Capitalize(s: string): (r: string)
    ensures |r| == |s|
    ensures s != [] ==> r[0] == UpperChar(s[0]) && r[1..] == Lower(s[1..])
  {
    if s == [] then [] else [UpperChar(s[0])] + Lower(s[1..])
  }

  /** The credit line shown with a photo. */
  function Attribution(image: ImageResult): string {
    "Photo by " + image.author + " on " + Capitalize(image.source)
  }

  /** The credit line names the author and the provider, capitalized. */
  lemma AttributionNamesProvider(image: ImageResult)
    ensures StartsWith(Attribution(image), "Photo by " + image.author + " on ")
    ensures image.source == "unsplash" ==> Attribution(image) == "Photo by " + image.author + " on Unsplash"
    ensures image.source == "pexels" ==> Attribution(image) == "Photo by " + image.author + " on Pexels"
  {
    var prefix := "Photo by " + image.author + " on ";
    assert Attribution(image)[..|prefix|] == prefix;
  }

  // ---------------------------------------------------------------------
  // Keyword extraction
  // ---------------------------------------------------------------------

  /** The Russian function words dropped from a caption. */
  const StopWords: set<string> := {
    "и", "в", "на", "с", "к", "по", "за", "из", "от", "до", "для", "о", "об",
    "это", "как", "что", "так", "но", "а", "или", "не", "да", "же", "ли",
    "вы", "мы", "он", "она", "они", "вам", "вас", "нам", "нас", "его", "её",
    "быть", "есть", "был", "была", "будет", "можно", "нужно", "очень",
    "этот", "эта", "эти", "того", "этого", "такой", "такая", "такие",
    "который", "которая", "которые", "свой", "своя", "свои",
    "все", "всё", "весь", "вся", "каждый", "любой", "другой",
    "здесь", "тут", "там", "где", "когда", "если", "чтобы", "потому",
    "только", "уже", "ещё", "даже", "просто", "именно", "ведь"
  }

  /**
   * A character the regular-expression class `\w` matches, for the scripts
   * modelled: letters and digits of ASCII, Latin-1, Latin Extended-A and -B,
   * the IPA block, Greek, Cyrillic and Georgian (Mkhedruli, Mtavruli,
   * Asomtavruli and Nuskhuri), and `_`.
   */
  predicate IsWordChar(c: char) {
    var n := c as int;
    ('a' <= c <= 'z') || ('A' <= c <= 'Z') || ('0' <= c <= '9') || c == '_'
    || n == 0xAA || n == 0xB2 || n == 0xB3 || n == 0xB5 || n == 0xB9 || n == 0xBA
    || (0xBC <= n <= 0xBE) || (0xC0 <= n <= 0xD6) || (0xD8 <= n <= 0xF6) || (0xF8 <= n <= 0x02AF)
    || IsGreekLetter(n)
    || (0x0400 <= n <= 0x0481) || (0x048A <= n <= 0x04FF)
    || IsGeorgianLetter(n)
  }

  /** The letters of the Greek and Coptic block U+0370..U+03FF (its signs and punctuation excluded). */
  predicate IsGreekLetter(n: int) {
    (0x0370 <= n <= 0x0374) || n == 0x0376 || n == 0x0377 || (0x037A <= n <= 0x037D) || n == 0x037F
    || n == 0x0386 || (0x0388 <= n <= 0x038A) || n == 0x038C || (0x038E <= n <= 0x03A1)
    || (0x03A3 <= n <= 0x03F5) || (0x03F7 <= n <= 0x03FF)
  }

  /** The Georgian letters: Asomtavruli and Mkhedruli (U+10A0..U+10FF), Mtavruli (U+1C90..) and Nuskhuri (U+2D00..). */
  predicate IsGeorgianLetter(n: int) {
    (0x10A0 <= n <= 0x10C5) || n == 0x10C7 || n == 0x10CD || (0x10D0 <= n <= 0x10FA) || (0x10FC <= n <= 0x10FF)
    || (0x1C90 <= n <= 0x1CBA) || (0x1CBD <= n <= 0x1CBF)
    || (0x2D00 <= n <= 0x2D25) || n == 0x2D27 || n == 0x2D2D
  }

  /** `re.sub(r'[^\w\s]', ' ', s)`: every character that is neither a word character nor whitespace becomes a space. */
  function Punctuation(s: string): (r: string)
    ensures |r| == |s|
    ensures forall i :: 0 <= i < |s| ==> r[i] == if IsWordChar(s[i]) || IsSpace(s[i]) then s[i] else ' '
  {
    seq(|s|, i requires 0 <= i < |s| => if IsWordChar(s[i]) || IsSpace(s[i]) then s[i] else ' ')
  }

  /** A word worth searching for: not a function word, and longer than two characters. */
  predicate IsKeyword(w: string) {
    w !in StopWords && |w| > 2
  }

  /** The keywords of a caption, in order, before the cut to `max_words`. */
  function Keywords(text: string): seq<string> {
    Filter(IsKeyword, Words(Punctuation(Lower(text))))
  }

  /** `_extract_keywords`: the first `maxWords` keywords joined by single spaces. */
  function ExtractKeywords(text: string, maxWords: int): string {
    Join(" ", PrefixSlice(Keywords(text), maxWords))
  }

  /** Every character of `w` has property `p`. */
  predicate AllChars(w: string, p: char -> bool) {
    forall j :: 0 <= j < |w| ==> p(w[j])
  }

  /** Every character of `s` that is not whitespace has property `p`. */
  predicate NonSpaceChars(s: string, p: char -> bool) {
    forall i :: 0 <= i < |s| && !IsSpace(s[i]) ==> p(s[i])
  }

  lemma NonSpaceCharsSuffix(s: string, p: char -> bool, m: nat)
    requires NonSpaceChars(s, p) && m <= |s|
    ensures NonSpaceChars(s[m..], p)
  {
    forall i | 0 <= i < |s| - m && !IsSpace(s[m..][i])
      ensures p(s[m..][i])
    {
      assert s[m..][i] == s[m + i];
    }
  }

  /** A property every non-space character of `s` has, every character of its words has. */
  lemma {:induction false} WordsKeep(s: string, p: char -> bool)
    requires NonSpaceChars(s, p)
    ensures forall n :: 0 <= n < |Words(s)| ==> AllChars(Words(s)[n], p)
    decreases |s|
  {
    var t := LStrip(s);
    if t != [] {
      NonSpaceCharsSuffix(s, p, |s| - |t|);
      var k := WordEnd(t);
      NonSpaceCharsSuffix(t, p, k);
      WordsKeep(t[k..], p);
      var first, rest := t[..k], Words(t[k..]);
      forall j | 0 <= j < |first|
        ensures p(first[j])
      {
        assert first[j] == t[j];
      }
      AllCharsCons(first, rest, p);
      assert Words(s) == [first] + rest;
    } else {
      assert Words(s) == [];
    }
  }

  lemma AllCharsCons(first: string, rest: seq<string>, p: char -> bool)
    requires AllChars(first, p) && forall n :: 0 <= n < |rest| ==> AllChars(rest[n], p)
    ensures forall n :: 0 <= n < |[first] + rest| ==> AllChars(([first] + rest)[n], p)
  {
    forall n | 0 <= n < |[first] + rest|
      ensures AllChars(([first] + rest)[n], p)
    {
      if n > 0 {
        assert ([first] + rest)[n] == rest[n - 1];
      }
    }
  }

  /** The keywords are exactly what splitting the extracted text gives back, at most `maxWords` of them. */
  lemma ExtractKeywordsRoundTrip(text: string, maxWords: int)
    ensures Words(ExtractKeywords(text, maxWords)) == PrefixSlice(Keywords(text), maxWords)
    ensures |Words(ExtractKeywords(text, maxWords))| <= if maxWords < 0 then |Keywords(text)| else maxWords
  {
    var all := Words(Punctuation(Lower(text)));
    var kept := Keywords(text);
    var cut := PrefixSlice(kept, maxWords);
    WordsAreWords(Punctuation(Lower(text)));
    forall i | 0 <= i < |cut|
      ensures cut[i] != [] && NoSpace(cut[i])
    {
      assert cut[i] == kept[i];
      assert kept[i] in all;
    }
    WordsJoin(cut);
  }

  /** A character a keyword may hold: a lower-case word character. */
  predicate KeyChar(c: char) {
    IsWordChar(c) && LowerChar(c) == c
  }

  /** After lowering and blanking punctuation, every character is a space or a key character. */
  lemma CleanedChars(text: string)
    ensures NonSpaceChars(Punctuation(Lower(text)), KeyChar)
  {
    var cleaned := Punctuation(Lower(text));
    forall i | 0 <= i < |cleaned| && !IsSpace(cleaned[i])
      ensures KeyChar(cleaned[i])
    {
      LowerCharIdempotent(text[i]);
    }
  }

  /** Every keyword is made of key characters, is not a function word and is longer than two characters. */
  lemma KeywordShape(text: string, w: string)
    requires w in Keywords(text)
    ensures w !in StopWords && |w| > 2 && AllChars(w, KeyChar)
  {
    var cleaned := Punctuation(Lower(text));
    var idx :| 0 <= idx < |Words(cleaned)| && Words(cleaned)[idx] == w;
    CleanedChars(text);
    WordsKeep(cleaned, KeyChar);
  }

  /**
   * Each extracted keyword is not a function word, is longer than two
   * characters, and is made of lower-case word characters only.
   */
  lemma ExtractedKeywordShape(text: string, maxWords: int, w: string)
    requires w in Words(ExtractKeywords(text, maxWords))
    ensures w !in StopWords && |w| > 2
    ensures forall j :: 0 <= j < |w| ==> IsWordChar(w[j]) && LowerChar(w[j]) == w[j]
  {
    ExtractKeywordsRoundTrip(text, maxWords);
    KeywordShape(text, w);
  }

  // ---------------------------------------------------------------------
  // Query plans
  // ---------------------------------------------------------------------

  /** The queries `search_by_description` lists, before deduplication. */
  function DescriptionQueries(englishKeywords: string, topic: string, subtopic: string, location: string): seq<string> {
    (if englishKeywords != "" then [englishKeywords, englishKeywords + " Georgia"] else [])
    + [subtopic + " Georgia",
       if Contains(Lower(topic), "кухня") then "Georgian cuisine food" else location,
       location]
  }

  /** The queries `search_for_topic` lists, most specific first. */
  function TopicQueries(topic: string, subtopic: string, location: string): seq<string> {
    [subtopic + " " + location, subtopic + " Georgia", subtopic, topic + " " + location, topic, location]
  }

  /**
   * The deduplicating loop, as a function: stripped queries, empty ones
   * dropped, each kept only when its lower-case form is not yet in `seen`.
   */
  function DedupFrom(qs: seq<string>, i: nat, seen: set<string>): seq<string>
    requires i <= |qs|
    decreases |qs| - i
  {
    if i == |qs| then []
    else
      var q := Strip(qs[i]);
      if q != "" && Lower(q) !in seen then [q] + DedupFrom(qs, i + 1, seen + {Lower(q)})
      else DedupFrom(qs, i + 1, seen)
  }

  /** No kept query is, ignoring case, one of `seen`. */
  predicate Unseen(r: seq<string>, seen: set<string>) {
    forall k :: 0 <= k < |r| ==> Lower(r[k]) !in seen
  }

  /** No two kept queries are equal ignoring case. */
  predicate CaseDistinct(r: seq<string>) {
    forall a, b :: 0 <= a < b < |r| ==> Lower(r[a]) != Lower(r[b])
  }

  /** Nothing the loop keeps clashes, ignoring case, with what it had already seen or with each other. */
  lemma {:induction false} DedupFromDistinct(qs: seq<string>, i: nat, seen: set<string>)
    requires i <= |qs|
    ensures Unseen(DedupFrom(qs, i, seen), seen) && CaseDistinct(DedupFrom(qs, i, seen))
    decreases |qs| - i
  {
    if i < |qs| {
      var q := Strip(qs[i]);
      if q != "" && Lower(q) !in seen {
        var seen' := seen + {Lower(q)};
        DedupFromDistinct(qs, i + 1, seen');
        var rest := DedupFrom(qs, i + 1, seen');
        var r := [q] + rest;
        assert DedupFrom(qs, i, seen) == r;
        forall k | 0 <= k < |r|
          ensures Lower(r[k]) !in seen
        {
          if k > 0 {
            assert r[k] == rest[k - 1];
          }
        }
        forall a, b | 0 <= a < b < |r|
          ensures Lower(r[a]) != Lower(r[b])
        {
          assert r[b] == rest[b - 1];
          if a > 0 {
            assert r[a] == rest[a - 1];
          }
        }
      } else {
        DedupFromDistinct(qs, i + 1, seen);
        assert DedupFrom(qs, i, seen) == DedupFrom(qs, i + 1, seen);
      }
    }
  }

  /** Everything the loop keeps is a non-empty stripped query of the input, at or after `i`. */
  lemma {:induction false} DedupFromSound(qs: seq<string>, i: nat, seen: set<string>, k: nat) returns (j: nat)
    requires i <= |qs| && k < |DedupFrom(qs, i, seen)|
    ensures DedupFrom(qs, i, seen)[k] != "" && i <= j < |qs| && DedupFrom(qs, i, seen)[k] == Strip(qs[j])
    decreases |qs| - i
  {
    var q := Strip(qs[i]);
    if q != "" && Lower(q) !in seen {
      j := i;
      if k > 0 {
        j := DedupFromSound(qs, i + 1, seen + {Lower(q)}, k - 1);
      }
    } else {
      j := DedupFromSound(qs, i + 1, seen, k);
    }
  }

  /**
   * Every non-empty query not seen before is represented, ignoring case,
   * by the kept query at position `k`.
   */
  lemma {:induction false} DedupFromComplete(qs: seq<string>, i: nat, seen: set<string>, j: nat) returns (k: nat)
    requires i <= j < |qs| && Strip(qs[j]) != "" && Lower(Strip(qs[j])) !in seen
    ensures k < |DedupFrom(qs, i, seen)| && Lower(DedupFrom(qs, i, seen)[k]) == Lower(Strip(qs[j]))
    decreases |qs| - i
  {
    var t := Lower(Strip(qs[j]));
    var q := Strip(qs[i]);
    if q != "" && Lower(q) !in seen {
      var rest := DedupFrom(qs, i + 1, seen + {Lower(q)});
      assert DedupFrom(qs, i, seen) == [q] + rest;
      if t == Lower(q) {
        k := 0;
      } else {
        assert t !in seen + {Lower(q)};
        var k' := DedupFromComplete(qs, i + 1, seen + {Lower(q)}, j);
        k := k' + 1;
        assert DedupFrom(qs, i, seen)[k] == rest[k'];
      }
    } else {
      assert i < j;
      assert DedupFrom(qs, i, seen) == DedupFrom(qs, i + 1, seen);
      k := DedupFromComplete(qs, i + 1, seen, j);
    }
  }

  /** The loop keeps at most one query per input query. */
  lemma {:induction false} DedupFromLength(qs: seq<string>, i: nat, seen: set<string>)
    requires i <= |qs|
    ensures |DedupFrom(qs, i, seen)| <= |qs| - i
    decreases |qs| - i
  {
    if i < |qs| {
      var q := Strip(qs[i]);
      DedupFromLength(qs, i + 1, if q != "" && Lower(q) !in seen then seen + {Lower(q)} else seen);
    }
  }

  /** Every entry of `r` is a non-empty, stripped query of `queries`. */
  predicate FromQueries(r: seq<string>, queries: seq<string>) {
    forall k :: 0 <= k < |r| ==> r[k] != "" && exists j :: 0 <= j < |queries| && r[k] == Strip(queries[j])
  }

  /** What cutting the deduplicated list to `maxAttempts` keeps. */
  lemma DedupPrefix(queries: seq<string>, maxAttempts: int)
    ensures var r := PrefixSlice(DedupFrom(queries, 0, {}), maxAttempts);
      CaseDistinct(r) && FromQueries(r, queries) && (maxAttempts >= 0 ==> |r| <= maxAttempts) && |r| <= |queries|
  {
    DedupPrefixDistinct(queries, maxAttempts);
    DedupPrefixFrom(queries, maxAttempts);
    DedupFromLength(queries, 0, {});
  }

  lemma DedupPrefixDistinct(queries: seq<string>, maxAttempts: int)
    ensures CaseDistinct(PrefixSlice(DedupFrom(queries, 0, {}), maxAttempts))
  {
    var all := DedupFrom(queries, 0, {});
    var r := PrefixSlice(all, maxAttempts);
    DedupFromDistinct(queries, 0, {});
    forall a, b | 0 <= a < b < |r|
      ensures Lower(r[a]) != Lower(r[b])
    {
      assert r[a] == all[a] && r[b] == all[b];
    }
  }

  lemma DedupPrefixFrom(queries: seq<string>, maxAttempts: int)
    ensures FromQueries(PrefixSlice(DedupFrom(queries, 0, {}), maxAttempts), queries)
  {
    var all := DedupFrom(queries, 0, {});
    var r := PrefixSlice(all, maxAttempts);
    forall k | 0 <= k < |r|
      ensures r[k] != "" && exists j :: 0 <= j < |queries| && r[k] == Strip(queries[j])
    {
      assert r[k] == all[k];
      var j := DedupFromSound(queries, 0, {}, k);
    }
  }

  /**
   * The deduplication loop of `search_by_description`, with the cut to
   * `max_attempts` (a Python slice, so a negative count drops from the
   * end): no two queries left are equal ignoring case, none is empty,
   * each is a stripped input query, and at most `maxAttempts` remain.
   */
  method UniqueQueries(queries: seq<string>, maxAttempts: int) returns (r: seq<string>)
    ensures r == PrefixSlice(DedupFrom(queries, 0, {}), maxAttempts)
    ensures CaseDistinct(r) && FromQueries(r, queries)
    ensures maxAttempts >= 0 ==> |r| <= maxAttempts
    ensures |r| <= |queries|
  {
    var seen: set<string> := {};
    var unique: seq<string> := [];
    var i := 0;
    while i < |queries|
      invariant 0 <= i <= |queries|
      invariant unique + DedupFrom(queries, i, seen) == DedupFrom(queries, 0, {})
    {
      var clean := Strip(queries[i]);
      if clean != "" && Lower(clean) !in seen {
        seen := seen + {Lower(clean)};
        ConcatAssoc(unique, [clean], DedupFrom(queries, i + 1, seen));
        unique := unique + [clean];
      }
      i := i + 1;
    }
    assert unique == DedupFrom(queries, 0, {});
    r := PrefixSlice(unique, maxAttempts);
    DedupPrefix(queries, maxAttempts);
  }

  /** Deduplication loses no query: each non-empty query has a case-insensitive equal among the kept ones. */
  lemma DedupKeepsEveryQuery(queries: seq<string>, j: nat)
    requires j < |queries| && Strip(queries[j]) != ""
    ensures exists k :: 0 <= k < |DedupFrom(queries, 0, {})| && Lower(DedupFrom(queries, 0, {})[k]) == Lower(Strip(queries[j]))
  {
    var k := DedupFromComplete(queries, 0, {}, j);
  }

  /**
   * When English keywords are given (and are not blank), they are the first
   * query tried. The location is always among the deduplicated queries, and
   * it survives the cut to `maxAttempts` whenever the cut keeps them all;
   * without English keywords there are at most three of them, so a cut of
   * three or more keeps the location.
   */
  lemma DescriptionPlanOrder(englishKeywords: string, topic: string, subtopic: string, location: string, maxAttempts: int)
    ensures var qs := DescriptionQueries(englishKeywords, topic, subtopic, location);
      var r := DedupFrom(qs, 0, {});
      var plan := PrefixSlice(r, maxAttempts);
      (Strip(englishKeywords) != "" && maxAttempts > 0 ==> plan != [] && plan[0] == Strip(englishKeywords))
      && |r| <= 5 && (englishKeywords == "" ==> |r| <= 3)
      && (Strip(location) != "" ==> exists k :: 0 <= k < |r| && Lower(r[k]) == Lower(Strip(location)))
      && (Strip(location) != "" && maxAttempts >= |r| ==>
            exists k :: 0 <= k < |plan| && Lower(plan[k]) == Lower(Strip(location)))
  {
    var qs := DescriptionQueries(englishKeywords, topic, subtopic, location);
    var r := DedupFrom(qs, 0, {});
    DedupFromLength(qs, 0, {});
    if Strip(englishKeywords) != "" {
      assert r[0] == Strip(englishKeywords);
    }
    if Strip(location) != "" {
      var k := DedupFromComplete(qs, 0, {}, |qs| - 1);
      if maxAttempts >= |r| {
        assert PrefixSlice(r, maxAttempts) == r;
      }
    }
  }

  // ---------------------------------------------------------------------
  // Searching with fallback, and the attempt loops
  // ---------------------------------------------------------------------

  /** What one provider's search call did: returned hits, or raised. */
  datatype ApiOutcome = Found(results: seq<ImageResult>) | ApiError

  /** A key that is set and not empty. */
  predicate Configured(key: Option<string>) {
    key.Some? && key.value != ""
  }

  /** The provider was asked and answered with at least one hit. */
  predicate Yields(key: Option<string>, outcome: ApiOutcome) {
    Configured(key) && outcome.Found? && outcome.results != []
  }

  /**
   * `search`: Unsplash's hits when it has a key and answers with some;
   * otherwise Pexels' hits under the same condition; otherwise nothing.
   */
  function Search(unsplashKey: Option<string>, unsplash: ApiOutcome,
                  pexelsKey: Option<string>, pexels: ApiOutcome): (r: seq<ImageResult>)
    ensures Yields(unsplashKey, unsplash) ==> r == unsplash.results
    ensures !Yields(unsplashKey, unsplash) && Yields(pexelsKey, pexels) ==> r == pexels.results
    ensures r == [] <==> !Yields(unsplashKey, unsplash) && !Yields(pexelsKey, pexels)
  {
    if Yields(unsplashKey, unsplash) then unsplash.results
    else if Yields(pexelsKey, pexels) then pexels.results
    else []
  }

  /** What one search-and-download attempt produced. */
  datatype Attempt = Saved(path: string) | NoImage | DownloadFailed(reason: string)

  /** `search_and_download`: no image when the search found nothing, else the download of the first hit. */
  function SearchAndDownload(results: seq<ImageResult>, download: ImageResult -> Result<string, string>): (a: Attempt)
    ensures a.NoImage? <==> results == []
    ensures a.Saved? ==> download(results[0]) == Ok(a.path)
    ensures a.DownloadFailed? ==> download(results[0]) == Err(a.reason)
  {
    if results == [] then NoImage
    else match download(results[0])
      case Ok(p) => Saved(p)
      case Err(e) => DownloadFailed(e)
  }

  /** The first `n` queries found nothing. */
  predicate Misses(queries: seq<string>, attempt: string -> Attempt, n: int)
    requires n <= |queries|
  {
    forall j :: 0 <= j < n ==> attempt(queries[j]).NoImage?
  }

  /**
   * What an attempt loop returns: the first saved image, the error of the
   * first download that raised (it propagates), or nothing when every
   * query came back empty.
   */
  predicate FirstSuccess(queries: seq<string>, attempt: string -> Attempt, r: Result<Option<string>, string>) {
    (r.Ok? && r.value.None? <==> Misses(queries, attempt, |queries|))
    && (r.Ok? && r.value.Some? ==>
          exists i :: 0 <= i < |queries| && attempt(queries[i]) == Saved(r.value.value) && Misses(queries, attempt, i))
    && (r.Err? ==>
          exists i :: 0 <= i < |queries| && attempt(queries[i]) == DownloadFailed(r.error) && Misses(queries, attempt, i))
  }

  /** Tries the queries in order and stops at the first one that saved an image or raised. */
  method TryQueries(queries: seq<string>, attempt: string -> Attempt) returns (r: Result<Option<string>, string>)
    ensures FirstSuccess(queries, attempt, r)
  {
    var i := 0;
    while i < |queries|
      invariant 0 <= i <= |queries|
      invariant Misses(queries, attempt, i)
    {
      var result := attempt(queries[i]);
      match result
      case Saved(p) =>
        return Ok(Some(p));
      case DownloadFailed(e) =>
        return Err(e);
      case NoImage =>
      i := i + 1;
    }
    return Ok(None);
  }

  /** `search_by_description`: the deduplicated plan, tried in order. */
  method SearchByDescription(englishKeywords: string, topic: string, subtopic: string, location: string,
                             maxAttempts: int, attempt: string -> Attempt)
    returns (r: Result<Option<string>, string>)
    ensures FirstSuccess(PrefixSlice(DedupFrom(DescriptionQueries(englishKeywords, topic, subtopic, location), 0, {}), maxAttempts), attempt, r)
  {
    var queries := UniqueQueries(DescriptionQueries(englishKeywords, topic, subtopic, location), maxAttempts);
    r := TryQueries(queries, attempt);
  }

  /** `search_for_topic`: the fixed list of six queries, cut to `max_attempts`, tried in order. */
  method SearchForTopic(topic: string, subtopic: string, location: string, maxAttempts: int,
                        attempt: string -> Attempt)
    returns (r: Result<Option<string>, string>)
    ensures FirstSuccess(PrefixSlice(TopicQueries(topic, subtopic, location), maxAttempts), attempt, r)
    ensures maxAttempts == 0 ==> r == Ok(None)
  {
    var queries := PrefixSlice(TopicQueries(topic, subtopic, location), maxAttempts);
    r := TryQueries(queries, attempt);
  }
}
