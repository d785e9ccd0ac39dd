/**
 * The publication history: every recorded publication, and the day each
 * subtopic, photo and music track was last used, from which the cooldowns
 * are decided. Dates are day numbers; loading and saving the history file
 * are not modelled.
 */
module ContentHistory {
  import opened Builtins
  import opened Dicts

  /** One recorded publication. */
  datatype Publication = Publication(
    date: int, contentType: string, categoryId: string, subtopic: string,
    photoPath: string, musicPath: string, text: string, status: string,
    instagramId: Option<string>)

  /** `not last_used or days_since >= cooldown`: never used, or used long enough ago. */
  predicate Available(lastUsed: map<string, int>, cooldown: int, key: string, today: int) {
    key !in lastUsed || today - lastUsed[key] >= cooldown
  }

  /** After a use on day `d`, a key is available again exactly from day `d + cooldown`. */
  lemma AvailableAfterUse(lastUsed: map<string, int>, cooldown: int, key: string, d: int, today: int)
    ensures Available(lastUsed[key := d], cooldown, key, today) <==> today >= d + cooldown
  {
  }

  /** A use of one key leaves every other key's availability as it was. */
  lemma AvailableOtherKey(lastUsed: map<string, int>, cooldown: int, key: string, d: int,
                          other: string, today: int)
    requires other != key
    ensures Available(lastUsed[key := d], cooldown, other, today) == Available(lastUsed, cooldown, other, today)
  {
  }

  /** Once available, a key stays available on every later day. */
  lemma AvailableLater(lastUsed: map<string, int>, cooldown: int, key: string, today: int, later: int)
    requires Available(lastUsed, cooldown, key, today) && today <= later
    ensures Available(lastUsed, cooldown, key, later)
  {
  }

  /** The label of the series preview. */
  function SeriesHeader(n: nat): string {
    "[Series: " + NatToString(n) + " stories]"
  }

  /** One preview line: its number and the first 50 characters, with `...` when cut. */
  function PreviewLine(number: nat, text: string): string {
    "#" + NatToString(number) + ": " + PrefixSlice(text, 50) + (if |text| > 50 then "..." else "")
  }

  function PreviewLines(texts: seq<string>, from: nat): (lines: seq<string>)
    requires from <= |texts|
    ensures |lines| == |texts| - from
    ensures forall i :: 0 <= i < |lines| ==> lines[i] == PreviewLine(from + i + 1, texts[from + i])
    decreases |texts| - from
  {
    if from == |texts| then [] else [PreviewLine(from + 1, texts[from])] + PreviewLines(texts, from + 1)
  }

  /** The combined text a series is recorded with. */
  function SeriesPreview(texts: seq<string>): string {
    SeriesHeader(|texts|) + "\n" + Join("\n", PreviewLines(texts, 0))
  }

  /**
   * Read line by line, the preview is the header and then one numbered
   * line per text (or a single empty line when there are no texts),
   * provided no text holds a line break.
   */
  lemma {:induction false} SeriesPreviewLines(texts: seq<string>)
    requires forall i :: 0 <= i < |texts| ==> '\n' !in texts[i]
    ensures Split(SeriesPreview(texts), "\n") ==
      [SeriesHeader(|texts|)] + (if texts == [] then [""] else PreviewLines(texts, 0))
  {
    var lines := PreviewLines(texts, 0);
    var header := SeriesHeader(|texts|);
    ContainsChar(header, '\n');
    assert '\n' !in NatToString(|texts|);
    if texts == [] {
      assert Join("\n", lines) == "";
      SplitConcat(header, "\n", "");
      SplitNone("", "\n");
    } else {
      forall i | 0 <= i < |lines|
        ensures !Contains(lines[i], "\n")
      {
        var t := texts[i];
        var cut := PrefixSlice(t, 50);
        assert '\n' !in cut by {
          assert forall k :: 0 <= k < |cut| ==> cut[k] == t[k];
        }
        assert '\n' !in NatToString(i + 1);
        ContainsChar(lines[i], '\n');
      }
      SplitConcat(header, "\n", Join("\n", lines));
      SplitJoin(lines, "\n");
    }
  }

  /** A preview line keeps at most 50 characters of its text and marks a cut with `...`. */
  lemma PreviewLineCut(number: nat, text: string)
    ensures var prefix := "#" + NatToString(number) + ": ";
      var line := PreviewLine(number, text);
      StartsWith(line, prefix)
      && (|text| <= 50 ==> line == prefix + text)
      && (|text| > 50 ==> line == prefix + text[..50] + "..." && EndsWith(line, "..."))
  {
    var prefix := "#" + NatToString(number) + ": ";
    var line := PreviewLine(number, text);
    assert line[..|prefix|] == prefix;
    if |text| > 50 {
      assert line[|line| - 3..] == "...";
    }
  }

  /** What `get_stats` reports. */
  datatype Stats = Stats(
    totalPublications: nat, byStatus: Dict<string, nat>, byType: Dict<string, nat>,
    byCategory: Dict<string, nat>, trackedSubtopics: nat, trackedPhotos: nat, trackedMusic: nat)

  function Statuses(pubs: seq<Publication>): (r: seq<string>)
    ensures |r| == |pubs| && forall i :: 0 <= i < |pubs| ==> r[i] == pubs[i].status
  {
    if pubs == [] then [] else Statuses(pubs[..|pubs| - 1]) + [pubs[|pubs| - 1].status]
  }

  function Types(pubs: seq<Publication>): (r: seq<string>)
    ensures |r| == |pubs| && forall i :: 0 <= i < |pubs| ==> r[i] == pubs[i].contentType
  {
    if pubs == [] then [] else Types(pubs[..|pubs| - 1]) + [pubs[|pubs| - 1].contentType]
  }

  function Categories(pubs: seq<Publication>): (r: seq<string>)
    ensures |r| == |pubs| && forall i :: 0 <= i < |pubs| ==> r[i] == pubs[i].categoryId
  {
    if pubs == [] then [] else Categories(pubs[..|pubs| - 1]) + [pubs[|pubs| - 1].categoryId]
  }

  /** The positions of the publications whose status is `status`, in order. */
  function IndicesWithStatus(pubs: seq<Publication>, status: string, from: nat): (r: seq<nat>)
    requires from <= |pubs|
    ensures forall k :: 0 <= k < |r| ==> from <= r[k] < |pubs| && pubs[r[k]].status == status
    ensures forall i :: from <= i < |pubs| && pubs[i].status == status ==> i in r
    ensures forall a, b :: 0 <= a < b < |r| ==> r[a] < r[b]
    decreases |pubs| - from
  {
    if from == |pubs| then []
    else
      var rest := IndicesWithStatus(pubs, status, from + 1);
      if pubs[from].status == status then [from] + rest else rest
  }

  class History {
    var subtopicCooldownDays: int
    var photoCooldownDays: int
    var musicCooldownDays: int
    var publications: seq<Publication>
    var lastUsedSubtopics: map<string, int>
    var lastUsedPhotos: map<string, int>
    var lastUsedMusic: map<string, int>

    /** Every recorded publication's subtopic and music are tracked. */
    ghost predicate Valid()
      reads this
    {
      forall i :: 0 <= i < |publications| ==>
        publications[i].subtopic in lastUsedSubtopics && publications[i].musicPath in lastUsedMusic
    }

    /** A fresh history with the given cooldowns (7, 90 and 14 days by default). */
    constructor (subtopicCooldown: int, photoCooldown: int, musicCooldown: int)
      ensures Valid()
      ensures subtopicCooldownDays == subtopicCooldown && photoCooldownDays == photoCooldown
      ensures musicCooldownDays == musicCooldown
      ensures publications == [] && lastUsedSubtopics == map[] && lastUsedPhotos == map[] && lastUsedMusic == map[]
    {
      subtopicCooldownDays := subtopicCooldown;
      photoCooldownDays := photoCooldown;
      musicCooldownDays := musicCooldown;
      publications := [];
      lastUsedSubtopics := map[];
      lastUsedPhotos := map[];
      lastUsedMusic := map[];
    }

    predicate IsSubtopicAvailable(subtopic: string, today: int)
      reads this
    {
      Available(lastUsedSubtopics, subtopicCooldownDays, subtopic, today)
    }

    predicate IsPhotoAvailable(photo: string, today: int)
      reads this
    {
      Available(lastUsedPhotos, photoCooldownDays, photo, today)
    }

    predicate IsMusicAvailable(music: string, today: int)
      reads this
    {
      Available(lastUsedMusic, musicCooldownDays, music, today)
    }

    /** The subtopics off cooldown, in their given order. */
    function GetAvailableSubtopics(all: seq<string>, today: int): (r: seq<string>)
      reads this
      ensures IsSubseq(r, all)
      ensures forall s :: s in r <==> s in all && IsSubtopicAvailable(s, today)
    {
      var used, cooldown := lastUsedSubtopics, subtopicCooldownDays;
      Filter((s: string) => Available(used, cooldown, s, today), all)
    }

    /**
     * A recorded publication's subtopic has a last-use stamp, so it is
     * available again only once the cooldown has passed since that stamp.
     */
    lemma RecordedSubtopicCooldown(i: nat, today: int)
      requires Valid() && i < |publications|
      ensures var s := publications[i].subtopic;
        s in lastUsedSubtopics &&
        (IsSubtopicAvailable(s, today) <==> today - lastUsedSubtopics[s] >= subtopicCooldownDays)
    {
    }

    /** Appends one publication and marks its subtopic, photo and music as used today. */
    method RecordPublication(contentType: string, categoryId: string, subtopic: string,
                             photo: string, music: string, text: string, status: string, today: int)
      returns (index: nat)
      modifies this
      ensures old(Valid()) ==> Valid()
      ensures index == |old(publications)|
      ensures publications == old(publications)
        + [Publication(today, contentType, categoryId, subtopic, photo, music, text, status, None)]
      ensures lastUsedSubtopics == old(lastUsedSubtopics)[subtopic := today]
      ensures lastUsedPhotos == old(lastUsedPhotos)[photo := today]
      ensures lastUsedMusic == old(lastUsedMusic)[music := today]
      ensures unchanged(`subtopicCooldownDays) && unchanged(`photoCooldownDays) && unchanged(`musicCooldownDays)
      ensures !IsSubtopicAvailable(subtopic, today) <==> subtopicCooldownDays > 0
    {
      var publication := Publication(today, contentType, categoryId, subtopic, photo, music, text, status, None);
      index := |publications|;
      publications := publications + [publication];
      lastUsedSubtopics := lastUsedSubtopics[subtopic := today];
      lastUsedPhotos := lastUsedPhotos[photo := today];
      lastUsedMusic := lastUsedMusic[music := today];
    }

    /**
     * Sets the status of the publication at `index`; the platform id only
     * when a non-empty one is given.
     */
    method UpdatePublicationStatus(index: nat, status: string, instagramId: Option<string>)
      requires index < |publications|
      modifies this
      ensures Valid() <==> old(Valid())
      ensures |publications| == |old(publications)|
      ensures var p := old(publications)[index];
        publications[index] == p.(status := status,
          instagramId := if instagramId.Some? && instagramId.value != "" then instagramId else p.instagramId)
      ensures forall i :: 0 <= i < |publications| && i != index ==> publications[i] == old(publications)[i]
      ensures unchanged(`lastUsedSubtopics) && unchanged(`lastUsedPhotos) && unchanged(`lastUsedMusic)
      ensures unchanged(`subtopicCooldownDays) && unchanged(`photoCooldownDays) && unchanged(`musicCooldownDays)
    {
      var p := publications[index].(status := status);
      if instagramId.Some? && instagramId.value != "" {
        p := p.(instagramId := instagramId);
      }
      publications := publications[index := p];
      assert forall i :: 0 <= i < |publications| ==>
        publications[i].subtopic == old(publications)[i].subtopic && publications[i].musicPath == old(publications)[i].musicPath;
    }

    /**
     * Records a story series as one publication: the first photo (or "")
     * is stored, and every photo of the series is marked as used today.
     */
    method RecordStorySeries(categoryId: string, subtopic: string, photos: seq<string>,
                             music: string, texts: seq<string>, status: string, today: int)
      returns (index: nat)
      modifies this
      ensures old(Valid()) ==> Valid()
      ensures index == |old(publications)|
      ensures publications == old(publications)
        + [Publication(today, "story_series", categoryId, subtopic, if photos != [] then photos[0] else "",
                       music, SeriesPreview(texts), status, None)]
      ensures lastUsedSubtopics == old(lastUsedSubtopics)[subtopic := today]
      ensures lastUsedMusic == old(lastUsedMusic)[music := today]
      ensures forall p :: p in lastUsedPhotos <==> p in old(lastUsedPhotos) || p in photos
      ensures forall p :: p in lastUsedPhotos ==>
        lastUsedPhotos[p] == if p in photos then today else old(lastUsedPhotos)[p]
      ensures unchanged(`subtopicCooldownDays) && unchanged(`photoCooldownDays) && unchanged(`musicCooldownDays)
    {
      var combined := SeriesPreview(texts);
      var publication := Publication(today, "story_series", categoryId, subtopic,
                                     if photos != [] then photos[0] else "", music, combined, status, None);
      index := |publications|;
      publications := publications + [publication];
      lastUsedSubtopics := lastUsedSubtopics[subtopic := today];
      lastUsedMusic := lastUsedMusic[music := today];
      var i := 0;
      while i < |photos|
        invariant 0 <= i <= |photos|
        invariant old(Valid()) ==> Valid()
        invariant forall p :: p in lastUsedPhotos <==> p in old(lastUsedPhotos) || p in photos[..i]
        invariant forall p :: p in lastUsedPhotos ==>
          lastUsedPhotos[p] == if p in photos[..i] then today else old(lastUsedPhotos)[p]
        invariant publications == old(publications) + [publication]
        invariant lastUsedSubtopics == old(lastUsedSubtopics)[subtopic := today]
        invariant lastUsedMusic == old(lastUsedMusic)[music := today]
        invariant unchanged(`subtopicCooldownDays) && unchanged(`photoCooldownDays) && unchanged(`musicCooldownDays)
      {
        assert photos[..i + 1] == photos[..i] + [photos[i]];
        lastUsedPhotos := lastUsedPhotos[photos[i] := today];
        i := i + 1;
      }
      assert photos[..i] == photos;
    }

    /** The positions of the publications awaiting moderation, in order. */
    function GetPendingPublications(): (r: seq<nat>)
      reads this
      ensures forall k :: 0 <= k < |r| ==> r[k] < |publications| && publications[r[k]].status == "pending"
      ensures forall i :: 0 <= i < |publications| && publications[i].status == "pending" ==> i in r
      ensures forall a, b :: 0 <= a < b < |r| ==> r[a] < r[b]
    {
      IndicesWithStatus(publications, "pending", 0)
    }

    /** `get_stats`: the three tallies and the sizes of the tracking maps. */
    method GetStats() returns (stats: Stats)
      ensures stats.totalPublications == |publications|
      ensures stats.byStatus == Tally(Statuses(publications))
      ensures stats.byType == Tally(Types(publications))
      ensures stats.byCategory == Tally(Categories(publications))
      ensures stats.trackedSubtopics == |lastUsedSubtopics| && stats.trackedPhotos == |lastUsedPhotos|
      ensures stats.trackedMusic == |lastUsedMusic|
      ensures Valid() && publications != [] ==> stats.trackedSubtopics > 0 && stats.trackedMusic > 0
    {
      var pubs := publications;
      var byStatus: Dict<string, nat> := [];
      var byType: Dict<string, nat> := [];
      var byCategory: Dict<string, nat> := [];
      var i := 0;
      while i < |pubs|
        invariant 0 <= i <= |pubs|
        invariant byStatus == Tally(Statuses(pubs[..i]))
        invariant byType == Tally(Types(pubs[..i]))
        invariant byCategory == Tally(Categories(pubs[..i]))
      {
        var pub := pubs[i];
        var prefix := pubs[..i + 1];
        assert prefix[..i] == pubs[..i];
        assert Statuses(prefix) == Statuses(pubs[..i]) + [pub.status];
        assert Types(prefix) == Types(pubs[..i]) + [pub.contentType];
        assert Categories(prefix) == Categories(pubs[..i]) + [pub.categoryId];
        TallySnoc(Statuses(pubs[..i]), pub.status);
        TallySnoc(Types(pubs[..i]), pub.contentType);
        TallySnoc(Categories(pubs[..i]), pub.categoryId);
        byStatus := Bump(byStatus, pub.status);
        byType := Bump(byType, pub.contentType);
        byCategory := Bump(byCategory, pub.categoryId);
        i := i + 1;
      }
      assert pubs[..i] == pubs;
      if Valid() && publications != [] {
        assert publications[0].subtopic in lastUsedSubtopics;
        assert publications[0].musicPath in lastUsedMusic;
      }
      stats := Stats(|publications|, byStatus, byType, byCategory,
                     |lastUsedSubtopics|, |lastUsedPhotos|, |lastUsedMusic|);
    }
  }

  /** Each tally of the statistics sums to the number of publications. */
  lemma StatsSumToTotal(pubs: seq<Publication>)
    ensures SumValues(Tally(Statuses(pubs))) == |pubs|
    ensures SumValues(Tally(Types(pubs))) == |pubs|
    ensures SumValues(Tally(Categories(pubs))) == |pubs|
  {
    TallySum(Statuses(pubs));
    TallySum(Types(pubs));
    TallySum(Categories(pubs));
  }

  /** A status is a key of the status tally exactly when some publication has it. */
  lemma StatusTallyKeys(pubs: seq<Publication>, s: string)
    ensures Get(Tally(Statuses(pubs)), s).Some? <==> Count(Statuses(pubs), s) > 0
  {
    TallyGet(Statuses(pubs), s);
  }
}
