/**
 * The Instagram publisher: publishing one story (container, processing
 * wait, publish), the polling loop that waits for a container, and the
 * tally of a story series.  Every Graph API call is an oracle: its
 * answer is a parameter of the operation that makes it.
 */
module Publisher {
  import opened Builtins

  /** Default wait of `_wait_for_processing`, in seconds. */
  const MaxWait: int := 180
  /** Default polling interval of `_wait_for_processing`, in seconds. */
  const PollInterval: int := 5

  datatype PublishResult = PublishResult(success: bool, mediaId: Option<string>, error: Option<string>)

  datatype SeriesPublishResult = SeriesPublishResult(
    success: bool, total: int, published: int, mediaIds: seq<string>, errors: seq<string>)

  /** `partial_success`: some, but not all, stories went out. */
  predicate PartialSuccess(r: SeriesPublishResult) {
    0 < r.published < r.total
  }

  /** Python truthiness of an optional id: absent and empty both count as missing. */
  predicate Missing(id: Option<string>) {
    id.None? || id.value == ""
  }

  function Failure(message: string): PublishResult {
    PublishResult(false, None, Some(message))
  }

  // ---------------------------------------------------------------------
  // Container status and the processing wait
  // ---------------------------------------------------------------------

  /** One status request: it raised, or the JSON answer had (or lacked) a `status_code`. */
  datatype StatusReply = Raised | Reply(statusCode: Option<string>)

  /** `_get_container_status`: an exception reads as "ERROR", a missing field as "UNKNOWN". */
  function ContainerStatus(reply: StatusReply): string {
    match reply
    case Raised => "ERROR"
    case Reply(None) => "UNKNOWN"
    case Reply(Some(code)) => code
  }

  /** Only a server that says FINISHED lets the wait succeed; an exception ends it like ERROR. */
  lemma ContainerStatusMeaning(reply: StatusReply)
    ensures ContainerStatus(reply) == "FINISHED" <==> reply == Reply(Some("FINISHED"))
    ensures ContainerStatus(reply) == "ERROR" <==> reply == Raised || reply == Reply(Some("ERROR"))
    ensures ContainerStatus(reply) == "UNKNOWN" <==> reply == Reply(None) || reply == Reply(Some("UNKNOWN"))
  {
  }

  predicate Terminal(status: string) {
    status == "FINISHED" || status == "ERROR"
  }

  /** Number of polls the loop makes when no terminal status comes: the ceiling of `maxWait / poll`. */
  function MaxPolls(maxWait: int, poll: int): (n: nat)
    requires poll > 0
  {
    if maxWait <= 0 then 0 else (maxWait + poll - 1) / poll
  }

  lemma MulMono(a: nat, b: nat, poll: nat)
    requires a <= b
    ensures a * poll <= b * poll
  {
  }

  /** The loop guard `elapsed < max_wait`, with `elapsed == k * poll`, holds exactly for the first `MaxPolls` polls. */
  lemma PollsBound(maxWait: int, poll: int, k: nat)
    requires poll > 0
    ensures k * poll < maxWait <==> k < MaxPolls(maxWait, poll)
  {
    if maxWait > 0 {
      var q := MaxPolls(maxWait, poll);
      assert q * poll <= maxWait + poll - 1 < (q + 1) * poll;
      if k < q {
        MulMono(k, q - 1, poll);
        assert (q - 1) * poll == q * poll - poll;
      } else {
        MulMono(q, k, poll);
      }
    }
  }

  /** Whether polls `k`, `k+1`, ... below `n` see FINISHED before any ERROR. */
  function Processed(replies: nat -> StatusReply, k: nat, n: nat): bool
    decreases n - k
  {
    if k >= n then false
    else if ContainerStatus(replies(k)) == "FINISHED" then true
    else if ContainerStatus(replies(k)) == "ERROR" then false
    else Processed(replies, k + 1, n)
  }

  /** Processing succeeds within `n` polls exactly when some poll says FINISHED and no earlier one was terminal. */
  lemma {:induction false} ProcessedMeaning(replies: nat -> StatusReply, k: nat, n: nat) returns (j: nat)
    ensures Processed(replies, k, n) ==>
      k <= j < n && ContainerStatus(replies(j)) == "FINISHED"
      && forall i :: k <= i < j ==> !Terminal(ContainerStatus(replies(i)))
    decreases n - k
  {
    j := k;
    if k < n && !Terminal(ContainerStatus(replies(k))) {
      j := ProcessedMeaning(replies, k + 1, n);
    }
  }

  /**
   * `_wait_for_processing`: polls every `poll` seconds while less than
   * `maxWait` seconds have passed; true on the first FINISHED, false on
   * the first ERROR or when time runs out.  `polls` is the number of
   * status requests made.
   */
  method WaitForProcessing(maxWait: int, poll: int, replies: nat -> StatusReply) returns (ok: bool, polls: nat)
    requires poll > 0
    ensures ok == Processed(replies, 0, MaxPolls(maxWait, poll))
    ensures polls <= MaxPolls(maxWait, poll)
    ensures forall i :: 0 <= i < polls - 1 ==> !Terminal(ContainerStatus(replies(i)))
    ensures ok <==> polls > 0 && ContainerStatus(replies(polls - 1)) == "FINISHED"
    ensures polls < MaxPolls(maxWait, poll) ==> polls > 0 && Terminal(ContainerStatus(replies(polls - 1)))
  {
    var elapsed := 0;
    polls := 0;
    PollsBound(maxWait, poll, 0);
    while elapsed < maxWait
      invariant elapsed == polls * poll
      invariant polls <= MaxPolls(maxWait, poll)
      invariant elapsed < maxWait <==> polls < MaxPolls(maxWait, poll)
      invariant Processed(replies, polls, MaxPolls(maxWait, poll)) == Processed(replies, 0, MaxPolls(maxWait, poll))
      invariant forall i :: 0 <= i < polls ==> !Terminal(ContainerStatus(replies(i)))
      decreases maxWait - elapsed
    {
      var status := ContainerStatus(replies(polls));
      polls := polls + 1;
      if status == "FINISHED" {
        return true, polls;
      } else if status == "ERROR" {
        return false, polls;
      }
      elapsed := elapsed + poll;
      PollsBound(maxWait, poll, polls);
    }
    ok := false;
  }

  // ---------------------------------------------------------------------
  // One story
  // ---------------------------------------------------------------------

  /**
   * `publish_story`: `container` is what creating the media container
   * returned, `replies` the status answers of the default wait, and
   * `mediaId` what publishing the container returned.
   */
  method PublishStory(container: Option<string>, replies: nat -> StatusReply, mediaId: Option<string>)
    returns (r: PublishResult)
    ensures Missing(container) ==> r == Failure("Failed to create media container")
    ensures !Missing(container) && !Processed(replies, 0, MaxPolls(MaxWait, PollInterval)) ==>
      r == Failure("Video processing timeout")
    ensures !Missing(container) && Processed(replies, 0, MaxPolls(MaxWait, PollInterval)) && Missing(mediaId) ==>
      r == Failure("Failed to publish container")
    ensures r.success <==> !Missing(container) && Processed(replies, 0, MaxPolls(MaxWait, PollInterval)) && !Missing(mediaId)
    ensures r.success ==> r == PublishResult(true, mediaId, None)
  {
    if Missing(container) {
      return Failure("Failed to create media container");
    }
    var processed, _ := WaitForProcessing(MaxWait, PollInterval, replies);
    if !processed {
      return Failure("Video processing timeout");
    }
    if !Missing(mediaId) {
      r := PublishResult(true, mediaId, None);
    } else {
      r := Failure("Failed to publish container");
    }
  }

  // ---------------------------------------------------------------------
  // A series of stories
  // ---------------------------------------------------------------------

  /** The loop's test `result.success and result.media_id`. */
  predicate Posted(o: PublishResult) {
    o.success && !Missing(o.mediaId)
  }

  /** The reason logged for a failed story. */
  function Reason(o: PublishResult): string {
    if Missing(o.error) then "Unknown error" else o.error.value
  }

  function ErrorLine(number: nat, o: PublishResult): string {
    "Story " + NatToString(number) + ": " + Reason(o)
  }

  /** Ids of the posted stories, in input order. */
  function MediaIds(outcomes: seq<PublishResult>): (r: seq<string>)
  {
    if outcomes == [] then []
    else
      var last := outcomes[|outcomes| - 1];
      MediaIds(outcomes[..|outcomes| - 1]) + (if Posted(last) then [last.mediaId.value] else [])
  }

  /** One error line per failed story, numbered from 1, in input order. */
  function ErrorLines(outcomes: seq<PublishResult>): (r: seq<string>)
  {
    if outcomes == [] then []
    else
      var last := outcomes[|outcomes| - 1];
      ErrorLines(outcomes[..|outcomes| - 1]) + (if Posted(last) then [] else [ErrorLine(|outcomes|, last)])
  }

  /** The result `publish_story_series` builds from the per-story outcomes. */
  function SeriesOutcome(outcomes: seq<PublishResult>): SeriesPublishResult {
    var ids := MediaIds(outcomes);
    SeriesPublishResult(|ids| == |outcomes|, |outcomes|, |ids|, ids, ErrorLines(outcomes))
  }

  /** One more story extends the ids or the error lines by what it produced. */
  lemma SeriesStep(outcomes: seq<PublishResult>, i: nat)
    requires i < |outcomes|
    ensures MediaIds(outcomes[..i + 1]) ==
      MediaIds(outcomes[..i]) + (if Posted(outcomes[i]) then [outcomes[i].mediaId.value] else [])
    ensures ErrorLines(outcomes[..i + 1]) ==
      ErrorLines(outcomes[..i]) + (if Posted(outcomes[i]) then [] else [ErrorLine(i + 1, outcomes[i])])
  {
    assert outcomes[..i + 1][..i] == outcomes[..i];
    assert outcomes[..i + 1][i] == outcomes[i];
  }

  /**
   * `publish_story_series`: `outcomes[i]` is what `publish_story`
   * returned for the i-th URL.  `delayedAfter` lists the stories after
   * which the loop slept.
   */
  method PublishStorySeries(outcomes: seq<PublishResult>) returns (r: SeriesPublishResult, delayedAfter: seq<nat>)
    ensures r == SeriesOutcome(outcomes)
    ensures |delayedAfter| == if outcomes == [] then 0 else |outcomes| - 1
    ensures forall k :: 0 <= k < |delayedAfter| ==> delayedAfter[k] == k && k + 1 < |outcomes|
  {
    var mediaIds: seq<string> := [];
    var errors: seq<string> := [];
    delayedAfter := [];
    var total := |outcomes|;
    var i := 0;
    while i < total
      invariant 0 <= i <= total
      invariant mediaIds == MediaIds(outcomes[..i])
      invariant errors == ErrorLines(outcomes[..i])
      invariant |delayedAfter| == if i == 0 then 0 else if i < total then i else total - 1
      invariant forall k :: 0 <= k < |delayedAfter| ==> delayedAfter[k] == k && k + 1 < total
    {
      var result := outcomes[i];
      SeriesStep(outcomes, i);
      if Posted(result) {
        mediaIds := mediaIds + [result.mediaId.value];
      } else {
        errors := errors + [ErrorLine(i + 1, result)];
      }
      if i < total - 1 {
        delayedAfter := delayedAfter + [i];
      }
      i := i + 1;
    }
    assert outcomes[..total] == outcomes;
    var published := |mediaIds|;
    r := SeriesPublishResult(published == total, total, published, mediaIds, errors);
  }

  /** Every story is either published or reported: `published + len(errors) == total`. */
  lemma {:induction false} SeriesTallyAddsUp(outcomes: seq<PublishResult>)
    ensures SeriesOutcome(outcomes).published + |SeriesOutcome(outcomes).errors| == SeriesOutcome(outcomes).total
  {
    MediaIdsErrorLines(outcomes);
  }

  lemma {:induction false} MediaIdsErrorLines(outcomes: seq<PublishResult>)
    ensures |MediaIds(outcomes)| + |ErrorLines(outcomes)| == |outcomes|
  {
    if outcomes != [] {
      MediaIdsErrorLines(outcomes[..|outcomes| - 1]);
    }
  }

  /** The series succeeds exactly when every story was posted; in particular the empty series succeeds. */
  lemma {:induction false} SeriesSuccessIffAllPosted(outcomes: seq<PublishResult>)
    ensures SeriesOutcome(outcomes).success <==> forall i :: 0 <= i < |outcomes| ==> Posted(outcomes[i])
  {
    AllPostedIds(outcomes);
  }

  lemma {:induction false} AllPostedIds(outcomes: seq<PublishResult>)
    ensures |MediaIds(outcomes)| == |outcomes| <==> forall i :: 0 <= i < |outcomes| ==> Posted(outcomes[i])
  {
    if outcomes != [] {
      var init := outcomes[..|outcomes| - 1];
      AllPostedIds(init);
      MediaIdsErrorLines(init);
      MediaIdsErrorLines(outcomes);
      if forall i :: 0 <= i < |outcomes| ==> Posted(outcomes[i]) {
        assert forall i :: 0 <= i < |init| ==> Posted(init[i]) by {
          forall i | 0 <= i < |init| ensures Posted(init[i]) { assert init[i] == outcomes[i]; }
        }
      }
      if |MediaIds(outcomes)| == |outcomes| {
        assert |MediaIds(init)| == |init|;
        forall i | 0 <= i < |outcomes| ensures Posted(outcomes[i]) {
          if i < |init| { assert init[i] == outcomes[i]; }
        }
      }
    }
  }

  /** Nothing posted means no ids at all and one error line per story. */
  lemma {:induction false} NothingPosted(outcomes: seq<PublishResult>)
    requires forall i :: 0 <= i < |outcomes| ==> !Posted(outcomes[i])
    ensures MediaIds(outcomes) == [] && |ErrorLines(outcomes)| == |outcomes|
  {
    if outcomes != [] {
      var init := outcomes[..|outcomes| - 1];
      assert forall i :: 0 <= i < |init| ==> !Posted(init[i]) by {
        forall i | 0 <= i < |init| ensures !Posted(init[i]) { assert init[i] == outcomes[i]; }
      }
      NothingPosted(init);
    }
  }

  /** The i-th story's error line, when it failed, is numbered i + 1 and is among the errors. */
  lemma {:induction false} FailedStoryReported(outcomes: seq<PublishResult>, i: nat)
    requires i < |outcomes| && !Posted(outcomes[i])
    ensures ErrorLine(i + 1, outcomes[i]) in ErrorLines(outcomes)
    decreases |outcomes|
  {
    var init := outcomes[..|outcomes| - 1];
    if i < |init| {
      assert init[i] == outcomes[i];
      FailedStoryReported(init, i);
    }
  }

  /** The i-th story's id, when it was posted, is among the media ids. */
  lemma {:induction false} PostedStoryKept(outcomes: seq<PublishResult>, i: nat)
    requires i < |outcomes| && Posted(outcomes[i])
    ensures outcomes[i].mediaId.value in MediaIds(outcomes)
    decreases |outcomes|
  {
    var init := outcomes[..|outcomes| - 1];
    if i < |init| {
      assert init[i] == outcomes[i];
      PostedStoryKept(init, i);
    }
  }

  /** Success and partial success never hold together; with at least one story, exactly one of success, partial success and total failure holds. */
  lemma SuccessPartialExclusive(outcomes: seq<PublishResult>)
    ensures var r := SeriesOutcome(outcomes);
      !(r.success && PartialSuccess(r))
      && (r.total > 0 ==> (r.success || PartialSuccess(r) || r.published == 0))
  {
    MediaIdsErrorLines(outcomes);
  }
}
