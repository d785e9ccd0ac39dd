/**
 * Post-processing of language-model answers: the cleaner that cuts a
 * JSON document out of a chatty reply, and the structural validator of a
 * parsed story series. The HTTP client and its retries are not modelled.
 */
module TextGenerator {
  import opened Builtins

  // ---------------------------------------------------------------------
  // Cleaning a reply
  // ---------------------------------------------------------------------

  /** The text begins a JSON object or array. */
  predicate OpensJson(s: string) {
    s != [] && (s[0] == '{' || s[0] == '[')
  }

  /** A fenced part, stripped and without a leading `json` language tag. */
  function FenceCandidate(part: string): string {
    var p := Strip(part);
    if StartsWith(p, "json") then Strip(p[4..]) else p
  }

  lemma FenceCandidateSlice(part: string)
    ensures IsSlice(FenceCandidate(part), part)
  {
    var p := Strip(part);
    StripSlice(part);
    if StartsWith(p, "json") {
      var q := Strip(p[4..]);
      StripSlice(p[4..]);
      SliceAt(p, 4, |p|);
      SliceOfSlice(q, p[4..], p);
      SliceOfSlice(q, p, part);
    }
  }

  function FirstJsonFrom(parts: seq<string>, from: nat): (k: int)
    requires from <= |parts|
    ensures k == -1 || (from <= k < |parts| && OpensJson(FenceCandidate(parts[k])))
    ensures forall j :: from <= j < |parts| && (k == -1 || j < k) ==> !OpensJson(FenceCandidate(parts[j]))
    decreases |parts| - from
  {
    if from == |parts| then -1
    else if OpensJson(FenceCandidate(parts[from])) then from
    else FirstJsonFrom(parts, from + 1)
  }

  /** The first part whose candidate opens JSON, or -1. */
  function FirstJsonPart(parts: seq<string>): (k: int)
    ensures k == -1 || (0 <= k < |parts| && OpensJson(FenceCandidate(parts[k])))
    ensures forall j :: 0 <= j < |parts| && (k == -1 || j < k) ==> !OpensJson(FenceCandidate(parts[j]))
  {
    FirstJsonFrom(parts, 0)
  }

  /** With code fences, the first fenced part that opens JSON replaces the text. */
  function FenceStage(c: string): string {
    if Contains(c, "```") then
      var parts := Split(c, "```");
      var k := FirstJsonPart(parts);
      if k >= 0 then FenceCandidate(parts[k]) else c
    else c
  }

  /** The first `{` or `[` of the text, or -1 if it has neither. */
  function JsonStart(c: string): (k: int)
    ensures -1 <= k < |c|
    ensures k == -1 <==> '{' !in c && '[' !in c
    ensures k >= 0 ==> (c[k] == '{' || c[k] == '[') && forall i :: 0 <= i < k ==> c[i] != '{' && c[i] != '['
  {
    var o, a := Find(c, '{'), Find(c, '[');
    if o == -1 && a == -1 then -1
    else if o == -1 then a
    else if a == -1 then o
    else if o < a then o else a
  }

  /** The running depth of a text: openers minus closers. */
  function Depth(s: string, open: char, close: char): int {
    if s == [] then 0
    else Depth(s[..|s| - 1], open, close)
         + (if s[|s| - 1] == open then 1 else if s[|s| - 1] == close then -1 else 0)
  }

  /** `s[i]` is a closer at which the depth comes back to zero. */
  predicate ClosesAt(s: string, open: char, close: char, i: int)
    requires 0 <= i < |s|
  {
    s[i] == close && Depth(s[..i + 1], open, close) == 0
  }

  function CloseFrom(s: string, open: char, close: char, from: nat): (k: int)
    requires from <= |s|
    ensures k == -1 || (from <= k < |s| && ClosesAt(s, open, close, k))
    ensures forall i :: from <= i < |s| && (k == -1 || i < k) ==> !ClosesAt(s, open, close, i)
    decreases |s| - from
  {
    if from == |s| then -1
    else if ClosesAt(s, open, close, from) then from
    else CloseFrom(s, open, close, from + 1)
  }

  /** The first index at which the bracket opened by the text closes, or -1. */
  function CloseIndex(s: string, open: char, close: char): (k: int)
    ensures k == -1 || (0 <= k < |s| && ClosesAt(s, open, close, k))
    ensures forall i :: 0 <= i < |s| && (k == -1 || i < k) ==> !ClosesAt(s, open, close, i)
  {
    CloseFrom(s, open, close, 0)
  }

  /**
   * The text up to the closer that brings the depth back to zero, or all
   * of it if the depth never returns to zero there.
   */
  function CutAtClose(s: string, open: char, close: char): (r: string)
    ensures StartsWith(s, r)
    ensures CloseIndex(s, open, close) == -1 ==> r == s
    ensures CloseIndex(s, open, close) >= 0 ==>
      r != [] && r[|r| - 1] == close && Depth(r, open, close) == 0
      && forall i :: 0 <= i < |r| - 1 ==> !ClosesAt(r, open, close, i)
  {
    var k := CloseIndex(s, open, close);
    if k == -1 then s
    else
      var r := s[..k + 1];
      PrefixClosesAt(s, open, close, k + 1);
      assert r[..k + 1] == r;
      r
  }

  /** Where a prefix closes is where the whole text closes. */
  lemma PrefixClosesAt(s: string, open: char, close: char, n: int)
    requires 0 <= n <= |s|
    ensures forall i :: 0 <= i < n ==> ClosesAt(s[..n], open, close, i) == ClosesAt(s, open, close, i)
  {
    forall i | 0 <= i < n
      ensures ClosesAt(s[..n], open, close, i) == ClosesAt(s, open, close, i)
    {
      assert s[..n][..i + 1] == s[..i + 1];
    }
  }

  /** Trailing text after the JSON value is cut off. */
  function TrimAfterJson(d: string): string {
    if d != [] && d[0] == '{' then CutAtClose(d, '{', '}')
    else if d != [] && d[0] == '[' then CutAtClose(d, '[', ']')
    else d
  }

  /** What `_clean_json_response` returns for a reply. */
  function CleanJson(reply: string): string {
    var c := FenceStage(Strip(reply));
    if !OpensJson(c) && JsonStart(c) == -1 then c
    else
      var d := if OpensJson(c) then c else c[JsonStart(c)..];
      Strip(TrimAfterJson(d))
  }

  /** The scan of one bracket kind: the loop that tracks the depth. */
  method CutAtClosing(content: string, open: char, close: char) returns (r: string)
    requires open != close
    ensures r == CutAtClose(content, open, close)
  {
    var depth := 0;
    var i := 0;
    while i < |content|
      invariant 0 <= i <= |content|
      invariant depth == Depth(content[..i], open, close)
      invariant forall j :: 0 <= j < i ==> !ClosesAt(content, open, close, j)
    {
      var ch := content[i];
      assert content[..i + 1][..i] == content[..i];
      assert content[..i + 1][i] == ch;
      if ch == open {
        depth := depth + 1;
      } else if ch == close {
        depth := depth - 1;
        if depth == 0 {
          assert ClosesAt(content, open, close, i);
          return content[..i + 1];
        }
      }
      assert depth == Depth(content[..i + 1], open, close);
      assert !ClosesAt(content, open, close, i);
      i := i + 1;
    }
    assert CloseIndex(content, open, close) == -1;
    r := content;
  }

  /** One fenced part: strip it, and strip again after a leading `json` tag. */
  method DropLanguageTag(fenced: string) returns (part: string)
    ensures part == FenceCandidate(fenced)
  {
    part := Strip(fenced);
    if StartsWith(part, "json") {
      part := Strip(part[4..]);
    }
  }

  /** The fence loop: the first fenced part that opens JSON, else the text unchanged. */
  method PickFencedPart(content: string) returns (r: string)
    ensures r == FenceStage(content)
  {
    r := content;
    if Contains(content, "```") {
      var parts := Split(content, "```");
      var n := 0;
      while n < |parts|
        invariant 0 <= n <= |parts|
        invariant FirstJsonFrom(parts, n) == FirstJsonPart(parts)
      {
        var part := DropLanguageTag(parts[n]);
        if part != [] && (part[0] == '{' || part[0] == '[') {
          return part;
        }
        n := n + 1;
      }
    }
  }

  /** `_clean_json_response`, step by step. */
  method CleanJsonResponse(reply: string) returns (r: string)
    ensures r == CleanJson(reply)
  {
    var content := Strip(reply);
    content := PickFencedPart(content);
    if !(content != [] && (content[0] == '{' || content[0] == '[')) {
      var startObj := Find(content, '{');
      var startArr := Find(content, '[');
      if startObj == -1 && startArr == -1 {
        return content;
      }
      var start: int;
      if startObj == -1 {
        start := startArr;
      } else if startArr == -1 {
        start := startObj;
      } else {
        start := if startObj < startArr then startObj else startArr;
      }
      assert start == JsonStart(content);
      content := content[start..];
    }
    if content != [] && content[0] == '{' {
      content := CutAtClosing(content, '{', '}');
    } else if content != [] && content[0] == '[' {
      content := CutAtClosing(content, '[', ']');
    }
    r := Strip(content);
  }

  // ---------------------------------------------------------------------
  // Properties of the cleaner
  // ---------------------------------------------------------------------

  /** A slice of a text without a character has none either. */
  lemma SliceLacks(r: string, s: string, c: char)
    requires IsSlice(r, s) && c !in s
    ensures c !in r
  {
  }

  /** Without brackets, no fenced part can open JSON, so the fence stage changes nothing. */
  lemma FenceStageNoBracket(c: string)
    requires '{' !in c && '[' !in c
    ensures FenceStage(c) == c
  {
    if Contains(c, "```") {
      var parts := Split(c, "```");
      forall j | 0 <= j < |parts|
        ensures !OpensJson(FenceCandidate(parts[j]))
      {
        SplitSlices(c, "```", parts[j]);
        FenceCandidateSlice(parts[j]);
        SliceOfSlice(FenceCandidate(parts[j]), parts[j], c);
        SliceLacks(FenceCandidate(parts[j]), c, '{');
        SliceLacks(FenceCandidate(parts[j]), c, '[');
      }
    }
  }

  /** A reply with neither `{` nor `[` comes back stripped and otherwise unchanged. */
  lemma CleanJsonNoBracket(reply: string)
    requires '{' !in Strip(reply) && '[' !in Strip(reply)
    ensures CleanJson(reply) == Strip(reply)
  {
    FenceStageNoBracket(Strip(reply));
  }

  /** The fence stage returns a contiguous piece of its input. */
  lemma FenceStageSlice(c: string)
    ensures IsSlice(FenceStage(c), c)
  {
    SliceSelf(c);
    if Contains(c, "```") {
      var parts := Split(c, "```");
      var k := FirstJsonPart(parts);
      if k >= 0 {
        SplitSlices(c, "```", parts[k]);
        FenceCandidateSlice(parts[k]);
        SliceOfSlice(FenceCandidate(parts[k]), parts[k], c);
      }
    }
  }

  /** Cutting after the JSON value and stripping keeps a contiguous piece. */
  lemma TrimmedSlice(d: string)
    ensures IsSlice(Strip(TrimAfterJson(d)), d)
  {
    var t := TrimAfterJson(d);
    assert t == d[..|t|];
    SliceAt(d, 0, |t|);
    StripSlice(t);
    SliceOfSlice(Strip(t), t, d);
  }

  /** The text from the JSON start on is a contiguous piece. */
  lemma JsonFromSlice(c: string)
    requires OpensJson(c) || JsonStart(c) != -1
    ensures IsSlice(if OpensJson(c) then c else c[JsonStart(c)..], c)
  {
    if OpensJson(c) {
      SliceSelf(c);
    } else {
      SliceAt(c, JsonStart(c), |c|);
    }
  }

  /** The cleaned text is always a contiguous piece of the reply. */
  lemma CleanJsonSlice(reply: string)
    ensures IsSlice(CleanJson(reply), reply)
  {
    var s := Strip(reply);
    var c := FenceStage(s);
    StripSlice(reply);
    FenceStageSlice(s);
    SliceOfSlice(c, s, reply);
    if OpensJson(c) || JsonStart(c) != -1 {
      var d := if OpensJson(c) then c else c[JsonStart(c)..];
      JsonFromSlice(c);
      SliceOfSlice(d, c, reply);
      TrimmedSlice(d);
      SliceOfSlice(Strip(TrimAfterJson(d)), d, reply);
    }
  }

  /** The cleaned text never has whitespace at either end. */
  lemma CleanJsonStripped(reply: string)
    ensures var r := CleanJson(reply); r == [] || (!IsSpace(r[0]) && !IsSpace(r[|r| - 1]))
  {
    var s := Strip(reply);
    var c := FenceStage(s);
    if !OpensJson(c) && JsonStart(c) == -1 {
      if Contains(s, "```") {
        var k := FirstJsonPart(Split(s, "```"));
        assert k == -1;
      }
    }
  }

  /**
   * Unless the reply has no bracket at all, the cleaned text opens JSON;
   * it starts at the first bracket when the fence stage did not already
   * deliver one at the front.
   */
  lemma CleanJsonOpens(reply: string)
    requires OpensJson(FenceStage(Strip(reply))) || JsonStart(FenceStage(Strip(reply))) >= 0
    ensures OpensJson(CleanJson(reply))
  {
    var c := FenceStage(Strip(reply));
    var d := if OpensJson(c) then c else c[JsonStart(c)..];
    assert OpensJson(d);
    TrimKeepsOpen(d);
  }

  /** Cutting after the JSON value and stripping keeps the opening bracket first. */
  lemma TrimKeepsOpen(d: string)
    requires OpensJson(d)
    ensures OpensJson(Strip(TrimAfterJson(d)))
  {
    var t := TrimAfterJson(d);
    assert StartsWith(d, t) && t != [];
    assert t[0] == d[0];
    StripKeepsFirst(t);
  }

  /**
   * A reply that is a `{` object, maybe followed by chatter, is cut right
   * after the brace that closes the object.
   */
  lemma CleanJsonObject(reply: string)
    requires !Contains(Strip(reply), "```")
    requires Strip(reply) != [] && Strip(reply)[0] == '{'
    requires CloseIndex(Strip(reply), '{', '}') >= 0
    ensures var r := CleanJson(reply);
      StartsWith(Strip(reply), r) && r[|r| - 1] == '}' && Depth(r, '{', '}') == 0
  {
    var s := Strip(reply);
    assert FenceStage(s) == s;
    assert CleanJson(reply) == Strip(CutAtClose(s, '{', '}'));
    CutObjectShape(s);
  }

  /** An object cut at its closing brace has nothing to strip. */
  lemma CutObjectShape(s: string)
    requires s != [] && s[0] == '{' && CloseIndex(s, '{', '}') >= 0
    ensures var t := CutAtClose(s, '{', '}');
      Strip(t) == t && StartsWith(s, t) && t[|t| - 1] == '}' && Depth(t, '{', '}') == 0
  {
    var t := CutAtClose(s, '{', '}');
    assert t[0] == '{';
    StripNoop(t);
  }

  // ---------------------------------------------------------------------
  // Validating a parsed story series
  // ---------------------------------------------------------------------

  /** A parsed JSON value. */
  datatype Json =
    | JNull
    | JBool(b: bool)
    | JInt(i: int)
    | JFloat(f: real)
    | JString(s: string)
    | JArray(items: seq<Json>)
    | JObject(fields: map<string, Json>)

  /** The reasons a story series is rejected. */
  datatype Problem =
    | NotAnObject
    | MissingStories
    | StoriesNotArray
    | NoStories
    | StoryNotObject(index: nat)
    | MissingField(index: nat, field: string)
    | InvalidOrder(index: nat, order: Json)

  /** The validator's outcome; `TypeError` is the exception `len` raises on a number, a bool or null. */
  datatype Verdict = Valid | Invalid(problem: Problem) | TypeError(index: nat)

  /** `len(v)` is defined for strings, arrays and objects. */
  predicate HasLength(v: Json) {
    v.JString? || v.JArray? || v.JObject?
  }

  /** `isinstance(v, int) and v >= 1`, where a bool is an int. */
  predicate ValidOrder(v: Json) {
    (v.JInt? && v.i >= 1) || v == JBool(true)
  }

  /** What a story must satisfy. The length of its text is not among the conditions. */
  predicate StoryOk(story: Json) {
    story.JObject? && "order" in story.fields && "text" in story.fields
    && HasLength(story.fields["text"]) && ValidOrder(story.fields["order"])
  }

  /** The verdict on one story at position `i`, or None if it passes. */
  function CheckStory(i: nat, story: Json): (v: Option<Verdict>)
    ensures v.None? <==> StoryOk(story)
  {
    if !story.JObject? then Some(Invalid(StoryNotObject(i)))
    else if "order" !in story.fields then Some(Invalid(MissingField(i, "order")))
    else if "text" !in story.fields then Some(Invalid(MissingField(i, "text")))
    else if !HasLength(story.fields["text"]) then Some(TypeError(i))
    else if !ValidOrder(story.fields["order"]) then Some(Invalid(InvalidOrder(i, story.fields["order"])))
    else None
  }

  /** The stories from position `from` on, in order; the first failure decides. */
  function CheckStories(stories: seq<Json>, from: nat): Verdict
    requires from <= |stories|
    decreases |stories| - from
  {
    if from == |stories| then Valid
    else
      var v := CheckStory(from, stories[from]);
      if v.Some? then v.value else CheckStories(stories, from + 1)
  }

  /** `_validate_story_series_json`; the expected count only ever causes a warning. */
  function Validate(data: Json, expectedCount: int): Verdict {
    if !data.JObject? then Invalid(NotAnObject)
    else if "stories" !in data.fields then Invalid(MissingStories)
    else
      var stories := data.fields["stories"];
      if !stories.JArray? then Invalid(StoriesNotArray)
      else if |stories.items| == 0 then Invalid(NoStories)
      else CheckStories(stories.items, 0)
  }

  /** The index a story-level verdict reports. */
  function StoryIndex(v: Verdict): Option<nat> {
    match v
    case TypeError(i) => Some(i)
    case Invalid(StoryNotObject(i)) => Some(i)
    case Invalid(MissingField(i, _)) => Some(i)
    case Invalid(InvalidOrder(i, _)) => Some(i)
    case _ => None
  }

  /** The scan from `from` passes iff every later story is fine, and otherwise names the first bad one. */
  lemma {:induction false} CheckStoriesFirstFailure(stories: seq<Json>, from: nat)
    requires from <= |stories|
    ensures CheckStories(stories, from) == Valid <==> forall j :: from <= j < |stories| ==> StoryOk(stories[j])
    ensures CheckStories(stories, from) != Valid ==>
      var i := StoryIndex(CheckStories(stories, from));
      i.Some? && from <= i.value < |stories| && !StoryOk(stories[i.value])
      && forall j :: from <= j < i.value ==> StoryOk(stories[j])
    decreases |stories| - from
  {
    if from < |stories| {
      var v := CheckStory(from, stories[from]);
      if v.None? {
        CheckStoriesFirstFailure(stories, from + 1);
      }
    }
  }

  function Stories(data: Json): seq<Json>
    requires data.JObject? && "stories" in data.fields && data.fields["stories"].JArray?
  {
    data.fields["stories"].items
  }

  /** The series is valid iff it is an object with a non-empty array of good stories. */
  lemma ValidateValidIff(data: Json, expectedCount: int)
    ensures Validate(data, expectedCount) == Valid <==>
      data.JObject? && "stories" in data.fields && data.fields["stories"].JArray?
      && |Stories(data)| > 0 && forall j :: 0 <= j < |Stories(data)| ==> StoryOk(Stories(data)[j])
  {
    if data.JObject? && "stories" in data.fields && data.fields["stories"].JArray? && |Stories(data)| > 0 {
      CheckStoriesFirstFailure(Stories(data), 0);
    }
  }

  /** A rejected story is the first one that fails, reported by its position. */
  lemma ValidateReportsFirstBadStory(data: Json, expectedCount: int)
    requires StoryIndex(Validate(data, expectedCount)).Some?
    ensures data.JObject? && "stories" in data.fields && data.fields["stories"].JArray?
    ensures var i := StoryIndex(Validate(data, expectedCount)).value;
      i < |Stories(data)| && !StoryOk(Stories(data)[i])
      && forall j :: 0 <= j < i ==> StoryOk(Stories(data)[j])
  {
    CheckStoriesFirstFailure(Stories(data), 0);
  }

  /** The messages the validator returns with `False`. */
  function ProblemMessage(p: Problem): Option<string> {
    match p
    case NotAnObject => Some("Response must be a JSON object")
    case MissingStories => Some("Missing 'stories' key in response")
    case StoriesNotArray => Some("'stories' must be an array")
    case NoStories => Some("No stories in response")
    case StoryNotObject(i) => Some("Story " + NatToString(i + 1) + " must be an object")
    case MissingField(i, f) => Some("Story " + NatToString(i + 1) + " missing required field: " + f)
    case InvalidOrder(i, v) =>
      var text := PyStr(v);
      if text.Some? then Some("Story " + NatToString(i + 1) + " has invalid order: " + text.value) else None
  }

  /** `str(v)` for the scalar values whose rendering is modelled. */
  function PyStr(v: Json): Option<string> {
    match v
    case JNull => Some("None")
    case JBool(b) => Some(if b then "True" else "False")
    case JInt(i) => Some(IntToString(i))
    case JString(s) => Some(s)
    case _ => None
  }
}
