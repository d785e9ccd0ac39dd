/**
 * The Telegram moderation bot: the three dictionaries it keeps (content
 * awaiting a decision, chats in editing mode, story series awaiting a
 * decision), the handlers that change them, the callback data of the
 * inline keyboard and the text of the publish notification.  Sending a
 * message is an oracle (`sendOk`); the approve and reject callbacks are
 * recorded as the calls they receive.
 */
module TelegramBot {
  import opened Builtins
  import Publisher

  datatype PendingContent = PendingContent(
    contentId: string, contentType: string, topic: string, subtopic: string,
    text: string, videoPath: Option<string>, photoPath: Option<string>)

  datatype StorySeriesItem = StorySeriesItem(order: int, text: string, videoPath: string)

  datatype PendingStorySeries = PendingStorySeries(
    contentId: string, topic: string, subtopic: string, stories: seq<StorySeriesItem>)

  /** One story as handed to `send_series_for_moderation`; `order` may be absent. */
  datatype StoryInput = StoryInput(order: Option<int>, text: string, videoPath: string)

  // ---------------------------------------------------------------------
  // Callback data
  // ---------------------------------------------------------------------

  datatype Command = Approve(id: string) | Edit(id: string) | Reject(id: string) | CancelEdit | Ignore

  /**
   * `_handle_callback`: the data is split on ':', the action is the first
   * field and the content id the second one, if any.  Approve, edit and
   * reject need a non-empty id; "cancel_edit" needs none.
   */
  function ParseCallback(data: string): (c: Command)
    ensures (c.Approve? || c.Edit? || c.Reject?) ==> c.id != "" && |Split(data, ":")| > 1 && c.id == Split(data, ":")[1]
    ensures c.Approve? <==> Split(data, ":")[0] == "approve" && |Split(data, ":")| > 1 && Split(data, ":")[1] != ""
    ensures c.CancelEdit? <==> Split(data, ":")[0] == "cancel_edit"
  {
    var parts := Split(data, ":");
    var action := parts[0];
    var id := if |parts| > 1 then parts[1] else "";
    if action == "approve" && id != "" then Approve(id)
    else if action == "edit" && id != "" then Edit(id)
    else if action == "reject" && id != "" then Reject(id)
    else if action == "cancel_edit" then CancelEdit
    else Ignore
  }

  /** The callback data of the three moderation buttons, in keyboard order. */
  function KeyboardData(id: string): (r: seq<string>)
    ensures |r| == 3
  {
    ["approve:" + id, "edit:" + id, "reject:" + id]
  }

  lemma ActionThenId(action: string, id: string)
    requires ':' !in action && ':' !in id && id != ""
    ensures Split(action + ":" + id, ":") == [action, id]
  {
    ContainsChar(action, ':');
    ContainsChar(id, ':');
    SplitConcat(action, ":", id);
    SplitNone(id, ":");
  }

  /** Data of the form "{action}:{id}" parses by its action alone. */
  lemma ParseActionId(action: string, id: string)
    requires ':' !in action && ':' !in id && id != ""
    ensures ParseCallback(action + ":" + id) ==
      if action == "approve" then Approve(id)
      else if action == "edit" then Edit(id)
      else if action == "reject" then Reject(id)
      else if action == "cancel_edit" then CancelEdit
      else Ignore
  {
    ActionThenId(action, id);
  }

  /** Every button's data parses back to its own action and id when the id is non-empty and has no ':'. */
  lemma KeyboardRoundTrip(id: string)
    requires id != "" && ':' !in id
    ensures ParseCallback(KeyboardData(id)[0]) == Approve(id)
    ensures ParseCallback(KeyboardData(id)[1]) == Edit(id)
    ensures ParseCallback(KeyboardData(id)[2]) == Reject(id)
  {
    assert "approve:" + id == "approve" + ":" + id;
    ParseActionId("approve", id);
    assert "edit:" + id == "edit" + ":" + id;
    ParseActionId("edit", id);
    assert "reject:" + id == "reject" + ":" + id;
    ParseActionId("reject", id);
  }

  /** An action without an id is ignored, whatever the action; "cancel_edit" alone is understood. */
  lemma CallbackNeedsId(action: string)
    requires ':' !in action
    ensures ParseCallback(action) == if action == "cancel_edit" then CancelEdit else Ignore
  {
    ContainsChar(action, ':');
    SplitNone(action, ":");
  }

  // ---------------------------------------------------------------------
  // The moderation state and its transitions
  // ---------------------------------------------------------------------

  /**
   * The bot's dictionaries, plus the calls made so far to `on_approve`
   * (content id and text) and to `on_reject` (content id).
   */
  datatype Moderation = Moderation(
    pending: map<string, PendingContent>,
    editing: map<int, string>,
    pendingSeries: map<string, PendingStorySeries>,
    approvals: seq<(string, string)>,
    rejections: seq<string>)

  /** `_approve_content` raises KeyError exactly on a series that is no longer in `_pending`. */
  predicate ApproveRaises(m: Moderation, id: string) {
    id !in m.pending && id in m.pendingSeries
  }

  /** `_approve_content`; on the series-only path the state is the one left when the KeyError is raised. */
  function Approved(m: Moderation, id: string, onApprove: bool): (r: Moderation)
    ensures id !in r.pending && id !in r.pendingSeries
    ensures r.editing == m.editing && r.rejections == m.rejections
    ensures id in m.pending && onApprove ==> r.approvals == m.approvals + [(id, m.pending[id].text)]
    ensures ApproveRaises(m, id) && onApprove ==> r.approvals == m.approvals + [(id, "")]
    ensures id !in m.pending && id !in m.pendingSeries ==> r == m
    ensures r.pending == m.pending - {id} && r.pendingSeries == m.pendingSeries - {id}
  {
    if id in m.pending then
      m.(approvals := m.approvals + (if onApprove then [(id, m.pending[id].text)] else []),
         pending := m.pending - {id},
         pendingSeries := m.pendingSeries - {id})
    else if id in m.pendingSeries then
      m.(approvals := m.approvals + (if onApprove then [(id, "")] else []),
         pendingSeries := m.pendingSeries - {id})
    else m
  }

  /** `_reject_content` */
  function Rejected(m: Moderation, id: string, onReject: bool): (r: Moderation)
    ensures r.pending == m.pending - {id} && r.pendingSeries == m.pendingSeries - {id}
    ensures r.editing == m.editing && r.approvals == m.approvals
    ensures (id in m.pending || id in m.pendingSeries) && onReject ==> r.rejections == m.rejections + [id]
    ensures id !in m.pending && id !in m.pendingSeries ==> r == m
  {
    if id in m.pending || id in m.pendingSeries then
      m.(rejections := m.rejections + (if onReject then [id] else []),
         pending := m.pending - {id},
         pendingSeries := m.pendingSeries - {id})
    else m
  }

  /** `_start_edit`: only content still pending can be edited. */
  function EditStarted(m: Moderation, chat: int, id: string): (r: Moderation)
    ensures id in m.pending ==> r == m.(editing := m.editing[chat := id])
    ensures id !in m.pending ==> r == m
  {
    if id in m.pending then m.(editing := m.editing[chat := id]) else m
  }

  /** `_cancel_edit`: forgets the chat's editing entry and nothing else. */
  function EditCancelled(m: Moderation, chat: int): (r: Moderation)
    ensures chat !in r.editing
    ensures forall c :: c in m.editing && c != chat ==> c in r.editing && r.editing[c] == m.editing[c]
    ensures r.pending == m.pending && r.pendingSeries == m.pendingSeries
    ensures r.approvals == m.approvals && r.rejections == m.rejections
  {
    m.(editing := m.editing - {chat})
  }

  /**
   * `_handle_text`: a message from a chat in editing mode approves the
   * edited content with the new text and ends editing; the series entry,
   * if any, stays.  Any other message changes nothing.
   */
  function TextReceived(m: Moderation, chat: int, text: string, onApprove: bool): (r: Moderation)
    ensures chat !in m.editing ==> r == m
    ensures chat in m.editing ==>
      chat !in r.editing && m.editing[chat] !in r.pending
      && r.approvals == m.approvals + (if onApprove then [(m.editing[chat], text)] else [])
    ensures r.pendingSeries == m.pendingSeries && r.rejections == m.rejections
  {
    if chat in m.editing then
      var id := m.editing[chat];
      m.(approvals := m.approvals + (if onApprove then [(id, text)] else []),
         editing := m.editing - {chat},
         pending := m.pending - {id})
    else m
  }

  /** What `_handle_callback` does for each command. */
  function Dispatched(m: Moderation, chat: int, c: Command, onApprove: bool, onReject: bool): Moderation {
    match c
    case Approve(id) => Approved(m, id, onApprove)
    case Edit(id) => EditStarted(m, chat, id)
    case Reject(id) => Rejected(m, id, onReject)
    case CancelEdit => EditCancelled(m, chat)
    case Ignore => m
  }

  /** Once content has been approved or rejected, a second decision on it changes nothing and calls no callback. */
  lemma DecisionIsFinal(m: Moderation, id: string, onApprove: bool, onReject: bool)
    requires id in m.pending
    ensures var a := Approved(m, id, onApprove);
      Approved(a, id, onApprove) == a && Rejected(a, id, onReject) == a && !ApproveRaises(a, id)
    ensures var j := Rejected(m, id, onReject);
      Approved(j, id, onApprove) == j && Rejected(j, id, onReject) == j && !ApproveRaises(j, id)
  {
  }

  /** Edit then send text: the callback receives the new text and the content leaves `_pending`. */
  lemma EditThenText(m: Moderation, chat: int, id: string, text: string)
    requires id in m.pending
    ensures var r := TextReceived(EditStarted(m, chat, id), chat, text, true);
      r.approvals == m.approvals + [(id, text)] && id !in r.pending && chat !in r.editing
      && r.pendingSeries == m.pendingSeries
  {
  }

  /** After cancelling, a text message from that chat is ignored. */
  lemma CancelThenText(m: Moderation, chat: int, text: string, onApprove: bool)
    ensures TextReceived(EditCancelled(m, chat), chat, text, onApprove) == EditCancelled(m, chat)
  {
  }

  /**
   * A series edited through a text message keeps its series entry, so a
   * later press of its old approve button takes the series-only path:
   * `on_approve` is called again with an empty text and KeyError follows.
   */
  lemma EditedSeriesApprovedAgain(m: Moderation, chat: int, id: string, text: string)
    requires id in m.pending && id in m.pendingSeries
    ensures var e := TextReceived(EditStarted(m, chat, id), chat, text, true);
      ApproveRaises(e, id)
      && Approved(e, id, true).approvals == m.approvals + [(id, text), (id, "")]
  {
  }

  // ---------------------------------------------------------------------
  // Series text and the publish notification
  // ---------------------------------------------------------------------

  /** The stored series items: a story without an `order` gets its position plus one. */
  function StoryItems(stories: seq<StoryInput>): (r: seq<StorySeriesItem>)
    ensures |r| == |stories|
    ensures forall i :: 0 <= i < |r| ==>
      r[i].text == stories[i].text && r[i].videoPath == stories[i].videoPath
      && r[i].order == (if stories[i].order.Some? then stories[i].order.value else i + 1)
  {
    seq(|stories|, i requires 0 <= i < |stories| =>
      StorySeriesItem(if stories[i].order.Some? then stories[i].order.value else i + 1,
                      stories[i].text, stories[i].videoPath))
  }

  function SeriesLine(item: StorySeriesItem): string {
    "#" + IntToString(item.order) + ": " + item.text
  }

  function SeriesLines(items: seq<StorySeriesItem>): (r: seq<string>)
    ensures |r| == |items| && forall i :: 0 <= i < |items| ==> r[i] == SeriesLine(items[i])
  {
    seq(|items|, i requires 0 <= i < |items| => SeriesLine(items[i]))
  }

  /** The text stored in `_pending` for a series: one "#{order}: {text}" line per story, blank-line separated. */
  function CombinedText(items: seq<StorySeriesItem>): string {
    Join("\n\n", SeriesLines(items))
  }

  /** The combined text of a series whose stories carry no order numbers them 1, 2, ... */
  lemma {:induction false} CombinedTextNumbers(stories: seq<StoryInput>)
    requires forall i :: 0 <= i < |stories| ==> stories[i].order.None?
    ensures |stories| == 1 ==> CombinedText(StoryItems(stories)) == "#1: " + stories[0].text
    ensures |stories| >= 2 ==>
      CombinedText(StoryItems(stories)) == "#1: " + stories[0].text + "\n\n" + CombinedText(StoryItems(stories)[1..])
  {
    var items := StoryItems(stories);
    if |stories| >= 1 {
      assert SeriesLine(items[0]) == "#1: " + stories[0].text by {
        assert IntToString(1) == "1";
      }
      if |stories| >= 2 {
        assert SeriesLines(items)[1..] == SeriesLines(items[1..]);
      }
    }
  }

  /** The `_pending` entry stored for a series. */
  function SeriesContent(id: string, topic: string, subtopic: string, items: seq<StorySeriesItem>): (c: PendingContent)
    ensures c.contentId == id && c.contentType == "story_series" && c.text == CombinedText(items)
    ensures c.videoPath == (if items == [] then None else Some(items[0].videoPath)) && c.photoPath == None
  {
    PendingContent(id, "story_series", topic, subtopic, CombinedText(items),
                   if items == [] then None else Some(items[0].videoPath), None)
  }

  /** The media ids shown: the first three, then "... (+N)" for the rest; "-" when there are none. */
  function IdsText(mediaIds: seq<string>): (r: string)
    ensures mediaIds == [] ==> r == "-"
    ensures 0 < |mediaIds| <= 3 ==> r == Join(", ", mediaIds)
    ensures |mediaIds| > 3 ==> r == Join(", ", mediaIds[..3]) + "... (+" + NatToString(|mediaIds| - 3) + ")"
  {
    if mediaIds == [] then "-"
    else
      var shown := Join(", ", PrefixSlice(mediaIds, 3));
      if |mediaIds| > 3 then shown + "... (+" + NatToString(|mediaIds| - 3) + ")" else shown
  }

  const Published := "✅ ОПУБЛИКОВАНО"
  const PartlyPublished := "⚠️ ЧАСТИЧНО ОПУБЛИКОВАНО"
  const PublishFailed := "❌ ОШИБКА ПУБЛИКАЦИИ"

  function NotificationStatus(published: int, total: int): string {
    if published == total then Published
    else if published > 0 then PartlyPublished
    else PublishFailed
  }

  /** The notification text of `send_publish_notification`. */
  function NotificationMessage(subtopic: string, published: int, total: int, mediaIds: seq<string>): (r: string)
    ensures StartsWith(r, NotificationStatus(published, total))
  {
    var status := NotificationStatus(published, total);
    var rest := "\n\nТема: " + subtopic + "\nИсторий: " + IntToString(published) + "/" + IntToString(total)
      + "\nID: " + IdsText(mediaIds);
    assert (status + rest)[..|status|] == status;
    status + rest
  }

  /**
   * For a series result the notification status matches the publisher's
   * own verdict: published for success, partly published for partial
   * success, failure when nothing went out.
   */
  lemma NotificationMatchesSeries(outcomes: seq<Publisher.PublishResult>)
    ensures var r := Publisher.SeriesOutcome(outcomes);
      var s := NotificationStatus(r.published, r.total);
      (s == Published <==> r.success)
      && (s == PartlyPublished <==> Publisher.PartialSuccess(r))
      && (s == PublishFailed <==> r.total > 0 && r.published == 0)
  {
    Publisher.MediaIdsErrorLines(outcomes);
  }

  // ---------------------------------------------------------------------
  // The bot
  // ---------------------------------------------------------------------

  class ModerationBot {
    /** Whether `on_approve` and `on_reject` were given. */
    const onApprove: bool
    const onReject: bool
    /** Whether `build_app` has run. */
    var appBuilt: bool
    var pending: map<string, PendingContent>
    var editing: map<int, string>
    var pendingSeries: map<string, PendingStorySeries>
    var approvals: seq<(string, string)>
    var rejections: seq<string>

    function State(): Moderation
      reads this
    {
      Moderation(pending, editing, pendingSeries, approvals, rejections)
    }

    constructor(onApprove: bool, onReject: bool)
      ensures this.onApprove == onApprove && this.onReject == onReject && !appBuilt
      ensures State() == Moderation(map[], map[], map[], [], [])
    {
      this.onApprove := onApprove;
      this.onReject := onReject;
      appBuilt := false;
      pending := map[];
      editing := map[];
      pendingSeries := map[];
      approvals := [];
      rejections := [];
    }

    method BuildApp()
      modifies this
      ensures appBuilt && State() == old(State())
    {
      appBuilt := true;
    }

    method ApproveContent(id: string) returns (raised: bool)
      modifies this
      ensures raised == ApproveRaises(old(State()), id)
      ensures State() == Approved(old(State()), id, onApprove) && appBuilt == old(appBuilt)
    {
      if id !in pending {
        if id in pendingSeries {
          if onApprove {
            approvals := approvals + [(id, "")];
          }
          pendingSeries := pendingSeries - {id};
          return true;
        }
        return false;
      }
      var content := pending[id];
      if onApprove {
        approvals := approvals + [(id, content.text)];
      }
      if id in pendingSeries {
        pendingSeries := pendingSeries - {id};
      }
      pending := pending - {id};
      raised := false;
    }

    method RejectContent(id: string)
      modifies this
      ensures State() == Rejected(old(State()), id, onReject) && appBuilt == old(appBuilt)
    {
      if id !in pending {
        if id in pendingSeries {
          if onReject {
            rejections := rejections + [id];
          }
          pendingSeries := pendingSeries - {id};
        }
        return;
      }
      if onReject {
        rejections := rejections + [id];
      }
      if id in pendingSeries {
        pendingSeries := pendingSeries - {id};
      }
      pending := pending - {id};
    }

    method StartEdit(chat: int, id: string)
      modifies this
      ensures State() == EditStarted(old(State()), chat, id) && appBuilt == old(appBuilt)
    {
      if id in pending {
        editing := editing[chat := id];
      }
    }

    method CancelEdit(chat: int)
      modifies this
      ensures State() == EditCancelled(old(State()), chat) && appBuilt == old(appBuilt)
    {
      if chat in editing {
        editing := editing - {chat};
      }
    }

    method HandleText(chat: int, text: string)
      modifies this
      ensures State() == TextReceived(old(State()), chat, text, onApprove) && appBuilt == old(appBuilt)
    {
      if chat in editing {
        var id := editing[chat];
        if id in pending {
          pending := pending[id := pending[id].(text := text)];
        }
        if onApprove {
          approvals := approvals + [(id, text)];
        }
        editing := editing - {chat};
        if id in pending {
          pending := pending - {id};
        }
      }
    }

    /** `_handle_callback`; `raised` is the KeyError of the series-only approve path. */
    method HandleCallback(chat: int, data: string) returns (raised: bool)
      modifies this
      ensures State() == Dispatched(old(State()), chat, ParseCallback(data), onApprove, onReject)
      ensures raised <==> ParseCallback(data).Approve? && ApproveRaises(old(State()), ParseCallback(data).id)
      ensures appBuilt == old(appBuilt)
    {
      raised := false;
      match ParseCallback(data)
      case Approve(id) => raised := ApproveContent(id);
      case Edit(id) => StartEdit(chat, id);
      case Reject(id) => RejectContent(id);
      case CancelEdit => CancelEdit(chat);
      case Ignore =>
    }

    /**
     * `send_for_moderation`: nothing is stored without an app; otherwise
     * the content is stored before sending, and stays stored when sending
     * fails.
     */
    method SendForModeration(id: string, contentType: string, topic: string, subtopic: string, text: string,
                             videoPath: Option<string>, photoPath: Option<string>, sendOk: bool)
      returns (ok: bool)
      modifies this
      ensures !old(appBuilt) ==> !ok && State() == old(State())
      ensures old(appBuilt) ==> (ok == sendOk
        && State() == old(State()).(pending := old(pending)[id := PendingContent(id, contentType, topic, subtopic, text, videoPath, photoPath)]))
      ensures appBuilt == old(appBuilt)
    {
      if !appBuilt {
        return false;
      }
      pending := pending[id := PendingContent(id, contentType, topic, subtopic, text, videoPath, photoPath)];
      ok := sendOk;
    }

    /**
     * `send_series_for_moderation`: nothing is stored without an app;
     * otherwise the series goes into `_pending_series` and its combined
     * text into `_pending`, both before sending.
     */
    method SendSeriesForModeration(id: string, topic: string, subtopic: string, stories: seq<StoryInput>, sendOk: bool)
      returns (ok: bool)
      modifies this
      ensures !old(appBuilt) ==> !ok && State() == old(State())
      ensures old(appBuilt) ==> (ok == sendOk
        && State() == old(State()).(
             pendingSeries := old(pendingSeries)[id := PendingStorySeries(id, topic, subtopic, StoryItems(stories))],
             pending := old(pending)[id := SeriesContent(id, topic, subtopic, StoryItems(stories))]))
      ensures appBuilt == old(appBuilt)
    {
      if !appBuilt {
        return false;
      }
      var items := StoryItems(stories);
      pendingSeries := pendingSeries[id := PendingStorySeries(id, topic, subtopic, items)];
      pending := pending[id := SeriesContent(id, topic, subtopic, items)];
      ok := sendOk;
    }

    /** `send_publish_notification`: the message it sends, if any, and whether sending succeeded. */
    method SendPublishNotification(subtopic: string, published: int, total: int, mediaIds: seq<string>, sendOk: bool)
      returns (ok: bool, message: Option<string>)
      ensures !appBuilt ==> !ok && message == None
      ensures appBuilt ==> ok == sendOk && message == Some(NotificationMessage(subtopic, published, total, mediaIds))
    {
      if !appBuilt {
        return false, None;
      }
      message := Some(NotificationMessage(subtopic, published, total, mediaIds));
      ok := sendOk;
    }
  }

  /** A stored series is approved as a whole: both entries go, the callback receives the combined text, nothing raises. */
  lemma SeriesThenApprove(m: Moderation, id: string, topic: string, subtopic: string, stories: seq<StoryInput>)
    ensures var items := StoryItems(stories);
      var s := m.(pendingSeries := m.pendingSeries[id := PendingStorySeries(id, topic, subtopic, items)],
                  pending := m.pending[id := SeriesContent(id, topic, subtopic, items)]);
      !ApproveRaises(s, id)
      && Approved(s, id, true).approvals == m.approvals + [(id, CombinedText(items))]
      && id !in Approved(s, id, true).pending && id !in Approved(s, id, true).pendingSeries
  {
  }
}
