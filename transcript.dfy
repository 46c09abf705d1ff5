/** `transformConversationMessages` (src/pages/Index.tsx): a stored transcript becomes the
    list of display messages. Trimmed, non-empty "action" texts are buffered; the next entry of
    type "assistant" takes the whole buffer as its activity bullets; any bullets left at the
    end go to the last assistant-role message, or to one synthetic message when there is none.

    `Scan` is the specification of the loop (the messages pushed and the buffer after a prefix
    of the transcript), `Flush` that of the final flush; the two methods are proved against
    them, and the lemmas relate `Scan` to independent descriptions of its two halves. */
module Transcript {
  import opened Common
  import opened ChatModel

  /** The entry's `type`, lower-cased; a missing type reads as "". */
  function TypeOf(e: RawEntry): string {
    ToLower(OrEmpty(e.kind))
  }

  predicate IsAction(e: RawEntry) {
    TypeOf(e) == "action"
  }

  /** The bullet an action entry contributes, "" meaning none. */
  function ActionText(e: RawEntry): string {
    Trim(OrEmpty(e.content))
  }

  /** The activity panel that carries freshly buffered bullets. */
  function Buffered(bullets: seq<string>): Activity {
    Activity("Actions", Some(bullets), Some("Done"), None)
  }

  /** The display message of a non-action entry, given the buffer at that point. */
  function Render(e: RawEntry, pending: seq<string>): (m: Message)
    requires !IsAction(e)
    ensures m.id == e.id && !m.isStreaming
    ensures m.role == User <==> TypeOf(e) == "user"
    ensures m.activity.Some? <==> TypeOf(e) == "assistant" && pending != []
    ensures m.activity.Some? ==> m.activity == Some(Buffered(pending))
    ensures m.lead.Some? <==> TypeOf(e) == "lead" && e.lead.Some?
    ensures m.lead.Some? ==> m.lead == e.lead
    ensures m.task.Some? <==> TypeOf(e) == "task" && e.task.Some?
    ensures m.task.Some? ==> m.task == e.task
    ensures m.meeting.Some? <==> TypeOf(e) == "meeting" && e.meeting.Some?
    ensures m.meeting.Some? ==> m.meeting == e.meeting
    ensures m.note.Some? <==> TypeOf(e) == "note" && e.note.Some?
    ensures m.note.Some? ==> m.note == e.note
    ensures m.lead.Some? || m.task.Some? || m.meeting.Some? || m.note.Some? ==> m.content == ""
    ensures !(m.lead.Some? || m.task.Some? || m.meeting.Some? || m.note.Some?) ==> m.content == OrEmpty(e.content)
    ensures TypeOf(e) == "assistant" ==> m.liked == e.liked && m.feedback == e.feedback
    ensures TypeOf(e) != "assistant" ==> m.liked.None? && m.feedback.None?
  {
    var t := TypeOf(e);
    var content := OrEmpty(e.content);
    if t == "assistant" then
      Message(e.id, Assistant, content, false, e.liked, e.feedback,
              if pending != [] then Some(Buffered(pending)) else None, None, None, None, None)
    else if t == "user" then Plain(e.id, User, content)
    else if t == "lead" && e.lead.Some? then Plain(e.id, Assistant, "").(lead := e.lead)
    else if t == "task" && e.task.Some? then Plain(e.id, Assistant, "").(task := e.task)
    else if t == "meeting" && e.meeting.Some? then Plain(e.id, Assistant, "").(meeting := e.meeting)
    else if t == "note" && e.note.Some? then Plain(e.id, Assistant, "").(note := e.note)
    else Plain(e.id, Assistant, content)
  }

  /** The messages pushed and the bullet buffer after the loop has consumed `raw`. */
  function Scan(raw: seq<RawEntry>): (seq<Message>, seq<string>)
    decreases |raw|
  {
    if raw == [] then ([], [])
    else
      var (msgs, pending) := Scan(raw[..|raw| - 1]);
      var e := raw[|raw| - 1];
      if IsAction(e) then (msgs, if ActionText(e) != "" then pending + [ActionText(e)] else pending)
      else if TypeOf(e) == "assistant" then (msgs + [Render(e, pending)], [])
      else (msgs + [Render(e, [])], pending)
  }

  // ---------------------------------------------------------------------------
  // The final flush

  /** The bullets an activity panel already shows (`bullets || []`). */
  function BulletsOf(m: Message): seq<string> {
    if m.activity.Some? && m.activity.value.bullets.Some? then m.activity.value.bullets.value else []
  }

  /** The index of the last assistant-role message. */
  function LastAssistant(msgs: seq<Message>): (r: Option<nat>)
    ensures r.Some? ==> r.value < |msgs| && msgs[r.value].role == Assistant
    ensures r.Some? ==> forall j :: r.value < j < |msgs| ==> msgs[j].role == User
    ensures r.None? <==> forall j :: 0 <= j < |msgs| ==> msgs[j].role == User
  {
    if msgs == [] then None
    else if msgs[|msgs| - 1].role == Assistant then Some(|msgs| - 1)
    else
      var front := msgs[..|msgs| - 1];
      assert forall j :: 0 <= j < |front| ==> front[j] == msgs[j];
      assert msgs[|msgs| - 1].role == User;
      var r := LastAssistant(front);
      assert r.None? ==> forall j :: 0 <= j < |msgs| ==> msgs[j].role == User by {
        if r.None? {
          forall j | 0 <= j < |msgs| ensures msgs[j].role == User {
            if j < |front| { assert front[j].role == User; }
          }
        }
      }
      r
  }

  /** `m` with `pending` appended to its bullets; a missing or empty summary becomes "Actions"
      and a missing or empty done label "Done", the body is kept. */
  function Merge(m: Message, pending: seq<string>): (r: Message)
    ensures BulletsOf(r) == BulletsOf(m) + pending
    ensures r == m.(activity := r.activity) && r.activity.Some?
    ensures m.activity.Some? && m.activity.value.summary != "" ==>
      r.activity.value.summary == m.activity.value.summary
    ensures !(m.activity.Some? && m.activity.value.summary != "") ==> r.activity.value.summary == "Actions"
    ensures m.activity.Some? && Present(m.activity.value.doneLabel) ==>
      r.activity.value.doneLabel == m.activity.value.doneLabel
    ensures !(m.activity.Some? && Present(m.activity.value.doneLabel)) ==> r.activity.value.doneLabel == Some("Done")
    ensures m.activity.Some? ==> r.activity.value.body == m.activity.value.body
    ensures m.activity.None? ==> r.activity.value.body.None?
  {
    var a := m.activity;
    m.(activity := Some(Activity(
      Or(if a.Some? then Some(a.value.summary) else None, "Actions"),
      Some(BulletsOf(m) + pending),
      Some(Or(if a.Some? then a.value.doneLabel else None, "Done")),
      if a.Some? then a.value.body else None)))
  }

  /** The message that carries leftover bullets when no assistant-role message exists. */
  function Synthetic(stamp: string, pending: seq<string>): Message {
    Plain("actions-" + stamp, Assistant, "").(activity := Some(Buffered(pending)))
  }

  /** `flushPendingIntoLastAssistant`. */
  function Flush(msgs: seq<Message>, pending: seq<string>, stamp: string): (r: seq<Message>)
    ensures pending == [] ==> r == msgs
    ensures pending != [] && LastAssistant(msgs).Some? ==>
      var i := LastAssistant(msgs).value;
      |r| == |msgs| && r[i] == Merge(msgs[i], pending)
      && forall j :: 0 <= j < |msgs| && j != i ==> r[j] == msgs[j]
    ensures pending != [] && LastAssistant(msgs).None? ==>
      |r| == |msgs| + 1 && r[..|msgs|] == msgs
      && r[|msgs|].role == Assistant && r[|msgs|].content == "" && BulletsOf(r[|msgs|]) == pending
  {
    if pending == [] then msgs
    else
      match LastAssistant(msgs)
      case Some(i) => msgs[i := Merge(msgs[i], pending)]
      case None => msgs + [Synthetic(stamp, pending)]
  }

  /** `transformConversationMessages(raw)`, `stamp` standing for the clock reading in the
      synthetic message's id. */
  function Transform(raw: seq<RawEntry>, stamp: string): seq<Message> {
    Flush(Scan(raw).0, Scan(raw).1, stamp)
  }

  // ---------------------------------------------------------------------------
  // The imperative code

  method FlushPendingIntoLastAssistant(result: seq<Message>, pending: seq<string>, stamp: string)
    returns (out: seq<Message>)
    ensures out == Flush(result, pending, stamp)
  {
    if |pending| == 0 {
      return result;
    }
    var i := |result| - 1;
    while i >= 0
      invariant -1 <= i < |result|
      invariant forall j :: i < j < |result| ==> result[j].role == User
      decreases i + 1
    {
      if result[i].role == Assistant {
        LastAssistantIs(result, i);
        out := result[i := Merge(result[i], pending)];
        return;
      }
      i := i - 1;
    }
    out := result + [Synthetic(stamp, pending)];
  }

  method TransformConversationMessages(raw: seq<RawEntry>, stamp: string) returns (result: seq<Message>)
    ensures result == Transform(raw, stamp)
  {
    result := [];
    var pending: seq<string> := [];
    var i := 0;
    while i < |raw|
      invariant 0 <= i <= |raw|
      invariant (result, pending) == Scan(raw[..i])
    {
      var m := raw[i];
      assert raw[..i + 1][..i] == raw[..i];
      var kind := ToLower(OrEmpty(m.kind));
      if kind == "action" {
        var text := Trim(OrEmpty(m.content));
        if text != "" {
          pending := pending + [text];
        }
      } else if kind == "assistant" {
        result := result + [Render(m, pending)];
        pending := [];
      } else {
        result := result + [Render(m, [])];
      }
      i := i + 1;
    }
    assert raw[..|raw|] == raw;
    result := FlushPendingIntoLastAssistant(result, pending, stamp);
  }

  lemma {:induction false} LastAssistantIs(msgs: seq<Message>, i: nat)
    requires i < |msgs| && msgs[i].role == Assistant
    requires forall j :: i < j < |msgs| ==> msgs[j].role == User
    ensures LastAssistant(msgs) == Some(i)
    decreases |msgs|
  {
    if i < |msgs| - 1 {
      LastAssistantIs(msgs[..|msgs| - 1], i);
    }
  }

  // ---------------------------------------------------------------------------
  // Independent descriptions of the scan

  /** The entries that are not "action" entries, in order. */
  function NonActions(raw: seq<RawEntry>): (r: seq<RawEntry>)
    ensures forall k :: 0 <= k < |r| ==> !IsAction(r[k])
    ensures |r| <= |raw|
  {
    if raw == [] then []
    else if IsAction(raw[|raw| - 1]) then NonActions(raw[..|raw| - 1])
    else NonActions(raw[..|raw| - 1]) + [raw[|raw| - 1]]
  }

  /** The non-empty trimmed texts of the action entries, in order. */
  function ActionTexts(raw: seq<RawEntry>): seq<string> {
    if raw == [] then []
    else
      var e := raw[|raw| - 1];
      ActionTexts(raw[..|raw| - 1]) + (if IsAction(e) && ActionText(e) != "" then [ActionText(e)] else [])
  }

  /** The position just after the last entry of type "assistant", or 0. */
  function Cut(raw: seq<RawEntry>): (c: nat)
    ensures c <= |raw|
    ensures forall j :: c <= j < |raw| ==> TypeOf(raw[j]) != "assistant"
    ensures c > 0 ==> TypeOf(raw[c - 1]) == "assistant"
  {
    if raw == [] then 0
    else if TypeOf(raw[|raw| - 1]) == "assistant" then |raw|
    else
      var front := raw[..|raw| - 1];
      assert forall j :: 0 <= j < |front| ==> front[j] == raw[j];
      Cut(front)
  }

  /** The bullets buffered after `raw`: the action texts since the last assistant entry. */
  function Pending(raw: seq<RawEntry>): seq<string> {
    ActionTexts(raw[Cut(raw)..])
  }

  /** The buffer the loop ends with is exactly the action texts that arrived after the last
      entry of type "assistant" (all of them when there is none), in arrival order. */
  lemma {:induction false} ScanPending(raw: seq<RawEntry>)
    ensures Scan(raw).1 == Pending(raw)
    decreases |raw|
  {
    if raw != [] {
      var front, e := raw[..|raw| - 1], raw[|raw| - 1];
      ScanPending(front);
      if TypeOf(e) == "assistant" {
        assert Cut(raw) == |raw|;
      } else {
        PendingExtends(raw);
      }
    }
  }

  /** After an entry that is not of type "assistant", the buffer is the previous one plus that
      entry's action text, if any. */
  lemma PendingExtends(raw: seq<RawEntry>)
    requires raw != [] && TypeOf(raw[|raw| - 1]) != "assistant"
    ensures var front, e := raw[..|raw| - 1], raw[|raw| - 1];
      Pending(raw) == Pending(front) + (if IsAction(e) && ActionText(e) != "" then [ActionText(e)] else [])
  {
    var front, e := raw[..|raw| - 1], raw[|raw| - 1];
    var c := Cut(front);
    assert Cut(raw) == c;
    assert Pending(raw) == ActionTexts(raw[c..]);
    SliceSnoc(raw, c);
    ActionTextsSnoc(front[c..], e);
  }

  lemma SliceSnoc<T>(s: seq<T>, c: nat)
    requires c < |s|
    ensures s[c..] == s[..|s| - 1][c..] + [s[|s| - 1]]
  {
  }

  lemma ActionTextsSnoc(t: seq<RawEntry>, e: RawEntry)
    ensures ActionTexts(t + [e]) == ActionTexts(t) + (if IsAction(e) && ActionText(e) != "" then [ActionText(e)] else [])
  {
    assert (t + [e])[..|t|] == t;
  }

  /** One message per non-action entry, in order, with the same id, and a user-role message
      exactly for the entries of type "user". */
  lemma {:induction false} ScanCount(raw: seq<RawEntry>)
    ensures |Scan(raw).0| == |NonActions(raw)|
    ensures forall k :: 0 <= k < |NonActions(raw)| ==>
      Scan(raw).0[k].id == NonActions(raw)[k].id
      && (Scan(raw).0[k].role == User <==> TypeOf(NonActions(raw)[k]) == "user")
    decreases |raw|
  {
    if raw != [] {
      ScanCount(raw[..|raw| - 1]);
    }
  }

  /** Messages already pushed are never touched again by the loop. */
  lemma {:induction false} ScanGrows(raw: seq<RawEntry>, i: nat)
    requires i <= |raw|
    ensures Scan(raw[..i]).0 <= Scan(raw).0
    decreases |raw| - i
  {
    if i < |raw| {
      ScanGrows(raw[..|raw| - 1], i);
      assert raw[..|raw| - 1][..i] == raw[..i];
    } else {
      assert raw[..i] == raw;
    }
  }

  /** Entry `j`, when it is not an action, becomes the message at position "number of
      non-action entries before `j`"; an assistant entry takes the buffer of the prefix
      before it as its bullets, every other entry takes none. */
  lemma ScanRendersEntry(raw: seq<RawEntry>, j: nat)
    requires j < |raw| && !IsAction(raw[j])
    ensures |NonActions(raw[..j])| < |Scan(raw).0|
    ensures Scan(raw).0[|NonActions(raw[..j])|]
         == Render(raw[j], if TypeOf(raw[j]) == "assistant" then Pending(raw[..j]) else [])
  {
    var p := raw[..j + 1];
    assert p[..|p| - 1] == raw[..j] && p[|p| - 1] == raw[j];
    ScanLast(p);
    ScanCount(raw[..j]);
    ScanGrows(raw, j + 1);
  }

  /** A non-action entry at the end pushes its rendering onto the earlier messages. */
  lemma ScanLast(p: seq<RawEntry>)
    requires p != [] && !IsAction(p[|p| - 1])
    ensures var front, e := p[..|p| - 1], p[|p| - 1];
      Scan(p).0 == Scan(front).0 + [Render(e, if TypeOf(e) == "assistant" then Pending(front) else [])]
  {
    ScanPending(p[..|p| - 1]);
  }

  /** The transform adds exactly one message beyond the non-action entries, the synthetic one,
      when bullets are left over and every non-action entry is a user entry. */
  lemma TransformLength(raw: seq<RawEntry>, stamp: string)
    ensures |Transform(raw, stamp)| == |NonActions(raw)|
      + (if Pending(raw) != [] && forall k :: 0 <= k < |NonActions(raw)| ==> TypeOf(NonActions(raw)[k]) == "user" then 1 else 0)
  {
    ScanCount(raw);
    ScanPending(raw);
    var msgs, na := Scan(raw).0, NonActions(raw);
    FlushLength(msgs, Scan(raw).1, stamp);
    assert (forall j :: 0 <= j < |msgs| ==> msgs[j].role == User)
       <==> (forall k :: 0 <= k < |na| ==> TypeOf(na[k]) == "user");
  }

  /** Flushing adds a message exactly when there are bullets and no assistant message. */
  lemma FlushLength(msgs: seq<Message>, pending: seq<string>, stamp: string)
    ensures |Flush(msgs, pending, stamp)| == |msgs|
      + (if pending != [] && forall j :: 0 <= j < |msgs| ==> msgs[j].role == User then 1 else 0)
  {
  }
}
