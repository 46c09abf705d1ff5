/** The chat page's state machine (src/pages/Index.tsx): the reaction to socket events, the
    conversation creation in `handleSendMessage`, and the like/dislike reactions.

    Every `setMessages`/`setConversations` updater is a pure function here, with what it
    promises in its contract; `ChatPageState` holds the page's state and refs, and its handlers
    are proved to apply those functions. `Date.now()` readings are a `stamp` parameter, the
    results of network calls are parameters, and the refetch after `complete` is the transcript
    it would fetch. */
module ChatPage {
  import opened Common
  import opened ChatModel
  import opened Transcript
  import opened ChatSocket

  // ---------------------------------------------------------------------------
  // Message-list updaters

  /** The streaming assistant message that opens a turn. */
  function Shell(id: string): (m: Message)
    ensures m.id == id && m.role == Assistant && m.content == "" && m.isStreaming
    ensures BulletsOf(m) == []
  {
    Plain(id, Assistant, "").(isStreaming := true, activity := Some(Buffered([])))
  }

  /** `prev.map(m => m.id === id ? f(m) : m)`. */
  function UpdateWhere(msgs: seq<Message>, id: string, f: Message -> Message): (r: seq<Message>)
    ensures |r| == |msgs|
    ensures forall i :: 0 <= i < |msgs| ==> r[i] == (if msgs[i].id == id then f(msgs[i]) else msgs[i])
  {
    seq(|msgs|, i requires 0 <= i < |msgs| => if msgs[i].id == id then f(msgs[i]) else msgs[i])
  }

  /** The `token` updater: the text is appended to the content of the messages with that id. */
  function AppendToken(msgs: seq<Message>, id: string, token: string): (r: seq<Message>)
    ensures |r| == |msgs|
    ensures forall i :: 0 <= i < |msgs| && msgs[i].id != id ==> r[i] == msgs[i]
    ensures forall i :: 0 <= i < |msgs| && msgs[i].id == id ==>
      r[i].content == msgs[i].content + token && r[i] == msgs[i].(content := r[i].content)
  {
    UpdateWhere(msgs, id, (m: Message) => m.(content := m.content + token))
  }

  /** Tokens arriving one after the other add up to their concatenation. */
  lemma TokensConcatenate(msgs: seq<Message>, id: string, a: string, b: string)
    ensures AppendToken(AppendToken(msgs, id, a), id, b) == AppendToken(msgs, id, a + b)
  {
    var l, r := AppendToken(AppendToken(msgs, id, a), id, b), AppendToken(msgs, id, a + b);
    forall i | 0 <= i < |msgs| ensures l[i] == r[i] {
      if msgs[i].id == id {
        assert msgs[i].content + a + b == msgs[i].content + (a + b);
      }
    }
  }

  /** A whole stream of tokens, applied in order. */
  function AppendTokens(msgs: seq<Message>, id: string, tokens: seq<string>): seq<Message>
    decreases |tokens|
  {
    if tokens == [] then msgs
    else AppendTokens(AppendToken(msgs, id, tokens[0]), id, tokens[1..])
  }

  function Concat(parts: seq<string>): string
    decreases |parts|
  {
    if parts == [] then "" else parts[0] + Concat(parts[1..])
  }

  /** After a stream of tokens the open message holds its old content followed by all of them,
      and no other message changed. */
  lemma {:induction false} StreamedContent(msgs: seq<Message>, id: string, tokens: seq<string>)
    ensures AppendTokens(msgs, id, tokens) == AppendToken(msgs, id, Concat(tokens))
    decreases |tokens|
  {
    if tokens == [] {
      var r := AppendToken(msgs, id, "");
      forall i | 0 <= i < |msgs| ensures r[i] == msgs[i] {
        if msgs[i].id == id { assert msgs[i].content + "" == msgs[i].content; }
      }
    } else {
      StreamedContent(AppendToken(msgs, id, tokens[0]), id, tokens[1..]);
      TokensConcatenate(msgs, id, tokens[0], Concat(tokens[1..]));
    }
  }

  /** The `agent_action` updater: the text becomes the last bullet of the messages with that id. */
  function AppendBullet(msgs: seq<Message>, id: string, text: string): (r: seq<Message>)
    ensures |r| == |msgs|
    ensures forall i :: 0 <= i < |msgs| && msgs[i].id != id ==> r[i] == msgs[i]
    ensures forall i :: 0 <= i < |msgs| && msgs[i].id == id ==> r[i] == Merge(msgs[i], [text])
  {
    UpdateWhere(msgs, id, (m: Message) => Merge(m, [text]))
  }

  /** An agent action keeps the earlier bullets, a non-empty summary and done label, and the
      body of the message it lands on; only the activity panel changes. */
  lemma AgentActionKeeps(m: Message, text: string)
    ensures BulletsOf(Merge(m, [text])) == BulletsOf(m) + [text]
    ensures Merge(m, [text]).activity.Some?
    ensures m.activity.Some? && m.activity.value.summary != "" ==>
      Merge(m, [text]).activity.value.summary == m.activity.value.summary
    ensures m.activity.Some? && Present(m.activity.value.doneLabel) ==>
      Merge(m, [text]).activity.value.doneLabel == m.activity.value.doneLabel
    ensures m.activity.Some? ==> Merge(m, [text]).activity.value.body == m.activity.value.body
    ensures Merge(m, [text]) == m.(activity := Merge(m, [text]).activity)
  {
  }

  // ---------------------------------------------------------------------------
  // Entity cards

  /** `prev.slice(-10)`: the last ten messages, or all of them. */
  function Window(msgs: seq<Message>): (w: seq<Message>)
    ensures |w| == Min(10, |msgs|) && w == msgs[|msgs| - |w|..]
  {
    msgs[|msgs| - Min(10, |msgs|)..]
  }

  /** One of the last ten messages holds a card of kind `k` with the candidate's hash. */
  predicate RecentDuplicate(msgs: seq<Message>, cand: Message, k: Kind) {
    exists i :: 0 <= i < |Window(msgs)| && CardHash(Window(msgs)[i], k).Some?
      && CardHash(Window(msgs)[i], k) == CardHash(cand, k)
  }

  /** The `content_generated` updater for an entity card. */
  function AddCard(msgs: seq<Message>, cand: Message, k: Kind): (r: seq<Message>)
    ensures RecentDuplicate(msgs, cand, k) ==> r == msgs
    ensures !RecentDuplicate(msgs, cand, k) ==> r == msgs + [cand]
  {
    if RecentDuplicate(msgs, cand, k) then msgs else msgs + [cand]
  }

  /** A card just added is in the window, so the same card arriving again is dropped. */
  lemma AddCardIdempotent(msgs: seq<Message>, cand: Message, k: Kind)
    requires CardHash(cand, k).Some?
    ensures AddCard(AddCard(msgs, cand, k), cand, k) == AddCard(msgs, cand, k)
  {
    var once := AddCard(msgs, cand, k);
    if !RecentDuplicate(msgs, cand, k) {
      assert once == msgs + [cand];
      var w := Window(once);
      var j := |w| - 1;
      assert w[j] == once[|once| - 1] == cand;
      assert 0 <= j < |Window(once)| && CardHash(Window(once)[j], k) == CardHash(cand, k);
      assert RecentDuplicate(once, cand, k);
    }
  }

  /** A duplicate more than ten messages back does not block a card. */
  lemma OldDuplicateIgnored(msgs: seq<Message>, cand: Message, k: Kind)
    requires |msgs| >= 10
    requires forall i :: |msgs| - 10 <= i < |msgs| ==> CardHash(msgs[i], k).None?
    ensures AddCard(msgs, cand, k) == msgs + [cand]
  {
    var w := Window(msgs);
    forall i | 0 <= i < |w| ensures CardHash(w[i], k).None? {
      assert w[i] == msgs[|msgs| - 10 + i];
    }
  }

  function KindOf(contentType: Option<string>): (k: Option<Kind>)
    ensures k == Some(LeadCard) <==> contentType == Some("lead")
    ensures k == Some(TaskCard) <==> contentType == Some("task")
    ensures k == Some(MeetingCard) <==> contentType == Some("meeting")
    ensures k == Some(NoteCard) <==> contentType == Some("note")
  {
    if contentType == Some("lead") then Some(LeadCard)
    else if contentType == Some("task") then Some(TaskCard)
    else if contentType == Some("meeting") then Some(MeetingCard)
    else if contentType == Some("note") then Some(NoteCard)
    else None
  }

  /** The lead card built from the event's data, with the source's defaults. */
  function LeadCandidate(stamp: string, d: Data): (m: Message)
    ensures m.id == "lead-" + stamp && m.role == Assistant && m.content == "" && m.lead.Some?
    ensures m.lead.value.name == Or(Field(d, "name"), "Lead")
    ensures m.lead.value.email == Field(d, "email") && m.lead.value.mobile == Field(d, "mobile")
    ensures m.lead.value.leadStatus == Some(Or(Field(d, "leadStatus"), "New"))
    ensures m.lead.value.referenceNo == Field(d, "referenceNo")
  {
    Plain("lead-" + stamp, Assistant, "").(lead := Some(LeadInfo(
      Or(Field(d, "name"), "Lead"), Field(d, "email"), Field(d, "mobile"),
      Some(Or(Field(d, "leadStatus"), "New")), Field(d, "referenceNo"))))
  }

  /** A task card built from the event's data, with the source's defaults. */
  function TaskCandidate(stamp: string, d: Data): (m: Message)
    ensures m.id == "task-" + stamp && m.role == Assistant && m.content == "" && m.task.Some?
    ensures m.task.value.name == Or(Field(d, "name"), "Task")
    ensures m.task.value.priority == Some(Or(Field(d, "priority"), "MEDIUM"))
    ensures m.task.value.taskStatus == Some(Or(Field(d, "taskStatus"), "NEW"))
    ensures m.task.value.description == Field(d, "description") && m.task.value.dueDate == Field(d, "dueDate")
    ensures m.task.value.leadId == Field(d, "leadId")
  {
    Plain("task-" + stamp, Assistant, "").(task := Some(TaskInfo(
      Or(Field(d, "name"), "Task"), Field(d, "description"), Some(Or(Field(d, "priority"), "MEDIUM")),
      Some(Or(Field(d, "taskStatus"), "NEW")), Field(d, "dueDate"), Field(d, "leadId"))))
  }

  /** The meeting card built from the event's data, with the source's defaults. */
  function MeetingCandidate(stamp: string, d: Data): (m: Message)
    ensures m.id == "meeting-" + stamp && m.role == Assistant && m.content == "" && m.meeting.Some?
    ensures m.meeting.value.title == Or(Field(d, "title"), "Meeting")
    ensures m.meeting.value.meetingStatus == Some(Or(Field(d, "meetingStatus"), "SCHEDULED"))
    ensures m.meeting.value.meetingType == Some(Or(Field(d, "meetingType"), "VIRTUAL"))
    ensures m.meeting.value.description == Field(d, "description")
    ensures m.meeting.value.leadId == Field(d, "leadId") && m.meeting.value.meetingLink == Field(d, "meetingLink")
  {
    Plain("meeting-" + stamp, Assistant, "").(meeting := Some(MeetingInfo(
      Or(Field(d, "title"), "Meeting"), Field(d, "description"),
      Some(Or(Field(d, "meetingStatus"), "SCHEDULED")), Some(Or(Field(d, "meetingType"), "VIRTUAL")),
      Field(d, "leadId"), Field(d, "meetingLink"))))
  }

  /** The note card built from the event's data, with the source's defaults. */
  function NoteCandidate(stamp: string, d: Data): (m: Message)
    ensures m.id == "note-" + stamp && m.role == Assistant && m.content == "" && m.note.Some?
    ensures m.note.value.subject == Or(Field(d, "subject"), "Note")
    ensures m.note.value.description == Or(Field(d, "description"), "")
    ensures m.note.value.leadId == Field(d, "leadId")
  {
    Plain("note-" + stamp, Assistant, "").(note := Some(NoteInfo(
      Or(Field(d, "subject"), "Note"), Or(Field(d, "description"), ""), Field(d, "leadId"))))
  }

  function Candidate(k: Kind, stamp: string, d: Data): (m: Message)
    ensures CardHash(m, k).Some?
  {
    match k
    case LeadCard => LeadCandidate(stamp, d)
    case TaskCard => TaskCandidate(stamp, d)
    case MeetingCard => MeetingCandidate(stamp, d)
    case NoteCard => NoteCandidate(stamp, d)
  }

  /** The index of the first underscore of `s`, or `|s|` when there is none. */
  function FirstUnderscore(s: string): (i: nat)
    ensures i <= |s| && (i < |s| ==> s[i] == '_')
    ensures forall k :: 0 <= k < i ==> s[k] != '_'
  {
    if s == [] then 0 else if s[0] == '_' then 0 else 1 + FirstUnderscore(s[1..])
  }

  /** `s.replace("_", " ")`: only the first underscore is replaced. */
  function ReplaceFirstUnderscore(s: string): (r: string)
    ensures |r| == |s|
    ensures (forall i :: 0 <= i < |s| ==> s[i] != '_') ==> r == s
    ensures forall j :: 0 <= j < |s| && s[j] == '_' && (forall i :: 0 <= i < j ==> s[i] != '_') ==>
      r[j] == ' ' && (forall i :: 0 <= i < |s| && i != j ==> r[i] == s[i])
  {
    var k := FirstUnderscore(s);
    if k == |s| then s else s[..k] + " " + s[k + 1..]
  }

  /** The text of the plain message for any other `content_generated` event. */
  function GeneratedNotice(success: bool, contentType: Option<string>, error: Option<string>): string {
    if success then "Generated " + ReplaceFirstUnderscore(Or(contentType, "content")) + " content."
    else "Generation failed: " + Or(error, "Unknown error")
  }

  /** The `content_generated` step. */
  function OnContentGenerated(msgs: seq<Message>, contentType: Option<string>, success: bool,
                              data: Option<Data>, error: Option<string>, stamp: string): (r: seq<Message>)
    ensures KindOf(contentType).Some? && success && data.Some? ==>
      r == AddCard(msgs, Candidate(KindOf(contentType).value, stamp, data.value), KindOf(contentType).value)
    ensures !(KindOf(contentType).Some? && success && data.Some?) ==>
      r == msgs + [Plain("assistant-" + stamp, Assistant, GeneratedNotice(success, contentType, error))]
  {
    var k := KindOf(contentType);
    if k.Some? && success && data.Some? then AddCard(msgs, Candidate(k.value, stamp, data.value), k.value)
    else msgs + [Plain("assistant-" + stamp, Assistant, GeneratedNotice(success, contentType, error))]
  }

  // ---------------------------------------------------------------------------
  // Turns

  /** The in-flight id after an event. */
  function StreamAfter(evt: ChatEvent, streaming: Option<string>, stamp: string): (r: Option<string>)
    ensures (evt.LlmStart? || evt.AgentAction?) && Present(streaming) ==> r == streaming
    ensures (evt.LlmStart? || evt.AgentAction?) && !Present(streaming) ==> r == Some("assistant-" + stamp)
    ensures evt.Error? || evt.Complete? ==> r.None?
    ensures !(evt.LlmStart? || evt.AgentAction? || evt.Error? || evt.Complete?) ==> r == streaming
  {
    if evt.LlmStart? || evt.AgentAction? then
      if Present(streaming) then streaming else Some("assistant-" + stamp)
    else if evt.Error? || evt.Complete? then None
    else streaming
  }

  /** `llm_start` and the first half of `agent_action`: a shell only when no turn is open. */
  function OpenTurn(msgs: seq<Message>, streaming: Option<string>, stamp: string): (r: seq<Message>)
    ensures Present(streaming) ==> r == msgs
    ensures !Present(streaming) ==> r == msgs + [Shell("assistant-" + stamp)]
  {
    if Present(streaming) then msgs else msgs + [Shell("assistant-" + stamp)]
  }

  /** The message list after an event; `refetched` is what `getConversationMessages` returns
      after `complete`, which is `[]` whenever the fetch fails (src/api/conversations.ts). */
  function MessagesAfter(evt: ChatEvent, msgs: seq<Message>, streaming: Option<string>,
                         active: Option<string>, stamp: string, refetched: seq<RawEntry>): seq<Message>
  {
    match evt
    case LlmStart => OpenTurn(msgs, streaming, stamp)
    case Token(c) => if Present(streaming) then AppendToken(msgs, streaming.value, OrEmpty(c)) else msgs
    case AgentAction(text) =>
      AppendBullet(OpenTurn(msgs, streaming, stamp), StreamAfter(evt, streaming, stamp).value, text)
    case ContentGenerated(ct, ok, data, err) => OnContentGenerated(msgs, ct, ok, data, err, stamp)
    case Error(message) => msgs + [Plain("assistant-" + stamp, Assistant, "Error: " + message)]
    case Complete(canonical) =>
      if Present(canonical) || Present(active) then Transform(refetched, stamp) else msgs
    case _ => msgs
  }

  /** A `complete` whose refetch fails, which `getConversationMessages` reports as `[]`,
      empties the chat; with no conversation to refetch the messages are kept. */
  lemma FailedRefetchEmptiesChat(msgs: seq<Message>, streaming: Option<string>, canonical: Option<string>,
                                 active: Option<string>, stamp: string)
    ensures Present(canonical) || Present(active) ==>
      MessagesAfter(Complete(canonical), msgs, streaming, active, stamp, []) == []
    ensures !(Present(canonical) || Present(active)) ==>
      MessagesAfter(Complete(canonical), msgs, streaming, active, stamp, []) == msgs
  {
    assert Scan([]) == ([], []);
  }

  /** The `Complete` case of `MessagesAfter`. */
  lemma CompleteMessages(msgs: seq<Message>, streaming: Option<string>, canonical: Option<string>,
                         active: Option<string>, stamp: string, refetched: seq<RawEntry>)
    ensures MessagesAfter(Complete(canonical), msgs, streaming, active, stamp, refetched)
      == if Present(canonical) || Present(active) then Transform(refetched, stamp) else msgs
  {
  }

  /** A start event inside a turn adds nothing, so a turn has at most one streaming shell. */
  lemma SecondStartAddsNothing(msgs: seq<Message>, streaming: Option<string>, s1: string, s2: string)
    ensures var once := MessagesAfter(LlmStart, msgs, streaming, None, s1, []);
      MessagesAfter(LlmStart, once, StreamAfter(LlmStart, streaming, s1), None, s2, []) == once
    ensures |MessagesAfter(LlmStart, msgs, streaming, None, s1, [])| <= |msgs| + 1
  {
  }

  /** A token lands only on the open turn's message; with no turn open nothing changes. */
  lemma TokenTargetsOpenTurn(msgs: seq<Message>, streaming: Option<string>, c: Option<string>, k: nat)
    requires k < |msgs|
    ensures !Present(streaming) ==> MessagesAfter(Token(c), msgs, streaming, None, "", []) == msgs
    ensures Present(streaming) && msgs[k].id != streaming.value ==>
      MessagesAfter(Token(c), msgs, streaming, None, "", [])[k] == msgs[k]
    ensures Present(streaming) && msgs[k].id == streaming.value ==>
      MessagesAfter(Token(c), msgs, streaming, None, "", [])[k].content == msgs[k].content + OrEmpty(c)
  {
  }

  /** An agent action arriving with no turn open opens one and puts its text as the only
      bullet of the new shell, which is the last message. */
  lemma FirstActionOpensTurn(msgs: seq<Message>, text: string, stamp: string)
    requires forall i :: 0 <= i < |msgs| ==> msgs[i].id != "assistant-" + stamp
    ensures var r := MessagesAfter(AgentAction(text), msgs, None, None, stamp, []);
      |r| == |msgs| + 1 && r[..|msgs|] == msgs && r[|msgs|].isStreaming
      && r[|msgs|].id == "assistant-" + stamp && BulletsOf(r[|msgs|]) == [text]
  {
    var withShell := OpenTurn(msgs, None, stamp);
    var r := AppendBullet(withShell, "assistant-" + stamp, text);
    assert withShell[|msgs|] == Shell("assistant-" + stamp);
    forall i | 0 <= i < |msgs| ensures r[i] == msgs[i] { assert withShell[i] == msgs[i]; }
  }

  // ---------------------------------------------------------------------------
  // Conversations

  /** `findIndex(c => c.id === id)`. */
  function IndexOf(convs: seq<Conversation>, id: string): (r: Option<nat>)
    ensures r.Some? ==> r.value < |convs| && convs[r.value].id == id
    ensures r.Some? ==> forall j :: 0 <= j < r.value ==> convs[j].id != id
    ensures r.None? <==> forall j :: 0 <= j < |convs| ==> convs[j].id != id
  {
    if convs == [] then None
    else if convs[0].id == id then Some(0)
    else
      var r := IndexOf(convs[1..], id);
      assert forall j :: 1 <= j < |convs| ==> convs[1..][j - 1] == convs[j];
      if r.Some? then Some(r.value + 1) else None
  }

  /** The `complete` updater that replaces the temporary conversation id by the server's. */
  function Reconcile(convs: seq<Conversation>, temp: string, canonical: string): (r: seq<Conversation>)
    ensures IndexOf(convs, temp).Some? && IndexOf(convs, canonical).Some? ==>
      var e := IndexOf(convs, temp).value; r == convs[..e] + convs[e + 1..]
    ensures IndexOf(convs, temp).Some? && IndexOf(convs, canonical).None? ==>
      var e := IndexOf(convs, temp).value;
      |r| == |convs| && r[e] == Conversation(canonical, convs[e].title, convs[e].timestamp)
      && forall j :: 0 <= j < |convs| && j != e ==> r[j] == convs[j]
    ensures IndexOf(convs, temp).None? ==> r == convs
  {
    match IndexOf(convs, temp)
    case None => convs
    case Some(e) =>
      if IndexOf(convs, canonical).Some? then convs[..e] + convs[e + 1..]
      else convs[e := convs[e].(id := canonical)]
  }

  predicate UniqueIds(convs: seq<Conversation>) {
    forall i, j :: 0 <= i < j < |convs| ==> convs[i].id != convs[j].id
  }

  /** Reconciling keeps conversation ids unique, and the server's id is listed afterwards
      exactly when it or the temporary id was listed before. */
  lemma ReconcileKeepsIdsUnique(convs: seq<Conversation>, temp: string, canonical: string)
    requires UniqueIds(convs) && temp != canonical
    ensures UniqueIds(Reconcile(convs, temp, canonical))
    ensures IndexOf(Reconcile(convs, temp, canonical), canonical).Some? <==>
      IndexOf(convs, canonical).Some? || IndexOf(convs, temp).Some?
  {
    match IndexOf(convs, temp)
    case None =>
    case Some(e) =>
      var c := IndexOf(convs, canonical);
      if c.Some? {
        DropUnique(convs, e, c.value, Reconcile(convs, temp, canonical));
      } else {
        RenameUnique(convs, e, canonical, Reconcile(convs, temp, canonical));
      }
  }

  /** Dropping entry `e` keeps ids unique and keeps entry `c`'s id listed. */
  lemma DropUnique(convs: seq<Conversation>, e: nat, c: nat, r: seq<Conversation>)
    requires UniqueIds(convs) && e < |convs| && c < |convs| && c != e
    requires r == convs[..e] + convs[e + 1..]
    ensures UniqueIds(r) && IndexOf(r, convs[c].id).Some?
  {
    forall i, j | 0 <= i < j < |r| ensures r[i].id != r[j].id {
      var i' := if i < e then i else i + 1;
      var j' := if j < e then j else j + 1;
      assert r[i] == convs[i'] && r[j] == convs[j'];
    }
    var c' := if c < e then c else c - 1;
    assert r[c'] == convs[c];
  }

  /** Giving entry `e` an id no entry has keeps ids unique and lists that id. */
  lemma RenameUnique(convs: seq<Conversation>, e: nat, canonical: string, r: seq<Conversation>)
    requires UniqueIds(convs) && e < |convs|
    requires forall j :: 0 <= j < |convs| ==> convs[j].id != canonical
    requires |r| == |convs| && r[e].id == canonical
    requires forall j :: 0 <= j < |convs| && j != e ==> r[j] == convs[j]
    ensures UniqueIds(r) && IndexOf(r, canonical).Some?
  {
    forall i, j | 0 <= i < j < |r| ensures r[i].id != r[j].id {
      if i != e && j != e {
        assert r[i] == convs[i] && r[j] == convs[j];
      } else if i == e {
        assert r[j] == convs[j];
      } else {
        assert r[i] == convs[i];
      }
    }
  }

  /** The sidebar title of a new conversation: the first 30 characters of the message, and
      "..." when the message is longer. */
  function NewConversationTitle(content: string): (t: string)
    ensures |content| <= 30 ==> t == content
    ensures |content| > 30 ==> |t| == 33 && t[..30] == content[..30] && t[30..] == "..."
  {
    content[..Min(30, |content|)] + (if |content| > 30 then "..." else "")
  }

  // ---------------------------------------------------------------------------
  // Reactions

  /** `messages.find(m => m.id === id)?.liked`. */
  function ReactionOf(msgs: seq<Message>, id: string): (r: Option<bool>)
    ensures (forall i :: 0 <= i < |msgs| ==> msgs[i].id != id) ==> r.None?
    ensures forall k :: (0 <= k < |msgs| && msgs[k].id == id && (forall i :: 0 <= i < k ==> msgs[i].id != id)
                         ==> r == msgs[k].liked)
  {
    if msgs == [] then None
    else if msgs[0].id == id then msgs[0].liked
    else
      var r := ReactionOf(msgs[1..], id);
      assert forall j :: 1 <= j < |msgs| ==> msgs[1..][j - 1] == msgs[j];
      r
  }

  /** The `liked` value a message gets. */
  function SetLiked(msgs: seq<Message>, id: string, v: Option<bool>): (r: seq<Message>)
    ensures |r| == |msgs|
    ensures forall i :: 0 <= i < |msgs| ==> r[i] == (if msgs[i].id == id then msgs[i].(liked := v) else msgs[i])
  {
    UpdateWhere(msgs, id, (m: Message) => m.(liked := v))
  }

  /** Liking a liked message clears the reaction; liking anything else marks it liked. */
  function LikeTarget(current: Option<bool>): (r: Option<bool>)
    ensures r.None? <==> current == Some(true)
    ensures r.Some? ==> r.value
  {
    if current == Some(true) then None else Some(true)
  }

  /** Disliking a disliked message clears the reaction; disliking anything else marks it disliked. */
  function DislikeTarget(current: Option<bool>): (r: Option<bool>)
    ensures r.None? <==> current == Some(false)
    ensures r.Some? ==> !r.value
  {
    if current == Some(false) then None else Some(false)
  }

  /** After setting the reaction of a listed message, that is the reaction the page reads. */
  lemma {:induction false} ReactionAfterSet(msgs: seq<Message>, id: string, v: Option<bool>, k: nat)
    requires k < |msgs| && msgs[k].id == id
    ensures ReactionOf(SetLiked(msgs, id, v), id) == v
    decreases k
  {
    var r := SetLiked(msgs, id, v);
    if msgs[0].id != id {
      assert msgs[1..][k - 1].id == id;
      ReactionAfterSet(msgs[1..], id, v, k - 1);
      assert r[1..] == SetLiked(msgs[1..], id, v);
    }
  }

  /** An accepted like toggles the thumbs-up: the message ends liked exactly when it was not
      liked before, and never disliked. */
  lemma LikeToggles(msgs: seq<Message>, id: string, k: nat)
    requires k < |msgs| && msgs[k].id == id
    ensures var after := ReactionOf(SetLiked(msgs, id, LikeTarget(ReactionOf(msgs, id))), id);
      (after == Some(true) <==> ReactionOf(msgs, id) != Some(true)) && after != Some(false)
  {
    ReactionAfterSet(msgs, id, LikeTarget(ReactionOf(msgs, id)), k);
  }

  /** An accepted dislike toggles the thumbs-down the same way. */
  lemma DislikeToggles(msgs: seq<Message>, id: string, k: nat)
    requires k < |msgs| && msgs[k].id == id
    ensures var after := ReactionOf(SetLiked(msgs, id, DislikeTarget(ReactionOf(msgs, id))), id);
      (after == Some(false) <==> ReactionOf(msgs, id) != Some(false)) && after != Some(true)
  {
    ReactionAfterSet(msgs, id, DislikeTarget(ReactionOf(msgs, id)), k);
  }

  /** Two accepted likes restore a liked message and leave any other without a reaction. */
  lemma DoubleLike(msgs: seq<Message>, id: string, k: nat)
    requires k < |msgs| && msgs[k].id == id
    ensures var once := SetLiked(msgs, id, LikeTarget(ReactionOf(msgs, id)));
      ReactionOf(SetLiked(once, id, LikeTarget(ReactionOf(once, id))), id)
        == (if ReactionOf(msgs, id) == Some(true) then Some(true) else None)
  {
    var once := SetLiked(msgs, id, LikeTarget(ReactionOf(msgs, id)));
    ReactionAfterSet(msgs, id, LikeTarget(ReactionOf(msgs, id)), k);
    assert once[k].id == id;
    ReactionAfterSet(once, id, LikeTarget(ReactionOf(once, id)), k);
  }

  // ---------------------------------------------------------------------------
  // The page

  class ChatPageState {
    var messages: seq<Message>
    var conversations: seq<Conversation>
    /** `activeConversationId`, which the page's ref mirrors. */
    var activeId: Option<string>
    /** `streamingAssistantIdRef.current`. */
    var streamingId: Option<string>
    var isLoading: bool
    var feedbackTargetId: Option<string>
    var feedbackText: string

    constructor ()
      ensures messages == [] && conversations == [] && activeId.None? && streamingId.None?
      ensures !isLoading && feedbackTargetId.None? && feedbackText == ""
    {
      messages := [];
      conversations := [];
      activeId := None;
      streamingId := None;
      isLoading := false;
      feedbackTargetId := None;
      feedbackText := "";
    }

    /** `handleSocketEvent` for every event but `complete`. */
    method OnStreamEvent(evt: ChatEvent, stamp: string)
      requires !evt.Complete?
      modifies this`messages, this`streamingId, this`isLoading
      ensures messages == MessagesAfter(evt, old(messages), old(streamingId), activeId, stamp, [])
      ensures streamingId == StreamAfter(evt, old(streamingId), stamp)
      ensures isLoading == (if evt.Error? then false else old(isLoading))
    {
      match evt {
        case LlmStart =>
          messages := OpenTurn(messages, streamingId, stamp);
          streamingId := StreamAfter(evt, streamingId, stamp);
        case Token(c) =>
          if Present(streamingId) {
            messages := AppendToken(messages, streamingId.value, OrEmpty(c));
          }
        case AgentAction(text) =>
          messages := OpenTurn(messages, streamingId, stamp);
          streamingId := StreamAfter(evt, streamingId, stamp);
          messages := AppendBullet(messages, streamingId.value, text);
        case ContentGenerated(ct, ok, data, err) =>
          messages := OnContentGenerated(messages, ct, ok, data, err, stamp);
        case Error(message) =>
          messages := messages + [Plain("assistant-" + stamp, Assistant, "Error: " + message)];
          isLoading := false;
          streamingId := None;
        case _ =>
      }
    }

    /** `handleSocketEvent` for `complete`: the turn ends, a temporary conversation id is
        replaced by the server's, and the transcript is fetched again. */
    method OnComplete(canonical: Option<string>, stamp: string, refetched: seq<RawEntry>)
      modifies this`messages, this`streamingId, this`isLoading, this`activeId, this`conversations
      ensures messages == MessagesAfter(Complete(canonical), old(messages), old(streamingId), old(activeId), stamp, refetched)
      ensures streamingId.None? && !isLoading
      ensures Present(canonical) && Present(old(activeId)) && canonical != old(activeId) ==>
        (activeId == canonical
         && conversations == Reconcile(old(conversations), old(activeId).value, canonical.value))
      ensures !(Present(canonical) && Present(old(activeId)) && canonical != old(activeId)) ==>
        (activeId == old(activeId) && conversations == old(conversations))
    {
      CompleteMessages(messages, streamingId, canonical, activeId, stamp, refetched);
      isLoading := false;
      streamingId := None;
      var current := activeId;
      if Present(canonical) && Present(current) && canonical != current {
        activeId := canonical;
        conversations := Reconcile(conversations, current.value, canonical.value);
      }
      if Present(canonical) || Present(current) {
        messages := TransformConversationMessages(refetched, stamp);
      }
    }

    /** `handleSocketEvent`. */
    method HandleSocketEvent(evt: ChatEvent, stamp: string, refetched: seq<RawEntry>)
      modifies this`messages, this`streamingId, this`isLoading, this`activeId, this`conversations
      ensures messages == MessagesAfter(evt, old(messages), old(streamingId), old(activeId), stamp, refetched)
      ensures streamingId == StreamAfter(evt, old(streamingId), stamp)
      ensures isLoading == (if evt.Error? || evt.Complete? then false else old(isLoading))
      ensures evt.Complete? && Present(evt.conversationId) && Present(old(activeId))
              && evt.conversationId != old(activeId) ==>
        (activeId == evt.conversationId
         && conversations == Reconcile(old(conversations), old(activeId).value, evt.conversationId.value))
      ensures !(evt.Complete? && Present(evt.conversationId) && Present(old(activeId))
                && evt.conversationId != old(activeId)) ==>
        (activeId == old(activeId) && conversations == old(conversations))
    {
      if evt.Complete? {
        OnComplete(evt.conversationId, stamp, refetched);
      } else {
        OnStreamEvent(evt, stamp);
      }
    }

    /** `handleSendMessage(content)`: the user message, a new conversation when none is active,
        and the payload handed to `send`; `sendOk` is what `send` returns. */
    method HandleSendMessage(content: string, stamp: string, now: int, memberId: string,
                             businessId: string, sendOk: bool) returns (p: Payload)
      modifies this
      ensures var user := [Plain(stamp, User, content)];
        messages == old(messages) + user
          + (if sendOk then [] else [Plain("assistant-" + stamp, Assistant, "Connection error. Please try again.")])
      ensures isLoading == sendOk
      ensures !Present(old(activeId)) ==>
        (activeId == Some("conv_" + stamp)
         && conversations == [Conversation("conv_" + stamp, NewConversationTitle(content), now)] + old(conversations))
      ensures Present(old(activeId)) ==> activeId == old(activeId) && conversations == old(conversations)
      ensures p == Payload(None, Some(content), activeId, Some(memberId), Some(businessId), None, None, None)
      ensures streamingId == old(streamingId) && feedbackTargetId == old(feedbackTargetId)
      ensures feedbackText == old(feedbackText)
    {
      messages := messages + [Plain(stamp, User, content)];
      isLoading := true;
      var convId := activeId;
      if !Present(convId) {
        convId := Some("conv_" + stamp);
        activeId := convId;
        conversations := [Conversation(convId.value, NewConversationTitle(content), now)] + conversations;
      }
      p := Payload(None, Some(content), convId, Some(memberId), Some(businessId), None, None, None);
      if !sendOk {
        messages := messages + [Plain("assistant-" + stamp, Assistant, "Connection error. Please try again.")];
        isLoading := false;
      }
    }

    /** Closing the feedback box when it belongs to `id`. */
    method CloseFeedbackFor(id: string)
      modifies this`feedbackTargetId, this`feedbackText
      ensures old(feedbackTargetId) == Some(id) ==> feedbackTargetId.None? && feedbackText == ""
      ensures old(feedbackTargetId) != Some(id) ==>
        (feedbackTargetId == old(feedbackTargetId) && feedbackText == old(feedbackText))
    {
      if feedbackTargetId == Some(id) {
        feedbackTargetId := None;
        feedbackText := "";
      }
    }

    /** `handleLike(id)`; `ok` is the server's answer to the reaction request. */
    method HandleLike(id: string, ok: bool)
      modifies this`messages, this`feedbackTargetId, this`feedbackText
      ensures !Present(activeId) ==>
        (messages == old(messages) && feedbackTargetId == old(feedbackTargetId) && feedbackText == old(feedbackText))
      ensures Present(activeId) && ok ==> messages == SetLiked(old(messages), id, LikeTarget(ReactionOf(old(messages), id)))
      ensures Present(activeId) && !ok ==> messages == old(messages)
      ensures Present(activeId) && old(feedbackTargetId) == Some(id) ==> feedbackTargetId.None? && feedbackText == ""
      ensures Present(activeId) && old(feedbackTargetId) != Some(id) ==>
        (feedbackTargetId == old(feedbackTargetId) && feedbackText == old(feedbackText))
    {
      if !Present(activeId) {
        return;
      }
      var current := ReactionOf(messages, id);
      if ok {
        messages := SetLiked(messages, id, LikeTarget(current));
      }
      CloseFeedbackFor(id);
    }

    /** `handleDislike(id)`: clearing a dislike waits for the server; a new dislike is shown at
        once and opens the feedback box for the message. */
    method HandleDislike(id: string, ok: bool)
      modifies this`messages, this`feedbackTargetId, this`feedbackText
      ensures !Present(activeId) ==>
        (messages == old(messages) && feedbackTargetId == old(feedbackTargetId) && feedbackText == old(feedbackText))
      ensures Present(activeId) && ReactionOf(old(messages), id) == Some(false) && ok ==>
        messages == SetLiked(old(messages), id, None)
      ensures Present(activeId) && ReactionOf(old(messages), id) == Some(false) && !ok ==> messages == old(messages)
      ensures Present(activeId) && ReactionOf(old(messages), id) == Some(false) && old(feedbackTargetId) == Some(id) ==>
        feedbackTargetId.None? && feedbackText == ""
      ensures Present(activeId) && ReactionOf(old(messages), id) == Some(false) && old(feedbackTargetId) != Some(id) ==>
        (feedbackTargetId == old(feedbackTargetId) && feedbackText == old(feedbackText))
      ensures Present(activeId) && ReactionOf(old(messages), id) != Some(false) ==>
        (messages == SetLiked(old(messages), id, Some(false)) && feedbackTargetId == Some(id) && feedbackText == "")
    {
      if !Present(activeId) {
        return;
      }
      var current := ReactionOf(messages, id);
      if current == Some(false) {
        if ok {
          messages := SetLiked(messages, id, None);
        }
        CloseFeedbackFor(id);
      } else {
        messages := SetLiked(messages, id, Some(false));
        feedbackTargetId := Some(id);
        feedbackText := "";
      }
    }
  }
}
