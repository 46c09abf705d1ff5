/** The records the chat page works with (src/pages/Index.tsx and src/hooks/useChatSocket.ts):
    display messages with their optional activity panel and entity cards, sidebar
    conversations, raw transcript entries as the server sends them, socket events, and the
    trimmed key-field hashes the page uses to spot duplicate entity cards. */
module ChatModel {
  import opened Common

  datatype Role = User | Assistant

  datatype LeadInfo = LeadInfo(name: string, email: Option<string>, mobile: Option<string>,
                               leadStatus: Option<string>, referenceNo: Option<string>)

  datatype TaskInfo = TaskInfo(name: string, description: Option<string>, priority: Option<string>,
                               taskStatus: Option<string>, dueDate: Option<string>, leadId: Option<string>)

  datatype MeetingInfo = MeetingInfo(title: string, description: Option<string>,
                                     meetingStatus: Option<string>, meetingType: Option<string>,
                                     leadId: Option<string>, meetingLink: Option<string>)

  datatype NoteInfo = NoteInfo(subject: string, description: string, leadId: Option<string>)

  /** The collapsible "internal activity" panel of an assistant message. */
  datatype Activity = Activity(summary: string, bullets: Option<seq<string>>,
                               doneLabel: Option<string>, body: Option<string>)

  /** A display message; `liked` is the tri-state reaction (absent, liked, disliked). */
  datatype Message = Message(id: string, role: Role, content: string, isStreaming: bool,
                             liked: Option<bool>, feedback: Option<string>,
                             activity: Option<Activity>,
                             lead: Option<LeadInfo>, task: Option<TaskInfo>,
                             meeting: Option<MeetingInfo>, note: Option<NoteInfo>)

  /** A message with only an id, a role and a content. */
  function Plain(id: string, role: Role, content: string): Message {
    Message(id, role, content, false, None, None, None, None, None, None, None)
  }

  /** A sidebar entry; the timestamp is an abstract instant. */
  datatype Conversation = Conversation(id: string, title: string, timestamp: int)

  /** One entry of a stored transcript; `kind` is the entry's `type` field. */
  datatype RawEntry = RawEntry(id: string, kind: Option<string>, content: Option<string>,
                               liked: Option<bool>, feedback: Option<string>,
                               lead: Option<LeadInfo>, task: Option<TaskInfo>,
                               meeting: Option<MeetingInfo>, note: Option<NoteInfo>)

  /** The `data` object of a `content_generated` event, restricted to its string fields. */
  type Data = map<string, string>

  function Field(d: Data, k: string): (r: Option<string>)
    ensures r.Some? <==> k in d
    ensures r.Some? ==> r.value == d[k]
  {
    if k in d then Some(d[k]) else None
  }

  /** The frames the page and the socket session react to; every other `type` is `Other`. */
  datatype ChatEvent =
    | Connected(userId: Option<string>)
    | HandshakeAck(userId: Option<string>)
    | LlmStart
    | Token(content: Option<string>)
    | LlmEnd
    | ToolStart
    | ToolEnd
    | AgentAction(text: string)
    | ContentGenerated(contentType: Option<string>, success: bool, data: Option<Data>, error: Option<string>)
    | Complete(conversationId: Option<string>)
    | Error(message: string)
    | Other(kind: string)

  // ---------------------------------------------------------------------------
  // Entity-card hashes: the trimmed key fields joined with "|"

  function Join(parts: seq<string>): string {
    if parts == [] then ""
    else if |parts| == 1 then parts[0]
    else parts[0] + "|" + Join(parts[1..])
  }

  predicate NoBar(s: string) {
    forall i :: 0 <= i < |s| ==> s[i] != '|'
  }

  function LeadHash(ld: LeadInfo): string {
    Join([Trim(ld.name), Trim(OrEmpty(ld.email)), Trim(OrEmpty(ld.mobile))])
  }

  function TaskHash(t: TaskInfo): string {
    Join([Trim(t.name), Trim(OrEmpty(t.description))])
  }

  function MeetingHash(m: MeetingInfo): string {
    Join([Trim(m.title), Trim(OrEmpty(m.description))])
  }

  function NoteHash(n: NoteInfo): string {
    Join([Trim(n.subject), Trim(n.description)])
  }

  /** The entity kinds a `content_generated` event can carry. */
  datatype Kind = LeadCard | TaskCard | MeetingCard | NoteCard

  /** The hash of `m`'s card of kind `k`, when `m` holds one. */
  function CardHash(m: Message, k: Kind): (h: Option<string>)
    ensures k == LeadCard ==> (h.Some? <==> m.lead.Some?) && (m.lead.Some? ==> h.value == LeadHash(m.lead.value))
    ensures k == TaskCard ==> (h.Some? <==> m.task.Some?) && (m.task.Some? ==> h.value == TaskHash(m.task.value))
    ensures k == MeetingCard ==> (h.Some? <==> m.meeting.Some?) && (m.meeting.Some? ==> h.value == MeetingHash(m.meeting.value))
    ensures k == NoteCard ==> (h.Some? <==> m.note.Some?) && (m.note.Some? ==> h.value == NoteHash(m.note.value))
  {
    match k
    case LeadCard => if m.lead.Some? then Some(LeadHash(m.lead.value)) else None
    case TaskCard => if m.task.Some? then Some(TaskHash(m.task.value)) else None
    case MeetingCard => if m.meeting.Some? then Some(MeetingHash(m.meeting.value)) else None
    case NoteCard => if m.note.Some? then Some(NoteHash(m.note.value)) else None
  }

  /** When no part holds a "|", two joins of equally many parts agree exactly when the parts do. */
  lemma {:induction false} JoinInjective(a: seq<string>, b: seq<string>)
    requires |a| == |b|
    requires forall i :: 0 <= i < |a| ==> NoBar(a[i]) && NoBar(b[i])
    ensures Join(a) == Join(b) <==> a == b
    decreases |a|
  {
    if |a| > 1 && Join(a) == Join(b) {
      var x, y := a[0], b[0];
      var s := Join(a);
      assert s == x + "|" + Join(a[1..]) && s == y + "|" + Join(b[1..]);
      FirstBar(x, Join(a[1..]));
      FirstBar(y, Join(b[1..]));
      assert x == y;
      assert Join(a[1..]) == s[|x| + 1..] == Join(b[1..]);
      JoinInjective(a[1..], b[1..]);
      assert a == [x] + a[1..] && b == [y] + b[1..];
    }
  }

  /** In `x + "|" + t` with `x` free of bars, `x` is everything before the first bar. */
  lemma FirstBar(x: string, t: string)
    requires NoBar(x)
    ensures |x| < |x + "|" + t| && (x + "|" + t)[|x|] == '|'
    ensures (x + "|" + t)[..|x|] == x && (x + "|" + t)[|x| + 1..] == t
    ensures forall i :: 0 <= i < |x| ==> (x + "|" + t)[i] != '|'
  {
    var s := x + "|" + t;
    assert forall i :: 0 <= i < |x| ==> s[i] == x[i];
  }

  /** Lead cards whose key fields hold no "|" collide exactly when their trimmed name, email
      and mobile agree. */
  lemma LeadHashInjective(a: LeadInfo, b: LeadInfo)
    requires NoBar(a.name) && NoBar(OrEmpty(a.email)) && NoBar(OrEmpty(a.mobile))
    requires NoBar(b.name) && NoBar(OrEmpty(b.email)) && NoBar(OrEmpty(b.mobile))
    ensures LeadHash(a) == LeadHash(b) <==>
      Trim(a.name) == Trim(b.name) && Trim(OrEmpty(a.email)) == Trim(OrEmpty(b.email))
      && Trim(OrEmpty(a.mobile)) == Trim(OrEmpty(b.mobile))
  {
    TrimNoBar(a.name); TrimNoBar(OrEmpty(a.email)); TrimNoBar(OrEmpty(a.mobile));
    TrimNoBar(b.name); TrimNoBar(OrEmpty(b.email)); TrimNoBar(OrEmpty(b.mobile));
    Join3Injective(Trim(a.name), Trim(OrEmpty(a.email)), Trim(OrEmpty(a.mobile)),
                   Trim(b.name), Trim(OrEmpty(b.email)), Trim(OrEmpty(b.mobile)));
  }

  lemma Join3Injective(x1: string, x2: string, x3: string, y1: string, y2: string, y3: string)
    requires NoBar(x1) && NoBar(x2) && NoBar(x3) && NoBar(y1) && NoBar(y2) && NoBar(y3)
    ensures Join([x1, x2, x3]) == Join([y1, y2, y3]) <==> x1 == y1 && x2 == y2 && x3 == y3
  {
    var pa, pb := [x1, x2, x3], [y1, y2, y3];
    JoinInjective(pa, pb);
    if pa == pb { assert pa[0] == pb[0] && pa[1] == pb[1] && pa[2] == pb[2]; }
  }

  lemma TrimNoBar(s: string)
    requires NoBar(s)
    ensures NoBar(Trim(s))
  {
    var k := LeadingSpaces(s);
    forall i | 0 <= i < |Trim(s)| ensures Trim(s)[i] != '|' { assert Trim(s)[i] == s[k + i]; }
  }
}
