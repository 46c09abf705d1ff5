/** The chat socket session (src/hooks/useChatSocket.ts). The browser socket is abstract: it is
    a serial number and a ready state, and everything the browser does to it arrives as an
    explicit step (`OnOpen`, `OnMessage`, `OnClose`), as does every timer. Frames written to
    the socket are appended to `outbox`; frames handed to the page are appended to `forwarded`. */
module ChatSocket {
  import opened Common
  import opened ChatModel

  datatype ReadyState = Connecting | Open | Closing | Closed

  datatype Socket = Socket(serial: nat, readyState: ReadyState)

  /** The object given to `send`; only the keys the hook reads are kept. `planner` is modelled
      as an optional boolean. */
  datatype Payload = Payload(kind: Option<string>, message: Option<string>,
                             conversationId: Option<string>, memberId: Option<string>,
                             businessId: Option<string>, leads: Option<seq<Data>>,
                             pipelineId: Option<string>, planner: Option<bool>)

  /** The JSON body written for a payload; each constructor has exactly the body's keys. */
  datatype Body =
    | ImportBody(leads: Option<seq<Data>>, pipelineId: Option<string>,
                 memberId: Option<string>, businessId: Option<string>)
    | ChatBody(message: Option<string>, conversationId: Option<string>, planner: bool,
               memberId: Option<string>, businessId: Option<string>)

  datatype Frame = Handshake(memberId: string, businessId: string) | Sent(body: Body)

  /** The body `send` builds: an import request for `type: "import_leads"`, a chat message for
      anything else, with an empty conversation id dropped and `planner` coerced to a boolean. */
  function BodyOf(p: Payload): (b: Body)
    ensures b.ImportBody? <==> p.kind == Some("import_leads")
    ensures b.ImportBody? ==> (b.leads == p.leads && b.pipelineId == p.pipelineId
                               && b.memberId == p.memberId && b.businessId == p.businessId)
    ensures b.ChatBody? ==> b.message == p.message && b.memberId == p.memberId && b.businessId == p.businessId
    ensures b.ChatBody? ==> (b.conversationId.Some? <==> Present(p.conversationId))
    ensures b.ChatBody? && b.conversationId.Some? ==> b.conversationId == p.conversationId
    ensures b.ChatBody? ==> (b.planner <==> p.planner == Some(true))
  {
    if p.kind == Some("import_leads") then
      ImportBody(p.leads, p.pipelineId, p.memberId, p.businessId)
    else
      ChatBody(p.message, if Present(p.conversationId) then p.conversationId else None,
               p.planner == Some(true), p.memberId, p.businessId)
  }

  /** What a `localStorageUpdated` event leads to. */
  datatype StorageAction = Reconnect | Resend | Ignore

  function StorageDecision(idsAvailable: bool, connected: bool, ws: Option<Socket>): (a: StorageAction)
    ensures a == Reconnect <==> idsAvailable && (!connected || ws.None?)
    ensures a == Resend <==> (!(idsAvailable && (!connected || ws.None?))
                              && connected && ws.Some? && ws.value.readyState == Open)
  {
    if idsAvailable && (!connected || ws.None?) then Reconnect
    else if connected && ws.Some? && ws.value.readyState == Open then Resend
    else Ignore
  }

  /** The client id after a parsed frame: `connected` and `handshake_ack` frames that carry a
      user id set it. */
  function ClientIdAfter(e: ChatEvent, clientId: Option<string>): (r: Option<string>)
    ensures (e.Connected? || e.HandshakeAck?) && Present(e.userId) ==> r == e.userId
    ensures !((e.Connected? || e.HandshakeAck?) && Present(e.userId)) ==> r == clientId
  {
    match e
    case Connected(u) => if Present(u) then u else clientId
    case HandshakeAck(u) => if Present(u) then u else clientId
    case _ => clientId
  }

  class SocketSession {
    /** `wsRef.current`. */
    var ws: Option<Socket>
    var connected: bool
    var clientId: Option<string>
    /** A reconnect timer is pending (`reconnectRef.current`). */
    var reconnectPending: bool
    /** Timers that will run `connect` and that `cleanup` cannot cancel: the 100 ms timer of
        each reconnecting storage update, which is never stored, and every reconnect timer
        whose handle a later `onclose` overwrote in `reconnectRef`. */
    var pendingConnects: nat
    var nextSerial: nat
    var outbox: seq<Frame>
    var forwarded: seq<ChatEvent>
    /** The serials of the sockets the session asked to close. */
    var closed: seq<nat>
    const autoReconnect: bool
    /** The hook's `member_id` and `business_id` options. */
    const memberOption: Option<string>
    const businessOption: Option<string>
    /** What `getMemberId()` and `getBusinessId()` return. */
    const configMember: string
    const configBusiness: string

    ghost predicate Valid()
      reads this
    {
      (ws.Some? ==> ws.value.serial < nextSerial) && (reconnectPending ==> autoReconnect)
      && (forall k :: 0 <= k < |closed| ==> closed[k] < nextSerial)
    }

    constructor (autoReconnect: bool, memberOption: Option<string>, businessOption: Option<string>,
                 configMember: string, configBusiness: string)
      ensures Valid() && ws.None? && !connected && clientId.None? && !reconnectPending
      ensures pendingConnects == 0 && nextSerial == 0 && outbox == [] && forwarded == [] && closed == []
      ensures this.autoReconnect == autoReconnect && this.memberOption == memberOption
      ensures this.businessOption == businessOption
      ensures this.configMember == configMember && this.configBusiness == configBusiness
    {
      this.autoReconnect := autoReconnect;
      this.memberOption := memberOption;
      this.businessOption := businessOption;
      this.configMember := configMember;
      this.configBusiness := configBusiness;
      ws := None;
      connected := false;
      clientId := None;
      reconnectPending := false;
      pendingConnects := 0;
      nextSerial := 0;
      outbox := [];
      forwarded := [];
      closed := [];
    }

    /** The handshake the session sends: the options, or the configured ids when absent. */
    function HandshakeFrame(): Frame
      reads this
    {
      Handshake(Or(memberOption, configMember), Or(businessOption, configBusiness))
    }

    /** `cleanup`: cancel the stored reconnect timer, close and drop the socket, mark
        disconnected. */
    method Cleanup()
      requires Valid()
      modifies this
      ensures Valid() && ws.None? && !connected && !reconnectPending
      ensures closed == old(closed) + (if old(ws).Some? then [old(ws).value.serial] else [])
      ensures clientId == old(clientId) && pendingConnects == old(pendingConnects)
      ensures nextSerial == old(nextSerial) && outbox == old(outbox) && forwarded == old(forwarded)
    {
      reconnectPending := false;
      if ws.Some? {
        closed := closed + [ws.value.serial];
        ws := None;
      }
      connected := false;
    }

    /** `connect`: cleanup first, then a new socket, or, when constructing it throws, a
        reconnect in 1000 ms when auto-reconnecting. */
    method Connect(constructOk: bool)
      requires Valid()
      modifies this
      ensures Valid() && !connected
      ensures constructOk ==>
        ws == Some(Socket(old(nextSerial), Connecting)) && nextSerial == old(nextSerial) + 1 && !reconnectPending
      ensures constructOk ==> ws.value.serial !in closed
      ensures !constructOk ==> ws.None? && nextSerial == old(nextSerial) && reconnectPending == autoReconnect
      ensures closed == old(closed) + (if old(ws).Some? then [old(ws).value.serial] else [])
      ensures clientId == old(clientId) && pendingConnects == old(pendingConnects)
      ensures outbox == old(outbox) && forwarded == old(forwarded)
    {
      Cleanup();
      if constructOk {
        ws := Some(Socket(nextSerial, Connecting));
        nextSerial := nextSerial + 1;
      } else if autoReconnect {
        reconnectPending := true;
      }
    }

    /** The stored reconnect timer fires and runs `connect`; the uncancellable timers stay
        pending. */
    method ReconnectTimerFires(constructOk: bool)
      requires Valid() && reconnectPending
      modifies this
      ensures Valid() && !connected
      ensures constructOk ==>
        ws == Some(Socket(old(nextSerial), Connecting)) && nextSerial == old(nextSerial) + 1 && !reconnectPending
      ensures constructOk ==> ws.value.serial !in closed
      ensures !constructOk ==> ws.None? && nextSerial == old(nextSerial) && reconnectPending == autoReconnect
      ensures closed == old(closed) + (if old(ws).Some? then [old(ws).value.serial] else [])
      ensures clientId == old(clientId) && pendingConnects == old(pendingConnects)
      ensures outbox == old(outbox) && forwarded == old(forwarded)
    {
      Connect(constructOk);
    }

    /** One of the uncancellable timers fires and runs `connect`, closing whatever socket is
        current, even one that is open. */
    method ConnectTimerFires(constructOk: bool)
      requires Valid() && pendingConnects > 0
      modifies this
      ensures Valid() && !connected
      ensures constructOk ==>
        ws == Some(Socket(old(nextSerial), Connecting)) && nextSerial == old(nextSerial) + 1 && !reconnectPending
      ensures constructOk ==> ws.value.serial !in closed
      ensures !constructOk ==> ws.None? && nextSerial == old(nextSerial) && reconnectPending == autoReconnect
      ensures closed == old(closed) + (if old(ws).Some? then [old(ws).value.serial] else [])
      ensures clientId == old(clientId) && pendingConnects == old(pendingConnects) - 1
      ensures outbox == old(outbox) && forwarded == old(forwarded)
    {
      pendingConnects := pendingConnects - 1;
      Connect(constructOk);
    }

    /** `onopen`: connected, and the handshake is written unless writing throws. */
    method OnOpen(writeOk: bool)
      requires Valid()
      modifies this
      ensures Valid() && connected
      ensures ws == (if old(ws).Some? then Some(old(ws).value.(readyState := Open)) else None)
      ensures outbox == old(outbox) + (if writeOk then [HandshakeFrame()] else [])
      ensures clientId == old(clientId) && reconnectPending == old(reconnectPending)
      ensures pendingConnects == old(pendingConnects)
      ensures forwarded == old(forwarded) && closed == old(closed) && nextSerial == old(nextSerial)
    {
      connected := true;
      if ws.Some? {
        ws := Some(ws.value.(readyState := Open));
      }
      if writeOk {
        outbox := outbox + [HandshakeFrame()];
      }
    }

    /** `onmessage`: `frame` is the parse of the data, `None` when it is not JSON. */
    method OnMessage(frame: Option<ChatEvent>)
      requires Valid()
      modifies this
      ensures Valid()
      ensures frame.None? ==> forwarded == old(forwarded) && clientId == old(clientId)
      ensures frame.Some? ==> (forwarded == old(forwarded) + [frame.value]
                               && clientId == ClientIdAfter(frame.value, old(clientId)))
      ensures ws == old(ws) && connected == old(connected) && outbox == old(outbox)
      ensures reconnectPending == old(reconnectPending) && closed == old(closed)
      ensures nextSerial == old(nextSerial) && pendingConnects == old(pendingConnects)
    {
      if frame.Some? {
        clientId := ClientIdAfter(frame.value, clientId);
        forwarded := forwarded + [frame.value];
      }
    }

    /** `onclose`: disconnected, no socket, and a reconnect in 1000 ms when auto-reconnecting.
        A reconnect timer already stored is not cleared: its handle is overwritten, so it can
        no longer be cancelled. */
    method OnClose()
      requires Valid()
      modifies this
      ensures Valid() && !connected && ws.None? && reconnectPending == (old(reconnectPending) || autoReconnect)
      ensures pendingConnects == old(pendingConnects) + (if autoReconnect && old(reconnectPending) then 1 else 0)
      ensures clientId == old(clientId) && outbox == old(outbox) && forwarded == old(forwarded)
      ensures closed == old(closed) && nextSerial == old(nextSerial)
    {
      connected := false;
      ws := None;
      if autoReconnect {
        if reconnectPending {
          pendingConnects := pendingConnects + 1;
        }
        reconnectPending := true;
      }
    }

    /** `handleStorageUpdate`: a `connect` in 100 ms when ids are known and the session is
        down, a fresh handshake when it is up, and `connect` at once when that handshake
        throws. */
    method HandleStorageUpdate(writeOk: bool, constructOk: bool) returns (a: StorageAction)
      requires Valid()
      modifies this
      ensures Valid()
      ensures a == StorageDecision(Present(Some(Or(memberOption, configMember))) || Present(Some(Or(businessOption, configBusiness))),
                                   old(connected), old(ws))
      ensures a != Resend || writeOk ==>
        ws == old(ws) && connected == old(connected) && reconnectPending == old(reconnectPending)
        && nextSerial == old(nextSerial) && closed == old(closed)
      ensures a == Reconnect ==> pendingConnects == old(pendingConnects) + 1 && outbox == old(outbox)
      ensures a == Resend && writeOk ==> pendingConnects == old(pendingConnects) && outbox == old(outbox) + [HandshakeFrame()]
      ensures a == Ignore ==> pendingConnects == old(pendingConnects) && outbox == old(outbox)
      ensures a == Resend && !writeOk ==>
        !connected && outbox == old(outbox) && pendingConnects == old(pendingConnects)
        && closed == old(closed) + [old(ws).value.serial]
        && (constructOk ==> ws == Some(Socket(old(nextSerial), Connecting)) && nextSerial == old(nextSerial) + 1
                            && !reconnectPending)
        && (!constructOk ==> ws.None? && nextSerial == old(nextSerial) && reconnectPending == autoReconnect)
      ensures clientId == old(clientId) && forwarded == old(forwarded)
    {
      var member := Or(memberOption, configMember);
      var business := Or(businessOption, configBusiness);
      a := StorageDecision(Present(Some(member)) || Present(Some(business)), connected, ws);
      if a == Reconnect {
        pendingConnects := pendingConnects + 1;
      } else if a == Resend {
        if writeOk {
          outbox := outbox + [HandshakeFrame()];
        } else {
          Connect(constructOk);
        }
      }
    }

    /** The browser starts closing the socket on its own (the server closed it, or the
        connection failed): the ready state becomes Closing, or Closed once the closing
        handshake is over. `onclose` follows as its own step; until then `send` refuses. */
    method BrowserCloses(finished: bool)
      requires Valid()
      modifies this`ws
      ensures Valid()
      ensures old(ws).Some? ==> ws == Some(Socket(old(ws).value.serial, if finished then Closed else Closing))
      ensures old(ws).None? ==> ws.None?
    {
      if ws.Some? {
        ws := Some(Socket(ws.value.serial, if finished then Closed else Closing));
      }
    }

    /** `send`: nothing unless a socket exists and is open; otherwise the body is written and
        the result says whether writing did not throw. */
    method Send(p: Payload, writeOk: bool) returns (ok: bool)
      requires Valid()
      modifies this`outbox
      ensures ok <==> old(ws).Some? && old(ws).value.readyState == Open && writeOk
      ensures outbox == old(outbox) + (if ok then [Sent(BodyOf(p))] else [])
    {
      if ws.None? || ws.value.readyState != Open {
        return false;
      }
      if writeOk {
        outbox := outbox + [Sent(BodyOf(p))];
        ok := true;
      } else {
        ok := false;
      }
    }
  }
}
