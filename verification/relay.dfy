/**
 * The signaling relay of the desktop-streaming server.
 *
 * The relay keeps a registry of live WebSocket connections by id and at most
 * one streamer. Every handler runs to completion on the event loop, so each is
 * one transition of a `RelayState`. The functions `After*` give the new state
 * of each transition; class `RelayServer` performs the same transitions in
 * place and is proved equal to them. What each connection has been sent is
 * kept in a per-connection outbox.
 */
module Relay {
  import opened Wrappers
  import opened Json

  /** A connection id (a v4 UUID in the server). */
  type Id = string

  /** `WebSocket.OPEN`, the readyState under which `broadcast` sends. */
  const OPEN: nat := 1

  /** What the relay reads of a transport: its readyState. */
  datatype Conn = Conn(readyState: nat)

  /**
   * `clients` maps every live id to its transport; `streamer` is the id whose
   * socket registered as streamer; `outbox` holds, for every id ever issued,
   * the messages handed to that socket's `send`, oldest first.
   */
  datatype RelayState = RelayState(clients: map<Id, Conn>, streamer: Option<Id>, outbox: map<Id, seq<Value>>)

  /** The registry invariant: the streamer, if any, is a live connection. */
  ghost predicate Valid(s: RelayState)
  {
    && s.clients.Keys <= s.outbox.Keys
    && (s.streamer.Some? ==> s.streamer.value in s.clients)
  }

  /** Connection `id` was sent exactly `msgs` between `before` and `after`. */
  ghost predicate Received(before: map<Id, seq<Value>>, after: map<Id, seq<Value>>, id: Id, msgs: seq<Value>)
  {
    id in before && id in after && after[id] == before[id] + msgs
  }

  /** `{ type: 'connected', clientId }`, the greeting of a new connection. */
  function ConnectedMessage(id: Id): (m: Value)
    ensures TypeOf(m) == Some("connected") && Get(m, "clientId") == Some(Str(id))
  {
    Obj(map["type" := Str("connected"), "clientId" := Str(id)])
  }

  /** `{ ...message, from: senderId }`: the message as forwarded. */
  function WithSender(message: map<string, Value>, sender: Id): (r: Value)
    ensures r.Obj? && r.fields.Keys == message.Keys + {"from"}
    ensures r.fields["from"] == Str(sender)
    ensures forall k :: k in message && k != "from" ==> r.fields[k] == message[k]
  {
    Obj(message["from" := Str(sender)])
  }

  /** Whether `broadcast(_, exclude)` sends to `id`. */
  predicate BroadcastsTo(clients: map<Id, Conn>, exclude: Option<Id>, id: Id)
    ensures BroadcastsTo(clients, exclude, id) ==> id in clients && clients[id].readyState == OPEN
    ensures exclude == Some(id) ==> !BroadcastsTo(clients, exclude, id)
  {
    id in clients && Some(id) != exclude && clients[id].readyState == OPEN
  }

  /** `broadcast(data, exclude)`: `data` to every open connection but `exclude`. */
  function AfterBroadcast(s: RelayState, data: Value, exclude: Option<Id>): (r: RelayState)
    requires Valid(s)
    ensures Valid(r) && r.clients == s.clients && r.streamer == s.streamer
    ensures r.outbox.Keys == s.outbox.Keys
    ensures forall id :: id in s.outbox ==>
      Received(s.outbox, r.outbox, id, if BroadcastsTo(s.clients, exclude, id) then [data] else [])
    ensures exclude.Some? && exclude.value in s.outbox ==> Received(s.outbox, r.outbox, exclude.value, [])
  {
    s.(outbox := map id | id in s.outbox :: if BroadcastsTo(s.clients, exclude, id) then s.outbox[id] + [data] else s.outbox[id])
  }

  /** `ws.send(data)` on the socket of `to`. */
  function AfterSend(s: RelayState, to: Id, data: Value): (r: RelayState)
    requires to in s.outbox
    ensures r.clients == s.clients && r.streamer == s.streamer && r.outbox.Keys == s.outbox.Keys
    ensures Received(s.outbox, r.outbox, to, [data])
    ensures forall id :: id in s.outbox && id != to ==> Received(s.outbox, r.outbox, id, [])
  {
    s.(outbox := s.outbox[to := s.outbox[to] + [data]])
  }

  /**
   * The `connection` handler: register the fresh id and greet that
   * connection, and only it, with one `connected` message carrying the id.
   */
  function AfterConnect(s: RelayState, id: Id): (r: RelayState)
    requires Valid(s) && id !in s.outbox
    ensures Valid(r) && r.streamer == s.streamer
    ensures id !in s.clients && r.clients.Keys == s.clients.Keys + {id}
    ensures r.clients[id].readyState == OPEN
    ensures forall other :: other in s.clients ==> r.clients[other] == s.clients[other]
    ensures r.outbox.Keys == s.outbox.Keys + {id} && r.outbox[id] == [ConnectedMessage(id)]
    ensures forall other :: other in s.outbox ==> Received(s.outbox, r.outbox, other, [])
  {
    var t := s.(clients := s.clients[id := Conn(OPEN)], outbox := s.outbox[id := []]);
    AfterSend(t, id, ConnectedMessage(id))
  }

  /**
   * `register-streamer`: the sender becomes the streamer, replacing any
   * earlier one, and every other open connection, the displaced streamer
   * included, is told `streamer-available` once; the sender is told nothing.
   */
  function AfterRegisterStreamer(s: RelayState, sender: Id): (r: RelayState)
    requires Valid(s) && sender in s.clients
    ensures Valid(r) && r.streamer == Some(sender) && r.clients == s.clients
    ensures r.outbox.Keys == s.outbox.Keys
    ensures Received(s.outbox, r.outbox, sender, [])
    ensures forall id :: id in s.outbox && id != sender ==>
      Received(s.outbox, r.outbox, id,
        if id in s.clients && s.clients[id].readyState == OPEN then [Message("streamer-available")] else [])
  {
    AfterBroadcast(s.(streamer := Some(sender)), Message("streamer-available"), Some(sender))
  }

  /**
   * `register-viewer`: the sender alone is told `streamer-available`, and
   * only when a streamer is registered; the registry never changes.
   */
  function AfterRegisterViewer(s: RelayState, sender: Id): (r: RelayState)
    requires Valid(s) && sender in s.clients
    ensures r.clients == s.clients && r.streamer == s.streamer && r.outbox.Keys == s.outbox.Keys
    ensures Received(s.outbox, r.outbox, sender, if s.streamer.Some? then [Message("streamer-available")] else [])
    ensures forall id :: id in s.outbox && id != sender ==> Received(s.outbox, r.outbox, id, [])
  {
    if s.streamer.Some? then AfterSend(s, sender, Message("streamer-available")) else s
  }

  /**
   * Where `offer`, `answer` and `ice-candidate` go: the streamer when the
   * target is the literal "streamer" and one is registered; otherwise the
   * connection the target names, when the target is truthy and live;
   * otherwise nowhere.
   */
  function Route(s: RelayState, target: Option<Value>): (to: Option<Id>)
    requires Valid(s)
    ensures to.Some? ==> to.value in s.clients
    ensures target == Some(Str("streamer")) && s.streamer.Some? ==> to == s.streamer
    ensures !(target == Some(Str("streamer")) && s.streamer.Some?) ==>
      (to.Some? <==> Truthy(target) && target.value.Str? && target.value.s in s.clients)
      && (to.Some? ==> target == Some(Str(to.value)))
  {
    if target == Some(Str("streamer")) && s.streamer.Some? then s.streamer
    else if Truthy(target) && target.value.Str? && target.value.s in s.clients then Some(target.value.s)
    else None
  }

  /**
   * Forwarding: the message, with `from` stamped to the sender, reaches the
   * routed connection and no other; the registry and the role never change.
   */
  function AfterForward(s: RelayState, sender: Id, message: map<string, Value>): (r: RelayState)
    requires Valid(s)
    ensures Valid(r) && r.clients == s.clients && r.streamer == s.streamer
    ensures r.outbox.Keys == s.outbox.Keys
    ensures forall id :: id in s.outbox ==>
      Received(s.outbox, r.outbox, id,
        if Route(s, Get(Obj(message), "target")) == Some(id) then [WithSender(message, sender)] else [])
  {
    match Route(s, Get(Obj(message), "target"))
    case None => s
    case Some(to) => AfterSend(s, to, WithSender(message, sender))
  }

  /** The message kinds `handleMessage` acts on. */
  predicate IsRelayed(kind: string)
  {
    kind == "offer" || kind == "answer" || kind == "ice-candidate"
  }

  /** Whether a parsed frame is one `handleMessage` does something with. */
  predicate Handled(parsed: Option<Value>)
  {
    parsed.Some? && TypeOf(parsed.value).Some?
    && var kind := TypeOf(parsed.value).value;
       kind == "register-streamer" || kind == "register-viewer" || IsRelayed(kind)
  }

  /**
   * The `message` handler: `parsed` is the result of `JSON.parse` (None when
   * it throws). Unparsable frames and unknown kinds change nothing; the
   * sender stays registered; only `register-streamer` touches the role.
   */
  function AfterMessage(s: RelayState, sender: Id, parsed: Option<Value>): (r: RelayState)
    requires Valid(s) && sender in s.clients
    ensures Valid(r) && r.clients == s.clients && r.outbox.Keys == s.outbox.Keys
    ensures !Handled(parsed) ==> r == s
    ensures r.streamer == if Handled(parsed) && TypeOf(parsed.value) == Some("register-streamer") then Some(sender) else s.streamer
  {
    if !Handled(parsed) then s
    else
      var kind := TypeOf(parsed.value).value;
      if kind == "register-streamer" then AfterRegisterStreamer(s, sender)
      else if kind == "register-viewer" then AfterRegisterViewer(s, sender)
      else AfterForward(s, sender, parsed.value.fields)
  }

  /**
   * The `close` handler: the id leaves the registry. When it was the
   * streamer the role is cleared and every remaining open connection is
   * told `streamer-disconnected` once; otherwise nothing is sent.
   */
  function AfterClose(s: RelayState, id: Id): (r: RelayState)
    requires Valid(s) && id in s.clients
    ensures Valid(r) && r.clients == s.clients - {id} && r.outbox.Keys == s.outbox.Keys
    ensures s.streamer == Some(id) ==> r.streamer == None
    ensures s.streamer == Some(id) ==> forall other :: other in s.outbox ==>
      Received(s.outbox, r.outbox, other,
        if other in r.clients && r.clients[other].readyState == OPEN then [Message("streamer-disconnected")] else [])
    ensures s.streamer != Some(id) ==> r.streamer == s.streamer && r.outbox == s.outbox
  {
    var t := s.(clients := s.clients - {id});
    if s.streamer == Some(id) then AfterBroadcast(t.(streamer := None), Message("streamer-disconnected"), None)
    else t
  }

  /** The transport changing its readyState (CLOSING before `close` fires, say). */
  function AfterReadyState(s: RelayState, id: Id, readyState: nat): (r: RelayState)
    requires Valid(s) && id in s.clients
    ensures Valid(r) && r.streamer == s.streamer && r.outbox == s.outbox
    ensures r.clients.Keys == s.clients.Keys && r.clients[id].readyState == readyState
    ensures forall other :: other in s.clients && other != id ==> r.clients[other] == s.clients[other]
  {
    s.(clients := s.clients[id := Conn(readyState)])
  }

  /** Events the transport delivers to the relay. */
  datatype Event =
    | Opened(id: Id)
    | Data(id: Id, parsed: Option<Value>)
    | StateChanged(id: Id, readyState: nat)
    | Closed(id: Id)

  /** The transport only delivers an event for a connection in the right phase. */
  predicate Deliverable(s: RelayState, e: Event)
  {
    match e
    case Opened(id) => id !in s.outbox
    case _ => e.id in s.clients
  }

  /** One event; an event the transport cannot deliver leaves the state alone. */
  function Step(s: RelayState, e: Event): (r: RelayState)
    requires Valid(s)
    ensures Valid(r)
  {
    if !Deliverable(s, e) then s
    else match e
      case Opened(id) => AfterConnect(s, id)
      case Data(id, parsed) => AfterMessage(s, id, parsed)
      case StateChanged(id, state) => AfterReadyState(s, id, state)
      case Closed(id) => AfterClose(s, id)
  }

  /** A serial interleaving of events, as the event loop runs them. */
  function Run(s: RelayState, events: seq<Event>): (r: RelayState)
    requires Valid(s)
    ensures Valid(r)
    decreases |events|
  {
    if events == [] then s else Step(Run(s, events[..|events| - 1]), events[|events| - 1])
  }

  /** The empty registry the server starts with. */
  const Initial: RelayState := RelayState(map[], None, map[])

  /** Whether `e` is a `register-streamer` frame from `id`. */
  predicate RegistersStreamer(e: Event, id: Id)
  {
    e.Data? && e.id == id && e.parsed.Some? && TypeOf(e.parsed.value) == Some("register-streamer")
  }

  /**
   * Over any run from the empty registry, a streamer, when set, is a live
   * connection that itself sent `register-streamer` during the run.
   */
  lemma {:induction false} StreamerRegisteredItself(events: seq<Event>)
    ensures Valid(Run(Initial, events))
    ensures Run(Initial, events).streamer.Some? ==>
      exists i :: 0 <= i < |events| && RegistersStreamer(events[i], Run(Initial, events).streamer.value)
    decreases |events|
  {
    if events != [] {
      var prefix := events[..|events| - 1];
      var e := events[|events| - 1];
      var before := Run(Initial, prefix);
      StreamerRegisteredItself(prefix);
      var after := Run(Initial, events);
      assert after == Step(before, e);
      if after.streamer.Some? {
        if after.streamer == before.streamer {
          var i :| 0 <= i < |prefix| && RegistersStreamer(prefix[i], before.streamer.value);
          assert events[i] == prefix[i];
        } else {
          assert RegistersStreamer(events[|events| - 1], after.streamer.value);
        }
      }
    }
  }

  /** The server's module state and handlers, updated in place. */
  class RelayServer {
    var clients: map<Id, Conn>
    var streamer: Option<Id>
    var outbox: map<Id, seq<Value>>

    function State(): (st: RelayState)
      reads this
    {
      RelayState(clients, streamer, outbox)
    }

    constructor ()
      ensures State() == Initial
    {
      clients := map[];
      streamer := None;
      outbox := map[];
    }

    /** `ws.send(data)` on the socket registered under `to`. */
    method Send(to: Id, data: Value)
      requires to in outbox
      modifies this
      ensures State() == AfterSend(old(State()), to, data)
    {
      outbox := outbox[to := outbox[to] + [data]];
    }

    /** `wss.on('connection')` with `id` the fresh uuid. */
    method OnConnection(id: Id)
      requires Valid(State()) && id !in outbox
      modifies this
      ensures State() == AfterConnect(old(State()), id)
    {
      clients := clients[id := Conn(OPEN)];
      outbox := outbox[id := []];
      Send(id, ConnectedMessage(id));
    }

    /** `ws.on('message')`: `parsed` is None when `JSON.parse` throws. */
    method OnMessage(sender: Id, parsed: Option<Value>)
      requires Valid(State()) && sender in clients
      modifies this
      ensures State() == AfterMessage(old(State()), sender, parsed)
    {
      if parsed.Some? {
        HandleMessage(sender, parsed.value);
      }
    }

    /** `handleMessage`: dispatch on `message.type`. */
    method HandleMessage(sender: Id, message: Value)
      requires Valid(State()) && sender in clients
      modifies this
      ensures State() == AfterMessage(old(State()), sender, Some(message))
    {
      var kind := TypeOf(message);
      if kind == Some("register-streamer") {
        streamer := Some(sender);
        Broadcast(Message("streamer-available"), Some(sender));
      } else if kind == Some("register-viewer") {
        if streamer.Some? {
          Send(sender, Message("streamer-available"));
        }
      } else if kind.Some? && IsRelayed(kind.value) {
        var target := Get(message, "target");
        if target == Some(Str("streamer")) && streamer.Some? {
          Send(streamer.value, WithSender(message.fields, sender));
        } else if Truthy(target) && target.value.Str? && target.value.s in clients {
          Send(target.value.s, WithSender(message.fields, sender));
        }
      }
    }

    /** `ws.on('close')`. */
    method OnClose(id: Id)
      requires Valid(State()) && id in clients
      modifies this
      ensures State() == AfterClose(old(State()), id)
    {
      clients := clients - {id};
      if streamer == Some(id) {
        streamer := None;
        Broadcast(Message("streamer-disconnected"), None);
      }
    }

    /** The transport's readyState moving to `readyState`. */
    method OnReadyState(id: Id, readyState: nat)
      requires Valid(State()) && id in clients
      modifies this
      ensures State() == AfterReadyState(old(State()), id, readyState)
    {
      clients := clients[id := Conn(readyState)];
    }

    /** `broadcast`: one pass over the registry, sending to each open client but `exclude`. */
    method Broadcast(data: Value, exclude: Option<Id>)
      requires Valid(State())
      modifies this
      ensures State() == AfterBroadcast(old(State()), data, exclude)
    {
      ghost var before := outbox;
      var pending := clients.Keys;
      while pending != {}
        invariant pending <= clients.Keys
        invariant clients == old(clients) && streamer == old(streamer)
        invariant outbox.Keys == before.Keys
        invariant forall id :: id in before ==>
          outbox[id] == if id !in pending && BroadcastsTo(clients, exclude, id) then before[id] + [data] else before[id]
        decreases pending
      {
        var id :| id in pending;
        if Some(id) != exclude && clients[id].readyState == OPEN {
          outbox := outbox[id := outbox[id] + [data]];
        }
        pending := pending - {id};
      }
      assert outbox == AfterBroadcast(old(State()), data, exclude).outbox;
    }
  }
}
