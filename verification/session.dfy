/**
 * The viewer and the relay together: what the viewer sends, routed by the
 * relay, arrives unchanged but for `from`, and a whole streamer/viewer
 * session runs to the outboxes each party is meant to see.
 */
module Session {
  import opened Wrappers
  import opened Json
  import opened Relay
  import Viewer

  /**
   * Forwarding is content-opaque: apart from `from`, the recipient reads
   * exactly the fields the sender wrote, `type` included.
   */
  lemma ForwardingIsOpaque(message: map<string, Value>, sender: Id, key: string)
    requires key != "from"
    ensures Get(WithSender(message, sender), key) == Get(Obj(message), key)
    ensures TypeOf(WithSender(message, sender)) == TypeOf(Obj(message))
    ensures Get(WithSender(message, sender), "from") == Some(Str(sender))
  {
    var stamped := WithSender(message, sender);
    assert key in stamped.fields <==> key in message;
    assert "type" in stamped.fields <==> "type" in message;
  }

  /**
   * The offer a viewer's `requestStream` sends reaches the registered
   * streamer, and no one else, stamped with the viewer's id.
   */
  lemma OfferReachesStreamer(s: RelayState, viewer: Id, offer: Value)
    requires Valid(s) && viewer in s.clients && s.streamer.Some?
    ensures var r := AfterMessage(s, viewer, Some(Viewer.OfferRequest(offer)));
      && r.clients == s.clients && r.streamer == s.streamer
      && Received(s.outbox, r.outbox, s.streamer.value, [WithSender(Viewer.OfferRequest(offer).fields, viewer)])
      && forall id :: id in s.outbox && id != s.streamer.value ==> Received(s.outbox, r.outbox, id, [])
  {
    var m := Viewer.OfferRequest(offer);
    assert Handled(Some(m));
    assert Route(s, Get(Obj(m.fields), "target")) == s.streamer;
  }

  /**
   * With no streamer registered the viewer's offer is dropped silently,
   * unless some connection happens to carry the id "streamer".
   */
  lemma OfferWithoutStreamerDropped(s: RelayState, viewer: Id, offer: Value)
    requires Valid(s) && viewer in s.clients && s.streamer.None? && "streamer" !in s.clients
    ensures AfterMessage(s, viewer, Some(Viewer.OfferRequest(offer))) == s
  {
    var m := Viewer.OfferRequest(offer);
    assert Handled(Some(m));
    assert Route(s, Get(Obj(m.fields), "target")) == None;
    var r := AfterMessage(s, viewer, Some(m));
    assert r.outbox == s.outbox;
  }

  /**
   * An answer the streamer addresses to a live viewer reaches that viewer,
   * and what the viewer's `handleMessage` reads from it, its type and its
   * `answer` payload, is what the streamer sent.
   */
  lemma AnswerReachesViewer(s: RelayState, streamer: Id, viewer: Id, answer: Value)
    requires Valid(s) && streamer in s.clients && viewer in s.clients && viewer != "" && viewer != "streamer"
    ensures var sent := Obj(map["type" := Str("answer"), "target" := Str(viewer), "answer" := answer]);
      var r := AfterMessage(s, streamer, Some(sent));
      && Received(s.outbox, r.outbox, viewer, [WithSender(sent.fields, streamer)])
      && TypeOf(WithSender(sent.fields, streamer)) == Some("answer")
      && Get(WithSender(sent.fields, streamer), "answer") == Some(answer)
  {
    var sent := Obj(map["type" := Str("answer"), "target" := Str(viewer), "answer" := answer]);
    assert TypeOf(sent) == Some("answer");
    assert Handled(Some(sent));
    assert Route(s, Get(Obj(sent.fields), "target")) == Some(viewer);
    ForwardingIsOpaque(sent.fields, streamer, "answer");
  }

  /**
   * Closing the streamer clears the role: a viewer that registers
   * afterwards is told nothing until a new streamer registers.
   */
  lemma StreamerCloseClearsRole(s: RelayState, streamer: Id, viewer: Id)
    requires Valid(s) && s.streamer == Some(streamer) && viewer in s.clients && viewer != streamer
    ensures var r := AfterClose(s, streamer);
      && viewer in r.clients && r.streamer == None
      && Received(r.outbox, AfterRegisterViewer(r, viewer).outbox, viewer, [])
  {
  }

  /** The answer the streamer A addresses to viewer B in the session below. */
  function SessionAnswer(answer: Value): (m: Value)
  {
    Obj(map["type" := Str("answer"), "target" := Str("B"), "answer" := answer])
  }

  /**
   * A state of the session below: the live ids, all open; the streamer;
   * what A has been sent and, once B has connected, what B has been sent.
   */
  ghost predicate Snapshot(s: RelayState, live: set<Id>, streamer: Option<Id>, toA: seq<Value>, toB: Option<seq<Value>>)
  {
    && Valid(s)
    && s.clients.Keys == live
    && (forall id :: id in s.clients ==> s.clients[id].readyState == OPEN)
    && s.streamer == streamer
    && s.outbox.Keys == (if toB.Some? then {"A", "B"} else {"A"})
    && s.outbox["A"] == toA
    && (toB.Some? ==> s.outbox["B"] == toB.value)
  }

  lemma SessionStep1()
    ensures Snapshot(Step(Initial, Opened("A")), {"A"}, None, [ConnectedMessage("A")], None)
  {
  }

  lemma SessionStep2(s: RelayState, toA: seq<Value>)
    requires Snapshot(s, {"A"}, None, toA, None)
    ensures Snapshot(Step(s, Data("A", Some(Message("register-streamer")))), {"A"}, Some("A"), toA, None)
  {
    assert Handled(Some(Message("register-streamer")));
  }

  lemma SessionStep3(s: RelayState, toA: seq<Value>)
    requires Snapshot(s, {"A"}, Some("A"), toA, None)
    ensures Snapshot(Step(s, Opened("B")), {"A", "B"}, Some("A"), toA, Some([ConnectedMessage("B")]))
  {
  }

  lemma SessionStep4(s: RelayState, toA: seq<Value>, toB: seq<Value>)
    requires Snapshot(s, {"A", "B"}, Some("A"), toA, Some(toB))
    ensures Snapshot(Step(s, Data("B", Some(Message("register-viewer")))), {"A", "B"}, Some("A"),
                     toA, Some(toB + [Message("streamer-available")]))
  {
    assert Handled(Some(Message("register-viewer")));
  }

  lemma SessionStep5(s: RelayState, toA: seq<Value>, toB: seq<Value>, offer: Value)
    requires Snapshot(s, {"A", "B"}, Some("A"), toA, Some(toB))
    ensures Snapshot(Step(s, Data("B", Some(Viewer.OfferRequest(offer)))), {"A", "B"}, Some("A"),
                     toA + [WithSender(Viewer.OfferRequest(offer).fields, "B")], Some(toB))
  {
    OfferReachesStreamer(s, "B", offer);
  }

  lemma SessionStep6(s: RelayState, toA: seq<Value>, toB: seq<Value>, answer: Value)
    requires Snapshot(s, {"A", "B"}, Some("A"), toA, Some(toB))
    ensures Snapshot(Step(s, Data("A", Some(SessionAnswer(answer)))), {"A", "B"}, Some("A"),
                     toA, Some(toB + [WithSender(SessionAnswer(answer).fields, "A")]))
  {
    AnswerReachesViewer(s, "A", "B", answer);
    var r := AfterMessage(s, "A", Some(SessionAnswer(answer)));
    assert Route(s, Get(SessionAnswer(answer), "target")) == Some("B");
    assert Received(s.outbox, r.outbox, "A", []);
  }

  lemma SessionStep7(s: RelayState, toA: seq<Value>, toB: seq<Value>)
    requires Snapshot(s, {"A", "B"}, Some("A"), toA, Some(toB))
    ensures Snapshot(Step(s, Closed("A")), {"B"}, None, toA, Some(toB + [Message("streamer-disconnected")]))
  {
    var r := AfterClose(s, "A");
    assert Received(s.outbox, r.outbox, "B", [Message("streamer-disconnected")]);
    assert Received(s.outbox, r.outbox, "A", []);
  }

  /** The events of the session below. */
  function SessionEvents(offer: Value, answer: Value): (events: seq<Event>)
    ensures |events| == 7
  {
    [Opened("A"), Data("A", Some(Message("register-streamer"))),
     Opened("B"), Data("B", Some(Message("register-viewer"))),
     Data("B", Some(Viewer.OfferRequest(offer))), Data("A", Some(SessionAnswer(answer))),
     Closed("A")]
  }

  /** Running a prefix one event longer is one more step. */
  lemma RunPrefix(events: seq<Event>, k: nat)
    requires 0 < k <= |events|
    ensures Run(Initial, events[..k]) == Step(Run(Initial, events[..k - 1]), events[k - 1])
  {
    assert events[..k][..k - 1] == events[..k - 1];
  }

  /** What each connection has been sent in the session below. */
  function ToA0(): (sent: seq<Value>) { [ConnectedMessage("A")] }
  function ToA1(offer: Value): (sent: seq<Value>) { ToA0() + [WithSender(Viewer.OfferRequest(offer).fields, "B")] }
  function ToB0(): (sent: seq<Value>) { [ConnectedMessage("B")] }
  function ToB1(): (sent: seq<Value>) { ToB0() + [Message("streamer-available")] }
  function ToB2(answer: Value): (sent: seq<Value>) { ToB1() + [WithSender(SessionAnswer(answer).fields, "A")] }

  lemma SessionPrefix1(offer: Value, answer: Value)
    ensures Snapshot(Run(Initial, SessionEvents(offer, answer)[..1]), {"A"}, None, ToA0(), None)
  {
    var events := SessionEvents(offer, answer);
    RunPrefix(events, 1);
    assert events[..0] == [];
    SessionStep1();
  }

  lemma SessionPrefix2(offer: Value, answer: Value)
    ensures Snapshot(Run(Initial, SessionEvents(offer, answer)[..2]), {"A"}, Some("A"), ToA0(), None)
  {
    var events := SessionEvents(offer, answer);
    SessionPrefix1(offer, answer);
    var before := Run(Initial, events[..1]);
    assert events[1] == Data("A", Some(Message("register-streamer")));
    SessionStep2(before, ToA0());
    RunPrefix(events, 2);
  }

  lemma SessionPrefix3(offer: Value, answer: Value)
    ensures Snapshot(Run(Initial, SessionEvents(offer, answer)[..3]), {"A", "B"}, Some("A"), ToA0(), Some(ToB0()))
  {
    var events := SessionEvents(offer, answer);
    SessionPrefix2(offer, answer);
    var before := Run(Initial, events[..2]);
    assert events[2] == Opened("B");
    SessionStep3(before, ToA0());
    RunPrefix(events, 3);
  }

  lemma SessionPrefix4(offer: Value, answer: Value)
    ensures Snapshot(Run(Initial, SessionEvents(offer, answer)[..4]), {"A", "B"}, Some("A"), ToA0(), Some(ToB1()))
  {
    var events := SessionEvents(offer, answer);
    SessionPrefix3(offer, answer);
    var before := Run(Initial, events[..3]);
    assert events[3] == Data("B", Some(Message("register-viewer")));
    SessionStep4(before, ToA0(), ToB0());
    RunPrefix(events, 4);
  }

  lemma SessionPrefix5(offer: Value, answer: Value)
    ensures Snapshot(Run(Initial, SessionEvents(offer, answer)[..5]), {"A", "B"}, Some("A"), ToA1(offer), Some(ToB1()))
  {
    var events := SessionEvents(offer, answer);
    SessionPrefix4(offer, answer);
    var before := Run(Initial, events[..4]);
    assert events[4] == Data("B", Some(Viewer.OfferRequest(offer)));
    SessionStep5(before, ToA0(), ToB1(), offer);
    RunPrefix(events, 5);
  }

  lemma SessionPrefix6(offer: Value, answer: Value)
    ensures Snapshot(Run(Initial, SessionEvents(offer, answer)[..6]), {"A", "B"}, Some("A"), ToA1(offer), Some(ToB2(answer)))
  {
    var events := SessionEvents(offer, answer);
    SessionPrefix5(offer, answer);
    var before := Run(Initial, events[..5]);
    assert events[5] == Data("A", Some(SessionAnswer(answer)));
    SessionStep6(before, ToA1(offer), ToB1(), answer);
    RunPrefix(events, 6);
  }

  lemma SessionPrefix7(offer: Value, answer: Value)
    ensures Snapshot(Run(Initial, SessionEvents(offer, answer)[..7]), {"B"}, None, ToA1(offer),
                     Some(ToB2(answer) + [Message("streamer-disconnected")]))
  {
    var events := SessionEvents(offer, answer);
    SessionPrefix6(offer, answer);
    var before := Run(Initial, events[..6]);
    assert events[6] == Closed("A");
    SessionStep7(before, ToA1(offer), ToB2(answer));
    RunPrefix(events, 7);
  }

  /**
   * A two-client session: A connects and registers as streamer; B
   * connects and registers as viewer and is told a streamer is available;
   * B's offer reaches A from B; A's answer reaches B from A; when A
   * disconnects, B is told `streamer-disconnected` and the role is vacant.
   */
  lemma StreamerViewerSession(offer: Value, answer: Value)
    ensures var r := Run(Initial, SessionEvents(offer, answer));
      && r.clients.Keys == {"B"} && r.streamer == None
      && "A" in r.outbox && "B" in r.outbox
      && r.outbox["A"] == [ConnectedMessage("A"), WithSender(Viewer.OfferRequest(offer).fields, "B")]
      && r.outbox["B"] == [ConnectedMessage("B"), Message("streamer-available"),
                           WithSender(SessionAnswer(answer).fields, "A"), Message("streamer-disconnected")]
  {
    var events := SessionEvents(offer, answer);
    SessionPrefix7(offer, answer);
    assert events[..7] == events;
    var r := Run(Initial, events);
    assert Snapshot(r, {"B"}, None, ToA1(offer), Some(ToB2(answer) + [Message("streamer-disconnected")]));
    assert ToB2(answer) + [Message("streamer-disconnected")] == [ConnectedMessage("B"), Message("streamer-available"),
      WithSender(SessionAnswer(answer).fields, "A"), Message("streamer-disconnected")];
  }

  /**
   * The viewer's side of the session: a client whose socket has opened and
   * that requests a stream sends `register-viewer` then its offer, holds the
   * offer as local description, and takes the answer the relay forwards from
   * the streamer as remote description whenever that answer is truthy.
   */
  method ViewerSession(socket: Viewer.Socket, offer: Value, answer: Value)
    returns (sent: seq<Value>, local: Option<Value>, remote: Option<Value>)
    ensures sent == [Viewer.RegisterViewerRequest(), Viewer.OfferRequest(offer)]
    ensures local == Some(offer)
    ensures remote == if Truthy(Some(answer)) then Some(answer) else None
  {
    var client := new Viewer.VRDesktopClient();
    client.Connect(socket);
    client.OnSocketEvent(socket, "open");
    client.RequestStream(offer);
    var forwarded := WithSender(SessionAnswer(answer).fields, "A");
    ForwardingIsOpaque(SessionAnswer(answer).fields, "A", "answer");
    assert TypeOf(SessionAnswer(answer)) == Some("answer");
    client.HandleMessage(forwarded);
    sent := client.sent;
    local := client.pc.value.localDescription;
    remote := client.pc.value.remoteDescription;
  }

  /**
   * A stream requested before the socket has opened: the first `ws.send`
   * throws, so nothing is sent, no peer connection exists and no status is
   * reported.
   */
  method RequestBeforeOpen(socket: Viewer.Socket, offer: Value)
    returns (sent: seq<Value>, hasPeer: bool, statuses: seq<Viewer.Status>)
    ensures sent == [] && !hasPeer && statuses == []
  {
    var client := new Viewer.VRDesktopClient();
    client.Connect(socket);
    client.RequestStream(offer);
    sent := client.sent;
    hasPeer := client.pc.Some?;
    statuses := client.statuses;
  }
}
