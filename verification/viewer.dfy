/**
 * The viewer side of the signaling exchange: class `VRDesktopClient`.
 *
 * The peer connection is abstract: present or absent, with the local and
 * remote descriptions it was given and the remote candidates applied to it,
 * in order. What the client hands to `ws.send`, the statuses it reports
 * through `setStatus`, and the peer connections and sockets it closes are
 * kept as logs.
 */
module Viewer {
  import opened Wrappers
  import opened Json

  /** The `status` argument of `setStatus`. */
  datatype Status = Connected | Connecting | Error | Disconnected

  /** An opaque WebSocket handle. */
  datatype Socket = Socket(handle: nat)

  /**
   * The `readyState` of a WebSocket, CONNECTING being `Handshaking` and
   * CLOSING merged into `Closed`: `send` throws while handshaking, transmits
   * when open, and silently discards the frame once closing or closed.
   */
  datatype SocketState = Handshaking | Open | Closed

  /** An opaque MediaStream handle. */
  datatype MediaStream = MediaStream(handle: nat)

  /** What the model keeps of an RTCPeerConnection. */
  datatype PeerConnection = PeerConnection(localDescription: Option<Value>, remoteDescription: Option<Value>, candidates: seq<Value>)

  /** A peer connection as `new RTCPeerConnection(...)` creates it. */
  const FreshPeer: PeerConnection := PeerConnection(None, None, [])

  /** `{ type: 'register-viewer' }` */
  function RegisterViewerRequest(): (m: Value)
    ensures TypeOf(m) == Some("register-viewer")
  {
    Message("register-viewer")
  }

  /** `{ type: 'offer', target: 'streamer', offer }` */
  function OfferRequest(offer: Value): (m: Value)
    ensures TypeOf(m) == Some("offer")
    ensures Get(m, "target") == Some(Str("streamer")) && Get(m, "offer") == Some(offer)
  {
    Obj(map["type" := Str("offer"), "target" := Str("streamer"), "offer" := offer])
  }

  /** `{ type: 'ice-candidate', target: 'streamer', candidate }` */
  function CandidateRequest(candidate: Value): (m: Value)
    ensures TypeOf(m) == Some("ice-candidate")
    ensures Get(m, "target") == Some(Str("streamer")) && Get(m, "candidate") == Some(candidate)
  {
    Obj(map["type" := Str("ice-candidate"), "target" := Str("streamer"), "candidate" := candidate])
  }

  /** The message kinds `handleMessage` has a case for. */
  predicate HasCase(message: Value)
  {
    TypeOf(message).Some? &&
    TypeOf(message).value in {"connected", "streamer-available", "streamer-disconnected", "answer", "ice-candidate"}
  }

  class VRDesktopClient {
    var ws: Option<Socket>
    /** The readyState of `ws` while it is set. */
    var wsState: SocketState
    var pc: Option<PeerConnection>
    var clientId: Option<Value>
    var stream: Option<MediaStream>

    /** Frames `ws.send` transmitted on an open socket, oldest first. */
    var sent: seq<Value>
    /** Statuses reported through `setStatus`, oldest first. */
    var statuses: seq<Status>
    /** Peer connections closed by `pc.close()`, oldest first. */
    var closedPeers: seq<PeerConnection>
    /** Sockets closed by `ws.close()`, oldest first. */
    var closedSockets: seq<Socket>

    constructor ()
      ensures ws == None && wsState == Closed && pc == None && clientId == None && stream == None
      ensures sent == [] && statuses == [] && closedPeers == [] && closedSockets == []
    {
      ws, pc, clientId, stream := None, None, None, None;
      wsState := Closed;
      sent, statuses, closedPeers, closedSockets := [], [], [], [];
    }

    /** `connect()`: the new socket, still connecting, becomes `ws`. */
    method Connect(socket: Socket)
      modifies this
      ensures ws == Some(socket) && wsState == Handshaking
      ensures pc == old(pc) && clientId == old(clientId) && stream == old(stream)
      ensures sent == old(sent) && statuses == old(statuses)
      ensures closedPeers == old(closedPeers) && closedSockets == old(closedSockets)
    {
      ws := Some(socket);
      wsState := Handshaking;
    }

    /**
     * `ws.onopen`, `ws.onerror` and `ws.onclose` of `socket`: each reports
     * one status, even for a socket `ws` no longer holds. The socket is open
     * when `open` fires and closed by the time `error` or `close` fires.
     */
    method OnSocketEvent(socket: Socket, event: string)
      requires event in {"open", "error", "close"}
      modifies this`statuses, this`wsState
      ensures statuses == old(statuses) + [if event == "open" then Connected else if event == "error" then Error else Disconnected]
      ensures wsState == if ws == Some(socket) then (if event == "open" then Open else Closed) else old(wsState)
    {
      if ws == Some(socket) {
        wsState := if event == "open" then Open else Closed;
      }
      if event == "open" {
        statuses := statuses + [Connected];
      } else if event == "error" {
        statuses := statuses + [Error];
      } else {
        statuses := statuses + [Disconnected];
      }
    }

    /** `handleMessage`: a `switch` on `message.type` with no default case. */
    method HandleMessage(message: Value)
      modifies this
      ensures ws == old(ws) && wsState == old(wsState) && sent == old(sent) && closedSockets == old(closedSockets)
      ensures !HasCase(message) ==>
        pc == old(pc) && clientId == old(clientId) && stream == old(stream)
        && statuses == old(statuses) && closedPeers == old(closedPeers)
      ensures TypeOf(message) == Some("connected") ==>
        clientId == Get(message, "clientId")
        && pc == old(pc) && stream == old(stream) && statuses == old(statuses) && closedPeers == old(closedPeers)
      ensures TypeOf(message) == Some("streamer-available") ==>
        statuses == old(statuses) + [Connected]
        && pc == old(pc) && clientId == old(clientId) && stream == old(stream) && closedPeers == old(closedPeers)
      ensures TypeOf(message) == Some("streamer-disconnected") ==>
        statuses == old(statuses) + [Error] && pc == None
        && closedPeers == old(closedPeers) + (if old(pc).Some? then [old(pc).value] else [])
        && clientId == old(clientId) && stream == old(stream)
      ensures TypeOf(message) == Some("answer") ==>
        pc == (if old(pc).Some? && Truthy(Get(message, "answer"))
               then Some(old(pc).value.(remoteDescription := Get(message, "answer")))
               else old(pc))
        && clientId == old(clientId) && stream == old(stream) && statuses == old(statuses) && closedPeers == old(closedPeers)
      ensures TypeOf(message) == Some("ice-candidate") ==>
        pc == (if old(pc).Some? && Truthy(Get(message, "candidate"))
               then Some(old(pc).value.(candidates := old(pc).value.candidates + [Get(message, "candidate").value]))
               else old(pc))
        && clientId == old(clientId) && stream == old(stream) && statuses == old(statuses) && closedPeers == old(closedPeers)
    {
      var kind := TypeOf(message);
      if kind == Some("connected") {
        clientId := Get(message, "clientId");
      } else if kind == Some("streamer-available") {
        statuses := statuses + [Connected];
      } else if kind == Some("streamer-disconnected") {
        statuses := statuses + [Error];
        if pc.Some? {
          closedPeers := closedPeers + [pc.value];
          pc := None;
        }
      } else if kind == Some("answer") {
        var answer := Get(message, "answer");
        if pc.Some? && Truthy(answer) {
          pc := Some(pc.value.(remoteDescription := answer));
        }
      } else if kind == Some("ice-candidate") {
        var candidate := Get(message, "candidate");
        if pc.Some? && Truthy(candidate) {
          pc := Some(pc.value.(candidates := pc.value.candidates + [candidate.value]));
        }
      }
    }

    /**
     * `requestStream`, with `offer` the description `createOffer` yields.
     * Its first `ws.send` throws without a socket or while the socket is
     * still connecting, and then nothing happens. Otherwise a new peer
     * connection holding the offer as its local description replaces `pc`,
     * the last status is `connecting`, and on an open socket `register-viewer`
     * goes out strictly before the offer, which targets the streamer (a
     * closed socket discards both).
     */
    method RequestStream(offer: Value)
      modifies this
      ensures ws == old(ws) && wsState == old(wsState) && clientId == old(clientId) && stream == old(stream)
      ensures closedPeers == old(closedPeers) && closedSockets == old(closedSockets)
      ensures old(ws).None? || old(wsState) == Handshaking ==> pc == old(pc) && sent == old(sent) && statuses == old(statuses)
      ensures old(ws).Some? && old(wsState) != Handshaking ==>
        && sent == old(sent) + (if old(wsState) == Open then [RegisterViewerRequest(), OfferRequest(offer)] else [])
        && pc == Some(FreshPeer.(localDescription := Some(offer)))
        && statuses == old(statuses) + [Connecting]
    {
      if ws.None? || wsState == Handshaking {
        return;
      }
      if wsState == Open {
        sent := sent + [RegisterViewerRequest()];
      }
      pc := Some(FreshPeer);
      pc := Some(pc.value.(localDescription := Some(offer)));
      if wsState == Open {
        sent := sent + [OfferRequest(offer)];
      }
      statuses := statuses + [Connecting];
    }

    /**
     * `pc.onicecandidate`: a gathered candidate goes to the streamer when the
     * socket is open; the null candidate that ends gathering sends nothing.
     */
    method OnIceCandidate(candidate: Option<Value>)
      modifies this`sent
      ensures sent == old(sent) + (if Truthy(candidate) && ws.Some? && wsState == Open then [CandidateRequest(candidate.value)] else [])
    {
      if Truthy(candidate) && ws.Some? && wsState == Open {
        sent := sent + [CandidateRequest(candidate.value)];
      }
    }

    /**
     * `pc.onconnectionstatechange`, with `state` the value of
     * `this.pc.connectionState`: `connected` and `failed` are reported;
     * `failed` does not clear `pc`. With `pc` already null the read throws.
     */
    method OnConnectionStateChange(state: string)
      modifies this`statuses
      ensures statuses == old(statuses) +
        (if pc.Some? && state == "connected" then [Connected]
         else if pc.Some? && state == "failed" then [Error]
         else [])
    {
      if pc.Some? {
        if state == "connected" {
          statuses := statuses + [Connected];
        } else if state == "failed" {
          statuses := statuses + [Error];
        }
      }
    }

    /** `pc.ontrack`: the first stream of the event, if any, becomes `stream`. */
    method OnTrack(streams: seq<MediaStream>)
      modifies this`stream
      ensures stream == if streams != [] then Some(streams[0]) else old(stream)
    {
      if streams != [] {
        stream := Some(streams[0]);
      }
    }

    /**
     * `disconnect`: the peer connection and the socket are closed if
     * present, and `pc`, `ws` and `stream` all end null, so a second call
     * closes nothing more.
     */
    method Disconnect()
      modifies this
      ensures pc == None && ws == None && stream == None && wsState == Closed
      ensures closedPeers == old(closedPeers) + (if old(pc).Some? then [old(pc).value] else [])
      ensures closedSockets == old(closedSockets) + (if old(ws).Some? then [old(ws).value] else [])
      ensures clientId == old(clientId) && sent == old(sent) && statuses == old(statuses)
    {
      if pc.Some? {
        closedPeers := closedPeers + [pc.value];
        pc := None;
      }
      if ws.Some? {
        closedSockets := closedSockets + [ws.value];
        ws := None;
      }
      stream := None;
      wsState := Closed;
    }

    /** Two calls of `disconnect`: the second has no further effect. */
    method DisconnectTwice()
      modifies this
      ensures pc == None && ws == None && stream == None
      ensures closedPeers == old(closedPeers) + (if old(pc).Some? then [old(pc).value] else [])
      ensures closedSockets == old(closedSockets) + (if old(ws).Some? then [old(ws).value] else [])
    {
      Disconnect();
      Disconnect();
    }
  }
}
