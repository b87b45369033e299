/** The live-camera WebRTC session controller (`useWebRTC`,
    src/app/camera-rpi-live/useWebRTC.ts:36-236), one method per event.

    The hook's state is the record `{isLoading, isStreaming, status}`, the connection
    reference `pcRef`, the video element behind `videoRef` and, per call of `startWebRTC`,
    the suspended continuation of that call together with its local candidate list.
    Every call of `startWebRTC` is a start sequence: `Start` opens one, and the events that
    resume it name it by its index in `sequences`. No sequence is ever cancelled. */
module WebRtcSession {
  import opened Wrappers
  import opened WebRtcStatus
  import opened SdpCandidates

  /** One entry of the TURN/STUN list returned by the relay. */
  datatype IceServer = IceServer(urls: seq<string>, username: Option<string>, credential: Option<string>)

  datatype SdpType = Offer | Answer

  /** `RTCSessionDescriptionInit`: a type and an SDP body. */
  datatype SessionDescription = SessionDescription(kind: SdpType, sdp: string)

  /** `RTCIceGatheringState` */
  datatype IceGatheringState = GatheringNew | GatheringInProgress | GatheringComplete

  datatype MediaKind = Audio | Video

  datatype Direction = SendRecv | SendOnly | RecvOnly | Inactive

  datatype Transceiver = Transceiver(kind: MediaKind, direction: Direction)

  /** A remote media stream, known by its identity only. */
  datatype MediaStream = MediaStream(id: string)

  /** The parsed body of the TURN credentials response (:91). The hook never checks
      `response.ok`, so an error reply of the relay reaches the connection constructor too. */
  datatype CredentialsBody =
    | IceServerList(servers: seq<IceServer>)
      // a JSON array of ICE servers
    | NotAList
      // any other JSON value, such as the relay's `{ error }` object: `RTCPeerConnection`
      // cannot read it as a server sequence and throws a TypeError

  /** The requests the hook sends to the signalling relay. */
  datatype RelayRequest =
    | TurnCredentials                          // GET /api/turn-credentials
    | StartWebRtc(offer: SessionDescription)   // POST /api/start-webrtc, body = the offer
    | StopWebRtc                               // GET /api/stop-webrtc

  /** `UseWebRTCState` */
  datatype UiState = UiState(isLoading: bool, isStreaming: bool, status: ProgressState)

  /** Where the continuation of one `startWebRTC` call is suspended. */
  datatype StartSequence =
    | AwaitingCredentials
      // the TURN credentials request is in flight (:84-91)
    | AwaitingOffer(conn: PeerConnection)
      // the connection exists; `createOffer`/`setLocalDescription` are pending (:155-157)
    | AwaitingGathering(conn: PeerConnection, offer: SessionDescription, candidates: seq<IceCandidate>)
      // waiting for gathering to complete (:176); `candidates` is the local `iceCandidates`
    | AwaitingAnswer(folded: SessionDescription, submitted: SessionDescription)
      // `sendOffer` waits for the relay (:53-63); `folded` is the local `offer` after :177,
      // `submitted` the request body taken from `peerConnection.localDescription` (:182)
    | Finished
      // `handleAnswer` ran (:64)
    | Abandoned
      // an awaited step rejected; the rejection is unhandled and the call ends there

  /** The browser's `RTCPeerConnection`, reduced to what the hook touches. */
  class PeerConnection {
    const iceServers: seq<IceServer>
    var transceivers: seq<Transceiver>
    var localDescription: Option<SessionDescription>
    var remoteDescription: Option<SessionDescription>
    var closed: bool

    constructor (servers: seq<IceServer>)
      ensures iceServers == servers && transceivers == []
      ensures localDescription == None && remoteDescription == None && !closed
    {
      iceServers := servers;
      transceivers := [];
      localDescription := None;
      remoteDescription := None;
      closed := false;
    }
  }

  /** The `<video>` element behind `videoRef.current`; `srcObject == None` is `null`. */
  class VideoSink {
    var srcObject: Option<MediaStream>
    var muted: bool

    constructor ()
      ensures srcObject == None && !muted
    {
      srcObject := None;
      muted := false;
    }
  }

  class Controller {
    /** `state` (:38-42) */
    var state: UiState
    /** `pcRef.current` (:37) */
    var pc: PeerConnection?
    /** `videoRef.current` */
    const sink: VideoSink?
    /** one entry per `startWebRTC` call, in call order */
    var sequences: seq<StartSequence>
    /** every request sent to the relay, in order */
    var requests: seq<RelayRequest>
    /** every connection this hook has created */
    ghost var created: set<PeerConnection>

    /** The held connection is never a closed one: the only `close()` (:187) is
        immediately followed by dropping the reference (:188). */
    ghost predicate Valid()
      reads this, pc
    {
      pc != null ==> !pc.closed
    }

    /** Mounting the hook (:37-42). */
    constructor (sink: VideoSink?)
      ensures Valid()
      ensures this.sink == sink
      ensures state == UiState(false, false, NotStarted)
      ensures pc == null && sequences == [] && requests == [] && created == {}
    {
      this.sink := sink;
      state := UiState(false, false, NotStarted);
      pc := null;
      sequences := [];
      requests := [];
      created := {};
    }

    /** `loadingMessage` (:234): the table entry for the current status, and only that
        status shows this message. */
    function LoadingMessage(): (m: string)
      reads this
      ensures forall s :: StatusMessage(s) == m <==> s == state.status
    {
      StatusMessageInjective();
      StatusMessage(state.status)
    }

    /** `startWebRTC` up to the credentials response (:76-91): loading state, credentials
        requested. The `getToken` await that precedes the request (:84) is folded into this
        step. Nothing guards against a running session and the held connection is left
        alone. */
    method Start()
      requires Valid()
      modifies this
      ensures Valid()
      ensures state == UiState(true, false, LoadingTurnAndStun)
      ensures sequences == old(sequences) + [AwaitingCredentials]
      ensures requests == old(requests) + [TurnCredentials]
      ensures pc == old(pc) && created == old(created)
    {
      state := UiState(true, false, LoadingTurnAndStun);
      sequences := sequences + [AwaitingCredentials];
      requests := requests + [TurnCredentials];
    }

    /** The credentials body of sequence `i` arrives (:91-150). The status becomes `Gathering`
        in every case. A server list configures a new connection, which replaces `pcRef`
        without the previous one being closed and gets a receive-only video transceiver. Any
        other body makes the connection constructor throw (:98): the call ends there with no
        connection created, `pcRef` as it was and the hook left loading in `Gathering`. */
    method CredentialsReceived(i: nat, body: CredentialsBody)
      requires Valid()
      requires i < |sequences| && sequences[i] == AwaitingCredentials
      modifies this
      ensures Valid()
      ensures state == old(state).(status := Gathering)
      ensures requests == old(requests)
      ensures old(pc) != null ==> !old(pc).closed
      ensures body.NotAList? ==>
        && pc == old(pc) && created == old(created)
        && sequences == old(sequences)[i := Abandoned]
      ensures body.IceServerList? ==>
        && pc != null && fresh(pc)
        && pc.iceServers == body.servers && pc.transceivers == [Transceiver(Video, RecvOnly)]
        && pc.localDescription == None && pc.remoteDescription == None && !pc.closed
        && created == old(created) + {pc}
        && sequences == old(sequences)[i := AwaitingOffer(pc)]
    {
      state := state.(status := Gathering);
      match body
      case NotAList =>
        sequences := sequences[i := Abandoned];
      case IceServerList(servers) =>
        var peerConnection := new PeerConnection(servers);
        pc := peerConnection;
        created := created + {peerConnection};
        peerConnection.transceivers := peerConnection.transceivers + [Transceiver(Video, RecvOnly)];
        sequences := sequences[i := AwaitingOffer(peerConnection)];
    }

    /** The browser produced offer `sdp` for sequence `i` and it became the connection's
        local description (:155-157). */
    method OfferCreated(i: nat, sdp: string)
      requires Valid()
      requires i < |sequences| && sequences[i].AwaitingOffer? && !sequences[i].conn.closed
      modifies this, sequences[i].conn
      ensures Valid()
      ensures var conn := old(sequences[i].conn);
        && conn.localDescription == Some(SessionDescription(Offer, sdp))
        && conn.remoteDescription == old(conn.remoteDescription)
        && conn.transceivers == old(conn.transceivers)
        && !conn.closed
        && sequences == old(sequences)[i := AwaitingGathering(conn, SessionDescription(Offer, sdp), [])]
      ensures state == old(state) && pc == old(pc) && requests == old(requests)
      ensures created == old(created)
    {
      var conn := sequences[i].conn;
      var offer := SessionDescription(Offer, sdp);
      conn.localDescription := Some(offer);
      sequences := sequences[i := AwaitingGathering(conn, offer, [])];
    }

    /** `onicecandidate` of sequence `i`'s connection (:117-122): a present candidate is
        appended to that sequence's list; an event without one changes nothing. */
    method CandidateEvent(i: nat, candidate: Option<IceCandidate>)
      requires Valid()
      requires i < |sequences| && sequences[i].AwaitingGathering? && !sequences[i].conn.closed
      modifies this
      ensures Valid()
      ensures candidate.None? ==> sequences == old(sequences)
      ensures candidate.Some? ==>
        sequences == old(sequences)[i := old(sequences[i]).(candidates := old(sequences[i].candidates) + [candidate.value])]
      ensures state == old(state) && pc == old(pc) && requests == old(requests)
      ensures created == old(created)
    {
      if candidate.Some? {
        var s := sequences[i];
        sequences := sequences[i := s.(candidates := s.candidates + [candidate.value])];
      }
    }

    /** `onicegatheringstatechange` of sequence `i`'s connection (:107-114, 176-182, 44-61).
        Only `complete` resumes the sequence: the candidate lines are appended to the local
        offer, status becomes `OfferSent`, and then the connection's local description is
        sent to the relay. Any other gathering state changes nothing. */
    method GatheringStateChanged(i: nat, gathering: IceGatheringState)
      requires Valid()
      requires i < |sequences| && sequences[i].AwaitingGathering? && !sequences[i].conn.closed
      requires sequences[i].conn.localDescription.Some?
      modifies this
      ensures Valid()
      ensures gathering != GatheringComplete ==>
        state == old(state) && sequences == old(sequences) && requests == old(requests)
      ensures gathering == GatheringComplete ==>
        var s := old(sequences[i]);
        var folded := s.offer.(sdp := s.offer.sdp + CandidateSuffix(s.candidates));
        && state == old(state).(status := OfferSent)
        && sequences == old(sequences)[i := AwaitingAnswer(folded, s.conn.localDescription.value)]
        && requests == old(requests) + [StartWebRtc(s.conn.localDescription.value)]
      ensures pc == old(pc) && created == old(created)
    {
      if gathering == GatheringComplete {
        var s := sequences[i];
        var offer := s.offer.(sdp := s.offer.sdp + CandidateSuffix(s.candidates));
        var submitted := s.conn.localDescription.value;
        state := state.(status := OfferSent);
        requests := requests + [StartWebRtc(submitted)];
        sequences := sequences[i := AwaitingAnswer(offer, submitted)];
      }
    }

    /** The relay answered sequence `i` with `webrtcAnswer` (:63-73). The status becomes
        `AnswerReceived` in every case; the answer is applied only if a connection is held
        at that moment, and then to whichever connection that is. */
    method HandleAnswer(i: nat, webrtcAnswer: string)
      requires Valid()
      requires i < |sequences| && sequences[i].AwaitingAnswer?
      modifies this, pc
      ensures Valid()
      ensures state == old(state).(status := AnswerReceived)
      ensures pc == old(pc)
      ensures pc != null ==>
        && pc.remoteDescription == Some(SessionDescription(Answer, webrtcAnswer))
        && pc.localDescription == old(pc.localDescription)
        && pc.transceivers == old(pc.transceivers)
        && !pc.closed
      ensures sequences == old(sequences)[i := Finished]
      ensures requests == old(requests) && created == old(created)
    {
      var answer := SessionDescription(Answer, webrtcAnswer);
      state := state.(status := AnswerReceived);
      if pc != null {
        pc.remoteDescription := Some(answer);
      }
      sequences := sequences[i := Finished];
    }

    /** `ontrack` of `conn` (:124-147): streaming state; the first stream of the event is
        attached and the sink muted when a sink exists and its source differs from that
        stream (an event without streams always clears it). Only a connection the hook
        created has the handler, a closed connection fires no events, and W3C WebRTC 1.0 fires
        track events only while it applies a remote description. */
    method TrackArrived(conn: PeerConnection, streams: seq<MediaStream>)
      requires Valid()
      requires conn in created && !conn.closed && conn.remoteDescription.Some?
      modifies this, sink
      ensures Valid()
      ensures state == UiState(false, true, Streaming)
      ensures sink != null ==>
        var incoming := if |streams| == 0 then None else Some(streams[0]);
        if incoming.None? || old(sink.srcObject) != incoming
        then sink.srcObject == incoming && sink.muted
        else sink.srcObject == old(sink.srcObject) && sink.muted == old(sink.muted)
      ensures pc == old(pc) && sequences == old(sequences) && requests == old(requests)
      ensures created == old(created)
    {
      state := state.(status := Streaming, isLoading := false, isStreaming := true);
      var stream := if |streams| == 0 then None else Some(streams[0]);
      if sink != null && (stream.None? || sink.srcObject != stream) {
        sink.srcObject := stream;
        sink.muted := true;
      }
    }

    /** An awaited step of sequence `i` rejected (a failed request, an unreadable body, or an
        offer requested from a closed connection): the call ends with an unhandled
        rejection and nothing else changes, so the status stays where it was. */
    method Reject(i: nat)
      requires Valid()
      requires i < |sequences|
      requires sequences[i].AwaitingCredentials? || sequences[i].AwaitingOffer? || sequences[i].AwaitingAnswer?
      modifies this
      ensures Valid()
      ensures sequences == old(sequences)[i := Abandoned]
      ensures state == old(state) && pc == old(pc) && requests == old(requests)
      ensures created == old(created)
    {
      sequences := sequences[i := Abandoned];
    }

    /** `stopWebRTC` (:185-208), the path of the stop button, of unmounting and of page
        unload. It closes and drops the held connection, clears the sink and always sends the
        stop request; the stopped state is set only if that request completes
        (`completed == false` is a rejected request, which skips :203-208). Start sequences
        in flight are not cancelled. */
    method Stop(completed: bool)
      requires Valid()
      modifies this, pc, sink
      ensures Valid()
      ensures pc == null
      ensures old(pc) != null ==>
        && old(pc).closed
        && old(pc).localDescription == old(pc.localDescription)
        && old(pc).remoteDescription == old(pc.remoteDescription)
        && old(pc).transceivers == old(pc.transceivers)
      ensures sink != null ==> sink.srcObject == None && sink.muted == old(sink.muted)
      ensures requests == old(requests) + [StopWebRtc]
      ensures state == if completed then UiState(false, false, Stopped) else old(state)
      ensures sequences == old(sequences) && created == old(created)
    {
      if pc != null {
        pc.closed := true;
        pc := null;
      }
      if sink != null {
        sink.srcObject := None;
      }
      requests := requests + [StopWebRtc];
      if completed {
        state := state.(isLoading := false, isStreaming := false, status := Stopped);
      }
    }
  }
}
