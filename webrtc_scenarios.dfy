/** Runs of the live-camera controller, each driving a freshly mounted hook through one
    order of events and stating what the hook ends with. */
module WebRtcScenarios {
  import opened Wrappers
  import opened WebRtcStatus
  import opened SdpCandidates
  import opened WebRtcSession

  /** The candidates carried by a series of `icecandidate` events, in arrival order. */
  function Present(events: seq<Option<IceCandidate>>): (r: seq<IceCandidate>)
    ensures |r| <= |events|
  {
    if |events| == 0 then []
    else Present(events[..|events| - 1]) + (if events[|events| - 1].Some? then [events[|events| - 1].value] else [])
  }

  /** A present candidate is kept and an absent one skipped, nothing else enters the list,
      and arrival order is preserved. */
  lemma {:induction false} PresentKeepsEveryCandidate(events: seq<Option<IceCandidate>>)
    ensures forall c :: c in Present(events) <==> Some(c) in events
    ensures (forall k :: 0 <= k < |events| ==> events[k].Some?) ==> |Present(events)| == |events|
  {
    if |events| > 0 {
      var init := events[..|events| - 1];
      PresentKeepsEveryCandidate(init);
      assert events == init + [events[|events| - 1]];
      forall c ensures Some(c) in events <==> Some(c) in init || Some(c) == events[|events| - 1] {
      }
    }
  }

  /** A complete run: start, credentials, offer, the given candidate events, gathering
      complete, answer, track. The status passes through every progress value in order, the
      relay receives the credentials request and then exactly one offer, the connection's
      local description as set before gathering; the present candidates are folded, in
      order, into the local offer only; the answer is applied and the stream attached. */
  method SuccessfulSession(
    turnCredentials: seq<IceServer>, offerSdp: string, events: seq<Option<IceCandidate>>,
    webrtcAnswer: string, stream: MediaStream)
    returns (statuses: seq<ProgressState>, sent: seq<RelayRequest>, folded: string,
             remote: Option<SessionDescription>, attached: Option<MediaStream>, loading: bool, streaming: bool)
    ensures statuses == [NotStarted, LoadingTurnAndStun, Gathering, OfferSent, AnswerReceived, Streaming]
    ensures sent == [TurnCredentials, StartWebRtc(SessionDescription(Offer, offerSdp))]
    ensures folded == offerSdp + CandidateSuffix(Present(events))
    ensures remote == Some(SessionDescription(Answer, webrtcAnswer))
    ensures attached == Some(stream)
    ensures !loading && streaming
  {
    var sink := new VideoSink();
    var c := new Controller(sink);
    statuses := [c.state.status];
    c.Start();
    statuses := statuses + [c.state.status];
    c.CredentialsReceived(0, IceServerList(turnCredentials));
    statuses := statuses + [c.state.status];
    var conn := c.pc;
    c.OfferCreated(0, offerSdp);
    var offer := SessionDescription(Offer, offerSdp);
    for k := 0 to |events|
      invariant c.Valid() && c.pc == conn && !conn.closed && conn in c.created
      invariant conn.localDescription == Some(offer) && conn.remoteDescription == None
      invariant c.sequences == [AwaitingGathering(conn, offer, Present(events[..k]))]
      invariant c.state == UiState(true, false, Gathering)
      invariant c.requests == [TurnCredentials]
      invariant sink.srcObject == None
    {
      assert events[..k + 1][..k] == events[..k];
      assert Present(events[..k + 1])
        == Present(events[..k]) + (if events[k].Some? then [events[k].value] else []);
      c.CandidateEvent(0, events[k]);
      assert |c.sequences| == 1;
      assert c.sequences[0] == AwaitingGathering(conn, offer, Present(events[..k + 1]));
    }
    assert events[..|events|] == events;
    c.GatheringStateChanged(0, GatheringComplete);
    statuses := statuses + [c.state.status];
    folded := c.sequences[0].folded.sdp;
    c.HandleAnswer(0, webrtcAnswer);
    statuses := statuses + [c.state.status];
    c.TrackArrived(conn, [stream]);
    statuses := statuses + [c.state.status];
    sent := c.requests;
    remote := conn.remoteDescription;
    attached := sink.srcObject;
    loading, streaming := c.state.isLoading, c.state.isStreaming;
  }

  /** The relay answers the credentials request with an error object. The status moves to
      `Gathering`, then the connection constructor throws: the hook stays loading in
      `Gathering` with no connection and nothing more is sent. */
  method CredentialsErrorLeavesGathering()
    returns (status: ProgressState, loading: bool, streaming: bool, held: bool, sent: seq<RelayRequest>)
    ensures status == Gathering && loading && !streaming
    ensures !held
    ensures sent == [TurnCredentials]
  {
    var c := new Controller(null);
    c.Start();
    c.CredentialsReceived(0, NotAList);
    status, loading, streaming := c.state.status, c.state.isLoading, c.state.isStreaming;
    held := c.pc != null;
    sent := c.requests;
  }

  /** Stop while the credentials are in flight: the hook shows `Stopped`, but the start
      sequence is not cancelled, so when the credentials arrive the status goes back to
      `Gathering` and a new open connection is held again. */
  method StopWhileFetchingCredentials(turnCredentials: seq<IceServer>)
    returns (afterStop: ProgressState, afterCredentials: ProgressState, held: bool, open: bool,
             sent: seq<RelayRequest>)
    ensures afterStop == Stopped
    ensures afterCredentials == Gathering && held && open
    ensures sent == [TurnCredentials, StopWebRtc]
  {
    var c := new Controller(null);
    c.Start();
    c.Stop(true);
    afterStop := c.state.status;
    c.CredentialsReceived(0, IceServerList(turnCredentials));
    afterCredentials := c.state.status;
    held := c.pc != null;
    open := held && !c.pc.closed;
    sent := c.requests;
  }

  /** Stop while the offer is at the relay: the late answer still moves the status to
      `AnswerReceived` (the flags stay off), but it is applied to no connection, because the
      null check on the held connection is the only protection. */
  method AnswerAfterStop(turnCredentials: seq<IceServer>, offerSdp: string, webrtcAnswer: string)
    returns (status: ProgressState, loading: bool, streaming: bool, remote: Option<SessionDescription>,
             closed: bool, held: bool)
    ensures status == AnswerReceived && !loading && !streaming
    ensures remote == None && closed && !held
  {
    var c := new Controller(null);
    c.Start();
    c.CredentialsReceived(0, IceServerList(turnCredentials));
    var conn := c.pc;
    c.OfferCreated(0, offerSdp);
    c.GatheringStateChanged(0, GatheringComplete);
    c.Stop(true);
    c.HandleAnswer(0, webrtcAnswer);
    status, loading, streaming := c.state.status, c.state.isLoading, c.state.isStreaming;
    remote, closed, held := conn.remoteDescription, conn.closed, c.pc != null;
  }

  /** Starting twice: the second connection replaces the first in `pcRef`, and the first is
      never closed, neither then nor by a later stop. */
  method StartTwice(first: seq<IceServer>, second: seq<IceServer>)
    returns (firstOpenAfterStop: bool, secondClosedAfterStop: bool)
    ensures firstOpenAfterStop && secondClosedAfterStop
  {
    var c := new Controller(null);
    c.Start();
    c.Start();
    c.CredentialsReceived(0, IceServerList(first));
    var a := c.pc;
    c.CredentialsReceived(1, IceServerList(second));
    var b := c.pc;
    c.Stop(true);
    firstOpenAfterStop := !a.closed;
    secondClosedAfterStop := b.closed;
  }

  /** Stopping twice from any state: the second call ends in the same state as the first,
      yet it sends a second stop request. */
  method StopTwice(c: Controller)
    returns (first: UiState, second: UiState)
    requires c.Valid()
    modifies c, c.pc, c.sink
    ensures first == second == UiState(false, false, Stopped)
    ensures c.pc == null && (c.sink != null ==> c.sink.srcObject == None)
    ensures c.requests == old(c.requests) + [StopWebRtc, StopWebRtc]
  {
    c.Stop(true);
    first := c.state;
    c.Stop(true);
    second := c.state;
  }
}
