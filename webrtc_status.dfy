/** The progress enum of the live-camera WebRTC hook and its status-to-message table
    (src/app/camera-rpi-live/useWebRTC.ts:9-34). */
module WebRtcStatus {

  /** `WebRTCProgressState`: the seven progress values. */
  datatype ProgressState =
    | NotStarted
    | LoadingTurnAndStun
    | Gathering
    | OfferSent
    | AnswerReceived
    | Streaming
    | Stopped

  /** `WebRTCStatusToMessage`: a total table, one fixed message per progress value. */
  function StatusMessage(s: ProgressState): string
  {
    match s
    case NotStarted => "WebRTC not started"
    case LoadingTurnAndStun => "Loading TURN and STUN servers list"
    case Gathering => "Gathering all available candidates to choose best streaming channel"
    case OfferSent => "Offer sent to Pi, waiting for answer"
    case AnswerReceived => "Answer received from Pi, starting streaming"
    case Streaming => "Streaming in progress"
    case Stopped => "WebRTC stopped"
  }

  /** Distinct progress values show distinct messages, so the message shown identifies
      the progress value. */
  lemma StatusMessageInjective()
    ensures forall a, b :: StatusMessage(a) == StatusMessage(b) ==> a == b
  {
  }
}
