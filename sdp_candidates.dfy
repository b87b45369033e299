/** The one string transformation of the live-camera hook: gathered ICE candidates are
    folded into the offer SDP as `a=<candidate>` attribute lines (section 5.1 of RFC 8839),
    joined by CRLF and terminated by CRLF (section 5 of RFC 8866)
    (src/app/camera-rpi-live/useWebRTC.ts:177). */
module SdpCandidates {
  import opened Wrappers

  /** A gathered candidate as `RTCIceCandidate.toJSON()` returns it. Only `candidate`
      reaches the SDP text. */
  datatype IceCandidate = IceCandidate(
    candidate: string,
    sdpMid: Option<string>,
    sdpMLineIndex: Option<nat>,
    usernameFragment: Option<string>)

  const Crlf: string := "\r\n"

  /** `` `a=${candidate.candidate}` `` */
  function AttributeLine(c: IceCandidate): string
  {
    "a=" + c.candidate
  }

  /** `iceCandidates.map(...)` */
  function AttributeLines(cs: seq<IceCandidate>): seq<string>
  {
    seq(|cs|, k requires 0 <= k < |cs| => AttributeLine(cs[k]))
  }

  /** `lines.join('\r\n')`: separators between lines, none after the last one. */
  function JoinCrlf(lines: seq<string>): string
  {
    if |lines| == 0 then ""
    else if |lines| == 1 then lines[0]
    else lines[0] + Crlf + JoinCrlf(lines[1..])
  }

  /** The text appended to `offer.sdp` once gathering is complete. */
  function CandidateSuffix(cs: seq<IceCandidate>): string
  {
    JoinCrlf(AttributeLines(cs)) + Crlf
  }

  /** Reference form of an SDP fragment: every line followed by its own CRLF. */
  function TerminatedLines(lines: seq<string>): string
  {
    if |lines| == 0 then "" else lines[0] + Crlf + TerminatedLines(lines[1..])
  }

  /** Joining with CRLF and then adding one CRLF is the same as terminating every line,
      as soon as there is at least one line. */
  lemma {:induction false} JoinThenTerminate(lines: seq<string>)
    requires |lines| > 0
    ensures JoinCrlf(lines) + Crlf == TerminatedLines(lines)
  {
    if |lines| > 1 {
      JoinThenTerminate(lines[1..]);
    }
  }

  /** The suffix holds one `a=` line per candidate, in arrival order, each terminated by CRLF;
      with no candidate it is a single CRLF, which adds one blank line to the SDP. */
  lemma CandidateSuffixShape(cs: seq<IceCandidate>)
    ensures cs == [] ==> CandidateSuffix(cs) == Crlf
    ensures cs != [] ==> CandidateSuffix(cs) == TerminatedLines(AttributeLines(cs))
    ensures forall k :: 0 <= k < |cs| ==> AttributeLines(cs)[k] == "a=" + cs[k].candidate
  {
    if cs != [] {
      JoinThenTerminate(AttributeLines(cs));
    }
  }

  /** Position of the first CRLF in `s`, if any. */
  function FirstCrlf(s: string): (r: Option<nat>)
    ensures r.Some? ==> r.value + 2 <= |s| && s[r.value] == '\r' && s[r.value + 1] == '\n'
  {
    if |s| < 2 then None
    else if s[0] == '\r' && s[1] == '\n' then Some(0)
    else match FirstCrlf(s[1..])
      case None => None
      case Some(k) => Some(k + 1)
  }

  /** Splits a CRLF-terminated text into its lines; `None` when the text does not end with CRLF. */
  function SplitLines(s: string): Option<seq<string>>
    decreases |s|
  {
    if s == [] then Some([])
    else match FirstCrlf(s)
      case None => None
      case Some(k) =>
        match SplitLines(s[k + 2..])
        case None => None
        case Some(rest) => Some([s[..k]] + rest)
  }

  /** A line with no carriage return ends at the CRLF that follows it. */
  lemma {:induction false} FirstCrlfAfterLine(line: string, rest: string)
    requires '\r' !in line
    ensures FirstCrlf(line + Crlf + rest) == Some(|line|)
  {
    var s := line + Crlf + rest;
    if line != [] {
      assert s[1..] == line[1..] + Crlf + rest;
      FirstCrlfAfterLine(line[1..], rest);
    }
  }

  /** Splitting undoes terminating, for lines without carriage returns. */
  lemma {:induction false} SplitTerminatedLines(lines: seq<string>)
    requires forall k :: 0 <= k < |lines| ==> '\r' !in lines[k]
    ensures SplitLines(TerminatedLines(lines)) == Some(lines)
  {
    if lines != [] {
      var rest := TerminatedLines(lines[1..]);
      FirstCrlfAfterLine(lines[0], rest);
      var s := lines[0] + Crlf + rest;
      assert s[|lines[0]| + 2..] == rest;
      assert s[..|lines[0]|] == lines[0];
      SplitTerminatedLines(lines[1..]);
      assert [lines[0]] + lines[1..] == lines;
    }
  }

  /** Reading the suffix back line by line yields exactly `a=<candidate>` for each
      candidate, in order (one blank line when none was gathered), provided no candidate
      string contains a carriage return. */
  lemma SuffixLines(cs: seq<IceCandidate>)
    requires forall k :: 0 <= k < |cs| ==> '\r' !in cs[k].candidate
    ensures cs == [] ==> SplitLines(CandidateSuffix(cs)) == Some([""])
    ensures cs != [] ==> SplitLines(CandidateSuffix(cs)) == Some(AttributeLines(cs))
  {
    if cs == [] {
      SplitTerminatedLines([""]);
    } else {
      CandidateSuffixShape(cs);
      var lines := AttributeLines(cs);
      forall k | 0 <= k < |lines| ensures '\r' !in lines[k] {
        assert lines[k] == "a=" + cs[k].candidate;
      }
      SplitTerminatedLines(lines);
    }
  }
}
