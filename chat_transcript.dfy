/** The AI chat page's transcript rules (frontend/src/app/ai-chat/page.tsx:11-70): the
    socket response effect, submitting the input, and the Enter key. */
module ChatTranscript {

  /** `{ user, msg }`: `user` is `'User'` or `'Bot'`. */
  datatype Message = Message(user: string, msg: string)

  /** The characters `String.prototype.trim` removes: ECMAScript white space and line
      terminators. */
  predicate IsJsWhitespace(c: char)
  {
    c in {'\t', '\n', '\U{000B}', '\U{000C}', '\r', ' ', '\U{00A0}', '\U{1680}',
          '\U{2000}', '\U{2001}', '\U{2002}', '\U{2003}', '\U{2004}', '\U{2005}', '\U{2006}',
          '\U{2007}', '\U{2008}', '\U{2009}', '\U{200A}', '\U{2028}', '\U{2029}', '\U{202F}',
          '\U{205F}', '\U{3000}', '\U{FEFF}'}
  }

  predicate IsBlank(s: string)
  {
    forall k :: 0 <= k < |s| ==> IsJsWhitespace(s[k])
  }

  function TrimStart(s: string): string
  {
    if |s| > 0 && IsJsWhitespace(s[0]) then TrimStart(s[1..]) else s
  }

  function TrimEnd(s: string): string
  {
    if |s| > 0 && IsJsWhitespace(s[|s| - 1]) then TrimEnd(s[..|s| - 1]) else s
  }

  /** `s.trim()` */
  function Trim(s: string): string
  {
    TrimEnd(TrimStart(s))
  }

  lemma {:induction false} TrimStartBlank(s: string)
    ensures TrimStart(s) == [] <==> IsBlank(s)
    ensures TrimStart(s) != [] ==> !IsJsWhitespace(TrimStart(s)[0])
  {
    if |s| > 0 && IsJsWhitespace(s[0]) {
      TrimStartBlank(s[1..]);
      assert IsBlank(s) <==> IsBlank(s[1..]) by {
        if IsBlank(s[1..]) {
          forall k | 0 <= k < |s| ensures IsJsWhitespace(s[k]) {
            if k > 0 { assert s[k] == s[1..][k - 1]; }
          }
        }
        if IsBlank(s) {
          forall k | 0 <= k < |s[1..]| ensures IsJsWhitespace(s[1..][k]) {
            assert s[1..][k] == s[k + 1];
          }
        }
      }
    } else if |s| > 0 {
      assert !IsJsWhitespace(s[0]);
    }
  }

  lemma {:induction false} TrimEndKeepsFirst(s: string)
    requires |s| > 0 && !IsJsWhitespace(s[0])
    ensures |TrimEnd(s)| > 0 && TrimEnd(s)[0] == s[0]
  {
    if IsJsWhitespace(s[|s| - 1]) {
      TrimEndKeepsFirst(s[..|s| - 1]);
    }
  }

  /** `input.trim()` is falsy exactly when the input is empty or white space only. */
  lemma TrimEmptyIffBlank(s: string)
    ensures Trim(s) == "" <==> IsBlank(s)
  {
    TrimStartBlank(s);
    if TrimStart(s) != [] {
      TrimEndKeepsFirst(TrimStart(s));
    }
  }

  predicate LastIsBot(messages: seq<Message>)
  {
    |messages| > 0 && messages[|messages| - 1].user == "Bot"
  }

  /** The response effect (:19-33). A falsy (empty) response changes nothing. Otherwise
      the last message becomes the bot's message carrying the response: the bot's last
      message is overwritten in place (same length), any other ending gets a new bot message
      appended. Earlier messages are never touched. */
  function WithResponse(messages: seq<Message>, response: string): (r: seq<Message>)
    ensures response == "" ==> r == messages
    ensures response != "" ==> |r| > 0 && r[|r| - 1] == Message("Bot", response)
    ensures response != "" && LastIsBot(messages) ==>
      |r| == |messages| && r[..|r| - 1] == messages[..|messages| - 1]
    ensures response != "" && !LastIsBot(messages) ==>
      |r| == |messages| + 1 && r[..|r| - 1] == messages
  {
    if response == "" then messages
    else if LastIsBot(messages) then messages[|messages| - 1 := messages[|messages| - 1].(msg := response)]
    else messages + [Message("Bot", response)]
  }

  /** The transcript after a series of socket responses. */
  function AfterResponses(messages: seq<Message>, responses: seq<string>): seq<Message>
    decreases |responses|
  {
    if responses == [] then messages else AfterResponses(WithResponse(messages, responses[0]), responses[1..])
  }

  /** However many non-empty responses arrive in a row, the transcript gains at most one
      bot message, and it holds the latest response. */
  lemma {:induction false} StreamedReplyIsOneMessage(messages: seq<Message>, responses: seq<string>)
    requires |responses| > 0
    requires forall k :: 0 <= k < |responses| ==> responses[k] != ""
    decreases |responses|
    ensures AfterResponses(messages, responses)
      == (if LastIsBot(messages) then messages[..|messages| - 1] else messages)
         + [Message("Bot", responses[|responses| - 1])]
  {
    var next := WithResponse(messages, responses[0]);
    var kept := if LastIsBot(messages) then messages[..|messages| - 1] else messages;
    assert next == kept + [Message("Bot", responses[0])];
    if |responses| > 1 {
      StreamedReplyIsOneMessage(next, responses[1..]);
      assert LastIsBot(next) && next[..|next| - 1] == kept;
    }
  }

  /** The chat page: its transcript, its input field and the socket's outgoing messages. */
  class ChatPage {
    var messages: seq<Message>
    var input: string
    /** the texts handed to `sendMessage`, in order */
    var outbox: seq<string>

    constructor ()
      ensures messages == [] && input == "" && outbox == []
    {
      messages := [];
      input := "";
      outbox := [];
    }

    /** `handleChange` (:36-38) */
    method HandleChange(value: string)
      modifies this
      ensures input == value && messages == old(messages) && outbox == old(outbox)
    {
      input := value;
    }

    /** A new `response` from the socket (:19-33). */
    method ReceiveResponse(response: string)
      modifies this
      ensures messages == WithResponse(old(messages), response)
      ensures input == old(input) && outbox == old(outbox)
    {
      if response != "" {
        var prevMessages := messages;
        if LastIsBot(prevMessages) {
          var lastMessage := prevMessages[|prevMessages| - 1];
          messages := prevMessages[|prevMessages| - 1 := lastMessage.(msg := response)];
        } else {
          messages := prevMessages + [Message("Bot", response)];
        }
      }
    }

    /** `handleSubmit` (:41-51): a blank input changes nothing; any other input is appended
        as the user's message exactly as typed (untrimmed), the field is cleared, and the
        text goes out on the socket only when it is open. */
    method HandleSubmit(isOpen: bool)
      modifies this
      ensures Trim(old(input)) == "" ==>
        messages == old(messages) && input == old(input) && outbox == old(outbox)
      ensures Trim(old(input)) != "" ==>
        && messages == old(messages) + [Message("User", old(input))]
        && input == ""
        && outbox == old(outbox) + (if isOpen then [old(input)] else [])
    {
      if Trim(input) != "" {
        var userMessage := Message("User", input);
        var sent := input;
        messages := messages + [userMessage];
        input := "";
        if isOpen {
          outbox := outbox + [sent];
        }
      }
    }

    /** `handleKeyDown` (:65-70): Enter without Shift prevents the newline and submits; any
        other key, or Shift+Enter, does nothing. */
    method HandleKeyDown(key: string, shiftKey: bool, isOpen: bool) returns (preventDefault: bool)
      modifies this
      ensures preventDefault <==> key == "Enter" && !shiftKey
      ensures !preventDefault ==>
        messages == old(messages) && input == old(input) && outbox == old(outbox)
      ensures preventDefault && Trim(old(input)) == "" ==>
        messages == old(messages) && input == old(input) && outbox == old(outbox)
      ensures preventDefault && Trim(old(input)) != "" ==>
        && messages == old(messages) + [Message("User", old(input))]
        && input == ""
        && outbox == old(outbox) + (if isOpen then [old(input)] else [])
    {
      preventDefault := key == "Enter" && !shiftKey;
      if preventDefault {
        HandleSubmit(isOpen);
      }
    }
  }
}
