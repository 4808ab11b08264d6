/**
  The chat page: the two pieces of session state it keeps (the id of the
  current conversation and whether a reply is awaited), as the submit and
  clear handlers change them, and the `HH:MM` stamp shown under each
  message. The page's elements and the `fetch` calls are reduced to their
  outcomes.
 */
module ChatClient {
  import opened JsText

  /** The JSON body of `POST /api/chat`. */
  datatype ChatRequest = ChatRequest(message: string, conversationId: Option<string>)

  /** How the `fetch` of a chat request ended. */
  datatype ChatResponse =
    | Delivered(message: string, conversationId: Option<string>)  // an ok status and a JSON body
    | NotOk(status: int)                                          // `!response.ok`, turned into a thrown error
    | Unreadable                                                  // an ok status whose body is not JSON
    | NetworkError                                                // `fetch` itself rejected

  class ChatPage {
    /** `conversationId`: the server's id for this conversation, `null` before the first reply. */
    var conversationId: Option<string>
    /** `isWaitingForResponse`: a chat request is in flight. */
    var waitingForResponse: bool

    constructor ()
      ensures conversationId == None && !waitingForResponse
    {
      conversationId := None;
      waitingForResponse := false;
    }

    /**
      `handleSubmit` up to its `fetch`: a blank input, or one typed while a
      reply is awaited, sends nothing and changes nothing; otherwise the
      trimmed message goes out with the current id and the page waits.
     */
    method Submit(input: string) returns (request: Option<ChatRequest>)
      modifies this
      ensures var message := Trim(input);
        if message == [] || old(waitingForResponse) then
          && request == None
          && conversationId == old(conversationId)
          && waitingForResponse == old(waitingForResponse)
        else
          && request == Some(ChatRequest(message, old(conversationId)))
          && conversationId == old(conversationId)
          && waitingForResponse
    {
      var message := Trim(input);
      if message == [] || waitingForResponse {
        return None;
      }
      waitingForResponse := true;
      request := Some(ChatRequest(message, conversationId));
    }

    /**
      `handleSubmit` once its `fetch` has settled: a delivered reply makes the
      page adopt the id the server returned; any other outcome keeps the id;
      the `finally` block stops the waiting in every case.
     */
    method Settle(response: ChatResponse)
      modifies this
      ensures !waitingForResponse
      ensures conversationId == if response.Delivered? then response.conversationId else old(conversationId)
    {
      match response {
        case Delivered(_, returned) =>
          conversationId := returned;
        case NotOk(_) =>
        case Unreadable =>
        case NetworkError =>
      }
      waitingForResponse := false;
    }

    /**
      `handleClearChat`: `confirmed` is the user's answer to the dialog and
      `deleteRejected` says whether the `DELETE` request rejected. Returns the
      id a `DELETE` was sent for. The id is dropped unless the user cancels or
      the `DELETE` rejects.
     */
    method ClearChat(confirmed: bool, deleteRejected: bool) returns (deleted: Option<string>)
      modifies this
      ensures deleted == if confirmed && IsTruthy(old(conversationId)) then old(conversationId) else None
      ensures conversationId == if !confirmed || (deleted.Some? && deleteRejected) then old(conversationId) else None
      ensures waitingForResponse == old(waitingForResponse)
    {
      deleted := None;
      if !confirmed {
        return;
      }
      if IsTruthy(conversationId) {
        deleted := conversationId;
        if deleteRejected {
          // the catch block shows an error and leaves the state alone
          return;
        }
      }
      conversationId := None;
    }
  }

  // ---------------------------------------------------------------------------
  // formatTime
  // ---------------------------------------------------------------------------

  /** What `Date.prototype.getHours` can return. */
  type Hour = h: int | 0 <= h < 24

  /** What `Date.prototype.getMinutes` can return. */
  type Minute = m: int | 0 <= m < 60

  /** `n.toString().padStart(2, '0')`. */
  function TwoDigits(n: nat): string
  {
    PadStart(DecimalString(n), 2, '0')
  }

  /** `formatTime(date)`: the hour and the minute, each as two digits, joined by a colon. */
  function FormatTime(hours: Hour, minutes: Minute): (r: string)
    ensures |r| == 5 && r[2] == ':'
    ensures forall k :: 0 <= k < 5 && k != 2 ==> '0' <= r[k] <= '9'
  {
    TwoDigitsChars(hours);
    TwoDigitsChars(minutes);
    var r := TwoDigits(hours) + ":" + TwoDigits(minutes);
    assert r == [DigitChar(hours / 10), DigitChar(hours % 10), ':', DigitChar(minutes / 10), DigitChar(minutes % 10)];
    r
  }

  /** Below 100, padding gives the tens digit (0 for a single digit) and the units digit. */
  lemma TwoDigitsChars(n: nat)
    requires n < 100
    ensures TwoDigits(n) == [DigitChar(n / 10), DigitChar(n % 10)]
  {
    DecimalStringBelow100(n);
    if n < 10 {
      assert DigitChar(0) == '0';
      assert TwoDigits(n) == ['0'] + [DigitChar(n)];
    }
  }

  /** Below 100, the padded digits denote the number itself. */
  lemma TwoDigitsValue(n: nat)
    requires n < 100
    ensures DigitsValue(TwoDigits(n), 10) == n
  {
    TwoDigitsChars(n);
    var t := TwoDigits(n);
    assert t[..1] == [DigitChar(n / 10)] && t[..1][..0] == [];
    assert DigitsValue(t[..1], 10) == n / 10;
  }

  /** `parseInt` reads a padded number below 100 back. */
  lemma TwoDigitsParse(n: nat)
    requires n < 100
    ensures ParseInt(TwoDigits(n)) == Some(n)
  {
    TwoDigitsChars(n);
    ParseIntDigits(TwoDigits(n));
    TwoDigitsValue(n);
  }

  /** The stamp splits at its colon into the padded hour and the padded minute. */
  lemma FormatTimeFields(hours: Hour, minutes: Minute)
    ensures Split(FormatTime(hours, minutes), ':') == [TwoDigits(hours), TwoDigits(minutes)]
  {
    var h := TwoDigits(hours);
    var m := TwoDigits(minutes);
    TwoDigitsChars(hours);
    TwoDigitsChars(minutes);
    assert ':' !in h && ':' !in m;
    assert [h, m][1..] == [m];
    assert FormatTime(hours, minutes) == Join([h, m], ':');
    SplitJoin([h, m], ':');
  }

  /**
    Splitting the stamp at the colon and parsing both fields gives back the
    hour and the minute.
   */
  lemma FormatTimeRoundTrip(hours: Hour, minutes: Minute)
    ensures var fields := Split(FormatTime(hours, minutes), ':');
      |fields| == 2 && ParseInt(fields[0]) == Some(hours) && ParseInt(fields[1]) == Some(minutes)
  {
    FormatTimeFields(hours, minutes);
    TwoDigitsParse(hours);
    TwoDigitsParse(minutes);
  }
}
