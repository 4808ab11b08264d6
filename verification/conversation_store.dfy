/**
  The chat server's conversation store: a process-wide map from session id to
  the ordered transcript of that conversation, the `/api/chat` round that
  appends to it, the clear operation, the health count and the hourly
  expiry sweep.

  The functions `Round`, `Cleared` and `Swept` say what one operation does to
  the whole map; the class `ConversationStore` performs the operations step by
  step on its `sessions` field and is proved to agree with them; the lemmas
  state what the server promises about them.
 */
module ConversationStore {
  import opened JsText
  import opened SessionIds

  datatype Role = User | Assistant

  /** One `{role, content}` entry of a transcript. */
  datatype Turn = Turn(role: Role, content: string)

  /** How many turns a successful round keeps (`history.slice(-20)`). */
  const MaxTurns: nat := 20

  /** Age in milliseconds past which the sweep deletes a session (one hour). */
  const ExpiryMs: nat := 3600000

  /**
    What the call to the language model gave back: a response whose first
    choice carries `content` (`None` when the path to it is missing), or a
    thrown error carrying the upstream HTTP status (`None` when there was no
    response at all: a timeout or a network error).
   */
  datatype LlmOutcome = Completed(content: Option<string>) | Failed(status: Option<int>)

  /** The response of `/api/chat`: the reply and the session id, or an error status. */
  datatype ChatReply = Reply(message: string, conversationId: string) | ErrorStatus(status: int)

  /** The new map, the response, and the transcript sent to the model (`None` when nothing was sent). */
  datatype RoundResult = RoundResult(sessions: map<string, seq<Turn>>, reply: ChatReply, outbound: Option<seq<Turn>>)

  // ---------------------------------------------------------------------------
  // Pieces of one chat round
  // ---------------------------------------------------------------------------

  /** `conversationId || generateSessionId()`. */
  function SessionKey(conversationId: Option<string>, now: nat, fraction: seq<Base36Digit>): (key: string)
    ensures key != []
  {
    if IsTruthy(conversationId) then conversationId.value else GenerateSessionId(now, fraction)
  }

  /**
    A truthy client id is used as the key as given, whether or not the store
    knows it; otherwise the key is a fresh id whose timestamp reads back as
    `now`.
   */
  lemma SessionKeyChoice(conversationId: Option<string>, now: nat, fraction: seq<Base36Digit>)
    ensures var key := SessionKey(conversationId, now, fraction);
      && (IsTruthy(conversationId) ==> key == conversationId.value)
      && (!IsTruthy(conversationId) ==> key[..|Prefix|] == Prefix && IdTimestamp(key) == Some(now))
  {
    if !IsTruthy(conversationId) {
      GeneratedIdTimestamp(now, fraction);
    }
  }

  /** `content?.trim() || 'No response'`. */
  function ReplyText(content: Option<string>): string
  {
    match content
    case None => "No response"
    case Some(c) => if Trim(c) == [] then "No response" else Trim(c)
  }

  /**
    The reply is never empty and never starts or ends with white space; it is
    the model's content without surrounding white space, or "No response"
    exactly when that content is missing or blank.
   */
  lemma ReplyTextIsTrimmedContent(content: Option<string>)
    ensures var r := ReplyText(content);
      && r != []
      && !IsWhitespace(r[0]) && !IsWhitespace(r[|r| - 1])
      && (r == "No response" <==> content == None || Trim(content.value) == [] || Trim(content.value) == "No response")
      && (content.Some? && Trim(content.value) != [] ==> r == Trim(content.value))
  {
  }

  /** The status the catch block answers with for an upstream error. */
  function FailureStatus(upstream: Option<int>): (r: int)
    ensures r == 401 || r == 429 || r == 500
    ensures r == 401 <==> upstream == Some(401)
    ensures r == 429 <==> upstream == Some(429)
  {
    if upstream == Some(401) then 401
    else if upstream == Some(429) then 429
    else 500
  }

  /** `if (history.length > 20) history = history.slice(-20)`. */
  function Window(history: seq<Turn>): (r: seq<Turn>)
  {
    if |history| > MaxTurns then history[|history| - MaxTurns..] else history
  }

  /** The window is the last `min(n, 20)` turns, in their original order. */
  lemma WindowIsRecentSuffix(history: seq<Turn>)
    ensures |Window(history)| == if |history| < MaxTurns then |history| else MaxTurns
    ensures history == history[..|history| - |Window(history)|] + Window(history)
  {
  }

  /** Trimming after every append keeps the same turns as trimming the whole transcript once. */
  lemma {:induction false} WindowAfterWindow(earlier: seq<Turn>, later: seq<Turn>)
    ensures Window(Window(earlier) + later) == Window(earlier + later)
  {
    if |earlier| > MaxTurns {
      var all := earlier + later;
      var start := |earlier| - MaxTurns;
      assert Window(earlier) + later == all[start..];
      assert all[start..][|all| - start - MaxTurns..] == all[|all| - MaxTurns..];
    }
  }

  // ---------------------------------------------------------------------------
  // The operations on the whole map
  // ---------------------------------------------------------------------------

  /**
    One `/api/chat` round. `hasToken` says whether `GITHUB_TOKEN` is set,
    `now` and `fraction` stand for the clock and the random number a new id is
    made from, and `llm` is what the model call gave back.

    The user turn is pushed onto the array that is already in the map, so an
    existing session keeps it whatever happens next; a new session's array is
    stored only by a successful round.
   */
  function Round(sessions: map<string, seq<Turn>>, message: Option<string>, conversationId: Option<string>,
                 now: nat, fraction: seq<Base36Digit>, hasToken: bool, llm: LlmOutcome): RoundResult
  {
    if !IsTruthy(message) then RoundResult(sessions, ErrorStatus(400), None)
    else
      var key := SessionKey(conversationId, now, fraction);
      var pushed := (if key in sessions then sessions[key] else []) + [Turn(User, message.value)];
      var afterPush := if key in sessions then sessions[key := pushed] else sessions;
      if !hasToken then RoundResult(afterPush, ErrorStatus(500), None)
      else
        match llm
        case Failed(upstream) => RoundResult(afterPush, ErrorStatus(FailureStatus(upstream)), Some(pushed))
        case Completed(content) =>
          var text := ReplyText(content);
          RoundResult(sessions[key := Window(pushed + [Turn(Assistant, text)])], Reply(text, key), Some(pushed))
  }

  /** `DELETE /api/chat/:conversationId`: the new map and the status, 200 or 404. */
  function Cleared(sessions: map<string, seq<Turn>>, conversationId: string): (map<string, seq<Turn>>, int)
  {
    if conversationId in sessions then (sessions - {conversationId}, 200) else (sessions, 404)
  }

  /** `timestamp < Date.now() - 3600000`; a `NaN` timestamp compares false. */
  predicate Expired(key: string, now: int) {
    match IdTimestamp(key)
    case None => false
    case Some(created) => created < now - ExpiryMs
  }

  /** What is left after the sweep that runs at time `now`. */
  function Swept(sessions: map<string, seq<Turn>>, now: int): map<string, seq<Turn>>
  {
    map key | key in sessions && !Expired(key, now) :: sessions[key]
  }

  // ---------------------------------------------------------------------------
  // The store itself
  // ---------------------------------------------------------------------------

  class ConversationStore {
    /** `conversationHistory`: session id to transcript, oldest turn first. */
    var sessions: map<string, seq<Turn>>

    constructor ()
      ensures sessions == map[]
    {
      sessions := map[];
    }

    /** The `/api/chat` handler. */
    method Chat(message: Option<string>, conversationId: Option<string>, now: nat,
                fraction: seq<Base36Digit>, hasToken: bool, llm: LlmOutcome)
      returns (reply: ChatReply, outbound: Option<seq<Turn>>)
      modifies this
      ensures var r := Round(old(sessions), message, conversationId, now, fraction, hasToken, llm);
        sessions == r.sessions && reply == r.reply && outbound == r.outbound
    {
      ghost var before := sessions;
      ghost var result := Round(before, message, conversationId, now, fraction, hasToken, llm);
      if !IsTruthy(message) {
        return ErrorStatus(400), None;
      }
      var key := SessionKey(conversationId, now, fraction);
      var stored := key in sessions;
      var history := if stored then sessions[key] else [];
      history := history + [Turn(User, message.value)];
      if stored {
        // the push lands on the array object the map already holds
        sessions := sessions[key := history];
      }
      if !hasToken {
        assert result == RoundResult(sessions, ErrorStatus(500), None);
        return ErrorStatus(500), None;
      }
      outbound := Some(history);
      match llm {
        case Failed(upstream) =>
          reply := ErrorStatus(FailureStatus(upstream));
          assert result == RoundResult(sessions, reply, outbound);
        case Completed(content) =>
          var text := ReplyText(content);
          history := history + [Turn(Assistant, text)];
          ghost var full := history;
          if |history| > MaxTurns {
            history := history[|history| - MaxTurns..];
          }
          assert history == Window(full);
          sessions := sessions[key := history];
          reply := Reply(text, key);
          assert result == RoundResult(before[key := Window(full)], reply, outbound);
      }
    }

    /** The `DELETE /api/chat/:conversationId` handler. */
    method Clear(conversationId: string) returns (status: int)
      modifies this
      ensures (sessions, status) == Cleared(old(sessions), conversationId)
    {
      if conversationId in sessions {
        sessions := sessions - {conversationId};
        status := 200;
      } else {
        status := 404;
      }
    }

    /** `activeConversations` of the health check. */
    method ActiveConversations() returns (count: nat)
      ensures count == |sessions.Keys|
    {
      count := |sessions.Keys|;
    }

    /** The body of the hourly cleanup: every key is visited once, and expired ones are deleted. */
    method SweepExpired(now: int)
      modifies this
      ensures sessions == Swept(old(sessions), now)
    {
      ghost var original := sessions;
      var pending := sessions.Keys;
      while pending != {}
        invariant pending <= original.Keys
        invariant forall key :: key in sessions <==> key in original && (key in pending || !Expired(key, now))
        invariant forall key :: key in sessions ==> sessions[key] == original[key]
        decreases pending
      {
        var key :| key in pending;
        if Expired(key, now) {
          sessions := sessions - {key};
        }
        pending := pending - {key};
      }
    }
  }

  // ---------------------------------------------------------------------------
  // What a round promises
  // ---------------------------------------------------------------------------

  /** A missing or empty message is rejected with 400 before the store is touched. */
  lemma MissingMessageRejected(sessions: map<string, seq<Turn>>, message: Option<string>, conversationId: Option<string>,
                               now: nat, fraction: seq<Base36Digit>, hasToken: bool, llm: LlmOutcome)
    ensures var r := Round(sessions, message, conversationId, now, fraction, hasToken, llm);
      !IsTruthy(message) <==> r.reply == ErrorStatus(400)
    ensures !IsTruthy(message) ==> Round(sessions, message, conversationId, now, fraction, hasToken, llm).sessions == sessions
  {
  }

  /**
    The model is sent exactly the stored transcript of the session (or
    nothing, for a new one) followed by the new user turn, and only when the
    message is present and the token is set.
   */
  lemma OutboundIsTranscriptPlusMessage(sessions: map<string, seq<Turn>>, message: Option<string>, conversationId: Option<string>,
                                        now: nat, fraction: seq<Base36Digit>, hasToken: bool, llm: LlmOutcome)
    ensures var r := Round(sessions, message, conversationId, now, fraction, hasToken, llm);
      var key := SessionKey(conversationId, now, fraction);
      && (r.outbound.Some? <==> IsTruthy(message) && hasToken)
      && (r.outbound.Some? ==>
            r.outbound.value == (if key in sessions then sessions[key] else []) + [Turn(User, message.value)])
  {
  }

  /**
    After a successful round the session holds the last `min(n, 20)` turns of
    its old transcript followed by the user turn and the reply, the reply is
    the trimmed content or "No response", the response names the session, and
    no other session changes.
   */
  lemma SuccessfulRound(sessions: map<string, seq<Turn>>, message: Option<string>, conversationId: Option<string>,
                        now: nat, fraction: seq<Base36Digit>, content: Option<string>)
    requires IsTruthy(message)
    ensures var r := Round(sessions, message, conversationId, now, fraction, true, Completed(content));
      var key := SessionKey(conversationId, now, fraction);
      var full := (if key in sessions then sessions[key] else []) + [Turn(User, message.value), Turn(Assistant, ReplyText(content))];
      && r.reply == Reply(ReplyText(content), key)
      && r.sessions.Keys == sessions.Keys + {key}
      && |r.sessions[key]| == (if |full| < MaxTurns then |full| else MaxTurns)
      && full == full[..|full| - |r.sessions[key]|] + r.sessions[key]
      && (forall other :: other in sessions && other != key ==> r.sessions[other] == sessions[other])
  {
    var key := SessionKey(conversationId, now, fraction);
    var prior := if key in sessions then sessions[key] else [];
    var pushed := prior + [Turn(User, message.value)];
    var text := ReplyText(content);
    var full := prior + [Turn(User, message.value), Turn(Assistant, text)];
    assert pushed + [Turn(Assistant, text)] == full;
    var r := Round(sessions, message, conversationId, now, fraction, true, Completed(content));
    assert r == RoundResult(sessions[key := Window(full)], Reply(text, key), Some(pushed));
    WindowIsRecentSuffix(full);
  }

  /**
    A failed round (missing token or upstream error) answers 500, 401 or 429;
    an existing session keeps the user turn, untrimmed, and a new key is not
    added.
   */
  lemma FailedRound(sessions: map<string, seq<Turn>>, message: Option<string>, conversationId: Option<string>,
                    now: nat, fraction: seq<Base36Digit>, hasToken: bool, llm: LlmOutcome)
    requires IsTruthy(message)
    requires !hasToken || llm.Failed?
    ensures var r := Round(sessions, message, conversationId, now, fraction, hasToken, llm);
      var key := SessionKey(conversationId, now, fraction);
      && r.reply == ErrorStatus(if hasToken then FailureStatus(llm.status) else 500)
      && r.sessions.Keys == sessions.Keys
      && (key in sessions ==> r.sessions[key] == sessions[key] + [Turn(User, message.value)])
      && (forall other :: other in sessions && other != key ==> r.sessions[other] == sessions[other])
  {
  }

  /**
    Failures grow a transcript past the window: a session holding 20 turns
    holds 21 after a round whose model call fails.
   */
  lemma FailureGrowsPastWindow(key: string, turns: seq<Turn>, message: string, upstream: Option<int>)
    requires key != [] && message != [] && |turns| == MaxTurns
    ensures var r := Round(map[key := turns], Some(message), Some(key), 0, [], true, Failed(upstream));
      key in r.sessions && |r.sessions[key]| == MaxTurns + 1
  {
  }

  /**
    The id a successful reply names is stored, is truthy, and is the key the
    next round uses when the client sends it back, so that round starts from
    the stored transcript.
   */
  lemma ReplyIdResumesSession(sessions: map<string, seq<Turn>>, message: Option<string>, conversationId: Option<string>,
                              now: nat, fraction: seq<Base36Digit>, content: Option<string>,
                              next: string, later: nat, laterFraction: seq<Base36Digit>)
    requires IsTruthy(message) && next != []
    ensures var r := Round(sessions, message, conversationId, now, fraction, true, Completed(content));
      var id := r.reply.conversationId;
      && r.reply.Reply?
      && id in r.sessions
      && SessionKey(Some(id), later, laterFraction) == id
      && Round(r.sessions, Some(next), Some(id), later, laterFraction, true, Completed(content)).outbound
         == Some(r.sessions[id] + [Turn(User, next)])
  {
  }

  /**
    Across successful rounds the stored transcript stays the most recent 20
    turns of everything said in the session: if it was the window of the
    whole conversation before the round, it is the window of the whole
    conversation after it.
   */
  lemma SuccessKeepsRecentWindow(sessions: map<string, seq<Turn>>, key: string, conversation: seq<Turn>,
                                 message: string, content: Option<string>)
    requires key != [] && message != []
    requires key in sessions && sessions[key] == Window(conversation)
    ensures var r := Round(sessions, Some(message), Some(key), 0, [], true, Completed(content));
      r.sessions[key] == Window(conversation + [Turn(User, message), Turn(Assistant, ReplyText(content))])
  {
    var added := [Turn(User, message), Turn(Assistant, ReplyText(content))];
    assert Window(conversation) + [Turn(User, message)] + [Turn(Assistant, ReplyText(content))]
      == Window(conversation) + added;
    WindowAfterWindow(conversation, added);
  }

  // ---------------------------------------------------------------------------
  // Clear, health count and sweep
  // ---------------------------------------------------------------------------

  /** Clear answers 200 and removes exactly that key iff it is present, and 404 with nothing changed otherwise. */
  lemma ClearRemovesExactlyThatKey(sessions: map<string, seq<Turn>>, conversationId: string)
    ensures var (after, status) := Cleared(sessions, conversationId);
      && (status == 200 <==> conversationId in sessions)
      && (status == 200 || status == 404)
      && conversationId !in after
      && after.Keys == sessions.Keys - {conversationId}
      && (forall key :: key in after ==> after[key] == sessions[key])
  {
  }

  /** The health count drops by exactly one when a present session is cleared, and is unchanged otherwise. */
  lemma ClearCount(sessions: map<string, seq<Turn>>, conversationId: string)
    ensures var (after, status) := Cleared(sessions, conversationId);
      |after.Keys| == if status == 200 then |sessions.Keys| - 1 else |sessions.Keys|
  {
    var (after, status) := Cleared(sessions, conversationId);
    if status == 200 {
      assert sessions.Keys == after.Keys + {conversationId};
    }
  }

  /**
    The sweep keeps exactly the keys that are not expired, with their
    transcripts untouched, and running it twice at the same time removes
    nothing more.
   */
  lemma SweepKeepsExactlyUnexpired(sessions: map<string, seq<Turn>>, now: int)
    ensures var after := Swept(sessions, now);
      && (forall key :: key in after <==> key in sessions && !Expired(key, now))
      && (forall key :: key in after ==> after[key] == sessions[key])
      && Swept(after, now) == after
  {
  }

  /** A generated session survives the sweep at `now` iff it was created no earlier than one hour before `now`. */
  lemma GeneratedSessionExpiry(sessions: map<string, seq<Turn>>, created: nat, fraction: seq<Base36Digit>, now: int)
    requires GenerateSessionId(created, fraction) in sessions
    ensures GenerateSessionId(created, fraction) in Swept(sessions, now) <==> created >= now - ExpiryMs
  {
    GeneratedIdTimestamp(created, fraction);
  }

  /** A key without `_`, such as a client-chosen id, is never swept. */
  lemma KeyWithoutSeparatorNeverSwept(sessions: map<string, seq<Turn>>, key: string, now: int)
    requires key in sessions && Separator !in key
    ensures key in Swept(sessions, now) && Swept(sessions, now)[key] == sessions[key]
  {
    NoSeparatorNoTimestamp(key);
  }
}
