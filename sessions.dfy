/** One message turn's conversation with the assistant backend (the
    `onMessage` handler up to the dispatch loop), as a function of the
    profile's session id, the activity and the backend's answers.

    The backend is scripted: each call's answer is a function of every call
    made to it before (the log), so any sequence of successes and failures
    across turns can be expressed. */
module Sessions {
  import opened Wrappers
  import opened Replies

  /** The one error value that triggers a new session and a retry. */
  const InvalidSession: string := "Invalid Session"

  datatype MessageRequest = MessageRequest(
    assistantId: string, sessionId: string, userId: string, messageType: string, text: string)

  /** A call into the backend: `createSession` or `message`. */
  datatype Call = CreateSessionCall(assistantId: string) | MessageCall(request: MessageRequest)

  /** The backend's answers: a created session's `result.session_id`, or a
      message reply's `result.output.generic`; or the error it throws. */
  datatype Backend = Backend(
    createSession: seq<Call> -> Result<string>,
    message: (seq<Call>, MessageRequest) -> Result<seq<Fragment>>)

  /** A turn either reaches the dispatch loop with a fragment list, or an
      error escapes the handler. */
  datatype Outcome = Replied(generic: seq<Fragment>) | Escaped(error: string)

  /** The calls this turn made, the profile's session id afterwards, and the outcome. */
  datatype Handled = Handled(calls: seq<Call>, sessionId: Option<string>, outcome: Outcome)

  /** The calls made by a stage of the handler and what the stage produced. */
  datatype Step<T> = Step(calls: seq<Call>, result: Result<T>)

  /** The truth test the handler applies to `wa_session_id`: a missing id
      and the empty string both count as no session. */
  predicate HasSession(id: Option<string>)
  {
    id.Some? && id.value != ""
  }

  /** The request `invokeWatsonAssistant` sends. */
  function RequestFor(assistantId: string, text: string, sessionId: string, userId: string): MessageRequest
  {
    MessageRequest(assistantId, sessionId, userId, "text", text)
  }

  /** The synthetic reply text for a failure that is not retried. */
  function ErrorText(error: string): string
  {
    "Error " + error
  }

  /** Creates a session only when the profile has none. */
  function EnsureSession(b: Backend, log: seq<Call>, assistantId: string, session: Option<string>): Step<string>
  {
    if HasSession(session) then Step([], Success(session.value))
    else Step([CreateSessionCall(assistantId)], b.createSession(log))
  }

  /** The calls made before the first send, and the first send itself. */
  function FirstSend(b: Backend, log: seq<Call>, assistantId: string, session: Option<string>,
                     text: string, userId: string): Step<seq<Fragment>>
    requires EnsureSession(b, log, assistantId, session).result.Success?
  {
    var ensured := EnsureSession(b, log, assistantId, session);
    var request := RequestFor(assistantId, text, ensured.result.value, userId);
    Step(ensured.calls + [MessageCall(request)], b.message(log + ensured.calls, request))
  }

  /** The handler from reading the profile to the fragment list it dispatches. */
  function Resolve(b: Backend, log: seq<Call>, assistantId: string, session: Option<string>,
                   text: string, userId: string): Handled
  {
    var ensured := EnsureSession(b, log, assistantId, session);
    match ensured.result
    case Failure(e) => Handled(ensured.calls, session, Escaped(e))
    case Success(id) =>
      var first := FirstSend(b, log, assistantId, session, text, userId);
      match first.result
      case Success(generic) => Handled(first.calls, Some(id), Replied(generic))
      case Failure(e) =>
        if e == InvalidSession then Retry(b, log, first.calls, assistantId, id, text, userId)
        else Handled(first.calls, Some(id), Replied([Text(ErrorText(e))]))
  }

  /** The handler's `catch` for the invalid-session error: a new session
      and one more send, neither of them guarded. */
  function Retry(b: Backend, log: seq<Call>, calls: seq<Call>, assistantId: string,
                 id: string, text: string, userId: string): Handled
  {
    var created := b.createSession(log + calls);
    var calls' := calls + [CreateSessionCall(assistantId)];
    match created
    case Failure(e) => Handled(calls', Some(id), Escaped(e))
    case Success(newId) =>
      var request := RequestFor(assistantId, text, newId, userId);
      var calls'' := calls' + [MessageCall(request)];
      match b.message(log + calls', request)
      case Success(generic) => Handled(calls'', Some(newId), Replied(generic))
      case Failure(e) => Handled(calls'', Some(newId), Escaped(e))
  }

  /** What the dispatch loop sends for an outcome: nothing once an error escaped. */
  function Sends(outcome: Outcome): seq<Send>
  {
    match outcome
    case Replied(generic) => Dispatch(generic)
    case Escaped(_) => []
  }

  /** The number of `createSession` calls in a log. */
  function SessionsCreated(calls: seq<Call>): nat
  {
    if calls == [] then 0
    else (if calls[0].CreateSessionCall? then 1 else 0) + SessionsCreated(calls[1..])
  }

  /** The number of `message` calls in a log. */
  function MessagesSent(calls: seq<Call>): nat
  {
    if calls == [] then 0
    else (if calls[0].MessageCall? then 1 else 0) + MessagesSent(calls[1..])
  }

  lemma {:induction false} CountsConcat(a: seq<Call>, b: seq<Call>)
    ensures SessionsCreated(a + b) == SessionsCreated(a) + SessionsCreated(b)
    ensures MessagesSent(a + b) == MessagesSent(a) + MessagesSent(b)
    decreases |a|
  {
    if a == [] {
      assert a + b == b;
    } else {
      assert (a + b)[1..] == a[1..] + b;
      CountsConcat(a[1..], b);
    }
  }

  lemma CountOne(c: Call)
    ensures SessionsCreated([c]) == (if c.CreateSessionCall? then 1 else 0)
    ensures MessagesSent([c]) == (if c.MessageCall? then 1 else 0)
  {
  }

  /** A session is created before the first send exactly when the profile
      has none; otherwise the first call is the send, with the stored id. */
  lemma SessionCreatedOnlyWhenMissing(b: Backend, log: seq<Call>, assistantId: string,
                                      session: Option<string>, text: string, userId: string)
    ensures var h := Resolve(b, log, assistantId, session, text, userId);
      |h.calls| >= 1 &&
      (h.calls[0] == CreateSessionCall(assistantId) <==> !HasSession(session)) &&
      (HasSession(session) ==>
        h.calls[0] == MessageCall(MessageRequest(assistantId, session.value, userId, "text", text)))
  {
  }

  /** The first send carries the session id the profile holds at that point
      (the stored one, or the one just created), the activity's text and the
      sender's id, with message type `text`; a session created for it is
      stored in the profile unless the send fails with the invalid-session
      error. */
  lemma FirstSendUsesProfileSession(b: Backend, log: seq<Call>, assistantId: string,
                                    session: Option<string>, text: string, userId: string)
    requires EnsureSession(b, log, assistantId, session).result.Success?
    ensures var h := Resolve(b, log, assistantId, session, text, userId);
      var ensured := EnsureSession(b, log, assistantId, session);
      var id := ensured.result.value;
      (HasSession(session) ==> id == session.value) &&
      (!HasSession(session) ==> Success(id) == b.createSession(log)) &&
      |h.calls| > |ensured.calls| &&
      h.calls[|ensured.calls|] == MessageCall(MessageRequest(assistantId, id, userId, "text", text)) &&
      (FirstSend(b, log, assistantId, session, text, userId).result != Failure(InvalidSession) ==>
        h.sessionId == Some(id))
  {
  }

  /** A failure of the first `createSession` escapes at once: no send is made
      and the profile is left as it was. */
  lemma CreateSessionFailureEscapes(b: Backend, log: seq<Call>, assistantId: string,
                                    session: Option<string>, text: string, userId: string)
    requires !HasSession(session) && b.createSession(log).Failure?
    ensures Resolve(b, log, assistantId, session, text, userId) ==
      Handled([CreateSessionCall(assistantId)], session, Escaped(b.createSession(log).error))
  {
  }

  /** The invalid-session error on the first send creates exactly one new
      session and sends exactly once more, with the new id, which the
      profile then holds; a failure of either of these two calls escapes. */
  lemma RetryOnInvalidSession(b: Backend, log: seq<Call>, assistantId: string,
                              session: Option<string>, text: string, userId: string)
    requires EnsureSession(b, log, assistantId, session).result.Success?
    requires FirstSend(b, log, assistantId, session, text, userId).result == Failure(InvalidSession)
    ensures var h := Resolve(b, log, assistantId, session, text, userId);
      var first := FirstSend(b, log, assistantId, session, text, userId);
      var created := b.createSession(log + first.calls);
      var before := first.calls + [CreateSessionCall(assistantId)];
      SessionsCreated(h.calls) == SessionsCreated(first.calls) + 1 &&
      (created.Failure? ==>
        h.calls == before && h.outcome == Escaped(created.error) &&
        h.sessionId == Some(EnsureSession(b, log, assistantId, session).result.value)) &&
      (created.Success? ==>
        var retry := MessageRequest(assistantId, created.value, userId, "text", text);
        var retried := b.message(log + before, retry);
        h.calls == before + [MessageCall(retry)] &&
        MessagesSent(h.calls) == 2 &&
        h.sessionId == Some(created.value) &&
        h.outcome == (if retried.Success? then Replied(retried.value) else Escaped(retried.error)))
  {
    var first := FirstSend(b, log, assistantId, session, text, userId);
    var before := first.calls + [CreateSessionCall(assistantId)];
    var ensured := EnsureSession(b, log, assistantId, session);
    CountsConcat(first.calls, [CreateSessionCall(assistantId)]);
    CountOne(CreateSessionCall(assistantId));
    var created := b.createSession(log + first.calls);
    if created.Success? {
      var retry := MessageRequest(assistantId, created.value, userId, "text", text);
      CountsConcat(before, [MessageCall(retry)]);
      CountOne(MessageCall(retry));
      CountsConcat(ensured.calls, [MessageCall(RequestFor(assistantId, text, ensured.result.value, userId))]);
      CountOne(MessageCall(RequestFor(assistantId, text, ensured.result.value, userId)));
      if HasSession(session) {
        assert MessagesSent([]) == 0;
      } else {
        CountOne(CreateSessionCall(assistantId));
      }
    }
  }

  /** Any other error on the first send is not retried: no further call is
      made, the session is kept, and the reply is the single text fragment
      `Error <error>`, which is also the only thing sent. */
  lemma OtherErrorBecomesText(b: Backend, log: seq<Call>, assistantId: string,
                              session: Option<string>, text: string, userId: string)
    requires EnsureSession(b, log, assistantId, session).result.Success?
    requires FirstSend(b, log, assistantId, session, text, userId).result.Failure?
    requires FirstSend(b, log, assistantId, session, text, userId).result.error != InvalidSession
    ensures var h := Resolve(b, log, assistantId, session, text, userId);
      var first := FirstSend(b, log, assistantId, session, text, userId);
      var e := first.result.error;
      h.calls == first.calls &&
      h.sessionId == Some(EnsureSession(b, log, assistantId, session).result.value) &&
      h.outcome == Replied([Text("Error " + e)]) &&
      Sends(h.outcome) == [SendText("Error " + e)]
  {
    DispatchOne(Text(ErrorText(FirstSend(b, log, assistantId, session, text, userId).result.error)));
  }

  /** An error escapes only from a `createSession` call or from the retried
      send, never from the first send; the escaping error is the last call's. */
  lemma EscapesOnlyFromUnguardedCalls(b: Backend, log: seq<Call>, assistantId: string,
                                      session: Option<string>, text: string, userId: string)
    ensures var h := Resolve(b, log, assistantId, session, text, userId);
      h.outcome.Escaped? ==>
        |h.calls| >= 1 &&
        (h.calls[|h.calls| - 1].CreateSessionCall? || MessagesSent(h.calls) == 2) &&
        var last := h.calls[|h.calls| - 1];
        var earlier := log + h.calls[..|h.calls| - 1];
        (if last.CreateSessionCall? then b.createSession(earlier) == Failure(h.outcome.error)
         else b.message(earlier, last.request) == Failure(h.outcome.error))
  {
    var h := Resolve(b, log, assistantId, session, text, userId);
    var ensured := EnsureSession(b, log, assistantId, session);
    if h.outcome.Escaped? {
      if ensured.result.Failure? {
        assert h.calls[..|h.calls| - 1] == [];
        assert log + [] == log;
      } else {
        var first := FirstSend(b, log, assistantId, session, text, userId);
        var before := first.calls + [CreateSessionCall(assistantId)];
        var created := b.createSession(log + first.calls);
        RetryOnInvalidSession(b, log, assistantId, session, text, userId);
        if created.Success? {
          assert h.calls[..|h.calls| - 1] == before;
        } else {
          assert h.calls[..|h.calls| - 1] == first.calls;
        }
      }
    }
  }

  /** A turn makes one to four calls: at most two sessions and two sends,
      and at most one session when the profile already had one. */
  lemma CallBounds(b: Backend, log: seq<Call>, assistantId: string,
                   session: Option<string>, text: string, userId: string)
    ensures var h := Resolve(b, log, assistantId, session, text, userId);
      1 <= |h.calls| <= 4 &&
      SessionsCreated(h.calls) <= (if HasSession(session) then 1 else 2) &&
      MessagesSent(h.calls) <= 2 &&
      SessionsCreated(h.calls) + MessagesSent(h.calls) == |h.calls|
  {
    var h := Resolve(b, log, assistantId, session, text, userId);
    CallsAreOneOrOther(h.calls);
    var ensured := EnsureSession(b, log, assistantId, session);
    if ensured.result.Success? {
      var first := FirstSend(b, log, assistantId, session, text, userId);
      var m := MessageCall(RequestFor(assistantId, text, ensured.result.value, userId));
      CountsConcat(ensured.calls, [m]);
      CountOne(m);
      if HasSession(session) {
        assert SessionsCreated([]) == 0;
      } else {
        CountOne(CreateSessionCall(assistantId));
      }
      if first.result == Failure(InvalidSession) {
        RetryOnInvalidSession(b, log, assistantId, session, text, userId);
      }
    }
  }

  lemma {:induction false} CallsAreOneOrOther(calls: seq<Call>)
    ensures SessionsCreated(calls) + MessagesSent(calls) == |calls|
    decreases |calls|
  {
    if calls != [] {
      CallsAreOneOrOther(calls[1..]);
    }
  }
}
