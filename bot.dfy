/** The bot object and the framework objects it works on: the user profile
    it updates in place, the assistant client it calls, the turn context it
    sends through and the user state it saves after the turn. */
module Bot {
  import opened Wrappers
  import opened Replies
  import opened Sessions

  /** The per-user `userProfile` record; only `wa_session_id` is used. */
  class Profile {
    var sessionId: Option<string>

    constructor (sessionId: Option<string>)
      ensures this.sessionId == sessionId
    {
      this.sessionId := sessionId;
    }
  }

  /** The assistant client, answering as its backend script says and
      keeping the log of every call made to it. */
  class Assistant {
    const backend: Backend
    var calls: seq<Call>

    constructor (backend: Backend)
      ensures this.backend == backend && calls == []
    {
      this.backend := backend;
      calls := [];
    }

    method CreateSession(assistantId: string) returns (r: Result<string>)
      modifies this
      ensures r == backend.createSession(old(calls))
      ensures calls == old(calls) + [CreateSessionCall(assistantId)]
    {
      r := backend.createSession(calls);
      calls := calls + [CreateSessionCall(assistantId)];
    }

    method Message(request: MessageRequest) returns (r: Result<seq<Fragment>>)
      modifies this
      ensures r == backend.message(old(calls), request)
      ensures calls == old(calls) + [MessageCall(request)]
    {
      r := backend.message(calls, request);
      calls := calls + [MessageCall(request)];
    }
  }

  /** The turn context: the inbound activity's text and `from.id`, and the
      activities sent so far in this turn. */
  class TurnContext {
    const text: string
    const fromId: string
    var sent: seq<Send>

    constructor (text: string, fromId: string)
      ensures this.text == text && this.fromId == fromId && sent == []
    {
      this.text := text;
      this.fromId := fromId;
      sent := [];
    }

    method SendActivity(activity: Send)
      modifies this
      ensures sent == old(sent) + [activity]
    {
      sent := sent + [activity];
    }
  }

  /** The saved user state: each user's `wa_session_id`, keyed by user id. */
  class UserState {
    var profiles: map<string, Option<string>>

    constructor ()
      ensures profiles == map[]
    {
      profiles := map[];
    }

    /** The saved session id of a user, absent for a user never saved. */
    function Saved(userId: string): Option<string>
      reads this
    {
      if userId in profiles then profiles[userId] else None
    }

    /** The profile accessor's `get` with the default `{}`. */
    method Get(userId: string) returns (profile: Profile)
      ensures fresh(profile) && profile.sessionId == Saved(userId)
    {
      profile := new Profile(Saved(userId));
    }

    method SaveChanges(userId: string, profile: Profile)
      modifies this
      ensures profiles == old(profiles)[userId := profile.sessionId]
    {
      profiles := profiles[userId := profile.sessionId];
    }
  }

  class WatsonAssistantBot {
    const assistantId: string
    const assistant: Assistant
    const userState: UserState

    constructor (userState: UserState, assistant: Assistant, assistantId: string)
      ensures this.userState == userState && this.assistant == assistant
      ensures this.assistantId == assistantId
    {
      this.userState := userState;
      this.assistant := assistant;
      this.assistantId := assistantId;
    }

    /** Sends the user's text to the assistant in the given session. */
    method InvokeWatsonAssistant(text: string, sessionId: string, userId: string)
      returns (res: Result<seq<Fragment>>)
      modifies assistant
      ensures var request := MessageRequest(assistantId, sessionId, userId, "text", text);
        res == assistant.backend.message(old(assistant.calls), request) &&
        assistant.calls == old(assistant.calls) + [MessageCall(request)]
    {
      res := assistant.Message(RequestFor(assistantId, text, sessionId, userId));
    }

    /** Sends a hero card with the source as its image and one button that opens it. */
    method SendHeroCard(context: TurnContext, title: string, text: string, src: string)
      modifies context
      ensures context.sent == old(context.sent) + [SendHero(HeroCardFor(title, text, src))]
    {
      var buttons := [CardAction(OpenUrl, OpenWebsite, src)];
      var heroCard := HeroCard(title, [src], buttons, text);
      context.SendActivity(SendHero(heroCard));
    }

    /** Sends the options as one suggested-actions message. */
    method SendSuggestedActions(context: TurnContext, options: seq<Choice>)
      modifies context
      ensures context.sent == old(context.sent) + [SendSuggested(ActionsFor(options))]
    {
      var cardActions := CardActions(options);
      context.SendActivity(SendSuggested(cardActions));
    }

    /** The `onMessage` handler: resolves the reply and sends its fragments. */
    method OnMessage(context: TurnContext, profile: Profile) returns (outcome: Outcome)
      modifies profile, assistant, context
      ensures var h := Resolve(assistant.backend, old(assistant.calls), assistantId,
                               old(profile.sessionId), context.text, context.fromId);
        outcome == h.outcome && profile.sessionId == h.sessionId &&
        assistant.calls == old(assistant.calls) + h.calls &&
        context.sent == old(context.sent) + Sends(h.outcome)
    {
      outcome := ResolveReply(context, profile);
      if outcome.Replied? {
        DispatchReplies(context, outcome.generic);
      }
    }

    /** The handler up to the dispatch loop: ensures a session, sends the
        text, retries once with a new session on the invalid-session error
        and turns any other first failure into an error text. */
    method ResolveReply(context: TurnContext, profile: Profile) returns (outcome: Outcome)
      modifies profile, assistant
      ensures var h := Resolve(assistant.backend, old(assistant.calls), assistantId,
                               old(profile.sessionId), context.text, context.fromId);
        outcome == h.outcome && profile.sessionId == h.sessionId &&
        assistant.calls == old(assistant.calls) + h.calls
    {
      if !HasSession(profile.sessionId) {
        var sessionData := assistant.CreateSession(assistantId);
        if sessionData.Failure? {
          return Escaped(sessionData.error);
        }
        profile.sessionId := Some(sessionData.value);
      }
      ghost var log, session := old(assistant.calls), old(profile.sessionId);
      ghost var ensured := EnsureSession(assistant.backend, log, assistantId, session);
      assert ensured.result == Success(profile.sessionId.value);
      assert assistant.calls == log + ensured.calls;
      var res := InvokeWatsonAssistant(context.text, profile.sessionId.value, context.fromId);
      ghost var first := FirstSend(assistant.backend, log, assistantId, session, context.text, context.fromId);
      assert res == first.result && assistant.calls == log + first.calls;
      match res {
        case Success(generic) =>
          outcome := Replied(generic);
        case Failure(error) =>
          if error == InvalidSession {
            outcome := RetryWithNewSession(context, profile, log, first.calls);
          } else {
            outcome := Replied([Text(ErrorText(error))]);
          }
      }
    }

    /** The `catch` branch for the invalid-session error: a new session,
        stored in the profile, and one more send; a failure of either call
        escapes. */
    method RetryWithNewSession(context: TurnContext, profile: Profile,
                               ghost log: seq<Call>, ghost calls: seq<Call>)
      returns (outcome: Outcome)
      requires profile.sessionId.Some? && assistant.calls == log + calls
      modifies profile, assistant
      ensures var h := Retry(assistant.backend, log, calls, assistantId,
                             old(profile.sessionId).value, context.text, context.fromId);
        outcome == h.outcome && profile.sessionId == h.sessionId &&
        assistant.calls == old(assistant.calls) + h.calls[|calls|..]
    {
      var sessionData := assistant.CreateSession(assistantId);
      if sessionData.Failure? {
        return Escaped(sessionData.error);
      }
      profile.sessionId := Some(sessionData.value);
      ghost var before := calls + [CreateSessionCall(assistantId)];
      assert assistant.calls == log + before;
      var res := InvokeWatsonAssistant(context.text, profile.sessionId.value, context.fromId);
      assert res == assistant.backend.message(log + before,
        RequestFor(assistantId, context.text, sessionData.value, context.fromId));
      match res {
        case Success(generic) => outcome := Replied(generic);
        case Failure(error) => outcome := Escaped(error);
      }
    }

    /** The loop over the fragments: one send per text, option and iframe
        fragment, in order; other fragments send nothing. */
    method DispatchReplies(context: TurnContext, generic: seq<Fragment>)
      modifies context
      ensures context.sent == old(context.sent) + Dispatch(generic)
    {
      for i := 0 to |generic|
        invariant context.sent == old(context.sent) + Dispatch(generic[..i])
      {
        DispatchSnoc(generic, i);
        match generic[i] {
          case Text(t) =>
            context.SendActivity(SendText(t));
          case Options(options) =>
            SendSuggestedActions(context, options);
          case IFrame(title, description, source) =>
            SendHeroCard(context, title, description, source);
          case Other(_) =>
        }
      }
      assert generic[..|generic|] == generic;
    }

    /** A turn: load the profile, run the handler, and save the profile only
        when the handler completed; an escaped error skips the save. */
    method Run(context: TurnContext) returns (outcome: Outcome)
      modifies userState, assistant, context
      ensures var h := Resolve(assistant.backend, old(assistant.calls), assistantId,
                               old(userState.Saved(context.fromId)), context.text, context.fromId);
        outcome == h.outcome &&
        assistant.calls == old(assistant.calls) + h.calls &&
        context.sent == old(context.sent) + Sends(h.outcome) &&
        userState.profiles ==
          if h.outcome.Escaped? then old(userState.profiles)
          else old(userState.profiles)[context.fromId := h.sessionId]
    {
      var profile := userState.Get(context.fromId);
      outcome := OnMessage(context, profile);
      if outcome.Replied? {
        userState.SaveChanges(context.fromId, profile);
      }
    }
  }

  /** The suggested actions for the options, built one by one: one `ImBack`
      action per option, in order, titled with its label and carrying its
      input text. */
  method CardActions(options: seq<Choice>) returns (cardActions: seq<CardAction>)
    ensures |cardActions| == |options|
    ensures forall k :: 0 <= k < |options| ==>
      cardActions[k] == CardAction(ImBack, options[k].caption, options[k].value.input.text)
    ensures cardActions == ActionsFor(options)
  {
    cardActions := [];
    for i := 0 to |options|
      invariant |cardActions| == i
      invariant forall k :: 0 <= k < i ==>
        cardActions[k] == CardAction(ImBack, options[k].caption, options[k].value.input.text)
    {
      var opt := options[i];
      var optObject := CardAction(ImBack, opt.caption, opt.value.input.text);
      cardActions := cardActions + [optObject];
    }
  }
}

/** Two turns driven through the bot's contracts alone. */
module Scenarios {
  import opened Wrappers
  import opened Replies
  import opened Sessions
  import opened Bot

  /** First contact: "hello" from "u1" with no saved profile creates a
      session, sends with it, sends the one reply text and saves the id. */
  method FirstContact() {
    var backend := Backend(
      (log: seq<Call>) => Success("s1"),
      (log: seq<Call>, request: MessageRequest) => Success([Text("hi")]));
    var assistant := new Assistant(backend);
    var userState := new UserState();
    var bot := new WatsonAssistantBot(userState, assistant, "a1");
    var context := new TurnContext("hello", "u1");
    var outcome := bot.Run(context);
    DispatchOne(Text("hi"));
    assert assistant.calls == [CreateSessionCall("a1"), MessageCall(MessageRequest("a1", "s1", "u1", "text", "hello"))];
    assert context.sent == [SendText("hi")];
    assert userState.profiles == map["u1" := Some("s1")];
  }

  /** An expired session: the saved id "old" is rejected, a new session
      "s2" is created and the retried send's option reply goes out as one
      suggested-actions message. */
  method ExpiredSession() {
    var yes := Choice("Yes", ChoiceValue(ChoiceInput("yes")));
    var backend := Backend(
      (log: seq<Call>) => Success("s2"),
      (log: seq<Call>, request: MessageRequest) =>
        if request.sessionId == "old" then Failure(InvalidSession) else Success([Options([yes])]));
    var assistant := new Assistant(backend);
    var userState := new UserState();
    var saved := new Profile(Some("old"));
    userState.SaveChanges("u1", saved);
    var bot := new WatsonAssistantBot(userState, assistant, "a1");
    var context := new TurnContext("hello", "u1");
    var outcome := bot.Run(context);
    DispatchOne(Options([yes]));
    assert ActionsFor([yes]) == [CardAction(ImBack, "Yes", "yes")];
    assert assistant.calls == [
      MessageCall(MessageRequest("a1", "old", "u1", "text", "hello")),
      CreateSessionCall("a1"),
      MessageCall(MessageRequest("a1", "s2", "u1", "text", "hello"))];
    assert context.sent == [SendSuggested([CardAction(ImBack, "Yes", "yes")])];
    assert userState.profiles["u1"] == Some("s2");
  }
}
