# Watson Assistant bot: message turn model

A Dafny model of the message handler of `WatsonAssistantBot`, the bot that relays chat messages between a Bot Framework conversation and an IBM Watson Assistant session. It proves properties of that model. A turn goes through these steps:

1. The handler reads the user profile. If the profile has no `wa_session_id`, it creates an assistant session and stores the id in the profile.
2. It sends the activity's text to the assistant with that session id and the sender's `from.id`.
3. If the send fails with exactly the error `'Invalid Session'`, it creates one new session, stores it, and sends once more. Any other failure of the first send becomes the reply text `Error <error>`.
4. It walks the reply's `generic` fragments in order. Each `text` becomes a plain message, each `option` one suggested-actions message, and each `iframe` one hero card. Every other response type is dropped.
5. `run` saves the user state only after the handler has completed.

Modules:

- `Wrappers`: `Option` and `Result`. The error of a failed call is the string it prints as.
- `Replies`: fragments, card actions, hero cards and sends. `Dispatch` is the translation of a fragment list into the sends it causes, with lemmas on order, count and per-kind shape.
- `Sessions`: `Resolve` is the handler, from reading the profile to the fragment list it dispatches, written as a function. It takes the profile's session id, the activity and a scripted backend. `Backend` holds two total functions. Each one gives a call's answer (a success payload or an error string) as a function of the log of all earlier calls. The lemmas state the session and retry properties.
- `Bot`: the classes the handler works on: the `Profile` it updates in place, the `Assistant` client with its call log, the `TurnContext` it sends through, and the `UserState` it saves to. `WatsonAssistantBot`'s methods are proved against `Resolve` and `Dispatch`.
- `Scenarios`: two verified client turns. One is a first contact. In the other, an expired session is recreated and the retried reply is sent as suggested actions.

Line 44 sits inside the `catch` and nothing guards it, so a failure of the retried send escapes like a `createSession` failure. It does not become an error text. This model follows the code: the turn ends with `Escaped`, nothing is sent and nothing is saved.

## Model

| member | source | states |
|---|---|---|
| `Replies.DispatchConcat` | bots/watsonAssistantBot.js:51-63 | Dispatching two fragment lists one after the other sends exactly what dispatching their concatenation sends. |
| `Replies.DispatchSplit` | bots/watsonAssistantBot.js:51-63 | Splitting the fragment list at any point splits the sends at the same point. |
| `Replies.DispatchAt` | bots/watsonAssistantBot.js:51-63 | Order is preserved. Fragment i's send comes after all sends of earlier fragments and before all sends of later ones. |
| `Replies.OtherDropped` | bots/watsonAssistantBot.js:59-62 | A fragment of any other response type sends nothing. Removing it leaves the sends unchanged. |
| `Replies.DispatchCount` | bots/watsonAssistantBot.js:51-63 | The number of sends equals the number of `text`, `option` and `iframe` fragments. |
| `Replies.RenderKinds` | bots/watsonAssistantBot.js:52-58 | A `text` fragment sends its text. An `option` fragment sends one suggested-actions message, with one `ImBack` action per option, in order, titled by the label and valued by `value.input.text`. An `iframe` fragment sends one hero card with the title, the description as text, images `[source]` and the single button `OpenUrl` "Open Website" with value `source`. Any other fragment sends nothing. |
| `Sessions.SessionCreatedOnlyWhenMissing` | bots/watsonAssistantBot.js:27-37 | The first call is `createSession` exactly when the profile has no session. Otherwise the first call is the send, with the stored id, the text, `from.id` and type `text`. |
| `Sessions.FirstSendUsesProfileSession` | bots/watsonAssistantBot.js:28-37 | The first send uses the session the profile holds at that point: the stored one, or the one `createSession` just returned. It carries the activity's text, the sender's id and type `text`. A created session stays in the profile unless the send fails with the invalid-session error. |
| `Sessions.CreateSessionFailureEscapes` | bots/watsonAssistantBot.js:28-33 | A failing first `createSession` escapes at once. No send is made and the profile is left as it was. |
| `Sessions.RetryOnInvalidSession` | bots/watsonAssistantBot.js:39-44 | After the exact `Invalid Session` error, exactly one more session is created. If that succeeds, exactly one more send is made, with the new id. The profile then holds that id, and the retry's answer is the outcome. A failure of either call escapes; when the new session cannot be created, the profile keeps the first id. |
| `Sessions.OtherErrorBecomesText` | bots/watsonAssistantBot.js:45-46 | Any other first-send error makes no further call and keeps the session. The reply is the single fragment `Text("Error " + error)`, and that text is the only send. |
| `Sessions.EscapesOnlyFromUnguardedCalls` | bots/watsonAssistantBot.js:29-44 | An escaped error always comes from a `createSession` call or from the retried send, never from the first send, and it is exactly the error the backend gave for the last call made. |
| `Sessions.CallBounds` | bots/watsonAssistantBot.js:27-48 | A turn makes one to four backend calls: at most two sessions and two sends. It creates at most one session when the profile already had one. |
| `Bot.Assistant.CreateSession` | bots/watsonAssistantBot.js:29-31 | Records a `createSession` call with the assistant id and returns the script's answer for it. |
| `Bot.Assistant.Message` | bots/watsonAssistantBot.js:77-85 | Records a `message` call with its request and returns the script's answer for it. |
| `Bot.UserState.Get` | bots/watsonAssistantBot.js:27 | Loads a fresh profile holding the user's saved session id, or none (the default `{}`). |
| `Bot.UserState.SaveChanges` | bots/watsonAssistantBot.js:133 | Saves the profile's session id under the user's id and changes nothing else. |
| `Bot.WatsonAssistantBot.InvokeWatsonAssistant` | bots/watsonAssistantBot.js:76-87 | Sends one `message` request with the assistant id, the session id, the user id, type `text` and the text, and returns the backend's answer. |
| `Bot.WatsonAssistantBot.SendHeroCard` | bots/watsonAssistantBot.js:96-104 | Appends exactly one hero-card send: the title, `[src]` as images, one `OpenUrl` "Open Website" button with value `src`, and the text. |
| `Bot.WatsonAssistantBot.SendSuggestedActions` | bots/watsonAssistantBot.js:111-124 | Appends exactly one suggested-actions send, with actions built from the options. |
| `Bot.CardActions` | bots/watsonAssistantBot.js:112-120 | The push loop returns a list as long as the options and in the same order. Entry k is an `ImBack` action with option k's label as title and its `value.input.text` as value. |
| `Bot.WatsonAssistantBot.ResolveReply` | bots/watsonAssistantBot.js:27-48 | The outcome, the profile's new session id and the calls appended to the assistant's log are those `Resolve` gives for the old session id, the text and `from.id`. |
| `Bot.WatsonAssistantBot.RetryWithNewSession` | bots/watsonAssistantBot.js:40-44 | Matches `Retry`: one `createSession`, stored in the profile, then one send with the new id. A failure of either call escapes. |
| `Bot.WatsonAssistantBot.DispatchReplies` | bots/watsonAssistantBot.js:51-63 | The loop appends exactly `Dispatch(generic)` to the turn's sends. |
| `Bot.WatsonAssistantBot.OnMessage` | bots/watsonAssistantBot.js:25-67 | The handler's outcome, new profile and call log are `Resolve`'s. Its sends are `Dispatch` of the reply when it completes and nothing when an error escapes. |
| `Bot.WatsonAssistantBot.Run` | bots/watsonAssistantBot.js:129-134 | A turn loads the saved profile and runs the handler. It saves the new session id under `from.id` only when the handler completed. After an escaped error the saved state is unchanged. |

## Left out

- index.js is not part of this model. It covers the HTTP server, the routes, Cosmos DB storage, the Watson SDK and IAM setup, and reading the environment.
- The `/api/notify` and `/api/notifyAll` endpoints: they write HTTP responses and resume conversations through the adapter, which is foreign code. `notifyAll` also starts sends it does not await.
- The conversation-reference directory: the endpoints call `getConversationReferences`, but the bot class shown does not define it, so there is nothing to model.
- `adapter.onTurnError`: it logs and sends a trace and an apology. Here it is only the `Escaped` outcome.
- Failures of `userProfileAccessor.get` (line 27), `context.sendActivity` and `saveChanges`: these are host-framework storage and I/O, so every load, send and save succeeds in the model.
- `next()` at line 66 and the `ActivityHandler` event routing: these belong to the framework.
- `UserState` keys profiles by the sender's id alone. The framework also keys them by channel.
- Console logging and `JSON.stringify` at line 50.
- Async interleaving between turns: a turn is modelled as one sequential run.
- JavaScript coercion: the backend's error is an abstract string. It is compared to `'Invalid Session'` by exact equality, and `Error ${error}` is string concatenation.
- Parsing the backend's JSON into `Fragment`: each fragment arrives already tagged by its `response_type`. Fields that are missing or malformed in a fragment are not modelled.
