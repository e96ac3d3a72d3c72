# Chat relay: session transcripts and context window

A model of the `/api/chat` handler of a small chat backend. The process keeps a
table `conversations` from session id to an ordered list of messages (role,
content, timestamp). One request defaults its two fields (`message` to `""`,
`session_id` to `"default"`), creates the session on first use, appends the
user message, builds the payload for the completion provider (a fixed system
prompt followed by the role and content of the last 10 history entries), calls
the provider, and on success appends the assistant reply and answers
`status: "success"`. Any exception is answered with `status: "error"` and HTTP 500.

Two modules:

- `Context` (`context.dfy`): messages, payload entries, the trailing window
  `Recent` (the Python slice `[-10:]`), the payload specification
  `BuildContext`, and `AssemblePayload`, the handler's loop that builds the
  payload one entry at a time, proved equal to `BuildContext`.
- `Sessions` (`sessions.dfy`): the request and response, the pure
  specification `ChatTurn` of one request and `Run` of a sequence of them, the
  lemmas about them, and the class `SessionStore`, whose `Chat` method updates
  the `conversations` map in place and is proved to do what `ChatTurn` says.

The completion provider is a parameter of type `seq<Entry> -> Completion`: it
is given the payload and either completes with a text or fails. Failing stands
for every exception the provider call or the parsing of its answer can raise.
The two clock readings of a request are opaque strings carried by the request.
A request body that is not a JSON object is `NotAnObject`. This covers a body
that does not parse, a JSON `null` and a JSON list. In each case the handler
raises before touching the table, and the model answers 500 with the table unchanged.

Messages hold role, content and timestamp. The success response is
`{response, status}`. Every failure, a missing API key included (the code then
uses a placeholder key and the provider call fails), becomes the one
`status: "error"` response with code 500. The handler is the only operation on
the table that the code has.

## Model

| member | source | states |
|---|---|---|
| `Context.RecentIsTrailingWindow` | scripts/app.py:41 | the slice `[-10:]` has length min(10, \|history\|) and is exactly the last that many entries |
| `Context.ContextShape` | scripts/app.py:36-45 | the payload has length 1 + min(10, \|history\|); its first entry is the system entry with the fixed prompt; entry i (from 1) is the role and content, without timestamp, of history entry \|history\| - min(10, \|history\|) + i - 1, so the window is in chronological order and nothing older reaches the payload |
| `Context.ContextEndsWithLatest` | scripts/app.py:29-45 | after appending a message, the payload has at least two entries and its last entry is that message's role and content |
| `Context.AssemblePayload` | scripts/app.py:36-45 | the loop that starts from the system entry and appends each windowed history entry yields exactly the payload `BuildContext` specifies |
| `Sessions.MalformedBodyChangesNothing` | scripts/app.py:19-20 | a body that is not a JSON object leaves every session as it was and is answered with status "error" and code 500 |
| `Sessions.DefaultsApplied` | scripts/app.py:21-22 | each field is defaulted on its own: a missing session id makes "default" the session that grows and leaves every other session unchanged, a present one is used as given; a missing message makes the new user entry's content "", a present one is stored as given |
| `Sessions.SessionCreatedLazily` | scripts/app.py:25-26 | a well-formed request adds at most its own session id to the table; a malformed one adds nothing |
| `Sessions.OtherSessionsUntouched` | scripts/app.py:25-33 | every session other than the request's own keeps its presence and its list, whatever the provider does |
| `Sessions.ChatExtendsEverySession` | scripts/app.py:25-62 | no request resets or rewrites a session: each list afterwards starts with the whole list before |
| `Sessions.SuccessAppendsUserThenAssistant` | scripts/app.py:55-67 | when the provider completes with a text, the session grows by exactly two, first the user entry with the request's message and time, then the assistant entry with that text and the reply time; earlier entries are unchanged; the response carries the same text with status "success" and code 200 |
| `Sessions.FailureKeepsUserEntry` | scripts/app.py:69-73 | when the provider fails, the user entry stays appended and no assistant entry is added (growth of exactly one, earlier entries unchanged); the response is status "error" with code 500 |
| `Sessions.ProviderSeesCurrentMessage` | scripts/app.py:29-50 | the payload handed to the provider starts with the system entry, has between 2 and 11 entries, and ends with the current request's message as a user entry |
| `Sessions.RunExtendsEverySession` | scripts/app.py:18-73 | over any sequence of requests and provider outcomes, every session's list is append-only |
| `Sessions.RunLeavesOtherSessions` | scripts/app.py:25-33 | a sequence of requests none of which names session k leaves k's presence and list unchanged |
| `Sessions.FailingRunAppendsInCallOrder` | scripts/app.py:29-33 | N well-formed requests to one session whose provider calls all fail append exactly their N user entries, in call order |
| `Sessions.TurnGrows` | scripts/app.py:25-62 | a well-formed request appends to its own session exactly its user entry followed, when the provider completes, by the assistant reply; a malformed one changes nothing |
| `Sessions.GrownShape` | scripts/app.py:29-62 | what one request appends has as its only user entry the request's message (none for a malformed body), plus at most one further entry |
| `Sessions.AppendedShape` | scripts/app.py:29-62 | whatever the provider does on each call, a run appends between one and two entries per well-formed request, and the user entries among them are exactly the requests' messages, in call order |
| `Sessions.RunAppendsInCallOrder` | scripts/app.py:18-73 | requests that all name session k (or are malformed) extend k's list by exactly what they append, for any provider outcomes, with the user entries in request order and between one and two entries per well-formed request |
| `Sessions.FailedTurnAppendsUser` | scripts/app.py:48-53 | with a provider that always fails, the session's list after a request is its list before plus the user entry |
| `Sessions.SessionStore.constructor` | scripts/app.py:15 | the process starts with an empty session table |
| `Sessions.SessionStore.Chat` | scripts/app.py:18-73 | the handler's in-place updates (lazy creation, user append, payload loop, provider call, reply append) leave the table and response exactly as `ChatTurn` specifies |

## Left out

- The Flask application, routing, CORS and `app.run` (scripts/app.py:1-9, 17, 79-80): framework plumbing.
- Loading the API key from the environment (scripts/app.py:12): environment input. Its effect shows only as a provider failure.
- The OpenAI library call and the parsing of its answer (scripts/app.py:48-55) are not modelled. They become the provider parameter. The model name, `max_tokens` and `temperature` are constants the model does not use.
- `datetime.now().isoformat()` (scripts/app.py:32, 61): clock input, modelled as two opaque strings per request.
- The text of `str(e)` in the error response (scripts/app.py:71): it depends on the library, so an error response carries no text.
- The `/api/health` endpoint (scripts/app.py:75-77): it returns a constant.
- Concurrent requests on the shared table: the code has no locking. The model handles one request at a time.
- JSON field values that are not strings are not modelled. This covers a `null` message (stored as `None`), a numeric session id, and an unhashable session id (which raises before any change). A `None` reply content from the provider is left out for the same reason.
- No eviction: the table grows without bound, as in the code.
- The browser client in chatbot/src/App.js (UI, networking, timers, random session ids): it is not part of this model.
