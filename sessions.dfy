/**
 The per-session transcript store and the `/api/chat` request: the table from
 session id to message list, what one request does to it, and the response it
 produces. The completion provider is a parameter: a function from the payload it
 is given to either a generated text or a failure.
 */
module Sessions {
  import opened Context

  type Store = map<string, seq<Message>>

  /** A field of the request's JSON object: absent, or present with a string value. */
  datatype Field = Absent | Present(value: string) {
    function GetOr(default: string): string {
      match this
      case Absent => default
      case Present(v) => v
    }
  }

  /** The request body: something that is not a JSON object (the parse raises, or the
      value has no `.get`), or an object with its two optional fields. */
  datatype Body = NotAnObject | Object(message: Field, sessionId: Field)

  /** One request, with the clock readings the handler takes for the user entry and
      for the assistant entry. */
  datatype Request = Request(body: Body, userTime: string, replyTime: string)

  /** What the completion provider gives back for one call. */
  datatype Completion = Completed(text: string) | Failed

  type Provider = seq<Entry> -> Completion

  datatype Response = Success(response: string) | Error {
    function Status(): string {
      if Success? then "success" else "error"
    }
    function HttpCode(): nat {
      if Success? then 200 else 500
    }
  }

  /** The store after a request, and the response sent back. */
  datatype Turn = Turn(store: Store, response: Response)

  const DefaultMessage: string := ""
  const DefaultSession: string := "default"

  function MessageOf(body: Body): string
    requires body.Object?
  {
    body.message.GetOr(DefaultMessage)
  }

  function SessionOf(body: Body): string
    requires body.Object?
  {
    body.sessionId.GetOr(DefaultSession)
  }

  /** A session's list, an unseen session being an empty one. */
  function History(store: Store, sid: string): seq<Message> {
    if sid in store then store[sid] else []
  }

  /** The list of `sid` once the user message of `req` is appended. */
  function WithUser(store: Store, req: Request): seq<Message>
    requires req.body.Object?
  {
    History(store, SessionOf(req.body)) + [Message(User, MessageOf(req.body), req.userTime)]
  }

  /** What one request does: default the fields, create the session if unseen, append
      the user message, call the provider with the context window, and on success
      append the reply. A body that is not an object fails before the store is touched. */
  function ChatTurn(store: Store, req: Request, provider: Provider): Turn {
    match req.body
    case NotAnObject => Turn(store, Error)
    case Object(_, _) =>
      var sid := SessionOf(req.body);
      var history := WithUser(store, req);
      match provider(BuildContext(history))
      case Completed(text) =>
        Turn(store[sid := history + [Message(Assistant, text, req.replyTime)]], Success(text))
      case Failed =>
        Turn(store[sid := history], Error)
  }

  /** A sequence of requests handled one after another, the i-th with the i-th provider
      behaviour. */
  function Run(store: Store, reqs: seq<Request>, providers: seq<Provider>): Store
    requires |providers| == |reqs|
    decreases |reqs|
  {
    if reqs == [] then store
    else Run(ChatTurn(store, reqs[0], providers[0]).store, reqs[1..], providers[1..])
  }

  lemma ConcatAssoc(a: seq<Message>, b: seq<Message>, c: seq<Message>)
    ensures (a + b) + c == a + (b + c)
  {
  }

  /** `p` is a prefix of `s`. */
  predicate Extends(s: seq<Message>, p: seq<Message>) {
    |p| <= |s| && s[..|p|] == p
  }

  /** A body that is not an object changes nothing and is answered with a 500 error. */
  lemma MalformedBodyChangesNothing(store: Store, req: Request, provider: Provider)
    requires req.body.NotAnObject?
    ensures ChatTurn(store, req, provider).store == store
    ensures ChatTurn(store, req, provider).response.Status() == "error"
    ensures ChatTurn(store, req, provider).response.HttpCode() == 500
  {
  }

  /** Each field is defaulted on its own: a missing message makes the new user entry
      empty, a missing session id makes "default" the session that grows (and no other
      session changes); a present field is used as given. */
  lemma DefaultsApplied(store: Store, req: Request, provider: Provider)
    requires req.body.Object?
    ensures req.body.sessionId.Absent? ==> SessionOf(req.body) == "default"
    ensures req.body.sessionId.Present? ==> SessionOf(req.body) == req.body.sessionId.value
    ensures SessionOf(req.body) in ChatTurn(store, req, provider).store
    ensures |History(store, SessionOf(req.body))| < |ChatTurn(store, req, provider).store[SessionOf(req.body)]|
    ensures req.body.message.Absent? ==>
      ChatTurn(store, req, provider).store[SessionOf(req.body)][|History(store, SessionOf(req.body))|]
        == Message(User, "", req.userTime)
    ensures req.body.message.Present? ==>
      ChatTurn(store, req, provider).store[SessionOf(req.body)][|History(store, SessionOf(req.body))|]
        == Message(User, req.body.message.value, req.userTime)
    ensures req.body.sessionId.Absent? ==>
      forall k :: k != "default" ==> History(ChatTurn(store, req, provider).store, k) == History(store, k)
  {
  }

  /** Only the request's own session changes; every other session keeps its list, and
      the only key that may appear is the request's session id. */
  lemma OtherSessionsUntouched(store: Store, req: Request, provider: Provider, k: string)
    requires req.body.Object? && k != SessionOf(req.body)
    ensures k in ChatTurn(store, req, provider).store <==> k in store
    ensures k in store ==> ChatTurn(store, req, provider).store[k] == store[k]
  {
  }

  /** The keys after a request are the keys before, plus the request's session when it
      was unseen. */
  lemma SessionCreatedLazily(store: Store, req: Request, provider: Provider)
    ensures req.body.Object? ==>
      ChatTurn(store, req, provider).store.Keys == store.Keys + {SessionOf(req.body)}
    ensures req.body.NotAnObject? ==> ChatTurn(store, req, provider).store.Keys == store.Keys
  {
  }

  /** A request never resets or rewrites a session: each list after it starts with the
      whole list before it. */
  lemma ChatExtendsEverySession(store: Store, req: Request, provider: Provider, k: string)
    ensures Extends(History(ChatTurn(store, req, provider).store, k), History(store, k))
  {
  }

  /** On success the session grows by exactly two entries, the user message then the
      assistant reply, and the response carries that reply with status "success". */
  lemma SuccessAppendsUserThenAssistant(store: Store, req: Request, provider: Provider, text: string)
    requires req.body.Object?
    requires provider(BuildContext(WithUser(store, req))) == Completed(text)
    ensures var before := History(store, SessionOf(req.body));
      var after := ChatTurn(store, req, provider).store[SessionOf(req.body)];
      |after| == |before| + 2 &&
      after[..|before|] == before &&
      after[|before|] == Message(User, MessageOf(req.body), req.userTime) &&
      after[|before| + 1] == Message(Assistant, text, req.replyTime)
    ensures ChatTurn(store, req, provider).response == Success(text)
    ensures ChatTurn(store, req, provider).response.Status() == "success"
    ensures ChatTurn(store, req, provider).response.HttpCode() == 200
  {
  }

  /** On failure the user message stays appended, no reply is added, and the response
      is an error with code 500. */
  lemma FailureKeepsUserEntry(store: Store, req: Request, provider: Provider)
    requires req.body.Object?
    requires provider(BuildContext(WithUser(store, req))) == Failed
    ensures var before := History(store, SessionOf(req.body));
      var after := ChatTurn(store, req, provider).store[SessionOf(req.body)];
      |after| == |before| + 1 &&
      after[..|before|] == before &&
      after[|before|] == Message(User, MessageOf(req.body), req.userTime)
    ensures ChatTurn(store, req, provider).response.Status() == "error"
    ensures ChatTurn(store, req, provider).response.HttpCode() == 500
  {
    var before := History(store, SessionOf(req.body));
    var after := ChatTurn(store, req, provider).store[SessionOf(req.body)];
    assert after == before + [Message(User, MessageOf(req.body), req.userTime)];
    assert after[..|before|] == before;
  }

  /** The payload the provider is given starts with the system prompt, holds at most
      WindowSize history entries, and ends with the message of this very request. */
  lemma ProviderSeesCurrentMessage(store: Store, req: Request)
    requires req.body.Object?
    ensures var ctx := BuildContext(WithUser(store, req));
      2 <= |ctx| <= 1 + WindowSize &&
      ctx[0] == SystemEntry &&
      ctx[|ctx| - 1] == Entry(User, MessageOf(req.body))
  {
  }

  /** Over any sequence of requests the store is append-only: every session's list
      after the run starts with its list before. */
  lemma {:induction false} RunExtendsEverySession(store: Store, reqs: seq<Request>, providers: seq<Provider>, k: string)
    requires |providers| == |reqs|
    decreases |reqs|
    ensures Extends(History(Run(store, reqs, providers), k), History(store, k))
  {
    if reqs != [] {
      var next := ChatTurn(store, reqs[0], providers[0]).store;
      ChatExtendsEverySession(store, reqs[0], providers[0], k);
      RunExtendsEverySession(next, reqs[1..], providers[1..], k);
      var a := History(store, k);
      var b := History(next, k);
      var c := History(Run(next, reqs[1..], providers[1..]), k);
      assert c[..|b|] == b;
      assert c[..|a|] == c[..|b|][..|a|];
    }
  }

  /** A run of requests none of which names session `k` leaves `k` as it was. */
  lemma {:induction false} RunLeavesOtherSessions(store: Store, reqs: seq<Request>, providers: seq<Provider>, k: string)
    requires |providers| == |reqs|
    requires forall i :: 0 <= i < |reqs| ==> reqs[i].body.Object? ==> SessionOf(reqs[i].body) != k
    decreases |reqs|
    ensures k in Run(store, reqs, providers) <==> k in store
    ensures History(Run(store, reqs, providers), k) == History(store, k)
  {
    if reqs != [] {
      if reqs[0].body.Object? {
        OtherSessionsUntouched(store, reqs[0], providers[0], k);
      }
      RunLeavesOtherSessions(ChatTurn(store, reqs[0], providers[0]).store, reqs[1..], providers[1..], k);
    }
  }

  /** The user entries that a run of requests appends, in call order; a body that is
      not an object appends none. */
  function UserEntries(reqs: seq<Request>): seq<Message>
    decreases |reqs|
  {
    if reqs == [] then []
    else if reqs[0].body.NotAnObject? then UserEntries(reqs[1..])
    else [Message(User, MessageOf(reqs[0].body), reqs[0].userTime)] + UserEntries(reqs[1..])
  }

  /** `req` is a well-formed request to session `k`. */
  predicate Targets(req: Request, k: string) {
    req.body.Object? && SessionOf(req.body) == k
  }

  /** A provider whose every call fails. */
  ghost predicate AlwaysFails(provider: Provider) {
    forall ctx :: provider(ctx) == Failed
  }

  /** Requests to one session whose provider calls all fail append exactly one user
      entry each, in the order the requests came. */
  lemma {:induction false} FailingRunAppendsInCallOrder(
    store: Store, reqs: seq<Request>, providers: seq<Provider>, k: string)
    requires |providers| == |reqs|
    requires forall i :: 0 <= i < |reqs| ==> Targets(reqs[i], k)
    requires forall i :: 0 <= i < |providers| ==> AlwaysFails(providers[i])
    decreases |reqs|
    ensures History(Run(store, reqs, providers), k) == History(store, k) + UserEntries(reqs)
  {
    if reqs != [] {
      var next := ChatTurn(store, reqs[0], providers[0]).store;
      assert Targets(reqs[0], k);
      FailedTurnAppendsUser(store, reqs[0], providers[0]);
      assert forall i :: 0 <= i < |reqs[1..]| ==> Targets(reqs[1..][i], k) by {
        forall i | 0 <= i < |reqs[1..]| ensures Targets(reqs[1..][i], k) {
          assert reqs[1..][i] == reqs[i + 1];
        }
      }
      FailingRunAppendsInCallOrder(next, reqs[1..], providers[1..], k);
      var before, rest := History(store, k), UserEntries(reqs[1..]);
      var first := Message(User, MessageOf(reqs[0].body), reqs[0].userTime);
      calc {
        History(Run(store, reqs, providers), k);
        History(Run(next, reqs[1..], providers[1..]), k);
        History(next, k) + rest;
        (before + [first]) + rest;
        { ConcatAssoc(before, [first], rest); }
        before + ([first] + rest);
        before + UserEntries(reqs);
      }
    }
  }

  /** The step lemma of FailingRunAppendsInCallOrder: FailureKeepsUserEntry for a
      provider that fails on every payload, stated as the new list. */
  lemma FailedTurnAppendsUser(store: Store, req: Request, provider: Provider)
    requires req.body.Object? && AlwaysFails(provider)
    ensures History(ChatTurn(store, req, provider).store, SessionOf(req.body))
      == History(store, SessionOf(req.body)) + [Message(User, MessageOf(req.body), req.userTime)]
  {
  }

  /** The entries of `ms` whose role is User, in order. */
  function UserOnly(ms: seq<Message>): seq<Message>
    decreases |ms|
  {
    if ms == [] then []
    else if ms[0].role == User then [ms[0]] + UserOnly(ms[1..])
    else UserOnly(ms[1..])
  }

  lemma {:induction false} UserOnlyAppend(a: seq<Message>, b: seq<Message>)
    decreases |a|
    ensures UserOnly(a + b) == UserOnly(a) + UserOnly(b)
  {
    if a == [] {
      assert a + b == b;
    } else {
      var ab := a + b;
      assert ab[0] == a[0];
      assert ab[1..] == a[1..] + b;
      UserOnlyAppend(a[1..], b);
      if a[0].role == User {
        calc {
          UserOnly(ab);
          [a[0]] + UserOnly(a[1..] + b);
          [a[0]] + (UserOnly(a[1..]) + UserOnly(b));
          ([a[0]] + UserOnly(a[1..])) + UserOnly(b);
          UserOnly(a) + UserOnly(b);
        }
      } else {
        calc {
          UserOnly(ab);
          UserOnly(a[1..] + b);
          UserOnly(a[1..]) + UserOnly(b);
          UserOnly(a) + UserOnly(b);
        }
      }
    }
  }

  /** What one request appends to its own session: the user entry, then the reply when
      the provider completes; nothing for a body that is not an object. */
  function Grown(store: Store, req: Request, provider: Provider): seq<Message> {
    match req.body
    case NotAnObject => []
    case Object(_, _) =>
      var user := Message(User, MessageOf(req.body), req.userTime);
      match provider(BuildContext(WithUser(store, req)))
      case Completed(text) => [user, Message(Assistant, text, req.replyTime)]
      case Failed => [user]
  }

  /** What a run appends to the session its requests name, request by request. */
  function Appended(store: Store, reqs: seq<Request>, providers: seq<Provider>): seq<Message>
    requires |providers| == |reqs|
    decreases |reqs|
  {
    if reqs == [] then []
    else
      Grown(store, reqs[0], providers[0])
        + Appended(ChatTurn(store, reqs[0], providers[0]).store, reqs[1..], providers[1..])
  }

  /** One request appends exactly `Grown` to its own session and changes nothing when
      its body is not an object. */
  lemma TurnGrows(store: Store, req: Request, provider: Provider)
    ensures req.body.Object? ==>
      History(ChatTurn(store, req, provider).store, SessionOf(req.body))
        == History(store, SessionOf(req.body)) + Grown(store, req, provider)
    ensures req.body.NotAnObject? ==> ChatTurn(store, req, provider).store == store
  {
  }

  /** What one request appends holds its user entry (if well formed) and at most one
      other entry, which is not a user entry. */
  lemma GrownShape(store: Store, req: Request, provider: Provider)
    ensures UserOnly(Grown(store, req, provider)) == UserEntries([req])
    ensures |UserEntries([req])| <= |Grown(store, req, provider)| <= 2 * |UserEntries([req])|
  {
    assert UserEntries([req])
      == (if req.body.NotAnObject? then [] else [Message(User, MessageOf(req.body), req.userTime)]);
    var g := Grown(store, req, provider);
    if |g| == 2 {
      assert UserOnly(g) == [g[0]] + UserOnly(g[1..]);
      assert UserOnly(g[1..]) == UserOnly(g[1..][1..]);
    }
  }

  /** Whatever the provider does on each call, a run appends between one and two entries
      per well-formed request, and the user entries among them are exactly the requests'
      messages, in call order. */
  lemma {:induction false} AppendedShape(store: Store, reqs: seq<Request>, providers: seq<Provider>)
    requires |providers| == |reqs|
    decreases |reqs|
    ensures UserOnly(Appended(store, reqs, providers)) == UserEntries(reqs)
    ensures |UserEntries(reqs)| <= |Appended(store, reqs, providers)| <= 2 * |UserEntries(reqs)|
  {
    if reqs != [] {
      var next := ChatTurn(store, reqs[0], providers[0]).store;
      var g := Grown(store, reqs[0], providers[0]);
      var rest := Appended(next, reqs[1..], providers[1..]);
      assert Appended(store, reqs, providers) == g + rest;
      GrownShape(store, reqs[0], providers[0]);
      AppendedShape(next, reqs[1..], providers[1..]);
      UserOnlyAppend(g, rest);
      UserEntriesAppend([reqs[0]], reqs[1..]);
      assert [reqs[0]] + reqs[1..] == reqs;
    }
  }

  /** Requests that name session `k` (or are not objects) append to `k` exactly the
      entries `Appended` lists, whatever the provider does on each call; with
      AppendedShape, the requests' messages come out in call order. */
  lemma {:induction false} RunAppendsInCallOrder(
    store: Store, reqs: seq<Request>, providers: seq<Provider>, k: string)
    requires |providers| == |reqs|
    requires forall i :: 0 <= i < |reqs| ==> reqs[i].body.Object? ==> SessionOf(reqs[i].body) == k
    decreases |reqs|
    ensures History(Run(store, reqs, providers), k) == History(store, k) + Appended(store, reqs, providers)
    ensures UserOnly(Appended(store, reqs, providers)) == UserEntries(reqs)
    ensures |UserEntries(reqs)| <= |Appended(store, reqs, providers)| <= 2 * |UserEntries(reqs)|
  {
    AppendedShape(store, reqs, providers);
    if reqs != [] {
      var next := ChatTurn(store, reqs[0], providers[0]).store;
      var g := Grown(store, reqs[0], providers[0]);
      var rest := Appended(next, reqs[1..], providers[1..]);
      TurnGrows(store, reqs[0], providers[0]);
      assert History(next, k) == History(store, k) + g;
      assert forall i :: 0 <= i < |reqs[1..]| ==> reqs[1..][i].body.Object? ==> SessionOf(reqs[1..][i].body) == k by {
        forall i | 0 <= i < |reqs[1..]| ensures reqs[1..][i].body.Object? ==> SessionOf(reqs[1..][i].body) == k {
          assert reqs[1..][i] == reqs[i + 1];
        }
      }
      RunAppendsInCallOrder(next, reqs[1..], providers[1..], k);
      calc {
        History(Run(store, reqs, providers), k);
        History(Run(next, reqs[1..], providers[1..]), k);
        History(next, k) + rest;
        (History(store, k) + g) + rest;
        { ConcatAssoc(History(store, k), g, rest); }
        History(store, k) + (g + rest);
        History(store, k) + Appended(store, reqs, providers);
      }
    }
  }

  lemma {:induction false} UserEntriesAppend(a: seq<Request>, b: seq<Request>)
    decreases |a|
    ensures UserEntries(a + b) == UserEntries(a) + UserEntries(b)
  {
    if a == [] {
      assert a + b == b;
    } else {
      var ab := a + b;
      assert ab[0] == a[0];
      assert ab[1..] == a[1..] + b;
      UserEntriesAppend(a[1..], b);
      if a[0].body.Object? {
        var u := [Message(User, MessageOf(a[0].body), a[0].userTime)];
        calc {
          UserEntries(ab);
          u + UserEntries(a[1..] + b);
          u + (UserEntries(a[1..]) + UserEntries(b));
          (u + UserEntries(a[1..])) + UserEntries(b);
          UserEntries(a) + UserEntries(b);
        }
      } else {
        calc {
          UserEntries(ab);
          UserEntries(a[1..] + b);
          UserEntries(a[1..]) + UserEntries(b);
          UserEntries(a) + UserEntries(b);
        }
      }
    }
  }

  /** The process-wide `conversations` table and the `/api/chat` handler that updates it
      in place. */
  class SessionStore {
    var conversations: Store

    constructor ()
      ensures conversations == map[]
    {
      conversations := map[];
    }

    /** Handles one request: the table becomes what ChatTurn describes, and the
        response is the one ChatTurn gives. */
    method Chat(req: Request, provider: Provider) returns (resp: Response)
      modifies this
      ensures conversations == ChatTurn(old(conversations), req, provider).store
      ensures resp == ChatTurn(old(conversations), req, provider).response
    {
      if req.body.NotAnObject? {
        return Error;
      }
      var message := MessageOf(req.body);
      var sid := SessionOf(req.body);
      if sid !in conversations {
        conversations := conversations[sid := []];
      }
      conversations := conversations[sid := conversations[sid] + [Message(User, message, req.userTime)]];
      var payload := AssemblePayload(conversations[sid]);
      match provider(payload)
      case Completed(text) =>
        conversations := conversations[sid := conversations[sid] + [Message(Assistant, text, req.replyTime)]];
        resp := Success(text);
      case Failed =>
        resp := Error;
    }
  }
}
