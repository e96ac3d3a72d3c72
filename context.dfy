/**
 The context-window builder of the `/api/chat` handler: the transcript entries a
 session keeps, the role/content pairs sent to the completion provider, and the
 bounded payload made of the fixed system prompt followed by the trailing window
 of the session's history.
 */
module Context {

  datatype Role = User | Assistant | System

  /** One transcript entry, as the handler stores it in a session's list. */
  datatype Message = Message(role: Role, content: string, timestamp: string)

  /** One element of the payload sent upstream: a message without its timestamp. */
  datatype Entry = Entry(role: Role, content: string)

  /** How many trailing history entries the payload carries. */
  const WindowSize: nat := 10

  const SystemPrompt: string :=
    "You are a helpful and friendly AI assistant. Keep responses concise and engaging."

  /** The entry every payload starts with. */
  const SystemEntry: Entry := Entry(System, SystemPrompt)

  function ToEntry(m: Message): Entry {
    Entry(m.role, m.content)
  }

  function Min(a: nat, b: nat): nat {
    if a <= b then a else b
  }

  /** The Python slice `history[-WindowSize:]`: the whole list when it is shorter than
      the window, otherwise its last WindowSize entries. */
  function Recent(history: seq<Message>): seq<Message> {
    if |history| <= WindowSize then history else history[|history| - WindowSize..]
  }

  /** The entries of `ms`, in order, each with its timestamp dropped. */
  function Strip(ms: seq<Message>): seq<Entry> {
    seq(|ms|, i requires 0 <= i < |ms| => ToEntry(ms[i]))
  }

  /** The upstream payload for a session whose history is `history`. */
  function BuildContext(history: seq<Message>): seq<Entry> {
    [SystemEntry] + Strip(Recent(history))
  }

  /** The window holds the last min(WindowSize, |history|) entries, in order. */
  lemma RecentIsTrailingWindow(history: seq<Message>)
    ensures |Recent(history)| == Min(WindowSize, |history|)
    ensures Recent(history) == history[|history| - Min(WindowSize, |history|)..]
  {
  }

  /** The payload is the system entry followed by the role and content of the last
      min(WindowSize, |history|) history entries, in chronological order: payload
      position i (from 1) holds history position |history| - min(WindowSize, |history|) + i - 1,
      so no entry older than the window is sent. */
  lemma ContextShape(history: seq<Message>)
    ensures |BuildContext(history)| == 1 + Min(WindowSize, |history|)
    ensures BuildContext(history)[0] == SystemEntry
    ensures forall i :: 1 <= i < |BuildContext(history)| ==>
      BuildContext(history)[i] ==
        Entry(history[|history| - Min(WindowSize, |history|) + i - 1].role,
              history[|history| - Min(WindowSize, |history|) + i - 1].content)
  {
  }

  /** The message appended last is always the last payload entry, so the current
      message is always sent upstream. */
  lemma ContextEndsWithLatest(history: seq<Message>, latest: Message)
    ensures |BuildContext(history + [latest])| >= 2
    ensures BuildContext(history + [latest])[|BuildContext(history + [latest])| - 1] == ToEntry(latest)
  {
  }

  /** The loop of the handler that appends the system entry and then each windowed
      history entry, one at a time, to the payload list. */
  method AssemblePayload(history: seq<Message>) returns (payload: seq<Entry>)
    ensures payload == BuildContext(history)
  {
    payload := [SystemEntry];
    var recent := Recent(history);
    for i := 0 to |recent|
      invariant payload == [SystemEntry] + Strip(recent[..i])
    {
      assert Strip(recent[..i + 1]) == Strip(recent[..i]) + [ToEntry(recent[i])];
      payload := payload + [ToEntry(recent[i])];
    }
    assert recent[..|recent|] == recent;
  }
}
