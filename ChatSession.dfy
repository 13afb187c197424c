/** The chat panel of the medai front end: the message list, the pending-request flag
    and the session id, changed one user turn at a time. Both generations of the panel
    (the current one with Markdown and record rendering, the older one that shows text
    as typed) share this turn protocol; they differ in the welcome text and in how a message is
    displayed. */
module ChatSession {
  import opened Text
  import opened Wrappers
  import opened RecordView

  datatype Message = Message(id: string, role: Role, content: string, timestamp: int)

  /** The reply of the query endpoint. */
  datatype ChatResponse = ChatResponse(
    sessionId: string, content: string, timestamp: int,
    promptTokens: int, completionTokens: int, totalTokens: int)

  /** The body sent to the query endpoint. */
  datatype QueryRequest = QueryRequest(
    prompt: string, role: string, sessionId: Option<string>,
    medicalRecords: string, history: seq<string>)

  const WelcomeId: string := "welcome-message"
  const InitialAssistantId: string := "initial-assistant-message"

  /** The fixed welcome text of the older panel; the current one takes it from the
      page dictionary. */
  const LegacyWelcomeText: string :=
    "Hello! I'm your AI medical assistant. You can type your questions or use the microphone button to speak. How can I help you today?"

  /** Messages with these ids are greetings and never sent back as history. */
  predicate IsSentinel(id: string) {
    id == WelcomeId || id == InitialAssistantId
  }

  /** The contents of the messages that are not greetings, in order. */
  function HistoryOf(msgs: seq<Message>): seq<string> {
    if msgs == [] then []
    else (if IsSentinel(msgs[0].id) then [] else [msgs[0].content]) + HistoryOf(msgs[1..])
  }

  function Contents(msgs: seq<Message>): (r: seq<string>)
    ensures |r| == |msgs|
    ensures forall k :: 0 <= k < |msgs| ==> r[k] == msgs[k].content
  {
    if msgs == [] then [] else [msgs[0].content] + Contents(msgs[1..])
  }

  /** The history of a concatenation is the concatenation of the histories. */
  lemma {:induction false} HistoryAppend(a: seq<Message>, b: seq<Message>)
    ensures HistoryOf(a + b) == HistoryOf(a) + HistoryOf(b)
    decreases |a|
  {
    if a == [] {
      assert a + b == b;
    } else {
      assert (a + b)[1..] == a[1..] + b;
      HistoryAppend(a[1..], b);
    }
  }

  /** Without greetings, the history is every content in order. */
  lemma {:induction false} HistoryNoSentinel(msgs: seq<Message>)
    requires forall k :: 0 <= k < |msgs| ==> !IsSentinel(msgs[k].id)
    ensures HistoryOf(msgs) == Contents(msgs)
    decreases |msgs|
  {
    if msgs != [] {
      HistoryNoSentinel(msgs[1..]);
    }
  }

  /** Message ids made from a clock reading are digits, so never a greeting id. */
  lemma ClockIdNotSentinel(n: nat)
    ensures !IsSentinel(NatToString(n))
  {
    var s := NatToString(n);
    assert '0' <= s[0] <= '9';
  }

  /** One full turn adds the user's text and then the reply to the history. */
  lemma TurnHistory(msgs: seq<Message>, user: Message, reply: Message)
    requires !IsSentinel(user.id) && !IsSentinel(reply.id)
    ensures HistoryOf(msgs + [user, reply]) == HistoryOf(msgs) + [user.content, reply.content]
  {
    HistoryAppend(msgs, [user, reply]);
    assert [user, reply][1..] == [reply];
    assert HistoryOf([reply]) == [reply.content];
  }

  /** The two generations of the chat panel. */
  datatype Generation = Legacy | Current

  /** What a panel shows for a message: the text as typed, or a rendered view. */
  datatype Shown = Plain(text: string) | Rendered(view: View)

  /** How a message is shown: the older panel prints the text as it is, the current one
      passes it through the record renderer. */
  function Display(g: Generation, m: Message): Shown {
    match g
    case Legacy => Plain(m.content)
    case Current => Rendered(Render(m.content, m.role))
  }

  /** The older panel shows every message as typed. The current panel interprets every
      message as Markdown, a user message included, and shows a record card exactly for
      an assistant reply shaped like a record. */
  lemma DisplayByGeneration(g: Generation, m: Message)
    ensures g == Legacy ==> Display(g, m) == Plain(m.content)
    ensures g == Current && m.role == User ==> Display(g, m) == Rendered(Markdown(m.content))
    ensures g == Current ==>
      Display(g, m).Rendered? && (Display(g, m).view.RecordCard? <==> m.role == Assistant && IsRecord(m.content, Assistant))
  {
  }

  class Session {
    var messages: seq<Message>
    var input: string
    var isLoading: bool
    var sessionId: Option<string>
    const welcomeText: string

    /** While a request is pending the last message is the user's, and only the first
        message can be a greeting. */
    ghost predicate Valid()
      reads this
    {
      && (isLoading ==> messages != [] && messages[|messages| - 1].role == User)
      && (forall i :: 0 < i < |messages| ==> !IsSentinel(messages[i].id))
    }

    constructor(welcomeText: string)
      ensures Valid()
      ensures messages == [] && input == [] && !isLoading && sessionId == None
      ensures this.welcomeText == welcomeText
    {
      messages := [];
      input := [];
      isLoading := false;
      sessionId := None;
      this.welcomeText := welcomeText;
    }

    /** The welcome effect: a greeting is placed only into an empty conversation. */
    method AddWelcome(now: int)
      requires Valid()
      modifies this
      ensures Valid()
      ensures old(messages) == [] ==> messages == [Message(WelcomeId, Assistant, welcomeText, now)]
      ensures old(messages) != [] ==> messages == old(messages)
      ensures input == old(input) && isLoading == old(isLoading) && sessionId == old(sessionId)
    {
      if messages == [] {
        messages := [Message(WelcomeId, Assistant, welcomeText, now)];
      }
    }

    method SetInput(text: string)
      requires Valid()
      modifies this
      ensures Valid()
      ensures input == text
      ensures messages == old(messages) && isLoading == old(isLoading) && sessionId == old(sessionId)
    {
      input := text;
    }

    /** The first half of a turn: blank text, or any text while a request is pending,
        is ignored; otherwise one user message is appended, the input is cleared, the
        panel waits, and the request to send is returned. */
    method Submit(content: string, record: string, now: nat) returns (req: Option<QueryRequest>)
      requires Valid()
      modifies this
      ensures Valid()
      ensures req.None? <==> IsBlank(content) || old(isLoading)
      ensures req.None? ==>
        messages == old(messages) && input == old(input) && isLoading == old(isLoading)
        && sessionId == old(sessionId)
      ensures req.Some? ==>
        && req.value == QueryRequest(content, "patient", old(sessionId), record, HistoryOf(old(messages)))
        && messages == old(messages) + [Message(NatToString(now), User, content, now)]
        && input == [] && isLoading && sessionId == old(sessionId)
    {
      if IsBlank(content) || isLoading {
        return None;
      }
      ClockIdNotSentinel(now);
      req := Some(QueryRequest(content, "patient", sessionId, record, HistoryOf(messages)));
      messages := messages + [Message(NatToString(now), User, content, now)];
      input := [];
      isLoading := true;
    }

    /** The send button: the typed text is submitted. */
    method SubmitInput(record: string, now: nat) returns (req: Option<QueryRequest>)
      requires Valid()
      modifies this
      ensures Valid()
      ensures req.None? <==> IsBlank(old(input)) || old(isLoading)
      ensures req.Some? ==>
        req.value == QueryRequest(old(input), "patient", old(sessionId), record, HistoryOf(old(messages)))
        && messages == old(messages) + [Message(NatToString(now), User, old(input), now)]
        && input == [] && isLoading && sessionId == old(sessionId)
      ensures req.None? ==>
        messages == old(messages) && input == old(input) && isLoading == old(isLoading)
        && sessionId == old(sessionId)
    {
      req := Submit(input, record, now);
    }

    /** The second half of a turn, on a reply: the session id is replaced and one
        assistant message carrying the reply's timestamp is appended; the panel stops
        waiting. */
    method ApplySuccess(resp: ChatResponse, now: nat)
      requires Valid()
      modifies this
      ensures Valid()
      ensures !isLoading && input == old(input)
      ensures sessionId == Some(resp.sessionId)
      ensures messages == old(messages) + [Message(NatToString(now), Assistant, resp.content, resp.timestamp)]
    {
      ClockIdNotSentinel(now);
      sessionId := Some(resp.sessionId);
      messages := messages + [Message(NatToString(now), Assistant, resp.content, resp.timestamp)];
      isLoading := false;
    }

    /** The second half of a turn, on a failure: nothing is appended, the user's message
        stays, and the panel stops waiting. */
    method ApplyFailure()
      requires Valid()
      modifies this
      ensures Valid()
      ensures !isLoading && input == old(input)
      ensures sessionId == old(sessionId) && messages == old(messages)
    {
      isLoading := false;
    }

    /** The history sent is every earlier message except a leading greeting. */
    lemma SentHistory()
      requires Valid()
      ensures messages != [] && IsSentinel(messages[0].id) ==> HistoryOf(messages) == Contents(messages[1..])
      ensures messages == [] || !IsSentinel(messages[0].id) ==> HistoryOf(messages) == Contents(messages)
    {
      if messages != [] {
        HistoryNoSentinel(messages[1..]);
        if !IsSentinel(messages[0].id) {
          HistoryNoSentinel(messages);
        }
      }
    }
  }
}
