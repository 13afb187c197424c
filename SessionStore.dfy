/** The consultation endpoint of the monolith and of the modular backend: a process-wide
    table from session id to the list of earlier replies, read and written once per
    question. Fresh ids and clock readings are passed in, and the model is a function
    from the request to its outcome. */
module SessionStore {
  import opened Wrappers
  import opened Text
  import opened Prompts

  /** The reply of the consultation endpoint. */
  datatype QueryReply = QueryReply(
    sessionId: string, content: string, timestamp: int,
    promptTokens: int, completionTokens: int, totalTokens: int)

  /** The session id a question is filed under: the client's, unless it is missing or
      empty, in which case the fresh one. */
  function ResolveId(sessionId: Option<string>, freshId: string): (id: string)
    ensures sessionId.Some? && sessionId.value != [] ==> id == sessionId.value
    ensures sessionId.None? || sessionId.value == [] ==> id == freshId
    ensures freshId != [] ==> id != []
  {
    if sessionId.Some? && sessionId.value != [] then sessionId.value else freshId
  }

  /** The history a question builds on: the client's when it sent a non-empty one,
      otherwise what is stored under the id, otherwise nothing. */
  function PriorHistory(sessions: map<string, seq<string>>, id: string, clientHistory: seq<string>): seq<string> {
    if |clientHistory| > 0 then clientHistory
    else if id in sessions then sessions[id]
    else []
  }

  /** What one question sends to the model. The modular backend asks for a JSON object,
      the monolith does not. */
  function QueryRequest(backend: Backend, domain: string, prompt: string, role: string,
                        records: Option<string>, prior: seq<string>): (r: LlmRequest)
    ensures r.messages == QueryMessages(prior, QueryContext(role, domain, records), prompt)
    ensures r.jsonObject <==> backend == Modular
  {
    LlmRequest(QueryMessages(prior, QueryContext(role, domain, records), prompt), backend == Modular)
  }

  /** The table after one question: a reply is added to the prior history under the id;
      without a reply, only a non-empty client history has been stored. */
  function StoreAfter(sessions: map<string, seq<string>>, id: string, clientHistory: seq<string>,
                      outcome: Result<Completion, string>): map<string, seq<string>> {
    match outcome
    case Ok(c) => sessions[id := PriorHistory(sessions, id, clientHistory) + [c.content]]
    case Err(_) => if |clientHistory| > 0 then sessions[id := clientHistory] else sessions
  }

  /** A reply grows the history of its own session by exactly that reply and leaves
      every other session as it was. */
  lemma StoreAfterReply(sessions: map<string, seq<string>>, id: string, clientHistory: seq<string>, c: Completion)
    ensures var after := StoreAfter(sessions, id, clientHistory, Ok(c));
      && id in after
      && after[id] == PriorHistory(sessions, id, clientHistory) + [c.content]
      && |after[id]| == |PriorHistory(sessions, id, clientHistory)| + 1
      && after.Keys == sessions.Keys + {id}
      && forall k :: k in sessions && k != id ==> after[k] == sessions[k]
  {
  }

  /** Without a client history, consecutive questions on one session see every earlier
      reply, oldest first: the history seen by the second is the one seen by the first
      plus the first reply. */
  lemma ConsecutiveQuestions(sessions: map<string, seq<string>>, id: string, c1: Completion)
    ensures PriorHistory(StoreAfter(sessions, id, [], Ok(c1)), id, [])
         == PriorHistory(sessions, id, []) + [c1.content]
  {
  }

  /** A client history replaces the stored one, even when the model then fails. */
  lemma ClientHistoryWins(sessions: map<string, seq<string>>, id: string, clientHistory: seq<string>,
                          outcome: Result<Completion, string>)
    requires |clientHistory| > 0
    ensures var after := StoreAfter(sessions, id, clientHistory, outcome);
      id in after && after[id] == clientHistory + (if outcome.Ok? then [outcome.value.content] else [])
  {
  }

  /** A history the server has stored, once joined into the assistant message, splits
      back into the same entries when none of them holds a line break. */
  lemma StoredHistoryReachesModel(sessions: map<string, seq<string>>, id: string, c: Completion,
                                  backend: Backend, domain: string, prompt: string, role: string,
                                  records: Option<string>)
    requires '\n' !in c.content
    requires id in sessions ==> forall k :: 0 <= k < |sessions[id]| ==> '\n' !in sessions[id][k]
    ensures var after := StoreAfter(sessions, id, [], Ok(c));
      var prior := PriorHistory(after, id, []);
      Split(QueryRequest(backend, domain, prompt, role, records, prior).messages[0].content, '\n') == prior
  {
    var after := StoreAfter(sessions, id, [], Ok(c));
    var prior := PriorHistory(after, id, []);
    assert prior == PriorHistory(sessions, id, []) + [c.content];
    QueryMessagesHistory(prior, QueryContext(role, domain, records), prompt);
  }

  class Store {
    var sessions: map<string, seq<string>>
    const backend: Backend
    const domain: string

    /** The table starts empty. */
    constructor(backend: Backend, domain: string)
      ensures sessions == map[] && this.backend == backend && this.domain == domain
    {
      sessions := map[];
      this.backend := backend;
      this.domain := domain;
    }

    /** One question: resolve the id, pick the prior history (storing a client history
        at once), send assistant history, system context and question, and on a reply
        store the prior history plus the reply. The reply carries the resolved id. */
    method Query(prompt: string, role: string, sessionId: Option<string>, records: Option<string>,
                 clientHistory: seq<string>, freshId: string, now: int,
                 llm: LlmRequest -> Result<Completion, string>)
      returns (reply: Result<QueryReply, string>)
      modifies this
      ensures var id := ResolveId(sessionId, freshId);
        var prior := PriorHistory(old(sessions), id, clientHistory);
        var outcome := llm(QueryRequest(backend, domain, prompt, role, records, prior));
        && sessions == StoreAfter(old(sessions), id, clientHistory, outcome)
        && (outcome.Ok? ==> reply == Ok(QueryReply(id, outcome.value.content, now,
              outcome.value.usage.promptTokens, outcome.value.usage.completionTokens,
              outcome.value.usage.totalTokens)))
        && (outcome.Err? ==> reply == Err(outcome.error))
    {
      var id := sessionId.GetOr([]);
      if id == [] {
        id := freshId;
      }
      var history: seq<string>;
      if |clientHistory| > 0 {
        sessions := sessions[id := clientHistory];
        history := clientHistory;
      } else {
        history := if id in sessions then sessions[id] else [];
      }
      var context := QueryContext(role, domain, records);
      var messages := QueryMessages(history, context, prompt);
      var outcome := llm(LlmRequest(messages, backend == Modular));
      match outcome {
        case Ok(c) =>
          history := history + [c.content];
          sessions := sessions[id := history];
          reply := Ok(QueryReply(id, c.content, now, c.usage.promptTokens, c.usage.completionTokens, c.usage.totalTokens));
        case Err(e) =>
          reply := Err(e);
      }
    }
  }
}
