/**
  `GoogleGeminiBot`: its configuration, its session store and `reply`,
  which answers one query by sending the normalised, converted and
  possibly grounded history to the Gemini API and recording the outcome.
 */
module GeminiBot {
  import opened Common
  import opened PyStr
  import opened History
  import opened Wire
  import opened Grounding
  import opened Bridge

  const DefaultModel := "gemini-pro"
  const RateLimitNotice := "提问太快啦，请休息一下再问我吧"
  const SafetyNotice := "No valid response generated due to safety constraints."
  const FailureNotice := "Failed to invoke [Gemini] api!"

  /**
    The model the bot asks for: the configured name, unless it is missing
    or empty, which gives "gemini-pro", or the alias "gemini", which stands
    for "gemini-pro" too.
   */
  function ModelName(configured: Option<string>): (name: string)
    ensures name != "" && name != "gemini"
    ensures configured.Some? && configured.value != "" && configured.value != "gemini" ==> name == configured.value
    ensures configured.None? || configured.value == "" || configured.value == "gemini" ==> name == DefaultModel
  {
    var name := if configured.Some? && configured.value != "" then configured.value else DefaultModel;
    if name == "gemini" then DefaultModel else name
  }

  /** The grounding prefix in force: a configured non-empty prefix, or none. */
  function GroundingPrefix(configured: Option<string>): (prefix: Option<string>)
    ensures prefix.Some? ==> prefix == configured && prefix.value != ""
    ensures prefix.None? ==> configured.None? || configured.value == ""
  {
    if configured.Some? && configured.value != "" then configured else None
  }

  /** One candidate of a response; `None` stands for a candidate without usable content. */
  datatype Candidate = Candidate(content: Option<seq<Part>>)

  /** What `generate_content` gives back: a response with its candidates, or an exception. */
  datatype ApiResponse = Response(candidates: seq<Candidate>) | Raised

  /** How an attempt to answer ends. */
  datatype Outcome = Answered(text: string) | Withheld | Failed

  /**
    Reading a response: the first part of the first candidate's content is
    the answer; a response without candidates or whose first candidate has
    no content was withheld; an exception, or a first candidate whose
    content has no part to index, is a failure.
   */
  function Classify(response: ApiResponse): (o: Outcome)
    ensures o.Answered? <==>
      response.Response? && |response.candidates| > 0 && response.candidates[0].content.Some?
      && |response.candidates[0].content.value| > 0
    ensures o.Answered? ==> o.text == response.candidates[0].content.value[0].text
    ensures o.Withheld? <==>
      response.Response? && (|response.candidates| == 0 || response.candidates[0].content.None?)
  {
    match response
    case Raised => Failed
    case Response(candidates) =>
      if |candidates| > 0 && candidates[0].content.Some? then
        var parts := candidates[0].content.value;
        if |parts| > 0 then Answered(parts[0].text) else Failed
      else Withheld
  }

  /**
    The reply for an outcome. It always has content, and that content is
    exactly what is recorded as the assistant's turn; it is a text reply
    exactly when the API answered, and then carries the answer.
   */
  function ReplyFor(o: Outcome): (r: Reply)
    ensures r.content.Some?
    ensures r.kind == TextReply <==> o.Answered?
    ensures o.Answered? ==> r.content.value == o.text
    ensures o.Withheld? ==> r == Reply(ErrorReply, Some(SafetyNotice))
    ensures o.Failed? ==> r == Reply(ErrorReply, Some(FailureNotice))
  {
    match o
    case Answered(text) => Reply(TextReply, Some(text))
    case Withheld => Reply(ErrorReply, Some(SafetyNotice))
    case Failed => Reply(ErrorReply, Some(FailureNotice))
  }

  /** The outcome of answering from `history`: normalise, convert, ground, call the API, classify. */
  function Attempt(model: string, history: seq<Message>, prefix: Option<string>,
                   api: (string, seq<GeminiTurn>, bool) -> ApiResponse): Outcome
  {
    match Ground(Converted(Filtered(history)), prefix)
    case LastTurnMissing => Failed
    case Grounded(turns, enabled) => Classify(api(model, turns, enabled))
  }

  /**
    Once the query has been appended, the API is always called, with the
    grounded turns, and grounding on exactly when a prefix is set and the
    query starts with it.
   */
  lemma AttemptCallsApi(model: string, history: seq<Message>, query: string, prefix: Option<string>,
                        api: (string, seq<GeminiTurn>, bool) -> ApiResponse)
    ensures var g := Ground(Converted(Filtered(history + [Message(User, query)])), prefix);
      g.Grounded?
      && Attempt(model, history + [Message(User, query)], prefix, api)
         == Classify(api(model, g.turns, prefix.Some? && StartsWith(query, prefix.value)))
  {
    GroundQuery(history, query, prefix);
  }

  /**
    On `reply`'s path, an API that answers with no candidate at all gives
    the safety notice as an ERROR reply.
   */
  lemma NoCandidateReply(model: string, history: seq<Message>, query: string, prefix: Option<string>,
                         api: (string, seq<GeminiTurn>, bool) -> ApiResponse)
    requires forall name, turns, grounding :: api(name, turns, grounding) == Response([])
    ensures ReplyFor(Attempt(model, history + [Message(User, query)], prefix, api))
         == Reply(ErrorReply, Some(SafetyNotice))
  {
    AttemptCallsApi(model, history, query, prefix, api);
  }

  /** On `reply`'s path, an API call that raises gives the failure notice as an ERROR reply. */
  lemma RaisedReply(model: string, history: seq<Message>, query: string, prefix: Option<string>,
                    api: (string, seq<GeminiTurn>, bool) -> ApiResponse)
    requires forall name, turns, grounding :: api(name, turns, grounding) == Raised
    ensures ReplyFor(Attempt(model, history + [Message(User, query)], prefix, api))
         == Reply(ErrorReply, Some(FailureNotice))
  {
    AttemptCallsApi(model, history, query, prefix, api);
  }

  class GoogleGeminiBot {
    var model: string
    /** Whether `rate_limit_chatgpt` is configured, so that the token bucket is consulted. */
    var rateLimited: bool
    var groundingPrefix: Option<string>
    /** The session store: the messages of each session, oldest first. */
    var sessions: map<string, seq<Message>>

    constructor(configuredModel: Option<string>, rateLimit: bool, configuredPrefix: Option<string>)
      ensures model == ModelName(configuredModel)
      ensures rateLimited == rateLimit
      ensures groundingPrefix == GroundingPrefix(configuredPrefix)
      ensures sessions == map[]
    {
      sessions := map[];
      model := if configuredModel.Some? && configuredModel.value != "" then configuredModel.value else DefaultModel;
      rateLimited := rateLimit;
      groundingPrefix := None;
      new;
      if model == "gemini" {
        model := DefaultModel;
      }
      if configuredPrefix.Some? && configuredPrefix.value != "" {
        groundingPrefix := configuredPrefix;
      }
    }

    /** The messages of session `id`; a session not seen yet is empty. */
    function HistoryOf(id: string): seq<Message>
      reads this
    {
      if id in sessions then sessions[id] else []
    }

    /** `session_query`: append the user's query to the session and return its messages. */
    method SessionQuery(query: string, sessionId: string) returns (messages: seq<Message>)
      modifies this`sessions
      ensures sessions == old(sessions)[sessionId := old(HistoryOf(sessionId)) + [Message(User, query)]]
      ensures messages == sessions[sessionId]
    {
      messages := HistoryOf(sessionId) + [Message(User, query)];
      sessions := sessions[sessionId := messages];
    }

    /** `session_reply`: append the assistant's reply to the session. */
    method SessionReply(reply: string, sessionId: string)
      modifies this`sessions
      ensures sessions == old(sessions)[sessionId := old(HistoryOf(sessionId)) + [Message(Assistant, reply)]]
    {
      sessions := sessions[sessionId := HistoryOf(sessionId) + [Message(Assistant, reply)]];
    }

    /**
      The middle of `reply`: normalise and convert the session's messages,
      apply the grounding check, and call the API unless the check fails.
     */
    method Ask(messages: seq<Message>, api: (string, seq<GeminiTurn>, bool) -> ApiResponse)
      returns (outcome: Outcome)
      ensures outcome == Attempt(model, messages, groundingPrefix, api)
    {
      var filtered := FilterMessages(messages);
      var geminiMessages := ConvertToGeminiMessages(filtered);
      var grounding := ApplyGrounding(geminiMessages, groundingPrefix);
      if grounding.LastTurnMissing? {
        outcome := Failed;
      } else {
        var response := api(model, grounding.turns, grounding.enabled);
        outcome := Classify(response);
      }
    }

    /** The end of `reply`: record the outcome as the assistant's turn and build the reply. */
    method RecordOutcome(outcome: Outcome, sessionId: string) returns (r: Bridge.Reply)
      modifies this`sessions
      ensures r == ReplyFor(outcome)
      ensures sessions == old(sessions)[sessionId := old(HistoryOf(sessionId)) + [Message(Assistant, r.content.value)]]
    {
      match outcome {
        case Answered(replyText) =>
          SessionReply(replyText, sessionId);
          r := Bridge.Reply(TextReply, Some(replyText));
        case Withheld =>
          SessionReply(SafetyNotice, sessionId);
          r := Bridge.Reply(ErrorReply, Some(SafetyNotice));
        case Failed =>
          SessionReply(FailureNotice, sessionId);
          r := Bridge.Reply(ErrorReply, Some(FailureNotice));
      }
    }

    /**
      `reply`. A non-text request gets an empty text reply and a request
      refused by the rate limiter a text notice, both leaving the sessions
      alone. Otherwise the query and then exactly one assistant record are
      appended to the session, and the record is the reply's content.
     */
    method Reply(query: string, context: Context, tokenGranted: bool,
                 api: (string, seq<GeminiTurn>, bool) -> ApiResponse) returns (r: Bridge.Reply)
      modifies this`sessions
      ensures context.kind != Text ==> r == Bridge.Reply(TextReply, None) && sessions == old(sessions)
      ensures context.kind == Text && rateLimited && !tokenGranted ==>
        r == Bridge.Reply(TextReply, Some(RateLimitNotice)) && sessions == old(sessions)
      ensures context.kind == Text && !(rateLimited && !tokenGranted) ==>
        var asked := old(HistoryOf(context.sessionId)) + [Message(User, query)];
        r == ReplyFor(Attempt(model, asked, groundingPrefix, api))
        && sessions == old(sessions)[context.sessionId := asked + [Message(Assistant, r.content.value)]]
    {
      if context.kind != Text {
        return Bridge.Reply(TextReply, None);
      }
      if rateLimited && !tokenGranted {
        return Bridge.Reply(TextReply, Some(RateLimitNotice));
      }
      var sessionId := context.sessionId;
      var messages := SessionQuery(query, sessionId);
      var outcome := Ask(messages, api);
      r := RecordOutcome(outcome, sessionId);
    }
  }
}
