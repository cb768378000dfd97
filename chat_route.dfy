/**
 * The `POST /api/chat` handler: it validates the prompt, forwards it to the
 * DeepSeek chat-completion endpoint as a fixed two-message exchange and maps
 * the endpoint's answer or failure to a status and a JSON body.
 *
 * The upstream call is not performed here: its outcome is an input, and the
 * handler's result records whether the call was issued at all and with which
 * request.
 */
module ChatRoute {
  import opened Wrappers

  const PromptRequired := "Prompt is required"
  const NoResponse := "No response received"
  const RateLimited := "Rate limit exceeded"
  const UpstreamFailed := "Failed to fetch response from DeepSeek"

  const ModelName := "deepseek-chat"
  const SystemPreamble := "You are a helpful assistant."
  const MaxTokens := 2000
  /** The sampling temperature 0.7, carried in tenths. */
  const TemperatureTenths := 7

  datatype Role = System | User
  datatype ChatMessage = ChatMessage(role: Role, content: string)
  datatype CompletionRequest = CompletionRequest(
    model: string, messages: seq<ChatMessage>, temperatureTenths: nat, maxTokens: nat)

  /** One completion choice; `content` is `None` when `message` or its `content` is missing or null. */
  datatype Choice = Choice(content: Option<string>)

  /**
   * What the client library's call may throw: an `Error` instance, whose
   * `status` property may be absent, or any other value.
   */
  datatype Thrown = ErrorInstance(message: string, status: Option<int>) | NonError

  datatype UpstreamOutcome = Completion(choices: seq<Choice>) | Threw(thrown: Thrown)

  /** The JSON bodies the handler produces: `{message}` or `{error}`. */
  datatype Body = MessageBody(message: string) | ErrorBody(error: string)
  datatype Reply = Reply(status: int, body: Body)

  /** The request sent upstream (if any) and the reply returned to the caller. */
  datatype Exchange = Exchange(request: Option<CompletionRequest>, reply: Reply)

  /** JavaScript truthiness of the decoded `prompt` field: missing, null and "" are its only falsy values. */
  predicate IsTruthy(prompt: Option<string>): (truthy: bool)
    ensures !truthy <==> prompt in {None, Some("")}
  {
    prompt.Some? && prompt.value != ""
  }

  /**
   * The request the handler sends upstream for a prompt: the fixed model,
   * temperature and token limit, and exactly two messages, the system
   * preamble first and the prompt, untouched, as the user message last.
   */
  function RequestFor(prompt: string): (r: CompletionRequest)
    ensures r.model == ModelName && r.temperatureTenths == TemperatureTenths && r.maxTokens == MaxTokens
    ensures |r.messages| == 2
    ensures r.messages[0] == ChatMessage(System, SystemPreamble)
    ensures r.messages[1] == ChatMessage(User, prompt)
  {
    CompletionRequest(
      ModelName,
      [ChatMessage(System, SystemPreamble), ChatMessage(User, prompt)],
      TemperatureTenths,
      MaxTokens)
  }

  /**
   * The content of the reply: the first choice's message content when there
   * is a first choice whose message has a non-empty content, and the fixed
   * fallback in every other case.
   */
  function ReplyContent(choices: seq<Choice>): (c: string)
    ensures c != ""
    ensures (|choices| > 0 && choices[0].content.Some? && choices[0].content.value != "") ==>
      c == choices[0].content.value
    ensures (|choices| == 0 || choices[0].content.None? || choices[0].content.value == "") ==>
      c == NoResponse
  {
    if |choices| > 0 && choices[0].content.Some? && choices[0].content.value != "" then
      choices[0].content.value
    else
      NoResponse
  }

  /** The catch block: a generic 500, refined by the thrown value's message and by a 429 status. */
  function FailureReply(thrown: Thrown): (r: Reply)
    ensures r.status == 429 <==> thrown.ErrorInstance? && thrown.status == Some(429)
    ensures r.status != 429 ==> r.status == 500
    ensures r.body.ErrorBody?
    ensures r.status == 429 ==> r.body.error == RateLimited
    ensures thrown.NonError? ==> r.body.error == UpstreamFailed
    ensures thrown.ErrorInstance? && r.status == 500 ==> r.body.error == thrown.message
  {
    match thrown
    case NonError => Reply(500, ErrorBody(UpstreamFailed))
    case ErrorInstance(message, status) =>
      if status == Some(429) then Reply(429, ErrorBody(RateLimited))
      else Reply(500, ErrorBody(message))
  }

  /**
   * The handler. Its status says which path was taken: 400 exactly for a
   * falsy prompt (and then no request goes upstream), 200 exactly for a
   * completion, 429 exactly for a thrown `Error` whose status is 429, and
   * 500 for every other thrown value. Success bodies carry only `message`,
   * error bodies only `error`.
   */
  function Post(prompt: Option<string>, upstream: UpstreamOutcome): (x: Exchange)
    ensures x.request.Some? <==> IsTruthy(prompt)
    ensures x.request.Some? ==> x.request.value == RequestFor(prompt.value)
    ensures x.reply.status == 400 <==> !IsTruthy(prompt)
    ensures x.reply.status == 200 <==> IsTruthy(prompt) && upstream.Completion?
    ensures x.reply.status == 429 <==>
              IsTruthy(prompt) && upstream.Threw? && upstream.thrown.ErrorInstance?
              && upstream.thrown.status == Some(429)
    ensures x.reply.status in {200, 400, 429, 500}
    ensures x.reply.body.MessageBody? <==> x.reply.status == 200
  {
    if !IsTruthy(prompt) then
      Exchange(None, Reply(400, ErrorBody(PromptRequired)))
    else
      var request := RequestFor(prompt.value);
      match upstream
      case Completion(choices) => Exchange(Some(request), Reply(200, MessageBody(ReplyContent(choices))))
      case Threw(thrown) => Exchange(Some(request), FailureReply(thrown))
  }

  /** A falsy prompt is rejected with 400 before, and regardless of, any upstream call. */
  lemma FalsyPromptRejected(prompt: Option<string>, upstream: UpstreamOutcome, other: UpstreamOutcome)
    requires !IsTruthy(prompt)
    ensures Post(prompt, upstream) == Exchange(None, Reply(400, ErrorBody(PromptRequired)))
    ensures Post(prompt, upstream) == Post(prompt, other)
  {
  }

  /**
   * The server does not trim: any non-empty prompt, whitespace-only ones
   * included, goes upstream as the user message after the fixed system
   * message, with the fixed model and token limit.
   */
  lemma NonEmptyPromptForwarded(prompt: string, upstream: UpstreamOutcome)
    requires prompt != ""
    ensures var request := Post(Some(prompt), upstream).request;
      && request.Some?
      && request.value.model == ModelName
      && request.value.maxTokens == MaxTokens
      && request.value.temperatureTenths == TemperatureTenths
      && request.value.messages == [ChatMessage(System, SystemPreamble), ChatMessage(User, prompt)]
  {
  }

  /** A completion is answered with 200 and choice 0's content, or the fallback when there is none. */
  lemma CompletionAnswered(prompt: string, choices: seq<Choice>)
    requires prompt != ""
    ensures Post(Some(prompt), Completion(choices)).reply == Reply(200, MessageBody(ReplyContent(choices)))
    ensures choices == [] ==> Post(Some(prompt), Completion(choices)).reply.body.message == NoResponse
  {
  }

  /** The 429 case replaces the error's own message. */
  lemma RateLimitOverridesMessage(prompt: string, message: string)
    requires prompt != ""
    ensures Post(Some(prompt), Threw(ErrorInstance(message, Some(429)))).reply
              == Reply(429, ErrorBody(RateLimited))
  {
  }

  /** Any other `Error` surfaces its own message with 500; a non-`Error` value a fixed one. */
  lemma OtherFailuresAre500(prompt: string, thrown: Thrown)
    requires prompt != ""
    requires !(thrown.ErrorInstance? && thrown.status == Some(429))
    ensures Post(Some(prompt), Threw(thrown)).reply ==
      Reply(500, ErrorBody(if thrown.NonError? then UpstreamFailed else thrown.message))
  {
  }
}
