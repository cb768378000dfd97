/**
 * The client and the proxy together: the proxy's reply as the client's
 * `fetch` sees it, and what a send cycle ends with for each upstream
 * outcome.
 */
module Pipeline {
  import opened Wrappers
  import JsText
  import opened ChatRoute
  import opened VoiceInput

  /** The proxy's reply as a fetch response: its status, and a JSON body whose `message` is present only on success. */
  function Delivered(reply: Reply): (outcome: FetchOutcome)
    ensures outcome.Response? && outcome.status == reply.status && outcome.body.Json?
    ensures outcome.body.message.Some? <==> reply.body.MessageBody?
    ensures reply.body.MessageBody? ==> outcome.body.message == Some(reply.body.message)
  {
    Response(reply.status, Json(if reply.body.MessageBody? then Some(reply.body.message) else None))
  }

  /**
   * A prompt the client lets through (not blank) is truthy for the proxy:
   * it always goes upstream and is never answered with 400.
   */
  lemma ClientPromptsPassValidation(prompt: string, upstream: UpstreamOutcome)
    requires !JsText.IsBlank(prompt)
    ensures Post(Some(prompt), upstream).request == Some(RequestFor(prompt))
    ensures Post(Some(prompt), upstream).reply.status != 400
  {
    assert prompt != "";
  }

  /**
   * Through the proxy, a send cycle answers exactly when the upstream
   * completes, and then with the proxy's content: the client's own
   * fallback for a missing or empty `message` is never used. Every
   * upstream failure, the rate limit included, ends in the generic error.
   */
  lemma ProxyOutcomeSettlesClient(prompt: string, upstream: UpstreamOutcome)
    requires prompt != ""
    ensures var settlement := Settle(Delivered(Post(Some(prompt), upstream).reply));
      && (settlement.Answered? <==> upstream.Completion?)
      && (upstream.Completion? ==> settlement == Answered(ReplyContent(upstream.choices)))
  {
  }

  /** A whitespace-only prompt ends with the validation error and no request. */
  method BlankPromptScenario() returns (error: Option<string>, posted: seq<string>, loading: bool)
    ensures error == Some(VoiceInput.PromptRequired) && posted == [] && !loading
  {
    var session := new PromptSession("", false);
    session.EditPrompt("  ");
    session.Send();
    error, posted, loading := session.error, session.posted, session.isLoading;
  }

  /** "Hello" answered upstream with "Hi there": the response shows it and the cycle ends at 100. */
  method HelloScenario() returns (response: string, error: Option<string>, progress: int, notified: seq<string>)
    ensures response == "Hi there" && error == None && progress == 100 && notified == ["Hello"]
  {
    var session := new PromptSession("", true);
    session.EditPrompt("Hello");
    assert !JsText.IsJsWhitespace(session.prompt[0]);
    session.Send();
    var exchange := Post(Some(session.posted[0]), Completion([Choice(Some("Hi there"))]));
    session.Resolve(Delivered(exchange.reply));
    response, error, progress, notified := session.response, session.error, session.progress, session.notified;
  }

  /** A rate-limited upstream: the proxy answers 429, the client shows only its generic error. */
  method RateLimitScenario() returns (status: int, error: Option<string>, response: string)
    ensures status == 429 && error == Some(VoiceInput.FetchFailed) && response == ""
  {
    var session := new PromptSession("", true);
    session.EditPrompt("Hello");
    assert !JsText.IsJsWhitespace(session.prompt[0]);
    session.Send();
    var exchange := Post(Some(session.posted[0]), Threw(ErrorInstance("429 Too Many Requests", Some(429))));
    session.Resolve(Delivered(exchange.reply));
    status, error, response := exchange.reply.status, session.error, session.response;
  }

  /** An upstream completion with no choices: the proxy answers 200 with its fallback, which the client shows. */
  method EmptyChoicesScenario() returns (status: int, response: string)
    ensures status == 200 && response == ChatRoute.NoResponse
  {
    var session := new PromptSession("", false);
    session.EditPrompt("Hello");
    assert !JsText.IsJsWhitespace(session.prompt[0]);
    session.Send();
    var exchange := Post(Some(session.posted[0]), Completion([]));
    session.Resolve(Delivered(exchange.reply));
    status, response := exchange.reply.status, session.response;
  }
}
