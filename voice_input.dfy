/**
 * The voice-input component's session: the prompt being edited, the last
 * answer, the loading flag, the error shown to the user and the progress
 * percentage, updated in place by the component's handlers.
 *
 * `handleSendPrompt` runs in two halves separated by the `fetch`: `Send`
 * is everything up to issuing the request, `Resolve` is everything after
 * it (the `try` body, `catch` and `finally`), with the fetch's outcome as
 * input. Each progress simulator is an `setInterval` whose ticks are
 * events (`Tick`); the simulators are never cancelled by anything but
 * themselves.
 */
module VoiceInput {
  import opened Wrappers
  import JsText
  import SpeechHook
  import SpeechRecognition

  const PromptRequired := "Пожалуйста, введите или произнесите запрос"
  const FetchFailed := "Ошибка при получении ответа. Пожалуйста, попробуйте снова."
  const NoAnswer := "Не удалось получить ответ"

  /** Each simulator tick adds this much to the simulator's own counter. */
  const ProgressStep := 10
  const FullProgress := 100

  /** The decoded body of the proxy's reply: a JSON object whose `message` may be missing, or no usable JSON at all. */
  datatype ResponseBody = Json(message: Option<string>) | Undecodable

  /** What `fetch("/api/chat")` yields: a response with a status, or a rejection. */
  datatype FetchOutcome = Response(status: int, body: ResponseBody) | NetworkError

  /** How a send cycle ends: with the text to show, or with the generic failure. */
  datatype Settlement = Answered(text: string) | Failed

  /** `res.ok`: the status is of the 2xx class. */
  predicate IsOk(status: int): (ok: bool)
    ensures ok <==> status >= 0 && status / 100 == 2
  {
    200 <= status <= 299
  }

  /**
   * The `try` body: a non-ok status, a rejected fetch or an undecodable
   * body fail; otherwise the answer is `data.message`, or the fixed
   * fallback when that is missing or empty.
   */
  function Settle(outcome: FetchOutcome): (s: Settlement)
    ensures s.Answered? <==> outcome.Response? && IsOk(outcome.status) && outcome.body.Json?
    ensures s.Answered? ==> s.text != ""
    ensures s.Answered? && outcome.body.message.Some? && outcome.body.message.value != "" ==>
      s.text == outcome.body.message.value
    ensures s.Answered? && (outcome.body.message.None? || outcome.body.message.value == "") ==>
      s.text == NoAnswer
  {
    match outcome
    case NetworkError => Failed
    case Response(status, body) =>
      if !IsOk(status) then Failed
      else
        match body
        case Undecodable => Failed
        case Json(message) => Answered(if message.Some? && message.value != "" then message.value else NoAnswer)
  }

  /** `Math.min(counter, 100)`: the value a tick publishes. */
  function Published(counter: int): (p: int)
    ensures p <= FullProgress
    ensures counter < FullProgress ==> p == counter
    ensures p == FullProgress <==> counter >= FullProgress
  {
    if counter < FullProgress then counter else FullProgress
  }

  /**
   * One simulator run to its end, tick by tick: the values it publishes.
   * They are 10, 20, ..., 100: ten ticks, strictly increasing, the last
   * one 100, after which the simulator clears itself.
   */
  method SimulateProgress() returns (published: seq<int>)
    ensures |published| == 10
    ensures forall k :: 0 <= k < |published| ==> published[k] == ProgressStep * (k + 1)
    ensures forall j, k :: 0 <= j < k < |published| ==> published[j] < published[k]
    ensures published[|published| - 1] == FullProgress
  {
    var currentProgress := 0;
    var cleared := false;
    published := [];
    while !cleared
      invariant currentProgress == ProgressStep * |published| <= FullProgress
      invariant cleared <==> currentProgress >= FullProgress
      invariant forall k :: 0 <= k < |published| ==> published[k] == ProgressStep * (k + 1)
      decreases FullProgress - currentProgress
    {
      currentProgress := currentProgress + ProgressStep;
      published := published + [Published(currentProgress)];
      if currentProgress >= FullProgress {
        cleared := true;
      }
    }
  }

  class PromptSession {
    /** The speech-capture hook the component uses. */
    const speech: SpeechRecognition.SpeechCapture
    /** Whether the `onSend` prop was supplied. */
    const hasOnSend: bool

    var prompt: string
    var response: string
    var isLoading: bool
    var error: Option<string>
    var progress: int
    /** The private counter of every simulator started, in start order; one below 100 is still ticking. */
    var simulators: seq<int>
    /** The prompt captured by the send whose fetch has not settled yet. */
    var inFlight: Option<string>
    /** The prompt of every POST issued to the proxy, in order. */
    var posted: seq<string>
    /** The argument of every `onSend` call, in order. */
    var notified: seq<string>
    /** The transcript value the mirroring effect saw last. */
    var mirrored: string

    /** Every simulator has stopped itself and no fetch is pending. */
    ghost predicate Settled()
      reads this
    {
      && !isLoading
      && forall i :: 0 <= i < |simulators| ==> simulators[i] >= FullProgress
    }

    /**
     * Progress stays within 0..100, a simulator's counter moves in steps
     * of 10 up to 100, a fetch is pending exactly while loading, no error
     * is shown while loading, and once at least one cycle has started and
     * everything has settled the progress is 100.
     */
    ghost predicate Valid()
      reads this
    {
      && 0 <= progress <= FullProgress
      && (forall i :: 0 <= i < |simulators| ==>
            0 <= simulators[i] <= FullProgress && simulators[i] % ProgressStep == 0)
      && (isLoading <==> inFlight.Some?)
      && (isLoading ==> error.None?)
      && (Settled() && |simulators| > 0 ==> progress == FullProgress)
    }

    /**
     * The first render and the component's own mirroring effect, which runs
     * once at mount with the hook's empty transcript, so `initialPrompt` is
     * overwritten with "". The hook's initialisation effect is the separate
     * event `speech.Mount`.
     */
    constructor (initialPrompt: string, hasOnSend: bool)
      ensures Valid() && fresh(speech)
      ensures speech.State() == SpeechHook.Initial()
      ensures this.hasOnSend == hasOnSend
      ensures prompt == "" && mirrored == ""
      ensures response == "" && !isLoading && error == None && progress == 0
      ensures simulators == [] && inFlight == None && posted == [] && notified == []
    {
      speech := new SpeechRecognition.SpeechCapture();
      this.hasOnSend := hasOnSend;
      prompt := initialPrompt;
      response, isLoading, error, progress := "", false, None, 0;
      simulators, inFlight, posted, notified := [], None, [], [];
      new;
      prompt := speech.text;
      mirrored := speech.text;
    }

    /**
     * `handleSendPrompt` up to the request. A blank prompt only sets the
     * validation error; anything else starts a cycle (loading, no error,
     * progress 0, a fresh simulator) and posts the prompt as it stands.
     * The send button is disabled while loading.
     */
    method Send()
      requires Valid() && !isLoading
      modifies this
      ensures Valid()
      ensures prompt == old(prompt) && response == old(response)
      ensures notified == old(notified) && mirrored == old(mirrored)
      ensures JsText.IsBlank(old(prompt)) ==>
        && error == Some(PromptRequired)
        && !isLoading && progress == old(progress) && simulators == old(simulators)
        && inFlight == None && posted == old(posted)
      ensures !JsText.IsBlank(old(prompt)) ==>
        && isLoading && error == None && progress == 0
        && simulators == old(simulators) + [0]
        && inFlight == Some(old(prompt)) && posted == old(posted) + [old(prompt)]
    {
      var blank := JsText.Trim(prompt) == "";
      assert blank <==> JsText.IsBlank(old(prompt));
      if blank {
        error := Some(PromptRequired);
        return;
      }
      isLoading := true;
      error := None;
      progress := 0;
      simulators := simulators + [0];
      inFlight := Some(prompt);
      posted := posted + [prompt];
    }

    /**
     * One interval tick of simulator `i`, which has not stopped itself:
     * its counter grows by 10 and the progress shows the counter capped
     * at 100; it stops itself once the counter reaches 100. Nothing checks
     * whether its cycle has already ended.
     */
    method Tick(i: nat)
      requires Valid() && i < |simulators| && simulators[i] < FullProgress
      modifies this
      ensures Valid()
      ensures simulators == old(simulators)[i := old(simulators)[i] + ProgressStep]
      ensures progress == Published(simulators[i]) && progress > old(simulators)[i]
      ensures prompt == old(prompt) && response == old(response) && isLoading == old(isLoading)
      ensures error == old(error) && inFlight == old(inFlight) && posted == old(posted)
      ensures notified == old(notified) && mirrored == old(mirrored)
    {
      var currentProgress := simulators[i] + ProgressStep;
      simulators := simulators[i := currentProgress];
      progress := Published(currentProgress);
      // Either this tick stopped the simulator, and it published 100, or the
      // simulator still runs, and the session is not settled.
      if currentProgress < FullProgress {
        assert simulators[i] < FullProgress;
        assert !Settled();
      }
    }

    /**
     * The rest of `handleSendPrompt` once the fetch has settled. On an
     * answer the response is replaced and `onSend`, if supplied, gets the
     * prompt captured at send time; on a failure only the generic error is
     * set. Either way the cycle ends with progress 100 and not loading.
     */
    method Resolve(outcome: FetchOutcome)
      requires Valid() && isLoading
      modifies this
      ensures Valid()
      ensures Settle(outcome).Answered? ==>
        && response == Settle(outcome).text && error == None
        && notified == old(notified) + (if hasOnSend then [old(inFlight).value] else [])
      ensures Settle(outcome).Failed? ==>
        response == old(response) && error == Some(FetchFailed) && notified == old(notified)
      ensures progress == FullProgress && !isLoading && inFlight == None
      ensures prompt == old(prompt) && simulators == old(simulators)
      ensures posted == old(posted) && mirrored == old(mirrored)
    {
      var sent := inFlight.value;
      match Settle(outcome) {
        case Answered(text) =>
          response := text;
          if hasOnSend {
            notified := notified + [sent];
          }
        case Failed =>
          error := Some(FetchFailed);
      }
      progress := FullProgress;
      isLoading := false;
      inFlight := None;
    }

    /** The mirroring effect: whenever the transcript differs from what it saw last, it becomes the prompt. */
    method SyncTranscript()
      requires Valid()
      modifies this
      ensures Valid()
      ensures speech.text != old(mirrored) ==> prompt == speech.text && mirrored == speech.text
      ensures speech.text == old(mirrored) ==> prompt == old(prompt) && mirrored == old(mirrored)
      ensures response == old(response) && isLoading == old(isLoading) && error == old(error)
      ensures progress == old(progress) && simulators == old(simulators) && inFlight == old(inFlight)
      ensures posted == old(posted) && notified == old(notified)
    {
      if speech.text != mirrored {
        prompt := speech.text;
        mirrored := speech.text;
      }
    }

    /** Typing into the prompt field (disabled while loading). */
    method EditPrompt(value: string)
      requires Valid() && !isLoading
      modifies this`prompt
      ensures Valid() && prompt == value
    {
      prompt := value;
    }

    /** An edit in the response editor, taken as a plain assignment. */
    method EditResponse(value: string)
      requires Valid()
      modifies this`response
      ensures Valid() && response == value
    {
      response := value;
    }

    /** The microphone button (disabled while loading): stop when listening, start otherwise. */
    method ToggleListening()
      requires Valid() && !isLoading
      modifies speech
      ensures old(speech.isListening) ==> speech.State() == SpeechHook.StopListening(old(speech.State()))
      ensures !old(speech.isListening) ==> speech.State() == SpeechHook.StartListening(old(speech.State()))
    {
      if speech.isListening {
        speech.StopListening();
      } else {
        speech.StartListening();
      }
    }
  }

  /**
   * The simulator is not cancelled when the cycle ends: a tick after the
   * `finally` block lowers the progress from 100 to 20. The ten values a
   * simulator publishes increase, but the progress the user sees within a
   * session does not.
   */
  method StaleTickLowersProgress() returns (atCompletion: int, afterStaleTick: int)
    ensures atCompletion == FullProgress && afterStaleTick == 20
  {
    var session := new PromptSession("", false);
    session.EditPrompt("Hi");
    assert !JsText.IsJsWhitespace(session.prompt[0]);
    session.Send();
    session.Tick(0);
    session.Resolve(Response(200, Json(Some("Hello"))));
    atCompletion := session.progress;
    session.Tick(0);
    afterStaleTick := session.progress;
  }

  /**
   * The session's simulator behaves as `SimulateProgress` describes: the
   * ticks of a fresh cycle's simulator show 10, 20, ..., 100, ten in all,
   * and leave its counter at 100, where `Tick` no longer applies.
   */
  method TicksFollowSimulateProgress() returns (shown: seq<int>, counter: int)
    ensures |shown| == 10
    ensures forall k :: 0 <= k < |shown| ==> shown[k] == ProgressStep * (k + 1)
    ensures counter == FullProgress
  {
    var session := new PromptSession("", false);
    session.EditPrompt("Hi");
    assert !JsText.IsJsWhitespace(session.prompt[0]);
    session.Send();
    shown := [];
    while session.simulators[0] < FullProgress
      invariant fresh(session) && session.Valid() && |session.simulators| == 1
      invariant session.simulators[0] == ProgressStep * |shown|
      invariant forall k :: 0 <= k < |shown| ==> shown[k] == ProgressStep * (k + 1)
      decreases FullProgress - session.simulators[0]
    {
      session.Tick(0);
      shown := shown + [session.progress];
    }
    counter := session.simulators[0];
  }

  /**
   * Dictation discards typed text: after the user types, starts listening
   * and the engine reports a result, the mirroring effect replaces the
   * prompt with the transcript.
   */
  method DictationReplacesTypedPrompt() returns (prompt: string, listening: bool)
    ensures prompt == "привет" && listening
  {
    var session := new PromptSession("", false);
    session.speech.Mount(true);
    session.EditPrompt("typed text");
    session.ToggleListening();
    session.SyncTranscript();
    session.speech.FireDeferredStart();
    session.speech.OnResult([["привет", "приветы"]]);
    session.SyncTranscript();
    prompt, listening := session.prompt, session.speech.isListening;
  }
}
