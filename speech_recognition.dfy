/**
 * The speech-capture hook: it wraps the browser's recognition engine into
 * a transcript `text`, a flag `isListening` and the stored engine instance.
 *
 * This module gives the hook's state and each of its transitions as values
 * and functions; module SpeechRecognition below holds the same state in the
 * fields of a class and updates it in place, each method proved to perform
 * the transition of the same name. Engine callbacks and the expiry of the
 * 100 ms timer are events: calls from outside. The engine's `start` and
 * `stop` are recorded, in order, in `calls`.
 */
module SpeechHook {
  import opened Wrappers

  datatype EngineCall = Start | Stop

  /** The configuration the hook gives the engine instance it creates. */
  datatype Recognizer = Recognizer(continuous: bool, interimResults: bool, lang: string)

  const RecognitionLang := "ru-RU, ru"

  /**
   * `pendingStarts` counts the deferred-start callbacks scheduled by
   * `startListening` that have not fired yet; `mounted` says whether the
   * initialisation effect has run.
   */
  datatype Hook = Hook(
    text: string,
    isListening: bool,
    recognition: Option<Recognizer>,
    mounted: bool,
    pendingStarts: nat,
    calls: seq<EngineCall>)

  /** The state after the first render, before any effect has run. */
  function Initial(): (h: Hook)
    ensures Valid(h) && !HasRecognitionSupport(h) && !h.mounted
  {
    Hook("", false, None, false, 0, [])
  }

  /**
   * Without an engine instance nothing has happened: the instance only
   * appears at mount, and every transcript, listening or engine change
   * needs it.
   */
  predicate Valid(h: Hook) {
    && (!h.mounted ==> h.recognition.None?)
    && (h.recognition.None? ==> h.text == "" && !h.isListening && h.pendingStarts == 0 && h.calls == [])
  }

  /**
   * `hasRecognitionSupport`: an instance has been created and stored. A hook
   * without support has never listened, transcribed or called the engine.
   */
  predicate HasRecognitionSupport(h: Hook): (supported: bool)
    ensures supported <==> h.recognition != None
    ensures Valid(h) && !supported ==> h.text == "" && !h.isListening && h.calls == []
  {
    h.recognition.Some?
  }

  /**
   * The initialisation effect. With the capability `available` it stores a
   * continuous, interim-results instance for Russian; without it (or
   * outside a browser) it stores nothing.
   */
  function Mount(h: Hook, available: bool): (r: Hook)
    requires Valid(h) && !h.mounted
    ensures Valid(r) && r.mounted
    ensures HasRecognitionSupport(r) <==> available
    ensures available ==> r.recognition == Some(Recognizer(true, true, RecognitionLang))
    ensures r.(mounted := h.mounted, recognition := h.recognition) == h
  {
    if available then
      h.(mounted := true, recognition := Some(Recognizer(true, true, RecognitionLang)))
    else
      h.(mounted := true)
  }

  /** Every result segment carries at least one ranked alternative. */
  predicate WellFormed(results: seq<seq<string>>) {
    forall i :: 0 <= i < |results| ==> |results[i]| > 0
  }

  /**
   * The best-ranked alternative of every segment, joined in order: the
   * transcript begins with the first segment's and ends with the last
   * segment's best alternative.
   */
  function Transcript(results: seq<seq<string>>): (t: string)
    requires WellFormed(results)
    ensures results == [] ==> t == ""
    ensures results != [] ==> results[0][0] <= t
    ensures results != [] ==>
      var last := results[|results| - 1][0];
      |last| <= |t| && t[|t| - |last|..] == last
  {
    if results == [] then "" else results[0][0] + Transcript(results[1..])
  }

  /** Joining distributes over the result list: a later segment only adds its best alternative at the end. */
  lemma {:induction false} TranscriptAppend(a: seq<seq<string>>, b: seq<seq<string>>)
    requires WellFormed(a) && WellFormed(b)
    ensures WellFormed(a + b)
    ensures Transcript(a + b) == Transcript(a) + Transcript(b)
  {
    if a == [] {
      assert a + b == b;
    } else {
      assert (a + b)[1..] == a[1..] + b;
      TranscriptAppend(a[1..], b);
    }
  }

  /** Only alternative 0 of each segment reaches the transcript: lower-ranked alternatives are ignored. */
  lemma {:induction false} TranscriptUsesBestAlternatives(a: seq<seq<string>>, b: seq<seq<string>>)
    requires WellFormed(a) && WellFormed(b) && |a| == |b|
    requires forall i :: 0 <= i < |a| ==> a[i][0] == b[i][0]
    ensures Transcript(a) == Transcript(b)
  {
    if a != [] {
      TranscriptUsesBestAlternatives(a[1..], b[1..]);
    }
  }

  /**
   * `onresult`: the whole transcript is rebuilt from the full result list,
   * whatever the text was before. A segment without alternatives makes the
   * handler throw before `setText`, so the text is then left as it was.
   */
  function OnResult(h: Hook, results: seq<seq<string>>): (r: Hook)
    requires h.recognition.Some?
    ensures WellFormed(results) ==> r.text == Transcript(results)
    ensures !WellFormed(results) ==> r.text == h.text
    ensures r.(text := h.text) == h
  {
    if WellFormed(results) then h.(text := Transcript(results)) else h
  }

  /** `onerror`: the error code is only logged; listening stops and the text stays. */
  function OnError(h: Hook, code: string): (r: Hook)
    requires h.recognition.Some?
    ensures !r.isListening
    ensures r.(isListening := h.isListening) == h
  {
    h.(isListening := false)
  }

  /** `onend`: listening stops and the text stays. */
  function OnEnd(h: Hook): (r: Hook)
    requires h.recognition.Some?
    ensures !r.isListening
    ensures r.(isListening := h.isListening) == h
  {
    h.(isListening := false)
  }

  /**
   * `startListening`: with an instance, clear the text, stop the engine at
   * once and schedule the deferred start; `isListening` is not touched yet.
   * Without an instance, nothing happens.
   */
  function StartListening(h: Hook): (r: Hook)
    ensures h.recognition.None? ==> r == h
    ensures h.recognition.Some? ==>
      && r.text == ""
      && r.calls == h.calls + [Stop]
      && r.pendingStarts == h.pendingStarts + 1
      && r.isListening == h.isListening
      && r.recognition == h.recognition && r.mounted == h.mounted
  {
    if h.recognition.None? then h
    else h.(text := "", calls := h.calls + [Stop], pendingStarts := h.pendingStarts + 1)
  }

  /** The 100 ms timer of one earlier `startListening` fires: the engine is started and listening begins. */
  function FireDeferredStart(h: Hook): (r: Hook)
    requires h.recognition.Some? && h.pendingStarts > 0
    ensures r.isListening
    ensures r.calls == h.calls + [Start]
    ensures r.pendingStarts == h.pendingStarts - 1
    ensures r.text == h.text && r.recognition == h.recognition && r.mounted == h.mounted
  {
    h.(isListening := true, calls := h.calls + [Start], pendingStarts := h.pendingStarts - 1)
  }

  /**
   * `stopListening`: with an instance, stop the engine and clear
   * `isListening`; pending deferred starts are not cancelled. Without an
   * instance, nothing happens.
   */
  function StopListening(h: Hook): (r: Hook)
    ensures h.recognition.None? ==> r == h
    ensures h.recognition.Some? ==>
      && !r.isListening
      && r.calls == h.calls + [Stop]
      && r.pendingStarts == h.pendingStarts
      && r.text == h.text && r.recognition == h.recognition && r.mounted == h.mounted
  {
    if h.recognition.None? then h
    else h.(isListening := false, calls := h.calls + [Stop])
  }

  /** The effect's cleanup at unmount: stop the instance the effect created, if any. */
  function Teardown(h: Hook): (r: Hook)
    ensures h.recognition.Some? ==> r.calls == h.calls + [Stop]
    ensures h.recognition.None? ==> r == h
    ensures r.(calls := h.calls) == h
  {
    if h.recognition.Some? then h.(calls := h.calls + [Stop]) else h
  }

  /**
   * The deferred start cannot be cancelled: stopping inside the 100 ms
   * window still ends with the engine started and `isListening` true.
   */
  lemma StopCannotCancelDeferredStart(h: Hook)
    requires h.recognition.Some?
    ensures var r := FireDeferredStart(StopListening(StartListening(h)));
      r.isListening && r.text == "" && r.calls == h.calls + [Stop, Stop, Start]
  {
  }

  /** Every transition keeps the hook's invariant. */
  lemma TransitionsKeepValid(h: Hook, results: seq<seq<string>>, code: string)
    requires Valid(h)
    ensures Valid(StartListening(h)) && Valid(StopListening(h)) && Valid(Teardown(h))
    ensures h.recognition.Some? ==>
      Valid(OnResult(h, results)) && Valid(OnError(h, code)) && Valid(OnEnd(h))
    ensures h.recognition.Some? && h.pendingStarts > 0 ==> Valid(FireDeferredStart(h))
  {
  }
}

/** The hook as it runs: state in fields, one method per handler or event. */
module SpeechRecognition {
  import opened Wrappers
  import opened SpeechHook

  /** The hook's state, held in fields that its event handlers update in place. */
  class SpeechCapture {
    var text: string
    var isListening: bool
    var recognition: Option<Recognizer>
    var mounted: bool
    var pendingStarts: nat
    var calls: seq<EngineCall>

    function State(): Hook
      reads this
    {
      Hook(text, isListening, recognition, mounted, pendingStarts, calls)
    }

    constructor ()
      ensures State() == Initial() && Valid(State())
    {
      text, isListening, recognition := "", false, None;
      mounted, pendingStarts, calls := false, 0, [];
    }

    method Mount(available: bool)
      requires Valid(State()) && !mounted
      modifies this
      ensures State() == SpeechHook.Mount(old(State()), available)
    {
      if available {
        recognition := Some(Recognizer(true, true, RecognitionLang));
      }
      mounted := true;
    }

    method OnResult(results: seq<seq<string>>)
      requires recognition.Some?
      modifies this
      ensures State() == SpeechHook.OnResult(old(State()), results)
    {
      if WellFormed(results) {
        text := Transcript(results);
      }
    }

    method OnError(code: string)
      requires recognition.Some?
      modifies this
      ensures State() == SpeechHook.OnError(old(State()), code)
    {
      isListening := false;
    }

    method OnEnd()
      requires recognition.Some?
      modifies this
      ensures State() == SpeechHook.OnEnd(old(State()))
    {
      isListening := false;
    }

    method StartListening()
      modifies this
      ensures State() == SpeechHook.StartListening(old(State()))
    {
      if recognition.Some? {
        text := "";
        calls := calls + [Stop];
        pendingStarts := pendingStarts + 1;
      }
    }

    method FireDeferredStart()
      requires recognition.Some? && pendingStarts > 0
      modifies this
      ensures State() == SpeechHook.FireDeferredStart(old(State()))
    {
      calls := calls + [Start];
      isListening := true;
      pendingStarts := pendingStarts - 1;
    }

    method StopListening()
      modifies this
      ensures State() == SpeechHook.StopListening(old(State()))
    {
      if recognition.Some? {
        calls := calls + [Stop];
        isListening := false;
      }
    }

    method Teardown()
      modifies this
      ensures State() == SpeechHook.Teardown(old(State()))
    {
      if recognition.Some? {
        calls := calls + [Stop];
      }
    }
  }
}
