/**
 * The client side of one enhancement: the five `useState` fields of the hero
 * section, `handleEnhance` (guard, reset, read the stream, fallback on
 * failure, `finally`), the two derived flags and the input-side handlers.
 *
 * The asynchronous handler is flattened into its phases, run in order; the
 * one-second timer that switches the orb off is a pending-clear counter and
 * a separate method for the timer firing.
 */
module HeroSection {
  import opened Wrappers
  import opened JsString
  import opened Stream
  import opened Actions

  /** Text shown in place of the output when the request fails. */
  const FailureText: string := "Failed to enhance prompt. Please try again."

  /** `!text.trim()`: the guard that makes `handleEnhance` a no-op. */
  predicate IsBlank(text: string) {
    Trim(text) == ""
  }

  /** The values among `values` that pass `if (delta)`, in order. */
  function NonEmpty(values: seq<string>): seq<string> {
    if values == [] then []
    else
      var last := values[|values| - 1];
      NonEmpty(values[..|values| - 1]) + (if last != "" then [last] else [])
  }

  /** The concatenation of `values`, in order. */
  function Concat(values: seq<string>): string {
    if values == [] then "" else Concat(values[..|values| - 1]) + values[|values| - 1]
  }

  /** Skipping empty values does not change the accumulated text. */
  lemma {:induction false} ConcatNonEmpty(values: seq<string>)
    ensures Concat(NonEmpty(values)) == Concat(values)
  {
    if values != [] {
      var front := values[..|values| - 1];
      ConcatNonEmpty(front);
      var last := values[|values| - 1];
      if last != "" {
        assert NonEmpty(values) == NonEmpty(front) + [last];
        assert (NonEmpty(front) + [last])[..|NonEmpty(front)|] == NonEmpty(front);
      } else {
        assert NonEmpty(values) == NonEmpty(front) + [] == NonEmpty(front);
        assert Concat(values) == Concat(front) + last == Concat(front);
      }
    }
  }

  /** The text the reading loop has built after reading the update-only
      prefix `events`: each value appended unless it is empty. */
  function Accumulated(events: seq<StreamEvent>): string {
    if events == [] then ""
    else
      var last := events[|events| - 1];
      Accumulated(events[..|events| - 1]) + (if last.Update? && last.value != "" then last.value else "")
  }

  /** The loop's text is the in-order concatenation of the non-empty values
      read, and so of all values read. */
  lemma {:induction false} AccumulatedIsConcat(events: seq<StreamEvent>)
    ensures Accumulated(events) == Concat(NonEmpty(ValuesOf(events)))
    ensures Accumulated(events) == Concat(ValuesOf(events))
  {
    if events != [] {
      var front := events[..|events| - 1];
      var last := events[|events| - 1];
      AccumulatedIsConcat(front);
      var vs := ValuesOf(front);
      if last.Update? {
        assert ValuesOf(events) == vs + [last.value];
        assert (vs + [last.value])[..|vs|] == vs;
      } else {
        assert ValuesOf(events) == vs + [] == vs;
      }
      ConcatNonEmpty(ValuesOf(events));
    }
  }

  /** The reader ends by throwing: the first closing event is an error. */
  predicate ReadFails(events: seq<StreamEvent>) {
    FirstTerminal(events) < |events| && events[FirstTerminal(events)].Error?
  }

  /** `enhancedPrompt` once `handleEnhance` has read `events` to their end. */
  function SettledText(events: seq<StreamEvent>): string {
    if ReadFails(events) then FailureText else Accumulated(events[..FirstTerminal(events)])
  }

  /** Headline property: for any outcome of the model, producer and consumer
      together leave the concatenation of the model's fragments, in order,
      when the model finishes, and exactly the fixed fallback text when it
      throws, discarding any partial text. */
  lemma EndToEnd(run: ModelRun)
    ensures SettledText(ProducerLog(run)) ==
      if run.end.Finished? then Concat(run.deltas) else FailureText
  {
    var log := ProducerLog(run);
    ProducerLogShape(run);
    UpdatesOfRoundTrip(run.deltas);
    assert log[..|run.deltas|] == UpdatesOf(run.deltas);
    AccumulatedIsConcat(UpdatesOf(run.deltas));
  }

  /** An invocation of the server action. */
  datatype Request = Request(input: string, helperType: string)

  /** `content || isStreaming`, the condition under which the output panel
      renders anything at all. */
  predicate OutputPanelRenders(content: string, isStreaming: bool) {
    !(content == "" && !isStreaming)
  }

  class HeroSection {
    var promptText: string
    var productType: string
    var enhancedPrompt: string
    var isOrbActive: bool
    var isEnhancing: bool
    /** Deferred `setIsOrbActive(false)` calls scheduled and not yet run. */
    var pendingOrbClears: nat

    constructor ()
      ensures promptText == "" && productType == "" && enhancedPrompt == ""
      ensures !isOrbActive && !isEnhancing && pendingOrbClears == 0
    {
      promptText, productType, enhancedPrompt := "", "", "";
      isOrbActive, isEnhancing := false, false;
      pendingOrbClears := 0;
    }

    /** `isEnhanceDisabled`: the button is disabled exactly while a request is
        in flight or while the idea text holds only whitespace. */
    function IsEnhanceDisabled(): (r: bool)
      reads this
      ensures r <==> (isEnhancing || AllTrimmable(promptText))
    {
      TrimEmptyIffAllTrimmable(promptText);
      IsBlank(promptText) || isEnhancing
    }

    /** `showOutput`: agrees with the output panel's own render condition. */
    function ShowOutput(): (r: bool)
      reads this
      ensures r == OutputPanelRenders(enhancedPrompt, isEnhancing)
    {
      enhancedPrompt != "" || isEnhancing
    }

    /** The prompt input's `onChange`; the textarea is disabled, so it takes
        no edits, while enhancing. */
    method EditPrompt(text: string)
      modifies this`promptText
      ensures promptText == if isEnhancing then old(promptText) else text
    {
      if !isEnhancing {
        promptText := text;
      }
    }

    /** The selector's `onChange`, wired straight to `setProductType`. */
    method ChooseProductType(value: string)
      modifies this`productType
      ensures productType == value
    {
      productType := value;
    }

    /** The prompt input's `onFocus`: the orb lights up. */
    method FocusInput()
      modifies this`isOrbActive
      ensures isOrbActive
    {
      isOrbActive := true;
    }

    /** The prompt input's `onBlur`: the orb goes dark unless enhancing. */
    method BlurInput()
      modifies this`isOrbActive
      ensures isOrbActive == (old(isOrbActive) && isEnhancing)
    {
      if !isEnhancing {
        isOrbActive := false;
      }
    }

    /** The deferred `setIsOrbActive(false)` scheduled by `handleEnhance` runs. */
    method OrbTimerFires()
      requires pendingOrbClears > 0
      modifies this`isOrbActive, this`pendingOrbClears
      ensures !isOrbActive && pendingOrbClears == old(pendingOrbClears) - 1
    {
      isOrbActive := false;
      pendingOrbClears := pendingOrbClears - 1;
    }

    /** First phase of `handleEnhance`: nothing happens for blank text;
        otherwise the orb and the enhancing flag go on, the output is cleared,
        and the server action is invoked with the untrimmed text and the
        current helper type. */
    method BeginEnhance() returns (request: Option<Request>)
      modifies this`isOrbActive, this`isEnhancing, this`enhancedPrompt
      ensures IsBlank(promptText) ==> request == None && unchanged(this)
      ensures !IsBlank(promptText) ==> request == Some(Request(promptText, productType))
      ensures !IsBlank(promptText) ==> isOrbActive && isEnhancing && enhancedPrompt == ""
    {
      if IsBlank(promptText) {
        return None;
      }
      isOrbActive := true;
      isEnhancing := true;
      enhancedPrompt := "";
      request := Some(Request(promptText, productType));
    }

    /** One value from the stream: appended unless it is empty. */
    method ReceiveValue(delta: string)
      modifies this`enhancedPrompt
      ensures enhancedPrompt == old(enhancedPrompt) + delta
    {
      if delta != "" {
        enhancedPrompt := enhancedPrompt + delta;
      }
    }

    /** The `for await` loop over the stream: appends each delivered value
        until the stream closes, and reports whether it closed with an error
        (the loop then throws). On a stream that never closes the loop never
        ends, so the log must hold a closing event. */
    method DrainStream(events: seq<StreamEvent>) returns (failed: bool)
      requires FirstTerminal(events) < |events|
      modifies this`enhancedPrompt
      ensures failed == ReadFails(events)
      ensures enhancedPrompt == old(enhancedPrompt) + Accumulated(events[..FirstTerminal(events)])
    {
      var i := 0;
      while i < |events| && events[i].Update?
        invariant 0 <= i <= FirstTerminal(events)
        invariant enhancedPrompt == old(enhancedPrompt) + Accumulated(events[..i])
      {
        ReceiveValue(events[i].value);
        assert events[..i + 1][..i] == events[..i];
        i := i + 1;
      }
      assert i == FirstTerminal(events);
      failed := i < |events| && events[i].Error?;
    }

    /** The `try` block after the reset: the server action is invoked with the
        idea text and the helper type, and its stream is read to the end.
        Reports whether anything threw: the call itself, or the model; when
        nothing threw, the model's fragments have been appended in order. */
    method ReadReply(run: ModelRun, callRejected: bool) returns (failed: bool)
      modifies this`enhancedPrompt
      ensures failed == (callRejected || run.end.Threw?)
      ensures !failed ==> enhancedPrompt == old(enhancedPrompt) + Concat(run.deltas)
    {
      if callRejected {
        return true;
      }
      var call, stream := EnhancePrompt(promptText, productType, run);
      EndToEnd(run);
      ProducerLogShape(run);
      failed := DrainStream(stream.log);
    }

    /** The `catch` branch: any partial text is replaced by the fallback. */
    method FailEnhance()
      modifies this`enhancedPrompt
      ensures enhancedPrompt == FailureText
    {
      enhancedPrompt := FailureText;
    }

    /** The `finally` branch: enhancing ends and one orb clear is scheduled. */
    method FinishEnhance()
      modifies this`isEnhancing, this`pendingOrbClears
      ensures !isEnhancing && pendingOrbClears == old(pendingOrbClears) + 1
    {
      isEnhancing := false;
      pendingOrbClears := pendingOrbClears + 1;
    }

    /** `handleEnhance` from start to end. `run` is the model's outcome and
        `callRejected` says whether the server-action call itself threw before
        a stream came back. For blank text nothing changes; otherwise the text
        ends as the model's fragments concatenated, or as the fallback text on
        any failure, the enhancing flag ends false, the orb is still on and
        exactly one orb clear is pending in addition to earlier ones. */
    method HandleEnhance(run: ModelRun, callRejected: bool) returns (request: Option<Request>)
      modifies this`isOrbActive, this`isEnhancing, this`enhancedPrompt, this`pendingOrbClears
      ensures IsBlank(promptText) ==> request == None && unchanged(this)
      ensures !IsBlank(promptText) ==> request == Some(Request(promptText, productType))
      ensures !IsBlank(promptText) ==>
        enhancedPrompt == if !callRejected && run.end.Finished? then Concat(run.deltas) else FailureText
      ensures !IsBlank(promptText) ==>
        !isEnhancing && isOrbActive && pendingOrbClears == old(pendingOrbClears) + 1
      ensures !IsBlank(promptText) ==> ShowOutput() == (enhancedPrompt != "")
    {
      request := BeginEnhance();
      if request.None? {
        return;
      }
      var failed := ReadReply(run, callRejected);
      if failed {
        FailEnhance();
      }
      FinishEnhance();
    }
  }
}
