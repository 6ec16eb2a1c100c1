/**
 * The server action `enhancePrompt`: the user-prompt template and the
 * background task that republishes the language model's text deltas onto a
 * streamable value and closes it once.
 *
 * The language-model call itself is not modelled: its outcome is an input,
 * a `ModelRun` giving the deltas it produced and whether it then finished or
 * threw.
 */
module Actions {
  import opened Wrappers
  import opened Stream
  import opened Profiles

  /** Text put in front of the user's input by the prompt template. */
  const PromptLead: string := "Please enhance this prompt:\n\n\""
  /** Text put after the user's input by the prompt template. */
  const PromptTail: string := "\"\n\nProvide only the enhanced prompt, no explanations or preamble."

  /** The user prompt sent to the model: the input quoted verbatim, with no
      trimming and no escaping of quotes inside it. */
  function UserPrompt(input: string): (p: string)
    ensures |p| == |PromptLead| + |input| + |PromptTail|
    ensures p[..|PromptLead|] == PromptLead
    ensures p[|PromptLead|..|PromptLead| + |input|] == input
    ensures p[|PromptLead| + |input|..] == PromptTail
  {
    PromptLead + input + PromptTail
  }

  /** Recovers the input from a user prompt: `None` for any text that is not
      built by the template. */
  function StripUserPrompt(p: string): (r: Option<string>)
    ensures r.Some? ==> |r.value| == |p| - |PromptLead| - |PromptTail|
  {
    if |p| >= |PromptLead| + |PromptTail|
       && p[..|PromptLead|] == PromptLead
       && p[|p| - |PromptTail|..] == PromptTail
    then Some(p[|PromptLead|..|p| - |PromptTail|])
    else None
  }

  /** Stripping the template recovers the input exactly. */
  lemma UserPromptStrips(input: string)
    ensures StripUserPrompt(UserPrompt(input)) == Some(input)
  {
    var u := UserPrompt(input);
    assert u[|u| - |PromptTail|..] == PromptTail;
  }

  /** Only the prompt built from `x` strips to `x`. */
  lemma StripsOnlyUserPrompt(p: string, input: string)
    requires StripUserPrompt(p) == Some(input)
    ensures p == UserPrompt(input)
  {
    assert p == p[..|PromptLead|] + p[|PromptLead|..|p| - |PromptTail|] + p[|p| - |PromptTail|..];
  }

  /** Different inputs give different prompts. */
  lemma UserPromptInjective(a: string, b: string)
    ensures UserPrompt(a) == UserPrompt(b) ==> a == b
  {
    UserPromptStrips(a);
    UserPromptStrips(b);
  }

  /** What a `catch` clause can receive: an `Error` object or anything else. */
  datatype Thrown = ThrownError(error: ErrorValue) | ThrownOther

  /** How the model's text stream ended after its deltas. */
  datatype ModelEnd = Finished | Threw(thrown: Thrown)

  /** The abstract outcome of the `streamText` call: the deltas it produced,
      in arrival order, then either normal end or a throw. A throw from
      `streamText` itself is a run with no deltas. */
  datatype ModelRun = ModelRun(deltas: seq<string>, end: ModelEnd)

  /** The system and user prompts handed to the model. */
  datatype ModelCall = ModelCall(system: string, prompt: string)

  const FallbackErrorMessage: string := "Failed to enhance prompt"

  /** `error instanceof Error ? error : new Error('Failed to enhance prompt')`. */
  function ReportedError(t: Thrown): (e: ErrorValue)
    ensures t.ThrownError? ==> e == t.error
    ensures t.ThrownOther? ==> e.message == FallbackErrorMessage
  {
    match t
    case ThrownError(err) => err
    case ThrownOther => ErrorValue(FallbackErrorMessage)
  }

  /** The event that closes the stream for a given end of the model stream. */
  function TerminalFor(end: ModelEnd): (e: StreamEvent)
    ensures e.IsTerminal()
    ensures e == Done <==> end.Finished?
    ensures end.Threw? ==> e == Error(ReportedError(end.thrown))
  {
    match end
    case Finished => Done
    case Threw(t) => Error(ReportedError(t))
  }

  /** Specification of the background task: one `update` per delta, in order,
      then one closing event. */
  function ProducerLog(run: ModelRun): seq<StreamEvent> {
    UpdatesOf(run.deltas) + [TerminalFor(run.end)]
  }

  /** Every delta is forwarded exactly once and in arrival order; the stream
      is closed exactly once, by its last event, with `done` after a normal
      end and with `error` after a throw, and nothing follows. */
  lemma ProducerLogShape(run: ModelRun)
    ensures |ProducerLog(run)| == |run.deltas| + 1
    ensures forall i :: 0 <= i < |run.deltas| ==> ProducerLog(run)[i] == Update(run.deltas[i])
    ensures ProducerLog(run)[|run.deltas|] == TerminalFor(run.end)
    ensures TerminalCount(ProducerLog(run)) == 1
    ensures WellFormedLog(ProducerLog(run))
    ensures ValuesOf(ProducerLog(run)) == run.deltas
    ensures FirstTerminal(ProducerLog(run)) == |run.deltas|
  {
    var log := ProducerLog(run);
    forall i | 0 <= i < |run.deltas| ensures log[i] == Update(run.deltas[i]) {
      UpdatesOfAt(run.deltas, i);
    }
    UpdatesOfRoundTrip(run.deltas);
    assert log[..|log| - 1] == UpdatesOf(run.deltas);
  }

  /** `enhancePrompt(input, helperType)`, with the detached task run to its
      end: resolves the system prompt, builds the user prompt, forwards each
      delta with `update`, then calls `done`, or `error` if the model threw.
      Returns the prompts handed to the model and the stream. */
  method EnhancePrompt(input: string, helperType: string, run: ModelRun)
      returns (call: ModelCall, stream: StreamableValue)
    ensures fresh(stream) && stream.Valid() && stream.Closed()
    ensures call == ModelCall(ResolveSystemPrompt(helperType), UserPrompt(input))
    ensures stream.log == ProducerLog(run)
  {
    stream := new StreamableValue();
    var systemPrompt := ResolveSystemPrompt(helperType);
    call := ModelCall(systemPrompt, UserPrompt(input));
    var i := 0;
    while i < |run.deltas|
      invariant 0 <= i <= |run.deltas|
      invariant stream.Valid() && !stream.Closed()
      invariant stream.log == UpdatesOf(run.deltas[..i])
    {
      stream.Update(run.deltas[i]);
      assert run.deltas[..i + 1][..i] == run.deltas[..i];
      i := i + 1;
    }
    assert run.deltas[..i] == run.deltas;
    match run.end {
      case Finished => stream.Done();
      case Threw(t) => stream.Error(ReportedError(t));
    }
  }
}
