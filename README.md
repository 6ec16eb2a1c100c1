# Promptify prompt enhancement, modelled in Dafny

Promptify turns a short idea into a detailed prompt. The user picks an optional
helper profile and types an idea. A server action then sends a system prompt
and a user prompt to a language model and streams the model's text back to
the page.

This project models the core of that flow:

- `Profiles` holds the system-prompt table: five helper profiles plus a
  `default` entry. It also resolves a helper type to its system text, falling
  back to `default`.
- `Actions` models the server action `enhancePrompt`:
  - the user-prompt template, with a stripping function that inverts it;
  - how the end of the model's stream maps to the closing event (`done`, or
    `error` with the reported error object);
  - the background loop that forwards each delta with `update` and closes the
    stream exactly once. This is a `method` whose loop is proved against the
    specification function `ProducerLog`.
- `Stream` models the streamable value as an append-only event log. It is a
  class whose `update`, `done` and `error` methods refuse writes after
  closing.
- `HeroSection` models the page component:
  - the five state fields, as a class;
  - `handleEnhance`, split into its phases: guard, reset, read loop, `catch`
    and `finally`;
  - the derived flags `isEnhanceDisabled` and `showOutput`;
  - the input-side handlers, and the end-to-end property that joins producer
    and consumer.
- `ProductTypeSelector` models the option list, the `find` lookup of the
  selected option, and the dropdown's open flag with its select, clear,
  toggle and Escape transitions.
- `PromptInput` models the textarea's height clamp, the default `maxLength`
  of 2000, the two counter-colour thresholds, and the `length/max` counter
  text.
- `JsString` models JavaScript's `String.prototype.trim`, which the blank
  test uses.
- `Wrappers` contains the `Option` type.

The headline result is `HeroSection.EndToEnd`, together with the contract of
`HeroSection.HeroSection.HandleEnhance`. For any outcome of the model, the
page settles as follows:

- If the model finishes, the output text is the in-order concatenation of
  the model's deltas. The reader's skipping of empty deltas does not change
  this.
- If the model throws, or the action call itself throws, the output is
  exactly the fallback text. Any partial output is discarded.
- In both cases enhancing ends, and one deferred orb switch-off is
  scheduled.

## Model

| member | source | states |
|---|---|---|
| Profiles.ResolveSystemPrompt | app/actions.ts:67 | A key in the table gives that key's text. Any other key gives the `default` text. The result is never empty, so the fallback path is total. |
| Profiles.SystemPromptsDistinct | app/actions.ts:7-62 | The table has exactly the keys portfolio, ecommerce, startup, improve, clearer and default. Its six texts are pairwise different, so no helper key resolves to the default text. |
| Actions.UserPrompt | app/actions.ts:74 | The user prompt is the fixed lead, then the input verbatim (not trimmed, quotes not escaped), then the fixed tail. The ensures give its length and the three slices. |
| Actions.UserPromptStrips | app/actions.ts:74 | Removing the template from a built prompt gives back exactly the input (round trip). |
| Actions.StripsOnlyUserPrompt | app/actions.ts:74 | A text strips to an input only if it is the prompt built from that input (converse of the round trip). |
| Actions.UserPromptInjective | app/actions.ts:74 | Different inputs give different user prompts. |
| Actions.ReportedError | app/actions.ts:84 | An `Error` object is passed through unchanged. Any other thrown value becomes an error with the message `Failed to enhance prompt`. |
| Actions.TerminalFor | app/actions.ts:81-85 | The closing event is always terminal. It is `done` exactly when the model finished normally. Otherwise it is `error` carrying the reported error. |
| Actions.ProducerLogShape | app/actions.ts:77-85 | The write log has one event per delta plus one. Event i is `update` of delta i. The last event is the closing event, and it is the first and only terminal one. The log is well formed, and its update values read back as the deltas. |
| Actions.EnhancePrompt | app/actions.ts:64-89 | The model receives the resolved system prompt and the built user prompt. The returned stream is fresh, well formed and closed. Its log is the specification `ProducerLog` of the run. The loop is proved by invariant. The detached task is run to its end before the method returns. |
| Stream.FirstTerminal | app/actions.ts:77-85 | The index of the first closing event: every earlier event is an `update`, and the event at that index, if any, is `done` or `error`. |
| Stream.UpdatesOfAt | app/actions.ts:77-79 | The i-th event written by the update loop carries the i-th value. |
| Stream.UpdatesOfRoundTrip | app/actions.ts:77-79 | Reading back the values of an update-only log gives the written values, and such a log contains no closing event. |
| Stream.StreamableValue.constructor | app/actions.ts:65 | A new stream is empty, well formed and open. |
| Stream.StreamableValue.Update | app/actions.ts:78 | Appends one `update` event. The stream stays well formed and open. |
| Stream.StreamableValue.Done | app/actions.ts:81 | Appends `done`. The stream is then closed. |
| Stream.StreamableValue.Error | app/actions.ts:84 | Appends `error` with the given error. The stream is then closed. |
| JsString.FirstKept | components/HeroSection.tsx:44 | The first index at or after i holding a character that `trim` keeps. Everything skipped before it is whitespace or a line terminator. |
| JsString.KeptEnd | components/HeroSection.tsx:44 | One past the last kept character before j. Everything after it, up to j, is whitespace or a line terminator. |
| JsString.Trim | components/HeroSection.tsx:44 | `String.prototype.trim`: the result is a contiguous slice of the input. Everything removed before and after it is whitespace or a line terminator, and a non-empty result neither starts nor ends with such a character. `TrimEmptyIffAllTrimmable` proves when the result is empty. |
| JsString.TrimEmptyIffAllTrimmable | components/HeroSection.tsx:44 | `s.trim()` is empty if and only if every character of `s` is ECMAScript whitespace or a line terminator (both directions). |
| HeroSection.IsBlank | components/HeroSection.tsx:44 | The guard `!promptText.trim()`, also used in the disabled flag at line 70. `TrimEmptyIffAllTrimmable` proves it holds exactly when the text is all whitespace, and `HandleEnhance` and `IsEnhanceDisabled` state what it decides. |
| HeroSection.OutputPanelRenders | components/ui/EnhancedOutput.tsx:35 | The output panel's render condition: it renders unless the content is empty and nothing is streaming. `ShowOutput` is proved equal to it. |
| HeroSection.ConcatNonEmpty | components/HeroSection.tsx:56-57 | Skipping empty deltas (`if (delta)`) does not change the concatenated text. |
| HeroSection.AccumulatedIsConcat | components/HeroSection.tsx:55-59 | The text built by the read loop is the in-order concatenation of the values read, with and without the empty ones. |
| HeroSection.EndToEnd | components/HeroSection.tsx:51-62 | For every model run, the text settled from the producer's log is the concatenation of the deltas if the model finished, and the fallback text if it threw. |
| HeroSection.HeroSection.constructor | components/HeroSection.tsx:37-41 | Every text field starts empty and both flags start false. No orb timer is pending. |
| HeroSection.HeroSection.IsEnhanceDisabled | components/HeroSection.tsx:70 | The button is disabled exactly when a request is in flight or the idea text is only whitespace (both directions). |
| HeroSection.HeroSection.ShowOutput | components/HeroSection.tsx:71 | Agrees with the output panel's own render condition: the panel shows when there is content or a request is in flight. |
| HeroSection.HeroSection.EditPrompt | components/HeroSection.tsx:155-158 | An edit replaces the idea text, except while enhancing, when the disabled textarea leaves it unchanged. |
| HeroSection.HeroSection.ChooseProductType | components/HeroSection.tsx:167-168 | The value from the selector becomes the helper type. |
| HeroSection.HeroSection.FocusInput | components/HeroSection.tsx:159 | Focusing the input lights the orb. |
| HeroSection.HeroSection.BlurInput | components/HeroSection.tsx:160 | Blurring the input switches the orb off unless a request is in flight. |
| HeroSection.HeroSection.OrbTimerFires | components/HeroSection.tsx:66 | The deferred switch-off runs: the orb goes off and one pending timer is consumed. |
| HeroSection.HeroSection.BeginEnhance | components/HeroSection.tsx:44-52 | Blank text changes nothing and sends nothing. Otherwise the orb and enhancing flags go on, the output is cleared, and the request carries the untrimmed text and the current helper type. |
| HeroSection.HeroSection.ReceiveValue | components/HeroSection.tsx:56-57 | One delivered value is appended to the output (an empty value appends nothing). |
| HeroSection.HeroSection.DrainStream | components/HeroSection.tsx:55-59 | For a log that closes, the read loop appends each value up to the first closing event and reports failure exactly when that event is an `error`. The loop is proved by invariant. |
| HeroSection.HeroSection.ReadReply | components/HeroSection.tsx:51-59 | The `try` body fails exactly when the call throws or the model throws. When nothing fails, the model's deltas have been appended in order. |
| HeroSection.HeroSection.FailEnhance | components/HeroSection.tsx:60-62 | The `catch` branch replaces any partial output with the fallback text. |
| HeroSection.HeroSection.FinishEnhance | components/HeroSection.tsx:63-66 | The `finally` branch ends enhancing and schedules one orb switch-off. |
| HeroSection.HeroSection.HandleEnhance | components/HeroSection.tsx:43-68 | Blank text: nothing changes. Otherwise the output ends as the concatenated deltas on success or the fallback text on any failure. Enhancing ends false, the orb is still on, exactly one more switch-off is pending, and the panel shows exactly when the output is non-empty. |
| ProductTypeSelector.FindOption | components/ui/ProductTypeSelector.tsx:39 | `None` if and only if no option has the id. Otherwise the result is the first option with that id. |
| ProductTypeSelector.DefaultOptionIdsDistinct | components/ui/ProductTypeSelector.tsx:13-19 | The five default option ids are pairwise distinct. |
| ProductTypeSelector.FindOptionUnique | components/ui/ProductTypeSelector.tsx:39 | With distinct ids, the option found is the only option with that id. |
| ProductTypeSelector.DefaultOptionsAreProfiles | components/ui/ProductTypeSelector.tsx:13-19 | Every option id is a key of the system-prompt table, and none is `default`. |
| ProductTypeSelector.ProfilesAreDefaultOptions | components/ui/ProductTypeSelector.tsx:13-19 | Every table key other than `default` is offered as an option (the converse). |
| ProductTypeSelector.DefaultOptionsResolveToOwnProfile | components/ui/ProductTypeSelector.tsx:13-19 | Each option's id resolves to its own profile text, never to the default text. |
| ProductTypeSelector.ClearedSelectionUsesDefault | components/ui/ProductTypeSelector.tsx:68-71 | The cleared value selects no option, and the server resolves it to the default text. |
| ProductTypeSelector.ProductTypeSelector.constructor | components/ui/ProductTypeSelector.tsx:36 | The dropdown starts closed. |
| ProductTypeSelector.ProductTypeSelector.HandleSelect | components/ui/ProductTypeSelector.tsx:63-66 | Reports the chosen id and closes the dropdown. The reported value then selects that very option. |
| ProductTypeSelector.ProductTypeSelector.ClickTrigger | components/ui/ProductTypeSelector.tsx:109 | A click toggles the dropdown unless the selector is disabled, in which case nothing changes. |
| ProductTypeSelector.ProductTypeSelector.HandleClear | components/ui/ProductTypeSelector.tsx:68-71 | Reports the empty value, which selects no option and makes the server use the default profile. |
| ProductTypeSelector.ProductTypeSelector.KeyDown | components/ui/ProductTypeSelector.tsx:55-56 | Escape closes the dropdown (a second Escape changes nothing). Any other key leaves it as it was. |
| PromptInput.AdjustedHeight | components/ui/PromptInput.tsx:37 | The height is always within 120..300 px. It equals the scroll height inside that range and is clamped to the nearer bound outside it. |
| PromptInput.AdjustedHeightMonotone | components/ui/PromptInput.tsx:37 | Taller content never gives a shorter textarea. |
| PromptInput.NearLimit | components/ui/PromptInput.tsx:102 | The warning colour `value.length > maxLength * 0.9`, taken over whole numbers as `10 * length > 9 * maxLength`. `AtLimitIsNearLimit` and `DefaultLimitCounter` prove its properties. |
| PromptInput.AtLimit | components/ui/PromptInput.tsx:103 | The error colour `value.length >= maxLength`. `AtLimitIsNearLimit` proves it implies the warning colour for a positive limit, and `DefaultLimitCounter` gives its threshold of 2000. |
| PromptInput.AtLimitIsNearLimit | components/ui/PromptInput.tsx:102-103 | For a positive limit, the error colour (length at least the limit) appears only together with the warning colour (length above nine tenths of the limit). |
| PromptInput.Decimal | components/ui/PromptInput.tsx:106 | Numbers are printed as a non-empty string of decimal digits with no leading zero. |
| PromptInput.DecimalRoundTrip | components/ui/PromptInput.tsx:106 | Reading the printed digits back gives the number. |
| PromptInput.CounterText | components/ui/PromptInput.tsx:97-107 | The counter is absent exactly when `maxLength` is 0. Otherwise it is the printed length, then a slash, then the printed limit: the ensures state its length and its three slices. |
| PromptInput.DefaultLimitCounter | components/ui/PromptInput.tsx:23 | With the default limit of 2000, the counter reads `n/2000`. The warning colour appears exactly above 1800 characters and the error colour exactly from 2000. |
| PromptInput.CounterTextInjective | components/ui/PromptInput.tsx:106 | The counter text determines both the length and the limit it reports. |

## Left out

- The language-model call (`streamText`, the OpenAI model) is not modelled. Its outcome is the input `ModelRun`: the deltas in arrival order, then a normal end or a throw. A throw from the call itself is a run with no deltas. Logging with `console.error` is left out.
- The HTTP transport of the streamable value is not modelled. Delivery is taken to be lossless and in order: the reader sees exactly the writer's log. The library's initial value `''` and absent (`undefined`) values are not modelled separately. Writing to a closed stream is a precondition of the `Stream` methods rather than a thrown error.
- A model call whose text stream never ends cannot be expressed by `ModelRun`. In the program, the handler then stays enhancing forever and the Enhance button stays disabled. `DrainStream` requires a closing event in the log because on an unclosed stream its loop never returns.
- `EnhancePrompt` runs the detached background task to completion before returning, so the returned stream is already closed. The program returns the open stream at once, and the task writes to it concurrently with the reader.
- `HandleEnhance` runs the asynchronous handler's phases in order, with no interleaving. It does not model a second enhancement or edit that starts while a request is in flight, or React's batching of state updates. `callRejected` stands for the action call itself throwing.
- `OrbTimerFires`: the one-second timers are modelled as a count of pending switch-offs that can fire at any later point. They are never cancelled. So a timer left by an earlier request can switch the orb off during a later request; the model allows this, as the source does.
- `ResolveSystemPrompt` treats the table as a map of its six keys. JavaScript would also find inherited object-prototype properties such as `constructor`. No option or caller produces such a key.
- Rendering, styling, animation, and the DOM are not modelled. Also left out:
  - the outside-click listener of the selector;
  - listener registration and removal in `useEffect`;
  - the browser's enforcement of `maxLength` on the textarea;
  - the clipboard and "copied" state of the output panel;
  - the header, footer, layout and button components.
- `NearLimit` compares `10 * length > 9 * maxLength` on integers instead of the floating-point `length > maxLength * 0.9`. The two agree for whole numbers up to floating-point rounding, which is not modelled.
- `CounterText`: when `maxLength` is 0, the expression `maxLength && (...)` evaluates to the number 0, which React renders as the visible text "0". The model returns `None`, for no counter, instead. `Decimal` prints every number as plain digits, while JavaScript switches to exponent form from 10^21 upwards.
- Lengths are counted in Dafny characters (code points), while JavaScript's `.length` counts UTF-16 code units. `maxLength` is modelled as a natural number, so negative or fractional values are out of scope.
- `ClickTrigger`: the trigger button is rendered only while no option is selected. The model does not tie the toggle to the selected value.
- `HandleClear`: the clear button's `disabled` attribute and `stopPropagation` are not modelled. The method is the handler itself.
- The code keeps no explicit request state: it is only implied by `isEnhancing`, the output text and the stream's closing event. Nothing cancels an earlier request when a new one starts. The model follows the code.
