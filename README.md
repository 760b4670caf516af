# Flowchart Generator: the flowchart page's session controller

The Flowchart Generator lets a user type a prompt, asks a backend to turn it
into a PlantUML diagram, shows the rendered diagram, lets the user edit the
PlantUML text, export the image as a PNG, and reset the page. All of the
logic lives in the React component `GenerateFlowchart`: five state variables
(`umlCode`, `graphUrl`, `error`, `loading`, `prompt`), an effect that derives
`graphUrl` from `umlCode`, and five handlers (prompt typing, generate, diagram
edit, save, reset).

This project models that component in Dafny:

- `fence.dfy`, module `Fence`: the cleaning applied to the backend's reply,
  `replace(/^```plantuml\s*|\s*```/g, '').trim()`, as pure functions
  (`Strip`, `Trim`, `Clean`) that follow the regex engine's scan, with lemmas
  on what cleaning keeps and removes and worked examples.
- `render.dfy`, module `Render`: the derived image URL, empty for empty text,
  otherwise `https://www.plantuml.com/plantuml/svg/` followed by the encoded text.
- `session.dfy`, module `Session`: the five variables as a `State` value, each
  handler as a function from state to state, the outcomes of the network
  request as a `Reply` value, and lemmas: the URL never goes stale over any
  sequence of user events, the error and frame behaviour of each handler,
  reset is idempotent, and concrete scenarios.
- `editor.dfy`, module `Editor`: class `FlowchartEditor`, whose fields are the
  five variables and whose methods perform each handler's assignments in the
  handler's order. Each method's postcondition says that the new state is the
  one the matching `Session` function gives, and that the URL invariant
  `Valid()` still holds.

The plantuml-encoder library is a value `encode: string -> string` supplied by
the caller. It is deterministic by construction, and nothing else about it is
assumed. The network request is split into `BeginSubmit` (up to the `fetch`) and
`CompleteSubmit` (applying its `Reply`: `NotOk`, `Threw(message)` or
`Ok(result)`). The generate button is disabled while loading, so
`BeginSubmit` requires `!loading`, and a reply only completes a pending
request, so `CompleteSubmit` requires `loading`.

Whitespace is the fixed set of characters that JavaScript's `\s` matches and
`trim()` removes: tab, line feed, vertical tab, form feed, carriage return, space,
U+00A0, U+1680, U+2000 to U+200A, U+2028, U+2029, U+202F, U+205F, U+3000 and U+FEFF.

Behaviours of the code that the model keeps as they are:
- reset does not touch `loading`;
- a prompt of only whitespace is sent, because only the empty string is refused;
- the error is cleared when a submission starts, even when the prompt is then refused;
- the editor, save and reset controls exist only while `graphUrl` is non-empty;
- the page has no phase variable beyond the `loading` flag;
- a failure while rasterising happens inside the image's `onload` callback,
  outside the `try`, so it is not reported.

## Model

| member | source | states |
|---|---|---|
| Fence.IsSpace | GenerateFlowchart.js:92 | JavaScript's `\s` / `trim()` whitespace set; no whitespace character is a backtick, a digit or a Latin letter |
| Fence.SpaceRun | GenerateFlowchart.js:92 | the greedy `\s*`: the result is the length of the longest whitespace prefix, so every character before it is whitespace and the character at it is not |
| Fence.StripTicks | GenerateFlowchart.js:92 | the global `\s*```` replacement scanned left to right; the result is never longer than the input |
| Fence.Strip | GenerateFlowchart.js:92 | the whole replacement, with the anchored "```plantuml" alternative tried only at index 0; never lengthens the text |
| Fence.TrimEnd | GenerateFlowchart.js:92 | the result is a prefix of the input, everything dropped is whitespace, and the result does not end in whitespace |
| Fence.Trim | GenerateFlowchart.js:92 | `trim()`: never longer than the input; the result neither starts nor ends with whitespace |
| Fence.Clean | GenerateFlowchart.js:92 | the cleaned reply is never longer than the reply and has no leading or trailing whitespace |
| Fence.TrimIdentity | GenerateFlowchart.js:92 | trimming leaves a text unchanged if and only if it neither starts nor ends with whitespace |
| Fence.TrimEndIdentity | GenerateFlowchart.js:92 | dropping trailing whitespace leaves a text unchanged if and only if it does not end with whitespace |
| Fence.TrimIsSlice | GenerateFlowchart.js:92 | `trim()` returns a contiguous slice of its input, and everything dropped before and after that slice is whitespace |
| Fence.TrimIdempotent | GenerateFlowchart.js:92 | trimming twice is trimming once |
| Fence.NoTickStripTicks | GenerateFlowchart.js:92 | without any "```", the fence scan removes nothing |
| Fence.NoTickClean | GenerateFlowchart.js:92 | a reply with no "```" anywhere is only trimmed |
| Fence.NoTickCleanIdentity | GenerateFlowchart.js:92 | a reply with no "```" and no surrounding whitespace is stored exactly as received |
| Fence.StripTicksKeepsSolid | GenerateFlowchart.js:92 | the fence scan keeps, in order, every character that is neither whitespace nor a backtick |
| Fence.TrimKeepsSolid | GenerateFlowchart.js:92 | trimming keeps every character that is neither whitespace nor a backtick, in order (that no backtick is dropped either follows from TrimIsSlice) |
| Fence.StripKeepsSolid | GenerateFlowchart.js:92 | the replacement removes only whitespace, backticks, and the word "plantuml" of a leading "```plantuml" |
| Fence.CleanKeepsSolid | GenerateFlowchart.js:92 | the characters other than whitespace and backticks of the reply are those of the cleaned text, preceded by "plantuml" exactly when the reply starts with "```plantuml" |
| Fence.StripTicksKeepsPlainPrefix | GenerateFlowchart.js:92 | a backtick-free stretch that does not end in whitespace passes through the scan unchanged, whatever follows it |
| Fence.StripClosingFence | GenerateFlowchart.js:92 | a line break followed by "```" is removed entirely |
| Fence.StripBareFence | GenerateFlowchart.js:92 | a lone "```" is removed |
| Fence.StripPlainThenFence | GenerateFlowchart.js:92 | diagram text followed by a line break and a closing fence loses the fence and the line break |
| Fence.StripAfterOpenTag | GenerateFlowchart.js:92 | after a leading "```plantuml", the scan resumes past the whitespace that follows the tag |
| Fence.OtherTagIsNotOpenTag | GenerateFlowchart.js:92 | a fence whose tag does not start with "plantuml", followed by a line break, does not match the anchored alternative |
| Fence.CleanPlantUmlFenced | GenerateFlowchart.js:92 | "```plantuml", line break, diagram, line break, "```" cleans to the diagram, for any backtick-free diagram without surrounding whitespace |
| Fence.CleanOtherFenced | GenerateFlowchart.js:92 | "```" + a tag that does not start with "plantuml" and a body + line break + "```" loses its backticks and keeps the tag |
| Fence.CleanTagGlued | GenerateFlowchart.js:92 | a tag that only starts with "plantuml" still matches the anchored alternative: "```plantuml" + rest + line break + "```" cleans to the rest, so the tag's tail stays glued to the diagram |
| Fence.CleanPlantUmlExample | GenerateFlowchart.js:92 | "```plantuml\n@startuml\nA->B\n@enduml\n```" cleans to "@startuml\nA->B\n@enduml" |
| Fence.CleanPythonExample | GenerateFlowchart.js:92 | "```python\nA->B\n```" cleans to "python\nA->B": the tag stays |
| Fence.CleanGluedTagExample | GenerateFlowchart.js:92 | "```plantumlx\nA->B\n```" cleans to "x\nA->B": only the "plantuml" part of the tag is removed |
| Render.GraphUrl | GenerateFlowchart.js:14-23 | the URL is empty exactly when the diagram text is; otherwise it starts with the PlantUML SVG base and the rest is the encoded text |
| Render.GraphUrlTokenRoundTrip | GenerateFlowchart.js:15-18 | for non-empty texts, the URLs are equal if and only if the encoded tokens are |
| Session.Usable | GenerateFlowchart.js:91 | the truthiness of `data.result`: only a present, non-empty string is usable |
| Session.FailureMessage | GenerateFlowchart.js:86-99 | the error a failed request leaves: the unavailability message exactly for a non-ok status, the no-result message exactly for an ok reply without usable result, the thrown message otherwise; empty only for an empty thrown message |
| Session.SetPrompt | GenerateFlowchart.js:66-68 | the prompt becomes the typed text and nothing else changes |
| Session.SetUmlCode | GenerateFlowchart.js:133 | an edit sets the diagram text, re-derives the URL from it, and leaves error, loading and prompt alone |
| Session.BeginSubmit | GenerateFlowchart.js:70-77 | diagram, URL and prompt unchanged; a request starts (loading) exactly when the prompt is non-empty; the error becomes "Prompt cannot be empty." for an empty prompt and "" otherwise |
| Session.CompleteSubmit | GenerateFlowchart.js:79-102 | loading ends and the prompt stays; a usable result stores its cleaned text with the URL derived from it and keeps the error; a non-ok status, a thrown message or a missing/empty result keeps diagram and URL and sets the matching message; the URL invariant is kept |
| Session.Reset | GenerateFlowchart.js:59-64 | diagram, URL, error and prompt become empty; loading is untouched |
| Session.SaveAsPng | GenerateFlowchart.js:25-56 | without a URL nothing changes; only the error can change, and it becomes "Failed to download flowchart: " + the cause exactly when a URL exists and the try block failed |
| Session.ResetIdempotent | GenerateFlowchart.js:59-64 | resetting twice gives the state of resetting once |
| Session.ResetSynced | GenerateFlowchart.js:59-64 | after a reset the URL agrees with the (empty) diagram |
| Session.InitialSynced | GenerateFlowchart.js:8-12 | the initial state satisfies the URL invariant |
| Session.EmptyPromptRejected | GenerateFlowchart.js:72-76 | a request starts exactly for a non-empty prompt; an empty prompt only sets the message; a whitespace-only prompt is sent |
| Session.SubmitFailureKeepsDiagram | GenerateFlowchart.js:86-102 | a submission that fails leaves diagram, URL and prompt as before the click, loading false, and the outcome's message |
| Session.SubmitSuccessStoresCleanText | GenerateFlowchart.js:91-102 | a submission with result r stores Clean(r) with its URL, no error, the prompt kept and loading false; if Clean(r) is empty there is no URL and no error |
| Session.Step | GenerateFlowchart.js:105-149 | one user event keeps the URL invariant; generate does nothing while loading (disabled button); edit and reset do nothing while there is no graph URL (controls not shown) |
| Session.RunKeepsSynced | GenerateFlowchart.js:14-23 | over any sequence of events the URL never goes stale |
| Session.ReachableHasImageIffText | GenerateFlowchart.js:126 | in every reachable state there is an image (and editor) exactly when there is diagram text |
| Session.PromptOnlyTypedOrReset | GenerateFlowchart.js:59-68 | events other than typing and reset never change the prompt |
| Session.ScenarioFencedReply | GenerateFlowchart.js:70-103 | prompt "draw a login flow" with a fenced reply ends with the bare diagram, an image, no error and loading false |
| Session.ScenarioEmptyPrompt | GenerateFlowchart.js:72-76 | generating with an empty prompt only shows "Prompt cannot be empty." |
| Session.ScenarioServerError | GenerateFlowchart.js:86-88 | a non-ok first reply leaves no diagram and shows the unavailability message |
| Session.ScenarioEmptyResult | GenerateFlowchart.js:95-97 | an empty result shows "No result returned from the backend." |
| Session.ScenarioExportFailure | GenerateFlowchart.js:53-55 | a failed export shows the cause and keeps diagram, URL and prompt |
| Editor.FlowchartEditor.constructor | GenerateFlowchart.js:8-12 | all fields empty, loading false, URL invariant holds |
| Editor.FlowchartEditor.RefreshGraphUrl | GenerateFlowchart.js:14-23 | the effect sets graphUrl to the URL derived from umlCode |
| Editor.FlowchartEditor.HandlePromptChange | GenerateFlowchart.js:66-68 | the new state is SetPrompt of the old one |
| Editor.FlowchartEditor.EditUmlCode | GenerateFlowchart.js:133 | the new state is SetUmlCode of the old one, invariant kept |
| Editor.FlowchartEditor.StartGenerate | GenerateFlowchart.js:70-77 | reports whether a request is sent (exactly for a non-empty prompt); the new state is BeginSubmit of the old one |
| Editor.FlowchartEditor.FinishGenerate | GenerateFlowchart.js:79-102 | the try, catch and finally leave the state CompleteSubmit gives, invariant kept |
| Editor.FlowchartEditor.SaveAsPng | GenerateFlowchart.js:25-56 | only the error may change, as SaveAsPng gives |
| Editor.FlowchartEditor.ResetEditor | GenerateFlowchart.js:59-64 | the new state is Reset of the old one, invariant kept |

## Left out

- The plantuml-encoder library (deflate and PlantUML's base64): foreign code. It is a caller-supplied `encode`, so no URL-safety or decoding round-trip is claimed.
- The browser part of saveAsPNG (fetch, Blob, Image, canvas, `toDataURL`, the anchor click): I/O. Its outcome is the `Export` value `Fetched` or `Failed(message)`. Failures inside `img.onload` are outside the `try`, so they are not reported and not modelled.
- The interleaving of an export with other events: saveAsPNG awaits `fetch` and `response.text()` before its `catch` runs, so a reset, an edit or a finishing generation can happen in between. The model applies the export as a single step on the state at the click (`Step` on `ClickSave`, `SaveAsPng`); a download error reported after such an intervening event is not captured.
- Overlapping requests: the generate button is disabled while loading. The model has one request in flight at most, and `Step` ignores a reply when none is pending.
- React rendering, CSS, `console.log` and effect timing: the effect is a synchronous step after each change of `umlCode`. React applies a handler's queued updates together; the final values are those of the model's in-order assignments.
- A `result` field that is present but not a string, which would make `.replace` throw, and a thrown value without a `message`: the backend returns a string or null.
- Code units: the regex advances by UTF-16 code units and Dafny's `char` is a Unicode scalar value. Whitespace and backticks are single code units, so the cleaning result is the same.
- The backend (`app.py`) and the route table (`App.js`): outside the component.
