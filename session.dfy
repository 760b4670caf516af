/**
 * The session state of the flowchart page (GenerateFlowchart.js) as a value,
 * and each user action as a function from the state before to the state
 * after. The class in module Editor performs the same steps in place and is
 * specified by these functions.
 *
 * Submitting a prompt is split in two: BeginSubmit runs up to the request
 * (lines 70-77) and CompleteSubmit applies the request's outcome (lines 79-102).
 * The network call itself is the Reply value handed to CompleteSubmit.
 */
module Session {
  import Fence
  import Render

  datatype Option<T> = None | Some(value: T)

  const EmptyPromptError: string := "Prompt cannot be empty."
  const UnavailableError: string := "Server is temporarily unavailable. Please try again later."
  const NoResultError: string := "No result returned from the backend."
  const DownloadErrorPrefix: string := "Failed to download flowchart: "

  /** The component's five state variables. */
  datatype State = State(umlCode: string, graphUrl: string, error: string, loading: bool, prompt: string)

  /** How the generation request ends. */
  datatype Reply =
    | NotOk                        // the response status is not 2xx
    | Threw(message: string)       // fetch or the JSON parse rejected with this message
    | Ok(result: Option<string>)   // the body's "result" field; None when missing or null

  /** How the try block of saveAsPNG ends: the image was fetched and handed to
      the browser, or a step before that threw. */
  datatype Export = Fetched | Failed(message: string)

  /** The state when the page is first shown. */
  const Initial: State := State("", "", "", false, "")

  /** The graph URL is the one derived from the current diagram text. */
  predicate Synced(encode: string -> string, s: State) {
    s.graphUrl == Render.GraphUrl(encode, s.umlCode)
  }

  /** JavaScript truthiness of data.result: present and non-empty. */
  predicate Usable(result: Option<string>)
    ensures Usable(result) ==> result.Some?
    ensures result.Some? ==> (Usable(result) <==> result != Some(""))
  {
    result.Some? && result.value != ""
  }

  /** The reply carries diagram text. */
  predicate Succeeds(reply: Reply) {
    reply.Ok? && Usable(reply.result)
  }

  /** The message a failed request leaves in the error field. */
  function FailureMessage(reply: Reply): (m: string)
    requires !Succeeds(reply)
    ensures m == "" ==> reply == Threw("")
    ensures reply.Threw? ==> m == reply.message
    ensures reply.NotOk? <==> m == UnavailableError && !reply.Threw?
    ensures reply.Ok? <==> m == NoResultError && !reply.Threw?
  {
    match reply
    case NotOk => UnavailableError
    case Threw(m) => m
    case Ok(_) => NoResultError
  }

  /** setPrompt from the text area. */
  function SetPrompt(s: State, text: string): (r: State)
    ensures r.prompt == text
    ensures r.(prompt := s.prompt) == s
  {
    s.(prompt := text)
  }

  /** setUmlCode followed by the effect that re-derives graphUrl. */
  function SetUmlCode(encode: string -> string, s: State, code: string): (r: State)
    ensures r.umlCode == code && Synced(encode, r)
    ensures r.error == s.error && r.loading == s.loading && r.prompt == s.prompt
  {
    s.(umlCode := code, graphUrl := Render.GraphUrl(encode, code))
  }

  /** The first half of generateFlowchart: the error is cleared; an empty
      prompt is refused with a message, any other prompt starts a request. */
  function BeginSubmit(s: State): (r: State)
    requires !s.loading
    ensures r.umlCode == s.umlCode && r.graphUrl == s.graphUrl && r.prompt == s.prompt
    ensures r.loading <==> s.prompt != ""
    ensures r.error == (if s.prompt == "" then EmptyPromptError else "")
  {
    var cleared := s.(error := "");
    if cleared.prompt == "" then cleared.(error := EmptyPromptError)
    else cleared.(loading := true)
  }

  /** The second half of generateFlowchart: a usable result replaces the
      diagram text by its cleaned form; every other outcome sets a message and
      leaves the diagram alone; loading ends in all cases. */
  function CompleteSubmit(encode: string -> string, s: State, reply: Reply): (r: State)
    requires s.loading
    ensures !r.loading && r.prompt == s.prompt
    ensures Synced(encode, s) ==> Synced(encode, r)
    ensures Succeeds(reply) ==> Synced(encode, r)
    ensures Succeeds(reply) ==> r.umlCode == Fence.Clean(reply.result.value) && r.error == s.error
    ensures !Succeeds(reply) ==>
              r.umlCode == s.umlCode && r.graphUrl == s.graphUrl && r.error == FailureMessage(reply)
  {
    var settled :=
      match reply
      case NotOk => s.(error := UnavailableError)
      case Threw(m) => s.(error := m)
      case Ok(result) =>
        if Usable(result) then SetUmlCode(encode, s, Fence.Clean(result.value))
        else s.(error := NoResultError);
    settled.(loading := false)
  }

  /** resetEditor: the diagram, its URL, the error and the prompt are emptied;
      loading is left as it is. */
  function Reset(s: State): (r: State)
    ensures r.umlCode == "" && r.graphUrl == "" && r.error == "" && r.prompt == ""
    ensures r.loading == s.loading
  {
    s.(umlCode := "", graphUrl := "", error := "", prompt := "")
  }

  /** The state part of saveAsPNG: nothing happens without a graph URL; a
      failure inside the try block is reported; nothing else changes. */
  function SaveAsPng(s: State, outcome: Export): (r: State)
    ensures s.graphUrl == "" ==> r == s
    ensures r.(error := s.error) == s
    ensures r.error == if s.graphUrl != "" && outcome.Failed? then DownloadErrorPrefix + outcome.message
                       else s.error
  {
    if s.graphUrl == "" then s
    else match outcome
      case Fetched => s
      case Failed(m) => s.(error := DownloadErrorPrefix + m)
  }

  // ---------------------------------------------------------------------------
  // One action at a time.

  lemma ResetIdempotent(s: State)
    ensures Reset(Reset(s)) == Reset(s)
  {
  }

  lemma ResetSynced(encode: string -> string, s: State)
    ensures Synced(encode, Reset(s))
  {
  }

  lemma InitialSynced(encode: string -> string)
    ensures Synced(encode, Initial)
  {
  }

  /** An empty prompt issues no request and only sets the message; a prompt
      made of whitespace is not empty and is sent. */
  lemma EmptyPromptRejected(s: State)
    requires !s.loading
    ensures BeginSubmit(s).loading <==> s.prompt != ""
    ensures s.prompt == "" ==> BeginSubmit(s) == s.(error := EmptyPromptError)
    ensures BeginSubmit(s.(prompt := " ")).loading
  {
  }

  /** A full submission that fails keeps the diagram and its URL from before
      the click and shows the outcome's message. */
  lemma SubmitFailureKeepsDiagram(encode: string -> string, s: State, reply: Reply)
    requires !s.loading && s.prompt != "" && !Succeeds(reply)
    ensures var r := CompleteSubmit(encode, BeginSubmit(s), reply);
      && r.umlCode == s.umlCode && r.graphUrl == s.graphUrl && r.prompt == s.prompt
      && !r.loading && r.error == FailureMessage(reply)
  {
  }

  /** A full submission that succeeds stores the cleaned text with its URL,
      shows no error and keeps the prompt; text that cleans to nothing leaves
      no URL and still no error. */
  lemma SubmitSuccessStoresCleanText(encode: string -> string, s: State, text: string)
    requires !s.loading && s.prompt != "" && text != ""
    ensures var r := CompleteSubmit(encode, BeginSubmit(s), Ok(Some(text)));
      && r.umlCode == Fence.Clean(text) && r.graphUrl == Render.GraphUrl(encode, Fence.Clean(text))
      && r.error == "" && r.prompt == s.prompt && !r.loading
      && (Fence.Clean(text) == "" ==> r.graphUrl == "")
  {
  }

  // ---------------------------------------------------------------------------
  // Sequences of user actions on the page.

  /** What the user (or the network) does next. */
  datatype Event =
    | TypePrompt(text: string)
    | ClickGenerate
    | Respond(reply: Reply)
    | EditText(text: string)
    | ClickSave(outcome: Export)
    | ClickReset

  /** The page's reaction to one event. The generate button is disabled while
      loading; the editor and the save and reset buttons are only shown while
      there is a graph URL; a response arrives only for a pending request. */
  function Step(encode: string -> string, s: State, e: Event): (r: State)
    ensures Synced(encode, s) ==> Synced(encode, r)
    ensures e == ClickGenerate && s.loading ==> r == s
    ensures (e.EditText? || e.ClickReset?) && s.graphUrl == "" ==> r == s
  {
    match e
    case TypePrompt(text) => SetPrompt(s, text)
    case ClickGenerate => if s.loading then s else BeginSubmit(s)
    case Respond(reply) => if s.loading then CompleteSubmit(encode, s, reply) else s
    case EditText(text) => if s.graphUrl != "" then SetUmlCode(encode, s, text) else s
    case ClickSave(outcome) => SaveAsPng(s, outcome)
    case ClickReset => if s.graphUrl != "" then Reset(s) else s
  }

  /** The state after the events, in order. */
  function Run(encode: string -> string, s: State, events: seq<Event>): (r: State)
    decreases |events|
  {
    if events == [] then s else Run(encode, Step(encode, s, events[0]), events[1..])
  }

  /** The graph URL never goes stale, whatever the user does. */
  lemma {:induction false} RunKeepsSynced(encode: string -> string, s: State, events: seq<Event>)
    requires Synced(encode, s)
    ensures Synced(encode, Run(encode, s, events))
    decreases |events|
  {
    if events != [] {
      RunKeepsSynced(encode, Step(encode, s, events[0]), events[1..]);
    }
  }

  /** In every state the page can reach, there is an image exactly when there
      is diagram text. */
  lemma ReachableHasImageIffText(encode: string -> string, events: seq<Event>)
    ensures var r := Run(encode, Initial, events);
      && r.graphUrl == Render.GraphUrl(encode, r.umlCode)
      && (r.graphUrl == "" <==> r.umlCode == "")
  {
    RunKeepsSynced(encode, Initial, events);
  }

  /** Only typing and reset change the prompt. */
  lemma {:induction false} PromptOnlyTypedOrReset(encode: string -> string, s: State, events: seq<Event>)
    requires forall i :: 0 <= i < |events| ==> !events[i].TypePrompt? && !events[i].ClickReset?
    ensures Run(encode, s, events).prompt == s.prompt
    decreases |events|
  {
    if events != [] {
      PromptOnlyTypedOrReset(encode, Step(encode, s, events[0]), events[1..]);
    }
  }

  // ---------------------------------------------------------------------------
  // Worked scenarios, starting from the page as first shown.

  /** A fenced PlantUML reply ends as the bare diagram with an image. */
  lemma ScenarioFencedReply(encode: string -> string)
    ensures var r := Run(encode, Initial, [TypePrompt("draw a login flow"), ClickGenerate,
                                           Respond(Ok(Some("```plantuml\n@startuml\nA->B\n@enduml\n```")))]);
      && r.umlCode == "@startuml\nA->B\n@enduml"
      && r.graphUrl != "" && r.error == "" && !r.loading && r.prompt == "draw a login flow"
  {
    Fence.CleanPlantUmlExample();
    var typed := SetPrompt(Initial, "draw a login flow");
    var sent := BeginSubmit(typed);
    assert sent.loading;
    var reply := Ok(Some("```plantuml\n@startuml\nA->B\n@enduml\n```"));
    var done := CompleteSubmit(encode, sent, reply);
    assert Run(encode, done, []) == done;
  }

  /** An empty prompt sends nothing and explains why. */
  lemma ScenarioEmptyPrompt(encode: string -> string)
    ensures Run(encode, Initial, [ClickGenerate]) == Initial.(error := EmptyPromptError)
  {
    assert Run(encode, Step(encode, Initial, ClickGenerate), []) == Step(encode, Initial, ClickGenerate);
  }

  /** A server error on the first request leaves the page without a diagram. */
  lemma ScenarioServerError(encode: string -> string)
    ensures Run(encode, Initial, [TypePrompt("p"), ClickGenerate, Respond(NotOk)])
         == Initial.(prompt := "p", error := UnavailableError)
  {
    var sent := BeginSubmit(SetPrompt(Initial, "p"));
    var done := CompleteSubmit(encode, sent, NotOk);
    assert Run(encode, done, []) == done;
  }

  /** An empty result is reported as such. */
  lemma ScenarioEmptyResult(encode: string -> string)
    ensures Run(encode, Initial, [TypePrompt("p"), ClickGenerate, Respond(Ok(Some("")))])
         == Initial.(prompt := "p", error := NoResultError)
  {
    var sent := BeginSubmit(SetPrompt(Initial, "p"));
    var done := CompleteSubmit(encode, sent, Ok(Some("")));
    assert Run(encode, done, []) == done;
  }

  /** A failed export reports the cause and keeps the diagram and its image. */
  lemma ScenarioExportFailure(encode: string -> string, s: State, m: string)
    requires Synced(encode, s) && s.umlCode != ""
    ensures var r := Run(encode, s, [ClickSave(Failed(m))]);
      && r.error == DownloadErrorPrefix + m
      && r.umlCode == s.umlCode && r.graphUrl == s.graphUrl && r.prompt == s.prompt
  {
    var r := SaveAsPng(s, Failed(m));
    assert Run(encode, r, []) == r;
  }
}
