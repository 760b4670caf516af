/**
 * The GenerateFlowchart component as an object: its five state variables are
 * fields that each handler updates in the order the handler does, and each
 * handler's new state is the one the matching function of module Session
 * gives. Valid() is the synchronisation of graphUrl with umlCode that the
 * component's effect maintains.
 */
module Editor {
  import Fence
  import Render
  import Session

  class FlowchartEditor {
    /** plantumlEncoder.encode. */
    const encode: string -> string

    var umlCode: string
    var graphUrl: string
    var error: string
    var loading: bool
    var prompt: string

    /** The fields as a Session.State value. */
    function State(): (st: Session.State)
      reads this
    {
      Session.State(umlCode, graphUrl, error, loading, prompt)
    }

    predicate Valid()
      reads this
    {
      Session.Synced(encode, State())
    }

    /** The page as first shown: everything empty, nothing loading. */
    constructor (encode: string -> string)
      ensures this.encode == encode
      ensures State() == Session.Initial && Valid()
    {
      this.encode := encode;
      umlCode, graphUrl, error, loading, prompt := "", "", "", false, "";
    }

    /** The effect that runs after each change of umlCode. */
    method RefreshGraphUrl()
      modifies this`graphUrl
      ensures graphUrl == Render.GraphUrl(encode, umlCode)
      ensures Valid()
    {
      if umlCode != "" {
        var encodedMarkup := encode(umlCode);
        graphUrl := Render.SvgBase + encodedMarkup;
      } else {
        graphUrl := "";
      }
    }

    /** handlePromptChange. */
    method HandlePromptChange(value: string)
      requires Valid()
      modifies this`prompt
      ensures State() == Session.SetPrompt(old(State()), value) && Valid()
    {
      prompt := value;
    }

    /** The editor's onChange: setUmlCode, then the effect. */
    method EditUmlCode(text: string)
      modifies this
      ensures State() == Session.SetUmlCode(encode, old(State()), text) && Valid()
    {
      umlCode := text;
      RefreshGraphUrl();
    }

    /** generateFlowchart up to the request; sent tells whether one is made.
        The button is disabled while loading. */
    method StartGenerate() returns (sent: bool)
      requires Valid() && !loading
      modifies this
      ensures sent <==> old(prompt) != ""
      ensures State() == Session.BeginSubmit(old(State())) && Valid()
    {
      error := "";
      if prompt == "" {
        error := Session.EmptyPromptError;
        return false;
      }
      loading := true;
      sent := true;
    }

    /** generateFlowchart from the awaited response on: the try block, its
        catch and its finally. */
    method FinishGenerate(reply: Session.Reply)
      requires Valid() && loading
      modifies this
      ensures State() == Session.CompleteSubmit(encode, old(State()), reply) && Valid()
    {
      var thrown: Session.Option<string> := Session.None;
      match reply {
        case NotOk =>
          thrown := Session.Some(Session.UnavailableError);
        case Threw(m) =>
          thrown := Session.Some(m);
        case Ok(result) =>
          if Session.Usable(result) {
            var cleanedUmlCode := Fence.Clean(result.value);
            umlCode := cleanedUmlCode;
            RefreshGraphUrl();
          } else {
            error := Session.NoResultError;
          }
      }
      if thrown.Some? {
        error := thrown.value;
      }
      loading := false;
    }

    /** The state part of saveAsPNG: the guard on graphUrl and the catch. */
    method SaveAsPng(outcome: Session.Export)
      requires Valid()
      modifies this`error
      ensures State() == Session.SaveAsPng(old(State()), outcome) && Valid()
    {
      if graphUrl != "" {
        match outcome {
          case Fetched =>
          case Failed(m) =>
            error := Session.DownloadErrorPrefix + m;
        }
      }
    }

    /** resetEditor. */
    method ResetEditor()
      requires Valid()
      modifies this
      ensures State() == Session.Reset(old(State())) && Valid()
    {
      umlCode := "";
      graphUrl := "";
      error := "";
      prompt := "";
    }
  }

  /** Usage example, not a model of any handler: a session driven through the
      object (type, generate, export with a failure, reset), checked by its
      assertions. */
  method Scenario(encode: string -> string, reply: string, cause: string)
    requires reply != ""
  {
    var page := new FlowchartEditor(encode);
    page.HandlePromptChange("draw a login flow");
    var sent := page.StartGenerate();
    assert sent && page.loading;
    page.FinishGenerate(Session.Ok(Session.Some(reply)));
    assert page.umlCode == Fence.Clean(reply) && page.error == "" && !page.loading;
    assert page.graphUrl == "" <==> page.umlCode == "";
    page.SaveAsPng(Session.Failed(cause));
    assert page.umlCode == Fence.Clean(reply) && page.prompt == "draw a login flow";
    assert page.error == (if page.graphUrl != "" then Session.DownloadErrorPrefix + cause else "");
    page.ResetEditor();
    assert page.State() == Session.Initial;
  }
}
