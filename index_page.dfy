/** The page's request lifecycle: three state cells (isLoading, mindmapData,
    error), the submit handler that runs one generation request, the "new
    mindmap" handler, and the conditions that decide which panels render.

    The request itself is not modelled: its outcome is a parameter, which
    covers every way it can end (the fetch rejects, the response is not ok,
    the body does not parse, or it parses to a value). */
module IndexPage {
  import opened MindmapModel
  import JsText

  /** A thrown value: an Error instance with its message, or anything else. */
  datatype Thrown = ErrorObject(message: string) | OtherValue

  /** What response.json() gives: the parsed value, where None stands for a
      JSON null, or the exception it throws. */
  datatype Body = Parsed(data: Option<MindmapData>) | Unparsable(reason: Thrown)

  /** How the request ends. The body of a response that is not ok is never read. */
  datatype Outcome = FetchRejected(reason: Thrown) | Response(ok: bool, body: Body)

  const NotOkMessage: string := "Failed to generate mindmap"
  const FallbackMessage: string := "An error occurred"

  /** The catch block's message for a thrown value. */
  function ErrorMessage(t: Thrown): (m: string)
    ensures t.ErrorObject? ==> m == t.message
    ensures t.OtherValue? ==> m == FallbackMessage
  {
    match t
    case ErrorObject(message) => message
    case OtherValue => FallbackMessage
  }

  /** What the try/catch makes of an outcome: new data, or an error message. */
  datatype Settlement = Generated(data: Option<MindmapData>) | Failed(message: string)

  /** The try/catch of the submit handler. A response that is not ok fails
      with the fixed message; a thrown Error fails with its own message and
      anything else thrown with the fallback message; only an ok response
      whose body parses produces data, and then exactly the parsed body. */
  function Settle(o: Outcome): (s: Settlement)
    ensures s.Generated? <==> o.Response? && o.ok && o.body.Parsed?
    ensures s.Generated? ==> s.data == o.body.data
    ensures o.Response? && !o.ok ==> s == Failed(NotOkMessage)
    ensures o.FetchRejected? ==> s == Failed(ErrorMessage(o.reason))
    ensures o.Response? && o.ok && o.body.Unparsable? ==> s == Failed(ErrorMessage(o.body.reason))
    ensures s.Failed? && s.message != FallbackMessage ==>
      (o.Response? && !o.ok && s.message == NotOkMessage) ||
      (o.FetchRejected? && o.reason == ErrorObject(s.message)) ||
      (o.Response? && o.ok && o.body == Unparsable(ErrorObject(s.message)))
  {
    match o
    case FetchRejected(reason) => Failed(ErrorMessage(reason))
    case Response(ok, body) =>
      if !ok then Failed(ErrorMessage(ErrorObject(NotOkMessage)))
      else match body
        case Parsed(data) => Generated(data)
        case Unparsable(reason) => Failed(ErrorMessage(reason))
  }

  /** The panels the page renders below its header. */
  datatype Panels = Panels(form: bool, loading: bool, visualization: bool, errorPanel: bool)

  /** The render conditions. A string in a condition counts as true only when
      it is not empty, so an error with an empty message shows no panel. */
  function View(isLoading: bool, mindmapData: Option<MindmapData>, error: Option<string>): (v: Panels)
    ensures v.loading == isLoading
    ensures isLoading ==> !v.form && !v.visualization && !v.errorPanel
    ensures !isLoading ==> (v.form <==> mindmapData.None?) && (v.visualization <==> mindmapData.Some?)
    ensures !isLoading ==> (v.errorPanel <==> error.Some? && error.value != "")
    ensures !(v.form && v.visualization)
  {
    Panels(mindmapData.None? && !isLoading,
           isLoading,
           mindmapData.Some? && !isLoading,
           error.Some? && error.value != "" && !isLoading)
  }

  /** The Index component's state. */
  class Index {
    var isLoading: bool
    var mindmapData: Option<MindmapData>
    var error: Option<string>

    constructor ()
      ensures !isLoading && mindmapData == None && error == None
    {
      isLoading, mindmapData, error := false, None, None;
    }

    function Rendered(): Panels
      reads this
    {
      View(isLoading, mindmapData, error)
    }

    /** The submit handler up to the request. A description that trims to ""
        changes nothing and sends nothing; otherwise loading starts, the
        error is cleared and the request is sent with the description as
        typed, untrimmed. Until the request ends only the loading panel shows. */
    method BeginGenerate(description: string) returns (request: Option<string>)
      modifies this
      ensures JsText.Trim(description) == [] ==>
        request == None && isLoading == old(isLoading) && mindmapData == old(mindmapData) && error == old(error)
      ensures JsText.Trim(description) != [] ==>
        request == Some(description) && isLoading && error == None && mindmapData == old(mindmapData)
      ensures request.Some? ==> Rendered() == Panels(false, true, false, false)
    {
      if JsText.Trim(description) == [] {
        return None;
      }
      isLoading := true;
      error := None;
      request := Some(description);
    }

    /** The submit handler from the end of the request on: data on success,
        the message on failure (the data kept), and loading off either way. */
    method FinishGenerate(outcome: Outcome)
      modifies this
      ensures !isLoading
      ensures Settle(outcome).Generated? ==> mindmapData == Settle(outcome).data && error == old(error)
      ensures Settle(outcome).Failed? ==> mindmapData == old(mindmapData) && error == Some(Settle(outcome).message)
    {
      match Settle(outcome) {
        case Generated(data) =>
          mindmapData := data;
        case Failed(message) =>
          error := Some(message);
      }
      isLoading := false;
    }

    /** handleGenerateMindmap(description), the request ending with `outcome`.
        The handler is reachable only from the form, which shows only while
        there is no data; from there the page never ends showing both the
        visualization and an error. */
    method HandleGenerateMindmap(description: string, outcome: Outcome) returns (request: Option<string>)
      modifies this
      ensures JsText.Trim(description) == [] ==>
        request == None && isLoading == old(isLoading) && mindmapData == old(mindmapData) && error == old(error)
      ensures JsText.Trim(description) != [] ==> request == Some(description) && !isLoading
      ensures JsText.Trim(description) != [] && Settle(outcome).Generated? ==>
        mindmapData == Settle(outcome).data && error == None
      ensures JsText.Trim(description) != [] && Settle(outcome).Failed? ==>
        mindmapData == old(mindmapData) && error == Some(Settle(outcome).message)
      ensures old(Rendered().form) ==> !(Rendered().visualization && Rendered().errorPanel)
    {
      request := BeginGenerate(description);
      if request.Some? {
        FinishGenerate(outcome);
      }
    }

    /** handleNewMindmap: drops the data and the error, whatever they were. */
    method HandleNewMindmap()
      modifies this
      ensures mindmapData == None && error == None && isLoading == old(isLoading)
    {
      mindmapData := None;
      error := None;
    }
  }

  /** A description made only of whitespace sends no request. */
  method BlankDescriptionScenario() returns (request: Option<string>, panels: Panels)
    ensures request == None && panels == Panels(true, false, false, false)
  {
    var page := new Index();
    JsText.TrimEmptyIff(" \t\n");
    request := page.HandleGenerateMindmap(" \t\n", FetchRejected(OtherValue));
    panels := page.Rendered();
  }

  /** A response that is not ok, from the idle page, shows the form and the
      error panel with the fixed message; "Try Again" returns to the idle page. */
  method FailedRequestScenario() returns (message: Option<string>, failed: Panels, retried: Panels)
    ensures message == Some(NotOkMessage)
    ensures failed == Panels(true, false, false, true)
    ensures retried == Panels(true, false, false, false)
  {
    var page := new Index();
    assert !JsText.IsTrimmable('M');
    JsText.TrimEmptyIff("Music");
    var request := page.HandleGenerateMindmap("Music", Response(false, Unparsable(OtherValue)));
    message := page.error;
    failed := page.Rendered();
    page.HandleNewMindmap();
    retried := page.Rendered();
  }

  /** A successful request from the idle page shows only the visualization. */
  method GeneratedScenario(data: MindmapData) returns (panels: Panels)
    ensures panels == Panels(false, false, true, false)
  {
    var page := new Index();
    assert !JsText.IsTrimmable('M');
    JsText.TrimEmptyIff("Music");
    var request := page.HandleGenerateMindmap("Music", Response(true, Parsed(Some(data))));
    panels := page.Rendered();
  }
}
