/** The run screen (src/components/ActorExecutor.tsx): the three ways of
    giving an actor its input (a form built from its schema, raw JSON text,
    or a single URL turned into a crawler payload), the run request and its
    outcome, and the colour classes of a run's status. */
module Executor {
  import opened Json
  import opened Text
  import opened Apify

  datatype InputMode = FormMode | JsonMode | UrlMode

  const InvalidJson: string := "Invalid JSON format. Please check your input."
  const NoUrl: string := "Please enter a URL to scrape"
  const ExecuteFailed: string := "Failed to execute actor"
  const AnErrorOccurred: string := "An error occurred"
  /** The URL the URL box starts with. */
  const InitialUrl: string := "https://apify.com"

  /** The crawler input the URL mode sends (and writes into the JSON box):
      one start URL, the page function, at most 5 pages, depth 1, and
      30-second navigation and request timeouts. */
  function UrlPayload(pageFunction: string, url: string): (p: Json)
    ensures p.JObj? && |p.members| == 6
    ensures p.members[0] == ("startUrls", JArr([StartUrl(url)]))
    ensures p.members[1] == ("pageFunction", JStr(pageFunction))
  {
    JObj([
      ("startUrls", JArr([StartUrl(url)])),
      ("pageFunction", JStr(pageFunction)),
      ("maxPagesPerCrawl", JNum(5.0)),
      ("maxCrawlDepth", JNum(1.0)),
      ("navigationTimeoutSecs", JNum(30.0)),
      ("requestTimeoutSecs", JNum(30.0))
    ])
  }

  /** Read back by key, the payload holds the start URL, the page function,
      at most 5 pages, depth 1 and 30-second timeouts, each key once. */
  lemma UrlPayloadMembers(pageFunction: string, url: string)
    ensures var p := UrlPayload(pageFunction, url);
      && DistinctKeys(p.members)
      && Member(p, "startUrls") == Some(JArr([StartUrl(url)]))
      && Member(p, "pageFunction") == Some(JStr(pageFunction))
      && Member(p, "maxPagesPerCrawl") == Some(JNum(5.0))
      && Member(p, "maxCrawlDepth") == Some(JNum(1.0))
      && Member(p, "navigationTimeoutSecs") == Some(JNum(30.0))
      && Member(p, "requestTimeoutSecs") == Some(JNum(30.0))
  {
    var ms := UrlPayload(pageFunction, url).members;
    assert |ms[0].0| == 9 && |ms[1].0| == 12 && |ms[2].0| == 16;
    assert |ms[3].0| == 13 && |ms[4].0| == 21 && |ms[5].0| == 18;
    assert DistinctKeys(ms);
    GetDistinct(ms, 0);
    GetDistinct(ms, 1);
    GetDistinct(ms, 2);
    GetDistinct(ms, 3);
    GetDistinct(ms, 4);
    GetDistinct(ms, 5);
  }

  /** The input `handleExecute` sends, by mode: the parsed JSON text; the
      URL payload for the trimmed URL; or the form's data, `{}` when the
      form gave none. A JSON text that does not parse and a blank URL are
      errors, and no request is sent. */
  function ProcessedInput(mode: InputMode, input: Option<Json>, jsonInput: string, urlInput: string,
                          pageFunction: string, parse: string -> Option<Json>): (r: Outcome<Json>)
    ensures mode == JsonMode ==> (r.Failure? <==> parse(jsonInput).None?)
    ensures mode == JsonMode && r.Failure? ==> r.error == InvalidJson
    ensures mode == JsonMode && r.Success? ==> Some(r.value) == parse(jsonInput)
    ensures mode == UrlMode ==> (r.Failure? <==> Trim(urlInput) == "")
    ensures mode == UrlMode && r.Failure? ==> r.error == NoUrl
    ensures mode == UrlMode && r.Success? ==> r.value == UrlPayload(pageFunction, Trim(urlInput))
    ensures mode == FormMode ==> r.Success?
    ensures mode == FormMode && Defined(input) ==> r.value == input.value
    ensures mode == FormMode && !Defined(input) ==> r.value == JObj([])
  {
    match mode
    case JsonMode =>
      (match parse(jsonInput)
       case Some(v) => Success(v)
       case None => Failure(InvalidJson))
    case UrlMode =>
      if Trim(urlInput) == "" then Failure(NoUrl)
      else Success(UrlPayload(pageFunction, Trim(urlInput)))
    case FormMode =>
      Success(if Defined(input) then input.value else JObj([]))
  }

  /** The text the JSON box holds after the URL box changes to `url`: the
      payload for the trimmed URL, or the old text when the URL is blank. */
  function SyncedJson(jsonInput: string, url: string, pageFunction: string, stringify: Json -> string): (t: string)
    ensures Trim(url) == "" ==> t == jsonInput
  {
    if Trim(url) != "" then stringify(UrlPayload(pageFunction, Trim(url))) else jsonInput
  }

  /** Once the JSON box has been regenerated from a non-blank URL, running in
      JSON mode sends the same input as running in URL mode, provided
      parsing undoes printing for that payload. */
  lemma JsonModeAgreesWithUrlMode(jsonInput: string, url: string, input: Option<Json>, pageFunction: string,
                                  parse: string -> Option<Json>, stringify: Json -> string)
    requires Trim(url) != ""
    requires parse(stringify(UrlPayload(pageFunction, Trim(url)))) == Some(UrlPayload(pageFunction, Trim(url)))
    ensures ProcessedInput(JsonMode, input, SyncedJson(jsonInput, url, pageFunction, stringify), url, pageFunction, parse)
         == ProcessedInput(UrlMode, input, jsonInput, url, pageFunction, parse)
  {
  }

  /** The request `handleExecute` posts to `/api/execute`. */
  datatype ExecuteRequest = ExecuteRequest(token: string, actorId: string, input: Json)

  /** How the posted request ended: something threw (an `Error` with its
      message, or another value: `None`), or a response arrived with its
      `ok` flag, its `error` text ("" when absent) and its `data`. */
  datatype ExecuteOutcome =
    | Threw(message: Option<string>)
    | Answered(ok: bool, errorText: string, data: Option<ExecutionResult>)

  // ---------------------------------------------------------------------
  // run status

  datatype StatusKind = Succeeded | Failed | Running | OtherStatus

  /** The `switch (status)` both status helpers share. */
  function Kind(status: string): (k: StatusKind)
    ensures k == Succeeded <==> status == "SUCCEEDED"
    ensures k == Failed <==> status == "FAILED"
    ensures k == Running <==> status == "RUNNING"
  {
    if status == "SUCCEEDED" then Succeeded
    else if status == "FAILED" then Failed
    else if status == "RUNNING" then Running
    else OtherStatus
  }

  /** The icon `getStatusIcon` draws and its colour class. */
  datatype Icon = CheckCircle(color: string) | XCircle(color: string) | Clock(color: string)

  function StatusIcon(status: string): (icon: Icon)
    ensures status == "SUCCEEDED" ==> icon == CheckCircle("text-green-500")
    ensures status == "FAILED" ==> icon == XCircle("text-red-500")
    ensures status == "RUNNING" ==> icon == Clock("text-blue-500")
    ensures Kind(status) == OtherStatus ==> icon == Clock("text-gray-500")
  {
    match Kind(status)
    case Succeeded => CheckCircle("text-green-500")
    case Failed => XCircle("text-red-500")
    case Running => Clock("text-blue-500")
    case OtherStatus => Clock("text-gray-500")
  }

  /** The badge classes `getStatusColor` returns, written as the text,
      background and border classes they join. */
  const SucceededBadge: string := "text-green-300" + " bg-green-900/30" + " border border-green-700"
  const FailedBadge: string := "text-red-300" + " bg-red-900/30" + " border border-red-700"
  const RunningBadge: string := "text-blue-300" + " bg-blue-900/30" + " border border-blue-700"
  const OtherBadge: string := "text-gray-300" + " bg-gray-800/30" + " border border-gray-600"

  function StatusColor(status: string): (classes: string)
    ensures status == "SUCCEEDED" ==> classes == SucceededBadge
    ensures status == "FAILED" ==> classes == FailedBadge
    ensures status == "RUNNING" ==> classes == RunningBadge
    ensures Kind(status) == OtherStatus ==> classes == OtherBadge
  {
    match Kind(status)
    case Succeeded => SucceededBadge
    case Failed => FailedBadge
    case Running => RunningBadge
    case OtherStatus => OtherBadge
  }

  /** The status badge tells exactly the four kinds apart: two statuses get
      the same classes exactly when they are of the same kind. */
  lemma StatusColorByKind(s: string, t: string)
    ensures StatusColor(s) == StatusColor(t) <==> Kind(s) == Kind(t)
  {
    assert SucceededBadge[7] == 'e' && FailedBadge[7] == 'd';
    assert RunningBadge[7] == 'u' && OtherBadge[7] == 'a';
  }

  /** The same for the status icon. */
  lemma StatusIconByKind(s: string, t: string)
    ensures StatusIcon(s) == StatusIcon(t) <==> Kind(s) == Kind(t)
  {
    assert "text-blue-500"[7] == 'u' && "text-gray-500"[7] == 'a';
  }

  lemma InitialUrlTrimmed()
    ensures Trim(InitialUrl) == InitialUrl
  {
    var u := InitialUrl;
    assert u[0] == 'h' && u[|u| - 1] == 'm';
    TrimOfTrimmed(u);
  }

  class ActorExecutor {
    const actor: Actor
    const apiKey: string
    /** The page-function source the URL payload carries. */
    const pageFunction: string
    var executing: bool
    var result: Option<ExecutionResult>
    var error: string
    var inputMode: InputMode
    var jsonInput: string
    var urlInput: string

    /** The screen as first shown, after the URL effect has run once on
        mount: JSON mode, nothing run yet, the URL box at the apify.com
        home page and the JSON box holding the payload for it. */
    constructor (actor: Actor, apiKey: string, pageFunction: string, stringify: Json -> string)
      ensures this.actor == actor && this.apiKey == apiKey && this.pageFunction == pageFunction
      ensures !executing && result.None? && error == ""
      ensures inputMode == JsonMode && urlInput == InitialUrl
      ensures jsonInput == stringify(UrlPayload(pageFunction, InitialUrl))
    {
      this.actor := actor;
      this.apiKey := apiKey;
      this.pageFunction := pageFunction;
      executing := false;
      result := None;
      error := "";
      inputMode := JsonMode;
      urlInput := InitialUrl;
      InitialUrlTrimmed();
      jsonInput := stringify(UrlPayload(pageFunction, InitialUrl));
    }

    /** One of the three mode buttons; nothing else changes. */
    method SetInputMode(mode: InputMode)
      modifies this`inputMode
      ensures inputMode == mode
    {
      inputMode := mode;
    }

    /** Typing in the JSON box; nothing else changes. */
    method SetJsonInput(text: string)
      modifies this`jsonInput
      ensures jsonInput == text
    {
      jsonInput := text;
    }

    /** Typing in the URL box; the effect on `[urlInput]` then rewrites the
        JSON box, but only for a URL that is not blank. */
    method SetUrlInput(url: string, stringify: Json -> string)
      modifies this`urlInput, this`jsonInput
      ensures urlInput == url
      ensures jsonInput == SyncedJson(old(jsonInput), url, pageFunction, stringify)
    {
      urlInput := url;
      if Trim(url) != "" {
        jsonInput := stringify(UrlPayload(pageFunction, Trim(url)));
      }
    }

    /** The start of `handleExecute`: clear the error and the result and
        start executing; then build the input for the current mode. A bad
        input ends the run at once with its error and sends nothing;
        otherwise the request is returned and the run goes on. */
    method BeginExecute(input: Option<Json>, parse: string -> Option<Json>) returns (req: Option<ExecuteRequest>)
      modifies this`executing, this`error, this`result
      ensures result.None?
      ensures var p := ProcessedInput(inputMode, input, jsonInput, urlInput, pageFunction, parse);
              && (req.None? <==> p.Failure?)
              && (p.Failure? ==> !executing && error == p.error)
              && (p.Success? ==> executing && error == "" && req == Some(ExecuteRequest(apiKey, actor.id, p.value)))
    {
      executing := true;
      error := "";
      result := None;
      var p := ProcessedInput(inputMode, input, jsonInput, urlInput, pageFunction, parse);
      match p {
        case Failure(message) =>
          error := message;
          executing := false;
          req := None;
        case Success(value) =>
          req := Some(ExecuteRequest(apiKey, actor.id, value));
      }
    }

    /** The end of `handleExecute`: a good response stores its run; an error
        response or anything thrown sets the message and leaves no result;
        executing ends on every path. */
    method FinishExecute(outcome: ExecuteOutcome)
      modifies this`executing, this`error, this`result
      ensures !executing
      ensures outcome.Answered? && outcome.ok ==> result == outcome.data && error == old(error)
      ensures outcome.Answered? && !outcome.ok ==>
        result == old(result) && error == (if outcome.errorText != "" then outcome.errorText else ExecuteFailed)
      ensures outcome.Threw? ==>
        result == old(result) && error == (if outcome.message.Some? then outcome.message.value else AnErrorOccurred)
    {
      match outcome {
        case Threw(message) =>
          error := if message.Some? then message.value else AnErrorOccurred;
        case Answered(ok, errorText, data) =>
          if ok {
            result := data;
          } else {
            error := if errorText != "" then errorText else ExecuteFailed;
          }
      }
      executing := false;
    }
  }
}
