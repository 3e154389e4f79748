/**
  * The page's view state and its transitions (src/App.jsx).
  *
  * The component keeps six state cells: the active tab, the typed URL, the
  * loading flag, the last result (`data`), the error and the chosen
  * resolution. `handleProcess` validates the URL, enters loading, sends one
  * request, awaits it, writes the outcome and always leaves loading. The
  * tab buttons switch the intent and clear the result and the error. The
  * markup shows or hides its blocks from these cells alone.
  *
  * The single `await` is split in two: `Submitted` is everything before it
  * and returns the request sent, `Settled` is everything after it and takes
  * the request's `FetchOutcome` as an input. `App` is the component itself,
  * a class over the six cells whose methods are specified by these
  * functions.
  */
module AppView {
  import opened Wrappers
  import opened Json
  import QueryString

  /** The three tabs; `activeTab` only ever holds one of their names. */
  datatype Tab = Video | Channel | Downloader

  /** The value of `activeTab`, sent as the `type` parameter. */
  function TabName(t: Tab): (name: string)
    ensures name != [] && QueryString.AllUnreserved(name)
  {
    match t
    case Video => "video"
    case Channel => "channel"
    case Downloader => "downloader"
  }

  const ValidationMessage := "Mohon masukkan URL YouTube yang valid."
  const GenericFailure := "Gagal mengambil data dari server."
  const Unreachable := "Gagal menghubungi server backend. (Jika di local, pastikan API server jalan)"

  /**
    * The six state cells. `data` is `Null` for `null`; `error` holds
    * whatever was last passed to `setError`, which is a string except when
    * a failure body carries a truthy non-string `error`.
    */
  datatype ViewState = ViewState(
    tab: Tab, url: string, loading: bool, data: Value, error: Value, resolution: string)

  /** The `useState` initial values. */
  const Initial := ViewState(Video, "", false, Null, Str(""), "720")

  /** The request `fetch` is given: a path and a query string. */
  datatype Request = Request(path: string, query: string)

  /**
    * How the awaited part ends: `fetch` rejects (no response), or a response
    * arrives with a status and a body that `response.json()` either parses
    * (`Some`) or rejects (`None`).
    */
  datatype FetchOutcome = Rejected | Responded(status: int, body: Option<Value>)

  /** `response.ok` */
  predicate OkStatus(status: int) {
    200 <= status <= 299
  }

  /** JavaScript truthiness of a parsed JSON value: objects and arrays are always true. */
  predicate JsTruthy(v: Value) {
    match v
    case Null => false
    case Bool(b) => b
    case Int(i) => i != 0
    case Str(s) => s != ""
    case List(_) => true
    case Dict(_) => true
  }

  /**
    * `v.key` for a value that is not `null`: the member of an object, and
    * `None` (`undefined`) for a missing member or any other kind of value.
    */
  function Property(v: Value, key: string): (r: Option<Value>)
    ensures r.Some? <==> v.Dict? && key in v.fields
  {
    if v.Dict? && key in v.fields then Some(v.fields[key]) else None
  }

  /** `result.error || "Gagal mengambil data dari server."` for a non-null body. */
  function FailureText(body: Value): (e: Value)
    ensures JsTruthy(e)
    ensures Property(body, "error").Some? && JsTruthy(Property(body, "error").value) ==>
      e == Property(body, "error").value
    ensures !(Property(body, "error").Some? && JsTruthy(Property(body, "error").value)) ==>
      e == Str(GenericFailure)
  {
    match Property(body, "error")
    case Some(e) => if JsTruthy(e) then e else Str(GenericFailure)
    case None => Str(GenericFailure)
  }

  /** The request built from the URL and the tab (src/App.jsx:39-41). */
  function InfoRequest(url: string, tab: Tab): Request {
    Request("/api/info", QueryString.InfoQuery(url, TabName(tab)))
  }

  // ---------------------------------------------------------------------
  // Transitions
  // ---------------------------------------------------------------------

  /**
    * `handleProcess` up to the `await` (src/App.jsx:24-41): the state it
    * leaves while the request is pending, and the request, if one is sent.
    */
  function Submitted(s: ViewState): (r: (ViewState, Option<Request>))
    // `!url` rejects only the empty string: no request, loading and data untouched
    ensures r.1.None? <==> s.url == ""
    ensures s.url == "" ==> r.0 == s.(error := Str(ValidationMessage))
    // otherwise: loading, with the error and the result cleared
    ensures s.url != "" ==> r.0 == s.(loading := true, error := Str(""), data := Null)
    // the request carries exactly the URL and the tab name, nothing else
    ensures r.1.Some? ==> (r.1.value.path == "/api/info" &&
      QueryString.ParseQuery(r.1.value.query) == Some([("url", s.url), ("type", TabName(s.tab))]))
  {
    if s.url == "" then
      (s.(error := Str(ValidationMessage)), None)
    else
      QueryString.InfoQueryRoundTrip(s.url, TabName(s.tab));
      (s.(loading := true, error := Str(""), data := Null), Some(InfoRequest(s.url, s.tab)))
  }

  /**
    * `handleProcess` after the `await` (src/App.jsx:44-62): the `try` writes
    * the result or the failure text, the `catch` takes the transport
    * rejection, a body that does not parse, and reading `.error` of a
    * `null` body; the `finally` clears loading.
    */
  function Settled(s: ViewState, o: FetchOutcome): (r: ViewState)
    ensures !r.loading
    ensures r.tab == s.tab && r.url == s.url && r.resolution == s.resolution
    // ok response with a body: the body becomes the result, the error is untouched
    ensures o.Responded? && OkStatus(o.status) && o.body.Some? ==> r.data == o.body.value && r.error == s.error
    // every other outcome leaves the result untouched
    ensures !(o.Responded? && OkStatus(o.status) && o.body.Some?) ==> r.data == s.data
    // the body's own `error`, else the generic text
    ensures o.Responded? && !OkStatus(o.status) && o.body.Some? && o.body.value != Null ==>
      r.error == FailureText(o.body.value)
    // the `catch`: no response, no JSON, or `null.error`
    ensures o.Rejected? || o.body.None? || (!OkStatus(o.status) && o.body.value == Null) ==>
      r.error == Str(Unreachable)
  {
    var written :=
      match o
      case Rejected => s.(error := Str(Unreachable))
      case Responded(status, None) => s.(error := Str(Unreachable))
      case Responded(status, Some(body)) =>
        if OkStatus(status) then s.(data := body)
        else if body == Null then s.(error := Str(Unreachable))
        else s.(error := FailureText(body));
    written.(loading := false)
  }

  /** `handleProcess` as a whole, for an outcome of its one request. */
  function Processed(s: ViewState, o: FetchOutcome): (r: (ViewState, Option<Request>))
    ensures r.1.None? <==> s.url == ""
    ensures s.url == "" ==> r.0 == s.(error := Str(ValidationMessage))
    // every submission that reaches the request ends out of loading
    ensures s.url != "" ==> !r.0.loading
    ensures r.0.tab == s.tab && r.0.url == s.url && r.0.resolution == s.resolution
    // the result is the ok body, or null
    ensures s.url != "" ==>
      r.0.data == (if o.Responded? && OkStatus(o.status) && o.body.Some? then o.body.value else Null)
    // an ok response leaves no error; a failure always leaves a truthy one
    ensures s.url != "" && o.Responded? && OkStatus(o.status) && o.body.Some? ==> r.0.error == Str("")
    ensures s.url != "" && !(o.Responded? && OkStatus(o.status) && o.body.Some?) ==> JsTruthy(r.0.error)
  {
    var (pending, sent) := Submitted(s);
    if sent.None? then (pending, sent) else (Settled(pending, o), sent)
  }

  /** A tab button (src/App.jsx:97-139): switch the intent, clear the result and the error. */
  function Switched(s: ViewState, t: Tab): (r: ViewState)
    ensures r.tab == t && r.data == Null && r.error == Str("")
    ensures r.url == s.url && r.loading == s.loading && r.resolution == s.resolution
  {
    s.(tab := t, data := Null, error := Str(""))
  }

  // ---------------------------------------------------------------------
  // What the markup shows
  // ---------------------------------------------------------------------

  /** The blocks whose presence the markup decides from the state. */
  datatype View = View(
    resolutionPicker: bool,  // the target-quality selector
    submitDisabled: bool,    // the process button's `disabled`
    errorBox: bool,          // the error message
    results: bool,           // the results section
    channelCard: bool,       // the channel card
    videoCard: bool,         // the video card
    downloadBlock: bool,     // inside the video card: the download button block
    successNote: bool)       // inside the video card: the "data fetched" note

  /** The render decisions (src/App.jsx:174, 208, 234, 244, 247, 312, 355-377). */
  function Visible(s: ViewState): (v: View)
    ensures v.resolutionPicker <==> s.tab == Downloader
    ensures v.submitDisabled <==> s.loading
    ensures v.errorBox <==> JsTruthy(s.error)
    ensures v.results <==> JsTruthy(s.data) && !s.loading
    // the `type` tag alone picks the card; at most one card shows
    ensures v.channelCard <==> v.results && Property(s.data, "type") == Some(Str("channel"))
    ensures v.videoCard <==> v.results && Property(s.data, "type") == Some(Str("video"))
    ensures !(v.channelCard && v.videoCard)
    // inside the video card, exactly one of the download block and the note
    ensures v.downloadBlock <==> v.videoCard && s.tab == Downloader
    ensures v.successNote <==> v.videoCard && s.tab != Downloader
  {
    var results := JsTruthy(s.data) && !s.loading;
    var tag := Property(s.data, "type");
    var videoCard := results && tag == Some(Str("video"));
    View(
      resolutionPicker := s.tab == Downloader,
      submitDisabled := s.loading,
      errorBox := JsTruthy(s.error),
      results := results,
      channelCard := results && tag == Some(Str("channel")),
      videoCard := videoCard,
      downloadBlock := videoCard && s.tab == Downloader,
      successNote := videoCard && s.tab != Downloader)
  }

  // ---------------------------------------------------------------------
  // The component
  // ---------------------------------------------------------------------

  /** The `App` component: its state cells as fields, its handlers as methods. */
  class App {
    var activeTab: Tab
    var url: string
    var loading: bool
    var data: Value
    var error: Value
    var resolution: string

    /** The cells as one value. */
    function State(): ViewState
      reads this
    {
      ViewState(activeTab, url, loading, data, error, resolution)
    }

    constructor ()
      ensures State() == Initial
    {
      activeTab := Video;
      url := "";
      loading := false;
      data := Null;
      error := Str("");
      resolution := "720";
    }

    /** The URL input's `onChange` (src/App.jsx:156). */
    method SetUrl(text: string)
      modifies this
      ensures State() == old(State()).(url := text)
    {
      url := text;
    }

    /** The quality selector's `onChange` (src/App.jsx:183). */
    method SetResolution(choice: string)
      modifies this
      ensures State() == old(State()).(resolution := choice)
    {
      resolution := choice;
    }

    /** A tab button's `onClick` (src/App.jsx:97-139). */
    method SelectTab(t: Tab)
      modifies this
      ensures activeTab == t && data == Null && error == Str("")
      ensures url == old(url) && loading == old(loading) && resolution == old(resolution)
      ensures State() == Switched(old(State()), t)
    {
      activeTab := t;
      data := Null;
      error := Str("");
    }

    /** `handleProcess` up to the `await`: validate, enter loading, send. */
    method Begin() returns (sent: Option<Request>)
      modifies this
      ensures sent.None? <==> old(url) == ""
      ensures old(url) != "" ==> loading && error == Str("") && data == Null
      ensures old(url) == "" ==> error == Str(ValidationMessage) && loading == old(loading) && data == old(data)
      ensures (State(), sent) == Submitted(old(State()))
    {
      if url == "" {
        error := Str(ValidationMessage);
        return None;
      }
      loading := true;
      error := Str("");
      data := Null;
      sent := Some(InfoRequest(url, activeTab));
      QueryString.InfoQueryRoundTrip(url, TabName(activeTab));
    }

    /** `handleProcess` after the `await`: the `try`, the `catch` and the `finally`. */
    method Finish(outcome: FetchOutcome)
      modifies this
      ensures !loading
      ensures activeTab == old(activeTab) && url == old(url) && resolution == old(resolution)
      ensures State() == Settled(old(State()), outcome)
    {
      var thrown := false;
      match outcome {
        case Rejected =>
          thrown := true;
        case Responded(status, body) =>
          if body.None? {
            thrown := true;
          } else if OkStatus(status) {
            data := body.value;
          } else if body.value == Null {
            thrown := true;
          } else {
            error := FailureText(body.value);
          }
      }
      if thrown {
        error := Str(Unreachable);
      }
      loading := false;
    }

    /** `handleProcess` (src/App.jsx:24-63), given how its one request ends. */
    method HandleProcess(outcome: FetchOutcome) returns (sent: Option<Request>)
      modifies this
      ensures sent.None? <==> old(url) == ""
      ensures old(url) != "" ==> !loading
      ensures (State(), sent) == Processed(old(State()), outcome)
    {
      sent := Begin();
      if sent.Some? {
        Finish(outcome);
      }
    }
  }
}
