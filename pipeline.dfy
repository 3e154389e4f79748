/**
  * The page and the backend together: the request the page builds is read
  * by the server (query string to `request.args`), handled by `get_info`,
  * and its JSON reply settles the page.
  *
  * `jsonify` and `response.json()` are taken to be inverse: the body the
  * handler builds is the value the page reads.
  */
module Pipeline {
  import opened Wrappers
  import opened Json
  import QueryString
  import InfoApi
  import opened AppView

  /** The reply as the page's `fetch` sees it. */
  function Reply(r: InfoApi.Response): FetchOutcome {
    Responded(r.status, Some(r.body))
  }

  /** `request.args` for a request the page sent. */
  function ServerArgs(req: Request): map<string, string> {
    match QueryString.ParseQuery(req.query)
    case Some(pairs) => QueryString.ArgsOf(pairs)
    case None => map[]
  }

  /** `request.args` of the page's request holds `url` and `type` and nothing else. */
  lemma ArgsOfRequest(url: string, tab: Tab)
    ensures ServerArgs(InfoRequest(url, tab)) == map["url" := url, "type" := TabName(tab)]
  {
    QueryString.InfoQueryRoundTrip(url, TabName(tab));
    var pairs := [("url", url), ("type", TabName(tab))];
    assert pairs[1..] == [("type", TabName(tab))];
    assert pairs[1..][1..] == [];
    assert QueryString.ArgsOf(pairs[1..][1..]) == map[];
    assert QueryString.ArgsOf(pairs[1..]) == map["type" := TabName(tab)];
  }

  /** The backend's handling of the request the page sends for `s`. */
  function Backend(s: ViewState, extract: InfoApi.Call -> InfoApi.Extraction): InfoApi.Handled {
    InfoApi.GetInfo(ServerArgs(InfoRequest(s.url, s.tab)), extract)
  }

  /** The page once the backend's reply to its submission of `s` has settled. */
  function Answered(s: ViewState, extract: InfoApi.Call -> InfoApi.Extraction): ViewState {
    Settled(Submitted(s).0, Reply(Backend(s, extract).response))
  }

  /**
    * The server side of one submission of a non-empty URL: the extractor is
    * called with exactly the typed URL, flat exactly for the channel tab,
    * the 400 branch is never reached, and a 200 body is tagged with the
    * tab's kind.
    */
  lemma BackendSeesSubmission(s: ViewState, extract: InfoApi.Call -> InfoApi.Extraction)
    requires s.url != ""
    ensures Backend(s, extract).call == Some(InfoApi.Call(s.url, InfoApi.GetYdlOpts(s.tab == Channel)))
    ensures Backend(s, extract).response.status in {200, 500}
    ensures Backend(s, extract).response.status == 200 ==>
      Property(Backend(s, extract).response.body, "type") ==
        Some(Str(if s.tab == Channel then "channel" else "video"))
    ensures Backend(s, extract).response.status == 500 ==>
      InfoApi.IsErrorBody(Backend(s, extract).response.body)
  {
    var args := ServerArgs(InfoRequest(s.url, s.tab));
    ArgsOfRequest(s.url, s.tab);
    assert !InfoApi.UrlMissing(args);
    assert InfoApi.RequestedType(args) == TabName(s.tab);
    assert (TabName(s.tab) == "channel") == (s.tab == Channel);
  }

  /**
    * The page side of the same submission: a 200 reply shows the card of
    * the tab's kind (the channel card on the channel tab, the video card
    * otherwise, with the download block on the downloader tab) and no
    * error; a 500 reply shows no result and the backend's message, or the
    * generic text when that message is empty.
    *
    * These are the markup's selection conditions only: on the downloader
    * tab the selected download block joins `data.available_formats`, which
    * the video body never has (`VideoBodyHasNoAvailableFormats`), so its
    * rendering throws.
    */
  lemma SubmitAgainstBackend(s: ViewState, extract: InfoApi.Call -> InfoApi.Extraction)
    requires s.url != ""
    ensures Submitted(s).1 == Some(InfoRequest(s.url, s.tab))
    ensures Backend(s, extract).response.status == 200 ==>
      Visible(Answered(s, extract)).results && !Visible(Answered(s, extract)).errorBox &&
      (Visible(Answered(s, extract)).channelCard <==> s.tab == Channel) &&
      (Visible(Answered(s, extract)).videoCard <==> s.tab != Channel) &&
      (Visible(Answered(s, extract)).downloadBlock <==> s.tab == Downloader)
    ensures Backend(s, extract).response.status == 500 ==>
      !Visible(Answered(s, extract)).results &&
      Answered(s, extract).error ==
        (var message := Backend(s, extract).response.body.fields["error"];
         if message.s != "" then message else Str(GenericFailure))
  {
    BackendSeesSubmission(s, extract);
    var r := Backend(s, extract).response;
    var pending := Submitted(s).0;
    assert pending.data == Null && pending.error == Str("") && pending.loading;
    var after := Answered(s, extract);
    if r.status == 200 {
      assert after.data == r.body && after.error == Str("");
      assert r.body.Dict?;
    } else if r.status == 500 {
      assert after.data == Null;
      assert after.error == FailureText(r.body);
    }
  }

  /** The video body never carries `available_formats`, the field the download block joins. */
  lemma VideoBodyHasNoAvailableFormats(info: map<string, Value>)
    requires InfoApi.VideoBody(info).Ok?
    ensures Property(InfoApi.VideoBody(info).value, "available_formats") == None
    ensures Property(InfoApi.VideoBody(info).value, "formats").Some?
  {
  }
}
