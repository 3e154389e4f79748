/**
  * The backend's `GET /api/info` handler (api/index.py).
  *
  * The handler is pure once its two effects are abstracted: the query
  * arguments arrive as a map, and yt-dlp's `extract_info` is a function
  * from the call it receives (the URL and the option dictionary) to either
  * an info dictionary or a raised exception. What remains is a total
  * function from those inputs to the response and to the extractor call
  * the handler made, if any.
  *
  * Python's own failures while shaping the info dictionary (`len` of a
  * value without a length, `[0]` of an empty list, `.get` on a non-dict,
  * `f['ext']` on a dict without that key) are modelled as `PyError`s with
  * CPython's messages, since the handler turns every exception into a 500
  * body carrying `str(e)`.
  */
module InfoApi {
  import opened Wrappers
  import opened Json

  /** The option dictionary handed to `yt_dlp.YoutubeDL`. */
  datatype YdlOpts = YdlOpts(quiet: bool, noWarnings: bool, extractFlat: bool, geoBypass: bool)

  /** A raised Python exception; `message` is what `str(e)` gives. */
  datatype PyError = PyError(kind: string, message: string)

  /** The one call the handler makes to the extractor. */
  datatype Call = Call(url: string, opts: YdlOpts)

  /** What `extract_info` did: returned an info dictionary, or raised. */
  datatype Extraction = Extracted(info: map<string, Value>) | Raised(error: PyError)

  /** A Flask response: a JSON body and an HTTP status. */
  datatype Response = Response(status: int, body: Value)

  /** The handler's observable effects: the extractor call it made, and its response. */
  datatype Handled = Handled(call: Option<Call>, response: Response)

  const UrlRequired := "URL is required"

  /** `get_ydl_opts`: every option is fixed except flat extraction. */
  function GetYdlOpts(extractFlat: bool): (o: YdlOpts)
    ensures o.extractFlat == extractFlat
    ensures o.quiet && o.noWarnings && o.geoBypass
  {
    YdlOpts(quiet := true, noWarnings := true, extractFlat := extractFlat, geoBypass := true)
  }

  // ---------------------------------------------------------------------
  // The Python built-ins the handler relies on
  // ---------------------------------------------------------------------

  /** `type(v).__name__` */
  function TypeName(v: Value): string {
    match v
    case Null => "NoneType"
    case Bool(_) => "bool"
    case Int(_) => "int"
    case Str(_) => "str"
    case List(_) => "list"
    case Dict(_) => "dict"
  }

  /** Python truthiness: `None`, `False`, `0`, `''`, `[]` and `{}` are false. */
  predicate Truthy(v: Value) {
    match v
    case Null => false
    case Bool(b) => b
    case Int(i) => i != 0
    case Str(s) => s != ""
    case List(items) => items != []
    case Dict(fields) => fields != map[]
  }

  /** `d.get(key, default)` on a dict. */
  function Get(d: map<string, Value>, key: string, default: Value): Value {
    if key in d then d[key] else default
  }

  /** `len(v)` */
  function Len(v: Value): (r: Result<int, PyError>)
    ensures r.Ok? <==> (v.Str? || v.List? || v.Dict?)
    ensures r.Ok? ==> r.value >= 0
  {
    match v
    case Str(s) => Ok(|s|)
    case List(items) => Ok(|items|)
    case Dict(fields) => Ok(|fields|)
    case _ => Err(PyError("TypeError", "object of type '" + TypeName(v) + "' has no len()"))
  }

  /** `v[0]`; a dict here has only string keys, so `0` is never one of them. */
  function First(v: Value): (r: Result<Value, PyError>)
    ensures r.Ok? <==> ((v.List? && v.items != []) || (v.Str? && v.s != []))
  {
    match v
    case List(items) =>
      if items == [] then Err(PyError("IndexError", "list index out of range")) else Ok(items[0])
    case Str(s) =>
      if s == [] then Err(PyError("IndexError", "string index out of range")) else Ok(Str([s[0]]))
    case Dict(_) => Err(PyError("KeyError", "0"))
    case _ => Err(PyError("TypeError", "'" + TypeName(v) + "' object is not subscriptable"))
  }

  /** The error raised by `v.get(...)` on anything that is not a dict. */
  function NoGet(v: Value): PyError {
    PyError("AttributeError", "'" + TypeName(v) + "' object has no attribute 'get'")
  }

  /** `v.get(key)`: `None` when a dict lacks the key, an error when `v` is no dict. */
  function MethodGet(v: Value, key: string): (r: Result<Value, PyError>)
    ensures r.Ok? <==> v.Dict?
  {
    match v
    case Dict(fields) => Ok(Get(fields, key, Null))
    case _ => Err(NoGet(v))
  }

  /** `d[key]` on a dict. */
  function Subscript(d: map<string, Value>, key: string): (r: Result<Value, PyError>)
    ensures r.Ok? <==> key in d
  {
    if key in d then Ok(d[key]) else Err(PyError("KeyError", "'" + key + "'"))
  }

  /**
    * The elements `for f in v` visits. A dict iterates over its keys, each a
    * `str`; since the first of them already fails `.get`, which key comes
    * first does not matter, and the model gives that first element as `''`.
    */
  function Iterate(v: Value): (r: Result<seq<Value>, PyError>)
    ensures r.Ok? <==> (v.List? || v.Str? || v.Dict?)
    ensures v.List? ==> r == Ok(v.items)
  {
    match v
    case List(items) => Ok(items)
    case Str(s) => Ok(seq(|s|, i requires 0 <= i < |s| => Str([s[i]])))
    case Dict(fields) => Ok(if fields == map[] then [] else [Str("")])
    case _ => Err(PyError("TypeError", "'" + TypeName(v) + "' object is not iterable"))
  }

  // ---------------------------------------------------------------------
  // The channel shape
  // ---------------------------------------------------------------------

  /** `len(info.get('entries', []))` fails: `entries` is there and has no length. */
  predicate EntriesUncountable(info: map<string, Value>) {
    "entries" in info && !(info["entries"].Str? || info["entries"].List? || info["entries"].Dict?)
  }

  /**
    * `info.get('thumbnails', [{}])[0].get('url')` fails: `thumbnails` is
    * there and is neither a non-empty list whose first element is a dict nor
    * (vacuously) something whose `[0]` is a dict.
    */
  predicate ThumbnailFails(info: map<string, Value>) {
    "thumbnails" in info &&
    !(info["thumbnails"].List? && info["thumbnails"].items != [] && info["thumbnails"].items[0].Dict?)
  }

  /** `info.get('thumbnails', [{}])[0].get('url')` */
  function ThumbnailUrl(info: map<string, Value>): Result<Value, PyError> {
    var first :- First(Get(info, "thumbnails", List([Dict(map[])])));
    MethodGet(first, "url")
  }

  /** The dictionary built for `type == 'channel'` (api/index.py:33-42). */
  function ChannelBody(info: map<string, Value>): (r: Result<Value, PyError>)
    ensures r.Err? <==> EntriesUncountable(info) || ThumbnailFails(info)
    ensures r.Ok? ==> (r.value.Dict? && r.value.fields.Keys ==
      {"type", "name", "id", "subscribers", "video_count", "description", "thumbnail", "banner"})
    ensures r.Ok? ==> r.value.fields["type"] == Str("channel")
    ensures r.Ok? && "entries" !in info ==> r.value.fields["video_count"] == Int(0)
    ensures r.Ok? && "entries" in info && info["entries"].List? ==>
      r.value.fields["video_count"] == Int(|info["entries"].items|)
    ensures r.Ok? ==> r.value.fields["banner"] == (if "banner_url" in info then info["banner_url"] else Str(""))
    ensures r.Ok? ==> (r.value.fields["name"] == Get(info, "uploader", Null) &&
      r.value.fields["id"] == Get(info, "channel_id", Null) &&
      r.value.fields["subscribers"] == Get(info, "channel_follower_count", Null) &&
      r.value.fields["description"] == Get(info, "description", Null))
    // the first thumbnail's `url`, or `None` when there is no `thumbnails` list
    ensures r.Ok? && "thumbnails" !in info ==> r.value.fields["thumbnail"] == Null
    ensures r.Ok? && "thumbnails" in info ==>
      r.value.fields["thumbnail"] == Get(info["thumbnails"].items[0].fields, "url", Null)
    // `len` is evaluated before the thumbnail lookup, so its error wins
    ensures EntriesUncountable(info) ==> r == Err(Len(info["entries"]).error)
  {
    var count :- Len(Get(info, "entries", List([])));
    var thumbnail :- ThumbnailUrl(info);
    Ok(Dict(map[
      "type" := Str("channel"),
      "name" := Get(info, "uploader", Null),
      "id" := Get(info, "channel_id", Null),
      "subscribers" := Get(info, "channel_follower_count", Null),
      "video_count" := Int(count),
      "description" := Get(info, "description", Null),
      "thumbnail" := thumbnail,
      "banner" := Get(info, "banner_url", Str(""))
    ]))
  }

  // ---------------------------------------------------------------------
  // The video shape and its `formats` list
  // ---------------------------------------------------------------------

  /** A kept format entry: `{format_id, res, ext}` with a truthy `res` and `ext == 'mp4'`. */
  predicate IsMp4Entry(v: Value) {
    v.Dict? && v.fields.Keys == {"format_id", "res", "ext"} &&
    Truthy(v.fields["res"]) && v.fields["ext"] == Str("mp4")
  }

  /** The comprehension's filter `f.get('height') and f['ext'] == 'mp4'`, for a dict `f` that has the keys it reads. */
  predicate Kept(f: map<string, Value>) {
    "height" in f && Truthy(f["height"]) && "ext" in f && f["ext"] == Str("mp4")
  }

  /** The comprehension's element `{'format_id': f['format_id'], 'res': f.get('height'), 'ext': f['ext']}`. */
  function EntryOf(f: map<string, Value>): Value
    requires "format_id" in f && "height" in f && "ext" in f
  {
    Dict(map["format_id" := f["format_id"], "res" := f["height"], "ext" := f["ext"]])
  }

  /**
    * One step of the comprehension for one element `f`: `None` when the
    * filter drops it, the new entry when it keeps it, or the exception that
    * evaluating the filter or the entry raised.
    */
  function FormatEntry(f: Value): (r: Result<Option<Value>, PyError>)
    ensures r.Err? <==> (!f.Dict? ||
      (Truthy(Get(f.fields, "height", Null)) &&
       ("ext" !in f.fields || (f.fields["ext"] == Str("mp4") && "format_id" !in f.fields))))
    ensures r.Ok? && r.value.Some? <==> f.Dict? && Kept(f.fields) && "format_id" in f.fields
    ensures r.Ok? && r.value.Some? ==> r.value.value == EntryOf(f.fields) && IsMp4Entry(r.value.value)
  {
    var height :- MethodGet(f, "height");
    if !Truthy(height) then Ok(None)
    else
      var ext :- Subscript(f.fields, "ext");
      if ext != Str("mp4") then Ok(None)
      else
        var id :- Subscript(f.fields, "format_id");
        Ok(Some(Dict(map["format_id" := id, "res" := height, "ext" := ext])))
  }

  /**
    * The list comprehension of api/index.py:57-61 over the elements `items`,
    * evaluated left to right: the first element that raises ends it.
    */
  function Formats(items: seq<Value>): (r: Result<seq<Value>, PyError>)
    ensures r.Ok? ==> |r.value| <= |items|
    ensures r.Ok? ==> forall j :: 0 <= j < |r.value| ==> IsMp4Entry(r.value[j])
    ensures r.Ok? <==> forall i :: 0 <= i < |items| ==> FormatEntry(items[i]).Ok?
  {
    if items == [] then Ok([])
    else
      var head :- FormatEntry(items[0]);
      var tail :- Formats(items[1..]);
      Ok((if head.Some? then [head.value] else []) + tail)
  }

  /** The dictionary built for every other `type` (api/index.py:46-62). */
  function VideoBody(info: map<string, Value>): (r: Result<Value, PyError>)
    ensures r.Ok? ==> (r.value.Dict? && r.value.fields.Keys ==
      {"type", "title", "uploader", "views", "likes", "duration", "thumbnail", "download_url", "formats"})
    ensures r.Ok? ==> r.value.fields["type"] == Str("video")
    ensures r.Ok? ==> (r.value.fields["formats"].List? &&
      forall j :: 0 <= j < |r.value.fields["formats"].items| ==> IsMp4Entry(r.value.fields["formats"].items[j]))
    ensures "formats" !in info ==> r.Ok? && r.value.fields["formats"] == List([])
    // a `formats` list is shaped iff every element is
    ensures "formats" in info && info["formats"].List? ==>
      (r.Ok? <==> forall i :: 0 <= i < |info["formats"].items| ==> FormatEntry(info["formats"].items[i]).Ok?)
    ensures "formats" in info && !(info["formats"].List? || info["formats"].Str? || info["formats"].Dict?) ==> r.Err?
    ensures r.Ok? ==> (r.value.fields["title"] == Get(info, "title", Null) &&
      r.value.fields["uploader"] == Get(info, "uploader", Null) &&
      r.value.fields["views"] == Get(info, "view_count", Null) &&
      r.value.fields["likes"] == Get(info, "like_count", Null) &&
      r.value.fields["duration"] == Get(info, "duration_string", Null) &&
      r.value.fields["thumbnail"] == Get(info, "thumbnail", Null))
    ensures r.Ok? ==> r.value.fields["download_url"] == Get(info, "url", Null)
    // `formats` is the comprehension over what `info.get('formats', [])` iterates
    ensures r.Ok? ==> (Iterate(Get(info, "formats", List([]))).Ok? &&
      Formats(Iterate(Get(info, "formats", List([]))).value) == Ok(r.value.fields["formats"].items))
  {
    var items :- Iterate(Get(info, "formats", List([])));
    var formats :- Formats(items);
    Ok(Dict(map[
      "type" := Str("video"),
      "title" := Get(info, "title", Null),
      "uploader" := Get(info, "uploader", Null),
      "views" := Get(info, "view_count", Null),
      "likes" := Get(info, "like_count", Null),
      "duration" := Get(info, "duration_string", Null),
      "thumbnail" := Get(info, "thumbnail", Null),
      "download_url" := Get(info, "url", Null),
      "formats" := List(formats)
    ]))
  }

  // ---------------------------------------------------------------------
  // The handler
  // ---------------------------------------------------------------------

  /** `request.args.get('type', 'video')` */
  function RequestedType(args: map<string, string>): string {
    if "type" in args then args["type"] else "video"
  }

  /** `not request.args.get('url')`: the argument is absent or empty. */
  predicate UrlMissing(args: map<string, string>) {
    "url" !in args || args["url"] == ""
  }

  /** A failure body: a dict whose only key is `error`, holding a string. */
  predicate IsErrorBody(body: Value) {
    body.Dict? && body.fields.Keys == {"error"} && body.fields["error"].Str?
  }

  /** The JSON body a successful response carries is tagged `channel` or `video`. */
  function TypeTag(body: Value): Option<Value> {
    if body.Dict? && "type" in body.fields then Some(body.fields["type"]) else None
  }

  /** `get_info` (api/index.py:16-65). */
  function GetInfo(args: map<string, string>, extract: Call -> Extraction): (h: Handled)
    ensures h.call.None? <==> UrlMissing(args)
    ensures UrlMissing(args) ==> h.response == Response(400, ErrorBody(UrlRequired))
    ensures h.call.Some? ==> h.call.value.url == args["url"]
    ensures h.call.Some? ==> h.call.value.opts == GetYdlOpts(RequestedType(args) == "channel")
    ensures h.response.status in {200, 400, 500}
    ensures h.response.status == 200 ==>
      TypeTag(h.response.body) == Some(Str(if RequestedType(args) == "channel" then "channel" else "video"))
    ensures h.response.status != 200 ==> IsErrorBody(h.response.body)
    ensures h.call.Some? && extract(h.call.value).Raised? ==>
      h.response == Response(500, ErrorBody(extract(h.call.value).error.message))
    // an extracted info is shaped by the requested type: a shaped body is
    // answered with 200, an exception while shaping with 500 and its message
    ensures h.call.Some? && extract(h.call.value).Extracted? ==>
      (var info := extract(h.call.value).info;
       var shaped := if RequestedType(args) == "channel" then ChannelBody(info) else VideoBody(info);
       h.response == if shaped.Ok? then Response(200, shaped.value) else Response(500, ErrorBody(shaped.error.message)))
  {
    if UrlMissing(args) then
      Handled(None, Response(400, ErrorBody(UrlRequired)))
    else
      var typeReq := RequestedType(args);
      var flatMode := typeReq == "channel";
      var call := Call(args["url"], GetYdlOpts(flatMode));
      var shaped :=
        match extract(call)
        case Raised(e) => Err(e)
        case Extracted(info) => if typeReq == "channel" then ChannelBody(info) else VideoBody(info);
      match shaped
      case Ok(body) => Handled(Some(call), Response(200, body))
      case Err(e) => Handled(Some(call), Response(500, ErrorBody(e.message)))
  }

  // ---------------------------------------------------------------------
  // Properties of the handler
  // ---------------------------------------------------------------------

  /**
    * The comprehension is an order-preserving filter that stops at the first
    * raising element: over a concatenation it is the first part's entries
    * followed by the second's, and the first part's error wins.
    */
  lemma {:induction false} FormatsAppend(a: seq<Value>, b: seq<Value>)
    ensures Formats(a + b) ==
      match Formats(a)
      case Err(e) => Err(e)
      case Ok(x) => (match Formats(b) case Err(e) => Err(e) case Ok(y) => Ok(x + y))
  {
    if a == [] {
      assert a + b == b;
      if Formats(b).Ok? {
        assert [] + Formats(b).value == Formats(b).value;
      }
    } else {
      assert (a + b)[0] == a[0];
      assert (a + b)[1..] == a[1..] + b;
      FormatsAppend(a[1..], b);
      var head := FormatEntry(a[0]);
      if head.Ok? && Formats(a[1..]).Ok? && Formats(b).Ok? {
        var h := if head.value.Some? then [head.value.value] else [];
        assert h + (Formats(a[1..]).value + Formats(b).value)
            == (h + Formats(a[1..]).value) + Formats(b).value;
      }
    }
  }

  /** When every element passes the filter, each one yields its own entry, in order. */
  lemma {:induction false} FormatsAllKept(items: seq<Value>)
    requires forall i :: 0 <= i < |items| ==> items[i].Dict? && Kept(items[i].fields) && "format_id" in items[i].fields
    ensures Formats(items).Ok? && |Formats(items).value| == |items|
    ensures forall i :: 0 <= i < |items| ==> Formats(items).value[i] == EntryOf(items[i].fields)
  {
    if items != [] {
      FormatsAllKept(items[1..]);
      var tail := Formats(items[1..]).value;
      assert Formats(items).value == [EntryOf(items[0].fields)] + tail;
      forall i | 0 <= i < |items|
        ensures Formats(items).value[i] == EntryOf(items[i].fields)
      {
        if i > 0 {
          assert items[1..][i - 1] == items[i];
        }
      }
    }
  }

  /** When no dict element passes the filter, the list is empty. */
  lemma {:induction false} FormatsNoneKept(items: seq<Value>)
    requires forall i :: 0 <= i < |items| ==> items[i].Dict? && !Truthy(Get(items[i].fields, "height", Null))
    ensures Formats(items) == Ok([])
  {
    if items != [] {
      FormatsNoneKept(items[1..]);
    }
  }

  /** The exception the handler reports is the one raised by the first failing element. */
  lemma {:induction false} FormatsFirstError(items: seq<Value>, k: nat)
    requires k < |items| && FormatEntry(items[k]).Err?
    requires forall i :: 0 <= i < k ==> FormatEntry(items[i]).Ok?
    ensures Formats(items) == Err(FormatEntry(items[k]).error)
  {
    if k > 0 {
      FormatsFirstError(items[1..], k - 1);
    }
  }

  /** A channel whose `thumbnails` list is present but empty fails at `[0]` with a 500. */
  lemma EmptyThumbnailsFail(args: map<string, string>, extract: Call -> Extraction, info: map<string, Value>)
    requires !UrlMissing(args) && RequestedType(args) == "channel"
    requires extract(Call(args["url"], GetYdlOpts(true))) == Extracted(info)
    requires "thumbnails" in info && info["thumbnails"] == List([]) && !EntriesUncountable(info)
    ensures GetInfo(args, extract).response == Response(500, ErrorBody("list index out of range"))
  {
  }
}
