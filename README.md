# ytscraper: the view-state machine and the info endpoint

A model of the two pieces of logic between the user and yt-dlp in ytscraper:

- **The page** (`src/App.jsx`). Its six state cells are `activeTab`, `url`, `loading`, `data`, `error` and `resolution`. `handleProcess` works in this order:
  - it rejects an empty URL;
  - it enters loading and sends one `GET /api/info?url=…&type=…`;
  - it writes the outcome;
  - it always leaves loading.

  The tab buttons switch the intent and clear the result and the error. The markup shows or hides its blocks from the cells alone.
- **The backend handler** (`api/index.py`). `get_info` works in this order:
  - it checks `url` and defaults `type` to `video`;
  - it asks yt-dlp for flat extraction only for channels;
  - it shapes the info dictionary into a `channel` body or a `video` body, filtering `formats` down to mp4 entries with a height;
  - it turns any exception into a 500 body.

Modules:

- `AppView` (app_view.dfy): the page.
  - The pure transitions `Submitted` (before the `await`), `Settled` (after it) and `Switched` (a tab button).
  - The render decisions `Visible`.
  - The class `App`, whose fields are the six cells and whose methods are the handlers. Each method is specified by the matching transition.
- `InfoApi` (info_api.dfy): `get_ydl_opts` and `get_info`, with yt-dlp's `extract_info` as a function parameter. Python's own failures while shaping (`len`, `[0]`, `.get`, `f['ext']`) are explicit `PyError`s with CPython's messages.
- `QueryString` (query_string.dfy): `encodeURIComponent`, proved against a reference form decoder (percent-decoding as in section 2.1 of RFC 3986, then UTF-8 as in RFC 3629).
- `Session` (session.dfy): the page over time, with user actions and arriving outcomes as events.
- `Pipeline` (pipeline.dfy): the page's request read by the handler, and the handler's reply settling the page.
- `Json` and `Wrappers`: the JSON/Python value type, `Option` and `Result`.

## Model

| member | source | states |
|---|---|---|
| `InfoApi.GetYdlOpts` | api/index.py:7-13 | flat extraction is the argument; quiet, no-warnings and geo-bypass are always on |
| `InfoApi.ChannelBody` | api/index.py:32-42 | fails iff `entries` has no `len` or `thumbnails` is present without a dict first element; the `len` error wins; on success the body has exactly the eight channel keys, `type` is `channel`, `video_count` is the number of entries (0 when absent), `banner` is `banner_url` or `''`, `name`, `id`, `subscribers` and `description` are `info.get` of `uploader`, `channel_id`, `channel_follower_count` and `description` (`None` when absent), and `thumbnail` is `None` when `thumbnails` is absent, else the first element's `url` |
| `InfoApi.FormatEntry` | api/index.py:57-61 | one element: raises iff it is not a dict, or it has a truthy height and either lacks `ext` or is an mp4 without `format_id`; kept iff it is a dict with a truthy `height`, `ext == 'mp4'` and a `format_id`; a kept element becomes `{format_id, res: height, ext}` |
| `InfoApi.Formats` | api/index.py:57-61 | the comprehension succeeds iff every element does; its entries are all mp4 entries with a truthy `res`, and there are no more of them than elements |
| `InfoApi.FormatsAppend` | api/index.py:57-61 | over a concatenation, the filter gives the first part's entries followed by the second's (order preserved), and the first part's error wins |
| `InfoApi.FormatsAllKept` | api/index.py:57-61 | when every element passes, entry i is the entry of element i |
| `InfoApi.FormatsNoneKept` | api/index.py:60 | when no dict element has a truthy height, `formats` is empty |
| `InfoApi.FormatsFirstError` | api/index.py:57-65 | the error reported is the one raised by the first failing element |
| `InfoApi.VideoBody` | api/index.py:45-62 | on success the body has exactly the nine video keys, `type` is `video`, `formats` is a list of mp4 entries, `title`, `uploader`, `views`, `likes`, `duration` and `thumbnail` are `info.get` of `title`, `uploader`, `view_count`, `like_count`, `duration_string` and `thumbnail` (`None` when absent), and `download_url` is `info['url']`; without `formats` it cannot fail and `formats` is `[]`; with a list it succeeds iff every element passes; a non-iterable `formats` fails; on success `formats` is exactly the comprehension `Formats` over what `info.get('formats', [])` iterates |
| `InfoApi.GetInfo` | api/index.py:15-65 | no extractor call iff `url` is absent or empty, answered by `({'error': 'URL is required'}, 400)`; otherwise exactly one call with the given URL and flat extraction iff `type == 'channel'` (absent type means `video`); status is 200, 400 or 500; a 200 body is tagged `channel` iff the type is `channel`, else `video`; a failure body is `{'error': <str>}`; an extractor exception gives 500 with its message; an extracted info is shaped by `ChannelBody` when the type is `channel` and by `VideoBody` otherwise, a shaped body is answered with 200 and an exception while shaping with 500 and `str(e)` |
| `InfoApi.EmptyThumbnailsFail` | api/index.py:40 | a channel whose `thumbnails` is present but empty gets a 500 with `list index out of range` |
| `QueryString.Encode` | src/App.jsx:40 | `encodeURIComponent` output contains only unreserved characters and `%` (so no `&`, `=`, `+`, `#`), and leaves an all-unreserved string unchanged |
| `QueryString.EncodeRoundTrip` | src/App.jsx:40 | form-decoding `encodeURIComponent(s)` gives back `s` for every string |
| `QueryString.ArgsOf` | api/index.py:17-18 | `request.args` holds exactly the keys that occur in the query, and `.get` of a repeated key gives the value of its first occurrence |
| `QueryString.EncodedParamsRoundTrip` | src/App.jsx:40 | a query of two parameters with unreserved names, the first value passed through `encodeURIComponent` and the second unreserved, parses back to exactly those two names and values |
| `QueryString.InfoQueryRoundTrip` | src/App.jsx:39-41 | the page's query string parses to exactly two arguments, `url` equal to the typed text and `type` equal to the tab name; no `resolution` |
| `AppView.TabName` | src/App.jsx:17 | each tab's value is a non-empty, all-unreserved name, so it needs no encoding in the query |
| `AppView.FailureText` | src/App.jsx:51 | `result.error` when it is truthy, else the generic "Gagal mengambil data dari server." text; always truthy |
| `AppView.Submitted` | src/App.jsx:24-41 | an empty URL sends nothing and only sets the validation message, keeping `loading` and `data`; a non-empty one (whitespace included) enters loading with `error = ""` and `data = null` and sends a request whose query carries exactly the URL and the tab name |
| `AppView.Settled` | src/App.jsx:44-62 | loading always ends; an ok response's body becomes `data` and `error` is kept; a non-ok body gives `error` from `FailureText`; rejection, a body that does not parse, and a non-ok `null` body give the "Gagal menghubungi server backend…" message; only an ok response touches `data`; tab, URL and resolution are kept |
| `AppView.Processed` | src/App.jsx:24-63 | whole `handleProcess`: the request is sent iff the URL is non-empty; then loading ends, `data` is the ok body or `null`, `error` is `""` after an ok response and truthy after any failure |
| `AppView.Switched` | src/App.jsx:97-139 | a tab switch sets the tab, clears `data` and `error`, and keeps URL, loading and resolution |
| `AppView.Visible` | src/App.jsx:174-377 | picker iff downloader tab; button disabled iff loading; error box iff `error` truthy; results iff `data` truthy and not loading; the channel card iff results and `type === "channel"`, the video card iff results and `type === "video"`, never both; in the video card, the download block iff downloader tab and the success note otherwise |
| `AppView.App.constructor` | src/App.jsx:17-22 | the cells start at `video`, `""`, `false`, `null`, `""`, `720` |
| `AppView.App.SetUrl` | src/App.jsx:156 | only `url` changes |
| `AppView.App.SetResolution` | src/App.jsx:183 | only `resolution` changes |
| `AppView.App.SelectTab` | src/App.jsx:97-139 | the fields change as `Switched` says |
| `AppView.App.Begin` | src/App.jsx:24-41 | the fields and the request sent are as `Submitted` says |
| `AppView.App.Finish` | src/App.jsx:44-62 | the try/catch/finally leaves the fields as `Settled` says; loading is off |
| `AppView.App.HandleProcess` | src/App.jsx:24-63 | the fields and the request sent are as `Processed` says |
| `Session.Step` | src/App.jsx:206-208 | a click while loading is dropped; an enabled click with a non-empty URL appends exactly the page's request, one with an empty URL sends nothing; every event keeps "at most one request pending, and loading exactly while one is"; an arriving outcome ends loading |
| `Session.RunKeepsSingleFlight` | src/App.jsx:206-208 | over any sequence of events, at most one request is pending and the page shows loading exactly while one is |
| `Session.SingleFlightFromStart` | src/App.jsx:17-22 | from the first render on, at most one request is ever pending |
| `Session.LateOutcomeStillWritten` | src/App.jsx:46-52 | an ok outcome arriving after a tab switch is still written into `data` under the new tab |
| `Session.ValidationErrorBesideResult` | src/App.jsx:26-29 | an empty-URL submission while a result is shown leaves both the error box and the results section visible and sends nothing |
| `Pipeline.ArgsOfRequest` | src/App.jsx:39-41 | the server's `request.args` for the page's request is exactly `{url: <typed text>, type: <tab name>}` |
| `Pipeline.BackendSeesSubmission` | api/index.py:17-26 | for a non-empty URL, the extractor gets exactly the typed URL, with flat extraction iff the channel tab; the 400 branch is unreachable; a 200 body is tagged with the tab's kind |
| `Pipeline.SubmitAgainstBackend` | src/App.jsx:44-52 | after the backend's 200 reply the results show with no error: the channel card iff the channel tab, the video card otherwise, and the download block is selected iff the downloader tab (only the selection conditions: rendering that block throws, see Left out); after a 500 reply no result shows and the error is the backend's message, or the generic text when that message is empty |
| `Pipeline.VideoBodyHasNoAvailableFormats` | src/App.jsx:360 | a video body has `formats` but never `available_formats`, the field the download block joins |

## Behaviour worth knowing

The model follows the code in each of these places.

- No request identity is kept. An outcome that arrives after a tab switch is still written (`Session.LateOutcomeStillWritten`). A second submission cannot overlap a pending one, because the button is disabled while loading (`Session.RunKeepsSingleFlight`).
- Only the empty string fails validation (`!url`). A whitespace-only URL is sent.
- An empty-URL submission sets the error but keeps `data`. So the error box and a previous result can show together (`Session.ValidationErrorBesideResult`).
- A tab switch while loading leaves `loading` on, and the outcome that arrives later is still written.
- A 2xx body whose `type` is neither `channel` nor `video` is not turned into an error. The results section shows with no card.
- The download block reads `data.available_formats`, but the backend sends `formats` (`Pipeline.VideoBodyHasNoAvailableFormats`). No list of resolutions is derived or de-duplicated anywhere.

## Left out

- The `fetch` transport and promise machinery. The single `await` is the `FetchOutcome` input, and `Session` orders events explicitly.
- `jsonify` and `response.json()` are taken to be inverse. Python integers beyond JavaScript's 2^53 precision are not modelled.
- Floating-point values are left out: the `Value` type has integers only.
- yt-dlp's `extract_info` is a function parameter. Failures while constructing `YoutubeDL` count as its raised exceptions.
- Flask routing is left out. `request.args` is read through the reference decoder `QueryString.ParseQuery`, and repeated keys keep their first value.
- `QueryString.ParseQuery` rejects malformed UTF-8. The real decoder substitutes U+FFFD, but the page never sends malformed UTF-8.
- Strings are Unicode scalar values. A JavaScript string with a lone surrogate, where `encodeURIComponent` throws, cannot be represented.
- `Pipeline.SubmitAgainstBackend`: states which blocks the markup selects after a 200 reply, not that the page renders. On the downloader tab the selected download block evaluates `data.available_formats.join(", ")`, which throws a TypeError for every video body the backend sends, and with no error boundary React unmounts the page.
- The contents of the download block are left out. `data.available_formats.join(", ")` throws during rendering for every body the backend sends, and only the block's visibility is modelled.
- JSX markup, classes, icons, `console.error`, and the label, placeholder and button-text switches are left out.
- The `resolution` cell is kept, but it is never sent and never read outside the markup.
- Iterating `formats` when it is a dict: the model does not know Python's key order. This does not matter, because any first key (a `str`) fails `.get` with the same message.
- The Vercel / `app.run` entry point is left out.
