# Media-routing chat pipeline, modelled in Dafny

This project models the decision core of `image_diff_pipeline.py`. That file is a chat-completion
pipeline. It decides whether an incoming chat request concerns image or video media, picks one of two
configured models accordingly, and forwards the request to an OpenAI-compatible
`chat/completions` endpoint. The model covers the three parts of that core.

- **Media detection** (`media_detector.dfy`, module `MediaDetector`).
  - `LooksLikeMediaReference` is the string test: a `data:image/` or `data:video/` URI, or a path
    that ends in one of the 19 media extensions once it is lower-cased and cut before its query and
    fragment.
  - `ContainsMediaPayload` / `Scan` is the recursive walk over dicts, lists and strings. It threads
    a set of already-visited dicts and lists, compared by identity.
  - `IsMediaAnalysisRequest` combines the two: first the message list, then seven body fields, then
    the raw user text.
- **Model routing** (`model_router.dfy`, module `ModelRouter`). `SelectModel` returns the media
  model for a media-analysis request and the default model otherwise.
- **Request forwarding** (`request_forwarder.dfy`, module `RequestForwarder`). This module builds
  the headers, the sanitised payload and the target URL. `Dispatch` models the `try` block that
  turns the upstream's outcome into a line stream, a decoded value or an `Error: ...` string.
  `Pipe` is the whole of `pipe`.

`json_value.dfy` (module `JsonValue`) holds the data model. Dicts and lists are `Container`
objects on the heap, because the scan tracks them by identity and a dict may contain itself.
Strings, numbers, booleans and None are plain datatype values.

Termination of the scan on cyclic data is argued over a ghost set `universe`. This is a set of
containers that is closed under "refers to" and holds the root. The scan's measure is the set of
containers in `universe` that it has not yet visited. Such a set exists for every real payload,
since the reachable objects are finitely many. The verdict is stated by `MediaReachable`: some
container reachable from the root is a media node. A media node is a dict with a media `type` or
MIME entry, or a dict or list with a media-reference string among its values. Reachability is
phrased as "every closed set holding the root holds a media node", and
`MediaReachableIndependent` shows that the choice of `universe` does not change the verdict.

The model follows the code on these points:

- The MIME-prefix test is case-insensitive in the code (`value.lower().startswith(...)`).
- The `asset_pointer` entry is scanned only when it is truthy. Because the values loop scans it
  again, the extra check never changes the verdict. The model keeps the check, and the scan is
  proved equal to a specification that does not mention `asset_pointer`.
- The two model ids are passed to the settings object under names it does not declare
  (`image_diff_pipeline.py:33-36`, `53-58`). Here they are plain parameters (`Config.mediaModel`,
  `Config.defaultModel`).

## Model

| member | source | states |
|---|---|---|
| JsonValue.Truthy | image_diff_pipeline.py:108 | a definition with no contract: Python truthiness (empty string, list or dict, zero, False and None are false), also the tests at lines 146 and 194 |
| JsonValue.Find | image_diff_pipeline.py:94 | the index found holds the key and no earlier entry does; None exactly when no entry has the key |
| JsonValue.Get | image_diff_pipeline.py:94 | `dict.get`: None exactly when the key is absent, otherwise a value stored under that key |
| MediaDetector.Lower | image_diff_pipeline.py:77 | a definition with no contract: `str.lower()` on ASCII letters, also used for the `type` and MIME tests at lines 96 and 102 |
| MediaDetector.Trimmed | image_diff_pipeline.py:81 | a definition with no contract: the lower-cased string cut before its first `?`, then before its first `#` |
| MediaDetector.CutAt | image_diff_pipeline.py:81 | `split(sep, 1)[0]`: a prefix of the input without `sep`, followed in the input by `sep` or by nothing |
| MediaDetector.LooksLikeMediaReference | image_diff_pipeline.py:73-82 | false for every non-string; true for every string whose lower-case form starts with `data:image/` or `data:video/` |
| MediaDetector.QueryAndFragmentIgnored | image_diff_pipeline.py:81-82 | appending a `?query` or `#fragment` to a path without `?`/`#` never changes the verdict |
| MediaDetector.ExtensionDetected | image_diff_pipeline.py:10-30 | every path whose lower-case form ends in a listed extension is a media reference, with or without a query or fragment after it |
| MediaDetector.CaseInsensitive | image_diff_pipeline.py:77 | two strings equal up to the case of their letters get the same verdict |
| MediaDetector.UpperCaseExtensionWithQuery | image_diff_pipeline.py:77-82 | `photo.PNG?x=1` is a media reference |
| MediaDetector.DataUriAnyCase | image_diff_pipeline.py:77-79 | `DATA:Video/...` is a media reference |
| MediaDetector.TextEndingInFileName | image_diff_pipeline.py:81-82 | `look at photo.png` is a media reference |
| MediaDetector.PlainWordIsNotMedia | image_diff_pipeline.py:73-82 | a string of lower-case letters, spaces and dots whose last two characters end no listed extension is not a media reference |
| MediaDetector.PdfIsNotMedia | image_diff_pipeline.py:10-30 | `doc.pdf` is not a media reference |
| MediaDetector.PlainTextIsNotMedia | image_diff_pipeline.py:81-82 | `hello there` is not a media reference |
| MediaDetector.TypeNamesMedia | image_diff_pipeline.py:94-98 | a definition with no contract: the `type` entry is a string containing `image` or `video` once lower-cased |
| MediaDetector.MimeNamesMedia | image_diff_pipeline.py:100-105 | a definition with no contract: one of `media_type`, `mime_type`, `content_type` is a string starting with `image/` or `video/` once lower-cased |
| MediaDetector.KeysNotInspected | image_diff_pipeline.py:94-113 | a dict without the marker keys is a media node exactly when one of its values is a media-reference string; keys are never tested |
| MediaDetector.MediaNodeReaches | image_diff_pipeline.py:94-105 | a dict with a media `type` or MIME entry (or a container with a media string) reaches media |
| MediaDetector.ParentReachesMedia | image_diff_pipeline.py:111-113 | a dict or list reaches media when one of its values or items does |
| MediaDetector.MediaReachableUnfold | image_diff_pipeline.py:94-115 | a container reaches media exactly when it is a dict with a media `type` or MIME entry, or one of its values or items reaches media: the scan's recursion with the visited set taken away |
| MediaDetector.MediaReachableIndependent | image_diff_pipeline.py:84-92 | the verdict is the same for any two closed universes that hold the root |
| MediaDetector.FalsyHasNoMedia | image_diff_pipeline.py:107-108 | a falsy value (empty string/list/dict, 0, False, None) never reaches media, so the truthiness guards never change a verdict |
| MediaDetector.Scan | image_diff_pipeline.py:84-128 | the visited set only grows; a container already visited gives false and nothing more is visited; true only if the payload reaches media; on false, every newly visited container is neither a media node nor refers to an unvisited container |
| MediaDetector.ContainsMediaPayload | image_diff_pipeline.py:84-128 | with a fresh visited set, true exactly when some container reachable from the payload is a media node, or the payload is a media-reference string; terminates on cyclic data |
| MediaDetector.ImageUrlPartIsMedia | image_diff_pipeline.py:94-98 | `{"type": "image_url"}` is a media payload |
| MediaDetector.TextPartIsNotMedia | image_diff_pipeline.py:94-115 | `{"type": "text", "text": "hello"}` is not |
| MediaDetector.SelfReferentialDict | image_diff_pipeline.py:88-92 | a dict containing itself is scanned to an answer, false |
| MediaDetector.IsMediaAnalysisRequest | image_diff_pipeline.py:130-149 | true exactly when the message list reaches media, or one of `messages`, `files`, `attachments`, `inputs`, `input`, `media`, `assets` in the body does, or the user text is a media reference |
| ModelRouter.SelectModel | image_diff_pipeline.py:151-154 | the media model exactly when the request is a media-analysis request, the default model otherwise |
| ModelRouter.RoutingOnUserText | image_diff_pipeline.py:130-154 | with no messages and no media fields, `look at photo.png` routes to the media model and `hello there` to the default one |
| RequestForwarder.BuildHeaders | image_diff_pipeline.py:168-170 | exactly two headers: `Authorization: Bearer <key>` and `Content-Type: application/json` |
| RequestForwarder.BuildPayload | image_diff_pipeline.py:172-180 | `model` is the chosen id; no `user`, `chat_id`, `title`; every other body key keeps its value; no other key |
| RequestForwarder.OutboundPayloadUnique | image_diff_pipeline.py:172-180 | those properties determine the payload completely |
| RequestForwarder.PayloadExample | image_diff_pipeline.py:172-180 | `{model:x, user, chat_id, title, stream:false, messages}` becomes `{model:M, stream:false, messages}` |
| RequestForwarder.RStripSlashes | image_diff_pipeline.py:186 | `rstrip("/")`: the longest prefix not ending in `/`, with only slashes after it |
| RequestForwarder.ChatCompletionsUrl | image_diff_pipeline.py:186 | the URL ends in `/chat/completions`, preceded by the base without its trailing slashes |
| RequestForwarder.UrlIgnoresTrailingSlashes | image_diff_pipeline.py:186 | any number of trailing slashes on the base gives the same URL, `base + "/chat/completions"` |
| RequestForwarder.RaisesForStatus | image_diff_pipeline.py:192 | a definition with no contract: `raise_for_status` raises for the statuses 400 to 599 |
| RequestForwarder.Dispatch | image_diff_pipeline.py:184-199 | every error reply starts with `Error: `; a failed POST or a 4xx/5xx status gives an error; a missing `stream` key fails only after a successful response; a stream exactly when the flag is truthy; a whole value exactly when it is falsy and the body decodes |
| RequestForwarder.Pipe | image_diff_pipeline.py:156-199 | one POST to the normalised URL with the two headers, streaming transport, and the sanitised payload whose `model` is the router's choice (whatever `model_id` or the body say); the reply is Dispatch of the upstream's answer |

## Left out

- The HTTP client (`requests.post`, `raise_for_status`, `iter_lines`, `r.json()`): the upstream's answer to a request is a parameter (`Exchange`). The error texts the client produces are carried in it and are not derived. The line stream is a finite sequence, whereas the source returns it lazily.
- Exceptions raised while the caller drains the line stream happen after `pipe` has returned. They are outside the `try` and are not modelled.
- Failures outside the `try` (routing, payload building, reading the settings) are not turned into `Error: ...` replies. The model claims nothing about them.
- `urljoin` in general (section 5.2 of RFC 3986, as Python implements it) is not modelled. `ChatCompletionsUrl` gives the source's URL for a base URL with a lower-case `http` or `https` scheme, a host that Python's `urlsplit` accepts, no tab, CR, LF or leading space, a path without empty, `.` or `..` segments, and no query or fragment. Elsewhere it differs: `urljoin` drops empty path segments (`https://h//v1` posts to `https://h/v1/chat/completions`, the model gives `https://h//v1/chat/completions`); it lower-cases the scheme (`HTTPS://h/v1`); a base such as `localhost:8000/v1` is read as having the scheme `localhost`, which takes no relative references, so `urljoin` returns plain `chat/completions`; `urlsplit` deletes tabs, CRs and LFs anywhere and strips leading control characters and spaces (`https://h/v1\r` posts to `https://h/v1/chat/completions`, the model keeps the `\r`); and a host with an unbalanced `[` (`http://[::1/v1`) makes `urlsplit` raise `ValueError`, so the source sends nothing and replies `Error: Invalid IPv6 URL`.
- Pipe: always sends its one POST. For a base URL that Python's `urlsplit` rejects (an unbalanced `[` in the host), the source raises at image_diff_pipeline.py:186 inside the `try`, sends nothing and returns an `Error: ...` string; the model does not capture that path.
- Loading the settings (`Valves`, `os.getenv`, the default values) is left out. The API key, base URL and both model ids are parameters.
- `on_startup`, `on_shutdown` and all printing.
- Lower (and so LooksLikeMediaReference): `str.lower()` is modelled on ASCII letters only. Python also lower-cases other characters, and one of them, the Kelvin sign, becomes the ASCII `k` (`İ` becomes `i` followed by a combining dot, which matches no marker or extension). A string such as `clip.mKv` written with the Kelvin sign is therefore a media reference in the source but not in the model. The `type` and MIME tests (TypeNamesMedia, MimeNamesMedia) are unaffected, because none of `image`, `video`, `image/`, `video/` contains a `k`.
- Dicts are sequences of entries, and lookups take the first entry with the key. Python dicts hold each key once, so the two agree on every real dict. Dict keys other than strings are not modelled.
- Numbers are one `real` case covering Python's int and float. Their truthiness is "not zero".
- The request body and the outbound payload are maps, so they are values: `body` cannot be changed by building the payload. The order of keys in the serialised JSON is not modelled.
