/** services/geminiService.ts: `analyzeStoolImage` through the Google GenAI SDK. The SDK call
    and `JSON.parse` are the host's and arrive in a `Host` value; what stays is the client's
    own logic: the key check, the proxy base URL, the `"{}"` default, the record and the error
    mapping. */
module GeminiService {
  import opened Wrappers
  import opened Text
  import opened Types
  import opened ReportFields

  const GeminiModel: string := "gemini-3-flash-preview"
  const ImageMimeType: string := "image/jpeg"

  /** What reaches the SDK: `config.baseUrl` (absent unless a proxy is set), the model, and the
      inline image part (`split(',')[1]`, `None` when that is `undefined`). */
  datatype GenerateRequest = GenerateRequest(
    baseUrl: Option<string>,
    model: string,
    mimeType: string,
    data: Option<string>)

  /** `process.env.API_KEY`; `generateContent` as a function of the request, giving
      `response.text` (`None` when undefined) or the message of what it threw; `JSON.parse`
      (`Err` carries the SyntaxError's message); `Date.now().toString()` and
      `new Date().toISOString()`. */
  datatype Host = Host(
    apiKey: Option<string>,
    generate: GenerateRequest -> Result<Option<string>>,
    parseFields: string -> Result<Fields>,
    id: string,
    now: string)

  /** `.replace(/\/$/, "")`: one trailing slash, if there is one, is removed. */
  function StripTrailingSlash(s: string): (r: string)
    ensures |s| > 0 && s[|s| - 1] == '/' ==> r + "/" == s
    ensures (|s| == 0 || s[|s| - 1] != '/') ==> r == s
  {
    if |s| > 0 && s[|s| - 1] == '/' then s[..|s| - 1] else s
  }

  /** `config.baseUrl` (services/geminiService.ts:46-49): set only for a proxy that is present
      and not blank, to the trimmed text less one trailing slash. */
  function ProxyBase(proxyUrl: Option<string>): (r: Option<string>)
    ensures r.None? <==> proxyUrl.None? || AllSpace(proxyUrl.value)
    ensures r.Some? ==> r.value == StripTrailingSlash(Trim(proxyUrl.value))
  {
    if proxyUrl.None? then None
    else
      TrimEmptyIffBlank(proxyUrl.value);
      if proxyUrl.value != "" && Trim(proxyUrl.value) != "" then
        Some(StripTrailingSlash(Trim(proxyUrl.value)))
      else None
  }

  /** Only one slash goes: a doubled trailing slash leaves one behind. */
  lemma ProxyStripsOneSlash(url: string)
    requires Trim(url + "//") == url + "//"
    ensures ProxyBase(Some(url + "//")) == Some(url + "/")
  {
    assert (url + "//")[..|url| + 1] == url + "/";
  }

  /** The same proxy written with or without its trailing slash gives the same base. */
  lemma ProxySlashOptional(url: string)
    requires url != [] && !IsJsSpace(url[0]) && !IsJsSpace(url[|url| - 1]) && url[|url| - 1] != '/'
    ensures ProxyBase(Some(url)) == Some(url)
    ensures ProxyBase(Some(url + "/")) == Some(url)
  {
    TrimUnpadded(url);
    TrimUnpadded(url + "/");
    TrimEmptyIffBlank(url);
    TrimEmptyIffBlank(url + "/");
    assert (url + "/")[..|url|] == url;
  }

  /** The text handed to `JSON.parse`: `response.text || "{}"`. */
  function ResponseText(text: Option<string>): (r: string)
    ensures r != ""
    ensures text.Some? && text.value != "" ==> r == text.value
    ensures text.None? || text.value == "" ==> r == "{}"
  {
    if text.Some? && text.value != "" then text.value else "{}"
  }

  /** The messages services/geminiService.ts:96-100 turns into "INVALID_KEY_ERROR". */
  predicate RejectsKey(msg: string) {
    Contains(msg, "Requested entity was not found") || Contains(msg, "API key not found")
    || Contains(msg, "API Key must be set")
  }

  /** The catch block: a key rejection becomes "INVALID_KEY_ERROR"; anything else is rethrown.
      An error without a message (`err.message || ""`) matches nothing and is rethrown too. */
  function RemapError(msg: string): (r: string)
    ensures RejectsKey(msg) ==> r == InvalidKeyError
    ensures !RejectsKey(msg) ==> r == msg
  {
    if RejectsKey(msg) then InvalidKeyError else msg
  }

  /** The request services/geminiService.ts:51-78 sends: the image after the first comma, not
      truncated. */
  function Request(image: string, proxyUrl: Option<string>): GenerateRequest
  {
    GenerateRequest(ProxyBase(proxyUrl), GeminiModel, ImageMimeType, Field(image, ',', 1))
  }

  /** The body of the `try` block, or the message of what it throws. */
  function Attempt(h: Host, image: string, dogId: string, proxyUrl: Option<string>): Result<HealthReport>
  {
    match h.generate(Request(image, proxyUrl))
    case Err(m) => Err(m)
    case Ok(text) =>
      match h.parseFields(ResponseText(text))
      case Err(e) => Err(e)
      case Ok(f) => Ok(Assemble(f, dogId, image, h.id, h.now))
  }

  /** `analyzeStoolImage(base64Image, dogId, proxyUrl)`. */
  function AnalyzeStoolImage(h: Host, image: string, dogId: string, proxyUrl: Option<string>): (r: Result<HealthReport>)
    ensures !KeyUsable(h.apiKey) ==> r == Err(ApiKeyMissing)
    ensures r.Ok? ==> r.value.dogId == dogId && r.value.imageUrl == image
                      && r.value.id == h.id && r.value.date == h.now && FullyPopulated(r.value)
    ensures r.Err? ==> r.error == ApiKeyMissing || r.error == InvalidKeyError || !RejectsKey(r.error)
    ensures KeyUsable(h.apiKey) ==> r == match Attempt(h, image, dogId, proxyUrl)
                                         case Ok(rep) => Ok(rep)
                                         case Err(m) => Err(RemapError(m))
  {
    if !KeyUsable(h.apiKey) then Err(ApiKeyMissing)
    else match Attempt(h, image, dogId, proxyUrl)
      case Ok(rep) => Ok(rep)
      case Err(m) => Err(RemapError(m))
  }

  /** The image part carries everything between the first and second comma, however long. */
  lemma PayloadNotTruncated(header: string, data: string, proxyUrl: Option<string>)
    requires ',' !in header && ',' !in data
    ensures Request(header + "," + data, proxyUrl).data == Some(data)
  {
    var s := header + "," + data;
    assert s[|header|] == ',';
    assert forall k :: 0 <= k < |header| ==> s[k] == header[k];
    assert s[|header| + 1..] == data;
    SecondField(s, ',');
  }

  /** No text, or empty text, parsed as the empty object gives every default: score 0,
      "未知" twice, no findings and the two advisory texts. */
  lemma EmptyTextDefaults(h: Host, image: string, dogId: string, proxyUrl: Option<string>)
    requires KeyUsable(h.apiKey)
    requires h.generate(Request(image, proxyUrl)) == Ok(None)
             || h.generate(Request(image, proxyUrl)) == Ok(Some(""))
    requires h.parseFields("{}") == Ok(NoFields)
    ensures AnalyzeStoolImage(h, image, dogId, proxyUrl)
      == Ok(HealthReport(h.id, dogId, h.now, 0.0, Unknown, Unknown, [], NoAnalysis, image, SeeAVet))
  {
  }

  /** A key the service does not recognise reaches the caller as "INVALID_KEY_ERROR". */
  lemma KeyNotFoundReported(h: Host, image: string, dogId: string, proxyUrl: Option<string>, pre: string, post: string)
    requires KeyUsable(h.apiKey)
    requires h.generate(Request(image, proxyUrl)) == Err(pre + "API key not found" + post)
    ensures AnalyzeStoolImage(h, image, dogId, proxyUrl) == Err(InvalidKeyError)
  {
    ContainsInConcat(pre, "API key not found", post, "API key not found");
  }
}
