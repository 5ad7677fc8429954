/** deepseekService.ts: `analyzeStoolImage` against the DeepSeek HTTP API. The two `fetch`
    calls, `Response.json()`/`text()` and `JSON.parse` are the host's: they arrive in a `Host`
    value, so the function below is the client's own logic and nothing else. */
module DeepSeekService {
  import opened Wrappers
  import opened Text
  import opened Types
  import opened ReportFields

  const DefaultModel: string := "deepseek-chat"
  const MaxImageChars: nat := 10000
  /** The TypeError the engine raises for `undefined.substring(0, 10000)`, i.e. when the data
      URI has no comma and `split(',')[1]` is `undefined`. */
  const NoPayloadError: string := "Cannot read properties of undefined (reading 'substring')"

  /** What the models endpoint gave: a non-2xx status with its body text, or the model ids in
      `models.list.data` (`None` when `models.list` or `models.list.data` is missing). */
  datatype ModelsReply = ModelsNotOk(body: string) | ModelsOk(listData: Option<seq<string>>)

  /** A finished HTTP exchange: `response.ok` and `response.text()`. */
  datatype HttpText = HttpText(ok: bool, body: string)

  /** The chat-completion request: the chosen model and the image characters appended to the
      fixed prompt. */
  datatype ChatRequest = ChatRequest(model: string, imageData: string)

  /** The parsed completion body: `data.choices[0].message.content` when every step of that
      path exists (`None` otherwise), and `JSON.stringify(data)`. */
  datatype Envelope = Envelope(content: Option<string>, stringified: string)

  /** Everything the client gets from outside: `process.env.DEEPSEEK_API_KEY`, the outcome of
      the models request (`Err` when `fetch` or `json()` threw), the chat endpoint as a function
      of the request, the two uses of `JSON.parse` (`Err` carries the SyntaxError's message),
      `Date.now().toString()` and `new Date().toISOString()`. */
  datatype Host = Host(
    apiKey: Option<string>,
    models: Result<ModelsReply>,
    chat: ChatRequest -> Result<HttpText>,
    parseEnvelope: string -> Result<Envelope>,
    parseFields: string -> Result<Fields>,
    id: string,
    now: string)

  predicate IsVisionId(id: string) {
    Contains(id, "vl") || Contains(id, "vision")
  }

  /** The index of the first vision model id, if any. */
  function FirstVisionIndex(ids: seq<string>): (k: Option<nat>)
    ensures k.Some? ==> k.value < |ids| && IsVisionId(ids[k.value])
    ensures k.Some? ==> forall j :: 0 <= j < k.value ==> !IsVisionId(ids[j])
    ensures k.None? ==> forall j :: 0 <= j < |ids| ==> !IsVisionId(ids[j])
  {
    if ids == [] then None
    else if IsVisionId(ids[0]) then Some(0)
    else match FirstVisionIndex(ids[1..])
      case None => None
      case Some(k) => Some(k + 1)
  }

  /** `modelName` after deepseekService.ts:42-54: the first id containing "vl" or "vision",
      else "deepseek-chat". */
  function ChooseModel(listData: Option<seq<string>>): string
  {
    if listData.None? then DefaultModel
    else match FirstVisionIndex(listData.value)
      case None => DefaultModel
      case Some(k) => listData.value[k]
  }

  /** The model is the first vision id in list order; with no such id, or no list, it is
      "deepseek-chat". */
  lemma ChooseModelSpec(listData: Option<seq<string>>)
    ensures var m := ChooseModel(listData);
      (listData.Some? && (exists k :: 0 <= k < |listData.value| && IsVisionId(listData.value[k])))
      ==> (exists k :: 0 <= k < |listData.value| && m == listData.value[k] && IsVisionId(m)
                       && forall j :: 0 <= j < k ==> !IsVisionId(listData.value[j]))
    ensures (listData.None? || forall k :: 0 <= k < |listData.value| ==> !IsVisionId(listData.value[k]))
      ==> ChooseModel(listData) == DefaultModel
  {
    if listData.Some? {
      var k := FirstVisionIndex(listData.value);
      if k.Some? {
        assert ChooseModel(listData) == listData.value[k.value];
      }
    }
  }

  /** `base64Image.split(',')[1].substring(0, 10000)`; `None` where `split(',')[1]` is undefined. */
  function ImagePayload(image: string): (r: Option<string>)
    ensures r.None? <==> ',' !in image
    ensures r.Some? ==> |r.value| <= MaxImageChars && ',' !in r.value
  {
    match Field(image, ',', 1)
    case None => SecondField(image, ','); None
    case Some(p) => SecondField(image, ','); Some(Take(p, MaxImageChars))
  }

  /** For a data URI `header,data` (one comma), the payload is the first 10000 characters of `data`. */
  lemma PayloadOfDataUri(header: string, data: string)
    requires ',' !in header && ',' !in data
    ensures ImagePayload(header + "," + data) == Some(Take(data, MaxImageChars))
  {
    var s := header + "," + data;
    assert IndexOf(s, ',') == Some(|header|) by {
      assert s[|header|] == ',';
      assert s[..|header|] == header;
    }
    assert s[|header| + 1..] == data;
    SecondField(s, ',');
  }

  /** The request the client sends, or the message of what it throws first: a failed models
      request, a non-2xx models status, or a data URI without a comma (deepseekService.ts:28-59). */
  function SentRequest(h: Host, image: string): Result<ChatRequest>
  {
    match h.models
    case Err(m) => Err(m)
    case Ok(ModelsNotOk(body)) => Err("Failed to get models: " + body)
    case Ok(ModelsOk(listData)) =>
      match ImagePayload(image)
      case None => Err(NoPayloadError)
      case Some(data) => Ok(ChatRequest(ChooseModel(listData), data))
  }

  /** The request carries the chosen model and at most 10000 characters of the image, taken
      from between its first and second comma. */
  lemma SentRequestShape(h: Host, image: string)
    ensures SentRequest(h, image).Ok? ==>
      var req := SentRequest(h, image).value;
      h.models.Ok? && h.models.value.ModelsOk? && req.model == ChooseModel(h.models.value.listData)
      && |req.imageData| <= MaxImageChars && Some(req.imageData) == ImagePayload(image)
      && IsPrefix(req.imageData, Field(image, ',', 1).value)
  {
    if SentRequest(h, image).Ok? {
      SecondField(image, ',');
    }
  }

  /** There is a '{' somewhere before a '}'. */
  predicate HasBracePair(s: string) {
    exists i, j :: 0 <= i < j < |s| && s[i] == '{' && s[j] == '}'
  }

  /** `content.match(/\{[\s\S]*\}/)[0]`: from the first '{' to the last '}' (greedy, not
      brace-balanced), when the last '}' comes after the first '{'. */
  function ExtractBraced(s: string): (r: Option<string>)
    ensures r.Some? ==> |r.value| >= 2 && r.value[0] == '{' && r.value[|r.value| - 1] == '}'
    ensures r.Some? ==> exists i :: (OccursAt(s, r.value, i)
      && (forall k :: 0 <= k < i ==> s[k] != '{')
      && (forall k :: i + |r.value| <= k < |s| ==> s[k] != '}'))
    ensures r.None? <==> !HasBracePair(s)
  {
    match (IndexOf(s, '{'), LastIndexOf(s, '}'))
    case (Some(i), Some(j)) =>
      if i < j then
        assert OccursAt(s, s[i..j + 1], i);
        Some(s[i..j + 1])
      else None
    case (_, _) => None
  }

  /** Prose around one object: with no '{' before it and no '}' after it, the match is exactly
      the object, whatever braces the object itself contains. */
  lemma ExtractFramed(prefix: string, obj: string, suffix: string)
    requires '{' !in prefix && '}' !in suffix
    requires |obj| >= 2 && obj[0] == '{' && obj[|obj| - 1] == '}'
    ensures ExtractBraced(prefix + obj + suffix) == Some(obj)
  {
    var s := prefix + obj + suffix;
    var n := |prefix| + |obj|;
    FirstOpenAfterPrefix(prefix, obj, suffix);
    LastCloseBeforeSuffix(prefix, obj, suffix);
    assert s[|prefix|..n] == obj;
  }

  lemma FirstOpenAfterPrefix(prefix: string, obj: string, suffix: string)
    requires '{' !in prefix && |obj| >= 1 && obj[0] == '{'
    ensures IndexOf(prefix + obj + suffix, '{') == Some(|prefix|)
  {
    var s := prefix + obj + suffix;
    assert s[|prefix|] == '{';
    assert forall k :: 0 <= k < |prefix| ==> s[k] == prefix[k];
  }

  lemma LastCloseBeforeSuffix(prefix: string, obj: string, suffix: string)
    requires '}' !in suffix && |obj| >= 1 && obj[|obj| - 1] == '}'
    ensures LastIndexOf(prefix + obj + suffix, '}') == Some(|prefix| + |obj| - 1)
  {
    var head := prefix + obj;
    assert head[|head| - 1] == '}';
    assert LastIndexOf(head, '}') == Some(|head| - 1);
    LastIndexOfAppend(head, suffix, '}');
    assert head + suffix == prefix + obj + suffix;
  }

  /** The greedy match spans several objects rather than stopping at the first one closed. */
  lemma ExtractIsGreedy()
    ensures ExtractBraced("x {a} y {b} z") == Some("{a} y {b}")
  {
    var prefix, obj, suffix := "x ", "{a} y {b}", " z";
    assert prefix + obj + suffix == "x {a} y {b} z";
    assert '{' !in prefix && '}' !in suffix;
    ExtractFramed(prefix, obj, suffix);
  }

  /** The record used when the content neither parses nor contains a '{'…'}' span
      (deepseekService.ts:123-130). */
  const FallbackFields := Fields(Some(3.0), Some(Unknown), Some(Unknown), Some([]),
    Some("AI 分析失败，无法解析响应。"), Some("请重新尝试分析。"))

  /** `result` after deepseekService.ts:105-132: parse the content; failing that, parse the
      greedy '{'…'}' span; with no such span use the fallback record; a span that does not parse
      either is an error. */
  function Recover(content: string, parse: string -> Result<Fields>): Result<Fields>
  {
    match parse(content)
    case Ok(f) => Ok(f)
    case Err(_) =>
      match ExtractBraced(content)
      case None => Ok(FallbackFields)
      case Some(span) =>
        match parse(span)
        case Ok(f) => Ok(f)
        case Err(e) => Err("Failed to extract JSON from response: " + e)
  }

  /** The three outcomes of the recovery chain. */
  lemma RecoverChain(content: string, parse: string -> Result<Fields>)
    ensures parse(content).Ok? ==> Recover(content, parse) == parse(content)
    ensures parse(content).Err? && !HasBracePair(content) ==> Recover(content, parse) == Ok(FallbackFields)
    ensures parse(content).Err? && HasBracePair(content) ==>
      var span := ExtractBraced(content).value;
      Recover(content, parse) == (if parse(span).Ok? then parse(span)
                                  else Err("Failed to extract JSON from response: " + parse(span).error))
    ensures Recover(content, parse).Err? ==> parse(content).Err? && HasBracePair(content)
  {
  }

  /** Explanatory prose around a JSON object: the object's fields are recovered exactly. */
  lemma RecoverFramedObject(prefix: string, obj: string, suffix: string, parse: string -> Result<Fields>)
    requires '{' !in prefix && '}' !in suffix
    requires |obj| >= 2 && obj[0] == '{' && obj[|obj| - 1] == '}'
    requires parse(prefix + obj + suffix).Err? && parse(obj).Ok?
    ensures Recover(prefix + obj + suffix, parse) == parse(obj)
  {
    ExtractFramed(prefix, obj, suffix);
  }

  /** The messages deepseekService.ts:146-155 turns into "INVALID_KEY_ERROR". */
  predicate MentionsAuth(msg: string) {
    Contains(msg, "API key") || Contains(msg, "authentication")
  }

  /** The catch block: a message mentioning "API key" or "authentication" becomes
      "INVALID_KEY_ERROR"; every other error is rethrown as it is. */
  function RemapError(msg: string): (r: string)
    ensures MentionsAuth(msg) ==> r == InvalidKeyError
    ensures !MentionsAuth(msg) ==> r == msg
  {
    if MentionsAuth(msg) then InvalidKeyError else msg
  }

  /** The body of the `try` block (deepseekService.ts:10-145), or the message of what it throws. */
  function Attempt(h: Host, image: string, dogId: string): Result<HealthReport>
  {
    match SentRequest(h, image)
    case Err(m) => Err(m)
    case Ok(req) =>
      match h.chat(req)
      case Err(m) => Err(m)
      case Ok(resp) =>
        if !resp.ok then Err("DeepSeek API error: " + resp.body)
        else match h.parseEnvelope(resp.body)
          case Err(e) => Err("Failed to parse API response: " + e)
          case Ok(env) =>
            if env.content.None? || env.content.value == "" then
              Err("Invalid API response format: " + env.stringified)
            else match Recover(env.content.value, h.parseFields)
              case Err(e) => Err(e)
              case Ok(f) => Ok(Assemble(f, dogId, image, h.id, h.now))
  }

  /** `analyzeStoolImage(base64Image, dogId)`. A missing key fails before anything is sent; every
      other failure passes through the remapping; a success is the assembled record. */
  function AnalyzeStoolImage(h: Host, image: string, dogId: string): (r: Result<HealthReport>)
    ensures !KeyUsable(h.apiKey) ==> r == Err(ApiKeyMissing)
    ensures r.Ok? ==> r.value.dogId == dogId && r.value.imageUrl == image
                      && r.value.id == h.id && r.value.date == h.now && FullyPopulated(r.value)
    ensures r.Err? ==> r.error == ApiKeyMissing || r.error == InvalidKeyError || !MentionsAuth(r.error)
    ensures KeyUsable(h.apiKey) ==> r == match Attempt(h, image, dogId)
                                         case Ok(rep) => Ok(rep)
                                         case Err(m) => Err(RemapError(m))
  {
    if !KeyUsable(h.apiKey) then Err(ApiKeyMissing)
    else match Attempt(h, image, dogId)
      case Ok(rep) => Ok(rep)
      case Err(m) => Err(RemapError(m))
  }

  /** An authentication failure reported in a non-2xx chat body reaches the caller as
      "INVALID_KEY_ERROR", not as the provider's message. */
  lemma RejectedKeyReported(h: Host, image: string, dogId: string)
    requires KeyUsable(h.apiKey) && SentRequest(h, image).Ok?
    requires var reply := h.chat(SentRequest(h, image).value);
      reply.Ok? && !reply.value.ok && Contains(reply.value.body, "authentication")
    ensures AnalyzeStoolImage(h, image, dogId) == Err(InvalidKeyError)
  {
    var body := h.chat(SentRequest(h, image).value).value.body;
    ContainsInConcat("DeepSeek API error: ", body, "", "authentication");
    assert "DeepSeek API error: " + body + "" == "DeepSeek API error: " + body;
  }

  /** A completion whose `choices[0].message.content` is missing or empty is refused with the
      stringified body, whatever the rest of the reply holds. */
  lemma MissingContentRejected(h: Host, image: string, dogId: string, body: string)
    requires KeyUsable(h.apiKey) && SentRequest(h, image).Ok?
    requires h.chat(SentRequest(h, image).value) == Ok(HttpText(true, body))
    requires h.parseEnvelope(body).Ok?
    requires h.parseEnvelope(body).value.content.None? || h.parseEnvelope(body).value.content == Some("")
    ensures AnalyzeStoolImage(h, image, dogId)
      == Err(RemapError("Invalid API response format: " + h.parseEnvelope(body).value.stringified))
  {
  }

  /** The scenario of a provider that answers with a well-formed object: the record carries
      that object's values, the input image and the caller's dog id. */
  lemma WellFormedResponse(h: Host, image: string, dogId: string, body: string, content: string,
                           analysis: string, recommendation: string)
    requires KeyUsable(h.apiKey) && SentRequest(h, image).Ok?
    requires h.chat(SentRequest(h, image).value) == Ok(HttpText(true, body))
    requires h.parseEnvelope(body).Ok? && h.parseEnvelope(body).value.content == Some(content) && content != ""
    requires analysis != "" && recommendation != ""
    requires h.parseFields(content)
      == Ok(Fields(Some(2.0), Some("坚实"), Some("棕色"), Some([]), Some(analysis), Some(recommendation)))
    ensures AnalyzeStoolImage(h, image, dogId)
      == Ok(HealthReport(h.id, dogId, h.now, 2.0, "坚实", "棕色", [], analysis, image, recommendation))
  {
  }
}
