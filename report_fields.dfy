/** What the two analysis clients share: the key check, the two error messages the app
    reacts to, and the record both build from whatever the model returned
    (deepseekService.ts:134-145 and services/geminiService.ts:82-93 are the same code):
    the parsed JSON's fields, each defaulted independently with JavaScript's `||`. */
module ReportFields {
  import opened Wrappers
  import opened Types

  const ApiKeyMissing: string := "API_KEY_MISSING"
  const InvalidKeyError: string := "INVALID_KEY_ERROR"

  /** `!apiKey || apiKey === "" || apiKey === "undefined"` is false: an absent key, the empty
      string and the text "undefined" are all refused. */
  predicate KeyUsable(apiKey: Option<string>) {
    apiKey.Some? && apiKey.value != "" && apiKey.value != "undefined"
  }

  /** The fields of a parsed JSON object; `None` is a property that is absent (or `null`). */
  datatype Fields = Fields(
    score: Option<real>,
    consistency: Option<string>,
    color: Option<string>,
    findings: Option<seq<string>>,
    analysis: Option<string>,
    recommendation: Option<string>)

  /** The object `JSON.parse("{}")` returns: no properties at all. */
  const NoFields := Fields(None, None, None, None, None, None)

  const Unknown: string := "未知"
  const NoAnalysis: string := "无法分析图像"
  const SeeAVet: string := "请咨询专业兽医"

  /** `x || 0` for a number: 0 (and an absent value) is falsy. */
  function ScoreOr(s: Option<real>): (r: real)
    ensures s.Some? && s.value != 0.0 ==> r == s.value
    ensures s.None? || s.value == 0.0 ==> r == 0.0
  {
    if s.Some? && s.value != 0.0 then s.value else 0.0
  }

  /** `x || d` for a string: the empty string (and an absent value) is falsy. */
  function TextOr(s: Option<string>, d: string): (r: string)
    ensures s.Some? && s.value != "" ==> r == s.value
    ensures s.None? || s.value == "" ==> r == d
  {
    if s.Some? && s.value != "" then s.value else d
  }

  /** `x || []` for an array: every array, the empty one too, is truthy. */
  function ListOr(s: Option<seq<string>>): (r: seq<string>)
    ensures s.Some? ==> r == s.value
    ensures s.None? ==> r == []
  {
    if s.Some? then s.value else []
  }

  /** Every text field of the report is non-empty: the "every field is present" invariant. */
  predicate FullyPopulated(r: HealthReport) {
    r.consistency != "" && r.color != "" && r.analysis != "" && r.recommendation != ""
  }

  /** The returned record. `id` and `date` are `Date.now().toString()` and
      `new Date().toISOString()`, passed in. */
  function Assemble(f: Fields, dogId: string, image: string, id: string, date: string): (r: HealthReport)
    ensures r.id == id && r.dogId == dogId && r.date == date && r.imageUrl == image
    ensures r.score == ScoreOr(f.score)
    ensures r.consistency == TextOr(f.consistency, Unknown) && r.color == TextOr(f.color, Unknown)
    ensures r.findings == ListOr(f.findings)
    ensures r.analysis == TextOr(f.analysis, NoAnalysis)
    ensures r.recommendation == TextOr(f.recommendation, SeeAVet)
    ensures FullyPopulated(r)
  {
    HealthReport(id, dogId, date, ScoreOr(f.score), TextOr(f.consistency, Unknown), TextOr(f.color, Unknown),
      ListOr(f.findings), TextOr(f.analysis, NoAnalysis), image, TextOr(f.recommendation, SeeAVet))
  }

  /** A response with no properties gives score 0, "未知" twice, no findings and the two advisory texts. */
  lemma EmptyObjectDefaults(dogId: string, image: string, id: string, date: string)
    ensures Assemble(NoFields, dogId, image, id, date)
      == HealthReport(id, dogId, date, 0.0, Unknown, Unknown, [], NoAnalysis, image, SeeAVet)
  {
  }

  /** A well-formed response (a non-zero score and non-empty texts) comes through unchanged. */
  lemma WellFormedKept(score: real, consistency: string, color: string, findings: seq<string>,
                       analysis: string, recommendation: string, dogId: string, image: string, id: string, date: string)
    requires score != 0.0 && consistency != "" && color != "" && analysis != "" && recommendation != ""
    ensures Assemble(Fields(Some(score), Some(consistency), Some(color), Some(findings), Some(analysis), Some(recommendation)),
                     dogId, image, id, date)
      == HealthReport(id, dogId, date, score, consistency, color, findings, analysis, image, recommendation)
  {
  }
}
