/** The LLM service: one analysis call per document with a single retry
    when the reply does not parse, and one summary call. The model is an
    object whose replies are a fixed function of the call number and the
    prompt; decoding JSON is a parameter. */
module Llm {
  import opened Outcomes
  import opened Strings
  import opened Json
  import opened Constants
  import opened TextUtils

  /** The three prompt templates, by the values of their placeholders. */
  datatype Prompt =
    | AnalysisPrompt(filename: string, category: Category, text: string)
    | RetryPrompt(filename: string, category: Category, text: string)
    | SummaryPrompt(analyses: seq<Json>)

  /** `generate_content(...).text`: the reply text, or the exception either
      the call or reading `.text` raised. */
  datatype Reply = Text(text: string) | Raised(message: string)

  /** The remote model. Reply number `i` to prompt `p` is `respond(i, p)`;
      `prompts` records every prompt sent, in order. */
  class GenerativeModel {
    const respond: (nat, Prompt) -> Reply
    var prompts: seq<Prompt>

    constructor (respond: (nat, Prompt) -> Reply)
      ensures this.respond == respond && prompts == []
    {
      this.respond := respond;
      prompts := [];
    }

    method GenerateContent(prompt: Prompt) returns (reply: Reply)
      modifies this
      ensures prompts == old(prompts) + [prompt]
      ensures reply == respond(|old(prompts)|, prompt)
    {
      reply := respond(|prompts|, prompt);
      prompts := prompts + [prompt];
    }
  }

  const RequiredFields: seq<string> := ["doc", "category", "facts", "red_flags"]

  /** Python's `field in v` on decoded JSON: a key of an object, an item of
      a list, a substring of a string; on a number, a boolean or null it
      raises `TypeError` (here `None`). */
  function Member(v: Json, field: string): Option<bool> {
    match v
    case JObject(fields) => Some(field in fields)
    case JArray(items) => Some(JString(field) in items)
    case JString(s) => Some(Contains(s, field))
    case _ => None
  }

  /** Every required field is `in` the value. */
  predicate HasRequiredFields(v: Json) {
    forall f <- RequiredFields :: Member(v, f) == Some(true)
  }

  /** What `_parse_analysis_response` does with a reply text. */
  datatype ParseOutcome =
    | Accepted(value: Json)
    | Rejected
    | ParseRaised

  /** The message `_log_api_errors` logs, by the first matching class. */
  datatype ApiAlert = QuotaExceeded | ApiKeyError | InvalidRequest

  /** One analysis call sequence: its result and the prompts it sent. */
  datatype LlmRun = LlmRun(result: Option<Json>, prompts: seq<Prompt>)

  const SummaryFallback: string := "Summary generation failed. Please review individual document analyses."

  /** `_log_api_errors`: quota or rate limit first, then API key or
      authentication, then invalid, on the lower-cased message. */
  function LogApiErrors(message: string): Option<ApiAlert> {
    var m := Lower(message);
    if Contains(m, "quota") || Contains(m, "rate limit") then Some(QuotaExceeded)
    else if Contains(m, "api key") || Contains(m, "authentication") then Some(ApiKeyError)
    else if Contains(m, "invalid") then Some(InvalidRequest)
    else None
  }

  /** A message that mentions a quota is reported as a quota problem, even
      when it also mentions a key or an invalid request. */
  lemma QuotaTakesPriority(message: string)
    requires Contains(Lower(message), "quota") || Contains(Lower(message), "rate limit")
    ensures LogApiErrors(message) == Some(QuotaExceeded)
  {
  }

  /** An invalid-request report means nothing of higher priority matched. */
  lemma InvalidIsLastResort(message: string)
    requires LogApiErrors(message) == Some(InvalidRequest)
    ensures Contains(Lower(message), "invalid")
    ensures !Contains(Lower(message), "quota") && !Contains(Lower(message), "rate limit")
    ensures !Contains(Lower(message), "api key") && !Contains(Lower(message), "authentication")
  {
  }

  /** The classification ignores ASCII letter case. */
  lemma LogApiErrorsIgnoresCase(m: string, m': string)
    requires Lower(m) == Lower(m')
    ensures LogApiErrors(m) == LogApiErrors(m')
  {
  }

  /** A reply object is accepted exactly when it has the four keys. */
  lemma ObjectRequiredFields(fields: map<string, Json>)
    ensures HasRequiredFields(JObject(fields)) <==>
              "doc" in fields && "category" in fields && "facts" in fields && "red_flags" in fields
  {
    assert "doc" in RequiredFields && "category" in RequiredFields;
    assert "facts" in RequiredFields && "red_flags" in RequiredFields;
    if "doc" in fields && "category" in fields && "facts" in fields && "red_flags" in fields {
      forall f <- RequiredFields ensures Member(JObject(fields), f) == Some(true) {
      }
    }
  }

  /** The part of a number literal before its exponent. */
  function Mantissa(literal: string): (m: string)
    ensures m <= literal
    ensures 'e' !in m && 'E' !in m
    ensures |m| < |literal| ==> literal[|m|] == 'e' || literal[|m|] == 'E'
  {
    if literal == [] || literal[0] == 'e' || literal[0] == 'E' then []
    else [literal[0]] + Mantissa(literal[1..])
  }

  /** A number literal whose value is zero (`0`, `-0`, `0.0`, `0e7`): every
      digit before the exponent is a zero. */
  predicate ZeroLiteral(literal: string) {
    forall c <- Mantissa(literal) :: c == '0' || c == '-' || c == '.'
  }

  /** Python truth value of a decoded value; a number is false exactly when
      it is zero. */
  predicate Truthy(v: Json) {
    match v
    case JNull => false
    case JBool(b) => b
    case JNumber(literal) => !ZeroLiteral(literal)
    case JString(s) => s != []
    case JArray(items) => items != []
    case JObject(fields) => fields != map[]
  }

  /** A literal whose characters before its exponent (or its end, at `k`)
      are all zeros, signs and points is a zero, and false. */
  lemma ZeroNumberFalse(literal: string, k: nat)
    requires k <= |literal|
    requires k < |literal| ==> literal[k] == 'e' || literal[k] == 'E'
    requires forall i :: 0 <= i < k ==> literal[i] == '0' || literal[i] == '-' || literal[i] == '.'
    ensures !Truthy(JNumber(literal))
  {
    var m := Mantissa(literal);
    assert m == literal[..|m|];
    if |m| < k {
      assert false;
    } else if |m| > k {
      assert false;
    }
    assert m == literal[..k];
  }

  /** A digit other than zero before the exponent makes a number true. */
  lemma NonzeroNumberTrue(literal: string, k: nat)
    requires k < |literal| && '1' <= literal[k] <= '9'
    requires forall i :: 0 <= i < k ==> literal[i] != 'e' && literal[i] != 'E'
    ensures Truthy(JNumber(literal))
  {
    var m := Mantissa(literal);
    assert m == literal[..|m|];
    if |m| <= k {
      assert false;
    }
    assert m[k] in m;
  }

  /** An accepted value is never empty, so the `if result:` that follows a
      parse always takes its first branch. */
  lemma AcceptedIsTruthy(v: Json)
    requires HasRequiredFields(v)
    ensures Truthy(v)
  {
    assert Member(v, "doc") == Some(true);
    if v.JString? {
      assert Contains(v.s, "doc");
      var i :| 0 <= i <= |v.s| - 3 && OccursAt(v.s, "doc", i);
    }
  }

  /** The success log line of `analyze_document` reads `len(result.get(k,
      []))` for `facts` and `red_flags`: it needs an object whose two lists
      have a length. */
  predicate CountsLoggable(v: Json) {
    && v.JObject?
    && ("facts" in v.fields ==> HasLen(v.fields["facts"]))
    && ("red_flags" in v.fields ==> HasLen(v.fields["red_flags"]))
  }

  /** `LLMService`. */
  class LlmService {
    const model: GenerativeModel
    const loads: Loads

    constructor (model: GenerativeModel, loads: Loads)
      ensures this.model == model && this.loads == loads
    {
      this.model := model;
      this.loads := loads;
    }

    /** `_parse_analysis_response`: clean the fences, decode, and accept the
        decoded value unchanged once the four fields are `in` it. */
    function ParseAnalysisResponse(text: string): ParseOutcome {
      match loads(CleanJsonResponse(text))
      case None => Rejected
      case Some(v) =>
        if Member(v, "doc").None? then ParseRaised
        else if HasRequiredFields(v) then Accepted(v)
        else Rejected
    }

    /** A reply is accepted exactly when it decodes to a value holding the
        four fields, and then as decoded; the parser raises exactly when the
        decoded value does not support `in`. */
    lemma ParseAnalysisOutcomes(text: string)
      ensures var r := ParseAnalysisResponse(text);
              var decoded := loads(CleanJsonResponse(text));
              && (r.Accepted? <==> decoded.Some? && HasRequiredFields(decoded.value))
              && (r.Accepted? ==> r.value == decoded.value)
              && (r.ParseRaised? <==> decoded.Some? && Member(decoded.value, "doc").None?)
    {
      assert RequiredFields[0] == "doc";
    }

    /** `_retry_analysis`, started as call number `start`: one call with the
        retry prompt over the first 1000 characters; any failure gives
        `None`. */
    function RetryAnalysisRun(filename: string, category: Category, text: string, start: nat): (run: LlmRun)
      ensures run.prompts == [RetryPrompt(filename, category, SliceTo(text, 1000))]
    {
      var prompt := RetryPrompt(filename, category, SliceTo(text, 1000));
      match model.respond(start, prompt)
      case Raised(_) => LlmRun(None, [prompt])
      case Text(reply) =>
        match ParseAnalysisResponse(reply)
        case Accepted(v) => LlmRun(Some(v), [prompt])
        case _ => LlmRun(None, [prompt])
    }

    /** The retry gives a result exactly when its reply was text the parser
        accepted, and the result is what the parser accepted. */
    lemma RetryAnalysisOutcome(filename: string, category: Category, text: string, start: nat)
      ensures var run := RetryAnalysisRun(filename, category, text, start);
              var reply := model.respond(start, run.prompts[0]);
              && (run.result.Some? <==> reply.Text? && ParseAnalysisResponse(reply.text).Accepted?)
              && (run.result.Some? ==> Accepted(run.result.value) == ParseAnalysisResponse(reply.text))
    {
    }

    /** `analyze_document`, started as call number `start`: the analysis
        prompt, then the retry prompt only when the first reply was read and
        rejected by the parser. A raise anywhere, including in the log line
        that counts the lists, gives `None` and ends the run. */
    function AnalyzeDocumentRun(filename: string, category: Category, text: string, start: nat): (run: LlmRun)
      ensures 1 <= |run.prompts| <= 2
      ensures run.prompts[0] == AnalysisPrompt(filename, category, text)
      ensures |run.prompts| == 2 ==> run.prompts[1] == RetryPrompt(filename, category, SliceTo(text, 1000))
    {
      var prompt := AnalysisPrompt(filename, category, text);
      match model.respond(start, prompt)
      case Raised(_) => LlmRun(None, [prompt])
      case Text(reply) =>
        match ParseAnalysisResponse(reply)
        case ParseRaised => LlmRun(None, [prompt])
        case Accepted(v) =>
          if CountsLoggable(v) then LlmRun(Some(v), [prompt]) else LlmRun(None, [prompt])
        case Rejected =>
          var retry := RetryAnalysisRun(filename, category, text, start + 1);
          LlmRun(retry.result, [prompt] + retry.prompts)
    }

    /** At most two calls: the second exactly when the first reply was read
        and rejected; none after a raise; a result is always a reply the
        parser accepted. */
    lemma AnalyzeDocumentCalls(filename: string, category: Category, text: string, start: nat)
      ensures var run := AnalyzeDocumentRun(filename, category, text, start);
              && (|run.prompts| == 2 <==>
                    model.respond(start, run.prompts[0]).Text?
                    && ParseAnalysisResponse(model.respond(start, run.prompts[0]).text).Rejected?)
              && (model.respond(start, run.prompts[0]).Raised? ==> run.result.None?)
              && (model.respond(start, run.prompts[0]).Text?
                  && ParseAnalysisResponse(model.respond(start, run.prompts[0]).text).Rejected?
                  && model.respond(start + 1, RetryPrompt(filename, category, SliceTo(text, 1000))).Text?
                  && ParseAnalysisResponse(model.respond(start + 1, RetryPrompt(filename, category, SliceTo(text, 1000))).text).Accepted? ==>
                    run.result == Some(ParseAnalysisResponse(model.respond(start + 1, RetryPrompt(filename, category, SliceTo(text, 1000))).text).value))
              && (run.result.Some? ==>
                    exists i :: 0 <= i < |run.prompts| && model.respond(start + i, run.prompts[i]).Text?
                      && ParseAnalysisResponse(model.respond(start + i, run.prompts[i]).text) == Accepted(run.result.value))
    {
      var run := AnalyzeDocumentRun(filename, category, text, start);
      var prompt := AnalysisPrompt(filename, category, text);
      if model.respond(start, prompt).Text? && ParseAnalysisResponse(model.respond(start, prompt).text).Rejected? {
        var retry := RetryAnalysisRun(filename, category, text, start + 1);
        RetryAnalysisOutcome(filename, category, text, start + 1);
        assert run.prompts == [prompt] + retry.prompts;
        if run.result.Some? {
          assert model.respond(start + 1, run.prompts[1]).Text?;
          assert ParseAnalysisResponse(model.respond(start + 1, run.prompts[1]).text) == Accepted(run.result.value);
        }
      } else if run.result.Some? {
        assert model.respond(start + 0, run.prompts[0]).Text?;
      }
    }

    /** `generate_summary`'s result for a reply: the stripped text, or the
        fixed fallback sentence when the call raised. */
    function SummaryOf(reply: Reply): (r: string)
      ensures reply.Raised? ==> r == SummaryFallback
      ensures reply.Text? ==> r == [] || (!IsSpace(r[0]) && !IsSpace(r[|r| - 1]))
      ensures reply.Text? ==> |r| <= |reply.text| && IsInfix(r, reply.text)
    {
      match reply
      case Raised(_) =>
        SummaryFallback
      case Text(t) =>
        StripShape(t);
        StripIsInfix(t);
        Strip(t)
    }

    /** `_retry_analysis`. */
    method RetryAnalysis(filename: string, category: Category, text: string) returns (result: Option<Json>)
      modifies model
      ensures var run := RetryAnalysisRun(filename, category, text, |old(model.prompts)|);
              result == run.result && model.prompts == old(model.prompts) + run.prompts
    {
      var truncated := SliceTo(text, 1000);
      var reply := model.GenerateContent(RetryPrompt(filename, category, truncated));
      match reply
      case Raised(_) =>
        result := None;
      case Text(replyText) =>
        var parsed := ParseAnalysisResponse(replyText);
        if parsed.Accepted? {
          result := Some(parsed.value);
        } else {
          result := None;
        }
    }

    /** `analyze_document`. */
    method AnalyzeDocument(filename: string, category: Category, text: string) returns (result: Option<Json>)
      modifies model
      ensures var run := AnalyzeDocumentRun(filename, category, text, |old(model.prompts)|);
              result == run.result && model.prompts == old(model.prompts) + run.prompts
    {
      ghost var start := |model.prompts|;
      var reply := model.GenerateContent(AnalysisPrompt(filename, category, text));
      assert |model.prompts| == start + 1;
      match reply
      case Raised(_) =>
        result := None;
      case Text(replyText) =>
        var parsed := ParseAnalysisResponse(replyText);
        match parsed
        case ParseRaised =>
          result := None;
        case Accepted(v) =>
          result := if CountsLoggable(v) then Some(v) else None;
        case Rejected =>
          result := RetryAnalysis(filename, category, text);
    }

    /** `generate_summary`: one call over the given analyses. */
    method GenerateSummary(analyses: seq<Json>) returns (summary: string)
      modifies model
      ensures model.prompts == old(model.prompts) + [SummaryPrompt(analyses)]
      ensures summary == SummaryOf(model.respond(|old(model.prompts)|, SummaryPrompt(analyses)))
    {
      var reply := model.GenerateContent(SummaryPrompt(analyses));
      match reply
      case Raised(_) =>
        summary := SummaryFallback;
      case Text(replyText) =>
        summary := Strip(replyText);
    }
  }

  /** If the first call raises, the run is that one call and gives `None`. */
  lemma NoRetryAfterRaise(service: LlmService, filename: string, category: Category, text: string, start: nat)
    requires service.model.respond(start, AnalysisPrompt(filename, category, text)).Raised?
    ensures service.AnalyzeDocumentRun(filename, category, text, start) == LlmRun(None, [AnalysisPrompt(filename, category, text)])
  {
  }

  /** A first reply that parses is returned as decoded, whatever the length
      of its lists, when its lists have a length. */
  lemma AcceptedReturnedUnchanged(service: LlmService, filename: string, category: Category, text: string, start: nat, reply: string)
    requires service.model.respond(start, AnalysisPrompt(filename, category, text)) == Text(reply)
    requires service.loads(CleanJsonResponse(reply)).Some?
    requires var v := service.loads(CleanJsonResponse(reply)).value;
             v.JObject? && "doc" in v.fields && "category" in v.fields
             && "facts" in v.fields && v.fields["facts"].JArray?
             && "red_flags" in v.fields && v.fields["red_flags"].JArray?
    ensures service.AnalyzeDocumentRun(filename, category, text, start).result == service.loads(CleanJsonResponse(reply))
  {
    ObjectRequiredFields(service.loads(CleanJsonResponse(reply)).value.fields);
  }

  /** Every prompt of a run carries at most the text it was given, and the
      retry at most 1000 characters of it. */
  lemma RunPromptTextBound(service: LlmService, filename: string, category: Category, text: string, start: nat)
    ensures forall p <- service.AnalyzeDocumentRun(filename, category, text, start).prompts ::
              (p.AnalysisPrompt? && p.text == text) || (p.RetryPrompt? && |p.text| <= 1000 && p.text == text[..|p.text|])
  {
  }
}
