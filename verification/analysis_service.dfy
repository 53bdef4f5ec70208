/**
 * The result/error classification of services/geminiService.ts. The generative-AI
 * call is not modelled; its outcome is an input, and `JSON.parse` is a parameter.
 */
module AnalysisService {
  import opened Wrappers
  import opened Types

  const MissingKeyError := "CRITICAL: Secure API Key missing from environment."
  const EmptyPayloadMessage := "Backend returned empty payload."
  const DefaultError := "Unexpected Internal Server Error."
  const QuotaError := "Quota Exceeded: Backend throttling active."
  const PermissionError := "Permission Denied: Invalid Secure Token."
  const NetworkError := "Gateway Timeout: Network connectivity unstable."

  /** The `{ data, error }` pair the service resolves with. */
  datatype AnalysisResult = AnalysisResult(data: Option<TradeSignal>, error: Option<string>)

  /**
   * What the backend call did: it responded, with a `text` that may be absent, or it
   * threw, with a `message` that may be absent.
   */
  datatype CallOutcome = Responded(text: Option<string>) | Threw(message: Option<string>)

  /**
   * What `JSON.parse` made of a non-empty text: a signal, the JSON document `null`,
   * or a syntax error carrying its message.
   */
  datatype ParseOutcome = ParsedSignal(signal: TradeSignal) | ParsedNull | Malformed(message: string)

  /** JavaScript truthiness of an optional string: present and non-empty. */
  predicate Truthy(s: Option<string>) {
    s.Some? && s.value != ""
  }

  /** `sub` occurs in `s` starting at index `i`. */
  predicate OccursAt(s: string, sub: string, i: nat) {
    i + |sub| <= |s| && s[i..i + |sub|] == sub
  }

  /** `s.includes(sub)`. */
  predicate Contains(s: string, sub: string) {
    exists i: nat | i <= |s| :: OccursAt(s, sub, i)
  }

  /** `message?.includes(key)`: an absent message includes nothing. */
  predicate Mentions(message: Option<string>, key: string) {
    message.Some? && Contains(message.value, key)
  }

  /**
   * The catch block's message rules, applied in source order so that a later match
   * overrides an earlier one.
   */
  function ClassifyFailure(message: Option<string>): (e: string)
    ensures e in {DefaultError, QuotaError, PermissionError, NetworkError}
    ensures Mentions(message, "Network") ==> e == NetworkError
    ensures !Mentions(message, "Network") && Mentions(message, "403") ==> e == PermissionError
    ensures !Mentions(message, "Network") && !Mentions(message, "403") && Mentions(message, "429") ==> e == QuotaError
    ensures !Mentions(message, "Network") && !Mentions(message, "403") && !Mentions(message, "429") ==> e == DefaultError
  {
    var e0 := DefaultError;
    var e1 := if Mentions(message, "429") then QuotaError else e0;
    var e2 := if Mentions(message, "403") then PermissionError else e1;
    if Mentions(message, "Network") then NetworkError else e2
  }

  /** `analyzeTradeSignal`, with the environment's key, the call's outcome and the JSON parser as inputs. */
  function AnalyzeTradeSignal(apiKey: Option<string>, outcome: CallOutcome, parse: string -> ParseOutcome): (r: AnalysisResult)
    ensures !Truthy(apiKey) ==> r == AnalysisResult(None, Some(MissingKeyError))
    ensures r.data.Some? ==> r.error.None?
    ensures r.error.Some? ==> r.data.None? && Truthy(r.error)
    ensures r.data.None? && r.error.None? <==>
      Truthy(apiKey) && outcome.Responded? && Truthy(outcome.text) && parse(outcome.text.value).ParsedNull?
    ensures Truthy(apiKey) && outcome.Responded? && Truthy(outcome.text) && parse(outcome.text.value).ParsedSignal? ==>
      r == AnalysisResult(Some(parse(outcome.text.value).signal), None)
    ensures Truthy(apiKey) && outcome.Responded? && !Truthy(outcome.text) ==>
      r == AnalysisResult(None, Some(ClassifyFailure(Some(EmptyPayloadMessage))))
    ensures Truthy(apiKey) && outcome.Responded? && Truthy(outcome.text) && parse(outcome.text.value).Malformed? ==>
      r == AnalysisResult(None, Some(ClassifyFailure(Some(parse(outcome.text.value).message))))
    ensures Truthy(apiKey) && outcome.Threw? ==> r == AnalysisResult(None, Some(ClassifyFailure(outcome.message)))
  {
    if !Truthy(apiKey) then
      AnalysisResult(None, Some(MissingKeyError))
    else
      match outcome
      case Threw(message) =>
        AnalysisResult(None, Some(ClassifyFailure(message)))
      case Responded(text) =>
        if !Truthy(text) then
          AnalysisResult(None, Some(ClassifyFailure(Some(EmptyPayloadMessage))))
        else
          match parse(text.value)
          case ParsedSignal(signal) => AnalysisResult(Some(signal), None)
          case ParsedNull => AnalysisResult(None, None)
          case Malformed(message) => AnalysisResult(None, Some(ClassifyFailure(Some(message))))
  }

  /** A string cannot include a key one of whose characters it lacks. */
  lemma MissingCharacterExcludes(s: string, sub: string, k: nat)
    requires k < |sub| && sub[k] !in s
    ensures !Contains(s, sub)
  {
  }

  /** The empty-payload message mentions none of the keys, so it classifies as the default error. */
  lemma EmptyPayloadMatchesNoRule()
    ensures ClassifyFailure(Some(EmptyPayloadMessage)) == DefaultError
  {
    var m := Some(EmptyPayloadMessage);
    assert !Mentions(m, "429") && !Mentions(m, "403") by {
      assert '4' !in EmptyPayloadMessage;
      MissingCharacterExcludes(EmptyPayloadMessage, "429", 0);
      MissingCharacterExcludes(EmptyPayloadMessage, "403", 0);
    }
    assert !Mentions(m, "Network") by {
      assert 'N' !in EmptyPayloadMessage;
      MissingCharacterExcludes(EmptyPayloadMessage, "Network", 0);
    }
  }

  /** An absent or empty response text surfaces as the default error. */
  lemma EmptyResponseGivesDefaultError(apiKey: Option<string>, text: Option<string>, parse: string -> ParseOutcome)
    requires Truthy(apiKey) && !Truthy(text)
    ensures AnalyzeTradeSignal(apiKey, Responded(text), parse) == AnalysisResult(None, Some(DefaultError))
  {
    EmptyPayloadMatchesNoRule();
  }

  /** A "Network" failure wins over "403" and "429", whatever else the message says. */
  lemma NetworkOverridesAll(apiKey: Option<string>, message: string, parse: string -> ParseOutcome)
    requires Truthy(apiKey) && Contains(message, "Network")
    ensures AnalyzeTradeSignal(apiKey, Threw(Some(message)), parse).error == Some(NetworkError)
  {
  }

  /** A "403" failure wins over "429" unless "Network" is also mentioned. */
  lemma PermissionOverridesQuota(apiKey: Option<string>, message: string, parse: string -> ParseOutcome)
    requires Truthy(apiKey) && Contains(message, "403") && !Contains(message, "Network")
    ensures AnalyzeTradeSignal(apiKey, Threw(Some(message)), parse).error == Some(PermissionError)
  {
  }

  /** A failure without a message falls back to the default error. */
  lemma MissingMessageGivesDefault(apiKey: Option<string>, parse: string -> ParseOutcome)
    requires Truthy(apiKey)
    ensures AnalyzeTradeSignal(apiKey, Threw(None), parse).error == Some(DefaultError)
  {
  }

  /** A "429" failure is quota exhaustion unless "403" or "Network" is also mentioned. */
  lemma RateLimitMessageIsQuota(apiKey: Option<string>, message: string, parse: string -> ParseOutcome)
    requires Truthy(apiKey) && Contains(message, "429") && !Contains(message, "403") && !Contains(message, "Network")
    ensures AnalyzeTradeSignal(apiKey, Threw(Some(message)), parse).error == Some(QuotaError)
  {
  }

  /** A typical rate-limit rejection, "HTTP 429", mentions only "429" and so is quota exhaustion. */
  lemma HttpRateLimitIsQuota()
    ensures ClassifyFailure(Some("HTTP 429")) == QuotaError
  {
    var m := "HTTP 429";
    assert OccursAt(m, "429", 5);
    MissingCharacterExcludes(m, "403", 1);
    MissingCharacterExcludes(m, "Network", 0);
  }
}
