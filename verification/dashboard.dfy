/**
 * The decision rules of App.tsx: section toggling, the initial session pick, the
 * mock sentiment normalisation, the analysis state transition and the verdict tiers.
 */
module Dashboard {
  import opened Wrappers
  import opened Types
  import opened Constants
  import opened MarketLogic
  import opened AnalysisService

  // ---------------------------------------------------------------- sections

  /** Every dashboard section starts visible. */
  const InitialSections: map<string, bool> := map[
    "strength" := true, "adr" := true, "target" := true, "news" := true,
    "analysis" := true, "liquidity" := true, "dollar" := true, "timeline" := true]

  /**
   * `toggleSection`: the key's flag is negated; a key that is not yet present reads
   * as `undefined`, whose negation is `true`. Every other key keeps its flag.
   */
  function ToggleSection(sections: map<string, bool>, key: string): (r: map<string, bool>)
    ensures r.Keys == sections.Keys + {key}
    ensures key in sections ==> r[key] == !sections[key]
    ensures key !in sections ==> r[key]
    ensures forall k :: k in sections && k != key ==> r[k] == sections[k]
  {
    sections[key := !(key in sections && sections[key])]
  }

  /** Every section starts visible, so the first toggle of any of them hides it and leaves the rest visible. */
  lemma FirstToggleHides(key: string)
    requires key in InitialSections
    ensures ToggleSection(InitialSections, key).Keys == InitialSections.Keys
    ensures !ToggleSection(InitialSections, key)[key]
    ensures forall k :: k in InitialSections && k != key ==> ToggleSection(InitialSections, key)[k]
  {
  }

  /** Toggling a present section twice restores the visibility map. */
  lemma ToggleTwiceRestores(sections: map<string, bool>, key: string)
    requires key in sections
    ensures ToggleSection(ToggleSection(sections, key), key) == sections
  {
  }

  // ---------------------------------------------------------- session choice

  /** The index of the first open status, in table order. */
  function FirstOpen(statuses: seq<SessionStatus>): (r: Option<nat>)
    ensures r.Some? ==> r.value < |statuses| && statuses[r.value].isOpen
    ensures r.Some? ==> forall j :: 0 <= j < r.value ==> !statuses[j].isOpen
    ensures r.None? ==> forall j :: 0 <= j < |statuses| ==> !statuses[j].isOpen
  {
    if |statuses| == 0 then None
    else if statuses[0].isOpen then Some(0)
    else
      match FirstOpen(statuses[1..])
      case Some(k) => Some(k + 1)
      case None => None
  }

  /** The initially selected session: the first open one, else London. */
  function DefaultSession(statuses: seq<SessionStatus>): (name: string)
    ensures (exists j :: 0 <= j < |statuses| && statuses[j].isOpen) ==>
      exists i :: 0 <= i < |statuses| && statuses[i].isOpen && name == statuses[i].name &&
        forall j :: 0 <= j < i ==> !statuses[j].isOpen
    ensures (forall j :: 0 <= j < |statuses| ==> !statuses[j].isOpen) ==> name == "London"
  {
    match FirstOpen(statuses)
    case Some(i) => statuses[i].name
    case None => "London"
  }

  /**
   * With the real table, the pick is always the first session open at that hour;
   * the London fallback is never taken.
   */
  lemma DefaultSessionIsFirstOpen(hour: Hour)
    ensures var pick := FirstOpen(ActiveSessions(SessionTable, hour));
      && pick.Some?
      && IsOpenAt(SessionTable[pick.value], hour)
      && DefaultSession(ActiveSessions(SessionTable, hour)) == SessionTable[pick.value].name
      && forall j :: 0 <= j < pick.value ==> !IsOpenAt(SessionTable[j], hour)
  {
    var statuses := ActiveSessions(SessionTable, hour);
    assert forall j :: 0 <= j < |statuses| ==> (statuses[j].isOpen <==> IsOpenAt(SessionTable[j], hour));
    TableCoversEveryHour(hour);
    var i :| 0 <= i < |SessionTable| && IsOpenAt(SessionTable[i], hour);
    assert statuses[i].isOpen;
    var pick := FirstOpen(statuses);
    assert pick.Some?;
    assert statuses[pick.value].name == SessionTable[pick.value].name;
  }

  // --------------------------------------------------------------- sentiment

  /**
   * One mock sentiment row: `long` is `floor(random * 50) + 25`, with the floored draw
   * as input, and `short` is its complement.
   */
  function SentimentFor(pair: string, draw: int): (m: MarketSentiment)
    requires 0 <= draw < 50
    ensures m.pair == pair
    ensures 25 <= m.long <= 74 && 26 <= m.short <= 75
    ensures m.long + m.short == 100
  {
    var long := draw + 25;
    MarketSentiment(pair, long, 100 - long)
  }

  /** The sentiment list: one row per pair, in pair order. */
  function MockSentiment(pairs: seq<string>, draws: seq<int>): (r: seq<MarketSentiment>)
    requires |draws| == |pairs|
    requires forall i :: 0 <= i < |draws| ==> 0 <= draws[i] < 50
    ensures |r| == |pairs|
    ensures forall i :: 0 <= i < |r| ==> r[i].pair == pairs[i] && r[i].long + r[i].short == 100
    ensures forall i :: 0 <= i < |r| ==> 25 <= r[i].long <= 74
  {
    seq(|pairs|, i requires 0 <= i < |pairs| => SentimentFor(pairs[i], draws[i]))
  }

  /** Every long share from 25 to 74 is reached by exactly one draw. */
  lemma SentimentDrawIsBijective(pair: string, long: int)
    requires 25 <= long <= 74
    ensures exists d :: 0 <= d < 50 && SentimentFor(pair, d).long == long
    ensures forall d :: 0 <= d < 50 && SentimentFor(pair, d).long == long ==> d == long - 25
  {
    assert SentimentFor(pair, long - 25).long == long;
  }

  // ---------------------------------------------------------------- analysis

  const GatewayError := "Gateway Error: Unable to reach the processing core."

  /** The slice of App state that the analysis run reads and writes. */
  datatype AnalysisView = AnalysisView(
    marketState: Option<MarketState>,
    selectedPair: string,
    signal: Option<TradeSignal>,
    error: Option<string>,
    isAnalyzing: bool)

  /** How the awaited service call settled: with its `{ data, error }` pair, or by rejecting. */
  datatype ServiceReply = Resolved(result: AnalysisResult) | Rejected

  /** The state rendered while the call is in flight. */
  function BeginAnalysis(v: AnalysisView): (r: AnalysisView)
    requires v.marketState.Some?
    ensures r.isAnalyzing && r.error.None?
    ensures r.marketState == v.marketState && r.selectedPair == v.selectedPair && r.signal == v.signal
  {
    v.(isAnalyzing := true, error := None)
  }

  /**
   * `runAnalysis`: nothing without a market snapshot; otherwise clear the error, await
   * the service, then record either its error (keeping the old signal) or its data.
   */
  function RunAnalysis(v: AnalysisView, reply: ServiceReply): (r: AnalysisView)
    ensures v.marketState.None? ==> r == v
    ensures r.marketState == v.marketState && r.selectedPair == v.selectedPair
    ensures v.marketState.Some? ==> !r.isAnalyzing
    ensures v.marketState.Some? && reply.Resolved? && Truthy(reply.result.error) ==>
      r.error == reply.result.error && r.signal == v.signal
    ensures v.marketState.Some? && reply.Resolved? && !Truthy(reply.result.error) ==>
      r.error.None? && r.signal == reply.result.data
    ensures v.marketState.Some? && reply.Rejected? ==> r.error == Some(GatewayError) && r.signal == v.signal
  {
    if v.marketState.None? then v
    else
      var pending := BeginAnalysis(v);
      var settled :=
        match reply
        case Resolved(result) =>
          if Truthy(result.error) then pending.(error := result.error)
          else pending.(signal := result.data)
        case Rejected => pending.(error := Some(GatewayError));
      settled.(isAnalyzing := false)
  }

  /** The error panel replaces the analysis whenever the error is truthy. */
  predicate ShowsErrorPanel(v: AnalysisView) {
    Truthy(v.error)
  }

  /**
   * Run against the service: a stale error never survives, and either the service's
   * error is shown over the previous signal, or the fresh data replaces the signal.
   */
  lemma RunWithServiceOutcome(v: AnalysisView, apiKey: Option<string>, outcome: CallOutcome, parse: string -> ParseOutcome)
    requires v.marketState.Some?
    ensures var result := AnalyzeTradeSignal(apiKey, outcome, parse);
            var r := RunAnalysis(v, Resolved(result));
      && !r.isAnalyzing
      && (ShowsErrorPanel(r) <==> result.error.Some?)
      && (ShowsErrorPanel(r) ==> r.error == result.error && r.signal == v.signal)
      && (!ShowsErrorPanel(r) ==> r.error.None? && r.signal == result.data)
  {
  }

  /** Without a key the run shows the missing-key error and keeps whatever signal was shown. */
  lemma RunWithoutKeyKeepsSignal(v: AnalysisView, outcome: CallOutcome, parse: string -> ParseOutcome)
    requires v.marketState.Some?
    ensures var r := RunAnalysis(v, Resolved(AnalyzeTradeSignal(None, outcome, parse)));
      r.error == Some(MissingKeyError) && r.signal == v.signal
  {
  }

  // ---------------------------------------------------------------- verdicts

  /** `signal?.score`: truthy when there is a signal whose score is not zero. */
  predicate ScoreTruthy(signal: Option<TradeSignal>) {
    signal.Some? && signal.value.score != 0
  }

  /** The advisory directive text, by tier; an entry quotes the pair and the signal's targets. */
  datatype Directive = StrategicEntry(pair: string, tp: real, sl: real) | PartialAlignment | CautionAdvised

  function AdvisoryDirective(selectedPair: string, signal: Option<TradeSignal>): (d: Directive)
    ensures d.StrategicEntry? <==> signal.Some? && signal.value.score >= 80
    ensures d.PartialAlignment? <==> signal.Some? && 55 <= signal.value.score < 80
    ensures d.CautionAdvised? <==> signal.None? || signal.value.score < 55
    ensures d.StrategicEntry? ==> d == StrategicEntry(selectedPair, signal.value.tp, signal.value.sl)
  {
    if ScoreTruthy(signal) && signal.value.score >= 80 then
      StrategicEntry(selectedPair, signal.value.tp, signal.value.sl)
    else if ScoreTruthy(signal) && signal.value.score >= 55 then
      PartialAlignment
    else
      CautionAdvised
  }

  /** The verdict card's colour scheme. */
  datatype VerdictStyle = Emerald | Rose | Neutral

  function VerdictStyleOf(signal: Option<TradeSignal>): (style: VerdictStyle)
    ensures style == Emerald <==> signal.Some? && signal.value.score >= 80
    ensures style == Rose <==> signal.Some? && signal.value.score <= 30 && signal.value.score != 0
    ensures style == Neutral <==> signal.None? || signal.value.score == 0 || 30 < signal.value.score < 80
  {
    if ScoreTruthy(signal) && signal.value.score >= 80 then Emerald
    else if ScoreTruthy(signal) && signal.value.score <= 30 then Rose
    else Neutral
  }

  /** The card and the directive agree at the top tier; a rose card always advises caution. */
  lemma VerdictAgreesWithDirective(selectedPair: string, signal: Option<TradeSignal>)
    ensures VerdictStyleOf(signal) == Emerald <==> AdvisoryDirective(selectedPair, signal).StrategicEntry?
    ensures VerdictStyleOf(signal) == Rose ==> AdvisoryDirective(selectedPair, signal) == CautionAdvised
  {
  }

  /** A zero score is falsy: neutral card and caution, where score 1 already turns the card rose. */
  lemma ZeroScoreIsNeutral(selectedPair: string, s: TradeSignal)
    requires s.score == 0
    ensures VerdictStyleOf(Some(s)) == Neutral
    ensures VerdictStyleOf(Some(s.(score := 1))) == Rose
    ensures AdvisoryDirective(selectedPair, Some(s)) == CautionAdvised
  {
  }

  /** `signal?.action || 'STANDBY'`. */
  function ActionLabel(signal: Option<TradeSignal>): (caption: string)
    ensures caption == "STANDBY" <==> signal.None?
    ensures signal.Some? ==> caption == ActionName(signal.value.action)
  {
    var shown := if signal.Some? then ActionName(signal.value.action) else "";
    if shown != "" then shown else "STANDBY"
  }
}
