# FX dashboard session logic, modelled in Dafny

This project models the decision logic of a browser trading dashboard. That logic is:

- the **session-window calculator**: which of the Sydney, Tokyo, London and New York sessions are open at an hour of day, whether the kill zone is active, whether the London/New York overlap flag is set, and a four-band volatility score;
- the **session table** and **kill-zone** constants;
- the **market-hours timeline** geometry: a session shifted by a whole-hour timezone offset, normalised onto the clock face and drawn as one or two minute segments of the day;
- the **analysis service's** mapping from (API key, call outcome) to a `{data, error}` pair, including the ordered failure-message rules;
- the **App rules**: section toggling, the initial session pick, mock sentiment normalisation, the analysis run's state transition, and the verdict and directive tiers;
- the **ADR meter's** exhaustion threshold and bar-width clamp.

All of it is modelled as pure functions over immutable datatypes, one module per source file:
`Constants`, `MarketLogic`, `MarketHoursTimeline`, `AnalysisService`, `Dashboard` (App.tsx) and `AdrMeter`.
`Types` mirrors the records of types.ts, and `Wrappers` holds `Option`, the `T | null` shape.

Inputs that the program reads from its environment become parameters:
- the hour of day (`Hour`, 0..23);
- the timezone offset (an integer);
- whether the API key is present;
- the backend call's outcome: a response text, or a thrown message;
- `JSON.parse`, a function parameter;
- the floored random draw behind each sentiment value.

Quirks of the code, modelled as written:
- utils/marketLogic.ts:25 describes the rule as a single-day window or a simple wrap. The wrap branch is in fact taken whenever `start >= end`, so a session with `start == end` is open all day (`EqualBoundsOpenAllDay`). The timeline draws such a session as an empty bar (`EqualBoundsDrawNothing`). No row of the table has equal ends.
- constants.ts:4 says the sessions are defined in UTC hours. The timeline reads them that way: it shifts each session from UTC by the selected zone's offset (components/MarketHoursTimeline.tsx:25-45). The calculator's callers, the session clock (components/SessionClock.tsx:18) and the default pick (App.tsx:75), pass the Lagos (UTC+1) hour instead. So the bars and the session clock are one hour apart: at 07:30 UTC the clock already shows London open while the London bar does not cover the now-marker (`TimelineLagsSessionClock`). The model keeps both: the calculator takes whatever hour its caller passes.
- The overlap flag (utils/marketLogic.ts:39) is hard-coded as 13..17 inclusive. By the table, London and New York are both open only at 13..16 (`OverlapFlagVersusTable`).
- `analyzeTradeSignal` returns `data = null` and `error = null` together when the response text is the JSON document `null`. `AnalyzeTradeSignal` states that this is the only case in which both are absent.

## Model

| member | source | states |
|---|---|---|
| Constants.TableHoursInRange | constants.ts:6-9 | every session start and end hour lies in 0..23 |
| Constants.TableNamesDistinct | constants.ts:6-9 | session names are pairwise distinct, so they can serve as keys and selection ids |
| Constants.OnlySydneyWraps | constants.ts:6-9 | a table row wraps past midnight (start > end) exactly when it is Sydney |
| Constants.KillZoneWellFormed | constants.ts:12 | the kill zone is non-empty (start < end) and both ends are hours of the day |
| Types.ActionName | types.ts:39 | every action's display name is non-empty, so for every modelled signal the STANDBY fallback depends only on the signal's presence |
| MarketLogic.ActiveSessions | utils/marketLogic.ts:22-33 | one status per table row, in table order; each keeps name/start/end/colour; open iff start <= h < end when start < end, and iff h >= start or h < end otherwise |
| MarketLogic.OpenRuleIsCircularWindow | utils/marketLogic.ts:26-31 | for distinct in-range ends, the two-branch open rule `IsOpenAt` equals "the hour is less than the session's length past its start, counted round the clock" |
| MarketLogic.EqualBoundsOpenAllDay | utils/marketLogic.ts:29-31 | a session with start == end is open at every hour |
| MarketLogic.KillZoneHours | utils/marketLogic.ts:42-45 | the kill-zone test `IsKillZone` holds exactly at hours 14, 15 and 16 |
| MarketLogic.VolatilityScore | utils/marketLogic.ts:47-53 | the score is one of 20, 40, 75, 90, and it is 90 exactly when the overlap flag holds |
| MarketLogic.VolatilityMatchesHourlyTable | utils/marketLogic.ts:47-53 | the first-match band rules agree, hour by hour, with an independent 24-entry score table |
| MarketLogic.KillZoneWithinOverlap | utils/marketLogic.ts:36-53 | inside the kill zone the overlap flag is set and the score is 90; the overlap hours outside the kill zone are exactly 13 and 17 |
| MarketLogic.TableCoversEveryHour | constants.ts:6-9 | under the open rule, every hour 0..23 has at least one session of the table open |
| MarketLogic.OverlapFlagVersusTable | utils/marketLogic.ts:36-40 | London and New York are both open exactly at 13..16; the overlap flag `IsOverlapActive` holds at those hours or hour 17, when London is closed |
| MarketHoursTimeline.JsRemainder24 | components/MarketHoursTimeline.tsx:41 | JavaScript's truncating `% 24` lies strictly between -24 and 24; it equals the Euclidean remainder for non-negative input, and for negative input it is never positive: 0 on a multiple of 24, otherwise the Euclidean remainder minus 24 |
| MarketHoursTimeline.ShiftHour | components/MarketHoursTimeline.tsx:41-45 | the normalised hour lies in [0,24) and equals (hour + offset) mod 24, that is, it is congruent to the shifted hour |
| MarketHoursTimeline.ShiftPreservesLength | components/MarketHoursTimeline.tsx:41-45 | shifting both ends by the same offset keeps the session's length round the clock |
| MarketHoursTimeline.SessionBar | components/MarketHoursTimeline.tsx:47-81 | two segments [startMin,1440) and [0,endMin) when startMin > endMin, else the single segment [startMin,endMin); each segment lies within [0,1440] on whole hours |
| MarketHoursTimeline.MinuteOfDay | components/MarketHoursTimeline.tsx:33-35 | the marker minute lies in [0,1440) and decodes back to its hour and minute |
| MarketHoursTimeline.MinuteOfDayRoundTrip | components/MarketHoursTimeline.tsx:33-35 | every minute of the day is the marker minute of its own hour and minute-of-hour |
| MarketHoursTimeline.BarWidthIsSessionLength | components/MarketHoursTimeline.tsx:41-81 | for ends not congruent mod 24, the drawn width is 60 times the session's length mod 24, whatever the offset |
| MarketHoursTimeline.BarAgreesWithOpenRule | components/MarketHoursTimeline.tsx:40-82 | for distinct in-range ends, the bar covers displayed hour h iff the open rule holds at (h - offset) mod 24, the UTC hour behind h; the calculator as the app runs it is evaluated at the Lagos hour, one later |
| MarketHoursTimeline.TimelineReadsUtc | components/MarketHoursTimeline.tsx:24-82 | at any UTC hour and minute, for a zone with a whole-hour offset, the bar covers the now-marker exactly when the open rule holds at that UTC hour |
| MarketHoursTimeline.HalfHourZoneMarkerMisses | components/MarketHoursTimeline.tsx:20-35 | in a UTC+5:30 zone at 08:10 UTC London is open, but the bars, shifted by the rounded offset 6, miss the marker at 13:40 while covering 14:10 |
| MarketHoursTimeline.TimelineLagsSessionClock | components/SessionClock.tsx:11-18 | at 07:30 UTC the session clock's Lagos hour 8 shows London open, while the London bar covers neither the UTC marker 07:30 nor the Lagos marker 08:30 |
| MarketHoursTimeline.EqualBoundsDrawNothing | components/MarketHoursTimeline.tsx:73-81 | a session with start == end draws zero width and covers no minute, although the calculator calls it open all day |
| AnalysisService.ClassifyFailure | services/geminiService.ts:80-83 | "Network" wins over "403", which wins over "429", which wins over the default; an absent message gives the default |
| AnalysisService.AnalyzeTradeSignal | services/geminiService.ts:13-86 | no key gives the fixed missing-key error whatever the call would do; data and error are never both present; an error is never empty; a parsed signal gives data with no error; an empty text, a JSON syntax error and a thrown failure each give the classified message of that failure |
| AnalysisService.EmptyPayloadMatchesNoRule | services/geminiService.ts:74-80 | the empty-payload message mentions none of the keys, so it classifies as the default error |
| AnalysisService.EmptyResponseGivesDefaultError | services/geminiService.ts:73-80 | an absent or empty response text yields "Unexpected Internal Server Error." |
| AnalysisService.NetworkOverridesAll | services/geminiService.ts:81-83 | a failure mentioning "Network" yields the gateway-timeout message, whatever else it mentions |
| AnalysisService.PermissionOverridesQuota | services/geminiService.ts:81-82 | a failure mentioning "403" and not "Network" yields the permission message, even if it mentions "429" |
| AnalysisService.MissingMessageGivesDefault | services/geminiService.ts:80-85 | a failure without a message yields the default error |
| AnalysisService.RateLimitMessageIsQuota | services/geminiService.ts:80-83 | any failure mentioning "429" but neither "403" nor "Network" yields the quota message |
| AnalysisService.HttpRateLimitIsQuota | services/geminiService.ts:80-83 | an illustration of `RateLimitMessageIsQuota`, adding no claim of its own: the message "HTTP 429" mentions only "429" and so classifies as quota exhaustion |
| Dashboard.ToggleSection | App.tsx:40-42 | the key's flag is negated (a missing key, read as `undefined`, becomes true) and every other key keeps its flag |
| Dashboard.ToggleTwiceRestores | App.tsx:40-42 | toggling a present section twice restores the visibility map |
| Dashboard.FirstToggleHides | App.tsx:29-42 | every section starts visible, so the first toggle of any section hides it, keeps the same keys and leaves the others visible |
| Dashboard.FirstOpen | App.tsx:75 | finds the first open status in order, or reports that none is open |
| Dashboard.DefaultSession | App.tsx:74-78 | the pick is the name of the first open session, or 'London' when none is open |
| Dashboard.DefaultSessionIsFirstOpen | App.tsx:74-78 | with the real table, at every hour, the pick is the first open table session and the London fallback is never taken |
| Dashboard.SentimentFor | App.tsx:93-97 | long is in 25..74, short in 26..75, and long + short = 100 |
| Dashboard.MockSentiment | App.tsx:93-97 | one row per pair in order, each with long in 25..74 and long + short = 100 |
| Dashboard.SentimentDrawIsBijective | App.tsx:95 | each long value 25..74 comes from exactly one floored draw |
| Dashboard.BeginAnalysis | App.tsx:129-132 | while the call is in flight the error is cleared and the analysing flag is set; the signal is untouched |
| Dashboard.RunAnalysis | App.tsx:129-152 | no market snapshot leaves the state unchanged; otherwise a truthy error is recorded over the kept signal, a rejection records the gateway error, and anything else replaces the signal and leaves no error; analysing ends false |
| Dashboard.RunWithServiceOutcome | App.tsx:135-146 | run against the service, the error panel shows iff the service returned an error; then the old signal is kept, otherwise the fresh data replaces it |
| Dashboard.RunWithoutKeyKeepsSignal | App.tsx:142-146 | without a key the run shows the missing-key error and keeps the previous signal |
| Dashboard.AdvisoryDirective | App.tsx:518-522 | score >= 80 gives the entry directive with the pair, tp and sl; 55..79 gives partial alignment; no signal or score < 55 gives caution |
| Dashboard.VerdictStyleOf | App.tsx:504 | emerald iff score >= 80; rose iff score <= 30 and non-zero (truthiness); neutral otherwise, including score 0 and no signal |
| Dashboard.VerdictAgreesWithDirective | App.tsx:504-522 | the card is emerald exactly when the directive is an entry; a rose card always comes with caution |
| Dashboard.ZeroScoreIsNeutral | App.tsx:504-522 | a zero score is falsy: neutral card and caution for every pair, while score 1 turns the card rose |
| Dashboard.ActionLabel | App.tsx:506 | the label is 'STANDBY' exactly when there is no signal, and otherwise the signal's action name |
| AdrMeter.BarWidth | components/ADRMeter.tsx:24 | the width never exceeds 100, equals percentageUsed when that is at most 100 (negative values pass through), and is 100 above |
| AdrMeter.StyleOf | components/ADRMeter.tsx:16-23 | the label and the bar are each red exactly when percentageUsed >= 90 |
| AdrMeter.ExhaustedIffBarReaches90 | components/ADRMeter.tsx:10-24 | the flag `IsExhausted` holds exactly when the drawn bar reaches 90; label and bar share their tone |
| AdrMeter.BarWidthMonotone | components/ADRMeter.tsx:24 | the bar never shrinks as more of the range is used |

## Left out

- Clock reading and formatting (`getLagosTime`, `formatLagosTime`): they read the system clock and depend on locale formatting. The hour of day is an input instead.
- The timezone offset derivation through `Intl` and `toLocaleString`, and the floating-point marker percentage: the offset is an integer parameter, and the percentage is display only.
- MarketHoursTimeline.TimelineReadsUtc: it assumes the selected zone's UTC offset is a whole number of hours. The bars use `Math.round` of the offset (components/MarketHoursTimeline.tsx:30), while the marker reads the zone's own clock (:21-23, :33-35). For zones such as UTC+5:30, UTC+5:45 or UTC-3:30 the marker sits up to half an hour from where the lemma places it (`HalfHourZoneMarkerMisses`).
- Dashboard.ToggleSection: a missing key is read as `undefined`. Names inherited from `Object.prototype` (`constructor`, `toString`, `__proto__`) read as truthy values in the source, so their first toggle stores false; they are not modelled. Every call site passes one of the eight initial keys.
- The generative-AI request (prompt text, SDK call, response schema): a foreign network library. Its outcome is an input, and `JSON.parse` is a function parameter.
- A thrown value that is `null` or `undefined`: reading `.message` on it would itself throw inside the catch block. The model treats every failure as carrying an optional message.
- React rendering, effects, intervals, DOM listeners, scroll/sticky logic and reload: UI plumbing.
- Dashboard.RunAnalysis: one run is modelled as atomic, from the state at its start to the state when it settles. In App.tsx:154-156 the effect starts a new run on every market refresh (App.tsx:125) or pair change, and the button at App.tsx:492 starts one too. Overlapping runs may settle out of order, so a stale pair's result can overwrite a newer one, and the first run to settle clears the analysing flag while another is still pending. Interleaved runs are not modelled.
- Mock market data generated with `Math.random`, except the integer sentiment normalisation. The list of sentiment pairs is a parameter, because `ALL_PAIRS` is imported by App.tsx but constants.ts does not export it.
- MiniChart (floating-point pip arithmetic), Gauge (SVG rendering), CurrencyStrengthMeter (display sort on floats), the build configuration.
- MarketHoursTimeline.SessionBar: segment positions are stated in minutes, not as the CSS percentages the component renders.
- Dashboard.VerdictStyleOf: scores are integers, so NaN and fractional scores are not modelled.
- Dashboard.AdvisoryDirective: as for the verdict style, scores are integers; the tp/sl text formatting (`toFixed(5)`) is not modelled.
- AdrMeter.BarWidth: percentageUsed is an integer, so fractional percentages and NaN are not modelled.
- AnalysisService.AnalyzeTradeSignal: `JSON.parse` is assumed to return a schema-conforming signal, the document `null`, or a syntax error. Other JSON values are not modelled: numbers, booleans, strings, arrays, and objects missing `action` or `reasoning`. The service passes them on as data. In the app a falsy `action` then shows STANDBY while a signal is present (App.tsx:506), and a missing `reasoning` throws at App.tsx:536.
- Types.ActionName: only the action enumeration is modelled; the other fields of the trade signal are carried through unchanged.
