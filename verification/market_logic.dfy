/**
 * The session-window calculator of utils/marketLogic.ts. Every operation takes the
 * hour of day that the source reads off the (Lagos-shifted) clock; the session table
 * is documented in UTC, and that basis mismatch is kept as the source has it.
 */
module MarketLogic {
  import opened Constants

  /** The value range of `Date.getHours()`, the same range as `IsHourOfDay`. */
  type Hour = h: int | 0 <= h < 24

  /** A session definition together with its open flag at the queried hour. */
  datatype SessionStatus = SessionStatus(name: string, start: int, end: int, color: string, isOpen: bool) {

    /** The definition this status was derived from. */
    function Definition(): Session {
      Session(name, start, end, color)
    }
  }

  /**
   * The open rule: a half-open window `[start, end)`; when `start >= end` the window
   * wraps past midnight (so `start == end` is open at every hour).
   */
  predicate IsOpenAt(s: Session, hour: int) {
    if s.start < s.end then s.start <= hour < s.end
    else hour >= s.start || hour < s.end
  }

  /** One status per table row, in table order, each row copied and extended by its open flag. */
  function ActiveSessions(table: seq<Session>, hour: Hour): (r: seq<SessionStatus>)
    ensures |r| == |table|
    ensures forall i :: 0 <= i < |r| ==> r[i].Definition() == table[i]
    ensures forall i :: 0 <= i < |r| && table[i].start < table[i].end ==>
      (r[i].isOpen <==> table[i].start <= hour < table[i].end)
    ensures forall i :: 0 <= i < |r| && table[i].start >= table[i].end ==>
      (r[i].isOpen <==> hour >= table[i].start || hour < table[i].end)
  {
    if |table| == 0 then []
    else
      var s := table[0];
      [SessionStatus(s.name, s.start, s.end, s.color, IsOpenAt(s, hour))] + ActiveSessions(table[1..], hour)
  }

  /** The hard-coded London/New York overlap, inclusive of hour 17. */
  predicate IsOverlapActive(hour: Hour) {
    hour >= 13 && hour <= 17
  }

  /** The kill zone test against the constant window. */
  predicate IsKillZone(hour: Hour) {
    hour >= KillZone.start && hour < KillZone.end
  }

  /** Four hand-tuned bands; the first band that matches wins. */
  function VolatilityScore(hour: Hour): (score: int)
    ensures score in {20, 40, 75, 90}
    ensures score == 90 <==> IsOverlapActive(hour)
  {
    if hour >= 13 && hour <= 17 then 90
    else if hour >= 8 && hour <= 10 then 75
    else if hour >= 1 && hour <= 4 then 40
    else 20
  }

  /** The score of every hour, written out hour by hour as an independent reference. */
  const VolatilityByHour: seq<int> :=
    [20, 40, 40, 40, 40, 20, 20, 20, 75, 75, 75, 20,
     20, 90, 90, 90, 90, 90, 20, 20, 20, 20, 20, 20]

  lemma VolatilityMatchesHourlyTable(hour: Hour)
    ensures |VolatilityByHour| == 24
    ensures VolatilityScore(hour) == VolatilityByHour[hour]
  {
  }

  /** The half-open session window agrees with a circular-distance reading of the clock face. */
  lemma OpenRuleIsCircularWindow(s: Session, hour: Hour)
    requires IsHourOfDay(s.start) && IsHourOfDay(s.end) && s.start != s.end
    ensures 0 < (s.end - s.start) % 24
    ensures IsOpenAt(s, hour) <==> (hour - s.start) % 24 < (s.end - s.start) % 24
  {
    if hour >= s.start {
      assert (hour - s.start) % 24 == hour - s.start;
    } else {
      assert (hour - s.start) % 24 == hour - s.start + 24;
    }
    if s.end > s.start {
      assert (s.end - s.start) % 24 == s.end - s.start;
    } else {
      assert (s.end - s.start) % 24 == s.end - s.start + 24;
    }
  }

  /** A session whose start equals its end is reported open at every hour. */
  lemma EqualBoundsOpenAllDay(s: Session, hour: Hour)
    requires s.start == s.end
    ensures IsOpenAt(s, hour)
  {
  }

  /** The kill zone is exactly hours 14, 15 and 16. */
  lemma KillZoneHours(hour: Hour)
    ensures IsKillZone(hour) <==> 14 <= hour < 17
  {
  }

  /** Inside the kill zone the overlap is active and volatility is at its top band. */
  lemma KillZoneWithinOverlap(hour: Hour)
    ensures IsKillZone(hour) ==> IsOverlapActive(hour) && VolatilityScore(hour) == 90
    ensures IsOverlapActive(hour) && !IsKillZone(hour) <==> hour == 13 || hour == 17
  {
  }

  /** Every hour of the day has at least one session of the table open. */
  lemma TableCoversEveryHour(hour: Hour)
    ensures exists i :: 0 <= i < |SessionTable| && IsOpenAt(SessionTable[i], hour)
  {
    if hour < 7 {
      assert IsOpenAt(SessionTable[0], hour);
    } else if hour < 9 {
      assert IsOpenAt(SessionTable[1], hour);
    } else if hour < 17 {
      assert IsOpenAt(SessionTable[2], hour);
    } else if hour < 22 {
      assert IsOpenAt(SessionTable[3], hour);
    } else {
      assert IsOpenAt(SessionTable[0], hour);
    }
  }

  /**
   * By the table, London and New York are both open at hours 13..16 only; the
   * hard-coded overlap flag also fires at 17, when London has already closed.
   */
  lemma OverlapFlagVersusTable(hour: Hour)
    ensures IsOpenAt(London, hour) && IsOpenAt(NewYork, hour) <==> 13 <= hour <= 16
    ensures IsOverlapActive(hour) <==> (IsOpenAt(London, hour) && IsOpenAt(NewYork, hour)) || hour == 17
    ensures hour == 17 ==> IsOverlapActive(hour) && !IsOpenAt(London, hour)
  {
  }
}
