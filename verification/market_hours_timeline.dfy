/**
 * The bar geometry of components/MarketHoursTimeline.tsx: a session's hours are
 * shifted by the selected timezone's whole-hour offset, normalised onto the clock
 * face, and drawn as one or two minute segments on the day `[0, 1440)`.
 */
module MarketHoursTimeline {
  import opened Constants
  import opened MarketLogic

  const MinutesPerDay := 1440

  /** JavaScript's `x % 24`: the remainder takes the sign of the dividend (truncating division). */
  function JsRemainder24(a: int): (r: int)
    ensures -24 < r < 24
    ensures a >= 0 ==> r == a % 24
    ensures a < 0 ==> r <= 0 && r == (if a % 24 == 0 then 0 else a % 24 - 24)
  {
    if a >= 0 then a % 24
    else
      var q := (-a) / 24;
      var t := (-a) % 24;
      assert -a == 24 * q + t;
      assert t != 0 ==> a == 24 * (-q - 1) + (24 - t);
      -t
  }

  /**
   * `(hour + tzOffset) % 24`, moved up by 24 when negative: the two steps together
   * compute the mathematical (never negative) remainder.
   */
  function ShiftHour(hour: int, tzOffset: int): (r: int)
    ensures 0 <= r < 24
    ensures r == (hour + tzOffset) % 24
  {
    var x := JsRemainder24(hour + tzOffset);
    if x < 0 then x + 24 else x
  }

  /** One drawn bar piece, covering the minutes `[startMin, endMin)`. */
  datatype Segment = Segment(startMin: int, endMin: int) {
    function Width(): int {
      endMin - startMin
    }
  }

  /** The pieces `renderSessionBar` draws for a session under a timezone offset. */
  function SessionBar(s: Session, tzOffset: int): (bar: seq<Segment>)
    ensures 1 <= |bar| <= 2
    ensures forall i :: 0 <= i < |bar| ==> 0 <= bar[i].startMin <= bar[i].endMin <= MinutesPerDay
    ensures forall i :: 0 <= i < |bar| ==> bar[i].startMin % 60 == 0 && bar[i].endMin % 60 == 0
    ensures |bar| == 2 ==> bar[0].endMin == MinutesPerDay && bar[1].startMin == 0
    ensures |bar| == 2 <==> ShiftHour(s.start, tzOffset) > ShiftHour(s.end, tzOffset)
    ensures bar[0].startMin == 60 * ShiftHour(s.start, tzOffset)
    ensures bar[|bar| - 1].endMin == 60 * ShiftHour(s.end, tzOffset)
  {
    var startMin := ShiftHour(s.start, tzOffset) * 60;
    var endMin := ShiftHour(s.end, tzOffset) * 60;
    if startMin > endMin then
      [Segment(startMin, MinutesPerDay), Segment(0, endMin)]
    else
      [Segment(startMin, endMin)]
  }

  /** A minute of the displayed day lies under some piece of the bar. */
  predicate Covers(bar: seq<Segment>, minute: int) {
    exists i :: 0 <= i < |bar| && bar[i].startMin <= minute < bar[i].endMin
  }

  /** The total drawn width of a bar, in minutes. */
  function TotalWidth(bar: seq<Segment>): int {
    if |bar| == 0 then 0 else bar[0].Width() + TotalWidth(bar[1..])
  }

  /** `hour * 60 + minute`: the minute of the day, as the now-marker computes its position. */
  function MinuteOfDay(hour: Hour, minute: int): (m: int)
    requires 0 <= minute < 60
    ensures 0 <= m < MinutesPerDay
    ensures m / 60 == hour && m % 60 == minute
  {
    hour * 60 + minute
  }

  /** Every minute of the displayed day is the minute of exactly one hour and minute-of-hour. */
  lemma MinuteOfDayRoundTrip(m: int)
    requires 0 <= m < MinutesPerDay
    ensures 0 <= m / 60 < 24
    ensures MinuteOfDay(m / 60, m % 60) == m
  {
  }

  /** Adding a multiple of 24 leaves the Euclidean remainder unchanged. */
  lemma AddMultipleOf24(x: int, k: int)
    ensures (x + 24 * k) % 24 == x % 24
  {
  }

  /** Reducing either operand of a difference modulo 24 first does not change its remainder. */
  lemma SubtractModulo24(x: int, y: int)
    ensures (x % 24 - y) % 24 == (x - y) % 24
    ensures (x - y % 24) % 24 == (x - y) % 24
  {
    assert x % 24 - y == (x - y) + 24 * -(x / 24);
    AddMultipleOf24(x - y, -(x / 24));
    assert x - y % 24 == (x - y) + 24 * (y / 24);
    AddMultipleOf24(x - y, y / 24);
  }

  /**
   * For a session whose ends are not congruent, the width covered on screen is the
   * session's length in hours times 60, whatever the offset.
   */
  lemma BarWidthIsSessionLength(s: Session, tzOffset: int)
    requires (s.end - s.start) % 24 != 0
    ensures TotalWidth(SessionBar(s, tzOffset)) == 60 * ((s.end - s.start) % 24)
  {
    var a := ShiftHour(s.start, tzOffset);
    var b := ShiftHour(s.end, tzOffset);
    ShiftPreservesLength(s.start, s.end, tzOffset);
    var bar := SessionBar(s, tzOffset);
    var d := (b - a) % 24;
    if a > b {
      assert d == b - a + 24;
      assert bar == [Segment(60 * a, MinutesPerDay), Segment(0, 60 * b)];
      assert TotalWidth(bar[2..]) == 0;
      assert TotalWidth(bar[1..]) == 60 * b;
    } else {
      assert d == b - a;
      assert bar == [Segment(60 * a, 60 * b)];
      assert TotalWidth(bar[1..]) == 0;
    }
  }

  /** The session with both ends moved onto the displayed clock face. */
  function Shifted(s: Session, tzOffset: int): Session {
    Session(s.name, ShiftHour(s.start, tzOffset), ShiftHour(s.end, tzOffset), s.color)
  }

  /** The bar covers a minute of the day exactly when the shifted session is open at that minute's hour. */
  lemma CoversIsShiftedOpen(s: Session, tzOffset: int, hour: Hour, minute: int)
    requires 0 <= minute < 60
    requires ShiftHour(s.start, tzOffset) != ShiftHour(s.end, tzOffset)
    ensures Covers(SessionBar(s, tzOffset), MinuteOfDay(hour, minute)) <==> IsOpenAt(Shifted(s, tzOffset), hour)
  {
    var a := ShiftHour(s.start, tzOffset);
    var b := ShiftHour(s.end, tzOffset);
    var bar := SessionBar(s, tzOffset);
    var m := MinuteOfDay(hour, minute);
    if a > b {
      if hour >= a {
        assert bar[0].startMin <= m < bar[0].endMin;
      } else if hour < b {
        assert bar[1].startMin <= m < bar[1].endMin;
      }
    } else if a <= hour < b {
      assert bar[0].startMin <= m < bar[0].endMin;
    }
  }

  /** Shifting the session by the offset and the hour back by it preserves their circular distance. */
  lemma ShiftPreservesDistance(start: int, tzOffset: int, h: int)
    ensures (h - ShiftHour(start, tzOffset)) % 24 == ((h - tzOffset) % 24 - start) % 24
  {
    SubtractModulo24(h, start + tzOffset);
    SubtractModulo24(h - tzOffset, start);
    assert h - (start + tzOffset) == h - tzOffset - start;
  }

  /** The shifted bar keeps the session's length on the clock face. */
  lemma ShiftPreservesLength(start: int, end: int, tzOffset: int)
    ensures (ShiftHour(end, tzOffset) - ShiftHour(start, tzOffset)) % 24 == (end - start) % 24
  {
    SubtractModulo24(end + tzOffset, (start + tzOffset) % 24);
    SubtractModulo24(end + tzOffset, start + tzOffset);
    assert (end + tzOffset) - (start + tzOffset) == end - start;
  }

  /** The bar covers a minute of the day exactly when its hour is within the shifted session's circular length. */
  lemma CoversIsCircular(s: Session, tzOffset: int, hour: Hour, minute: int)
    requires 0 <= minute < 60
    requires ShiftHour(s.start, tzOffset) != ShiftHour(s.end, tzOffset)
    ensures Covers(SessionBar(s, tzOffset), MinuteOfDay(hour, minute)) <==>
      (hour - ShiftHour(s.start, tzOffset)) % 24 < (ShiftHour(s.end, tzOffset) - ShiftHour(s.start, tzOffset)) % 24
  {
    CoversIsShiftedOpen(s, tzOffset, hour, minute);
    OpenRuleIsCircularWindow(Shifted(s, tzOffset), hour);
  }

  /**
   * For a table-shaped session with distinct ends, the bar covers a displayed minute
   * (the now-marker's position among them) exactly when the calculator's open rule
   * holds at the corresponding source hour.
   */
  lemma BarAgreesWithOpenRule(s: Session, tzOffset: int, hour: Hour, minute: int)
    requires IsHourOfDay(s.start) && IsHourOfDay(s.end) && s.start != s.end
    requires 0 <= minute < 60
    ensures Covers(SessionBar(s, tzOffset), MinuteOfDay(hour, minute)) <==> IsOpenAt(s, (hour - tzOffset) % 24)
  {
    var a := ShiftHour(s.start, tzOffset);
    var b := ShiftHour(s.end, tzOffset);
    var src := (hour - tzOffset) % 24;
    OpenRuleIsCircularWindow(s, src);
    ShiftPreservesLength(s.start, s.end, tzOffset);
    ShiftPreservesDistance(s.start, tzOffset, hour);
    assert (b - a) % 24 != 0;
    CoversIsCircular(s, tzOffset, hour, minute);
  }

  /**
   * The timeline reads the table as UTC hours: at a UTC instant, the bar covers the
   * now-marker (the instant shown in the selected zone) exactly when the open rule
   * holds at the UTC hour itself.
   */
  lemma TimelineReadsUtc(s: Session, tzOffset: int, utcHour: Hour, minute: int)
    requires IsHourOfDay(s.start) && IsHourOfDay(s.end) && s.start != s.end
    requires 0 <= minute < 60
    ensures Covers(SessionBar(s, tzOffset), MinuteOfDay(ShiftHour(utcHour, tzOffset), minute)) <==> IsOpenAt(s, utcHour)
  {
    var shown := ShiftHour(utcHour, tzOffset);
    BarAgreesWithOpenRule(s, tzOffset, shown, minute);
    SubtractModulo24(utcHour + tzOffset, tzOffset);
    assert (shown - tzOffset) % 24 == utcHour;
  }

  /**
   * The session clock evaluates the open rule at the Lagos (UTC+1) hour, one hour
   * ahead of the timeline. At 07:30 UTC (08:30 in Lagos) the clock already reports
   * London open, while the London bar does not cover the now-marker, whether the
   * timeline shows UTC or Lagos time.
   */
  lemma TimelineLagsSessionClock()
    ensures SessionTable[2] == London
    ensures ActiveSessions(SessionTable, 8)[2].isOpen
    ensures !Covers(SessionBar(London, 0), MinuteOfDay(7, 30))
    ensures !Covers(SessionBar(London, 1), MinuteOfDay(8, 30))
  {
    assert SessionBar(London, 0) == [Segment(480, 1020)];
    assert SessionBar(London, 1) == [Segment(540, 1080)];
  }

  /**
   * For a zone off the whole hour the bars and the marker disagree. The bars use
   * the rounded offset, and the marker uses the zone's own clock. In Kolkata
   * (UTC+5:30), at 08:10 UTC London is open and the marker reads 13:40. The bars,
   * shifted by the rounded offset 6, do not cover 13:40, though they cover 14:10.
   */
  lemma HalfHourZoneMarkerMisses()
    ensures IsOpenAt(London, 8)
    ensures !Covers(SessionBar(London, 6), MinuteOfDay(13, 40))
    ensures Covers(SessionBar(London, 6), MinuteOfDay(ShiftHour(8, 6), 10))
  {
    assert SessionBar(London, 6) == [Segment(840, 1380)];
    assert SessionBar(London, 6)[0].startMin <= MinuteOfDay(14, 10) < SessionBar(London, 6)[0].endMin;
  }

  /**
   * A session with equal start and end draws as one empty segment covering nothing,
   * while the calculator reports it open at every hour.
   */
  lemma EqualBoundsDrawNothing(s: Session, tzOffset: int, hour: Hour)
    requires s.start == s.end
    ensures TotalWidth(SessionBar(s, tzOffset)) == 0
    ensures forall m :: !Covers(SessionBar(s, tzOffset), m)
    ensures IsOpenAt(s, hour)
  {
    var bar := SessionBar(s, tzOffset);
    assert |bar| == 1 && bar[0].startMin == bar[0].endMin;
    assert TotalWidth(bar) == bar[0].Width() + TotalWidth(bar[1..]);
  }
}
