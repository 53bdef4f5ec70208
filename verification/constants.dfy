/** The static session table and kill-zone window of constants.ts. */
module Constants {

  /**
   * One trading-session definition: a name (also the UI's key and selection id),
   * start and end hours, and a display colour token.
   */
  datatype Session = Session(name: string, start: int, end: int, color: string)

  /** A half-open hour window `[start, end)` that never wraps. */
  datatype HourWindow = HourWindow(start: int, end: int)

  const Sydney := Session("Sydney", 22, 7, "#0ea5e9")
  const Tokyo := Session("Tokyo", 0, 9, "#facc15")
  const London := Session("London", 8, 17, "#22c55e")
  const NewYork := Session("New York", 13, 22, "#ef4444")

  /** The session table, in the order every consumer iterates it. */
  const SessionTable: seq<Session> := [Sydney, Tokyo, London, NewYork]

  /** The kill zone, documented as Lagos time. */
  const KillZone := HourWindow(14, 17)

  /** An hour bound as `Date.getHours()` produces it. */
  predicate IsHourOfDay(h: int) {
    0 <= h < 24
  }

  /** A session wraps past midnight when its start is after its end. */
  predicate Wraps(s: Session) {
    s.start > s.end
  }

  /** Every start and end hour of the table is an hour of the day. */
  lemma TableHoursInRange()
    ensures forall i :: 0 <= i < |SessionTable| ==>
      IsHourOfDay(SessionTable[i].start) && IsHourOfDay(SessionTable[i].end)
  {
  }

  /** Session names are pairwise distinct, so they can serve as keys. */
  lemma TableNamesDistinct()
    ensures forall i, j :: 0 <= i < j < |SessionTable| ==> SessionTable[i].name != SessionTable[j].name
  {
  }

  /** Sydney is the one and only session that wraps past midnight. */
  lemma OnlySydneyWraps()
    ensures forall i :: 0 <= i < |SessionTable| ==> (Wraps(SessionTable[i]) <==> SessionTable[i].name == "Sydney")
  {
  }

  /** The kill zone is a non-empty, non-wrapping window of hours of the day. */
  lemma KillZoneWellFormed()
    ensures KillZone.start < KillZone.end
    ensures IsHourOfDay(KillZone.start) && IsHourOfDay(KillZone.end)
  {
  }
}
