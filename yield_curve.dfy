/**
 * A tank's normalized yield curve and where a day falls on it: the day
 * index counted from the tank's start date, the curve value for that day,
 * and the stage label of the fixed day-band table.
 */
module YieldCurve {
  import opened Wrappers
  import opened StringOrder
  import opened Calendar

  type TankId = string

  /** A loaded curve document; only its `normalized_yield` array is used. */
  datatype CurveDoc = CurveDoc(normalizedYield: Option<seq<real>>)

  /** `curve.get("normalized_yield", [])`: index 0 holds day 1. */
  function YieldList(doc: CurveDoc): seq<real> {
    doc.normalizedYield.GetOr([])
  }

  /** The stage labels; the counts are the days early or the days past the protocol. */
  datatype Stage =
    | NotStarted(daysEarly: nat)
    | Initial
    | Rising
    | Plateau
    | Decline
    | Finished(daysOver: nat)

  /** Position of a stage on the fermentation timeline. */
  function Rank(s: Stage): nat {
    match s
    case NotStarted(_) => 0
    case Initial => 1
    case Rising => 2
    case Plateau => 3
    case Decline => 4
    case Finished(_) => 5
  }

  /** `_get_stage`: the band table, first match in ascending order. */
  function GetStage(day: int): Stage {
    if day <= 3 then Initial
    else if day <= 6 then Rising
    else if day <= 9 then Plateau
    else if day <= 14 then Decline
    else Finished(day - 14)
  }

  /**
   * The bands: days up to 3 initial, 4 to 6 rising, 7 to 9 plateau, 10 to
   * 14 decline, and past 14 finished with the days past day 14 as count.
   */
  lemma StageBands(day: int)
    ensures GetStage(day) == Initial <==> day <= 3
    ensures GetStage(day) == Rising <==> 4 <= day <= 6
    ensures GetStage(day) == Plateau <==> 7 <= day <= 9
    ensures GetStage(day) == Decline <==> 10 <= day <= 14
    ensures GetStage(day).Finished? <==> day > 14
    ensures day > 14 ==> GetStage(day) == Finished(day - 14)
    ensures !GetStage(day).NotStarted?
  {
  }

  /** A later day never has an earlier stage. */
  lemma StageMonotone(d1: int, d2: int)
    requires d1 <= d2
    ensures Rank(GetStage(d1)) <= Rank(GetStage(d2))
  {
  }

  /** `(today - start_date).days + 1`: the start date is day 1. */
  function DayIndex(start: Date, today: Date): int {
    Ordinal(today) - Ordinal(start) + 1
  }

  /**
   * The normalized value and stage of `day` on `curve`: nothing before
   * day 1, nothing past the end of the curve, and otherwise the curve value
   * with the stage of the band table.
   */
  function Lookup(curve: seq<real>, day: int): (r: (real, Stage)) {
    if day < 1 then (0.0, NotStarted(-day))
    else if day > |curve| then (0.0, Finished(day - |curve|))
    else (curve[day - 1], GetStage(day))
  }

  /**
   * The three cases of the lookup: before day 1 the value is 0 and the
   * stage counts the days early; past the curve's end the value is 0 and
   * the stage counts the days past it; otherwise the value is the curve's
   * entry for the day and the stage is the band table's.
   */
  lemma LookupCases(curve: seq<real>, day: int)
    ensures day < 1 ==> Lookup(curve, day) == (0.0, NotStarted(-day))
    ensures day > |curve| && day >= 1 ==> Lookup(curve, day) == (0.0, Finished(day - |curve|))
    ensures 1 <= day <= |curve| ==> Lookup(curve, day) == (curve[day - 1], GetStage(day))
    ensures Lookup(curve, day).0 != 0.0 ==> 1 <= day <= |curve|
  {
  }

  /** The value a day reads off its curve is non-negative when the curve is. */
  lemma LookupNonNegative(curve: seq<real>, day: int)
    requires forall i :: 0 <= i < |curve| ==> curve[i] >= 0.0
    ensures Lookup(curve, day).0 >= 0.0
  {
  }

  /**
   * A tank has started exactly when its start date, written as `YYYY-MM-DD`,
   * does not sort after today's: the day index is then at least 1.
   */
  lemma StartedIffNotLater(start: Date, today: Date)
    ensures DayIndex(start, today) >= 1 <==> !Less(Iso(today), Iso(start))
    ensures DayIndex(start, today) == 1 <==> start == today
  {
    IsoOrder(today, start);
    OrdinalOrder(today, start);
  }

  /**
   * A tank whose start date lies `k` days after today is reported as
   * `k - 1` days early: its day index is `1 - k`.
   */
  lemma EarlyCount(curve: seq<real>, start: Date, today: Date)
    requires Ordinal(start) > Ordinal(today)
    ensures Lookup(curve, DayIndex(start, today)) == (0.0, NotStarted(Ordinal(start) - Ordinal(today) - 1))
  {
  }

  /**
   * With a curve longer than 15 days, the reported days past the protocol
   * fall back from `|curve| - 14` on the curve's last day to 1 on the day
   * after: the band table counts from day 14, the range check from the
   * curve's end.
   */
  lemma OvershootRestarts(curve: seq<real>)
    requires |curve| > 15
    ensures Lookup(curve, |curve|).1 == Finished(|curve| - 14)
    ensures Lookup(curve, |curve| + 1).1 == Finished(1)
  {
  }

  /** Curve [0.1, 0.2, 0.4, 0.2, 0.1] started 2025-01-01, analyzed 2025-01-03: day 3, value 0.4, initial phase. */
  lemma LookupExample()
    ensures DayIndex(Ymd(2025, 1, 1), Ymd(2025, 1, 3)) == 3
    ensures Lookup([0.1, 0.2, 0.4, 0.2, 0.1], 3) == (0.4, Initial)
  {
  }

  /** A tank that starts two days after the day analyzed: day -1, one day early. */
  lemma NotStartedExample()
    ensures DayIndex(Ymd(2025, 1, 5), Ymd(2025, 1, 3)) == -1
    ensures Lookup([0.1, 0.2, 0.4, 0.2, 0.1], -1) == (0.0, NotStarted(1))
  {
  }
}
