/**
 * The cumulative gas log: a JSON object from `YYYY-MM-DD` keys to the
 * cumulative total read on that day. The analyzer uses the entry at the
 * latest key strictly before the day being analyzed as its baseline, and
 * records each day's reading with an upsert.
 */
module CumulativeLog {
  import opened Wrappers
  import opened StringOrder
  import opened Calendar

  type Log = map<string, real>

  /** Some key sorts strictly before `bound`. */
  ghost predicate HasPrior(keys: set<string>, bound: string) {
    exists k :: k in keys && Less(k, bound)
  }

  /** `k` is the greatest key that sorts strictly before `bound` (Python's `max` of the earlier keys). */
  ghost predicate IsLatestBefore(keys: set<string>, bound: string, k: string) {
    && k in keys
    && Less(k, bound)
    && forall k' :: k' in keys && Less(k', bound) ==> k' == k || Less(k', k)
  }

  lemma {:induction false} LatestExists(keys: set<string>, bound: string)
    requires HasPrior(keys, bound)
    ensures exists k :: IsLatestBefore(keys, bound, k)
    decreases keys
  {
    var x :| x in keys && Less(x, bound);
    var rest := keys - {x};
    if HasPrior(rest, bound) {
      LatestExists(rest, bound);
      var m :| IsLatestBefore(rest, bound, m);
      Total(x, m);
      if Less(m, x) {
        forall k' | k' in keys && Less(k', bound)
          ensures k' == x || Less(k', x)
        {
          if k' != x {
            assert k' == m || Less(k', m);
            if k' != m {
              Transitive(k', m, x);
            }
          }
        }
        assert IsLatestBefore(keys, bound, x);
      } else {
        assert IsLatestBefore(keys, bound, m);
      }
    } else {
      assert IsLatestBefore(keys, bound, x);
    }
  }

  lemma LatestUnique(keys: set<string>, bound: string, k1: string, k2: string)
    requires IsLatestBefore(keys, bound, k1) && IsLatestBefore(keys, bound, k2)
    ensures k1 == k2
  {
    if k1 != k2 {
      Asymmetric(k1, k2);
    }
  }

  /** The latest key strictly before `bound`, or None when no key is earlier. */
  ghost function LatestBefore(keys: set<string>, bound: string): (r: Option<string>)
    ensures r.None? <==> !HasPrior(keys, bound)
    ensures r.Some? ==> IsLatestBefore(keys, bound, r.value)
  {
    if HasPrior(keys, bound) then
      LatestExists(keys, bound);
      Some(var k :| IsLatestBefore(keys, bound, k); k)
    else
      None
  }

  /**
   * The baseline of cumulative mode: the value logged at the latest date
   * strictly before `today`, and 0 when cumulative mode is off, no log could
   * be read (`None`), or the log has no earlier date.
   */
  ghost function Baseline(log: Option<Log>, today: string, isCumulative: bool): real {
    if isCumulative && log.Some? then
      match LatestBefore(log.value.Keys, today)
      case Some(k) => log.value[k]
      case None => 0.0
    else
      0.0
  }

  /**
   * Python's `max(d for d in log if d < today)`, guarded by the emptiness
   * test of the source: one pass that keeps the greatest earlier key so far.
   */
  method FindLatestBefore(log: Log, today: string) returns (r: Option<string>)
    ensures r == LatestBefore(log.Keys, today)
  {
    r := None;
    var pending := log.Keys;
    while pending != {}
      invariant pending <= log.Keys
      invariant r.None? ==> forall k :: k in log.Keys - pending ==> !Less(k, today)
      invariant r.Some? ==> IsLatestBefore(log.Keys - pending, today, r.value)
      decreases pending
    {
      var d :| d in pending;
      ghost var seen := log.Keys - pending;
      if Less(d, today) && (r.None? || Less(r.value, d)) {
        if r.Some? {
          forall k' | k' in seen && Less(k', today)
            ensures Less(k', d)
          {
            if k' != r.value {
              Transitive(k', r.value, d);
            }
          }
        }
        r := Some(d);
      } else if Less(d, today) {
        Total(d, r.value);
      }
      pending := pending - {d};
    }
    assert log.Keys - pending == log.Keys;
    if r.Some? {
      LatestUnique(log.Keys, today, r.value, LatestBefore(log.Keys, today).value);
    }
  }

  /**
   * The baseline read of `analyze`: the value at `max` of the earlier keys
   * when cumulative mode is on and a log was read, and 0.0 otherwise.
   */
  method ResolveBaseline(log: Option<Log>, today: string, isCumulative: bool) returns (lastCumulative: real)
    ensures lastCumulative == Baseline(log, today, isCumulative)
  {
    lastCumulative := 0.0;
    if isCumulative && log.Some? {
      var lastDay := FindLatestBefore(log.value, today);
      if lastDay.Some? {
        lastCumulative := log.value[lastDay.value];
      }
    }
  }

  /** `log[day] = value`: the day's reading replaces any earlier one for that day. */
  function Upsert(log: Log, day: string, value: real): (r: Log)
    ensures day in r && r[day] == value
    ensures r.Keys == log.Keys + {day}
    ensures forall k :: k in log && k != day ==> r[k] == log[k]
  {
    log[day := value]
  }

  /** Recording the same day twice keeps only the second reading. */
  lemma UpsertLastWriteWins(log: Log, day: string, first: real, second: real)
    ensures Upsert(Upsert(log, day, first), day, second) == Upsert(log, day, second)
  {
  }

  /**
   * A reading recorded for `day` is the baseline of every later date for
   * which no logged key falls between `day` and that date: in particular
   * of the next day analyzed when the log is appended in date order.
   */
  lemma UpsertThenBaseline(log: Log, day: string, value: real, later: string)
    requires Less(day, later)
    requires forall k :: k in log && Less(k, later) ==> k == day || Less(k, day)
    ensures Baseline(Some(Upsert(log, day, value)), later, true) == value
  {
    var after := Upsert(log, day, value);
    assert IsLatestBefore(after.Keys, later, day);
    LatestUnique(after.Keys, later, day, LatestBefore(after.Keys, later).value);
  }

  /** With cumulative mode off, or without a readable log, the baseline is 0. */
  lemma BaselineWithoutLog(log: Option<Log>, today: string, isCumulative: bool)
    requires !isCumulative || log.None?
    ensures Baseline(log, today, isCumulative) == 0.0
  {
  }

  /** A log with no key before `today` (the empty log included) gives baseline 0. */
  lemma BaselineWithoutPrior(log: Log, today: string, isCumulative: bool)
    requires forall k :: k in log ==> !Less(k, today)
    ensures Baseline(Some(log), today, isCumulative) == 0.0
  {
  }

  /**
   * For a log keyed by dates, the baseline is the value of the latest
   * logged date that is strictly earlier, in the calendar, than `today`.
   */
  lemma {:induction false} BaselineOfDatedLog(log: Log, today: Date, latest: Date)
    requires forall k :: k in log ==> exists d: Date :: k == Iso(d)
    requires Iso(latest) in log && Ordinal(latest) < Ordinal(today)
    requires forall d: Date :: Iso(d) in log && Ordinal(d) < Ordinal(today) ==> Ordinal(d) <= Ordinal(latest)
    ensures Baseline(Some(log), Iso(today), true) == log[Iso(latest)]
  {
    IsoOrder(latest, today);
    forall k | k in log && Less(k, Iso(today))
      ensures k == Iso(latest) || Less(k, Iso(latest))
    {
      var d: Date :| k == Iso(d);
      IsoOrder(d, today);
      IsoOrder(d, latest);
    }
    assert IsLatestBefore(log.Keys, Iso(today), Iso(latest));
    LatestUnique(log.Keys, Iso(today), Iso(latest), LatestBefore(log.Keys, Iso(today)).value);
  }

  /** Of two keys before `today`, the later one gives the baseline. */
  lemma BaselineOfTwo(a: string, va: real, b: string, vb: real, today: string)
    requires Less(a, b) && Less(b, today)
    ensures Baseline(Some(map[a := va, b := vb]), today, true) == vb
  {
    var log := map[a := va, b := vb];
    Asymmetric(a, b);
    assert log.Keys == {a, b};
    assert IsLatestBefore(log.Keys, today, b);
    LatestUnique(log.Keys, today, b, LatestBefore(log.Keys, today).value);
  }

  /** Cumulative log {2025-01-01: 1000, 2025-01-02: 1500} analyzed on 2025-01-03: the baseline is 1500. */
  lemma BaselineExample()
    ensures Baseline(Some(map["2025-01-01" := 1000.0, "2025-01-02" := 1500.0]), "2025-01-03", true) == 1500.0
  {
    LessAt("2025-01-01", "2025-01-02", 9);
    LessAt("2025-01-02", "2025-01-03", 9);
    BaselineOfTwo("2025-01-01", 1000.0, "2025-01-02", 1500.0, "2025-01-03");
  }

  /**
   * `max(total_gas - last_cumulative, 0)`: the day's own production. It is
   * never negative, and it is the whole difference whenever that is positive.
   */
  function TodayTotal(totalGas: real, baseline: real): (r: real)
    ensures r >= 0.0 && r >= totalGas - baseline
    ensures r == totalGas - baseline || r == 0.0
  {
    if totalGas - baseline > 0.0 then totalGas - baseline else 0.0
  }

  /**
   * Recording a cumulative reading and then analyzing a later reading turns
   * the later one into the increment since the recorded one.
   */
  lemma IncrementAfterRecording(log: Log, day: string, recorded: real, later: string, reading: real)
    requires Less(day, later)
    requires forall k :: k in log && Less(k, later) ==> k == day || Less(k, day)
    ensures TodayTotal(reading, Baseline(Some(Upsert(log, day, recorded)), later, true))
         == if reading > recorded then reading - recorded else 0.0
  {
    UpsertThenBaseline(log, day, recorded, later);
  }

  /** With that log, a reading of 1800 on 2025-01-03 is 300 of new gas. */
  lemma IncrementExample()
    ensures TodayTotal(1800.0, Baseline(Some(map["2025-01-01" := 1000.0, "2025-01-02" := 1500.0]), "2025-01-03", true)) == 300.0
  {
    BaselineExample();
  }

  /** Where the log lives; a path holding no document reads as the empty log. */
  class LogStore {
    var stored: Log

    constructor (initial: Log)
      ensures stored == initial
    {
      stored := initial;
    }
  }
}
