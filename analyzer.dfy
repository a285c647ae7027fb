/**
 * The `BiogasAnalyzer` object: the per-tank curves loaded at construction,
 * the allocation of a day's gas among the tanks, and the upsert and reset
 * of the cumulative log. Both copies of the analyzer (the one that keeps
 * logs on local files and the one that keeps them in a remote JSON store)
 * are this one engine: the storage is a `LogStore`, and what a read of the
 * log produced is an input.
 */
module Analyzer {
  import opened Wrappers
  import opened Calendar
  import opened CumulativeLog
  import opened YieldCurve
  import opened Split

  /** One tank's entry in the result: `day`, `normalized`, `start_date`, `stage` and `volume`. */
  datatype TankRecord = TankRecord(day: int, normalized: real, startDate: string, stage: Stage, volume: real)

  /** A tank of `start_dates` for which no curve was loaded (a `KeyError` in the source). */
  datatype AnalyzeError = MissingCurve(tank: TankId)

  predicate AllCurves(curves: map<TankId, CurveDoc>, startDates: seq<(TankId, Date)>) {
    forall i :: 0 <= i < |startDates| ==> startDates[i].0 in curves
  }

  /** What the analysis records for a tank before its volume is known. */
  function Entry(doc: CurveDoc, start: Date, today: Date, volume: real): TankRecord {
    var day := DayIndex(start, today);
    var looked := Lookup(YieldList(doc), day);
    TankRecord(day, looked.0, Iso(start), looked.1, volume)
  }

  /** The tanks' normalized values, in the order of `start_dates`. */
  function Norms(curves: map<TankId, CurveDoc>, startDates: seq<(TankId, Date)>, today: Date): (r: seq<real>)
    requires AllCurves(curves, startDates)
    ensures |r| == |startDates|
  {
    seq(|startDates|, i requires 0 <= i < |startDates| =>
      Lookup(YieldList(curves[startDates[i].0]), DayIndex(startDates[i].1, today)).0)
  }

  /** The records of the first pass, before the volumes are set. */
  function Pending(curves: map<TankId, CurveDoc>, startDates: seq<(TankId, Date)>, today: Date): (r: seq<(TankId, TankRecord)>)
    requires AllCurves(curves, startDates)
    ensures |r| == |startDates|
  {
    if startDates == [] then []
    else
      var n := |startDates| - 1;
      assert AllCurves(curves, startDates[..n]) by {
        assert forall j :: 0 <= j < n ==> startDates[..n][j] == startDates[j];
      }
      Pending(curves, startDates[..n], today) + [(startDates[n].0, Entry(curves[startDates[n].0], startDates[n].1, today, 0.0))]
  }

  /** The result of `analyze` when every tank has a curve and the day's gas is `total`. */
  function Allocation(curves: map<TankId, CurveDoc>, startDates: seq<(TankId, Date)>, today: Date, total: real)
    : (r: seq<(TankId, TankRecord)>)
    requires AllCurves(curves, startDates)
    ensures |r| == |startDates|
  {
    var volumes := Volumes(Norms(curves, startDates, today), total);
    seq(|startDates|, i requires 0 <= i < |startDates| =>
      (startDates[i].0, Entry(curves[startDates[i].0], startDates[i].1, today, volumes[i])))
  }

  function VolumeColumn(rows: seq<(TankId, TankRecord)>): (r: seq<real>)
    ensures |r| == |rows|
  {
    seq(|rows|, i requires 0 <= i < |rows| => rows[i].1.volume)
  }

  // ------------------------------------------------------- proof steps

  lemma PendingStep(curves: map<TankId, CurveDoc>, startDates: seq<(TankId, Date)>, today: Date, i: int)
    requires 0 <= i < |startDates| && AllCurves(curves, startDates[..i]) && startDates[i].0 in curves
    ensures AllCurves(curves, startDates[..i + 1])
    ensures Pending(curves, startDates[..i + 1], today)
         == Pending(curves, startDates[..i], today)
            + [(startDates[i].0, Entry(curves[startDates[i].0], startDates[i].1, today, 0.0))]
    ensures Sum(Norms(curves, startDates[..i + 1], today))
         == Sum(Norms(curves, startDates[..i], today))
            + Entry(curves[startDates[i].0], startDates[i].1, today, 0.0).normalized
  {
    assert startDates[..i + 1][..i] == startDates[..i];
    assert forall j :: 0 <= j < i ==> startDates[..i + 1][j] == startDates[..i][j];
    assert Norms(curves, startDates[..i + 1], today)[..i] == Norms(curves, startDates[..i], today);
  }

  lemma {:induction false} PendingAt(curves: map<TankId, CurveDoc>, startDates: seq<(TankId, Date)>, today: Date, j: int)
    requires AllCurves(curves, startDates) && 0 <= j < |startDates|
    ensures Pending(curves, startDates, today)[j]
         == (startDates[j].0, Entry(curves[startDates[j].0], startDates[j].1, today, 0.0))
  {
    var n := |startDates| - 1;
    if j < n {
      assert startDates[..n][j] == startDates[j];
      assert AllCurves(curves, startDates[..n]) by {
        assert forall k :: 0 <= k < n ==> startDates[..n][k] == startDates[k];
      }
      PendingAt(curves, startDates[..n], today, j);
    }
  }

  lemma NormAt(curves: map<TankId, CurveDoc>, startDates: seq<(TankId, Date)>, today: Date, j: int)
    requires AllCurves(curves, startDates) && 0 <= j < |startDates|
    ensures Entry(curves[startDates[j].0], startDates[j].1, today, 0.0).normalized == Norms(curves, startDates, today)[j]
  {
  }

  lemma EntryVolume(doc: CurveDoc, start: Date, today: Date, volume: real)
    ensures Entry(doc, start, today, 0.0).(volume := volume) == Entry(doc, start, today, volume)
  {
  }

  lemma VolumeAt(norms: seq<real>, total: real, i: int)
    requires 0 <= i < |norms|
    ensures Volumes(norms, total)[i] == Volume(norms[i], Sum(norms), total)
  {
  }

  // ------------------------------------------------ what the result means

  /**
   * Each record holds its tank's id, its day index counted from the start
   * date, the start date as `YYYY-MM-DD`, and the normalized value and stage
   * of the three-way lookup: nothing before day 1, nothing past the curve's
   * end, the curve's entry and the band table otherwise. Its volume is its
   * value's share of the day's gas rounded to hundredths, or 0 when the
   * values do not sum to a positive number.
   */
  lemma AllocationRecord(curves: map<TankId, CurveDoc>, startDates: seq<(TankId, Date)>, today: Date, total: real, i: int)
    requires AllCurves(curves, startDates) && 0 <= i < |startDates|
    ensures var rec := Allocation(curves, startDates, today, total)[i].1;
      var curve := YieldList(curves[startDates[i].0]);
      && Allocation(curves, startDates, today, total)[i].0 == startDates[i].0
      && rec.day == Ordinal(today) - Ordinal(startDates[i].1) + 1
      && rec.startDate == Iso(startDates[i].1)
      && (rec.day < 1 ==> rec.normalized == 0.0 && rec.stage == NotStarted(-rec.day))
      && (rec.day > |curve| && rec.day >= 1 ==> rec.normalized == 0.0 && rec.stage == Finished(rec.day - |curve|))
      && (1 <= rec.day <= |curve| ==> rec.normalized == curve[rec.day - 1] && rec.stage == GetStage(rec.day))
      && rec.volume == Volume(rec.normalized, Sum(Norms(curves, startDates, today)), total)
  {
    var rec := Allocation(curves, startDates, today, total)[i].1;
    LookupCases(YieldList(curves[startDates[i].0]), rec.day);
  }

  /**
   * When the normalized values have a positive sum, the unrounded shares add
   * up to exactly the day's gas, and the rounded volumes miss it by at most
   * half a hundredth per tank.
   */
  lemma AllocationConserves(curves: map<TankId, CurveDoc>, startDates: seq<(TankId, Date)>, today: Date, total: real)
    requires AllCurves(curves, startDates)
    requires Sum(Norms(curves, startDates, today)) > 0.0
    ensures Sum(Shares(Norms(curves, startDates, today), total)) == total
    ensures var sum := Sum(VolumeColumn(Allocation(curves, startDates, today, total)));
      -0.005 * |startDates| as real <= sum - total <= 0.005 * |startDates| as real
  {
    var norms := Norms(curves, startDates, today);
    SharesConserve(norms, total);
    VolumesNearTotal(norms, total);
    assert VolumeColumn(Allocation(curves, startDates, today, total)) == Volumes(norms, total);
  }

  /** Without a positive yield signal every tank gets 0, whatever the day's gas. */
  lemma AllocationZeroSignal(curves: map<TankId, CurveDoc>, startDates: seq<(TankId, Date)>, today: Date, total: real)
    requires AllCurves(curves, startDates)
    requires Sum(Norms(curves, startDates, today)) <= 0.0
    ensures forall i :: 0 <= i < |startDates| ==> Allocation(curves, startDates, today, total)[i].1.volume == 0.0
  {
    ZeroSignal(Norms(curves, startDates, today), total);
  }

  /** With non-negative curves, no tank is allocated a negative volume. */
  lemma AllocationNonNegative(curves: map<TankId, CurveDoc>, startDates: seq<(TankId, Date)>, today: Date, total: real)
    requires AllCurves(curves, startDates) && total >= 0.0
    requires forall t, k :: t in curves && 0 <= k < |YieldList(curves[t])| ==> YieldList(curves[t])[k] >= 0.0
    ensures forall i :: 0 <= i < |startDates| ==> Allocation(curves, startDates, today, total)[i].1.volume >= 0.0
  {
    var norms := Norms(curves, startDates, today);
    forall i | 0 <= i < |startDates|
      ensures norms[i] >= 0.0
    {
      LookupNonNegative(YieldList(curves[startDates[i].0]), DayIndex(startDates[i].1, today));
    }
    if Sum(norms) > 0.0 {
      SharesNonNegative(norms, total);
    } else {
      ZeroSignal(norms, total);
    }
  }

  class BiogasAnalyzer {
    /** The curve document loaded for each tank. */
    var curves: map<TankId, CurveDoc>

    /** Loads one curve document per tank of `curveDocs`. */
    constructor (curveDocs: map<TankId, CurveDoc>)
      ensures curves == curveDocs
    {
      var loaded: map<TankId, CurveDoc> := map[];
      var pending := curveDocs.Keys;
      while pending != {}
        invariant pending <= curveDocs.Keys
        invariant loaded.Keys == curveDocs.Keys - pending
        invariant forall t :: t in loaded ==> loaded[t] == curveDocs[t]
        decreases pending
      {
        var tank :| tank in pending;
        loaded := loaded[tank := curveDocs[tank]];
        pending := pending - {tank};
      }
      curves := loaded;
    }

    /**
     * Splits the day's gas among the tanks of `startDates` (the items of the
     * source's `start_dates`, in order). `log` is what reading the cumulative
     * log produced: None when no log path was given, the file does not exist
     * or the remote read raised.
     */
    method Analyze(startDates: seq<(TankId, Date)>, today: Date, totalGas: real, log: Option<Log>, isCumulative: bool)
      returns (r: Result<seq<(TankId, TankRecord)>, AnalyzeError>)
      ensures r.Failure? <==> !AllCurves(curves, startDates)
      ensures r.Failure? ==> exists i :: (0 <= i < |startDates| && r.error == MissingCurve(startDates[i].0)
        && startDates[i].0 !in curves && AllCurves(curves, startDates[..i]))
      ensures r.Success? ==>
        r.value == Allocation(curves, startDates, today, TodayTotal(totalGas, Baseline(log, Iso(today), isCumulative)))
    {
      var lastCumulative := ResolveBaseline(log, Iso(today), isCumulative);
      var totalGasToday := TodayTotal(totalGas, lastCumulative);

      var result: seq<(TankId, TankRecord)> := [];
      var normSum := 0.0;
      var i := 0;
      while i < |startDates|
        invariant 0 <= i <= |startDates|
        invariant AllCurves(curves, startDates[..i])
        invariant result == Pending(curves, startDates[..i], today)
        invariant normSum == Sum(Norms(curves, startDates[..i], today))
      {
        var (tank, startDate) := startDates[i];
        if tank !in curves {
          assert startDates[i].0 !in curves && AllCurves(curves, startDates[..i]);
          return Failure(MissingCurve(tank));
        }
        // the record has no volume yet; the second pass sets it
        var record := Entry(curves[tank], startDate, today, 0.0);
        result := result + [(tank, record)];
        PendingStep(curves, startDates, today, i);
        normSum := normSum + record.normalized;
        i := i + 1;
      }
      assert startDates[..i] == startDates;
      ghost var entries := result;
      ghost var norms := Norms(curves, startDates, today);
      ghost var volumes := Volumes(norms, totalGasToday);

      i := 0;
      while i < |result|
        invariant 0 <= i <= |result| == |entries| == |startDates|
        invariant forall j :: 0 <= j < i ==> result[j] == (entries[j].0, entries[j].1.(volume := volumes[j]))
        invariant forall j :: i <= j < |result| ==> result[j] == entries[j]
      {
        var norm := result[i].1.normalized;
        PendingAt(curves, startDates, today, i);
        NormAt(curves, startDates, today, i);
        var volume := Volume(norm, normSum, totalGasToday);
        VolumeAt(norms, totalGasToday, i);
        result := result[i := (result[i].0, result[i].1.(volume := volume))];
        i := i + 1;
      }

      forall j | 0 <= j < |startDates|
        ensures result[j] == Allocation(curves, startDates, today, totalGasToday)[j]
      {
        PendingAt(curves, startDates, today, j);
        EntryVolume(curves[startDates[j].0], startDates[j].1, today, volumes[j]);
      }
      r := Success(result);
    }

    /**
     * Records today's cumulative reading. `readOk` is false when the read
     * produced no stored log: the local file does not exist, the read raised,
     * the remote store answered with a status other than 200, or the document
     * was malformed or not a JSON object (the remote reader returns `{}` for
     * the last three). The upsert then
     * starts from the empty log and the write replaces whatever was stored.
     * `writeOk` is false when the store rejects the write, which the caller
     * does not see.
     */
    method UpdateCumulativeLog(store: LogStore, today: string, gasValue: real, readOk: bool, writeOk: bool)
      returns (r: Log)
      modifies store
      ensures r == Upsert(if readOk then old(store.stored) else map[], today, gasValue)
      ensures store.stored == if writeOk then r else old(store.stored)
    {
      var cumulativeData: Log;
      if readOk {
        cumulativeData := store.stored;
      } else {
        cumulativeData := map[];
      }
      cumulativeData := cumulativeData[today := gasValue];
      if writeOk {
        store.stored := cumulativeData;
      }
      r := cumulativeData;
    }

    /** Empties the stored log and returns the empty log. */
    method ResetCumulativeLog(store: LogStore, writeOk: bool) returns (r: Log)
      modifies store
      ensures r == map[]
      ensures store.stored == if writeOk then map[] else old(store.stored)
    {
      if writeOk {
        store.stored := map[];
      }
      r := map[];
    }
  }
}
