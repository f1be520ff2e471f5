/**
  The usage query over a span of the live graph (the live agent's onselect): a scan over
  the stored readings that adds up how much electricity was used between the two ends
  of the span the user dragged out, and the summary reported for it.
 */
module SpanQuery {
  import opened Wrappers
  import opened Numerals

  /** A timestamp, in whole seconds. */
  type Instant = int

  const SecondsPerDay: int := 86400

  /** One second expressed in hours. */
  const OneSecond: real := 1.0 / 3600.0

  /**
    timedelta.seconds of the difference b - a: the seconds part only, with whole days
    dropped, and for a negative difference the remainder counted up from the day before.
   */
  function DeltaSeconds(a: Instant, b: Instant): (s: nat)
    ensures s < SecondsPerDay
    ensures 0 <= b - a < SecondsPerDay ==> s == b - a
    ensures (b - a - s) % SecondsPerDay == 0
  {
    (b - a) % SecondsPerDay
  }

  /** The energy (kWh) of reading i held until reading i + 1 arrived. */
  function IntervalUsage(dates: seq<Instant>, readings: seq<real>, i: nat): real
    requires i + 1 < |dates| && |dates| == |readings|
  {
    (DeltaSeconds(dates[i], dates[i + 1]) as real) * OneSecond * readings[i]
  }

  /** The loop's variables when it ends: the last reading before the span, the last
      reading inside it (both None when there was none), and the usage accumulated. */
  datatype Scan = Scan(loReading: Option<nat>, hiReading: Option<nat>, total: real)

  /** The exceptions that can end a span query. */
  datatype SpanFault = IndexError | ValueError

  /** What the summary dialog reports. */
  datatype SpanReport =
    | NoUsage(since: Instant, until: Instant)
    | Usage(since: Instant, until: Instant, kwh: real)
    | UsageAndCost(since: Instant, until: Instant, kwh: real, cost: real)

  /** The loop processes reading i unless it lies at or after both ends of the span. */
  predicate Processed(t: Instant, datelo: Instant, datehi: Instant) {
    t < datelo || t < datehi
  }

  /** Where the scan stops: the first reading from position i on that the loop breaks
      at, or |dates| when it reaches the end. */
  function StopFrom(dates: seq<Instant>, datelo: Instant, datehi: Instant, i: nat): (k: nat)
    requires i <= |dates|
    ensures i <= k <= |dates|
    ensures forall j :: i <= j < k ==> Processed(dates[j], datelo, datehi)
    ensures k < |dates| ==> !Processed(dates[k], datelo, datehi)
    decreases |dates| - i
  {
    if i == |dates| || !Processed(dates[i], datelo, datehi) then i
    else StopFrom(dates, datelo, datehi, i + 1)
  }

  function StopAt(dates: seq<Instant>, datelo: Instant, datehi: Instant): nat
  {
    StopFrom(dates, datelo, datehi, 0)
  }

  /** The last position before k whose reading is before the span. */
  function LastBefore(dates: seq<Instant>, datelo: Instant, k: nat): (r: Option<nat>)
    requires k <= |dates|
    ensures r.Some? ==> r.value < k && dates[r.value] < datelo &&
                        forall j :: r.value < j < k ==> dates[j] >= datelo
    ensures r.None? ==> forall j :: 0 <= j < k ==> dates[j] >= datelo
  {
    if k == 0 then None
    else if dates[k - 1] < datelo then Some(k - 1)
    else LastBefore(dates, datelo, k - 1)
  }

  /** The last position before k whose reading is not before the span. */
  function LastNotBefore(dates: seq<Instant>, datelo: Instant, k: nat): (r: Option<nat>)
    requires k <= |dates|
    ensures r.Some? ==> r.value < k && dates[r.value] >= datelo &&
                        forall j :: r.value < j < k ==> dates[j] < datelo
    ensures r.None? ==> forall j :: 0 <= j < k ==> dates[j] < datelo
  {
    if k == 0 then None
    else if dates[k - 1] >= datelo then Some(k - 1)
    else LastNotBefore(dates, datelo, k - 1)
  }

  /** The total after the loop has processed the first k readings: a reading before the
      span replaces the total with its own interval's usage, a reading in the span adds
      its interval's usage. */
  function Accumulated(dates: seq<Instant>, readings: seq<real>, datelo: Instant, k: nat): real
    requires |dates| == |readings| && (k == 0 || k < |dates|)
  {
    if k == 0 then 0.0
    else if dates[k - 1] < datelo then IntervalUsage(dates, readings, k - 1)
    else Accumulated(dates, readings, datelo, k - 1) + IntervalUsage(dates, readings, k - 1)
  }

  /** What the loop of onselect leaves behind, or the IndexError it raises when it
      processes the last reading (which has no following reading to measure up to). */
  function ScanSpec(dates: seq<Instant>, readings: seq<real>, datelo: Instant, datehi: Instant): Result<Scan, SpanFault>
    requires |dates| == |readings|
  {
    var k := StopAt(dates, datelo, datehi);
    if k == |dates| && |dates| > 0 then Err(IndexError)
    else Ok(Scan(LastBefore(dates, datelo, k), LastNotBefore(dates, datelo, k), Accumulated(dates, readings, datelo, k)))
  }

  /** The loop of onselect, over readings assumed sorted by time. */
  method ScanSpan(dates: seq<Instant>, readings: seq<real>, datelo: Instant, datehi: Instant)
    returns (r: Result<Scan, SpanFault>)
    requires |dates| == |readings|
    ensures r == ScanSpec(dates, readings, datelo, datehi)
  {
    var loReading: Option<nat> := None;
    var hiReading: Option<nat> := None;
    var total := 0.0;
    var idx := 0;
    while idx < |dates|
      invariant idx <= StopAt(dates, datelo, datehi)
      invariant idx == 0 || idx < |dates|
      invariant loReading == LastBefore(dates, datelo, idx)
      invariant hiReading == LastNotBefore(dates, datelo, idx)
      invariant total == Accumulated(dates, readings, datelo, idx)
      decreases |dates| - idx
    {
      if dates[idx] < datelo {
        if idx + 1 == |dates| {
          return Err(IndexError);
        }
        loReading := Some(idx);
        total := IntervalUsage(dates, readings, idx);
      } else if dates[idx] < datehi {
        if idx + 1 == |dates| {
          return Err(IndexError);
        }
        hiReading := Some(idx);
        total := total + IntervalUsage(dates, readings, idx);
      } else {
        break;
      }
      idx := idx + 1;
    }
    return Ok(Scan(loReading, hiReading, total));
  }

  /** Readings in time order, as the live buffer keeps them. */
  predicate Sorted(dates: seq<Instant>) {
    forall i, j :: 0 <= i < j < |dates| ==> dates[i] <= dates[j]
  }

  /** How many readings lie before the span. */
  function CountBefore(dates: seq<Instant>, datelo: Instant, i: nat): (p: nat)
    requires i <= |dates|
    ensures i <= p <= |dates|
    ensures forall j :: i <= j < p ==> dates[j] < datelo
    ensures p < |dates| ==> dates[p] >= datelo
    decreases |dates| - i
  {
    if i == |dates| || dates[i] >= datelo then i else CountBefore(dates, datelo, i + 1)
  }

  /** The summed usage of the intervals starting at positions first..last-1. */
  function SumUsage(dates: seq<Instant>, readings: seq<real>, first: nat, last: nat): real
    requires |dates| == |readings| && (last <= first || last < |dates|)
    decreases last
  {
    if last <= first then 0.0
    else SumUsage(dates, readings, first, last - 1) + IntervalUsage(dates, readings, last - 1)
  }

  /** For sorted readings, a reading the scan reaches is inside the span exactly when it
      is not before the span. */
  lemma {:induction false} SortedSplit(dates: seq<Instant>, datelo: Instant, datehi: Instant)
    requires Sorted(dates)
    ensures var p, k := CountBefore(dates, datelo, 0), StopAt(dates, datelo, datehi);
            p <= k &&
            (forall i :: 0 <= i < p ==> dates[i] < datelo) &&
            (forall i :: 0 <= i < |dates| ==> (p <= i < k <==> datelo <= dates[i] < datehi))
  {
    var p, k := CountBefore(dates, datelo, 0), StopAt(dates, datelo, datehi);
    forall i | 0 <= i < |dates|
      ensures p <= i < k <==> datelo <= dates[i] < datehi
    {
      if p <= i < k {
        assert dates[p] <= dates[i];
      }
    }
  }

  lemma {:induction false} AccumulatedInSpan(dates: seq<Instant>, readings: seq<real>, datelo: Instant, p: nat, k: nat)
    requires |dates| == |readings| && p <= k && (k == 0 || k < |dates|)
    requires forall i :: 0 <= i < p ==> dates[i] < datelo
    requires forall i :: p <= i < k ==> dates[i] >= datelo
    ensures Accumulated(dates, readings, datelo, k) ==
            (if p > 0 then IntervalUsage(dates, readings, p - 1) else 0.0) + SumUsage(dates, readings, p, k)
    decreases k
  {
    if k > p {
      AccumulatedInSpan(dates, readings, datelo, p, k - 1);
    }
  }

  /**
    For sorted readings a query that does not fault reports, as its total, the usage of
    the last interval that starts before the span plus the usages of all intervals that
    start inside it. It reports no usage exactly when no reading lies in [datelo, datehi).
   */
  lemma SpanTotal(dates: seq<Instant>, readings: seq<real>, datelo: Instant, datehi: Instant)
    requires |dates| == |readings| && Sorted(dates)
    requires ScanSpec(dates, readings, datelo, datehi).Ok?
    ensures var s, p, k := ScanSpec(dates, readings, datelo, datehi).value,
                           CountBefore(dates, datelo, 0), StopAt(dates, datelo, datehi);
            s.total == (if p > 0 then IntervalUsage(dates, readings, p - 1) else 0.0) + SumUsage(dates, readings, p, k) &&
            (forall i :: 0 <= i < |dates| ==> (p <= i < k <==> datelo <= dates[i] < datehi)) &&
            (s.hiReading.None? <==> forall i :: 0 <= i < |dates| ==> !(datelo <= dates[i] < datehi))
  {
    var p, k := CountBefore(dates, datelo, 0), StopAt(dates, datelo, datehi);
    SortedSplit(dates, datelo, datehi);
    AccumulatedInSpan(dates, readings, datelo, p, k);
    var s := ScanSpec(dates, readings, datelo, datehi).value;
    if s.hiReading.Some? {
      var h := s.hiReading.value;
      assert datelo <= dates[h] < datehi;
    } else if p < k {
      assert dates[p] >= datelo;
    }
  }

  /** For sorted readings the query faults exactly when the last reading lies before one
      of the ends of the span, i.e. when the span reaches the latest reading. */
  lemma FaultsWhenSpanReachesLastReading(dates: seq<Instant>, readings: seq<real>, datelo: Instant, datehi: Instant)
    requires |dates| == |readings| && Sorted(dates) && |dates| > 0
    ensures ScanSpec(dates, readings, datelo, datehi).Err? <==> Processed(dates[|dates| - 1], datelo, datehi)
  {
  }

  /** When the scan succeeds the reading after the last in-span one exists, so the upper
      index's clamp to the final position never takes effect. */
  lemma ClampNeverApplies(dates: seq<Instant>, readings: seq<real>, datelo: Instant, datehi: Instant)
    requires |dates| == |readings|
    requires ScanSpec(dates, readings, datelo, datehi).Ok?
    ensures var s := ScanSpec(dates, readings, datelo, datehi).value;
            (s.loReading.Some? ==> s.loReading.value + 1 < |dates|) &&
            (s.hiReading.Some? ==> s.hiReading.value + 1 < |dates|)
  {
  }

  /** True when the scan's positions fit the readings, as ScanSpec guarantees. */
  predicate FitsReadings(dates: seq<Instant>, scan: Scan) {
    (scan.loReading.Some? ==> scan.loReading.value < |dates|) &&
    (scan.hiReading.Some? ==> scan.hiReading.value + 1 < |dates|)
  }

  /** The price of an amount of energy at a unit cost per kWh. */
  function CostOf(unitCost: real, kwh: real): real {
    unitCost * kwh
  }

  /** The reading the reported usage runs from: the one found before the span, or the
      first one when there was none. */
  function SinceReading(dates: seq<Instant>, scan: Scan): Instant
    requires FitsReadings(dates, scan) && |dates| > 0
  {
    dates[if scan.loReading.Some? then scan.loReading.value else 0]
  }

  /**
    The summary onselect reports after the scan: no usage when nothing was in the span;
    otherwise the usage between the reading found before the span (or the first one) and
    the reading after the last one in it, with the cost when a unit cost is stored. A
    stored cost that float() rejects raises ValueError.
   */
  function Report(dates: seq<Instant>, datelo: Instant, datehi: Instant, scan: Scan, costSetting: Option<string>)
    : (r: Result<SpanReport, SpanFault>)
    requires FitsReadings(dates, scan)
    ensures scan.hiReading.None? ==> r == Ok(NoUsage(datelo, datehi))
    ensures scan.hiReading.Some? && costSetting.None? ==>
              r == Ok(Usage(SinceReading(dates, scan), dates[scan.hiReading.value + 1], scan.total))
    ensures scan.hiReading.Some? && costSetting.Some? && ParseFloat(costSetting.value).None? ==>
              r == Err(ValueError)
    ensures scan.hiReading.Some? && costSetting.Some? && ParseFloat(costSetting.value).Some? ==>
              r == Ok(UsageAndCost(SinceReading(dates, scan), dates[scan.hiReading.value + 1], scan.total,
                                   CostOf(ParseFloat(costSetting.value).value, scan.total)))
  {
    if scan.hiReading.None? then Ok(NoUsage(datelo, datehi))
    else
      var up := scan.hiReading.value + 1;
      var hi := if up >= |dates| then |dates| - 1 else up;
      match costSetting
      case None => Ok(Usage(SinceReading(dates, scan), dates[hi], scan.total))
      case Some(c) =>
        var unitCost := ParseFloat(c);
        if unitCost.None? then Err(ValueError)
        else Ok(UsageAndCost(SinceReading(dates, scan), dates[hi], scan.total, CostOf(unitCost.value, scan.total)))
  }

  /** The whole query: the scan, then the summary. */
  function SelectionReport(dates: seq<Instant>, readings: seq<real>, datelo: Instant, datehi: Instant, costSetting: Option<string>)
    : Result<SpanReport, SpanFault>
    requires |dates| == |readings|
  {
    match ScanSpec(dates, readings, datelo, datehi)
    case Err(e) => Err(e)
    case Ok(scan) => Report(dates, datelo, datehi, scan, costSetting)
  }

  /**
    Readings of 1 kW at 0 s, 2 kW at 3600 s and 1 kW at 7200 s, queried over
    [1800 s, 5400 s): the whole first hour counts (the interval before the span is taken
    in full) and the whole second hour is added, 3.0 kWh in all, reported from 0 s to 7200 s.
   */
  lemma ThreeReadingExample()
    ensures SelectionReport([0, 3600, 7200], [1.0, 2.0, 1.0], 1800, 5400, None) == Ok(Usage(0, 7200, 3.0))
  {
    var dates, readings := [0, 3600, 7200], [1.0, 2.0, 1.0];
    assert StopFrom(dates, 1800, 5400, 2) == 2;
    assert StopFrom(dates, 1800, 5400, 1) == 2;
    assert StopAt(dates, 1800, 5400) == 2;
    assert IntervalUsage(dates, readings, 0) == 1.0;
    assert IntervalUsage(dates, readings, 1) == 2.0;
  }
}
