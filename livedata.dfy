/**
  The live-data agent: the buffers of live CurrentCost readings and National Grid
  readings, the redraw of the live graph and its National Grid twin axes under one lock,
  the demand / frequency display switches, connecting to and disconnecting from a live
  feed, the usage query over a selected span, the frequency tick labels and the export
  of the live readings as CSV rows.
 */
module LiveData {
  import opened Wrappers
  import opened Generation
  import opened SpanQuery

  /** Likely limits of the National Grid frequency, and the balanced frequency. */
  const NgFreqMin: real := 49.8
  const NgFreqZero: real := 50.0
  const NgFreqMax: real := 50.2

  /** Where live data comes from. */
  datatype ConnectionType = ConnectionNone | ConnectionMqtt | ConnectionSerial

  /** What the agent asks of a set of axes, in the order it asks. */
  datatype AxesCall =
    | Cleared
    | Labelled(text: string)
    | GridOn
    | AutoscaleAttributeOff
    | PlotDate(xs: seq<Instant>, ys: seq<real>, style: string)
    | RotateTickLabels
    | SetXLim(xmin: Option<Instant>, xmax: Instant)
    | SetYLim(ymin: real, ymax: real)
    | FormatDates
    | FormatFrequencyTicks
    | HideYTickLines
    | DrawCanvas
    | SpanSelectorAttached

  /** A set of matplotlib axes, seen through the calls made on it (the drawing itself is
      not part of this model). */
  class Axes {
    var calls: seq<AxesCall>

    constructor ()
      ensures calls == []
    {
      calls := [];
    }

    /** twinx(): new axes sharing this one's x axis. */
    method Twinx() returns (twin: Axes)
      ensures fresh(twin) && twin.calls == []
    {
      twin := new Axes();
    }

    method Apply(c: AxesCall)
      modifies this`calls
      ensures calls == old(calls) + [c]
    {
      calls := calls + [c];
    }
  }

  // ---------------------------------------------------------------------------------
  // The redraw protocol

  /** The three axes a redraw can touch. */
  datatype Role = LiveRole | DemandRole | FrequencyRole

  /** The steps of a redraw, each one try block or unguarded statement of the source. */
  datatype Step =
    | Plot(role: Role)
    | DisableAutoscale
    | Rotate(role: Role)
    | SetLimits
    | FormatLabels
    | Draw(role: Role)

  /** What a redraw reads of the agent, with the time it takes as the right-hand limit. */
  datatype Snapshot = Snapshot(
    liveDates: seq<Instant>, liveReadings: seq<real>, hasLiveAxes: bool,
    ngDates: seq<Instant>, ngDemand: seq<real>, ngFreq: seq<real>, ngZero: seq<real>,
    hasDemandAxes: bool, hasFrequencyAxes: bool,
    start: Option<Instant>, now: Instant)

  /** The plots of a redraw: the live series when there is live data, and each National
      Grid series when there is National Grid data and its axes exist. */
  function PlotSteps(c: Snapshot): (steps: seq<Step>)
    ensures forall j :: 0 <= j < |steps| ==> steps[j].Plot?
    ensures (|c.liveDates| > 0) == (|steps| > 0 && steps[0] == Plot(LiveRole))
  {
    (if |c.liveDates| > 0 then [Plot(LiveRole)] else []) +
    (if c.hasDemandAxes && |c.ngDates| > 0 then [Plot(DemandRole)] else []) +
    (if c.hasFrequencyAxes && |c.ngDates| > 0 then [Plot(FrequencyRole)] else [])
  }

  /** The label rotations: the live axes first, then each twin that exists. */
  function RotateSteps(c: Snapshot): (steps: seq<Step>)
    ensures |steps| > 0 && steps[0] == Rotate(LiveRole)
    ensures forall j :: 0 <= j < |steps| ==> steps[j].Rotate?
  {
    [Rotate(LiveRole)] +
    (if c.hasDemandAxes then [Rotate(DemandRole)] else []) +
    (if c.hasFrequencyAxes then [Rotate(FrequencyRole)] else [])
  }

  /** The canvas draws: the live axes first, then each twin that exists. */
  function DrawSteps(c: Snapshot): (steps: seq<Step>)
    ensures |steps| > 0 && steps[0] == Draw(LiveRole)
    ensures forall j :: 0 <= j < |steps| ==> steps[j].Draw?
  {
    [Draw(LiveRole)] +
    (if c.hasDemandAxes then [Draw(DemandRole)] else []) +
    (if c.hasFrequencyAxes then [Draw(FrequencyRole)] else [])
  }

  /** The steps of a redraw in source order: the plots, the autoscale switch, the label
      rotations, the limits, the formatters and the canvas draws. */
  function Plan(c: Snapshot): seq<Step> {
    PlotSteps(c) + [DisableAutoscale] + RotateSteps(c) + [SetLimits, FormatLabels] + DrawSteps(c)
  }

  /** Where each kind of step sits in the plan. */
  lemma PlanLayout(c: Snapshot)
    ensures var n, r := |PlotSteps(c)|, |RotateSteps(c)|;
            |Plan(c)| == n + r + 3 + |DrawSteps(c)| &&
            (forall j :: 0 <= j < n ==> Plan(c)[j].Plot?) &&
            Plan(c)[n] == DisableAutoscale && Plan(c)[n + 1] == Rotate(LiveRole) &&
            (forall j :: n < j <= n + r ==> Plan(c)[j].Rotate?) &&
            Plan(c)[n + r + 1] == SetLimits && Plan(c)[n + r + 2] == FormatLabels &&
            (forall j :: n + r + 2 < j < |Plan(c)| ==> Plan(c)[j].Draw?)
  {
    PlanPlots(c);
    PlanMiddle(c);
    PlanDraws(c);
  }

  lemma PlanPlots(c: Snapshot)
    ensures |Plan(c)| == |PlotSteps(c)| + |RotateSteps(c)| + 3 + |DrawSteps(c)|
    ensures forall j :: 0 <= j < |PlotSteps(c)| ==> Plan(c)[j].Plot?
  {
    var p := PlotSteps(c);
    var plan := Plan(c);
    assert plan == p + ([DisableAutoscale] + RotateSteps(c) + [SetLimits, FormatLabels] + DrawSteps(c));
    forall j | 0 <= j < |p| ensures plan[j].Plot? {
      assert plan[j] == p[j];
    }
  }

  lemma PlanMiddle(c: Snapshot)
    ensures var n, r := |PlotSteps(c)|, |RotateSteps(c)|;
            n + r + 2 < |Plan(c)| &&
            Plan(c)[n] == DisableAutoscale && Plan(c)[n + 1] == Rotate(LiveRole) &&
            (forall j :: n < j <= n + r ==> Plan(c)[j].Rotate?) &&
            Plan(c)[n + r + 1] == SetLimits && Plan(c)[n + r + 2] == FormatLabels
  {
    var p, rs, d := PlotSteps(c), RotateSteps(c), DrawSteps(c);
    var n, r := |p|, |rs|;
    var plan := Plan(c);
    var tail := [DisableAutoscale] + (rs + ([SetLimits, FormatLabels] + d));
    assert plan == p + tail;
    forall j | n < j <= n + r ensures plan[j].Rotate? {
      assert plan[j] == tail[j - n] == rs[j - n - 1];
    }
    var last := [SetLimits, FormatLabels] + d;
    assert plan[n + r + 1] == tail[r + 1] == last[0];
    assert plan[n + r + 2] == tail[r + 2] == last[1];
  }

  lemma PlanDraws(c: Snapshot)
    ensures var n, r := |PlotSteps(c)|, |RotateSteps(c)|;
            forall j :: n + r + 2 < j < |Plan(c)| ==> Plan(c)[j].Draw?
  {
    var d := DrawSteps(c);
    var front := PlotSteps(c) + [DisableAutoscale] + RotateSteps(c) + [SetLimits, FormatLabels];
    var plan := Plan(c);
    assert plan == front + d;
    forall j | |front| <= j < |plan| ensures plan[j].Draw? {
      assert plan[j] == d[j - |front|];
    }
  }

  /** The autoscale switch only assigns an attribute of axes that exist: it cannot fail.
      Every other step can raise inside matplotlib. */
  predicate Fallible(s: Step) {
    !s.DisableAutoscale?
  }

  /** The limits are set outside any try block: a raise there leaves redrawGraph. */
  predicate Unguarded(s: Step) {
    s.SetLimits?
  }

  /** Steps that use the live axes without first checking that they exist. */
  predicate NeedsLiveAxes(c: Snapshot, s: Step) {
    s == Plot(LiveRole) || s == Rotate(LiveRole) || s == Draw(LiveRole) ||
    (s == FormatLabels && |c.liveDates| > 0)
  }

  /** A step ends the redraw when matplotlib raises in it (broken), or when it uses
      live axes that do not exist (AttributeError on None, caught by its try block). */
  predicate Fails(c: Snapshot, broken: set<Step>, s: Step) {
    (Fallible(s) && s in broken) || (!c.hasLiveAxes && NeedsLiveAxes(c, s))
  }

  /** The position of the first failing step, or the number of steps. */
  function FirstFailure(c: Snapshot, broken: set<Step>, steps: seq<Step>): (k: nat)
    ensures k <= |steps|
    ensures forall j :: 0 <= j < k ==> !Fails(c, broken, steps[j])
    ensures k < |steps| ==> Fails(c, broken, steps[k])
  {
    if steps == [] then 0
    else if Fails(c, broken, steps[0]) then 0
    else 1 + FirstFailure(c, broken, steps[1..])
  }

  /** What redrawGraph returns: None when a dialog is open, True, or False at a step;
      or the exception of an unguarded step, which it does not catch. */
  datatype RedrawResult = Skipped | Redrawn | Failed(at: Step) | Raised(at: Step)

  /** The outcome of a redraw whose every failure is caught, the lock released and False
      returned, as every try block of redrawGraph does. */
  function Outcome(c: Snapshot, broken: set<Step>): RedrawResult {
    var plan := Plan(c);
    var k := FirstFailure(c, broken, plan);
    if k < |plan| then Failed(plan[k]) else Redrawn
  }

  /** The outcome of redrawGraph as written: a failure in the unguarded limits step is
      not caught, and propagates out of the redraw. */
  function OutcomeAsWritten(c: Snapshot, broken: set<Step>): RedrawResult {
    var plan := Plan(c);
    var k := FirstFailure(c, broken, plan);
    if k < |plan| && Unguarded(plan[k]) then Raised(plan[k])
    else if k < |plan| then Failed(plan[k]) else Redrawn
  }

  /** Whether a redraw that ended with this result has given the lock back: every
      handler releases it before returning; an exception that escapes does not. */
  predicate ReleasesLock(r: RedrawResult) {
    !r.Raised?
  }

  /**
    As written, a redraw escapes with the lock held exactly when matplotlib raises while
    the limits are set, every step before them having succeeded; the two outcomes agree
    on every other redraw.
   */
  lemma RaisesExactlyWhenLimitsFail(c: Snapshot, broken: set<Step>)
    ensures !ReleasesLock(OutcomeAsWritten(c, broken)) <==>
              SetLimits in broken &&
              exists k :: 0 <= k < |Plan(c)| && Plan(c)[k] == SetLimits &&
                          forall j :: 0 <= j < k ==> !Fails(c, broken, Plan(c)[j])
    ensures OutcomeAsWritten(c, broken) != Outcome(c, broken) ==>
              OutcomeAsWritten(c, broken) == Raised(SetLimits) && Outcome(c, broken) == Failed(SetLimits)
    ensures OutcomeAsWritten(c, broken) == Outcome(c, broken) ==> ReleasesLock(Outcome(c, broken))
  {
    PlanLayout(c);
    var plan := Plan(c);
    var k := FirstFailure(c, broken, plan);
    var m := |PlotSteps(c)| + |RotateSteps(c)| + 1;
    if SetLimits in broken && exists i :: 0 <= i < |plan| && plan[i] == SetLimits &&
                                         forall j :: 0 <= j < i ==> !Fails(c, broken, plan[j]) {
      var i :| 0 <= i < |plan| && plan[i] == SetLimits && forall j :: 0 <= j < i ==> !Fails(c, broken, plan[j]);
      assert Fails(c, broken, plan[i]);
      assert k == i;
    }
    if k < |plan| && Unguarded(plan[k]) {
      assert plan[k] == SetLimits;
      assert SetLimits in broken;
    }
  }

  /** A concrete redraw that escapes with the lock held: live data on live axes and no
      twins, with every step fine except the limits. */
  lemma LimitsRaiseExample()
    ensures var c := Snapshot([0], [1.5], true, [], [], [], [], false, false, Some(0), 60);
            OutcomeAsWritten(c, {SetLimits}) == Raised(SetLimits) &&
            Outcome(c, {SetLimits}) == Failed(SetLimits)
  {
    var c := Snapshot([0], [1.5], true, [], [], [], [], false, false, Some(0), 60);
    var plan := Plan(c);
    assert plan == [Plot(LiveRole), DisableAutoscale, Rotate(LiveRole), SetLimits, FormatLabels, Draw(LiveRole)];
    assert !Fails(c, {SetLimits}, plan[0]) && !Fails(c, {SetLimits}, plan[1]) && !Fails(c, {SetLimits}, plan[2]);
    assert FirstFailure(c, {SetLimits}, plan[3..]) == 0;
    assert plan[1..][2..] == plan[3..];
  }

  /** The steps a redraw carries out: those before the first failure. */
  function Performed(c: Snapshot, broken: set<Step>): seq<Step> {
    Plan(c)[..FirstFailure(c, broken, Plan(c))]
  }

  /** The calls one step makes on the axes of one role (when those axes exist). */
  function StepCalls(c: Snapshot, s: Step, role: Role): seq<AxesCall> {
    match s
    case Plot(r) =>
      if r != role then []
      else if r == LiveRole then [PlotDate(c.liveDates, c.liveReadings, "r-")]
      else if r == DemandRole then [PlotDate(c.ngDates, c.ngDemand, "b-")]
      else [PlotDate(c.ngDates, c.ngFreq, "b-"), PlotDate(c.ngDates, c.ngZero, "g-")]
    case DisableAutoscale =>
      if role == LiveRole && |c.liveDates| == 0 then [] else [AutoscaleAttributeOff]
    case Rotate(r) =>
      if r == role then [RotateTickLabels] else []
    case SetLimits =>
      [SetXLim(c.start, c.now)] + (if role == FrequencyRole then [SetYLim(NgFreqMin, NgFreqMax)] else [])
    case FormatLabels =>
      if role == LiveRole then (if |c.liveDates| > 0 then [FormatDates] else [])
      else if role == DemandRole then [FormatDates]
      else [FormatDates, FormatFrequencyTicks, HideYTickLines]
    case Draw(r) =>
      if r == role then [DrawCanvas] else []
  }

  /** The calls a run of steps makes, one step's calls after another. */
  function Concat<T, U>(f: T -> seq<U>, xs: seq<T>): seq<U> {
    if xs == [] then []
    else Concat(f, xs[..|xs| - 1]) + f(xs[|xs| - 1])
  }

  lemma {:induction false} ConcatAppend<T, U>(f: T -> seq<U>, a: seq<T>, b: seq<T>)
    ensures Concat(f, a + b) == Concat(f, a) + Concat(f, b)
    decreases |b|
  {
    if b == [] {
      assert a + b == a;
    } else {
      var init, last := b[..|b| - 1], b[|b| - 1];
      assert (a + b)[..|a + b| - 1] == a + init;
      ConcatAppend(f, a, init);
    }
  }

  /** The calls one step makes on the axes of one role, as a function of the step. */
  function RoleCalls(c: Snapshot, role: Role): Step -> seq<AxesCall> {
    s => StepCalls(c, s, role)
  }

  /** The calls a run of steps makes on the axes of one role. */
  function CallsOn(c: Snapshot, role: Role, steps: seq<Step>): seq<AxesCall> {
    Concat(RoleCalls(c, role), steps)
  }

  lemma CallsOnAppend(c: Snapshot, role: Role, a: seq<Step>, b: seq<Step>)
    ensures CallsOn(c, role, a + b) == CallsOn(c, role, a) + CallsOn(c, role, b)
  {
    ConcatAppend(RoleCalls(c, role), a, b);
  }

  lemma CallsOnSnoc(c: Snapshot, role: Role, a: seq<Step>, s: Step)
    ensures CallsOn(c, role, a + [s]) == CallsOn(c, role, a) + StepCalls(c, s, role)
  {
    assert (a + [s])[..|a|] == a;
    assert RoleCalls(c, role)(s) == StepCalls(c, s, role);
  }

  lemma CallsOnOne(c: Snapshot, role: Role, s: Step)
    ensures CallsOn(c, role, [s]) == StepCalls(c, s, role)
  {
    var f := RoleCalls(c, role);
    assert [s][..0] == [];
    assert Concat(f, [s]) == Concat(f, []) + f(s);
    assert f(s) == StepCalls(c, s, role);
  }

  /** A redraw returns True exactly when no step of its plan fails, and otherwise
      returns False at the first failing step, every step before it having succeeded. */
  lemma RedrawnPerformsPlan(c: Snapshot, broken: set<Step>)
    requires Outcome(c, broken) == Redrawn
    ensures Performed(c, broken) == Plan(c)
  {
    var plan := Plan(c);
    assert plan[..|plan|] == plan;
  }

  lemma RedrawStopsAtFirstFailure(c: Snapshot, broken: set<Step>)
    ensures Outcome(c, broken) == Redrawn <==> forall j :: 0 <= j < |Plan(c)| ==> !Fails(c, broken, Plan(c)[j])
    ensures Outcome(c, broken).Failed? ==>
              exists k :: 0 <= k < |Plan(c)| && Plan(c)[k] == Outcome(c, broken).at &&
                          Fails(c, broken, Plan(c)[k]) &&
                          Performed(c, broken) == Plan(c)[..k] &&
                          forall j :: 0 <= j < k ==> !Fails(c, broken, Plan(c)[j])
    ensures Outcome(c, broken) == Redrawn ==> Performed(c, broken) == Plan(c)
  {
    if Outcome(c, broken) == Redrawn {
      RedrawnPerformsPlan(c, broken);
    }
  }

  /** The statements outside any try block never meet missing live axes: whenever the
      limits are set, or the live autoscale attribute is written, a live-axes step has
      already succeeded. So none of them raises AttributeError on None; only matplotlib
      raising while the limits are set can escape. */
  lemma UnguardedStepsHaveLiveAxes(c: Snapshot, broken: set<Step>)
    ensures SetLimits in Performed(c, broken) ==> c.hasLiveAxes
    ensures DisableAutoscale in Performed(c, broken) && |c.liveDates| > 0 ==> c.hasLiveAxes
  {
    PlanLayout(c);
    var plan := Plan(c);
    var k := FirstFailure(c, broken, plan);
    var n, r := |PlotSteps(c)|, |RotateSteps(c)|;
    if SetLimits in plan[..k] {
      var j :| 0 <= j < k && plan[j] == SetLimits;
      assert j == n + r + 1;
      assert !Fails(c, broken, plan[n + 1]);
    }
    if DisableAutoscale in plan[..k] && |c.liveDates| > 0 {
      assert !Fails(c, broken, plan[0]);
    }
  }

  /** Without live axes a redraw always returns False, and no canvas is drawn. */
  lemma NoRedrawWithoutLiveAxes(c: Snapshot, broken: set<Step>)
    requires !c.hasLiveAxes
    ensures Outcome(c, broken).Failed?
    ensures forall role: Role :: DrawCanvas !in CallsOn(c, role, Performed(c, broken))
  {
    PlanLayout(c);
    var plan := Plan(c);
    var k := FirstFailure(c, broken, plan);
    var n := |PlotSteps(c)|;
    assert Fails(c, broken, plan[n + 1]);
    assert k <= n + 1;
    forall role: Role ensures DrawCanvas !in CallsOn(c, role, plan[..k]) {
      NoDrawBefore(c, role, plan[..k]);
    }
  }

  lemma {:induction false} NoDrawBefore(c: Snapshot, role: Role, steps: seq<Step>)
    requires forall j :: 0 <= j < |steps| ==> !steps[j].Draw?
    ensures DrawCanvas !in CallsOn(c, role, steps)
  {
    if steps != [] {
      NoDrawBefore(c, role, steps[..|steps| - 1]);
    }
  }

  /** An axes present in the snapshot. */
  predicate Present(c: Snapshot, role: Role) {
    match role
    case LiveRole => c.hasLiveAxes
    case DemandRole => c.hasDemandAxes
    case FrequencyRole => c.hasFrequencyAxes
  }

  /** The draws put exactly one canvas draw on every axes present. */
  lemma DrawStepsCalls(c: Snapshot, role: Role)
    requires Present(c, role)
    ensures CallsOn(c, role, DrawSteps(c)) == [DrawCanvas]
  {
    var live := [Draw(LiveRole)];
    var withDemand := if c.hasDemandAxes then live + [Draw(DemandRole)] else live;
    CallsOnOne(c, role, Draw(LiveRole));
    if c.hasDemandAxes {
      CallsOnSnoc(c, role, live, Draw(DemandRole));
    }
    assert CallsOn(c, role, withDemand) == (if role == LiveRole || (role == DemandRole && c.hasDemandAxes) then [DrawCanvas] else []);
    if c.hasFrequencyAxes {
      CallsOnSnoc(c, role, withDemand, Draw(FrequencyRole));
      assert DrawSteps(c) == withDemand + [Draw(FrequencyRole)];
    } else {
      assert DrawSteps(c) == withDemand;
    }
  }

  /** The calls of a whole plan, cut where the limits are set. */
  lemma PlanCalls(c: Snapshot, role: Role)
    ensures CallsOn(c, role, Plan(c)) ==
              CallsOn(c, role, PlotSteps(c) + [DisableAutoscale] + RotateSteps(c)) +
              StepCalls(c, SetLimits, role) + StepCalls(c, FormatLabels, role) + CallsOn(c, role, DrawSteps(c))
  {
    var before := PlotSteps(c) + [DisableAutoscale] + RotateSteps(c);
    assert Plan(c) == before + [SetLimits] + [FormatLabels] + DrawSteps(c);
    CallsOnAppend(c, role, before + [SetLimits] + [FormatLabels], DrawSteps(c));
    CallsOnAppend(c, role, before + [SetLimits], [FormatLabels]);
    CallsOnAppend(c, role, before, [SetLimits]);
    CallsOnOne(c, role, SetLimits);
    CallsOnOne(c, role, FormatLabels);
  }

  /**
    After a redraw that returned True every axes ends with the same x limits
    [start time, the redraw's time], the frequency axes also with the y limits
    [49.8, 50.2], then the formatting calls and the canvas draw as its last call.
   */
  lemma RedrawnAxesShareLimits(c: Snapshot, broken: set<Step>, role: Role)
    requires Outcome(c, broken) == Redrawn && Present(c, role)
    ensures exists earlier: seq<AxesCall> ::
              CallsOn(c, role, Performed(c, broken)) ==
                earlier + [SetXLim(c.start, c.now)] +
                (if role == FrequencyRole then [SetYLim(NgFreqMin, NgFreqMax)] else []) +
                StepCalls(c, FormatLabels, role) + [DrawCanvas]
  {
    RedrawnPerformsPlan(c, broken);
    PlanCalls(c, role);
    DrawStepsCalls(c, role);
    var earlier := CallsOn(c, role, PlotSteps(c) + [DisableAutoscale] + RotateSteps(c));
    var x := [SetXLim(c.start, c.now)];
    var y := if role == FrequencyRole then [SetYLim(NgFreqMin, NgFreqMax)] else [];
    var labels := StepCalls(c, FormatLabels, role);
    assert StepCalls(c, SetLimits, role) == x + y;
    assert CallsOn(c, role, Performed(c, broken)) == earlier + (x + y) + labels + [DrawCanvas];
    assert earlier + (x + y) == earlier + x + y;
  }

  // ---------------------------------------------------------------------------------
  // The frequency tick labels

  /** round(x, 2) * 100 as Python 2 rounds: to the nearest hundredth, halves away from
      zero. */
  function Hundredths(x: real): int {
    if x >= 0.0 then (x * 100.0 + 0.5).Floor else -((-x * 100.0 + 0.5).Floor)
  }

  /** formatFrequencyData: the meaning of a frequency for supply and demand. */
  function FormatFrequencyData(x: real): string {
    var h := Hundredths(x);
    if h == 5000 then "supply = demand"
    else if h == 4990 then "supply > demand"
    else if h == 5010 then "supply < demand"
    else ""
  }

  /** The labels in terms of frequency bands: 50.00 Hz, 49.90 Hz and 50.10 Hz and what
      rounds to them; every other frequency has no label. */
  lemma FrequencyLabelBands(x: real)
    ensures FormatFrequencyData(x) == "supply = demand" <==> 49.995 <= x < 50.005
    ensures FormatFrequencyData(x) == "supply > demand" <==> 49.895 <= x < 49.905
    ensures FormatFrequencyData(x) == "supply < demand" <==> 50.095 <= x < 50.105
    ensures FormatFrequencyData(x) == "" <==>
              !(49.995 <= x < 50.005) && !(49.895 <= x < 49.905) && !(50.095 <= x < 50.105)
  {
    assert "supply = demand"[7] != "supply > demand"[7];
    assert "supply = demand"[7] != "supply < demand"[7];
    assert "supply > demand"[7] != "supply < demand"[7];
    if x >= 0.0 {
      var h := (x * 100.0 + 0.5).Floor;
      assert h as real <= x * 100.0 + 0.5 < h as real + 1.0;
    } else {
      assert Hundredths(x) <= 0;
    }
  }

  /** The zero line is labelled as balanced supply and demand. */
  lemma ZeroLineIsBalanced()
    ensures FormatFrequencyData(NgFreqZero) == "supply = demand"
  {
    FrequencyLabelBands(NgFreqZero);
  }

  // ---------------------------------------------------------------------------------
  // The National Grid buffers

  /** The four parallel National Grid series. */
  datatype NgBuffers = NgBuffers(dates: seq<Instant>, demand: seq<real>, freq: seq<real>, zero: seq<real>)

  predicate NgAligned(b: NgBuffers) {
    |b.demand| == |b.dates| && |b.freq| == |b.dates| && |b.zero| == |b.dates| &&
    forall i :: 0 <= i < |b.zero| ==> b.zero[i] == NgFreqZero
  }

  /** One National Grid reading stored: only when both demand and frequency came back. */
  function Record(b: NgBuffers, demand: Option<real>, frequency: Option<real>, stamp: Instant): (r: NgBuffers)
    ensures demand.None? || frequency.None? ==> r == b
    ensures demand.Some? && frequency.Some? ==>
              r.dates == b.dates + [stamp] && r.demand == b.demand + [demand.value] &&
              r.freq == b.freq + [frequency.value] && r.zero == b.zero + [NgFreqZero]
    ensures NgAligned(b) ==> NgAligned(r)
  {
    if demand.Some? && frequency.Some? then
      NgBuffers(b.dates + [stamp], b.demand + [demand.value], b.freq + [frequency.value], b.zero + [NgFreqZero])
    else b
  }

  /** One poll of the National Grid feed: the parsed demand and frequency (None when the
      page could not be parsed), the time of storing and the time of the redraw. */
  datatype NgPoll = NgPoll(demand: Option<real>, frequency: Option<real>, stamp: Instant, redrawTime: Instant)

  /** The buffers after a run of polls. */
  function Recorded(b: NgBuffers, polls: seq<NgPoll>): NgBuffers {
    if polls == [] then b
    else
      var p := polls[|polls| - 1];
      Record(Recorded(b, polls[..|polls| - 1]), p.demand, p.frequency, p.stamp)
  }

  /** The number of polls that returned both values. */
  function CountComplete(polls: seq<NgPoll>): nat {
    if polls == [] then 0
    else CountComplete(polls[..|polls| - 1]) +
         (if polls[|polls| - 1].demand.Some? && polls[|polls| - 1].frequency.Some? then 1 else 0)
  }

  /** A run of polls keeps the four series aligned, with one entry per complete poll. */
  lemma {:induction false} RecordedStaysAligned(b: NgBuffers, polls: seq<NgPoll>)
    requires NgAligned(b)
    ensures NgAligned(Recorded(b, polls))
    ensures |Recorded(b, polls).dates| == |b.dates| + CountComplete(polls)
    ensures Recorded(b, polls).dates[..|b.dates|] == b.dates
  {
    if polls != [] {
      RecordedStaysAligned(b, polls[..|polls| - 1]);
      var r := Recorded(b, polls[..|polls| - 1]);
      var p := polls[|polls| - 1];
      if p.demand.Some? && p.frequency.Some? {
        assert (r.dates + [p.stamp])[..|b.dates|] == r.dates[..|b.dates|];
      }
    }
  }

  // ---------------------------------------------------------------------------------
  // The CSV export

  /** A row of the export: the header, or a time and its reading. */
  datatype CsvRow = HeaderRow(timeHeading: string, kwhHeading: string) | DataRow(time: Instant, kwh: real)

  // ---------------------------------------------------------------------------------
  // The agent and its helpers

  /** Why a display switch raised: it needed a live graph to twin and there was none,
      or it needed a poller to stop and there was none. */
  datatype LiveFault = NoLiveGraph | NoPoller

  /** The GUI the agent reports connection failures to: the main frame, with the two
      check items of its live-connection menu and the failure messages it has shown. */
  class LiveGui {
    var comChecked: bool
    var mqttChecked: bool
    var failures: seq<string>

    constructor ()
      ensures !comChecked && !mqttChecked && failures == []
    {
      comChecked := false;
      mqttChecked := false;
      failures := [];
    }

    /** Sets the check marks of the serial and MQTT items of the live menu. */
    method CheckLiveMenu(com: bool, mqtt: bool)
      modifies this`comChecked, this`mqttChecked
      ensures comChecked == com && mqttChecked == mqtt
    {
      comChecked := com;
      mqttChecked := mqtt;
    }

    /** displayLiveConnectFailure: both live items unchecked, and the message shown. */
    method DisplayLiveConnectFailure(message: string)
      modifies this`comChecked, this`mqttChecked, this`failures
      ensures !comChecked && !mqttChecked
      ensures failures == old(failures) + [message]
    {
      CheckLiveMenu(false, false);
      failures := failures + [message];
    }
  }

  /** A live connection to the meter, over MQTT or serial (its own code is not part of
      this model): where it connects, whether its background thread was started, and how
      often it has been asked to disconnect. */
  class LiveConnection {
    const transport: ConnectionType
    const address: string
    const topic: string
    var started: bool
    var disconnectRequests: nat

    constructor (transport: ConnectionType, address: string, topic: string)
      ensures this.transport == transport && this.address == address && this.topic == topic
      ensures !started && disconnectRequests == 0
    {
      this.transport := transport;
      this.address := address;
      this.topic := topic;
      started := false;
      disconnectRequests := 0;
    }

    method Start()
      modifies this`started
      ensures started
    {
      started := true;
    }

    method Disconnect()
      modifies this`disconnectRequests
      ensures disconnectRequests == old(disconnectRequests) + 1
    {
      disconnectRequests := disconnectRequests + 1;
    }
  }

  /** The demand / frequency poller: stores every poll in the agent until stopped. */
  class NationalGridUpdateThread {
    const graphhandle: CurrentCostLiveData
    var disconnect: bool
    var started: bool

    constructor (liveagent: CurrentCostLiveData)
      ensures graphhandle == liveagent && !disconnect && !started
    {
      graphhandle := liveagent;
      disconnect := false;
      started := false;
    }

    method Start()
      modifies this`started
      ensures started
    {
      started := true;
    }

    method StopUpdates()
      modifies this`disconnect
      ensures disconnect
    {
      disconnect := true;
    }

    /**
      The poll loop over the polls it gets to make: each is handed to
      updateNationalGridGraph. The stop flag is checked before every poll; a stop
      requested before the run makes no poll.
     */
    method Run(polls: seq<NgPoll>, broken: set<Step>)
      requires graphhandle.Valid() && !graphhandle.lockHeld
      modifies graphhandle`ngdatadates, graphhandle`ngdemandreadings, graphhandle`ngfreqreadings,
               graphhandle`ngfreqzeroline, graphhandle`lockHeld, graphhandle`lockAcquisitions,
               graphhandle.GraphAxes()`calls
      ensures graphhandle.Valid() && !graphhandle.lockHeld
      ensures graphhandle.NgState() ==
                (if disconnect then old(graphhandle.NgState()) else Recorded(old(graphhandle.NgState()), polls))
    {
      var i := 0;
      while i < |polls| && !disconnect
        invariant 0 <= i <= |polls|
        invariant disconnect ==> i == 0
        invariant graphhandle.Valid() && !graphhandle.lockHeld
        invariant graphhandle.NgState() == Recorded(old(graphhandle.NgState()), polls[..i])
        decreases |polls| - i
      {
        assert polls[..i + 1][..i] == polls[..i];
        var p := polls[i];
        graphhandle.UpdateNationalGridGraph(p.demand, p.frequency, p.stamp, p.redrawTime, broken);
        i := i + 1;
      }
      assert !disconnect ==> polls[..i] == polls;
    }
  }

  /** CurrentCostLiveData. */
  class CurrentCostLiveData {
    var connectionType: ConnectionType
    var closing: bool
    var showNationalGridDemand: bool
    var showNationalGridFrequency: bool
    var livegraph: Axes?
    var livegraphNGDemand: Axes?
    var livegraphNGFrequency: Axes?
    var guicallback: LiveGui?
    var ccdates: seq<Instant>
    var ccreadings: seq<real>
    var ccsplitreadings: seq<Mix>
    var ngdatadates: seq<Instant>
    var ngdemandreadings: seq<real>
    var ngfreqreadings: seq<real>
    var ngfreqzeroline: seq<real>
    var mqttClient: LiveConnection?
    var comClient: LiveConnection?
    var ngdClient: NationalGridUpdateThread?
    const genClient: CurrentCostElectricityGeneration
    var starttime: Option<Instant>
    /** Whether the frequency tick formatter has been created. */
    var hasFreqFormatter: bool
    var dlgOpen: bool
    /** The usage summaries shown to the user by span selections. */
    var dialogs: seq<SpanReport>
    var lockHeld: bool
    ghost var lockAcquisitions: nat

    constructor ()
      ensures connectionType == ConnectionNone && !closing
      ensures !showNationalGridDemand && !showNationalGridFrequency
      ensures livegraph == null && livegraphNGDemand == null && livegraphNGFrequency == null
      ensures guicallback == null && mqttClient == null && comClient == null && ngdClient == null
      ensures ccdates == [] && ccreadings == [] && ccsplitreadings == []
      ensures ngdatadates == [] && ngdemandreadings == [] && ngfreqreadings == [] && ngfreqzeroline == []
      ensures fresh(genClient) && genClient.energyMix == DefaultMix() && genClient.emxClient == null
      ensures starttime == None && !hasFreqFormatter && !dlgOpen && dialogs == []
      ensures Valid() && !lockHeld && lockAcquisitions == 0
    {
      connectionType := ConnectionNone;
      closing := false;
      showNationalGridDemand := false;
      showNationalGridFrequency := false;
      livegraph := null;
      livegraphNGDemand := null;
      livegraphNGFrequency := null;
      guicallback := null;
      ccdates := [];
      ccreadings := [];
      ccsplitreadings := [];
      ngdatadates := [];
      ngdemandreadings := [];
      ngfreqreadings := [];
      ngfreqzeroline := [];
      mqttClient := null;
      comClient := null;
      ngdClient := null;
      genClient := new CurrentCostElectricityGeneration();
      starttime := None;
      hasFreqFormatter := false;
      dlgOpen := false;
      dialogs := [];
      lockHeld := false;
      lockAcquisitions := 0;
    }

    /**
      The agent's invariant: a date for every reading, every reading positive, at most
      one split per reading, the four National Grid series aligned with a zero line of
      50 Hz, the three axes distinct objects and the two live connections distinct
      objects.
     */
    predicate Valid()
      reads this`ccdates, this`ccreadings, this`ccsplitreadings, this`ngdatadates, this`ngdemandreadings,
            this`ngfreqreadings, this`ngfreqzeroline, this`livegraph, this`livegraphNGDemand,
            this`livegraphNGFrequency, this`mqttClient, this`comClient
    {
      LiveBuffersValid() && NgAligned(NgState()) && Wired()
    }

    /** A date for every reading, every reading positive, at most one split per reading. */
    predicate LiveBuffersValid()
      reads this`ccdates, this`ccreadings, this`ccsplitreadings
    {
      |ccreadings| == |ccdates| && |ccsplitreadings| <= |ccdates| &&
      forall i :: 0 <= i < |ccreadings| ==> ccreadings[i] > 0.0
    }

    /** The three axes are distinct objects, and so are the two live connections. */
    predicate Wired()
      reads this`livegraph, this`livegraphNGDemand, this`livegraphNGFrequency, this`mqttClient, this`comClient
    {
      AxesDistinct() && (mqttClient != null ==> mqttClient != comClient)
    }

    predicate AxesDistinct()
      reads this`livegraph, this`livegraphNGDemand, this`livegraphNGFrequency
    {
      (livegraph != null ==> livegraph != livegraphNGDemand && livegraph != livegraphNGFrequency) &&
      (livegraphNGDemand != null ==> livegraphNGDemand != livegraphNGFrequency)
    }

    function NgState(): NgBuffers
      reads this`ngdatadates, this`ngdemandreadings, this`ngfreqreadings, this`ngfreqzeroline
    {
      NgBuffers(ngdatadates, ngdemandreadings, ngfreqreadings, ngfreqzeroline)
    }

    /** The axes the agent draws on. */
    function GraphAxes(): set<Axes?>
      reads this`livegraph, this`livegraphNGDemand, this`livegraphNGFrequency
    {
      {livegraph, livegraphNGDemand, livegraphNGFrequency} - {null}
    }

    /** Axes that are not one of the National Grid twins. */
    predicate NotATwin(a: Axes?)
      reads this`livegraphNGDemand, this`livegraphNGFrequency
    {
      a == null || (a != livegraphNGDemand && a != livegraphNGFrequency)
    }

    function Current(now: Instant): Snapshot
      reads this`ccdates, this`ccreadings, this`livegraph, this`ngdatadates, this`ngdemandreadings,
            this`ngfreqreadings, this`ngfreqzeroline, this`livegraphNGDemand, this`livegraphNGFrequency,
            this`starttime
    {
      Snapshot(ccdates, ccreadings, livegraph != null,
               ngdatadates, ngdemandreadings, ngfreqreadings, ngfreqzeroline,
               livegraphNGDemand != null, livegraphNGFrequency != null, starttime, now)
    }

    /** The calls a redraw at time now makes on the axes of a role. */
    function RedrawCalls(role: Role, now: Instant, broken: set<Step>): seq<AxesCall>
      reads this`dlgOpen, this`ccdates, this`ccreadings, this`livegraph, this`ngdatadates,
            this`ngdemandreadings, this`ngfreqreadings, this`ngfreqzeroline, this`livegraphNGDemand,
            this`livegraphNGFrequency, this`starttime
    {
      if dlgOpen then [] else CallsOn(Current(now), role, Performed(Current(now), broken))
    }

    /**
      redrawGraph with every failing step handled as its try blocks handle theirs:
      nothing, and no lock, while a dialog is open; otherwise, under the lock, the steps
      of the plan up to the first one that fails, each on the axes that exist, and the
      lock released on every way out.
     */
    method RedrawGraph(now: Instant, broken: set<Step>) returns (result: RedrawResult)
      requires AxesDistinct() && !lockHeld
      modifies this`lockHeld, this`lockAcquisitions, GraphAxes()`calls
      ensures !lockHeld
      ensures result == (if dlgOpen then Skipped else Outcome(Current(now), broken))
      ensures lockAcquisitions == old(lockAcquisitions) + (if dlgOpen then 0 else 1)
      ensures livegraph != null ==> livegraph.calls == old(livegraph.calls) + RedrawCalls(LiveRole, now, broken)
      ensures livegraphNGDemand != null ==>
                livegraphNGDemand.calls == old(livegraphNGDemand.calls) + RedrawCalls(DemandRole, now, broken)
      ensures livegraphNGFrequency != null ==>
                livegraphNGFrequency.calls == old(livegraphNGFrequency.calls) + RedrawCalls(FrequencyRole, now, broken)
    {
      if dlgOpen {
        return Skipped;
      }
      lockHeld := true;
      lockAcquisitions := lockAcquisitions + 1;
      var c := Current(now);
      PerformSteps(c, Performed(c, broken));
      result := Outcome(c, broken);
      if ReleasesLock(result) {
        lockHeld := false;
      }
    }

    /**
      redrawGraph as written: as RedrawGraph, except that a raise while the limits are
      set escapes with the lock still held, so that every later redraw blocks on it.
     */
    method RedrawGraphAsWritten(now: Instant, broken: set<Step>) returns (result: RedrawResult)
      requires AxesDistinct() && !lockHeld
      modifies this`lockHeld, this`lockAcquisitions, GraphAxes()`calls
      ensures result == (if dlgOpen then Skipped else OutcomeAsWritten(Current(now), broken))
      ensures lockHeld <==> result == Raised(SetLimits)
      ensures lockAcquisitions == old(lockAcquisitions) + (if dlgOpen then 0 else 1)
      ensures livegraph != null ==> livegraph.calls == old(livegraph.calls) + RedrawCalls(LiveRole, now, broken)
      ensures livegraphNGDemand != null ==>
                livegraphNGDemand.calls == old(livegraphNGDemand.calls) + RedrawCalls(DemandRole, now, broken)
      ensures livegraphNGFrequency != null ==>
                livegraphNGFrequency.calls == old(livegraphNGFrequency.calls) + RedrawCalls(FrequencyRole, now, broken)
    {
      if dlgOpen {
        return Skipped;
      }
      lockHeld := true;
      lockAcquisitions := lockAcquisitions + 1;
      var c := Current(now);
      PerformSteps(c, Performed(c, broken));
      result := OutcomeAsWritten(c, broken);
      RaisesExactlyWhenLimitsFail(c, broken);
      if ReleasesLock(result) {
        lockHeld := false;
      }
    }

    /** Carries out a run of redraw steps on the axes that exist. */
    method PerformSteps(c: Snapshot, steps: seq<Step>)
      requires AxesDistinct()
      modifies GraphAxes()`calls
      ensures livegraph != null ==> livegraph.calls == old(livegraph.calls) + CallsOn(c, LiveRole, steps)
      ensures livegraphNGDemand != null ==>
                livegraphNGDemand.calls == old(livegraphNGDemand.calls) + CallsOn(c, DemandRole, steps)
      ensures livegraphNGFrequency != null ==>
                livegraphNGFrequency.calls == old(livegraphNGFrequency.calls) + CallsOn(c, FrequencyRole, steps)
    {
      if livegraph != null {
        livegraph.calls := livegraph.calls + CallsOn(c, LiveRole, steps);
      }
      if livegraphNGDemand != null {
        livegraphNGDemand.calls := livegraphNGDemand.calls + CallsOn(c, DemandRole, steps);
      }
      if livegraphNGFrequency != null {
        livegraphNGFrequency.calls := livegraphNGFrequency.calls + CallsOn(c, FrequencyRole, steps);
      }
    }

    /**
      updateGraph: a positive reading is stored with its time and its split by source
      (when the mix has every source; otherwise the split raises after the time and the
      reading were stored, and the exception is caught), and the graph is redrawn.
      A reading of zero or less is ignored.
     */
    method UpdateGraph(ccreading: real, stamp: Instant, redrawTime: Instant, broken: set<Step>)
      requires Valid() && !lockHeld
      modifies this`ccdates, this`ccreadings, this`ccsplitreadings, this`lockHeld, this`lockAcquisitions,
               GraphAxes()`calls
      ensures Valid() && !lockHeld
      ensures ccreading <= 0.0 ==>
                ccdates == old(ccdates) && ccreadings == old(ccreadings) && ccsplitreadings == old(ccsplitreadings) &&
                lockAcquisitions == old(lockAcquisitions)
      ensures ccreading <= 0.0 && livegraph != null ==> livegraph.calls == old(livegraph.calls)
      ensures ccreading > 0.0 ==>
                ccdates == old(ccdates) + [stamp] && ccreadings == old(ccreadings) + [ccreading] &&
                ccsplitreadings == old(ccsplitreadings) +
                  (match SplitBySource(genClient.energyMix, ccreading) case Some(m) => [m] case None => [])
      ensures ccreading > 0.0 && livegraph != null ==>
                livegraph.calls == old(livegraph.calls) + RedrawCalls(LiveRole, redrawTime, broken)
      ensures ccreading > 0.0 && livegraphNGDemand != null ==>
                livegraphNGDemand.calls == old(livegraphNGDemand.calls) + RedrawCalls(DemandRole, redrawTime, broken)
      ensures ccreading > 0.0 && livegraphNGFrequency != null ==>
                livegraphNGFrequency.calls == old(livegraphNGFrequency.calls) + RedrawCalls(FrequencyRole, redrawTime, broken)
    {
      if ccreading > 0.0 {
        StoreLiveReading(ccreading, stamp);
        var _ := RedrawGraph(redrawTime, broken);
      }
    }

    /** The buffers of updateGraph, with a positive reading stored. */
    method StoreLiveReading(ccreading: real, stamp: Instant)
      requires Valid() && ccreading > 0.0
      modifies this`ccdates, this`ccreadings, this`ccsplitreadings
      ensures Valid()
      ensures ccdates == old(ccdates) + [stamp] && ccreadings == old(ccreadings) + [ccreading] &&
              ccsplitreadings == old(ccsplitreadings) +
                (match SplitBySource(genClient.energyMix, ccreading) case Some(m) => [m] case None => [])
    {
      ccdates := ccdates + [stamp];
      ccreadings := ccreadings + [ccreading];
      match SplitBySource(genClient.energyMix, ccreading) {
        case Some(m) => ccsplitreadings := ccsplitreadings + [m];
        case None =>
      }
    }

    /**
      updateNationalGridGraph: a poll is stored only when both values came back, with the
      zero line at 50 Hz; the graph is redrawn here only when no live feed is connected
      (a live feed's own updates redraw it otherwise).
     */
    method UpdateNationalGridGraph(ngdemand: Option<real>, ngfrequency: Option<real>, stamp: Instant,
                                   redrawTime: Instant, broken: set<Step>)
      requires Valid() && !lockHeld
      modifies this`ngdatadates, this`ngdemandreadings, this`ngfreqreadings, this`ngfreqzeroline,
               this`lockHeld, this`lockAcquisitions, GraphAxes()`calls
      ensures Valid() && !lockHeld
      ensures NgState() == Record(old(NgState()), ngdemand, ngfrequency, stamp)
      ensures var redraws := ngdemand.Some? && ngfrequency.Some? && connectionType == ConnectionNone;
              lockAcquisitions == old(lockAcquisitions) + (if redraws && !dlgOpen then 1 else 0) &&
              (livegraph != null ==>
                 livegraph.calls == old(livegraph.calls) + (if redraws then RedrawCalls(LiveRole, redrawTime, broken) else [])) &&
              (livegraphNGDemand != null ==>
                 livegraphNGDemand.calls == old(livegraphNGDemand.calls) + (if redraws then RedrawCalls(DemandRole, redrawTime, broken) else [])) &&
              (livegraphNGFrequency != null ==>
                 livegraphNGFrequency.calls == old(livegraphNGFrequency.calls) + (if redraws then RedrawCalls(FrequencyRole, redrawTime, broken) else []))
    {
      StoreNgReading(ngdemand, ngfrequency, stamp);
      if ngdemand.Some? && ngfrequency.Some? && connectionType == ConnectionNone {
        var _ := RedrawGraph(redrawTime, broken);
      }
    }

    /** The buffers of updateNationalGridGraph, with the poll stored when both values came back. */
    method StoreNgReading(ngdemand: Option<real>, ngfrequency: Option<real>, stamp: Instant)
      requires Valid()
      modifies this`ngdatadates, this`ngdemandreadings, this`ngfreqreadings, this`ngfreqzeroline
      ensures Valid()
      ensures NgState() == Record(old(NgState()), ngdemand, ngfrequency, stamp)
    {
      var b := Record(NgState(), ngdemand, ngfrequency, stamp);
      ngdatadates, ngdemandreadings, ngfreqreadings, ngfreqzeroline := b.dates, b.demand, b.freq, b.zero;
    }

    /** prepareCurrentcostDataGraph: the given axes become the live graph, labelled in kW
        with a grid and the autoscale attribute cleared. */
    method PrepareCurrentcostDataGraph(graphaxes: Axes)
      requires Wired() && NotATwin(graphaxes)
      modifies this`livegraph, graphaxes`calls
      ensures Wired() && livegraph == graphaxes
      ensures graphaxes.calls == old(graphaxes.calls) + [Labelled("kW"), GridOn, AutoscaleAttributeOff]
    {
      livegraph := graphaxes;
      graphaxes.Apply(Labelled("kW"));
      graphaxes.Apply(GridOn);
      graphaxes.Apply(AutoscaleAttributeOff);
    }

    /**
      connect: optionally starts the generation poller (the user's answer to the
      download question), then takes the live graph, clears and prepares it, fixes the
      start time if there is none yet, starts a connection of the requested kind and
      attaches the span selector. A connection type other than MQTT or serial starts
      nothing.
     */
    method Connect(guihandle: LiveGui, connType: ConnectionType, graphaxes: Axes, downloadGeneration: bool,
                   ipaddr: string, topic: string, com: string, now: Instant)
      requires Wired() && NotATwin(graphaxes)
      modifies this`connectionType, this`livegraph, this`guicallback, this`starttime, this`mqttClient,
               this`comClient, graphaxes`calls, genClient`energyMix, genClient`emxClient,
               ({genClient.emxClient} - {null})`disconnect, ({genClient.emxClient} - {null})`wakeups
      ensures Wired()
      ensures connectionType == connType && livegraph == graphaxes && guicallback == guihandle
      ensures starttime == (if old(starttime).None? then Some(now) else old(starttime))
      ensures graphaxes.calls ==
                old(graphaxes.calls) + [Cleared, Labelled("kW"), GridOn, AutoscaleAttributeOff, SpanSelectorAttached]
      ensures connType == ConnectionMqtt ==>
                mqttClient != null && fresh(mqttClient) && mqttClient.started &&
                mqttClient.transport == ConnectionMqtt && mqttClient.address == ipaddr && mqttClient.topic == topic &&
                comClient == old(comClient)
      ensures connType == ConnectionSerial ==>
                comClient != null && fresh(comClient) && comClient.started &&
                comClient.transport == ConnectionSerial && comClient.address == com &&
                mqttClient == old(mqttClient)
      ensures connType == ConnectionNone ==> mqttClient == old(mqttClient) && comClient == old(comClient)
      ensures downloadGeneration ==>
                genClient.emxClient != null && fresh(genClient.emxClient) &&
                genClient.emxClient.started && !genClient.emxClient.disconnect &&
                (old(genClient.emxClient) != null ==> old(genClient.emxClient).disconnect && genClient.energyMix == DefaultMix())
      ensures !downloadGeneration ==>
                genClient.emxClient == old(genClient.emxClient) && genClient.energyMix == old(genClient.energyMix)
    {
      if downloadGeneration {
        genClient.StartBackgroundThread();
      }
      TakeLiveGraph(guihandle, connType, graphaxes, now);
      StartLiveConnection(ipaddr, topic, com);
      graphaxes.Apply(SpanSelectorAttached);
    }

    /** The part of connect before the connection starts: the handles are kept, the
        graph is cleared and prepared, and the start time is fixed if there is none yet. */
    method TakeLiveGraph(guihandle: LiveGui, connType: ConnectionType, graphaxes: Axes, now: Instant)
      requires Wired() && NotATwin(graphaxes)
      modifies this`connectionType, this`livegraph, this`guicallback, this`starttime, graphaxes`calls
      ensures Wired()
      ensures connectionType == connType && livegraph == graphaxes && guicallback == guihandle
      ensures starttime == (if old(starttime).None? then Some(now) else old(starttime))
      ensures graphaxes.calls == old(graphaxes.calls) + [Cleared, Labelled("kW"), GridOn, AutoscaleAttributeOff]
    {
      connectionType := connType;
      guicallback := guihandle;
      graphaxes.Apply(Cleared);
      PrepareCurrentcostDataGraph(graphaxes);
      starttime := if starttime.None? then Some(now) else starttime;
    }

    /** The connection thread connect starts for the current connection type. */
    method StartLiveConnection(ipaddr: string, topic: string, com: string)
      requires mqttClient != null ==> mqttClient != comClient
      modifies this`mqttClient, this`comClient
      ensures mqttClient != null ==> mqttClient != comClient
      ensures connectionType == ConnectionMqtt ==>
                mqttClient != null && fresh(mqttClient) && mqttClient.started &&
                mqttClient.transport == ConnectionMqtt && mqttClient.address == ipaddr && mqttClient.topic == topic &&
                comClient == old(comClient)
      ensures connectionType == ConnectionSerial ==>
                comClient != null && fresh(comClient) && comClient.started &&
                comClient.transport == ConnectionSerial && comClient.address == com &&
                mqttClient == old(mqttClient)
      ensures connectionType == ConnectionNone ==> mqttClient == old(mqttClient) && comClient == old(comClient)
    {
      if connectionType == ConnectionMqtt {
        var client := new LiveConnection(ConnectionMqtt, ipaddr, topic);
        client.Start();
        mqttClient := client;
      } else if connectionType == ConnectionSerial {
        var client := new LiveConnection(ConnectionSerial, com, "");
        client.Start();
        comClient := client;
      }
    }

    /**
      disconnect: marks the agent as closing, disconnects the connection of the current
      kind if there is one, stops the demand / frequency poller (keeping its handle) and
      the generation poller, and forgets the connection type and the live graph.
     */
    method Disconnect()
      requires Wired()
      modifies this`closing, this`connectionType, this`livegraph, ({mqttClient} - {null})`disconnectRequests,
               ({comClient} - {null})`disconnectRequests, ({ngdClient} - {null})`disconnect, genClient`energyMix,
               ({genClient.emxClient} - {null})`disconnect, ({genClient.emxClient} - {null})`wakeups
      ensures Wired()
      ensures closing && connectionType == ConnectionNone && livegraph == null
      ensures mqttClient != null ==>
                mqttClient.disconnectRequests ==
                  old(mqttClient.disconnectRequests) + (if old(connectionType) == ConnectionMqtt then 1 else 0)
      ensures comClient != null ==>
                comClient.disconnectRequests ==
                  old(comClient.disconnectRequests) + (if old(connectionType) == ConnectionSerial then 1 else 0)
      ensures ngdClient != null ==> ngdClient.disconnect
      ensures genClient.emxClient == old(genClient.emxClient)
      ensures old(genClient.emxClient) == null ==> genClient.energyMix == old(genClient.energyMix)
      ensures old(genClient.emxClient) != null ==> genClient.emxClient.disconnect && genClient.energyMix == DefaultMix()
    {
      closing := true;
      DisconnectLiveConnection();
      if ngdClient != null {
        ngdClient.StopUpdates();
      }
      genClient.StopBackgroundThread();
      connectionType := ConnectionNone;
      livegraph := null;
    }

    /** The connection of the current kind is asked to disconnect, if there is one. */
    method DisconnectLiveConnection()
      requires mqttClient != null ==> mqttClient != comClient
      modifies ({mqttClient} - {null})`disconnectRequests, ({comClient} - {null})`disconnectRequests
      ensures mqttClient != null ==>
                mqttClient.disconnectRequests ==
                  old(mqttClient.disconnectRequests) + (if connectionType == ConnectionMqtt then 1 else 0)
      ensures comClient != null ==>
                comClient.disconnectRequests ==
                  old(comClient.disconnectRequests) + (if connectionType == ConnectionSerial then 1 else 0)
    {
      if connectionType == ConnectionMqtt {
        if mqttClient != null {
          mqttClient.Disconnect();
        }
      } else if connectionType == ConnectionSerial {
        if comClient != null {
          comClient.Disconnect();
        }
      }
    }

    /** exitOnError: disconnects, then shows the message on the GUI if there is one. */
    method ExitOnError(errmsg: string)
      requires Wired()
      modifies this`closing, this`connectionType, this`livegraph, ({mqttClient} - {null})`disconnectRequests,
               ({comClient} - {null})`disconnectRequests, ({ngdClient} - {null})`disconnect, genClient`energyMix,
               ({genClient.emxClient} - {null})`disconnect, ({genClient.emxClient} - {null})`wakeups,
               ({guicallback} - {null})`comChecked, ({guicallback} - {null})`mqttChecked,
               ({guicallback} - {null})`failures
      ensures Wired()
      ensures closing && connectionType == ConnectionNone && livegraph == null
      ensures ngdClient != null ==> ngdClient.disconnect
      ensures guicallback != null ==>
                !guicallback.comChecked && !guicallback.mqttChecked &&
                guicallback.failures == old(guicallback.failures) + [errmsg]
    {
      Disconnect();
      if guicallback != null {
        guicallback.DisplayLiveConnectFailure(errmsg);
      }
    }

    /** The demand / frequency poller, created and started when there is none. */
    method StartPoller()
      modifies this`ngdClient
      ensures ngdClient != null
      ensures old(ngdClient) != null ==> ngdClient == old(ngdClient)
      ensures old(ngdClient) == null ==>
                fresh(ngdClient) && ngdClient.graphhandle == this && ngdClient.started && !ngdClient.disconnect
    {
      if ngdClient == null {
        var poller := new NationalGridUpdateThread(this);
        poller.Start();
        ngdClient := poller;
      }
    }

    /**
      startNationalGridDemandData: when demand is not already shown, shows it: fixes the
      start time if there is none, takes the given axes as the live graph if any, drops
      the frequency axes, creates the demand twin of the live graph if there is none
      (labelled in MW) and starts the poller if there is none. Without any live graph
      the twin cannot be made: twinx on None raises before the poller is started.
     */
    method StartNationalGridDemandData(livegraphaxes: Axes?, now: Instant) returns (fault: Option<LiveFault>)
      requires Wired() && NotATwin(livegraphaxes)
      modifies this`showNationalGridDemand, this`starttime, this`livegraph, this`livegraphNGFrequency,
               this`livegraphNGDemand, this`ngdClient
      ensures Wired()
      ensures old(showNationalGridDemand) ==> fault.None? && unchanged(this)
      ensures !old(showNationalGridDemand) ==>
                showNationalGridDemand &&
                starttime == (if old(starttime).None? then Some(now) else old(starttime)) &&
                livegraph == (if livegraphaxes != null then livegraphaxes else old(livegraph)) &&
                livegraphNGFrequency == null &&
                (fault.Some? <==> old(livegraphNGDemand) == null && livegraph == null) &&
                (fault.Some? ==> fault.value == NoLiveGraph && livegraphNGDemand == null && ngdClient == old(ngdClient))
      ensures !old(showNationalGridDemand) && old(livegraphNGDemand) != null ==>
                livegraphNGDemand == old(livegraphNGDemand)
      ensures !old(showNationalGridDemand) && old(livegraphNGDemand) == null && fault.None? ==>
                livegraphNGDemand != null && fresh(livegraphNGDemand) &&
                livegraphNGDemand.calls == [Labelled("UK electricity demand (MW)")]
      ensures !old(showNationalGridDemand) && fault.None? ==>
                ngdClient != null &&
                (old(ngdClient) != null ==> ngdClient == old(ngdClient)) &&
                (old(ngdClient) == null ==>
                   fresh(ngdClient) && ngdClient.graphhandle == this && ngdClient.started && !ngdClient.disconnect)
    {
      fault := None;
      if !showNationalGridDemand {
        showNationalGridDemand := true;
        starttime := if starttime.None? then Some(now) else starttime;
        livegraph := if livegraphaxes != null then livegraphaxes else livegraph;
        livegraphNGFrequency := null;
        if livegraphNGDemand == null {
          if livegraph == null {
            return Some(NoLiveGraph);
          }
          MakeDemandTwin();
        }
        StartPoller();
      }
    }

    /** The demand twin of the live graph, labelled in MW. */
    method MakeDemandTwin()
      requires Wired() && livegraph != null && livegraphNGFrequency == null
      modifies this`livegraphNGDemand
      ensures Wired() && livegraphNGDemand != null && fresh(livegraphNGDemand)
      ensures livegraphNGDemand.calls == [Labelled("UK electricity demand (MW)")]
    {
      var twin := livegraph.Twinx();
      twin.Apply(Labelled("UK electricity demand (MW)"));
      livegraphNGDemand := twin;
    }

    /**
      stopNationalGridDemandData: when demand is shown, hides it, stops the poller and
      drops it. Without a poller the stop raises (AttributeError on None) after the flag
      was cleared.
     */
    method StopNationalGridDemandData() returns (fault: Option<LiveFault>)
      modifies this`showNationalGridDemand, this`ngdClient, ({ngdClient} - {null})`disconnect
      ensures !old(showNationalGridDemand) ==>
                fault.None? && unchanged(this) &&
                (ngdClient != null ==> ngdClient.disconnect == old(ngdClient.disconnect))
      ensures old(showNationalGridDemand) ==> !showNationalGridDemand && ngdClient == null
      ensures old(showNationalGridDemand) && old(ngdClient) != null ==> fault.None? && old(ngdClient).disconnect
      ensures old(showNationalGridDemand) && old(ngdClient) == null ==> fault == Some(NoPoller)
    {
      fault := None;
      if showNationalGridDemand {
        showNationalGridDemand := false;
        if ngdClient == null {
          return Some(NoPoller);
        }
        ngdClient.StopUpdates();
        ngdClient := null;
      }
    }

    /** pauseNationalGridDemandData: hides demand and changes nothing else. */
    method PauseNationalGridDemandData()
      modifies this`showNationalGridDemand
      ensures !showNationalGridDemand
    {
      if showNationalGridDemand {
        showNationalGridDemand := false;
      }
    }

    /**
      startNationalGridFrequencyData: as for demand, with the roles of the two twins
      exchanged; a new frequency twin is labelled for supply and demand and the
      frequency tick formatter is created with it.
     */
    method StartNationalGridFrequencyData(livegraphaxes: Axes?, now: Instant) returns (fault: Option<LiveFault>)
      requires Wired() && NotATwin(livegraphaxes)
      modifies this`showNationalGridFrequency, this`starttime, this`livegraph, this`livegraphNGFrequency,
               this`livegraphNGDemand, this`ngdClient, this`hasFreqFormatter
      ensures Wired()
      ensures old(showNationalGridFrequency) ==> fault.None? && unchanged(this)
      ensures !old(showNationalGridFrequency) ==>
                showNationalGridFrequency &&
                starttime == (if old(starttime).None? then Some(now) else old(starttime)) &&
                livegraph == (if livegraphaxes != null then livegraphaxes else old(livegraph)) &&
                livegraphNGDemand == null &&
                (fault.Some? <==> old(livegraphNGFrequency) == null && livegraph == null) &&
                (fault.Some? ==>
                   fault.value == NoLiveGraph && livegraphNGFrequency == null && ngdClient == old(ngdClient) &&
                   hasFreqFormatter == old(hasFreqFormatter))
      ensures !old(showNationalGridFrequency) && old(livegraphNGFrequency) != null ==>
                livegraphNGFrequency == old(livegraphNGFrequency) && hasFreqFormatter == old(hasFreqFormatter)
      ensures !old(showNationalGridFrequency) && old(livegraphNGFrequency) == null && fault.None? ==>
                livegraphNGFrequency != null && fresh(livegraphNGFrequency) && hasFreqFormatter &&
                livegraphNGFrequency.calls == [Labelled("UK national electricity supply vs demand")]
      ensures !old(showNationalGridFrequency) && fault.None? ==>
                ngdClient != null &&
                (old(ngdClient) != null ==> ngdClient == old(ngdClient)) &&
                (old(ngdClient) == null ==>
                   fresh(ngdClient) && ngdClient.graphhandle == this && ngdClient.started && !ngdClient.disconnect)
    {
      fault := None;
      if !showNationalGridFrequency {
        showNationalGridFrequency := true;
        starttime := if starttime.None? then Some(now) else starttime;
        livegraph := if livegraphaxes != null then livegraphaxes else livegraph;
        livegraphNGDemand := null;
        if livegraphNGFrequency == null {
          if livegraph == null {
            return Some(NoLiveGraph);
          }
          MakeFrequencyTwin();
        }
        StartPoller();
      }
    }

    /** The frequency twin of the live graph, labelled for supply and demand, with its
        tick formatter. */
    method MakeFrequencyTwin()
      requires Wired() && livegraph != null && livegraphNGDemand == null
      modifies this`livegraphNGFrequency, this`hasFreqFormatter
      ensures Wired() && livegraphNGFrequency != null && fresh(livegraphNGFrequency) && hasFreqFormatter
      ensures livegraphNGFrequency.calls == [Labelled("UK national electricity supply vs demand")]
    {
      var twin := livegraph.Twinx();
      twin.Apply(Labelled("UK national electricity supply vs demand"));
      livegraphNGFrequency := twin;
      hasFreqFormatter := true;
    }

    /** stopNationalGridFrequencyData: as for demand. */
    method StopNationalGridFrequencyData() returns (fault: Option<LiveFault>)
      modifies this`showNationalGridFrequency, this`ngdClient, ({ngdClient} - {null})`disconnect
      ensures !old(showNationalGridFrequency) ==>
                fault.None? && unchanged(this) &&
                (ngdClient != null ==> ngdClient.disconnect == old(ngdClient.disconnect))
      ensures old(showNationalGridFrequency) ==> !showNationalGridFrequency && ngdClient == null
      ensures old(showNationalGridFrequency) && old(ngdClient) != null ==> fault.None? && old(ngdClient).disconnect
      ensures old(showNationalGridFrequency) && old(ngdClient) == null ==> fault == Some(NoPoller)
    {
      fault := None;
      if showNationalGridFrequency {
        showNationalGridFrequency := false;
        if ngdClient == null {
          return Some(NoPoller);
        }
        ngdClient.StopUpdates();
        ngdClient := null;
      }
    }

    /** pauseNationalGridFrequencyData: hides frequency and changes nothing else. */
    method PauseNationalGridFrequencyData()
      modifies this`showNationalGridFrequency
      ensures !showNationalGridFrequency
    {
      if showNationalGridFrequency {
        showNationalGridFrequency := false;
      }
    }

    /**
      onselect: the usage over the selected span [xmin, xmax), from the stored readings
      and the stored unit cost (None when no cost is stored), shown to the user in a
      dialog during which no redraw happens. A fault (the span reaching the last
      reading, or a stored cost float() rejects) propagates before any dialog.
     */
    method OnSelect(xmin: Instant, xmax: Instant, costSetting: Option<string>) returns (r: Result<SpanReport, SpanFault>)
      requires Valid()
      modifies this`dlgOpen, this`dialogs
      ensures r == SelectionReport(ccdates, ccreadings, xmin, xmax, costSetting)
      ensures r.Ok? ==> !dlgOpen && dialogs == old(dialogs) + [r.value]
      ensures r.Err? ==> dlgOpen == old(dlgOpen) && dialogs == old(dialogs)
    {
      var scan := ScanSpan(ccdates, ccreadings, xmin, xmax);
      if scan.Err? {
        return Err(scan.error);
      }
      r := Report(ccdates, xmin, xmax, scan.value, costSetting);
      if r.Ok? {
        dlgOpen := true;
        dialogs := dialogs + [r.value];
        dlgOpen := false;
      }
    }

    /** ExportLiveData: the header row, then one row per stored reading but the last. */
    method ExportLiveData() returns (rows: seq<CsvRow>)
      requires Valid()
      ensures |rows| == (if |ccdates| > 0 then |ccdates| else 1)
      ensures rows[0] == HeaderRow("Time", "kWH")
      ensures forall i :: 0 <= i < |rows| - 1 ==> rows[i + 1] == DataRow(ccdates[i], ccreadings[i])
    {
      rows := [HeaderRow("Time", "kWH")];
      var n := if |ccdates| > 0 then |ccdates| - 1 else 0;
      for i := 0 to n
        invariant |rows| == i + 1 && rows[0] == HeaderRow("Time", "kWH")
        invariant forall j :: 0 <= j < i ==> rows[j + 1] == DataRow(ccdates[j], ccreadings[j])
      {
        rows := rows + [DataRow(ccdates[i], ccreadings[i])];
      }
    }
  }
}
