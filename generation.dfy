/**
  The generation-mix side of the live graph: the twelve sources of National Grid
  electricity, the energy mix (percentage per source) that a background poller keeps
  up to date, and the split of one live reading across the sources.
 */
module Generation {
  import opened Wrappers

  /** The twelve generation sources, in the order the source lists them. */
  datatype Source =
    | CCGT | OCGT | OIL | COAL | NUCLEAR | WIND
    | PS | NPSHYD | OTHER | INTFR | INTIRL | UNKNOWN

  /** Every source once, in the order used for the stacked graph's streams. */
  const Sources: seq<Source> :=
    [CCGT, OCGT, OIL, COAL, NUCLEAR, WIND, PS, NPSHYD, OTHER, INTFR, INTIRL, UNKNOWN]

  /** Percentage of generation per source, as delivered by the grid feed. */
  type Mix = map<Source, real>

  /** A mix (or a split) that has an entry for every source. */
  predicate Complete(m: Mix) {
    forall s: Source :: s in m
  }

  /** The placeholder share given to every source but UNKNOWN until real data arrives. */
  const Negligible: real := 0.0000000000000000000000000001

  /** The position of a source in Sources. */
  function Index(s: Source): (i: nat)
    ensures i < |Sources| && Sources[i] == s
  {
    match s
    case CCGT => 0
    case OCGT => 1
    case OIL => 2
    case COAL => 3
    case NUCLEAR => 4
    case WIND => 5
    case PS => 6
    case NPSHYD => 7
    case OTHER => 8
    case INTFR => 9
    case INTIRL => 10
    case UNKNOWN => 11
  }

  /** Every source appears in Sources, exactly once. */
  lemma SourcesEnumeratesEverySource()
    ensures |Sources| == 12
    ensures forall s: Source :: s in Sources
    ensures forall i, j :: 0 <= i < j < |Sources| ==> Sources[i] != Sources[j]
  {
    forall s: Source ensures s in Sources {
      assert Sources[Index(s)] == s;
    }
  }

  /** The mix in effect before the first successful poll and after the poller stops:
      everything attributed to UNKNOWN. */
  function DefaultMix(): (m: Mix)
    ensures Complete(m)
    ensures m[UNKNOWN] == 100.0
    ensures forall s: Source :: s != UNKNOWN ==> m[s] == Negligible
  {
    SourcesEnumeratesEverySource();
    map s: Source | s in Sources :: if s == UNKNOWN then 100.0 else Negligible
  }

  /** Sum of the entries of a complete mix over a list of sources. */
  function SumOver(m: Mix, xs: seq<Source>): real
    requires Complete(m)
  {
    if xs == [] then 0.0 else m[xs[0]] + SumOver(m, xs[1..])
  }

  /** Total percentage of a complete mix. */
  function Total(m: Mix): real
    requires Complete(m)
  {
    SumOver(m, Sources)
  }

  /** Summing over two lists of sources one after the other. */
  lemma {:induction false} SumOverAppend(m: Mix, xs: seq<Source>, ys: seq<Source>)
    requires Complete(m)
    ensures SumOver(m, xs + ys) == SumOver(m, xs) + SumOver(m, ys)
  {
    if xs != [] {
      assert (xs + ys)[0] == xs[0];
      assert (xs + ys)[1..] == xs[1..] + ys;
      SumOverAppend(m, xs[1..], ys);
    } else {
      assert xs + ys == ys;
    }
  }

  lemma {:induction false} DefaultSumWithoutUnknown(xs: seq<Source>)
    requires UNKNOWN !in xs
    ensures SumOver(DefaultMix(), xs) == (|xs| as real) * Negligible
  {
    if xs != [] {
      DefaultSumWithoutUnknown(xs[1..]);
    }
  }

  /** Sources is the eleven named sources followed by UNKNOWN. */
  lemma SourcesEndWithUnknown(others: seq<Source>)
    requires others == Sources[..11]
    ensures Sources == others + [UNKNOWN] && |others| == 11 && UNKNOWN !in others
  {
  }

  /** The default mix totals 100% plus eleven negligible shares. */
  lemma DefaultMixTotal()
    ensures Total(DefaultMix()) == 100.0 + 11.0 * Negligible
  {
    var m, others := DefaultMix(), Sources[..11];
    SourcesEndWithUnknown(others);
    SumOverAppend(m, others, [UNKNOWN]);
    DefaultSumWithoutUnknown(others);
    assert [UNKNOWN][1..] == [];
  }

  /**
    The share of a reading (kW) drawn from each source: the source's percentage of the
    mix, divided by 100, times the reading. The source builds the result key by key and
    raises KeyError on the first source missing from the mix; that is the None result.
   */
  function SplitBySource(mix: Mix, reading: real): (r: Option<Mix>)
    ensures r.Some? <==> Complete(mix)
    ensures r.Some? ==> r.value.Keys == mix.Keys && Complete(r.value)
    ensures r.Some? ==> forall s: Source :: r.value[s] == (mix[s] / 100.0) * reading
  {
    if Complete(mix) then Some(map s: Source | s in mix :: (mix[s] / 100.0) * reading)
    else None
  }

  /** Splitting over any list of sources scales the summed percentages the same way. */
  lemma {:induction false} SplitSumOver(mix: Mix, reading: real, xs: seq<Source>)
    requires Complete(mix)
    ensures SumOver(SplitBySource(mix, reading).value, xs) == (SumOver(mix, xs) / 100.0) * reading
  {
    if xs != [] {
      SplitSumOver(mix, reading, xs[1..]);
      var split := SplitBySource(mix, reading).value;
      var a, rest := mix[xs[0]], SumOver(mix, xs[1..]);
      calc {
        SumOver(split, xs);
        split[xs[0]] + SumOver(split, xs[1..]);
        (a / 100.0) * reading + (rest / 100.0) * reading;
        { assert (a / 100.0) * reading + (rest / 100.0) * reading == ((a + rest) / 100.0) * reading; }
        ((a + rest) / 100.0) * reading;
      }
    }
  }

  /** The split of a reading adds up to the reading scaled by the mix's total percentage:
      with a mix totalling 100% the whole reading is apportioned, no more, no less. */
  lemma SplitApportionsReading(mix: Mix, reading: real)
    requires Complete(mix)
    ensures Total(SplitBySource(mix, reading).value) == (Total(mix) / 100.0) * reading
    ensures Total(mix) == 100.0 ==> Total(SplitBySource(mix, reading).value) == reading
  {
    SplitSumOver(mix, reading, Sources);
  }

  /** Under the default mix the whole reading is attributed to UNKNOWN. */
  lemma DefaultSplitIsUnknown(reading: real)
    ensures SplitBySource(DefaultMix(), reading).Some?
    ensures SplitBySource(DefaultMix(), reading).value[UNKNOWN] == reading
  {
  }

  /**
    The effect of a run of polls on the mix: every successful parse replaces the mix
    wholesale, every failed parse (None) leaves the last good mix in effect.
   */
  function LastGoodMix(mix: Mix, polls: seq<Option<Mix>>): Mix
  {
    if polls == [] then mix
    else match polls[|polls| - 1]
      case Some(m) => m
      case None => LastGoodMix(mix, polls[..|polls| - 1])
  }

  /** After a run of polls whose every parse failed the mix is the one it started with. */
  lemma {:induction false} FailedPollsKeepMix(mix: Mix, polls: seq<Option<Mix>>)
    requires forall i :: 0 <= i < |polls| ==> polls[i].None?
    ensures LastGoodMix(mix, polls) == mix
  {
    if polls != [] {
      var init := polls[..|polls| - 1];
      assert forall i :: 0 <= i < |init| ==> init[i] == polls[i];
      FailedPollsKeepMix(mix, init);
    }
  }

  /** After a run of polls the mix is the last one parsed. */
  lemma {:induction false} LastParsedMixWins(mix: Mix, polls: seq<Option<Mix>>, i: nat)
    requires i < |polls| && polls[i].Some?
    requires forall j :: i < j < |polls| ==> polls[j].None?
    ensures LastGoodMix(mix, polls) == polls[i].value
  {
    var n := |polls| - 1;
    if i < n {
      var init := polls[..n];
      assert init[i] == polls[i];
      assert forall j :: i < j < |init| ==> init[j] == polls[j];
      LastParsedMixWins(mix, init, i);
    }
  }

  /** The poller thread of electricitygeneration.py: polls the generation feed until
      its stop flag is raised. */
  class GridGenerationUpdateThread {
    const elecgen: CurrentCostElectricityGeneration
    var disconnect: bool
    var started: bool
    /** How many times the sleeper has been woken by a stop request. */
    ghost var wakeups: nat

    constructor (parent: CurrentCostElectricityGeneration)
      ensures elecgen == parent && !disconnect && !started && wakeups == 0
    {
      elecgen := parent;
      disconnect := false;
      started := false;
      wakeups := 0;
    }

    /** Thread.start: the poll loop is now running. */
    method Start()
      modifies this`started
      ensures started
    {
      started := true;
    }

    /** Raises the stop flag and wakes the sleeper so that the loop ends at once
        rather than after its 180-second wait. */
    method StopUpdates()
      modifies this`disconnect, this`wakeups
      ensures disconnect && wakeups == old(wakeups) + 1
    {
      disconnect := true;
      wakeups := wakeups + 1;
    }

    /**
      The poll loop, over the parse results of the polls it gets to make: each successful
      parse replaces the parent's mix, each failed parse is only logged. The loop checks
      the stop flag before every poll; a stop requested before the run makes no poll.
     */
    method Run(polls: seq<Option<Mix>>)
      modifies elecgen`energyMix
      ensures elecgen.energyMix ==
                (if disconnect then old(elecgen.energyMix) else LastGoodMix(old(elecgen.energyMix), polls))
    {
      var i := 0;
      while i < |polls| && !disconnect
        invariant 0 <= i <= |polls|
        invariant disconnect ==> i == 0
        invariant elecgen.energyMix == LastGoodMix(old(elecgen.energyMix), polls[..i])
        decreases |polls| - i
      {
        assert polls[..i + 1][..i] == polls[..i];
        match polls[i] {
          case Some(m) => elecgen.energyMix := m;
          case None =>
        }
        i := i + 1;
      }
      assert !disconnect ==> polls[..i] == polls;
    }
  }

  /** The generation component: the current mix and the poller that refreshes it. */
  class CurrentCostElectricityGeneration {
    var energyMix: Mix
    var emxClient: GridGenerationUpdateThread?

    constructor ()
      ensures energyMix == DefaultMix() && emxClient == null
    {
      energyMix := DefaultMix();
      emxClient := null;
    }

    /** Stops the poller, if there is one, and restores the default mix. The poller
        handle itself is kept. */
    method StopBackgroundThread()
      modifies this`energyMix, ({emxClient} - {null})`disconnect, ({emxClient} - {null})`wakeups
      ensures emxClient == old(emxClient)
      ensures old(emxClient) == null ==> energyMix == old(energyMix)
      ensures old(emxClient) != null ==>
                emxClient.disconnect && emxClient.wakeups == old(emxClient.wakeups) + 1 &&
                emxClient.started == old(emxClient.started) && energyMix == DefaultMix()
    {
      if emxClient != null {
        emxClient.StopUpdates();
        energyMix := DefaultMix();
      }
    }

    /** Starts a new poller, first stopping any existing one. */
    method StartBackgroundThread()
      modifies this`energyMix, this`emxClient, ({emxClient} - {null})`disconnect, ({emxClient} - {null})`wakeups
      ensures old(emxClient) != null ==> old(emxClient).disconnect && energyMix == DefaultMix()
      ensures old(emxClient) == null ==> energyMix == old(energyMix)
      ensures emxClient != null && fresh(emxClient)
      ensures emxClient.elecgen == this && emxClient.started && !emxClient.disconnect
    {
      if emxClient != null {
        StopBackgroundThread();
      }
      emxClient := new GridGenerationUpdateThread(this);
      emxClient.Start();
    }
  }
}
