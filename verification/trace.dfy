/** Runs of the polling loop: the detector driven through a sequence of
    iterations, and the properties that relate many iterations to one another. */
module Trace {
  import opened Clock
  import opened Events
  import opened Detector

  /** The inputs of one loop iteration: the clock, the lid reading, and the
      weight the scale would report if this iteration samples it. */
  datatype Input = Input(now: Time, lidClosed: bool, weight: real)

  datatype RunOutcome = RunOutcome(state: State, lidEvents: seq<LidEvent>, netEvents: seq<NetEvent>)

  function ToSeq<T>(o: Option<T>): (r: seq<T>)
    ensures |r| <= 1
  {
    match o
    case Some(v) => [v]
    case None => []
  }

  /** The detector driven through `ins`, one `Step` per input, collecting the
      emitted events in order. Each iteration emits at most one event of each
      sort. */
  function Run(s: State, ins: seq<Input>): (r: RunOutcome)
    ensures |r.lidEvents| <= |ins| && |r.netEvents| <= |ins|
    decreases |ins|
  {
    if |ins| == 0 then
      RunOutcome(s, [], [])
    else
      var o := Step(s, ins[0].now, ins[0].lidClosed, ins[0].weight);
      var rest := Run(o.state, ins[1..]);
      RunOutcome(rest.state, ToSeq(o.lid) + rest.lidEvents, ToSeq(o.net) + rest.netEvents)
  }

  /** One iteration followed by the rest of the run. */
  lemma RunCons(s: State, ins: seq<Input>)
    requires |ins| > 0
    ensures var o := Step(s, ins[0].now, ins[0].lidClosed, ins[0].weight);
            var rest := Run(o.state, ins[1..]);
            && Run(s, ins).state == rest.state
            && Run(s, ins).lidEvents == ToSeq(o.lid) + rest.lidEvents
            && Run(s, ins).netEvents == ToSeq(o.net) + rest.netEvents
  {
  }

  // ---------------------------------------------------------------------------
  // Lid transitions over a run

  /** The lid messages a sequence of readings calls for, starting from the
      remembered reading `prev`: one message, naming the new reading, at each
      position where the reading differs from the one before it. */
  function LidTrace(prev: bool, ins: seq<Input>): seq<LidEvent>
    decreases |ins|
  {
    if |ins| == 0 then []
    else (if ins[0].lidClosed != prev then [LidMessage(ins[0].lidClosed)] else [])
         + LidTrace(ins[0].lidClosed, ins[1..])
  }

  /** The reading remembered after the readings `ins`, starting from `prev`. */
  function LastReading(prev: bool, ins: seq<Input>): bool
  {
    if |ins| == 0 then prev else ins[|ins| - 1].lidClosed
  }

  predicate Alternating(evs: seq<LidEvent>)
  {
    forall i :: 0 <= i < |evs| - 1 ==> evs[i] != evs[i + 1]
  }

  /** The lid messages of a run depend on the lid readings alone, and the run
      ends remembering the last reading. */
  lemma {:induction false} RunLidEvents(s: State, ins: seq<Input>)
    ensures Run(s, ins).lidEvents == LidTrace(s.lastLidClosed, ins)
    ensures Run(s, ins).state.lastLidClosed == LastReading(s.lastLidClosed, ins)
    decreases |ins|
  {
    if |ins| > 0 {
      var o := Step(s, ins[0].now, ins[0].lidClosed, ins[0].weight);
      RunLidEvents(o.state, ins[1..]);
      assert ToSeq(o.lid) == (if ins[0].lidClosed != s.lastLidClosed then [LidMessage(ins[0].lidClosed)] else []);
      if |ins| > 1 {
        assert ins[1..][|ins[1..]| - 1] == ins[|ins| - 1];
      }
    }
  }

  /** The first lid message reports the opposite of the reading remembered
      at the start. */
  lemma {:induction false} LidTraceFirst(prev: bool, ins: seq<Input>)
    ensures |LidTrace(prev, ins)| > 0 ==> LidTrace(prev, ins)[0] == LidMessage(!prev)
    decreases |ins|
  {
    if |ins| > 0 && ins[0].lidClosed == prev {
      assert LidTrace(prev, ins) == LidTrace(prev, ins[1..]);
      LidTraceFirst(prev, ins[1..]);
    }
  }

  /** The last lid message reports the reading remembered at the end; with no
      message, the remembered reading is unchanged. */
  lemma {:induction false} LidTraceLast(prev: bool, ins: seq<Input>)
    ensures LidTrace(prev, ins) == [] ==> LastReading(prev, ins) == prev
    ensures var evs := LidTrace(prev, ins);
            |evs| > 0 ==> evs[|evs| - 1] == LidMessage(LastReading(prev, ins))
    decreases |ins|
  {
    if |ins| > 0 {
      var r := ins[0].lidClosed;
      var rest := LidTrace(r, ins[1..]);
      var head := if r != prev then [LidMessage(r)] else [];
      LidTraceLast(r, ins[1..]);
      assert LidTrace(prev, ins) == head + rest;
      assert LastReading(prev, ins) == LastReading(r, ins[1..]) by {
        if |ins| > 1 {
          assert ins[1..][|ins[1..]| - 1] == ins[|ins| - 1];
        }
      }
      if rest != [] {
        assert (head + rest)[|head + rest| - 1] == rest[|rest| - 1];
      }
    }
  }

  /** The lid messages alternate between closed and open. */
  lemma {:induction false} LidTraceAlternates(prev: bool, ins: seq<Input>)
    ensures Alternating(LidTrace(prev, ins))
    decreases |ins|
  {
    if |ins| > 0 {
      var r := ins[0].lidClosed;
      var rest := LidTrace(r, ins[1..]);
      LidTraceAlternates(r, ins[1..]);
      if r != prev {
        LidTraceFirst(r, ins[1..]);
        var evs := [LidMessage(r)] + rest;
        assert LidTrace(prev, ins) == evs;
        forall i | 0 <= i < |evs| - 1
          ensures evs[i] != evs[i + 1]
        {
          if i == 0 {
            assert evs[1] == rest[0] == LidMessage(!r);
          } else {
            assert evs[i] == rest[i - 1] && evs[i + 1] == rest[i];
          }
        }
      } else {
        assert LidTrace(prev, ins) == rest;
      }
    }
  }

  // ---------------------------------------------------------------------------
  // Accumulation of accepted changes

  function Sum(xs: seq<real>): real
    decreases |xs|
  {
    if |xs| == 0 then 0.0 else xs[0] + Sum(xs[1..])
  }

  /** The weights the scale is actually asked for during the inputs `ins`,
      starting from the sample time `lastRead`: an input's weight is taken
      exactly when at least one sampling period has passed since the last
      taken sample, and taking it moves the sample time to that input. */
  function SampledWeights(lastRead: Time, ins: seq<Input>): seq<real>
    decreases |ins|
  {
    if |ins| == 0 then []
    else if Elapsed(ins[0].now, lastRead) >= MeasureMs then [ins[0].weight] + SampledWeights(ins[0].now, ins[1..])
    else SampledWeights(lastRead, ins[1..])
  }

  /** The time of the last sample taken during `ins`, or `lastRead` when none is. */
  function LastSampleTime(lastRead: Time, ins: seq<Input>): Time
    decreases |ins|
  {
    if |ins| == 0 then lastRead
    else if Elapsed(ins[0].now, lastRead) >= MeasureMs then LastSampleTime(ins[0].now, ins[1..])
    else LastSampleTime(lastRead, ins[1..])
  }

  /** The last element of `ws`, or `default` when `ws` is empty. */
  function LastOr(default: real, ws: seq<real>): real
  {
    if |ws| == 0 then default else ws[|ws| - 1]
  }

  /** The changes between consecutive readings, starting from `prev`, that
      exceed the noise threshold, in order. */
  function Accepted(prev: real, ws: seq<real>): seq<real>
    decreases |ws|
  {
    if |ws| == 0 then []
    else (if Abs(ws[0] - prev) > NoiseG then [ws[0] - prev] else []) + Accepted(ws[0], ws[1..])
  }

  /** The changes between consecutive readings, starting from `prev`, that the
      noise filter discards, in order. */
  function Rejected(prev: real, ws: seq<real>): seq<real>
    decreases |ws|
  {
    if |ws| == 0 then []
    else (if Abs(ws[0] - prev) > NoiseG then [] else [ws[0] - prev]) + Rejected(ws[0], ws[1..])
  }

  lemma {:induction false} SumConcat(xs: seq<real>, ys: seq<real>)
    ensures Sum(xs + ys) == Sum(xs) + Sum(ys)
    decreases |xs|
  {
    if |xs| > 0 {
      assert (xs + ys)[1..] == xs[1..] + ys;
      SumConcat(xs[1..], ys);
    } else {
      assert xs + ys == ys;
    }
  }

  /** Every change between consecutive readings is either accepted or
      rejected, so together they telescope to the total change of the
      readings; each rejected change is at most the noise threshold in size,
      so the accepted changes differ from the total change by at most the
      threshold per reading. */
  lemma {:induction false} AcceptedPlusRejected(prev: real, ws: seq<real>)
    ensures |ws| > 0 ==> Sum(Accepted(prev, ws)) + Sum(Rejected(prev, ws)) == ws[|ws| - 1] - prev
    ensures |ws| == 0 ==> Accepted(prev, ws) == [] && Rejected(prev, ws) == []
    ensures Abs(Sum(Rejected(prev, ws))) <= NoiseG * (|ws| as real)
    decreases |ws|
  {
    if |ws| > 0 {
      var d := ws[0] - prev;
      var head := if Abs(d) > NoiseG then [d] else [];
      var headR := if Abs(d) > NoiseG then [] else [d];
      AcceptedPlusRejected(ws[0], ws[1..]);
      SumConcat(head, Accepted(ws[0], ws[1..]));
      SumConcat(headR, Rejected(ws[0], ws[1..]));
      assert Sum(head) + Sum(headR) == d;
      assert Abs(Sum(headR)) <= NoiseG;
      if |ws| > 1 {
        assert ws[1..][|ws[1..]| - 1] == ws[|ws| - 1];
      }
    }
  }

  /** Over any run, the detector ends on the last weight the scale was asked
      for, whether or not its change was accepted, and on that sample's time;
      with no sample taken, both are as they were. */
  lemma {:induction false} RunTracksLastSample(s: State, ins: seq<Input>)
    ensures Run(s, ins).state.lastWeight == LastOr(s.lastWeight, SampledWeights(s.lastRead, ins))
    ensures Run(s, ins).state.lastRead == LastSampleTime(s.lastRead, ins)
    decreases |ins|
  {
    if |ins| > 0 {
      var o := Step(s, ins[0].now, ins[0].lidClosed, ins[0].weight);
      RunCons(s, ins);
      RunTracksLastSample(o.state, ins[1..]);
      if GateOpen(s, ins[0].now) {
        var rest := SampledWeights(ins[0].now, ins[1..]);
        assert o.state.lastWeight == ins[0].weight && o.state.lastRead == ins[0].now;
        assert SampledWeights(s.lastRead, ins) == [ins[0].weight] + rest;
        assert LastOr(s.lastWeight, [ins[0].weight] + rest) == LastOr(ins[0].weight, rest);
      } else {
        assert o.state.lastWeight == s.lastWeight && o.state.lastRead == s.lastRead;
      }
    }
  }

  /** Over any run without a flush, the pending change grows by exactly the
      sum of the accepted changes between consecutive samples the scale was
      asked for, whatever the loop's cadence and however the changes fall
      across sampling periods. */
  lemma {:induction false} RunAccumulates(s: State, ins: seq<Input>)
    requires Run(s, ins).netEvents == []
    ensures Run(s, ins).state.accDelta == s.accDelta + Sum(Accepted(s.lastWeight, SampledWeights(s.lastRead, ins)))
    decreases |ins|
  {
    if |ins| > 0 {
      var o := Step(s, ins[0].now, ins[0].lidClosed, ins[0].weight);
      RunCons(s, ins);
      assert o.net.None? && Run(o.state, ins[1..]).netEvents == [] by {
        assert |ToSeq(o.net) + Run(o.state, ins[1..]).netEvents| == 0;
      }
      RunAccumulates(o.state, ins[1..]);
      if GateOpen(s, ins[0].now) {
        var d := ins[0].weight - s.lastWeight;
        var head := if Abs(d) > NoiseG then [d] else [];
        var rest := SampledWeights(ins[0].now, ins[1..]);
        assert o.state.accDelta == s.accDelta + Sum(head) && o.state.lastWeight == ins[0].weight
               && o.state.lastRead == ins[0].now;
        assert Sum(Accepted(s.lastWeight, SampledWeights(s.lastRead, ins)))
               == Sum(head) + Sum(Accepted(ins[0].weight, rest)) by {
          var ws := [ins[0].weight] + rest;
          assert SampledWeights(s.lastRead, ins) == ws;
          assert ws[0] == ins[0].weight && ws[1..] == rest;
          SumConcat(head, Accepted(ins[0].weight, rest));
        }
      } else {
        assert o.state.accDelta == s.accDelta && o.state.lastWeight == s.lastWeight
               && o.state.lastRead == s.lastRead;
      }
    }
  }

  /** The accepted changes add up to the total change of the readings up to
      the noise threshold per reading: discarded jitter is the only thing the
      noise filter loses. Together with `RunAccumulates` and
      `RunTracksLastSample`, the pending change of a run without a flush tracks
      the change between the weight remembered at the start and the last
      sampled weight this closely. */
  lemma AcceptedTracksTotal(prev: real, ws: seq<real>)
    requires |ws| > 0
    ensures Abs(Sum(Accepted(prev, ws)) - (ws[|ws| - 1] - prev)) <= NoiseG * (|ws| as real)
  {
    AcceptedPlusRejected(prev, ws);
    var rejected := Sum(Rejected(prev, ws));
    assert Sum(Accepted(prev, ws)) - (ws[|ws| - 1] - prev) == -rejected;
  }

  // ---------------------------------------------------------------------------
  // Quiet runs: at most one flush

  /** No iteration of the run from `s` takes a significant sample. */
  predicate NoSignificant(s: State, ins: seq<Input>)
    decreases |ins|
  {
    |ins| == 0
    || (!Significant(s, ins[0].now, ins[0].weight)
        && NoSignificant(Step(s, ins[0].now, ins[0].lidClosed, ins[0].weight).state, ins[1..]))
  }

  /** Without a significant sample, the pending change is flushed at most
      once, with its own magnitude, and nothing is emitted when nothing is
      pending. A flush clears the pending change; otherwise it is left as it
      was. Slow drift counts as quiet: every rejected change still moves the
      remembered weight. */
  lemma {:induction false} QuietRunFlushesAtMostOnce(s: State, ins: seq<Input>)
    requires NoSignificant(s, ins)
    ensures |Run(s, ins).netEvents| <= 1
    ensures s.accDelta == 0.0 ==> Run(s, ins).netEvents == []
    ensures Run(s, ins).netEvents != [] ==>
              Run(s, ins).state.accDelta == 0.0 && Run(s, ins).netEvents[0].magnitude == Magnitude(s.accDelta)
    ensures Run(s, ins).netEvents == [] ==> Run(s, ins).state.accDelta == s.accDelta
    decreases |ins|
  {
    if |ins| > 0 {
      var o := Step(s, ins[0].now, ins[0].lidClosed, ins[0].weight);
      RunCons(s, ins);
      QuietRunFlushesAtMostOnce(o.state, ins[1..]);
      if o.net.Some? {
        assert o.state.accDelta == 0.0;
        assert Run(o.state, ins[1..]).netEvents == [];
      } else {
        assert o.state.accDelta == s.accDelta;
      }
    }
  }

  /** After a flush, later iterations that take no significant sample never
      emit another net event. */
  lemma QuietAfterFlush(s: State, first: Input, ins: seq<Input>)
    requires Step(s, first.now, first.lidClosed, first.weight).net.Some?
    requires NoSignificant(Step(s, first.now, first.lidClosed, first.weight).state, ins)
    ensures Run(Step(s, first.now, first.lidClosed, first.weight).state, ins).netEvents == []
  {
    QuietRunFlushesAtMostOnce(Step(s, first.now, first.lidClosed, first.weight).state, ins);
  }

  /** Weight `w` lies in the band `[lo, lo + NoiseG]`. */
  predicate InBand(lo: real, w: real)
  {
    lo <= w <= lo + NoiseG
  }

  /** A mass that stays within one noise band never yields a significant sample. */
  lemma {:induction false} SteadyMassIsQuiet(s: State, ins: seq<Input>, lo: real)
    requires InBand(lo, s.lastWeight)
    requires forall i :: 0 <= i < |ins| ==> InBand(lo, ins[i].weight)
    ensures NoSignificant(s, ins)
    decreases |ins|
  {
    if |ins| > 0 {
      var o := Step(s, ins[0].now, ins[0].lidClosed, ins[0].weight);
      assert InBand(lo, o.state.lastWeight);
      SteadyMassIsQuiet(o.state, ins[1..], lo);
    }
  }

  /** Slow drift is not an event: after a flush at 400 g, samples of 409, 418
      and 427 g two seconds apart are each within the noise threshold of the
      one before, although no 10 g band holds them all. None of them is
      significant because the remembered weight follows each rejected sample,
      so the detector ends remembering 427 g and nothing is pending. A last
      iteration long after the stability window would flush anything wrongly
      accepted on the way, and emits nothing. */
  lemma DriftAfterFlushIsQuiet()
    ensures var s := State(400.0, 0.0, 10000, 10000, false);
            var ins := [Input(12000, false, 409.0), Input(14000, false, 418.0),
                        Input(16000, false, 427.0), Input(30000, false, 427.0)];
            && NoSignificant(s, ins)
            && Run(s, ins).netEvents == []
            && Run(s, ins).state.lastWeight == 427.0
            && Run(s, ins).state.accDelta == 0.0
  {
    var s := State(400.0, 0.0, 10000, 10000, false);
    var i0, i1, i2, i3 := Input(12000, false, 409.0), Input(14000, false, 418.0),
                          Input(16000, false, 427.0), Input(30000, false, 427.0);
    var ins := [i0, i1, i2, i3];
    var s1 := Step(s, 12000, false, 409.0).state;
    var s2 := Step(s1, 14000, false, 418.0).state;
    var s3 := Step(s2, 16000, false, 427.0).state;
    assert s1.lastWeight == 409.0 && s1.lastRead == 12000;
    assert s2.lastWeight == 418.0 && s2.lastRead == 14000;
    assert s3.lastWeight == 427.0 && s3.lastRead == 16000;
    assert ins[1..] == [i1, i2, i3] && [i1, i2, i3][1..] == [i2, i3] && [i2, i3][1..] == [i3];
    assert NoSignificant(s3, [i3]);
    assert NoSignificant(s2, [i2, i3]);
    assert NoSignificant(s1, [i1, i2, i3]);
    assert NoSignificant(s, ins);
    QuietRunFlushesAtMostOnce(s, ins);
    RunTracksLastSample(s, ins);
    assert SampledWeights(s3.lastRead, [i3]) == [427.0];
    assert SampledWeights(s2.lastRead, [i2, i3]) == [427.0, 427.0];
    assert SampledWeights(s1.lastRead, [i1, i2, i3]) == [418.0, 427.0, 427.0];
    assert SampledWeights(s.lastRead, ins) == [409.0, 418.0, 427.0, 427.0];
  }

  // ---------------------------------------------------------------------------
  // End-to-end scenario

  /** A mug at 500 g with the lid open is sampled every two seconds: it drops
      to 440 g (a 60 g change), then reads 441 g and 440 g (both jitter). One
      second after the last sample, five seconds have passed since the 60 g
      change, and exactly one event is emitted: drinking 60 ml. */
  lemma DrinkingScenario()
    ensures var s := Init(500.0, false, 0, 0);
            var ins := [Input(2000, false, 440.0), Input(4000, false, 441.0),
                        Input(6000, false, 440.0), Input(7000, false, 440.0)];
            Run(s, ins).netEvents == [NetEvent(Drinking, 60, 7000)]
            && Run(s, ins).lidEvents == []
            && Run(s, ins).state.accDelta == 0.0
  {
    var s := Init(500.0, false, 0, 0);
    var i0, i1, i2, i3 := Input(2000, false, 440.0), Input(4000, false, 441.0),
                          Input(6000, false, 440.0), Input(7000, false, 440.0);
    var ins := [i0, i1, i2, i3];
    var o0 := Step(s, 2000, false, 440.0);
    assert o0.state == State(440.0, -60.0, 2000, 2000, false) && o0.net.None? && o0.lid.None?;
    var o1 := Step(o0.state, 4000, false, 441.0);
    assert o1.state == State(441.0, -60.0, 4000, 2000, false) && o1.net.None? && o1.lid.None?;
    var o2 := Step(o1.state, 6000, false, 440.0);
    assert o2.state == State(440.0, -60.0, 6000, 2000, false) && o2.net.None? && o2.lid.None?;
    var o3 := Step(o2.state, 7000, false, 440.0);
    assert Magnitude(-60.0) == 60;
    assert o3.net == Some(NetEvent(Drinking, 60, 7000)) && o3.lid.None? && o3.state.accDelta == 0.0;
    assert ins[1..] == [i1, i2, i3] && ins[1..][1..] == [i2, i3] && ins[1..][1..][1..] == [i3];
    assert Run(o3.state, []) == RunOutcome(o3.state, [], []);
    assert Run(o2.state, [i3]) == RunOutcome(o3.state, [], [NetEvent(Drinking, 60, 7000)]);
    assert Run(o1.state, [i2, i3]) == RunOutcome(o3.state, [], [NetEvent(Drinking, 60, 7000)]);
    assert Run(o0.state, [i1, i2, i3]) == RunOutcome(o3.state, [], [NetEvent(Drinking, 60, 7000)]);
  }
}
