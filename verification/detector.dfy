/** The SmartMug event detector: the state kept in the firmware's globals and
    one iteration of its polling loop, split into the three blocks the loop
    runs in a fixed order (lid edge detection, weight sampling, flush). The
    sensor readings and the current time are inputs of each iteration. */
module Detector {
  import opened Clock
  import opened Events

  /** Sampling period of the scale. */
  const MeasureMs: Time := 2000
  /** Quiet time after the last significant change before a net event is flushed. */
  const StableMs: Time := 5000
  /** Weight changes of at most this many grams are treated as jitter. */
  const NoiseG: real := 10.0

  /** The detector state: last sampled weight, the pending net change, the time
      of the last sample, the time of the last significant change (or flush),
      and the last lid reading. */
  datatype State = State(
    lastWeight: real,
    accDelta: real,
    lastRead: Time,
    lastEventTime: Time,
    lastLidClosed: bool)

  /** The sampling block runs in this iteration. */
  predicate GateOpen(s: State, now: Time)
  {
    Elapsed(now, s.lastRead) >= MeasureMs
  }

  /** This iteration takes a sample whose change exceeds the noise threshold. */
  predicate Significant(s: State, now: Time, weight: real)
  {
    GateOpen(s, now) && Abs(weight - s.lastWeight) > NoiseG
  }

  /** A net change is pending and has been quiet for the stability window. */
  predicate FlushDue(s: State, now: Time)
  {
    s.accDelta != 0.0 && Elapsed(now, s.lastEventTime) >= StableMs
  }

  /** The state seeded at startup from the first weight and lid readings.
      Startup reads the clock twice, once for each timer. Nothing is pending,
      so no flush is due at any time, and the seeded lid reading cannot
      produce a transition when it is read again. */
  function Init(weight: real, lidClosed: bool, readAt: Time, eventAt: Time): (s: State)
    ensures s.accDelta == 0.0
    ensures forall now: Time :: !FlushDue(s, now)
    ensures s.lastWeight == weight && s.lastLidClosed == lidClosed
    ensures s.lastRead == readAt && s.lastEventTime == eventAt
  {
    State(weight, 0.0, readAt, eventAt, lidClosed)
  }

  datatype LidOutcome = LidOutcome(state: State, event: Option<LidEvent>)

  /** Lid edge detection: a message is produced exactly when the reading
      differs from the last one, it names the new reading, and the reading is
      remembered. Nothing else in the state changes. */
  function ObserveLid(s: State, lidClosed: bool): (r: LidOutcome)
    ensures r.event.Some? <==> lidClosed != s.lastLidClosed
    ensures r.event.Some? ==> r.event.value == LidMessage(lidClosed)
    ensures r.state.lastLidClosed == lidClosed
    ensures r.state.(lastLidClosed := s.lastLidClosed) == s
  {
    if lidClosed != s.lastLidClosed then
      LidOutcome(s.(lastLidClosed := lidClosed), Some(LidMessage(lidClosed)))
    else
      LidOutcome(s, None)
  }

  /** Fixed-period sampling with the noise filter. When the period has not
      passed, nothing changes. When it has, the sample time and the weight are
      always updated (drift is tracked even for rejected changes); a change
      beyond the threshold is added to the pending net change and restarts the
      quiet timer, a smaller one leaves both untouched. */
  function SampleWeight(s: State, now: Time, weight: real): (t: State)
    ensures !GateOpen(s, now) ==> t == s
    ensures GateOpen(s, now) ==> t.lastRead == now && t.lastWeight == weight
    ensures GateOpen(s, now) && !Significant(s, now, weight) ==>
              t.accDelta == s.accDelta && t.lastEventTime == s.lastEventTime
    ensures Significant(s, now, weight) ==>
              t.accDelta == s.accDelta + (weight - s.lastWeight) && t.lastEventTime == now
    ensures t.lastLidClosed == s.lastLidClosed
  {
    if Elapsed(now, s.lastRead) >= MeasureMs then
      var d := weight - s.lastWeight;
      var s' := s.(lastRead := now);
      var s'' := if Abs(d) > NoiseG then s'.(accDelta := s'.accDelta + d, lastEventTime := now) else s';
      s''.(lastWeight := weight)
    else
      s
  }

  datatype FlushOutcome = FlushOutcome(state: State, event: Option<NetEvent>)

  /** The flush. An event is produced exactly when a flush is due (so the
      firmware's empty-tag guard never suppresses one), its kind follows the
      physical reading of the table under the remembered lid reading, its magnitude
      is the truncated size of the pending change, and the flush clears the
      pending change and restarts the quiet timer. */
  function Flush(s: State, now: Time): (r: FlushOutcome)
    ensures r.event.Some? <==> FlushDue(s, now)
    ensures r.event.Some? ==>
              r.event.value == NetEvent(Kind(s.accDelta, s.lastLidClosed), Magnitude(s.accDelta), now)
    ensures FlushDue(s, now) ==> r.state == s.(accDelta := 0.0, lastEventTime := now)
    ensures !FlushDue(s, now) ==> r.state == s
  {
    if s.accDelta != 0.0 && Elapsed(now, s.lastEventTime) >= StableMs then
      var ml := s.accDelta;
      var event := match Classify(ml, s.lastLidClosed)
        case Some(k) => Some(NetEvent(k, Magnitude(ml), now))
        case None => None;
      FlushOutcome(s.(accDelta := 0.0, lastEventTime := now), event)
    else
      FlushOutcome(s, None)
  }

  datatype StepOutcome = StepOutcome(state: State, lid: Option<LidEvent>, net: Option<NetEvent>)

  /** One iteration of the polling loop: lid check, then sampling, then flush.
      The contract is stated against the state BEFORE the iteration, so it
      shows what the fixed order means: the net event is classified with this
      iteration's lid reading, and a significant sample in this iteration
      suppresses the flush even when the previous change has been quiet long
      enough. */
  function Step(s: State, now: Time, lidClosed: bool, weight: real): (r: StepOutcome)
    // lid edge detection
    ensures r.lid.Some? <==> lidClosed != s.lastLidClosed
    ensures r.lid.Some? ==> r.lid.value == LidMessage(lidClosed)
    ensures r.state.lastLidClosed == lidClosed
    // sampling gate and drift tracking
    ensures GateOpen(s, now) ==> r.state.lastRead == now && r.state.lastWeight == weight
    ensures !GateOpen(s, now) ==> r.state.lastRead == s.lastRead && r.state.lastWeight == s.lastWeight
    // a significant sample accumulates and suppresses the flush
    ensures Significant(s, now, weight) ==>
              r.net.None? && r.state.accDelta == s.accDelta + (weight - s.lastWeight)
              && r.state.lastEventTime == now
    // otherwise the flush fires exactly when due
    ensures !Significant(s, now, weight) ==> (r.net.Some? <==> FlushDue(s, now))
    ensures !Significant(s, now, weight) && r.net.None? ==>
              r.state.accDelta == s.accDelta && r.state.lastEventTime == s.lastEventTime
    // classification with this iteration's lid reading, then reset
    ensures r.net.Some? ==>
              r.net.value == NetEvent(Kind(s.accDelta, lidClosed), Magnitude(s.accDelta), now)
              && r.state.accDelta == 0.0 && r.state.lastEventTime == now
  {
    var lid := ObserveLid(s, lidClosed);
    var sampled := SampleWeight(lid.state, now, weight);
    var flush := Flush(sampled, now);
    StepOutcome(flush.state, lid.event, flush.event)
  }

  /** Startup is silent: in the first iteration, the lid reading seen at
      startup produces no lid message and no net event fires. */
  lemma InitIsSilent(weight: real, lidClosed: bool, readAt: Time, eventAt: Time, now: Time, w: real)
    ensures Step(Init(weight, lidClosed, readAt, eventAt), now, lidClosed, w).lid.None?
    ensures Step(Init(weight, lidClosed, readAt, eventAt), now, lidClosed, w).net.None?
  {
    var s := Init(weight, lidClosed, readAt, eventAt);
    assert !FlushDue(s, now);
  }

  /** Repeated equal lid readings never emit: after any iteration, an
      iteration with the same lid reading produces no lid message. */
  lemma RepeatedLidReadingIsSilent(s: State, now: Time, now': Time, lidClosed: bool, w: real, w': real)
    ensures Step(Step(s, now, lidClosed, w).state, now', lidClosed, w').lid.None?
  {
  }

  /** After a flush the detector is idle: the next iteration, if its sample
      is not significant, emits no net event. `Trace.QuietAfterFlush` extends
      this to a whole run in which no iteration takes a significant sample. */
  lemma FlushLeavesIdle(s: State, now: Time, lidClosed: bool, weight: real,
                        now': Time, lidClosed': bool, weight': real)
    requires Step(s, now, lidClosed, weight).net.Some?
    requires !Significant(Step(s, now, lidClosed, weight).state, now', weight')
    ensures Step(s, now, lidClosed, weight).state.accDelta == 0.0
    ensures Step(Step(s, now, lidClosed, weight).state, now', lidClosed', weight').net.None?
  {
  }

  /** Accepted changes that cancel exactly leave nothing pending: the
      iteration that completes the cancellation emits nothing, and neither
      does the next iteration if its sample is not significant. */
  lemma CancellationNeverFlushes(s: State, now: Time, lidClosed: bool, weight: real,
                                 now': Time, lidClosed': bool, weight': real)
    requires Significant(s, now, weight)
    requires s.accDelta + (weight - s.lastWeight) == 0.0
    requires !Significant(Step(s, now, lidClosed, weight).state, now', weight')
    ensures Step(s, now, lidClosed, weight).net.None?
    ensures Step(s, now, lidClosed, weight).state.accDelta == 0.0
    ensures Step(Step(s, now, lidClosed, weight).state, now', lidClosed', weight').net.None?
  {
  }

  /** Sampling before flushing matters: when a flush is due but this
      iteration's sample is significant, the flush block on its own would fire,
      yet the iteration emits nothing and keeps accumulating. */
  lemma SampleBeforeFlush(s: State, now: Time, lidClosed: bool, weight: real)
    requires FlushDue(s, now)
    requires Significant(s, now, weight)
    ensures Flush(s, now).event.Some?
    ensures Step(s, now, lidClosed, weight).net.None?
    ensures Step(s, now, lidClosed, weight).state.accDelta == s.accDelta + (weight - s.lastWeight)
  {
  }

  /** Elapsed time is unsigned: a clock reading one millisecond before the
      last significant change does not count as "too early" but as a wait of
      almost 2^32 ms, so a pending change is flushed at once, unless that
      iteration's own sample is significant. The loop never
      rejects such a reading; it relies on `millis()` only moving forward. */
  lemma ClockStepBackFlushes(s: State, lidClosed: bool, weight: real)
    requires s.accDelta != 0.0 && s.lastEventTime > 0
    requires !Significant(s, s.lastEventTime - 1, weight)
    ensures Step(s, s.lastEventTime - 1, lidClosed, weight).net.Some?
  {
    assert Elapsed(s.lastEventTime - 1, s.lastEventTime) == Modulus - 1;
  }

  /** The lid reading at flush time decides the kind: a 50 g loss accumulated
      while the lid was open is reported as throwing away when the lid is
      closed in the iteration that flushes, and as drinking if it stays open. */
  lemma LidAtFlushTime()
    ensures var s := State(400.0, -50.0, 1000, 1000, false);
            Step(s, 6000, true, 400.0).net == Some(NetEvent(Throwing, 50, 6000))
            && Step(s, 6000, false, 400.0).net == Some(NetEvent(Drinking, 50, 6000))
  {
    var s := State(400.0, -50.0, 1000, 1000, false);
    assert FlushDue(s, 6000);
    assert !Significant(s, 6000, 400.0);
  }
}
