/**
 * The sampler task: every 10 ms it reads the regulator's pressure, decides
 * from it whether the heart is in systole or diastole, counts the ticks
 * spent in the current phase, synthesises aortic and pulmonary pressures
 * from the phase progress, and offers the packet to the logging queue.
 *
 * The waveform's `sin` and `cos` are the function parameters `rise` and
 * `decay`, taken as already composed with the quarter-period scaling
 * (progress p gives sin(p * pi / 2) and cos(p * pi / 2)); `rand()` is the
 * non-negative integer `r`; the kernel tick read for the timestamp is `now`.
 */
module Sampler {
  import opened CommonTypes
  import opened Rtos
  import opened RealArith

  const SAMPLING_PERIOD_MS: nat := 10
  const SYSTOLE_TICKS: real := 300.0 / 10.0
  const DIASTOLE_TICKS: real := 700.0 / 10.0
  const SYSTOLE_THRESHOLD_BAR: real := 0.6

  const AORTIC_BASE_MMHG: real := 80.0
  const AORTIC_SWING_MMHG: real := 40.0
  const PULMONARY_BASE_MMHG: real := 10.0
  const PULMONARY_SWING_MMHG: real := 15.0

  datatype PulseState = StateDiastole | StateSystole

  /** The phase tracker: the current phase and the ticks spent in it. */
  datatype Tracker = Tracker(state: PulseState, ticks: U32)

  /** The tracker the loop starts from. */
  const INITIAL_TRACKER: Tracker := Tracker(StateDiastole, 0)

  /** The phase a regulator reading stands for. */
  function Classify(bar: real): (s: PulseState)
    ensures s == StateSystole <==> bar > SYSTOLE_THRESHOLD_BAR
  {
    if bar > SYSTOLE_THRESHOLD_BAR then StateSystole else StateDiastole
  }

  /** The value the loop uses for a reading: what the getter wrote, else the 0.0 it started from. */
  function FeedbackBar(written: Option<real>): real
  {
    match written
    case Some(bar) => bar
    case None => 0.0
  }

  /** One tick of the tracker: count the tick, then restart the count on a phase change. */
  function Track(t: Tracker, bar: real): Tracker
  {
    var counted := WrapU32(t.ticks + 1);
    var newState := Classify(bar);
    if newState != t.state then Tracker(newState, 0) else Tracker(t.state, counted)
  }

  /** Adding after a wrap-around is adding before it. */
  lemma WrapAdd(x: int, n: int)
    ensures WrapU32(WrapU32(x) + n) == WrapU32(x + n)
  {
    assert x % U32_MODULUS + n - (x + n) == -(x / U32_MODULUS) * U32_MODULUS;
  }

  /** The absolute deadline `n` periods after `start`, on the wrapping 32-bit tick counter. */
  function Deadline(start: U32, n: nat): U32
    decreases n
  {
    if n == 0 then start else Deadline(WrapU32(start + SAMPLING_PERIOD_MS), n - 1)
  }

  /** The deadline after `n` periods is the start plus 10 * n ms, modulo 2^32. */
  lemma {:induction false} DeadlineClosedForm(start: U32, n: nat)
    ensures Deadline(start, n) == WrapU32(start + SAMPLING_PERIOD_MS * n)
    decreases n
  {
    if n > 0 {
      DeadlineClosedForm(WrapU32(start + SAMPLING_PERIOD_MS), n - 1);
      WrapAdd(start + SAMPLING_PERIOD_MS, SAMPLING_PERIOD_MS * (n - 1));
    }
  }

  /** The tracker after a sequence of readings. */
  function TrackAll(t: Tracker, bars: seq<real>): Tracker
    decreases |bars|
  {
    if bars == [] then t else TrackAll(Track(t, bars[0]), bars[1..])
  }

  lemma {:induction false} TrackAllAppend(t: Tracker, a: seq<real>, b: seq<real>)
    ensures TrackAll(t, a + b) == TrackAll(TrackAll(t, a), b)
    decreases |a|
  {
    if a == [] {
      assert a + b == b;
    } else {
      assert (a + b)[0] == a[0];
      assert (a + b)[1..] == a[1..] + b;
      TrackAllAppend(Track(t, a[0]), a[1..], b);
    }
  }

  /** Readings that keep the phase only advance the tick count (modulo 2^32). */
  lemma {:induction false} TicksCountSamePhase(t: Tracker, bars: seq<real>)
    requires forall i :: 0 <= i < |bars| ==> Classify(bars[i]) == t.state
    ensures TrackAll(t, bars) == Tracker(t.state, WrapU32(t.ticks + |bars|))
    decreases |bars|
  {
    if bars != [] {
      var next := Tracker(t.state, WrapU32(t.ticks + 1));
      assert Track(t, bars[0]) == next;
      TicksCountSamePhase(next, bars[1..]);
      WrapAdd(t.ticks + 1, |bars| - 1);
    }
  }

  /**
   * The tick count is the number of samples since the phase was entered:
   * after a reading that changes the phase and then readings that keep it,
   * the count equals the number of those later readings.
   */
  lemma TicksSincePhaseEntry(t: Tracker, before: seq<real>, entry: real, after: seq<real>)
    requires Classify(entry) != TrackAll(t, before).state
    requires forall i :: 0 <= i < |after| ==> Classify(after[i]) == Classify(entry)
    ensures TrackAll(t, before + [entry] + after) == Tracker(Classify(entry), WrapU32(|after|))
  {
    TrackAllAppend(t, before + [entry], after);
    TrackAllAppend(t, before, [entry]);
    assert [entry][1..] == [];
    assert TrackAll(TrackAll(t, before), [entry]) == Tracker(Classify(entry), 0);
    TicksCountSamePhase(Tracker(Classify(entry), 0), after);
  }

  /** The nominal length of a phase in ticks. */
  function PhaseTicks(s: PulseState): (n: real)
    ensures n > 0.0
  {
    if s == StateSystole then SYSTOLE_TICKS else DIASTOLE_TICKS
  }

  /** Phase progress: ticks over the phase length, clamped to at most 1. */
  function Progress(ticks: U32, phaseTicks: real): (p: real)
    requires phaseTicks > 0.0
    ensures 0.0 <= p <= 1.0
    ensures ticks as real <= phaseTicks ==> p == ticks as real / phaseTicks
    ensures ticks as real >= phaseTicks ==> p == 1.0
  {
    var phase := ticks as real / phaseTicks;
    QuotientVersusOne(ticks as real, phaseTicks);
    if phase > 1.0 then 1.0 else phase
  }

  /** Progress never decreases as the tick count grows. */
  lemma ProgressMonotone(t1: U32, t2: U32, phaseTicks: real)
    requires phaseTicks > 0.0 && t1 <= t2
    ensures Progress(t1, phaseTicks) <= Progress(t2, phaseTicks)
  {
    QuotientMonotone(t1 as real, t2 as real, phaseTicks);
  }

  /** The jitter `(rand() % 100 - 50) / 100` for a non-negative `rand()` value. */
  function Jitter(r: nat): (j: real)
    ensures -0.5 <= j <= 0.49
    ensures j == -0.5 <==> r % 100 == 0
  {
    ((r % 100 - 50) as real) / 100.0
  }

  /** The curve value for the current phase: the rising curve in systole, the decaying one in diastole. */
  function Curve(t: Tracker, rise: real -> real, decay: real -> real): real
  {
    var phase := Progress(t.ticks, PhaseTicks(t.state));
    if t.state == StateSystole then rise(phase) else decay(phase)
  }

  /** Aortic pressure: 80 mmHg plus 40 times the curve, plus jitter. */
  function AorticPressure(curve: real, jitter: real): (mmHg: real)
    ensures 0.0 <= curve <= 1.0 ==> 80.0 + jitter <= mmHg <= 120.0 + jitter
    ensures curve == 0.0 ==> mmHg == 80.0 + jitter
    ensures curve == 1.0 ==> mmHg == 120.0 + jitter
  {
    AORTIC_BASE_MMHG + (AORTIC_SWING_MMHG * curve) + jitter
  }

  /** Pulmonary pressure: 10 mmHg plus 15 times the curve, plus jitter. */
  function PulmonaryPressure(curve: real, jitter: real): (mmHg: real)
    ensures 0.0 <= curve <= 1.0 ==> 10.0 + jitter <= mmHg <= 25.0 + jitter
    ensures curve == 0.0 ==> mmHg == 10.0 + jitter
    ensures curve == 1.0 ==> mmHg == 25.0 + jitter
  {
    PULMONARY_BASE_MMHG + (PULMONARY_SWING_MMHG * curve) + jitter
  }

  /** The packet one iteration publishes, given the tracker after that iteration. */
  function Packet(now: U32, bar: real, t: Tracker, rise: real -> real, decay: real -> real, r: nat)
    : (d: SensorData)
    ensures d.timestampMs == now && d.regulatorBar == bar
    ensures 0.0 <= Curve(t, rise, decay) <= 1.0 ==>
              80.0 + Jitter(r) <= d.aorticMmHg <= 120.0 + Jitter(r) &&
              10.0 + Jitter(r) <= d.pulmonaryMmHg <= 25.0 + Jitter(r)
  {
    var curve := Curve(t, rise, decay);
    SensorData(now, AorticPressure(curve, Jitter(r)), PulmonaryPressure(curve, Jitter(r)), bar)
  }

  /**
   * Without jitter, the aortic pressure rises with the ticks spent in
   * systole when the rising curve is non-decreasing on [0, 1].
   */
  lemma SystoleAorticRises(rise: real -> real, decay: real -> real, t1: U32, t2: U32)
    requires forall x: real, y: real :: 0.0 <= x <= y <= 1.0 ==> rise(x) <= rise(y)
    requires t1 <= t2
    ensures AorticPressure(Curve(Tracker(StateSystole, t1), rise, decay), 0.0)
         <= AorticPressure(Curve(Tracker(StateSystole, t2), rise, decay), 0.0)
  {
    ProgressMonotone(t1, t2, SYSTOLE_TICKS);
  }

  /**
   * Without jitter, the aortic pressure falls with the ticks spent in
   * diastole when the decaying curve is non-increasing on [0, 1].
   */
  lemma DiastoleAorticFalls(rise: real -> real, decay: real -> real, t1: U32, t2: U32)
    requires forall x: real, y: real :: 0.0 <= x <= y <= 1.0 ==> decay(y) <= decay(x)
    requires t1 <= t2
    ensures AorticPressure(Curve(Tracker(StateDiastole, t2), rise, decay), 0.0)
         <= AorticPressure(Curve(Tracker(StateDiastole, t1), rise, decay), 0.0)
  {
    ProgressMonotone(t1, t2, DIASTOLE_TICKS);
  }

  /** What the environment supplies to one iteration. */
  datatype SampleInput = SampleInput(now: U32, feedback: Option<real>, r: nat)

  /** The regulator readings of a sequence of iterations. */
  function Bars(ins: seq<SampleInput>): (bars: seq<real>)
    ensures |bars| == |ins|
  {
    if ins == [] then [] else [FeedbackBar(ins[0].feedback)] + Bars(ins[1..])
  }

  /** The packets of a sequence of iterations, starting from tracker `t`. */
  function Packets(t: Tracker, ins: seq<SampleInput>, rise: real -> real, decay: real -> real)
    : (ps: seq<SensorData>)
    ensures |ps| == |ins|
    decreases |ins|
  {
    if ins == [] then []
    else
      var bar := FeedbackBar(ins[0].feedback);
      var next := Track(t, bar);
      [Packet(ins[0].now, bar, next, rise, decay, ins[0].r)] + Packets(next, ins[1..], rise, decay)
  }

  /**
   * The k-th packet of a run carries the k-th timestamp and reading, and its
   * waveform is computed from the tracker after the first k + 1 readings.
   */
  lemma {:induction false} PacketsFollowTracker(t: Tracker, ins: seq<SampleInput>, rise: real -> real, decay: real -> real)
    ensures forall k :: 0 <= k < |ins| ==>
      Packets(t, ins, rise, decay)[k] ==
        Packet(ins[k].now, FeedbackBar(ins[k].feedback), TrackAll(t, Bars(ins[..k + 1])), rise, decay, ins[k].r)
    decreases |ins|
  {
    if ins != [] {
      var bar := FeedbackBar(ins[0].feedback);
      var next := Track(t, bar);
      PacketsFollowTracker(next, ins[1..], rise, decay);
      forall k | 0 <= k < |ins|
        ensures Packets(t, ins, rise, decay)[k] ==
          Packet(ins[k].now, FeedbackBar(ins[k].feedback), TrackAll(t, Bars(ins[..k + 1])), rise, decay, ins[k].r)
      {
        var pre := ins[..k + 1];
        assert pre[0] == ins[0];
        assert pre[1..] == ins[1..][..k];
        assert Bars(pre) == [bar] + Bars(ins[1..][..k]);
        assert TrackAll(t, Bars(pre)) == TrackAll(next, Bars(ins[1..][..k]));
        if k > 0 {
          assert Packets(t, ins, rise, decay)[k] == Packets(next, ins[1..], rise, decay)[k - 1];
          assert ins[1..][..k] == ins[1..][..(k - 1) + 1];
        }
      }
    }
  }

  /** The part of the loop state that carries over: the deadline, the phase tracker and the logging queue. */
  datatype LoopState = LoopState(wake: U32, tracker: Tracker, items: seq<SensorData>)

  /** One iteration on the loop state. */
  function StepState(s: LoopState, capacity: nat, input: SampleInput, rise: real -> real, decay: real -> real)
    : LoopState
  {
    var bar := FeedbackBar(input.feedback);
    var next := Track(s.tracker, bar);
    LoopState(WrapU32(s.wake + SAMPLING_PERIOD_MS), next, PutOne(s.items, capacity, Packet(input.now, bar, next, rise, decay, input.r)))
  }

  /** The loop state after a sequence of iterations. */
  function RunFrom(s: LoopState, capacity: nat, ins: seq<SampleInput>, rise: real -> real, decay: real -> real)
    : LoopState
    decreases |ins|
  {
    if ins == [] then s else RunFrom(StepState(s, capacity, ins[0], rise, decay), capacity, ins[1..], rise, decay)
  }

  /**
   * A run, iteration by iteration, ends one period per iteration after the
   * start, with the tracker of all the readings, and with the queue that
   * offering all the packets in order produces.
   */
  lemma {:induction false} RunFromSummary(s: LoopState, capacity: nat, ins: seq<SampleInput>,
                                          rise: real -> real, decay: real -> real)
    ensures RunFrom(s, capacity, ins, rise, decay)
         == LoopState(Deadline(s.wake, |ins|), TrackAll(s.tracker, Bars(ins)), Offer(s.items, capacity, Packets(s.tracker, ins, rise, decay)))
    decreases |ins|
  {
    if ins != [] {
      var s' := StepState(s, capacity, ins[0], rise, decay);
      RunFromSummary(s', capacity, ins[1..], rise, decay);
      var ps := Packets(s.tracker, ins, rise, decay);
      assert ps[1..] == Packets(s'.tracker, ins[1..], rise, decay);
      assert Bars(ins)[1..] == Bars(ins[1..]);
    }
  }

  /** The state of the sampler loop: the packet, the next deadline and the phase tracker. */
  class SensorLoop {
    const queue: MessageQueue<SensorData>
    var data: SensorData
    var nextWake: U32
    var currentState: PulseState
    var ticksInState: U32

    function Tracked(): Tracker
      reads this
    {
      Tracker(currentState, ticksInState)
    }

    /** Entry into the loop: a zeroed packet, the deadline at the start tick, diastole with no ticks. */
    constructor (queue: MessageQueue<SensorData>, startTick: U32)
      ensures this.queue == queue
      ensures data == ZERO_SENSOR_DATA && nextWake == startTick
      ensures currentState == StateDiastole && ticksInState == 0
      ensures Tracked() == INITIAL_TRACKER
    {
      this.queue := queue;
      data := ZERO_SENSOR_DATA;
      nextWake := startTick;
      currentState := StateDiastole;
      ticksInState := 0;
    }

    /** One iteration of the loop. */
    method Step(now: U32, feedback: Option<real>, rise: real -> real, decay: real -> real, r: nat)
      requires queue.Valid()
      modifies this, queue
      ensures queue.Valid()
      ensures nextWake == WrapU32(old(nextWake) + SAMPLING_PERIOD_MS)
      ensures currentState == StateSystole <==> FeedbackBar(feedback) > SYSTOLE_THRESHOLD_BAR
      ensures ticksInState == if currentState != old(currentState) then 0 else WrapU32(old(ticksInState) + 1)
      ensures Tracked() == Track(old(Tracked()), FeedbackBar(feedback))
      ensures data == Packet(now, FeedbackBar(feedback), Tracked(), rise, decay, r)
      ensures data.regulatorBar == FeedbackBar(feedback) && data.timestampMs == now
      ensures queue.items == PutOne(old(queue.items), queue.capacity, data)
    {
      // 1. absolute deadline, then count the tick
      nextWake := WrapU32(nextWake + SAMPLING_PERIOD_MS);
      ticksInState := WrapU32(ticksInState + 1);

      // 2. timestamp
      data := data.(timestampMs := now);

      // 3. regulator reading; the getter's status is not looked at
      var currentPressure := 0.0;
      if feedback.Some? {
        currentPressure := feedback.value;
      }
      data := data.(regulatorBar := currentPressure);

      // 4. phase change restarts the count
      var newState := if data.regulatorBar > SYSTOLE_THRESHOLD_BAR then StateSystole else StateDiastole;
      if newState != currentState {
        currentState := newState;
        ticksInState := 0;
      }

      // 5. waveform
      var jitter := ((r % 100 - 50) as real) / 100.0;
      if currentState == StateSystole {
        var phase := ticksInState as real / SYSTOLE_TICKS;
        if phase > 1.0 {
          phase := 1.0;
        }
        var riseCurve := rise(phase);
        data := data.(aorticMmHg := AORTIC_BASE_MMHG + (AORTIC_SWING_MMHG * riseCurve) + jitter,
                      pulmonaryMmHg := PULMONARY_BASE_MMHG + (PULMONARY_SWING_MMHG * riseCurve) + jitter);
      } else {
        var phase := ticksInState as real / DIASTOLE_TICKS;
        if phase > 1.0 {
          phase := 1.0;
        }
        var decayCurve := decay(phase);
        data := data.(aorticMmHg := AORTIC_BASE_MMHG + (AORTIC_SWING_MMHG * decayCurve) + jitter,
                      pulmonaryMmHg := PULMONARY_BASE_MMHG + (PULMONARY_SWING_MMHG * decayCurve) + jitter);
      }

      // 6. one non-blocking offer to the logging queue
      var _ := queue.TryPut(data);
    }

    /** The loop run over a finite sequence of iterations. */
    method Run(ins: seq<SampleInput>, rise: real -> real, decay: real -> real)
      requires queue.Valid()
      modifies this, queue
      ensures queue.Valid()
      ensures nextWake == Deadline(old(nextWake), |ins|)
      ensures Tracked() == TrackAll(old(Tracked()), Bars(ins))
      ensures queue.items == Offer(old(queue.items), queue.capacity, Packets(old(Tracked()), ins, rise, decay))
    {
      ghost var goal := RunFrom(LoopState(nextWake, Tracked(), queue.items), queue.capacity, ins, rise, decay);
      var i := 0;
      while i < |ins|
        invariant 0 <= i <= |ins|
        invariant queue.Valid()
        invariant RunFrom(LoopState(nextWake, Tracked(), queue.items), queue.capacity, ins[i..], rise, decay) == goal
      {
        assert ins[i..][0] == ins[i] && ins[i..][1..] == ins[i + 1..];
        Step(ins[i].now, ins[i].feedback, rise, decay, ins[i].r);
        i := i + 1;
      }
      RunFromSummary(LoopState(old(nextWake), old(Tracked()), old(queue.items)), queue.capacity, ins, rise, decay);
    }
  }
}
