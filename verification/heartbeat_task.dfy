/**
 * The pacemaker task: forever, it offers a systole command to the control
 * queue, sleeps 300 ms, offers a diastole command, and sleeps 700 ms. The
 * offers never block: a full queue refuses the command and the loop goes on.
 *
 * The task's effect on the world is recorded as a sequence of events (an
 * offered command, or a sleep of so many milliseconds); how long a sleep
 * really lasts is up to the kernel and is not modelled.
 */
module Heartbeat {
  import opened CommonTypes
  import opened Rtos

  const SYSTOLE_DURATION_MS: nat := 300
  const DIASTOLE_DURATION_MS: nat := 700

  /** What the task does, in order. */
  datatype PacerEvent = Send(cmd: PneumaticCommand) | Sleep(ms: nat)

  /** The events of one loop iteration. */
  const BEAT_EVENTS: seq<PacerEvent> :=
    [Send(SystoleStart), Sleep(SYSTOLE_DURATION_MS), Send(DiastoleStart), Sleep(DIASTOLE_DURATION_MS)]

  /** The commands one loop iteration offers. */
  const BEAT_SENDS: seq<PneumaticCommand> := [SystoleStart, DiastoleStart]

  /** The events of `n` loop iterations. */
  function Schedule(n: nat): (events: seq<PacerEvent>)
    ensures |events| == 4 * n
  {
    if n == 0 then [] else Schedule(n - 1) + BEAT_EVENTS
  }

  /** The commands offered by `n` loop iterations. */
  function Sends(n: nat): (cmds: seq<PneumaticCommand>)
    ensures |cmds| == 2 * n
  {
    if n == 0 then [] else Sends(n - 1) + BEAT_SENDS
  }

  /** The reference stream: the k-th command offered, counting from 0. */
  function CommandAt(k: nat): (cmd: PneumaticCommand)
    ensures cmd == SystoleStart <==> k % 2 == 0
  {
    if k % 2 == 0 then SystoleStart else DiastoleStart
  }

  /** The sleep that follows a command. */
  function DelayAfter(cmd: PneumaticCommand): (ms: nat)
    ensures ms == SYSTOLE_DURATION_MS <==> cmd == SystoleStart
    ensures ms == DIASTOLE_DURATION_MS <==> cmd == DiastoleStart
  {
    match cmd
    case SystoleStart => SYSTOLE_DURATION_MS
    case DiastoleStart => DIASTOLE_DURATION_MS
  }

  /** The total time slept in a sequence of events. */
  function TotalSleep(events: seq<PacerEvent>): nat
  {
    if events == [] then 0
    else TotalSleep(events[..|events| - 1]) + (match events[|events| - 1] case Sleep(ms) => ms case Send(_) => 0)
  }

  /**
   * The schedule strictly alternates a send and a sleep; the k-th send is
   * the k-th command of the reference stream and is followed by that
   * command's delay. In particular the first event is a systole command.
   */
  lemma {:induction false} ScheduleShape(n: nat)
    ensures forall j :: 0 <= j < |Schedule(n)| && j % 2 == 0 ==> Schedule(n)[j] == Send(CommandAt(j / 2))
    ensures forall j :: 0 <= j < |Schedule(n)| && j % 2 == 1 ==> Schedule(n)[j] == Sleep(DelayAfter(CommandAt(j / 2)))
    ensures n > 0 ==> Schedule(n)[0] == Send(SystoleStart)
  {
    if n > 0 {
      ScheduleShape(n - 1);
      var prev := Schedule(n - 1);
      assert Schedule(n) == prev + BEAT_EVENTS;
      forall j | 0 <= j < |Schedule(n)|
        ensures j % 2 == 0 ==> Schedule(n)[j] == Send(CommandAt(j / 2))
        ensures j % 2 == 1 ==> Schedule(n)[j] == Sleep(DelayAfter(CommandAt(j / 2)))
      {
        if j >= |prev| {
          var o := j - |prev|;
          assert Schedule(n)[j] == BEAT_EVENTS[o];
          assert j / 2 == 2 * (n - 1) + o / 2;
        } else {
          assert Schedule(n)[j] == prev[j];
        }
      }
    }
  }

  /** The offered commands are exactly the reference stream: systole first, then strictly alternating. */
  lemma {:induction false} SendsAlternate(n: nat)
    ensures forall k :: 0 <= k < |Sends(n)| ==> Sends(n)[k] == CommandAt(k)
  {
    if n > 0 {
      SendsAlternate(n - 1);
      var prev := Sends(n - 1);
      assert Sends(n) == prev + BEAT_SENDS;
      forall k | 0 <= k < |Sends(n)|
        ensures Sends(n)[k] == CommandAt(k)
      {
        if k >= |prev| {
          assert Sends(n)[k] == BEAT_SENDS[k - |prev|];
        }
      }
    }
  }

  lemma {:induction false} TotalSleepAppend(a: seq<PacerEvent>, b: seq<PacerEvent>)
    ensures TotalSleep(a + b) == TotalSleep(a) + TotalSleep(b)
    decreases |b|
  {
    if b == [] {
      assert a + b == a;
    } else {
      assert (a + b)[..|a + b| - 1] == a + b[..|b| - 1];
      assert (a + b)[|a + b| - 1] == b[|b| - 1];
      TotalSleepAppend(a, b[..|b| - 1]);
    }
  }

  /** `n` loop iterations sleep n * 1000 ms in total: one heartbeat per second. */
  lemma {:induction false} ScheduleSleepsOneSecondPerBeat(n: nat)
    ensures TotalSleep(Schedule(n)) == 1000 * n
  {
    if n > 0 {
      ScheduleSleepsOneSecondPerBeat(n - 1);
      TotalSleepAppend(Schedule(n - 1), BEAT_EVENTS);
      var e1 := [Send(SystoleStart)];
      var e2 := e1 + [Sleep(SYSTOLE_DURATION_MS)];
      var e3 := e2 + [Send(DiastoleStart)];
      assert e1[..0] == [];
      assert TotalSleep(e1) == 0;
      assert e2[..1] == e1;
      assert TotalSleep(e2) == 300;
      assert e3[..2] == e2;
      assert TotalSleep(e3) == 300;
      assert BEAT_EVENTS[..3] == e3;
      assert TotalSleep(BEAT_EVENTS) == 1000;
    }
  }

  /**
   * What reaches a queue with no consumer: the commands enter in stream
   * order until the queue is full, and every later one is dropped.
   */
  lemma QueueReceivesStreamPrefix(items: seq<PneumaticCommand>, capacity: nat, n: nat)
    requires |items| <= capacity
    ensures var after := Offer(items, capacity, Sends(n));
      && |after| == |items| + Min(capacity - |items|, 2 * n)
      && after[..|items|] == items
      && forall k :: |items| <= k < |after| ==> after[k] == CommandAt(k - |items|)
  {
    OfferKeepsPrefix(items, capacity, Sends(n));
    SendsAlternate(n);
  }

  class HeartbeatTask {
    /** The control queue the commands are offered to. */
    const queue: MessageQueue<PneumaticCommand>
    /** Every send and sleep the task has performed, in order. */
    var events: seq<PacerEvent>

    constructor (queue: MessageQueue<PneumaticCommand>)
      ensures this.queue == queue && events == []
    {
      this.queue := queue;
      events := [];
    }

    /** One iteration of the loop. */
    method Beat()
      requires queue.Valid()
      modifies this, queue
      ensures queue.Valid()
      ensures events == old(events) + BEAT_EVENTS
      ensures queue.items == Offer(old(queue.items), queue.capacity, BEAT_SENDS)
    {
      var cmd := SystoleStart;
      var _ := queue.TryPut(cmd);
      events := events + [Send(cmd)];
      events := events + [Sleep(SYSTOLE_DURATION_MS)];

      cmd := DiastoleStart;
      var _ := queue.TryPut(cmd);
      events := events + [Send(cmd)];
      events := events + [Sleep(DIASTOLE_DURATION_MS)];

      assert BEAT_SENDS[1..] == [DiastoleStart];
      assert [DiastoleStart][1..] == [];
    }

    /** The loop run for `n` iterations. */
    method Run(n: nat)
      requires queue.Valid()
      modifies this, queue
      ensures queue.Valid()
      ensures events == old(events) + Schedule(n)
      ensures queue.items == Offer(old(queue.items), queue.capacity, Sends(n))
    {
      for i := 0 to n
        invariant queue.Valid()
        invariant events == old(events) + Schedule(i)
        invariant queue.items == Offer(old(queue.items), queue.capacity, Sends(i))
      {
        OfferAppend(old(queue.items), queue.capacity, Sends(i), BEAT_SENDS);
        Beat();
      }
    }
  }
}
