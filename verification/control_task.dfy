/**
 * The actuator task: each command it receives becomes a regulator setpoint
 * followed by closing one valve and then opening the other. The regulator
 * and the two valves are seen through the calls made on them, recorded in
 * order; the valves' open/closed state is kept beside the log.
 */
module Control {
  import opened CommonTypes
  import opened Rtos

  const SYSTOLE_SETPOINT_BAR: real := 1.2
  const DIASTOLE_SETPOINT_BAR: real := 0.0

  datatype Valve = SystoleValve | DiastoleValve

  /** One call the task makes on its hardware interfaces. */
  datatype ActuatorCall =
    | SetPressure(bar: real)
    | Activate(valve: Valve)
    | Deactivate(valve: Valve)

  /**
   * Which valves are open: the effect of the activate and deactivate calls
   * the task has made. The task ignores the status those calls return.
   */
  datatype Valves = Valves(systoleOpen: bool, diastoleOpen: bool)

  /** The interlock: the pressure and vacuum paths are never open together. */
  predicate Interlocked(v: Valves)
  {
    !(v.systoleOpen && v.diastoleOpen)
  }

  /** What one loop iteration receives: the queue status, the command, and what `setPressure` returns. */
  datatype Iteration = Iteration(status: OsStatus, cmd: PneumaticCommand, regulatorAccepted: bool)

  /** The calls issued for one received command, in order. */
  function CommandCalls(cmd: PneumaticCommand): seq<ActuatorCall>
  {
    match cmd
    case SystoleStart =>
      [SetPressure(SYSTOLE_SETPOINT_BAR), Deactivate(DiastoleValve), Activate(SystoleValve)]
    case DiastoleStart =>
      [SetPressure(DIASTOLE_SETPOINT_BAR), Deactivate(SystoleValve), Activate(DiastoleValve)]
  }

  /** The calls of one loop iteration: none unless the queue get returned `osOK`. */
  function IterationCalls(it: Iteration): seq<ActuatorCall>
  {
    if it.status == OsOK then CommandCalls(it.cmd) else []
  }

  /** The calls of several loop iterations, in order. */
  function RunCalls(its: seq<Iteration>): seq<ActuatorCall>
  {
    if its == [] then [] else RunCalls(its[..|its| - 1]) + IterationCalls(its[|its| - 1])
  }

  /** The valve state after one call. */
  function ApplyCall(v: Valves, c: ActuatorCall): Valves
  {
    match c
    case SetPressure(_) => v
    case Activate(SystoleValve) => v.(systoleOpen := true)
    case Activate(DiastoleValve) => v.(diastoleOpen := true)
    case Deactivate(SystoleValve) => v.(systoleOpen := false)
    case Deactivate(DiastoleValve) => v.(diastoleOpen := false)
  }

  /** The valve state after a sequence of calls. */
  function Apply(v: Valves, calls: seq<ActuatorCall>): Valves
    decreases |calls|
  {
    if calls == [] then v else Apply(ApplyCall(v, calls[0]), calls[1..])
  }

  /** The valve state a command aims at: exactly the commanded valve open. */
  function OpenFor(cmd: PneumaticCommand): (v: Valves)
    ensures Interlocked(v)
    ensures v.systoleOpen <==> cmd == SystoleStart
    ensures v.diastoleOpen <==> cmd == DiastoleStart
  {
    Valves(cmd == SystoleStart, cmd == DiastoleStart)
  }

  lemma {:induction false} ApplyAppend(v: Valves, a: seq<ActuatorCall>, b: seq<ActuatorCall>)
    ensures Apply(v, a + b) == Apply(Apply(v, a), b)
    decreases |a|
  {
    if a == [] {
      assert a + b == b;
    } else {
      assert (a + b)[0] == a[0];
      assert (a + b)[1..] == a[1..] + b;
      ApplyAppend(ApplyCall(v, a[0]), a[1..], b);
    }
  }

  /** Whatever the valves were, a command leaves exactly the commanded valve open. */
  lemma CommandOpensCommanded(v: Valves, cmd: PneumaticCommand)
    ensures Apply(v, CommandCalls(cmd)) == OpenFor(cmd)
  {
    var c := CommandCalls(cmd);
    var v1 := ApplyCall(v, c[0]);
    var v2 := ApplyCall(v1, c[1]);
    assert Apply(v, c) == Apply(v1, c[1..]) == Apply(v2, c[2..]) == Apply(ApplyCall(v2, c[2]), []);
  }

  /** Handling a command twice leaves the valves as handling it once. */
  lemma CommandIdempotent(v: Valves, cmd: PneumaticCommand)
    ensures Apply(Apply(v, CommandCalls(cmd)), CommandCalls(cmd)) == Apply(v, CommandCalls(cmd))
  {
    CommandOpensCommanded(v, cmd);
    CommandOpensCommanded(OpenFor(cmd), cmd);
  }

  /**
   * The interlock inside one command: from a state with at most one valve
   * open, no prefix of the command's calls has both valves open, because the
   * other valve is closed before the commanded one is opened.
   */
  lemma CommandInterlock(v: Valves, cmd: PneumaticCommand)
    requires Interlocked(v)
    ensures forall k :: 0 <= k <= |CommandCalls(cmd)| ==> Interlocked(Apply(v, CommandCalls(cmd)[..k]))
  {
    var c := CommandCalls(cmd);
    var v1 := ApplyCall(v, c[0]);
    var v2 := ApplyCall(v1, c[1]);
    var v3 := ApplyCall(v2, c[2]);
    assert Apply(v, c[..0]) == v;
    assert Apply(v, c[..1]) == Apply(v1, []) == v1 == v;
    assert Apply(v, c[..2]) == Apply(v1, c[1..2]) == Apply(v2, []) == v2;
    assert Apply(v, c[..3]) == Apply(v1, c[1..3]) == Apply(v2, c[2..3]) == Apply(v3, []) == v3;
  }

  /** The calls of one more iteration follow the calls of the earlier ones. */
  lemma RunCallsSnoc(its: seq<Iteration>, i: nat)
    requires i < |its|
    ensures RunCalls(its[..i + 1]) == RunCalls(its[..i]) + IterationCalls(its[i])
  {
    assert its[..i + 1][..i] == its[..i];
  }

  /** A prefix of the calls of several iterations ends inside one of them. */
  lemma {:induction false} RunCallsPrefix(its: seq<Iteration>, k: nat)
    requires its != [] && k <= |RunCalls(its)|
    ensures var front := RunCalls(its[..|its| - 1]);
            |front| <= k ==> RunCalls(its)[..k] == front + IterationCalls(its[|its| - 1])[..k - |front|]
    ensures var front := RunCalls(its[..|its| - 1]);
            k < |front| ==> RunCalls(its)[..k] == front[..k]
  {
  }

  /**
   * The interlock over any stream of received commands, including one with
   * dropped or repeated commands: starting with at most one valve open,
   * no intermediate state ever has both valves open.
   */
  lemma {:induction false} RunInterlock(v: Valves, its: seq<Iteration>, k: nat)
    requires Interlocked(v)
    requires k <= |RunCalls(its)|
    ensures Interlocked(Apply(v, RunCalls(its)[..k]))
    decreases |its|
  {
    if its == [] {
      assert RunCalls(its)[..k] == [];
    } else {
      var init := its[..|its| - 1];
      var front := RunCalls(init);
      var last := IterationCalls(its[|its| - 1]);
      RunCallsPrefix(its, k);
      if k < |front| {
        RunInterlock(v, init, k);
      } else {
        RunInterlock(v, init, |front|);
        assert front[..|front|] == front;
        ApplyAppend(v, front, last[..k - |front|]);
        if its[|its| - 1].status == OsOK {
          CommandInterlock(Apply(v, front), its[|its| - 1].cmd);
        } else {
          assert last[..k - |front|] == [];
        }
      }
    }
  }

  /** The index of the last iteration whose queue get returned `osOK`, or -1 when there is none. */
  function LastOk(its: seq<Iteration>): (k: int)
    ensures -1 <= k < |its|
    ensures k >= 0 ==> its[k].status == OsOK
    ensures forall j :: k < j < |its| ==> its[j].status != OsOK
  {
    if its == [] then -1
    else if its[|its| - 1].status == OsOK then |its| - 1
    else LastOk(its[..|its| - 1])
  }

  /**
   * After a stream of iterations the valves are those of the last command
   * received with `osOK`; failed gets after it change nothing.
   */
  lemma {:induction false} RunEndsOnLastCommand(v: Valves, its: seq<Iteration>)
    requires LastOk(its) >= 0
    ensures Apply(v, RunCalls(its)) == OpenFor(its[LastOk(its)].cmd)
    decreases |its|
  {
    var init := its[..|its| - 1];
    var last := its[|its| - 1];
    ApplyAppend(v, RunCalls(init), IterationCalls(last));
    if last.status == OsOK {
      CommandOpensCommanded(Apply(v, RunCalls(init)), last.cmd);
    } else {
      RunEndsOnLastCommand(v, init);
      assert its[LastOk(its)] == init[LastOk(init)];
    }
  }

  /** The valve calls of an iteration do not depend on what `setPressure` returned. */
  lemma RegulatorResultIgnored(status: OsStatus, cmd: PneumaticCommand)
    ensures IterationCalls(Iteration(status, cmd, true)) == IterationCalls(Iteration(status, cmd, false))
  {
  }

  /** The actuator task: the valves it drives and the log of calls it has made. */
  class ControlTask {
    var systoleOpen: bool
    var diastoleOpen: bool
    var calls: seq<ActuatorCall>

    function ValveState(): Valves
      reads this
    {
      Valves(systoleOpen, diastoleOpen)
    }

    /** The task touches no hardware when built; the valves are as the caller left them. */
    constructor (systoleOpen: bool, diastoleOpen: bool)
      ensures ValveState() == Valves(systoleOpen, diastoleOpen)
      ensures calls == []
    {
      this.systoleOpen := systoleOpen;
      this.diastoleOpen := diastoleOpen;
      calls := [];
    }

    /** `setPressure(bar)` on the regulator; its result is not used. */
    method RequestPressure(bar: real)
      modifies this
      ensures calls == old(calls) + [SetPressure(bar)]
      ensures ValveState() == old(ValveState())
    {
      calls := calls + [SetPressure(bar)];
    }

    method ActivateValve(valve: Valve)
      modifies this
      ensures calls == old(calls) + [Activate(valve)]
      ensures ValveState() == ApplyCall(old(ValveState()), Activate(valve))
    {
      calls := calls + [Activate(valve)];
      match valve
      case SystoleValve => systoleOpen := true;
      case DiastoleValve => diastoleOpen := true;
    }

    method DeactivateValve(valve: Valve)
      modifies this
      ensures calls == old(calls) + [Deactivate(valve)]
      ensures ValveState() == ApplyCall(old(ValveState()), Deactivate(valve))
    {
      calls := calls + [Deactivate(valve)];
      match valve
      case SystoleValve => systoleOpen := false;
      case DiastoleValve => diastoleOpen := false;
    }

    /**
     * One iteration of the task loop. `status` and `cmd` are what the queue
     * get delivered; `regulatorAccepted` is what `setPressure` returns, which
     * the task discards.
     */
    method HandleCommand(status: OsStatus, cmd: PneumaticCommand, regulatorAccepted: bool)
      modifies this
      ensures status != OsOK ==> calls == old(calls) && ValveState() == old(ValveState())
      ensures calls == old(calls) + IterationCalls(Iteration(status, cmd, regulatorAccepted))
      ensures ValveState() == Apply(old(ValveState()), IterationCalls(Iteration(status, cmd, regulatorAccepted)))
      ensures status == OsOK ==> ValveState() == OpenFor(cmd)
      ensures old(Interlocked(ValveState())) ==> Interlocked(ValveState())
    {
      ghost var before := ValveState();
      if status == OsOK {
        match cmd {
          case SystoleStart =>
            RequestPressure(SYSTOLE_SETPOINT_BAR);
            DeactivateValve(DiastoleValve);
            ActivateValve(SystoleValve);
          case DiastoleStart =>
            RequestPressure(DIASTOLE_SETPOINT_BAR);
            DeactivateValve(SystoleValve);
            ActivateValve(DiastoleValve);
        }
        CommandOpensCommanded(before, cmd);
      }
    }

    /** The task loop run over a finite stream of iterations. */
    method Run(its: seq<Iteration>)
      modifies this
      ensures calls == old(calls) + RunCalls(its)
      ensures ValveState() == Apply(old(ValveState()), RunCalls(its))
      ensures old(Interlocked(ValveState())) ==> Interlocked(ValveState())
    {
      var i := 0;
      while i < |its|
        invariant 0 <= i <= |its|
        invariant calls == old(calls) + RunCalls(its[..i])
        invariant ValveState() == Apply(old(ValveState()), RunCalls(its[..i]))
      {
        RunCallsSnoc(its, i);
        ApplyAppend(old(ValveState()), RunCalls(its[..i]), IterationCalls(its[i]));
        HandleCommand(its[i].status, its[i].cmd, its[i].regulatorAccepted);
        i := i + 1;
      }
      assert its[..|its|] == its;
      if old(Interlocked(ValveState())) {
        RunInterlock(old(ValveState()), its, |RunCalls(its)|);
        assert RunCalls(its)[..|RunCalls(its)|] == RunCalls(its);
      }
    }
  }
}
