/**
 * The driver of the proportional pressure regulator: it translates bar into
 * the setpoint voltage and the feedback voltage back into bar, through the
 * regulator's linear calibration
 *   pressure = (V - 0.1) * (1.98 / 9.9) + 0.02.
 * The setpoint and feedback pins are injected; here the status the setpoint
 * pin reports and the voltage the feedback pin delivers are parameters, and
 * every voltage handed to the setpoint pin is recorded. Arithmetic is exact
 * (`real`), so the calibration reduces to V = 5 * bar.
 */
module Regulator {
  import opened CommonTypes

  const CALIBRATION_OFFSET_BAR: real := 0.02
  const VOLTS_PER_BAR: real := 5.0
  const BAR_PER_VOLT: real := 0.2
  const BASE_VOLTS: real := 0.1

  /** The setpoint voltage for a target pressure: (bar - 0.02) * 5 + 0.1. */
  function SetpointVolts(bar: real): (volts: real)
    ensures volts == 5.0 * bar
    ensures bar == 0.0 ==> volts == 0.0
  {
    ((bar - CALIBRATION_OFFSET_BAR) * VOLTS_PER_BAR) + BASE_VOLTS
  }

  /** The pressure a feedback voltage stands for, (V - 0.1) * 0.2 + 0.02, before any clamp. */
  function CalibratedBar(volts: real): (bar: real)
    ensures bar == volts / 5.0
    ensures bar < 0.0 <==> volts < 0.0
  {
    ((volts - BASE_VOLTS) * BAR_PER_VOLT) + CALIBRATION_OFFSET_BAR
  }

  /** The pressure reported for a successfully read feedback voltage: never negative. */
  function ReportedBar(volts: real): (bar: real)
    ensures bar >= 0.0
    ensures volts >= 0.0 ==> bar == volts / 5.0
    ensures volts < 0.0 ==> bar == 0.0
  {
    var pressure := CalibratedBar(volts);
    if pressure < 0.0 then 0.0 else pressure
  }

  /** The two calibrations are inverse to each other. */
  lemma CalibrationInverse(bar: real, volts: real)
    ensures CalibratedBar(SetpointVolts(bar)) == bar
    ensures SetpointVolts(CalibratedBar(volts)) == volts
  {
  }

  /**
   * Loop-back round trip: reading back exactly the voltage written for `bar`
   * reports `bar` for a non-negative target and 0 for a negative one.
   */
  lemma RoundTrip(bar: real)
    ensures ReportedBar(SetpointVolts(bar)) == if bar >= 0.0 then bar else 0.0
  {
    CalibrationInverse(bar, 0.0);
  }

  class PressureRegulatorDriver {
    /** Every voltage handed to the setpoint pin's `setVoltage`, in order. */
    var setpointLog: seq<real>

    /**
     * Construction commands 0 bar at boot; `setpointStatus` is what the
     * setpoint pin reports for that write, and it is discarded.
     */
    constructor (setpointStatus: PeriphStatus)
      ensures setpointLog == [0.0]
    {
      setpointLog := [];
      new;
      var _ := SetPressure(0.0, setpointStatus);
    }

    /**
     * `setPressure(bar)`: writes the calibrated voltage to the setpoint pin;
     * `setpointStatus` is what the pin's `setVoltage` reports.
     */
    method SetPressure(bar: real, setpointStatus: PeriphStatus) returns (accepted: bool)
      modifies this
      ensures setpointLog == old(setpointLog) + [SetpointVolts(bar)]
      ensures setpointLog[|setpointLog| - 1] == 5.0 * bar
      ensures accepted <==> setpointStatus == OK
    {
      var voltageToSet := ((bar - CALIBRATION_OFFSET_BAR) * VOLTS_PER_BAR) + BASE_VOLTS;
      setpointLog := setpointLog + [voltageToSet];
      accepted := setpointStatus == OK;
    }

    /**
     * `getActualPressure()`: `readStatus` and `readVolts` are the status and
     * the out-parameter value of the feedback pin's `readVoltage`.
     */
    method GetActualPressure(readStatus: PeriphStatus, readVolts: real) returns (bar: real)
      ensures bar >= 0.0
      ensures readStatus != OK ==> bar == 0.0
      ensures readStatus == OK ==> bar == ReportedBar(readVolts)
      ensures readStatus == OK && readVolts >= 0.0 ==> bar == readVolts / 5.0
    {
      var feedbackVoltage := 0.0;
      if readStatus != OK {
        return 0.0;
      }
      feedbackVoltage := readVolts;
      var pressureInBar := ((feedbackVoltage - BASE_VOLTS) * BAR_PER_VOLT) + CALIBRATION_OFFSET_BAR;
      if pressureInBar < 0.0 {
        pressureInBar := 0.0;
      }
      return pressureInBar;
    }
  }
}
