/**
 * The STM32 peripheral wrappers: ADC input, DAC output, GPIO output and
 * solenoid valve. Each HAL call is reduced to the status it returns, given
 * by the caller, and each pin or DAC write is recorded in a log on the
 * object. A null HAL handle is a boolean fixed at construction.
 */
module Peripherals {
  import opened CommonTypes
  import opened RealArith

  /** `HAL_StatusTypeDef`. */
  datatype HalStatus = HalOk | HalError | HalBusy | HalTimeout

  /** `GPIO_PinState`. */
  datatype PinState = PinReset | PinSet

  const ADC_MAX_RAW: real := 4095.0
  const ADC_REFERENCE_VOLTS: real := 3.3
  const DAC_MAX_CODE: nat := 4095
  const DAC_MAX_VOLTS: real := 3.3

  // ---------------------------------------------------------------- ADC

  /** A 12-bit conversion scaled to 0..3.3 V and then by the divider multiplier. */
  function AdcVoltage(raw: U32, multiplier: real): (volts: real)
    ensures raw <= 4095 && multiplier >= 0.0 ==> 0.0 <= volts <= ADC_REFERENCE_VOLTS * multiplier
    ensures raw == 0 ==> volts == 0.0
    ensures raw == 4095 ==> volts == ADC_REFERENCE_VOLTS * multiplier
  {
    var fraction := (raw as real) / ADC_MAX_RAW;
    assert raw <= 4095 ==> fraction <= 1.0;
    var fullScale := ADC_REFERENCE_VOLTS * multiplier;
    assert multiplier >= 0.0 ==> fullScale >= 0.0;
    assert raw <= 4095 && multiplier >= 0.0 ==> 0.0 <= fraction * fullScale <= fullScale by {
      if raw <= 4095 && multiplier >= 0.0 {
        ScaleAtMost(fraction, fullScale);
      }
    }
    assert fraction * ADC_REFERENCE_VOLTS * multiplier == fraction * fullScale;
    ((raw as real) / ADC_MAX_RAW) * ADC_REFERENCE_VOLTS * multiplier
  }

  /** An ADC pin read by polling. */
  class AnalogIn {
    const hasHandle: bool    // the ADC handle is not null
    const multiplier: real   // external voltage-divider ratio

    constructor (hasHandle: bool, multiplier: real := 1.0)
      ensures this.hasHandle == hasHandle && this.multiplier == multiplier
    {
      this.hasHandle := hasHandle;
      this.multiplier := multiplier;
    }

    method Init() returns (status: PeriphStatus)
      ensures status == OK <==> hasHandle
      ensures !hasHandle ==> status == ErrorNullPtr
    {
      if !hasHandle {
        return ErrorNullPtr;
      }
      return OK;
    }

    /**
     * `readVoltage(voltage_out)`: `voltageOut` is the out-parameter on entry
     * and `voltage` its value on return. `start` and `poll` are what
     * `HAL_ADC_Start` and `HAL_ADC_PollForConversion` report, `raw` what
     * `HAL_ADC_GetValue` returns.
     */
    method ReadVoltage(voltageOut: real, start: HalStatus, poll: HalStatus, raw: U32)
      returns (status: PeriphStatus, voltage: real)
      ensures !hasHandle ==> status == ErrorNullPtr
      ensures hasHandle && start != HalOk ==> status == ErrorHal
      ensures hasHandle && start == HalOk && poll != HalOk ==> status == ErrorTimeout
      ensures status == OK <==> hasHandle && start == HalOk && poll == HalOk
      ensures status != OK ==> voltage == voltageOut
      ensures status == OK ==> voltage == AdcVoltage(raw, multiplier)
      ensures status == OK && raw <= 4095 && multiplier >= 0.0 ==>
                0.0 <= voltage <= ADC_REFERENCE_VOLTS * multiplier
    {
      voltage := voltageOut;
      if !hasHandle {
        return ErrorNullPtr, voltage;
      }
      if start != HalOk {
        return ErrorHal, voltage;
      }
      if poll != HalOk {
        return ErrorTimeout, voltage;
      }
      var adcVoltage := ((raw as real) / ADC_MAX_RAW) * ADC_REFERENCE_VOLTS;
      voltage := adcVoltage * multiplier;
      status := OK;
    }
  }

  // ---------------------------------------------------------------- DAC

  /** A divider ratio the DAC scaling can divide by. */
  type DividerRatio = r: real | r != 0.0 witness 1.0

  /** The requested voltage scaled by the divider and saturated to the DAC's 0..3.3 V range. */
  function SaturatedDacVolts(voltage: real, divider: DividerRatio): (dacVolts: real)
    ensures 0.0 <= dacVolts <= DAC_MAX_VOLTS
    ensures 0.0 <= voltage / divider <= DAC_MAX_VOLTS ==> dacVolts == voltage / divider
    ensures voltage / divider < 0.0 ==> dacVolts == 0.0
    ensures voltage / divider > DAC_MAX_VOLTS ==> dacVolts == DAC_MAX_VOLTS
  {
    var scaled := voltage / divider;
    if scaled < 0.0 then 0.0 else if scaled > DAC_MAX_VOLTS then DAC_MAX_VOLTS else scaled
  }

  /** 12-bit quantisation: the truncating `uint32_t` cast of dacVolts / 3.3 * 4095. */
  function DacCode(dacVolts: real): (code: nat)
    requires 0.0 <= dacVolts <= DAC_MAX_VOLTS
    ensures code <= DAC_MAX_CODE
    ensures code as real <= dacVolts / DAC_MAX_VOLTS * 4095.0 < code as real + 1.0
    ensures dacVolts == 0.0 ==> code == 0
    ensures dacVolts == DAC_MAX_VOLTS ==> code == DAC_MAX_CODE
  {
    ((dacVolts / DAC_MAX_VOLTS) * 4095.0).Floor
  }

  /** For a positive divider, a higher requested voltage never gives a lower DAC code. */
  lemma DacCodeMonotone(v1: real, v2: real, divider: DividerRatio)
    requires divider > 0.0 && v1 <= v2
    ensures DacCode(SaturatedDacVolts(v1, divider)) <= DacCode(SaturatedDacVolts(v2, divider))
  {
    QuotientMonotone(v1, v2, divider);
    var d1, d2 := SaturatedDacVolts(v1, divider), SaturatedDacVolts(v2, divider);
    assert d1 / DAC_MAX_VOLTS * 4095.0 <= d2 / DAC_MAX_VOLTS * 4095.0;
  }

  /**
   * Loop-back of the two 12-bit conversions: with a unit multiplier, the
   * ADC reading of the code written for `v` lies within one code step
   * (3.3 / 4095 V) below `v`.
   */
  lemma DacAdcLoopback(v: real)
    requires 0.0 <= v <= DAC_MAX_VOLTS
    ensures AdcVoltage(DacCode(v), 1.0) <= v < AdcVoltage(DacCode(v), 1.0) + DAC_MAX_VOLTS / 4095.0
  {
    var c := DacCode(v) as real;
    var x := v / DAC_MAX_VOLTS * 4095.0;
    assert v == x / 4095.0 * DAC_MAX_VOLTS;
    assert c / 4095.0 * DAC_MAX_VOLTS <= x / 4095.0 * DAC_MAX_VOLTS;
    assert x / 4095.0 * DAC_MAX_VOLTS < (c + 1.0) / 4095.0 * DAC_MAX_VOLTS;
  }

  /** A DAC channel; `dacWrites` records every code handed to `HAL_DAC_SetValue`. */
  class AnalogOut {
    const hasHandle: bool
    const dividerRatio: DividerRatio
    var dacWrites: seq<nat>

    constructor (hasHandle: bool, dividerRatio: DividerRatio := 1.0)
      ensures this.hasHandle == hasHandle && this.dividerRatio == dividerRatio
      ensures dacWrites == []
    {
      this.hasHandle := hasHandle;
      this.dividerRatio := dividerRatio;
      dacWrites := [];
    }

    /** `init()`: `halStart` is what `HAL_DAC_Start` reports. */
    method Init(halStart: HalStatus) returns (status: PeriphStatus)
      ensures !hasHandle ==> status == ErrorNullPtr
      ensures hasHandle && halStart != HalOk ==> status == ErrorHal
      ensures status == OK <==> hasHandle && halStart == HalOk
    {
      if !hasHandle {
        return ErrorNullPtr;
      }
      if halStart != HalOk {
        return ErrorHal;
      }
      return OK;
    }

    /** `setVoltage(voltage)`: `halSet` is what `HAL_DAC_SetValue` reports. */
    method SetVoltage(voltage: real, halSet: HalStatus) returns (status: PeriphStatus)
      modifies this
      ensures !hasHandle ==> status == ErrorNullPtr && dacWrites == old(dacWrites)
      ensures hasHandle ==>
                dacWrites == old(dacWrites) + [DacCode(SaturatedDacVolts(voltage, dividerRatio))]
      ensures hasHandle ==> (status == OK <==> halSet == HalOk)
      ensures hasHandle && halSet != HalOk ==> status == ErrorHal
      ensures hasHandle ==> dacWrites[|dacWrites| - 1] <= DAC_MAX_CODE
    {
      if !hasHandle {
        return ErrorNullPtr;
      }
      var dacVoltage := voltage / dividerRatio;
      if dacVoltage < 0.0 {
        dacVoltage := 0.0;
      }
      if dacVoltage > DAC_MAX_VOLTS {
        dacVoltage := DAC_MAX_VOLTS;
      }
      var dacValue := DacCode(dacVoltage);
      dacWrites := dacWrites + [dacValue];
      if halSet != HalOk {
        return ErrorHal;
      }
      return OK;
    }
  }

  // ---------------------------------------------------------------- GPIO

  /** The pin level for a boolean: true is high. */
  function LevelOf(state: bool): (level: PinState)
    ensures level == PinSet <==> state
  {
    if state then PinSet else PinReset
  }

  /** A GPIO output; `writes` records every `HAL_GPIO_WritePin` level. */
  class DigitalOut {
    const hasPort: bool
    var writes: seq<PinState>

    /** The constructor drives the initial state when the port is present. */
    constructor (hasPort: bool, initialState: PinState := PinReset)
      ensures this.hasPort == hasPort
      ensures writes == if hasPort then [initialState] else []
    {
      this.hasPort := hasPort;
      writes := if hasPort then [initialState] else [];
    }

    method Init() returns (status: PeriphStatus)
      ensures status == OK <==> hasPort
      ensures !hasPort ==> status == ErrorNullPtr
    {
      if !hasPort {
        return ErrorNullPtr;
      }
      return OK;
    }

    /** `write(state)` dispatches to `setHigh` or `setLow`. */
    method Write(state: bool)
      modifies this
      ensures writes == old(writes) + if hasPort then [LevelOf(state)] else []
    {
      if state {
        SetHigh();
      } else {
        SetLow();
      }
    }

    method SetHigh()
      modifies this
      ensures writes == old(writes) + if hasPort then [PinSet] else []
    {
      if hasPort {
        writes := writes + [PinSet];
      }
    }

    method SetLow()
      modifies this
      ensures writes == old(writes) + if hasPort then [PinReset] else []
    {
      if hasPort {
        writes := writes + [PinReset];
      }
    }
  }

  // ---------------------------------------------------------------- solenoid

  /** The level that energises (opens) the valve: RESET for an active-low coil, SET otherwise. */
  function ActiveLevel(activeLow: bool): (level: PinState)
    ensures level == PinReset <==> activeLow
  {
    if activeLow then PinReset else PinSet
  }

  /** The level that de-energises (closes) the valve; always the other level. */
  function InactiveLevel(activeLow: bool): (level: PinState)
    ensures level != ActiveLevel(activeLow)
    ensures level == PinSet <==> activeLow
  {
    if activeLow then PinSet else PinReset
  }

  /** A solenoid valve on one GPIO pin; `writes` records every level driven. */
  class Solenoid {
    const hasPort: bool
    const activeLow: bool
    var writes: seq<PinState>

    constructor (hasPort: bool, activeLow: bool)
      ensures this.hasPort == hasPort && this.activeLow == activeLow
      ensures writes == []
    {
      this.hasPort := hasPort;
      this.activeLow := activeLow;
      writes := [];
    }

    /** The valve is energised when the last level driven is the active one. */
    function Energised(): bool
      reads this
    {
      |writes| > 0 && writes[|writes| - 1] == ActiveLevel(activeLow)
    }

    /** `init()`: a present valve is closed before anything else. */
    method Init() returns (status: PeriphStatus)
      modifies this
      ensures status == OK <==> hasPort
      ensures !hasPort ==> status == ErrorNullPtr && writes == old(writes)
      ensures hasPort ==> writes == old(writes) + [InactiveLevel(activeLow)] && !Energised()
    {
      if !hasPort {
        return ErrorNullPtr;
      }
      var _ := Deactivate();
      return OK;
    }

    method Activate() returns (status: PeriphStatus)
      modifies this
      ensures status == OK <==> hasPort
      ensures !hasPort ==> status == ErrorNullPtr && writes == old(writes)
      ensures hasPort ==> writes == old(writes) + [ActiveLevel(activeLow)] && Energised()
    {
      if !hasPort {
        return ErrorNullPtr;
      }
      var state := if activeLow then PinReset else PinSet;
      writes := writes + [state];
      return OK;
    }

    method Deactivate() returns (status: PeriphStatus)
      modifies this
      ensures status == OK <==> hasPort
      ensures !hasPort ==> status == ErrorNullPtr && writes == old(writes)
      ensures hasPort ==> writes == old(writes) + [InactiveLevel(activeLow)] && !Energised()
    {
      if !hasPort {
        return ErrorNullPtr;
      }
      var state := if activeLow then PinSet else PinReset;
      writes := writes + [state];
      return OK;
    }
  }
}
