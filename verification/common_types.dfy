/**
 * Value types shared by the firmware's tasks and drivers: the peripheral
 * status codes, the pneumatic command sent from the pacemaker to the
 * actuator task, the telemetry packet, and 32-bit unsigned arithmetic.
 */
module CommonTypes {

  /** Status codes of the peripheral driver layer (the six-value enumeration). */
  datatype PeriphStatus =
    | OK
    | ErrorHal
    | ErrorTimeout
    | ErrorNullPtr
    | ErrorInvalidState
    | ErrorOutOfRange

  /** The message the pacemaker sends to the actuator task. */
  datatype PneumaticCommand = SystoleStart | DiastoleStart

  /** A value the callee may or may not have written. */
  datatype Option<T> = None | Some(value: T)

  const U32_MODULUS: int := 0x1_0000_0000

  /** A `uint32_t`. */
  type U32 = x: int | 0 <= x < 0x1_0000_0000

  /** Unsigned 32-bit wrap-around, as C++ performs it on `uint32_t` arithmetic. */
  function WrapU32(x: int): (w: U32)
    ensures 0 <= x < 0x1_0000_0000 ==> w == x
    ensures (w - x) % 0x1_0000_0000 == 0
  {
    x % 0x1_0000_0000
  }

  /** One telemetry packet handed to the logging queue. */
  datatype SensorData = SensorData(
    timestampMs: U32,
    aorticMmHg: real,
    pulmonaryMmHg: real,
    regulatorBar: real)

  /** The zero-initialised packet the sampler starts from. */
  const ZERO_SENSOR_DATA: SensorData := SensorData(0, 0.0, 0.0, 0.0)
}
