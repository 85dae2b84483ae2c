/**
 * The packets the gateway receives from the field devices and the replies it sends back,
 * as plain values. The wire codec that produces and consumes them is not part of this model.
 */
module Packets {

  newtype byte = x: int | 0 <= x < 256

  /** A device address (TTAddress); `address` is the number used as the store's tag. */
  datatype Address = Address(address: int)

  /** Three gravity axes: either the per-axis means or the per-axis derivations of a reading. */
  datatype Axes = Axes(x: real, y: real, z: real)

  /** The two raw values of a temperature probe pair: index 0 (cold) and index 1 (hot). */
  datatype ProbePair = ProbePair(cold: int, hot: int)

  /** The telemetry both data-packet revisions carry besides their battery fields. */
  datatype Reading = Reading(
    gravityMean: Axes,
    gravityDerivation: Axes,
    temperatureReference: ProbePair,
    temperatureHeat: ProbePair)

  datatype HeloPacket = HeloPacket(sender: Address, receiver: Address)

  /** Revision 3.1 reports one raw battery value. */
  datatype DataPacketRev31 = DataPacketRev31(sender: Address, receiver: Address, voltage: int, reading: Reading)

  /** Revision 3.2 reports the raw battery value together with a band-gap reference. */
  datatype DataPacketRev32 = DataPacketRev32(
    sender: Address, receiver: Address, adcVoltBat: int, adcBandgap: int, reading: Reading)

  datatype LightSensorPacket = LightSensorPacket(sender: Address, receiver: Address)

  /** Every packet the codec can decode; `Other` stands for every variant the engine does not handle. */
  datatype Packet =
    | Helo(helo: HeloPacket)
    | Rev31(rev31: DataPacketRev31)
    | Rev32(rev32: DataPacketRev32)
    | Light(light: LightSensorPacket)
    | Other

  /** The replies: the cloud's helo answer, a duty-cycle command (TTCommand1) and a light-sensor command (TTCommand2). */
  datatype Reply =
    | CloudHelo(receiver: Address, sender: Address, command: int, time: int)
    | Command1(
        receiver: Address, sender: Address, command: int, time: int,
        sleepInterval: int, unknown: (int, int, int), heating: int)
    | Command2(
        receiver: Address, sender: Address, command: int, time: int,
        integrationTime: int, gain: int)

  /**
   * The device calibration functions: raw probe value to temperature, and the two
   * revision-specific raw battery readings to a voltage. Their definitions are not part of this model.
   */
  datatype Calibration = Calibration(
    temperature: int -> real,
    voltage31: int -> real,
    voltage32: (int, int) -> real)

  /** What handling one message can raise. */
  datatype Error =
    | StatisticsError      // mean of no data, or stdev of fewer than two points
    | KeyError(key: string) // a missing key in an aggregate map
    | DecodeError          // a payload the codec or the JSON parser rejects
}
