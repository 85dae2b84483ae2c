/**
 * The decision policies of the gateway. For every data packet DataPolicy derives a sleep
 * interval from the battery trend, shortens it to the minimum when a gravity or stem
 * temperature anomaly shows, and derives the heating time from it; LightPolicy answers a
 * light-sensor packet with fixed settings.
 *
 * The store's answers to the policy's four queries are an input (QueryResults), the
 * clock is one `now` in seconds, and the device calibration functions are the
 * Calibration of the packets module. The functions here specify; the DataPolicy
 * methods compute with the source's loops and are proved equal to them.
 */
module Policy {
  import opened Wrappers
  import opened Packets
  import opened Stats
  import opened Regression
  import opened TimeSeries

  /** The weight of the battery correction. */
  const RDE: int := 1
  /** The shortest sleep interval a device is ever told to use, in seconds. */
  const SLEEP_TIME_MIN: int := 60
  /** The battery voltage the correction steers towards, in millivolts. */
  const TARGET_VOLTAGE: real := 3700.0
  /** How far ahead the battery trend is extrapolated: 48 hours, in seconds. */
  const PREDICTION_HORIZON: int := 3600 * 48
  /** The interval assumed when the store holds none for the device. */
  const DEFAULT_INTERVAL: int := 3600
  /** The command codes of the duty-cycle and the light-sensor command. */
  const DUTY_CYCLE_COMMAND: int := 32
  const LIGHT_COMMAND: int := 33

  /** One stored battery reading: its timestamp in seconds and its voltage. */
  datatype VoltageSample = VoltageSample(time: int, voltage: real)

  /** One stored stem-temperature reading: the four probe temperatures. */
  datatype ProbeSample = ProbeSample(referenceCold: real, referenceHot: real, heatCold: real, heatHot: real)

  /**
   * What the store answers for one device: the battery history, the last stored
   * interval if there is one, the gravity means history and the stem-temperature history.
   */
  datatype QueryResults = QueryResults(
    power: seq<VoltageSample>,
    lastInterval: Option<int>,
    gravity: seq<Axes>,
    stemTemperature: seq<ProbeSample>)

  /** The per-axis gravity-mean history. */
  datatype GravityMeans = GravityMeans(x: seq<real>, y: seq<real>, z: seq<real>)

  // ---------------------------------------------------------------- battery

  /** The points the battery trend is fitted to: the history, then the current reading. */
  function RegressionSeries(history: seq<VoltageSample>, now: int, voltage: real): seq<VoltageSample>
  {
    history + [VoltageSample(now, voltage)]
  }

  function Times(samples: seq<VoltageSample>): seq<real>
  {
    seq(|samples|, i requires 0 <= i < |samples| => samples[i].time as real)
  }

  function Voltages(samples: seq<VoltageSample>): seq<real>
  {
    seq(|samples|, i requires 0 <= i < |samples| => samples[i].voltage)
  }

  /** The voltage the trend through the series predicts 48 hours after `now`. */
  function PredictedVoltage(history: seq<VoltageSample>, now: int, voltage: real): real
  {
    var series := RegressionSeries(history, now, voltage);
    Predict(Fit(Times(series), Voltages(series)), (now + PREDICTION_HORIZON) as real)
  }

  function PreviousInterval(lastInterval: Option<int>): int
  {
    match lastInterval
    case Some(interval) => interval
    case None => DEFAULT_INTERVAL
  }

  /** The battery-driven interval: the previous one corrected by the predicted shortfall from the target voltage. */
  function BatteryInterval(queries: QueryResults, now: int, voltage: real): int
  {
    Trunc(PreviousInterval(queries.lastInterval) as real
          + RDE as real * (TARGET_VOLTAGE - PredictedVoltage(queries.power, now, voltage)))
  }

  // ---------------------------------------------------------------- anomaly tests

  /** Python's `a or b` over values that may be raised exceptions: `b` is only looked at when `a` is false. */
  function OrElse(a: Result<bool, Error>, b: Result<bool, Error>): Result<bool, Error>
  {
    match a
    case Err(e) => Err(e)
    case Ok(true) => Ok(true)
    case Ok(false) => b
  }

  /** `abs(deviation) > agg[key]`, or the KeyError of the lookup. */
  function StdevExceeded(agg: map<string, real>, key: string, deviation: real): Result<bool, Error>
  {
    if key in agg then Ok(Abs(deviation) > agg[key]) else Err(KeyError(key))
  }

  /** `abs(value - agg[meanKey]) > agg[stdevKey]`, with the lookups in the source's order. */
  function AxisOutlier(agg: map<string, real>, meanKey: string, stdevKey: string, value: real): Result<bool, Error>
  {
    if meanKey in agg then StdevExceeded(agg, stdevKey, value - agg[meanKey])
    else Err(KeyError(meanKey))
  }

  /** Whether `current` lies more than one sample standard deviation from the mean of `history`. */
  function AxisDeviates(history: seq<real>, current: real): bool
    requires |history| >= 2
  {
    ExceedsStdev(current - Mean(history), Variance(history))
  }

  /**
   * The position test: some gravity mean lies more than one standard deviation from its
   * history. mean and stdev raise StatisticsError on a history of fewer than two points.
   */
  function PositionAnomaly(means: GravityMeans, current: Axes): Result<bool, Error>
  {
    if |means.x| < 2 || |means.y| < 2 || |means.z| < 2 then Err(StatisticsError)
    else Ok(AxisDeviates(means.x, current.x) || AxisDeviates(means.y, current.y)
            || AxisDeviates(means.z, current.z))
  }

  /**
   * The movement test against the network aggregate: false while no aggregate has been
   * received, otherwise whether some derivation lies more than the aggregate's stdev
   * from the aggregate's mean.
   */
  function MovementAnomaly(agg: map<string, real>, derivation: Axes): Result<bool, Error>
  {
    if |agg| == 0 then Ok(false)
    else OrElse(OrElse(AxisOutlier(agg, "mean_x", "stdev_x", derivation.x),
                       AxisOutlier(agg, "mean_y", "stdev_y", derivation.y)),
                AxisOutlier(agg, "mean_z", "stdev_z", derivation.z))
  }

  /** The gravity history split into its three axes. */
  function GravityColumns(points: seq<Axes>): GravityMeans
  {
    GravityMeans(
      seq(|points|, i requires 0 <= i < |points| => points[i].x),
      seq(|points|, i requires 0 <= i < |points| => points[i].y),
      seq(|points|, i requires 0 <= i < |points| => points[i].z))
  }

  /** The gravity test: position, then (if that is false) movement. */
  function GravityAnomaly(points: seq<Axes>, reading: Reading, aggMovement: map<string, real>): Result<bool, Error>
  {
    OrElse(PositionAnomaly(GravityColumns(points), reading.gravityMean),
           MovementAnomaly(aggMovement, reading.gravityDerivation))
  }

  /** The element-wise |heat - reference| of two series, as long as the shorter (Python's zip). */
  function Deltas(heat: seq<real>, reference: seq<real>): (d: seq<real>)
    ensures |d| == if |heat| < |reference| then |heat| else |reference|
    ensures forall i :: 0 <= i < |d| ==> d[i] == Abs(heat[i] - reference[i])
  {
    if |heat| == 0 || |reference| == 0 then []
    else [Abs(heat[0] - reference[0])] + Deltas(heat[1..], reference[1..])
  }

  function ReferenceCold(samples: seq<ProbeSample>): seq<real>
  {
    seq(|samples|, i requires 0 <= i < |samples| => samples[i].referenceCold)
  }

  function ReferenceHot(samples: seq<ProbeSample>): seq<real>
  {
    seq(|samples|, i requires 0 <= i < |samples| => samples[i].referenceHot)
  }

  function HeatCold(samples: seq<ProbeSample>): seq<real>
  {
    seq(|samples|, i requires 0 <= i < |samples| => samples[i].heatCold)
  }

  function HeatHot(samples: seq<ProbeSample>): seq<real>
  {
    seq(|samples|, i requires 0 <= i < |samples| => samples[i].heatHot)
  }

  /**
   * The stem-temperature test: whether the current heat-minus-reference difference of
   * either probe pair lies more than the temperature aggregate's stdev from the mean
   * historical difference. The guard tests the movement aggregate, as the code does.
   */
  function TemperatureAnomaly(
    aggMovement: map<string, real>, aggTemperature: map<string, real>,
    calibration: Calibration, reading: Reading, samples: seq<ProbeSample>): Result<bool, Error>
  {
    if |aggMovement| == 0 then Ok(false)
    else
      var deltaCold := Abs(calibration.temperature(reading.temperatureHeat.cold)
                           - calibration.temperature(reading.temperatureReference.cold));
      var deltaHot := Abs(calibration.temperature(reading.temperatureHeat.hot)
                          - calibration.temperature(reading.temperatureReference.hot));
      var deltasCold := Deltas(HeatCold(samples), ReferenceCold(samples));
      var deltasHot := Deltas(HeatHot(samples), ReferenceHot(samples));
      if |deltasCold| == 0 || |deltasHot| == 0 then Err(StatisticsError)
      else OrElse(StdevExceeded(aggTemperature, "stdev_delta_cold", deltaCold - Mean(deltasCold)),
                  StdevExceeded(aggTemperature, "stdev_delta_hot", deltaHot - Mean(deltasHot)))
  }

  // ---------------------------------------------------------------- the command

  /** The sleep interval: the minimum on an anomaly, otherwise the battery interval raised to the minimum. */
  function SleepInterval(battery: int, anomaly: bool): int
  {
    if anomaly then SLEEP_TIME_MIN else Max(battery, SLEEP_TIME_MIN)
  }

  /** int(sleep_interval / 6). */
  function Heating(sleepInterval: int): int
  {
    Trunc(sleepInterval as real / 6.0)
  }

  function DutyCycleCommand(receiver: Address, sender: Address, now: int, sleepInterval: int): Reply
  {
    Command1(receiver, sender, DUTY_CYCLE_COMMAND, now, sleepInterval, (0, 45, 1), Heating(sleepInterval))
  }

  /** The reply to a data packet from `sender` whose decoded battery voltage is `voltage`, or what evaluating it raises. */
  function DataDecision(
    localAddress: Address, calibration: Calibration,
    aggMovement: map<string, real>, aggTemperature: map<string, real>,
    sender: Address, voltage: real, reading: Reading, queries: QueryResults, now: int): Result<Reply, Error>
  {
    var battery := BatteryInterval(queries, now, voltage);
    match OrElse(GravityAnomaly(queries.gravity, reading, aggMovement),
                 TemperatureAnomaly(aggMovement, aggTemperature, calibration, reading, queries.stemTemperature))
    case Err(e) => Err(e)
    case Ok(anomaly) => Ok(DutyCycleCommand(sender, localAddress, now, SleepInterval(battery, anomaly)))
  }

  function Voltage31(calibration: Calibration, packet: DataPacketRev31): real
  {
    calibration.voltage31(packet.voltage)
  }

  function Voltage32(calibration: Calibration, packet: DataPacketRev32): real
  {
    calibration.voltage32(packet.adcVoltBat, packet.adcBandgap)
  }

  function Rev31Decision(
    localAddress: Address, calibration: Calibration,
    aggMovement: map<string, real>, aggTemperature: map<string, real>,
    packet: DataPacketRev31, queries: QueryResults, now: int): Result<Reply, Error>
  {
    DataDecision(localAddress, calibration, aggMovement, aggTemperature,
                 packet.sender, Voltage31(calibration, packet), packet.reading, queries, now)
  }

  function Rev32Decision(
    localAddress: Address, calibration: Calibration,
    aggMovement: map<string, real>, aggTemperature: map<string, real>,
    packet: DataPacketRev32, queries: QueryResults, now: int): Result<Reply, Error>
  {
    DataDecision(localAddress, calibration, aggMovement, aggTemperature,
                 packet.sender, Voltage32(calibration, packet), packet.reading, queries, now)
  }

  /** The interval record the battery evaluation writes for a packet from `sender`. */
  function BatteryRecord(sender: Address, voltage: real, queries: QueryResults, now: int): Record
  {
    IntervalRecord(sender.address, BatteryInterval(queries, now, voltage))
  }

  // ---------------------------------------------------------------- the policies

  /** The light-sensor policy: fixed integration time and gain, sent back to the packet's sender. */
  datatype LightPolicy = LightPolicy(localAddress: Address)
  {
    function Evaluate(packet: LightSensorPacket, now: int): Reply
    {
      Command2(packet.sender, localAddress, LIGHT_COMMAND, now, 50, 3)
    }
  }

  class DataPolicy {
    const localAddress: Address
    const store: Store
    const calibration: Calibration
    var aggregatedMovement: map<string, real>
    var aggregatedTemperature: map<string, real>

    constructor(
      localAddress: Address, store: Store, calibration: Calibration,
      aggregatedMovement: map<string, real>, aggregatedTemperature: map<string, real>)
      ensures this.localAddress == localAddress && this.store == store && this.calibration == calibration
      ensures this.aggregatedMovement == aggregatedMovement
      ensures this.aggregatedTemperature == aggregatedTemperature
    {
      this.localAddress := localAddress;
      this.store := store;
      this.calibration := calibration;
      this.aggregatedMovement := aggregatedMovement;
      this.aggregatedTemperature := aggregatedTemperature;
    }

    /** Fits the battery trend, writes the new interval to the store and returns it. */
    method EvaluateBattery(sender: int, voltage: real, queries: QueryResults, now: int) returns (interval: int)
      modifies store
      ensures interval == BatteryInterval(queries, now, voltage)
      ensures store.records == old(store.records) + [IntervalRecord(sender, interval)]
    {
      var data := queries.power;
      var times: seq<real> := [];
      var voltages: seq<real> := [];
      for i := 0 to |data|
        invariant |times| == i && |voltages| == i
        invariant forall j :: 0 <= j < i ==> times[j] == data[j].time as real
        invariant forall j :: 0 <= j < i ==> voltages[j] == data[j].voltage
      {
        times := times + [data[i].time as real];
        voltages := voltages + [data[i].voltage];
      }
      times := times + [now as real];
      voltages := voltages + [voltage];
      ghost var series := RegressionSeries(data, now, voltage);
      assert times == Times(series);
      assert voltages == Voltages(series);

      var line := Fit(times, voltages);
      var previous := match queries.lastInterval
        case Some(last) => last
        case None => DEFAULT_INTERVAL;
      interval := Trunc(previous as real
                        + RDE as real * (TARGET_VOLTAGE - Predict(line, (now + PREDICTION_HORIZON) as real)));
      store.WritePoints(IntervalRecord(sender, interval));
    }

    /** Splits the gravity history into axes, then runs the position test and, if that is false, the movement test. */
    method EvaluateGravity(reading: Reading, queries: QueryResults) returns (r: Result<bool, Error>)
      ensures r == GravityAnomaly(queries.gravity, reading, aggregatedMovement)
    {
      var data := queries.gravity;
      var xs: seq<real> := [];
      var ys: seq<real> := [];
      var zs: seq<real> := [];
      for i := 0 to |data|
        invariant |xs| == i && |ys| == i && |zs| == i
        invariant forall j :: 0 <= j < i ==> xs[j] == data[j].x && ys[j] == data[j].y && zs[j] == data[j].z
      {
        xs := xs + [data[i].x];
        ys := ys + [data[i].y];
        zs := zs + [data[i].z];
      }
      assert GravityMeans(xs, ys, zs) == GravityColumns(data);
      var position := PositionAnomaly(GravityMeans(xs, ys, zs), reading.gravityMean);
      if position == Ok(false) {
        r := MovementAnomaly(aggregatedMovement, reading.gravityDerivation);
      } else {
        r := position;
      }
    }

    /** Collects the four probe histories and compares the current probe differences with them. */
    method EvaluateTemperature(reading: Reading, queries: QueryResults) returns (r: Result<bool, Error>)
      ensures r == TemperatureAnomaly(aggregatedMovement, aggregatedTemperature, calibration, reading, queries.stemTemperature)
    {
      if |aggregatedMovement| == 0 {
        return Ok(false);
      }
      var referenceCold := calibration.temperature(reading.temperatureReference.cold);
      var referenceHot := calibration.temperature(reading.temperatureReference.hot);
      var heatCold := calibration.temperature(reading.temperatureHeat.cold);
      var heatHot := calibration.temperature(reading.temperatureHeat.hot);
      var deltaCold := Abs(heatCold - referenceCold);
      var deltaHot := Abs(heatHot - referenceHot);

      var data := queries.stemTemperature;
      var referenceProbeCold: seq<real> := [];
      var referenceProbeHot: seq<real> := [];
      var heatProbeCold: seq<real> := [];
      var heatProbeHot: seq<real> := [];
      for i := 0 to |data|
        invariant |referenceProbeCold| == i && |referenceProbeHot| == i
        invariant |heatProbeCold| == i && |heatProbeHot| == i
        invariant forall j :: 0 <= j < i ==>
          referenceProbeCold[j] == data[j].referenceCold && referenceProbeHot[j] == data[j].referenceHot
        invariant forall j :: 0 <= j < i ==>
          heatProbeCold[j] == data[j].heatCold && heatProbeHot[j] == data[j].heatHot
      {
        referenceProbeCold := referenceProbeCold + [data[i].referenceCold];
        referenceProbeHot := referenceProbeHot + [data[i].referenceHot];
        heatProbeCold := heatProbeCold + [data[i].heatCold];
        heatProbeHot := heatProbeHot + [data[i].heatHot];
      }
      assert referenceProbeCold == ReferenceCold(data) && referenceProbeHot == ReferenceHot(data);
      assert heatProbeCold == HeatCold(data) && heatProbeHot == HeatHot(data);

      var deltasCold := Deltas(heatProbeCold, referenceProbeCold);
      if |deltasCold| == 0 {
        return Err(StatisticsError);
      }
      var meanDeltaCold := Mean(deltasCold);
      var deltasHot := Deltas(heatProbeHot, referenceProbeHot);
      if |deltasHot| == 0 {
        return Err(StatisticsError);
      }
      var meanDeltaHot := Mean(deltasHot);

      r := StdevExceeded(aggregatedTemperature, "stdev_delta_cold", deltaCold - meanDeltaCold);
      if r == Ok(false) {
        r := StdevExceeded(aggregatedTemperature, "stdev_delta_hot", deltaHot - meanDeltaHot);
      }
    }

    /** What evaluate_3_1 and evaluate_3_2 share once the battery voltage is decoded. */
    method EvaluateData(sender: Address, voltage: real, reading: Reading, queries: QueryResults, now: int)
      returns (r: Result<Reply, Error>)
      modifies store
      ensures r == DataDecision(localAddress, calibration, aggregatedMovement, aggregatedTemperature,
                                sender, voltage, reading, queries, now)
      ensures store.records == old(store.records) + [BatteryRecord(sender, voltage, queries, now)]
    {
      var battery := EvaluateBattery(sender.address, voltage, queries, now);
      var sleepInterval := Max(battery, SLEEP_TIME_MIN);
      var gravity := EvaluateGravity(reading, queries);
      var anomaly: bool;
      match gravity {
        case Err(e) =>
          return Err(e);
        case Ok(true) =>
          anomaly := true;
        case Ok(false) =>
          var temperature := EvaluateTemperature(reading, queries);
          match temperature {
            case Err(e) =>
              return Err(e);
            case Ok(t) =>
              anomaly := t;
          }
      }
      assert OrElse(GravityAnomaly(queries.gravity, reading, aggregatedMovement),
                    TemperatureAnomaly(aggregatedMovement, aggregatedTemperature, calibration, reading,
                                       queries.stemTemperature)) == Ok(anomaly);
      if anomaly {
        sleepInterval := SLEEP_TIME_MIN;
      }
      assert sleepInterval == SleepInterval(battery, anomaly);
      var heating := Trunc(sleepInterval as real / 6.0);
      r := Ok(Command1(sender, localAddress, DUTY_CYCLE_COMMAND, now, sleepInterval, (0, 45, 1), heating));
    }

    method Evaluate31(packet: DataPacketRev31, queries: QueryResults, now: int) returns (r: Result<Reply, Error>)
      modifies store
      ensures r == Rev31Decision(localAddress, calibration, aggregatedMovement, aggregatedTemperature, packet, queries, now)
      ensures store.records == old(store.records)
        + [BatteryRecord(packet.sender, Voltage31(calibration, packet), queries, now)]
    {
      var voltage := calibration.voltage31(packet.voltage);
      r := EvaluateData(packet.sender, voltage, packet.reading, queries, now);
    }

    method Evaluate32(packet: DataPacketRev32, queries: QueryResults, now: int) returns (r: Result<Reply, Error>)
      modifies store
      ensures r == Rev32Decision(localAddress, calibration, aggregatedMovement, aggregatedTemperature, packet, queries, now)
      ensures store.records == old(store.records)
        + [BatteryRecord(packet.sender, Voltage32(calibration, packet), queries, now)]
    {
      var voltage := calibration.voltage32(packet.adcVoltBat, packet.adcBandgap);
      r := EvaluateData(packet.sender, voltage, packet.reading, queries, now);
    }
  }
}
