/** What the policy promises about the commands it emits, stated over the functions of the policy module. */
module PolicyLemmas {
  import opened Wrappers
  import opened Packets
  import opened Stats
  import opened Regression
  import opened Policy

  // ---------------------------------------------------------------- the command

  /** For the intervals the policy emits, int(interval / 6) is integer division by 6. */
  lemma HeatingIsDivision(sleepInterval: int)
    requires sleepInterval >= 0
    ensures Heating(sleepInterval) == sleepInterval / 6
  {
    var q := sleepInterval / 6;
    var x := sleepInterval as real / 6.0;
    assert q as real <= x < q as real + 1.0;
  }

  /**
   * Every duty-cycle command goes back to the packet's sender from the local address
   * with command 32, the current time and the fixed (0, 45, 1); its sleep interval is at
   * least the minimum, and its heating is the interval divided by 6, hence at least 10.
   */
  lemma CommandShape(
    localAddress: Address, calibration: Calibration,
    aggMovement: map<string, real>, aggTemperature: map<string, real>,
    sender: Address, voltage: real, reading: Reading, queries: QueryResults, now: int)
    ensures var decision := DataDecision(localAddress, calibration, aggMovement, aggTemperature,
                                         sender, voltage, reading, queries, now);
      decision.Ok? ==>
        var reply := decision.value;
        && reply.Command1?
        && reply.receiver == sender && reply.sender == localAddress
        && reply.command == 32 && reply.time == now && reply.unknown == (0, 45, 1)
        && reply.sleepInterval >= SLEEP_TIME_MIN
        && reply.heating == reply.sleepInterval / 6
        && reply.heating >= 10
  {
    var decision := DataDecision(localAddress, calibration, aggMovement, aggTemperature,
                                 sender, voltage, reading, queries, now);
    if decision.Ok? {
      HeatingIsDivision(decision.value.sleepInterval);
    }
  }

  /**
   * The anomaly tests decide the command: an error they raise is the outcome, an anomaly
   * forces the minimum interval (and heating 10) whatever the battery says, and otherwise
   * the interval is the battery interval raised to the minimum.
   */
  lemma AnomalyOverridesBattery(
    localAddress: Address, calibration: Calibration,
    aggMovement: map<string, real>, aggTemperature: map<string, real>,
    sender: Address, voltage: real, reading: Reading, queries: QueryResults, now: int)
    ensures var anomaly := OrElse(GravityAnomaly(queries.gravity, reading, aggMovement),
                                  TemperatureAnomaly(aggMovement, aggTemperature, calibration, reading,
                                                     queries.stemTemperature));
      var decision := DataDecision(localAddress, calibration, aggMovement, aggTemperature,
                                   sender, voltage, reading, queries, now);
      && (anomaly.Err? ==> decision == Err(anomaly.error))
      && (anomaly == Ok(true) ==>
            decision.Ok? && decision.value.sleepInterval == SLEEP_TIME_MIN && decision.value.heating == 10)
      && (anomaly == Ok(false) ==>
            decision.Ok? && decision.value.sleepInterval == Max(BatteryInterval(queries, now, voltage), SLEEP_TIME_MIN))
  {
    HeatingIsDivision(SLEEP_TIME_MIN);
  }

  /** evaluate_3_1 and evaluate_3_2 agree on packets whose decoded voltages, senders and readings agree. */
  lemma RevisionsDifferOnlyInVoltage(
    localAddress: Address, calibration: Calibration,
    aggMovement: map<string, real>, aggTemperature: map<string, real>,
    packet31: DataPacketRev31, packet32: DataPacketRev32, queries: QueryResults, now: int)
    requires packet31.sender == packet32.sender && packet31.reading == packet32.reading
    requires Voltage31(calibration, packet31) == Voltage32(calibration, packet32)
    ensures Rev31Decision(localAddress, calibration, aggMovement, aggTemperature, packet31, queries, now)
         == Rev32Decision(localAddress, calibration, aggMovement, aggTemperature, packet32, queries, now)
    ensures BatteryRecord(packet31.sender, Voltage31(calibration, packet31), queries, now)
         == BatteryRecord(packet32.sender, Voltage32(calibration, packet32), queries, now)
  {
  }

  // ---------------------------------------------------------------- battery

  /** A device with no battery history: the trend is flat at the current voltage. */
  lemma FirstReadingPredictsItself(queries: QueryResults, now: int, voltage: real)
    requires queries.power == []
    ensures PredictedVoltage(queries.power, now, voltage) == voltage
    ensures BatteryInterval(queries, now, voltage)
         == Trunc(PreviousInterval(queries.lastInterval) as real + TARGET_VOLTAGE - voltage)
  {
    var series := RegressionSeries(queries.power, now, voltage);
    FitFlatWhenAbscissaeEqual(Times(series), Voltages(series));
    ConstantStatistics(Voltages(series), voltage);
  }

  /** A battery whose history reads the current voltage throughout is predicted to keep it. */
  lemma SteadyVoltagePredictsItself(history: seq<VoltageSample>, now: int, voltage: real)
    requires forall i :: 0 <= i < |history| ==> history[i].voltage == voltage
    ensures PredictedVoltage(history, now, voltage) == voltage
  {
    var series := RegressionSeries(history, now, voltage);
    var xs, ys := Times(series), Voltages(series);
    var flat := Line(0.0, voltage);
    assert OnLine(xs, ys, flat);
    if Constant(xs, xs[0]) {
      FitFlatWhenAbscissaeEqual(xs, ys);
      ConstantStatistics(ys, voltage);
    } else {
      var i :| 0 <= i < |xs| && xs[i] != xs[0];
      FitRecoversLine(xs, ys, flat, i);
    }
  }

  /**
   * A battery discharging along a straight line (history and current reading on `line`,
   * with some stored reading taken at another time than now) is predicted on that line.
   */
  lemma LinearDischargeExtrapolated(history: seq<VoltageSample>, now: int, voltage: real, line: Line, j: int)
    requires 0 <= j < |history| && history[j].time != now
    requires forall i :: 0 <= i < |history| ==> history[i].voltage == Predict(line, history[i].time as real)
    requires voltage == Predict(line, now as real)
    ensures PredictedVoltage(history, now, voltage) == Predict(line, (now + PREDICTION_HORIZON) as real)
  {
    var series := RegressionSeries(history, now, voltage);
    var xs, ys := Times(series), Voltages(series);
    assert OnLine(xs, ys, line) by {
      forall i | 0 <= i < |xs| ensures ys[i] == Predict(line, xs[i]) {
        if i < |history| {
          assert series[i] == history[i];
        }
      }
    }
    if xs[j] != xs[0] {
      FitRecoversLine(xs, ys, line, j);
    } else {
      FitRecoversLine(xs, ys, line, |xs| - 1);
    }
  }

  /** The lower the predicted voltage, the longer (or equal) the battery interval. */
  lemma BatteryIntervalAntitone(queries1: QueryResults, queries2: QueryResults, now: int, voltage1: real, voltage2: real)
    requires queries1.lastInterval == queries2.lastInterval
    ensures PredictedVoltage(queries1.power, now, voltage1) <= PredictedVoltage(queries2.power, now, voltage2)
        ==> BatteryInterval(queries1, now, voltage1) >= BatteryInterval(queries2, now, voltage2)
  {
    var previous := PreviousInterval(queries1.lastInterval) as real;
    var predicted1 := PredictedVoltage(queries1.power, now, voltage1);
    var predicted2 := PredictedVoltage(queries2.power, now, voltage2);
    if predicted1 <= predicted2 {
      TruncMonotone(previous + RDE as real * (TARGET_VOLTAGE - predicted2),
                    previous + RDE as real * (TARGET_VOLTAGE - predicted1));
    }
  }

  // ---------------------------------------------------------------- position and movement

  /**
   * With sx, sy, sz the standard deviations of the three gravity histories, the position
   * test fires exactly when some current mean is strictly further than its stdev from
   * its history's mean.
   */
  lemma PositionAnomalyIff(means: GravityMeans, current: Axes, sx: real, sy: real, sz: real)
    requires |means.x| >= 2 && |means.y| >= 2 && |means.z| >= 2
    requires sx >= 0.0 && Square(sx) == Variance(means.x)
    requires sy >= 0.0 && Square(sy) == Variance(means.y)
    requires sz >= 0.0 && Square(sz) == Variance(means.z)
    ensures PositionAnomaly(means, current)
         == Ok(Abs(current.x - Mean(means.x)) > sx
               || Abs(current.y - Mean(means.y)) > sy
               || Abs(current.z - Mean(means.z)) > sz)
  {
    ExceedsStdevIff(current.x - Mean(means.x), Variance(means.x), sx);
    ExceedsStdevIff(current.y - Mean(means.y), Variance(means.y), sy);
    ExceedsStdevIff(current.z - Mean(means.z), Variance(means.z), sz);
  }

  /** A history too short for a standard deviation makes the position test raise. */
  lemma PositionNeedsTwoPoints(points: seq<Axes>, reading: Reading, aggMovement: map<string, real>)
    requires |points| < 2
    ensures GravityAnomaly(points, reading, aggMovement) == Err(StatisticsError)
  {
  }

  /** Against a history that never varied (stdev 0) on some axis, any deviation on that axis is an anomaly. */
  lemma ZeroStdevFlagsAnyDeviation(points: seq<Axes>, reading: Reading, aggMovement: map<string, real>, c: real)
    requires |points| >= 2
    ensures (forall i :: 0 <= i < |points| ==> points[i].x == c) && reading.gravityMean.x != c
      ==> GravityAnomaly(points, reading, aggMovement) == Ok(true)
    ensures (forall i :: 0 <= i < |points| ==> points[i].y == c) && reading.gravityMean.y != c
      ==> GravityAnomaly(points, reading, aggMovement) == Ok(true)
    ensures (forall i :: 0 <= i < |points| ==> points[i].z == c) && reading.gravityMean.z != c
      ==> GravityAnomaly(points, reading, aggMovement) == Ok(true)
  {
    var means := GravityColumns(points);
    if forall i :: 0 <= i < |points| ==> points[i].x == c {
      ConstantStatistics(means.x, c);
    }
    if forall i :: 0 <= i < |points| ==> points[i].y == c {
      ConstantStatistics(means.y, c);
    }
    if forall i :: 0 <= i < |points| ==> points[i].z == c {
      ConstantStatistics(means.z, c);
    }
  }

  /**
   * The movement test is false while no aggregate has been received; once one has and it
   * holds all six keys, it fires exactly when some derivation is strictly further than
   * the aggregate stdev from the aggregate mean.
   */
  lemma MovementAnomalyIff(agg: map<string, real>, derivation: Axes)
    requires |agg| == 0 || ("mean_x" in agg && "stdev_x" in agg && "mean_y" in agg
                            && "stdev_y" in agg && "mean_z" in agg && "stdev_z" in agg)
    ensures MovementAnomaly(agg, derivation)
         == Ok(|agg| != 0
               && (Abs(derivation.x - agg["mean_x"]) > agg["stdev_x"]
                   || Abs(derivation.y - agg["mean_y"]) > agg["stdev_y"]
                   || Abs(derivation.z - agg["mean_z"]) > agg["stdev_z"]))
  {
  }

  /** A non-empty aggregate that lacks the x mean makes the movement test raise KeyError on it. */
  lemma MovementMissingKey(agg: map<string, real>, derivation: Axes)
    requires |agg| > 0 && "mean_x" !in agg
    ensures MovementAnomaly(agg, derivation) == Err(KeyError("mean_x"))
  {
  }

  // ---------------------------------------------------------------- temperature

  lemma DeltasOfSamples(samples: seq<ProbeSample>)
    ensures |Deltas(HeatCold(samples), ReferenceCold(samples))| == |samples|
    ensures |Deltas(HeatHot(samples), ReferenceHot(samples))| == |samples|
    ensures forall i :: 0 <= i < |samples| ==>
      Deltas(HeatCold(samples), ReferenceCold(samples))[i] == Abs(samples[i].heatCold - samples[i].referenceCold)
    ensures forall i :: 0 <= i < |samples| ==>
      Deltas(HeatHot(samples), ReferenceHot(samples))[i] == Abs(samples[i].heatHot - samples[i].referenceHot)
  {
  }

  /**
   * The temperature guard looks at the movement aggregate: while that is empty the test
   * is false, whatever the temperature aggregate holds; once it is not, an empty
   * temperature history makes mean raise.
   */
  lemma TemperatureGuardAndEmptyHistory(
    aggMovement: map<string, real>, aggTemperature: map<string, real>,
    calibration: Calibration, reading: Reading, samples: seq<ProbeSample>)
    ensures |aggMovement| == 0 ==>
      TemperatureAnomaly(aggMovement, aggTemperature, calibration, reading, samples) == Ok(false)
    ensures |aggMovement| > 0 && samples == [] ==>
      TemperatureAnomaly(aggMovement, aggTemperature, calibration, reading, samples) == Err(StatisticsError)
  {
  }

  /**
   * With a movement aggregate and a temperature history, the test fires exactly when a
   * current probe difference is strictly further than the aggregate stdev from the mean
   * historical difference; a missing cold stdev is a KeyError.
   */
  lemma TemperatureAnomalyIff(
    aggMovement: map<string, real>, aggTemperature: map<string, real>,
    calibration: Calibration, reading: Reading, samples: seq<ProbeSample>)
    requires |aggMovement| > 0 && |samples| > 0
    ensures var deltaCold := Abs(calibration.temperature(reading.temperatureHeat.cold)
                                 - calibration.temperature(reading.temperatureReference.cold));
      var deltaHot := Abs(calibration.temperature(reading.temperatureHeat.hot)
                          - calibration.temperature(reading.temperatureReference.hot));
      var meanCold := Mean(Deltas(HeatCold(samples), ReferenceCold(samples)));
      var meanHot := Mean(Deltas(HeatHot(samples), ReferenceHot(samples)));
      var result := TemperatureAnomaly(aggMovement, aggTemperature, calibration, reading, samples);
      && ("stdev_delta_cold" !in aggTemperature ==> result == Err(KeyError("stdev_delta_cold")))
      && ("stdev_delta_cold" in aggTemperature && "stdev_delta_hot" in aggTemperature ==>
            result == Ok(Abs(deltaCold - meanCold) > aggTemperature["stdev_delta_cold"]
                         || Abs(deltaHot - meanHot) > aggTemperature["stdev_delta_hot"]))
  {
    DeltasOfSamples(samples);
  }

  // ---------------------------------------------------------------- light

  /** The light reply depends on the packet only through its sender. */
  lemma LightReplyFixed(policy: LightPolicy, packet1: LightSensorPacket, packet2: LightSensorPacket, now: int)
    requires packet1.sender == packet2.sender
    ensures policy.Evaluate(packet1, now) == policy.Evaluate(packet2, now)
    ensures var reply := policy.Evaluate(packet1, now);
      && reply.Command2? && reply.receiver == packet1.sender && reply.sender == policy.localAddress
      && reply.command == 33 && reply.time == now && reply.integrationTime == 50 && reply.gain == 3
  {
  }

  // ---------------------------------------------------------------- scenarios

  /**
   * A first reading at 3650 mV from a device whose position and movement are unremarkable
   * keeps the battery interval 3600 + (3700 - 3650) = 3650 s, and heats for 608 s.
   */
  lemma SteadyDeviceScenario(localAddress: Address, calibration: Calibration, sender: Address, reading: Reading,
                             samples: seq<ProbeSample>, now: int)
    requires reading.gravityMean == Axes(1.0, 1.0, 1.0)
    ensures var queries := QueryResults([], None, [Axes(1.0, 1.0, 1.0), Axes(1.0, 1.0, 1.0)], samples);
      DataDecision(localAddress, calibration, map[], map[], sender, 3650.0, reading, queries, now)
        == Ok(Command1(sender, localAddress, 32, now, 3650, (0, 45, 1), 608))
  {
    var queries := QueryResults([], None, [Axes(1.0, 1.0, 1.0), Axes(1.0, 1.0, 1.0)], samples);
    FirstReadingPredictsItself(queries, now, 3650.0);
    var means := GravityColumns(queries.gravity);
    ConstantStatistics(means.x, 1.0);
    ConstantStatistics(means.y, 1.0);
    ConstantStatistics(means.z, 1.0);
    HeatingIsDivision(3650);
  }

  /** The same device tilted on one axis is told to sleep the minimum 60 s, heating for 10 s. */
  lemma TiltedDeviceScenario(localAddress: Address, calibration: Calibration, sender: Address, reading: Reading,
                             samples: seq<ProbeSample>, now: int)
    requires reading.gravityMean == Axes(2.0, 1.0, 1.0)
    ensures var queries := QueryResults([], None, [Axes(1.0, 1.0, 1.0), Axes(1.0, 1.0, 1.0)], samples);
      DataDecision(localAddress, calibration, map[], map[], sender, 3650.0, reading, queries, now)
        == Ok(Command1(sender, localAddress, 32, now, 60, (0, 45, 1), 10))
  {
    var queries := QueryResults([], None, [Axes(1.0, 1.0, 1.0), Axes(1.0, 1.0, 1.0)], samples);
    assert forall i :: 0 <= i < |queries.gravity| ==> queries.gravity[i].x == 1.0;
    ZeroStdevFlagsAnyDeviation(queries.gravity, reading, map[], 1.0);
    assert GravityAnomaly(queries.gravity, reading, map[]) == Ok(true);
    HeatingIsDivision(60);
  }
}
