# Treetalker local decision engine — a Dafny model

The gateway of a sensor network for "treetalker" field devices. Devices report battery,
gravity (tilt) and stem-temperature telemetry. The local decision engine (LDE) receives each
report from the message bus and hands it to a policy. It publishes the command the policy
computes. That command sets the device's sleep interval and heating time.

The model covers:

- **`DataPolicy`** (`ttcloud/ttt/policy.py`). It starts from a battery interval: the previous
  interval, corrected by how far a 48-hour linear extrapolation of the voltage history falls
  short of 3700 mV. The interval is raised to at least 60 s. It is forced to 60 s when any of
  three one-standard-deviation tests fires:
  - the device's gravity means against its own history (position);
  - its gravity derivations against the network movement aggregate (movement);
  - its probe temperature differences against the temperature aggregate.

  Heating is the interval divided by 6. `LightPolicy` answers light-sensor packets with fixed
  settings.
- **The `LDE` router** (`ttcloud/ttt/local_decision_engine.py`). It routes bus messages by
  topic substring and dispatches packets by variant. It keeps the movement aggregate that the
  data policy reads.

Files and modules:

- `wrappers.dfy` (`Wrappers`): `Option` and `Result`. Raised exceptions become `Err` values.
- `packets.dfy` (`Packets`): packets, replies, calibration functions and errors, as datatypes.
- `stats.dfy` (`Stats`): over exact reals. It holds `abs`, `max`, `int()` (truncation toward
  zero), `statistics.mean` and the sample variance behind `statistics.stdev`. A standard
  deviation is never formed. `|d| > stdev` is decided as `d² > variance`, and
  `ExceedsStdevIff` proves the two agree.
- `regression.dfy` (`Regression`): one-variable ordinary least squares, standing in for the
  linear-regression library. When all timestamps coincide it returns the horizontal line
  through the mean, which is the minimum-norm solution such a library returns.
- `timeseries.dfy` (`TimeSeries`): the store as the engine changes it, an append-only log of
  written points.
- `policy.dfy` (`Policy`) has two layers:
  - specification functions: `BatteryInterval`, `PositionAnomaly`, `MovementAnomaly`,
    `GravityAnomaly`, `TemperatureAnomaly` and `DataDecision`;
  - the `DataPolicy` class, whose methods build the history lists with the source's loops, are
    proved equal to those functions, and write to the store.
- `policy_lemmas.dfy` (`PolicyLemmas`): the policy's promises.
- `engine.dfy` (`Engine`) has two layers:
  - the engine as a state machine: `MessageStep`, `PacketStep`, `GlobalStep` and `Run` over
    `EngineState`;
  - the `LDE` class, whose methods are proved to take exactly those steps.
- `engine_lemmas.dfy` (`EngineLemmas`): the engine's promises over one message and over runs.

Inputs the model takes as parameters:

- **The store's answers.** The answers to the policy's four queries are a `QueryResults`
  value: battery history, last stored interval (`Option`), gravity means and probe
  temperatures. They are not derived from the model's own write log, because the queries'
  two-day window, their `treealker` tag filter and the packet-to-point conversion
  (`to_influx_json`) are not modelled.
- **The clock.** `time.time()` is one `now` (integer seconds) per message.
- **Calibration.** The functions that turn raw probe and battery values into temperatures and
  voltages (`compute_temperature`, `compute_battery_voltage_rev_3_1`/`_3_2`) are the arrow
  functions of `Calibration`.
- **Decoding.** The packet decoder (base64 plus `unmarshall`) and `json.loads` are the arrow
  functions of `Codec`, which return `None` where the source raises.

The intended behaviour is that a missing aggregate or a short history reads as "no
anomaly" and leaves the battery interval in force. Where the code does otherwise, the model
follows the code:

- **The temperature guard.** It tests the movement aggregate, not the temperature aggregate
  (`policy.py:162`).
- **The temperature aggregate.** No path in the engine ever assigns it, so it stays empty
  (`EngineLemmas.RunKeepsTemperatureAggregate`). Once a movement aggregate has arrived, and
  the gravity test is false and a temperature history exists, every data packet raises
  `KeyError` (`EngineLemmas.DataPacketRaisesOnceMovementKnown`). Without a temperature
  history it raises `StatisticsError`. It is not answered as "no anomaly".
- **Short histories raise.** A gravity history of fewer than two points makes
  `statistics.mean`/`stdev` raise, and so does an empty temperature history. These are not
  benign fallbacks. So the "empty history, 3650 mV" scenario only yields the 3650 s command
  when the gravity history has at least two points (`PolicyLemmas.SteadyDeviceScenario`).
- **The interval is written anyway.** The battery interval is written to the store even when
  the rest of the evaluation then raises (`EngineLemmas.DataPacketEffects`).
- **The gravity history cannot start from the engine alone.** A data packet whose gravity
  history has fewer than two points raises at `policy.py:109-110`, before the packet is
  written at `local_decision_engine.py:113`/`:122`
  (`EngineLemmas.ShortGravityHistoryRaises`). If the engine were the only writer of the store,
  the gravity history would never reach two points and no data packet would be answered.

## Model

| member | source | states |
|---|---|---|
| Stats.Trunc | ttcloud/ttt/policy.py:86-89 | `int()` on a float truncates toward zero: the result is within 1 of the argument, on the side of 0 |
| Stats.TruncMonotone | ttcloud/ttt/policy.py:86-89 | truncation is monotone |
| Stats.ExceedsStdevIff | ttcloud/ttt/policy.py:120-124 | for the non-negative square root s of a variance v, `d² > v` holds exactly when `abs(d) > s` (both directions) |
| Stats.ConstantStatistics | ttcloud/ttt/policy.py:109-114 | a series that is constantly c has mean c and, with at least two points, sample variance 0 |
| Stats.SquaredDeviationsPositive | ttcloud/ttt/policy.py:109-114 | a series with a value different from m has a strictly positive sum of squared deviations from m |
| Regression.FitThroughCentroid | ttcloud/ttt/policy.py:73 | the fitted line passes through the mean point of the series |
| Regression.FitRecoversLine | ttcloud/ttt/policy.py:73 | points lying on a line, with two distinct timestamps, are fitted by exactly that line |
| Regression.FitFlatWhenAbscissaeEqual | ttcloud/ttt/policy.py:70-73 | points that all share one timestamp (in particular a single point) are fitted by the horizontal line through their mean |
| Policy.Deltas | ttcloud/ttt/policy.py:190-199 | the historical differences are as long as the shorter of the two series (zip) and are element-wise `abs(heat - reference)` |
| Policy.DataPolicy.constructor | ttcloud/ttt/policy.py:34-39 | the policy holds the local address, the store and the two aggregates it is given |
| Policy.DataPolicy.EvaluateBattery | ttcloud/ttt/policy.py:57-104 | the loop collects the history, appends `(now, voltage)` last, and returns `BatteryInterval`: the truncation of the previous interval (3600 when none is stored) plus RDE·(3700 − prediction at now + 172800); it appends exactly that value, tagged with the sender, to the store |
| Policy.DataPolicy.EvaluateGravity | ttcloud/ttt/policy.py:144-157 | the loop splits the gravity history into the x, y and z lists; the result is the position test, or the movement test when position is false, with errors propagated |
| Policy.DataPolicy.EvaluateTemperature | ttcloud/ttt/policy.py:159-207 | false while the movement aggregate is empty; otherwise the loop collects the four probe lists, and the result is `StatisticsError` on an empty history, `KeyError` on a missing stdev, else the strict comparison of each current difference with its historical mean |
| Policy.DataPolicy.EvaluateData | ttcloud/ttt/policy.py:209-229 | the command is `DataDecision`: battery interval raised to 60, replaced by 60 on an anomaly, heating `int(interval / 6)`; the battery write is the only store change |
| Policy.DataPolicy.Evaluate32 | ttcloud/ttt/policy.py:209-229 | revision 3.2: decodes the battery from `adc_volt_bat` and `adc_bandgap`, then decides and writes as `EvaluateData` |
| Policy.DataPolicy.Evaluate31 | ttcloud/ttt/policy.py:231-251 | revision 3.1: decodes the battery from `voltage`, then decides and writes as `EvaluateData` |
| PolicyLemmas.HeatingIsDivision | ttcloud/ttt/policy.py:219 | for every non-negative interval, `int(interval / 6)` equals integer division by 6 |
| PolicyLemmas.CommandShape | ttcloud/ttt/policy.py:221-229 | every duty-cycle command goes to the packet's sender from the local address, with command 32, time now, unknown (0, 45, 1), sleep interval ≥ 60, heating = interval div 6, and heating ≥ 10 |
| PolicyLemmas.AnomalyOverridesBattery | ttcloud/ttt/policy.py:209-217 | an error from the anomaly tests is the evaluation's error; an anomaly gives interval 60 and heating 10 whatever the battery says; no anomaly gives `max(battery interval, 60)` |
| PolicyLemmas.RevisionsDifferOnlyInVoltage | ttcloud/ttt/policy.py:41-55 | two packets of the two revisions with equal sender, reading and decoded voltage get the same command and the same interval write |
| PolicyLemmas.FirstReadingPredictsItself | ttcloud/ttt/policy.py:61-89 | with no battery history the trend is flat at the current voltage, and the interval is the truncation of previous + 3700 − voltage |
| PolicyLemmas.SteadyVoltagePredictsItself | ttcloud/ttt/policy.py:61-88 | a history whose every voltage equals the current one predicts that voltage |
| PolicyLemmas.LinearDischargeExtrapolated | ttcloud/ttt/policy.py:73-88 | when history and current reading lie on one line, and some reading has another timestamp, the prediction is that line 48 hours after now |
| PolicyLemmas.BatteryIntervalAntitone | ttcloud/ttt/policy.py:86-89 | a lower predicted voltage never gives a shorter interval |
| PolicyLemmas.PositionAnomalyIff | ttcloud/ttt/policy.py:106-124 | with at least two historical points, the position test is true exactly when some axis mean is strictly more than its historical stdev from its historical mean |
| PolicyLemmas.PositionNeedsTwoPoints | ttcloud/ttt/policy.py:109-114 | a gravity history of fewer than two points makes the gravity test raise `StatisticsError` |
| PolicyLemmas.ZeroStdevFlagsAnyDeviation | ttcloud/ttt/policy.py:120-124 | against a history that is constant on some axis (stdev 0), any deviation on that axis, x, y or z, makes the gravity test true |
| PolicyLemmas.MovementAnomalyIff | ttcloud/ttt/policy.py:126-142 | the movement test is false on an empty aggregate; with all six keys present it is true exactly when some derivation is strictly more than the aggregate stdev from the aggregate mean |
| PolicyLemmas.MovementMissingKey | ttcloud/ttt/policy.py:135-137 | a non-empty aggregate without `mean_x` makes the movement test raise `KeyError("mean_x")` |
| PolicyLemmas.DeltasOfSamples | ttcloud/ttt/policy.py:184-199 | with lists collected from one query, there is one historical difference per stored reading for each probe pair, cold and hot, equal to its `abs(heat - reference)` |
| PolicyLemmas.TemperatureGuardAndEmptyHistory | ttcloud/ttt/policy.py:162-194 | the temperature test is false whenever the movement aggregate is empty, whatever the temperature aggregate holds; otherwise an empty history makes it raise `StatisticsError` |
| PolicyLemmas.TemperatureAnomalyIff | ttcloud/ttt/policy.py:166-207 | with a movement aggregate and a history, a missing `stdev_delta_cold` raises `KeyError`; with both stdevs present the test is true exactly when a current difference is strictly more than that stdev from the historical mean |
| PolicyLemmas.LightReplyFixed | ttcloud/ttt/policy.py:263-271 | the light reply depends on the packet only through its sender: command 33, integration time 50, gain 3, sent to the sender from the local address at time now |
| PolicyLemmas.SteadyDeviceScenario | ttcloud/ttt/policy.py:209-229 | first reading, 3650 mV, no stored interval, steady gravity history, no aggregates: command with interval 3650 and heating 608 |
| PolicyLemmas.TiltedDeviceScenario | ttcloud/ttt/policy.py:209-229 | the same device tilted on one axis: command with interval 60 and heating 10 |
| TimeSeries.Store.WritePoints | ttcloud/ttt/policy.py:102 | a write appends one record and changes nothing else |
| Engine.LDE.constructor | ttcloud/ttt/local_decision_engine.py:32-41 | the engine starts with both aggregates empty, nothing published, nothing written, and the policies bound to its address and store |
| Engine.LDE.OnMessage | ttcloud/ttt/local_decision_engine.py:58-68 | a message changes the engine's state exactly as `MessageStep`: a "receive" topic is handled as a packet, then a "global" topic as global state, and any topic without "global" is logged as unknown |
| Engine.LDE.HandleGlobalState | ttcloud/ttt/local_decision_engine.py:70-77 | a "movement" topic replaces the movement aggregate with the decoded payload; any other topic is logged; the temperature aggregate is untouched |
| Engine.LDE.HandlePacket | ttcloud/ttt/local_decision_engine.py:79-98 | the packet is dispatched by variant and the reply published once on "command"; an unsupported variant is logged and nothing is published |
| Engine.LDE.OnDataRev31 | ttcloud/ttt/local_decision_engine.py:117-124 | the reply is the 3.1 policy decision; the packet is written after the policy's own interval write, and only if the policy returned |
| Engine.LDE.OnDataRev32 | ttcloud/ttt/local_decision_engine.py:108-115 | the reply is the 3.2 policy decision; the packet is written after the policy's own interval write, and only if the policy returned |
| Engine.LDE.OnLight | ttcloud/ttt/local_decision_engine.py:126-133 | the reply is the light policy's; the packet is then written to the store |
| EngineLemmas.ContainsIff | ttcloud/ttt/local_decision_engine.py:63-65 | the topic test is substring search: true exactly when the substring occurs at some position |
| EngineLemmas.StepKeepsTemperatureAggregate | ttcloud/ttt/local_decision_engine.py:70-77 | no message changes the temperature aggregate |
| EngineLemmas.StepExtends | ttcloud/ttt/local_decision_engine.py:85-98 | a message publishes at most one reply, on "command", and only appends to the published, written and logged items |
| EngineLemmas.TopicWithoutGlobalIsUnknown | ttcloud/ttt/local_decision_engine.py:63-68 | every topic without "global", including a handled "receive" topic, ends with an unknown-topic log entry unless handling raised |
| EngineLemmas.MovementMessageReplacesAggregate | ttcloud/ttt/local_decision_engine.py:72-75 | a global movement message replaces the movement aggregate wholesale with the decoded payload and changes nothing else |
| EngineLemmas.GlobalMovementMessageSetsAggregate | ttcloud/ttt/local_decision_engine.py:64-75 | any global movement message that decodes, a "receive" topic included, leaves the movement aggregate equal to its payload unless packet handling raised first |
| EngineLemmas.OtherMessagesKeepAggregates | ttcloud/ttt/local_decision_engine.py:70-77 | every other message leaves both aggregates unchanged |
| EngineLemmas.HeloAnsweredOnce | ttcloud/ttt/local_decision_engine.py:100-106 | a helo is answered once on "command", to its sender, from the engine's address, with command 190, and nothing is written |
| EngineLemmas.DataPacketEffects | ttcloud/ttt/local_decision_engine.py:108-115 | a 3.2 packet writes the battery interval first; if the evaluation raises, that is the outcome and nothing else happens; otherwise the packet is written and the reply published |
| EngineLemmas.DataPacketRev31Effects | ttcloud/ttt/local_decision_engine.py:117-124 | a 3.1 packet writes the battery interval first; if the evaluation raises, that is the outcome and nothing else happens; otherwise the packet is written and the reply published |
| EngineLemmas.ShortGravityHistoryRaises | ttcloud/ttt/policy.py:109-110 | a data packet of either revision with fewer than two gravity points raises `StatisticsError`; only the interval is written, the packet is not, and nothing is published |
| EngineLemmas.LightAnsweredOnce | ttcloud/ttt/local_decision_engine.py:126-133 | a light packet is written, then answered once on "command" with the light policy's reply |
| EngineLemmas.UnsupportedPacketIgnored | ttcloud/ttt/local_decision_engine.py:91-95 | a packet of any other variant publishes nothing, writes nothing, and logs "unsupported packet type" |
| EngineLemmas.EmptyTemperatureAggregateNeverFlags | ttcloud/ttt/policy.py:202-207 | with an empty temperature aggregate the temperature test is never true; with a movement aggregate and a history it raises `KeyError("stdev_delta_cold")` |
| EngineLemmas.DataPacketRaisesOnceMovementKnown | ttcloud/ttt/policy.py:162-207 | with a movement aggregate, an empty temperature aggregate, a temperature history and a false gravity test, the data evaluation raises `KeyError` |
| EngineLemmas.RunKeepsTemperatureAggregate | ttcloud/ttt/local_decision_engine.py:32-37 | the temperature aggregate keeps its initial value, the empty map, through any run of messages |
| EngineLemmas.RunPublications | ttcloud/ttt/local_decision_engine.py:98 | through any run every publication is on "command", and there are at most as many as messages |
| EngineLemmas.EngineTemperatureNeverFlags | ttcloud/ttt/local_decision_engine.py:35-36 | in an engine that started empty, the temperature test against its aggregates is never true, whatever messages arrived |

## Left out

- Store queries and writes: the query strings, the time window and the parsing of timestamp strings are not modelled. The answers are a `QueryResults` input. So the model keeps neither the tag mismatch between query and write, nor the `get_points("power")` call on the interval query; both usually leave the 3600 default in force.
- Floating point: all of the policy's arithmetic uses exact reals, so rounding is not modelled. This covers the regression (the linear-regression library becomes exact ordinary least squares), `statistics.mean` and `statistics.stdev` (the square root is compared through the variance), the `>` comparisons against them, and `int(sleep_interval / 6)`.
- `compute_temperature` and `compute_battery_voltage_rev_3_1`/`_3_2`: their module is not part of this model; they are uninterpreted `Calibration` functions.
- The packet codec (`unmarshall`, `marshall`, `to_influx_json`): not part of this model. Decoding is an uninterpreted `Codec` function, and records hold the packet value.
- Representation of decoded payloads: a JSON payload that decodes to something other than a string-to-number map counts as a decode failure.
- Missing fields in stored points: the model's histories hold numbers only. A point whose field is null, which would make the arithmetic raise `TypeError`, is not modelled.
- MQTT plumbing: client setup, subscriptions, `loop_start`/`disconnect`, the context manager and the `start()` sleep loop are I/O.
- Publication payloads: the bus carries the base64 of the marshalled reply; the model records the reply value.
- Debug and info logging: only the three error-level log lines of the router are kept.
- After a raised exception: `Run` hands every message to the engine whether or not an earlier one raised. What the MQTT client library does after its callback raises is not modelled.
- The clock: each message is handled at one instant `now`; the source reads the clock several times.
- `LightPolicy._evaluate_brightness`: a stub with no body, never called.
- `ttcloud/ttcloud/impersonator.py`: radio hardware control, outside this model.
- Concurrency: the router is modelled one message at a time, so updates of the aggregate concurrent with an evaluation are not captured.
