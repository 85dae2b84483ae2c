/** What the engine promises over any message and over any run of messages. */
module EngineLemmas {
  import opened Wrappers
  import opened Packets
  import opened TimeSeries
  import opened Policy
  import opened Engine
  import opened PolicyLemmas

  ghost predicate OccursAt(s: string, sub: string, i: int)
  {
    0 <= i <= |s| - |sub| && s[i..i + |sub|] == sub
  }

  /** Contains is substring search: `sub` occurs in `s` at some position. */
  lemma {:induction false} ContainsIff(s: string, sub: string)
    ensures Contains(s, sub) <==> exists i :: OccursAt(s, sub, i)
    decreases |s|
  {
    if |sub| > |s| {
    } else if s[..|sub|] == sub {
      assert OccursAt(s, sub, 0);
    } else {
      ContainsIff(s[1..], sub);
      if Contains(s[1..], sub) {
        var i :| OccursAt(s[1..], sub, i);
        assert s[i + 1..i + 1 + |sub|] == s[1..][i..i + |sub|];
        assert OccursAt(s, sub, i + 1);
      }
      if exists i :: OccursAt(s, sub, i) {
        var i :| OccursAt(s, sub, i);
        assert i != 0;
        assert s[1..][i - 1..i - 1 + |sub|] == s[i..i + |sub|];
        assert OccursAt(s[1..], sub, i - 1);
      }
    }
  }

  // ---------------------------------------------------------------- one message

  /** No message changes the temperature aggregate. */
  lemma StepKeepsTemperatureAggregate(cfg: Config, env: Environment, s: EngineState, message: Message)
    ensures MessageStep(cfg, env, s, message).state.aggregatedTemperature == s.aggregatedTemperature
  {
    if Contains(message.topic, "receive") {
      PacketStepExtends(cfg, env, s, message.payload);
    }
  }

  /**
   * `t` extends `s`: at most one reply published on top, on the command topic, and the
   * records and the log only appended to.
   */
  ghost predicate Extends(s: EngineState, t: EngineState)
  {
    && |s.published| <= |t.published| <= |s.published| + 1
    && t.published[..|s.published|] == s.published
    && (forall i :: |s.published| <= i < |t.published| ==> t.published[i].topic == COMMAND_TOPIC)
    && |t.records| >= |s.records| && t.records[..|s.records|] == s.records
    && |t.log| >= |s.log| && t.log[..|s.log|] == s.log
  }

  ghost predicate KeepsAggregates(s: EngineState, t: EngineState)
  {
    t.aggregatedMovement == s.aggregatedMovement && t.aggregatedTemperature == s.aggregatedTemperature
  }

  lemma DataStepExtends(s: EngineState, battery: Record, decision: Result<Reply, Error>, packet: Packet)
    ensures Extends(s, DataStep(s, battery, decision, packet).state)
    ensures KeepsAggregates(s, DataStep(s, battery, decision, packet).state)
  {
  }

  /** A packet, whatever its variant, extends the outputs and leaves both aggregates as they were. */
  lemma PacketStepExtends(cfg: Config, env: Environment, s: EngineState, payload: seq<byte>)
    ensures Extends(s, PacketStep(cfg, env, s, payload).state)
    ensures KeepsAggregates(s, PacketStep(cfg, env, s, payload).state)
  {
    match cfg.codec.decodePacket(payload)
    case None =>
    case Some(Helo(p)) =>
    case Some(Rev31(p)) =>
      DataStepExtends(s, BatteryRecord(p.sender, Voltage31(cfg.calibration, p), env.queries, env.now),
                      Rev31Decision(cfg.address, cfg.calibration, s.aggregatedMovement, s.aggregatedTemperature,
                                    p, env.queries, env.now),
                      Rev31(p));
    case Some(Rev32(p)) =>
      DataStepExtends(s, BatteryRecord(p.sender, Voltage32(cfg.calibration, p), env.queries, env.now),
                      Rev32Decision(cfg.address, cfg.calibration, s.aggregatedMovement, s.aggregatedTemperature,
                                    p, env.queries, env.now),
                      Rev32(p));
    case Some(Light(p)) =>
    case Some(Other) =>
  }

  /**
   * A message publishes at most one reply, always on the command topic, and never takes
   * back what was published, written or logged before.
   */
  lemma StepExtends(cfg: Config, env: Environment, s: EngineState, message: Message)
    ensures Extends(s, MessageStep(cfg, env, s, message).state)
  {
    if Contains(message.topic, "receive") {
      PacketStepExtends(cfg, env, s, message.payload);
    }
  }

  /**
   * A topic without "global" always reaches the unknown-topic branch, even a "receive"
   * topic whose packet was handled, unless handling it raised.
   */
  lemma TopicWithoutGlobalIsUnknown(cfg: Config, env: Environment, s: EngineState, message: Message)
    requires !Contains(message.topic, "global")
    ensures var outcome := MessageStep(cfg, env, s, message);
      outcome.raised.None? ==> outcome.state.log[|outcome.state.log| - 1] == UnknownTopic(message.topic)
  {
  }

  /** A global movement message replaces the movement aggregate wholesale and changes nothing else. */
  lemma MovementMessageReplacesAggregate(
    cfg: Config, env: Environment, s: EngineState, message: Message, aggregate: map<string, real>)
    requires !Contains(message.topic, "receive")
    requires Contains(message.topic, "global") && Contains(message.topic, "movement")
    requires cfg.codec.decodeAggregate(message.payload) == Some(aggregate)
    ensures MessageStep(cfg, env, s, message) == Outcome(s.(aggregatedMovement := aggregate), None)
  {
  }

  /**
   * Any global movement message whose payload decodes, a "receive" one included, leaves
   * the movement aggregate equal to the payload unless the packet handling raised first.
   */
  lemma GlobalMovementMessageSetsAggregate(
    cfg: Config, env: Environment, s: EngineState, message: Message, aggregate: map<string, real>)
    requires Contains(message.topic, "global") && Contains(message.topic, "movement")
    requires cfg.codec.decodeAggregate(message.payload) == Some(aggregate)
    ensures var outcome := MessageStep(cfg, env, s, message);
      outcome.raised.None? ==> outcome.state.aggregatedMovement == aggregate
  {
  }

  /** Every message that is not a global movement message leaves both aggregates as they were. */
  lemma OtherMessagesKeepAggregates(cfg: Config, env: Environment, s: EngineState, message: Message)
    requires !(Contains(message.topic, "global") && Contains(message.topic, "movement"))
    ensures MessageStep(cfg, env, s, message).state.aggregatedMovement == s.aggregatedMovement
    ensures MessageStep(cfg, env, s, message).state.aggregatedTemperature == s.aggregatedTemperature
  {
    if Contains(message.topic, "receive") {
      PacketStepExtends(cfg, env, s, message.payload);
    }
  }

  /** A helo is answered exactly once, to its sender, from the engine's address, with command 190, and nothing is written. */
  lemma HeloAnsweredOnce(cfg: Config, env: Environment, s: EngineState, message: Message, packet: HeloPacket)
    requires Contains(message.topic, "receive")
    requires cfg.codec.decodePacket(message.payload) == Some(Helo(packet))
    ensures var t := MessageStep(cfg, env, s, message).state;
      && t.published == s.published + [Publication(COMMAND_TOPIC, CloudHelo(packet.sender, cfg.address, 190, env.now))]
      && t.records == s.records
  {
  }

  /**
   * A revision 3.2 packet: the battery interval is written first; if the evaluation then
   * raises, that is the message's outcome and nothing is published or written after the
   * interval; otherwise the packet is written and the reply published.
   */
  lemma DataPacketEffects(cfg: Config, env: Environment, s: EngineState, message: Message, packet: DataPacketRev32)
    requires Contains(message.topic, "receive")
    requires cfg.codec.decodePacket(message.payload) == Some(Rev32(packet))
    ensures var outcome := MessageStep(cfg, env, s, message);
      var battery := BatteryRecord(packet.sender, Voltage32(cfg.calibration, packet), env.queries, env.now);
      match Rev32Decision(cfg.address, cfg.calibration, s.aggregatedMovement, s.aggregatedTemperature,
                          packet, env.queries, env.now)
      case Err(e) =>
        outcome == Outcome(s.(records := s.records + [battery]), Some(e))
      case Ok(reply) =>
        && outcome.state.records == s.records + [battery, PacketRecord(Rev32(packet))]
        && outcome.state.published == s.published + [Publication(COMMAND_TOPIC, reply)]
  {
  }

  /** The same for a revision 3.1 packet, whose voltage comes from the 3.1 calibration. */
  lemma DataPacketRev31Effects(cfg: Config, env: Environment, s: EngineState, message: Message, packet: DataPacketRev31)
    requires Contains(message.topic, "receive")
    requires cfg.codec.decodePacket(message.payload) == Some(Rev31(packet))
    ensures var outcome := MessageStep(cfg, env, s, message);
      var battery := BatteryRecord(packet.sender, Voltage31(cfg.calibration, packet), env.queries, env.now);
      match Rev31Decision(cfg.address, cfg.calibration, s.aggregatedMovement, s.aggregatedTemperature,
                          packet, env.queries, env.now)
      case Err(e) =>
        outcome == Outcome(s.(records := s.records + [battery]), Some(e))
      case Ok(reply) =>
        && outcome.state.records == s.records + [battery, PacketRecord(Rev31(packet))]
        && outcome.state.published == s.published + [Publication(COMMAND_TOPIC, reply)]
  {
  }

  /**
   * A data packet of either revision whose gravity history has fewer than two points
   * raises StatisticsError: only its battery interval is written, the packet itself is
   * not, and nothing is published. So the store's gravity history cannot grow from the
   * engine's own writes.
   */
  lemma ShortGravityHistoryRaises(cfg: Config, env: Environment, s: EngineState, message: Message, packet: Packet)
    requires Contains(message.topic, "receive")
    requires cfg.codec.decodePacket(message.payload) == Some(packet)
    requires packet.Rev31? || packet.Rev32?
    requires |env.queries.gravity| < 2
    ensures var outcome := MessageStep(cfg, env, s, message);
      && outcome.raised == Some(StatisticsError)
      && |outcome.state.records| == |s.records| + 1
      && outcome.state.records[..|s.records|] == s.records
      && outcome.state.records[|s.records|].IntervalRecord?
      && outcome.state.published == s.published
  {
  }

  /** A light-sensor packet is written, then answered once on "command" with the light policy's reply. */
  lemma LightAnsweredOnce(cfg: Config, env: Environment, s: EngineState, message: Message, packet: LightSensorPacket)
    requires Contains(message.topic, "receive")
    requires cfg.codec.decodePacket(message.payload) == Some(Light(packet))
    ensures var t := MessageStep(cfg, env, s, message).state;
      && t.published == s.published + [Publication(COMMAND_TOPIC, LightPolicy(cfg.address).Evaluate(packet, env.now))]
      && t.records == s.records + [PacketRecord(Light(packet))]
  {
  }

  /** A packet of any other variant publishes nothing, writes nothing, and logs the unsupported type. */
  lemma UnsupportedPacketIgnored(cfg: Config, env: Environment, s: EngineState, message: Message)
    requires Contains(message.topic, "receive")
    requires cfg.codec.decodePacket(message.payload) == Some(Other)
    ensures var t := MessageStep(cfg, env, s, message).state;
      && t.published == s.published && t.records == s.records
      && t.log[|s.log|] == UnsupportedPacketType
  {
  }

  /**
   * With the temperature aggregate empty, the temperature test never fires: it is false
   * while no movement aggregate has been received, and once one has and the temperature
   * history is not empty it raises KeyError on the cold-probe stdev.
   */
  lemma EmptyTemperatureAggregateNeverFlags(
    aggMovement: map<string, real>, calibration: Calibration, reading: Reading, samples: seq<ProbeSample>)
    ensures TemperatureAnomaly(aggMovement, map[], calibration, reading, samples) != Ok(true)
    ensures |aggMovement| > 0 && |samples| > 0 ==>
      TemperatureAnomaly(aggMovement, map[], calibration, reading, samples) == Err(KeyError("stdev_delta_cold"))
  {
    if |aggMovement| > 0 && |samples| > 0 {
      TemperatureAnomalyIff(aggMovement, map[], calibration, reading, samples);
    }
  }

  /**
   * Hence, once a movement aggregate has arrived, a data packet whose gravity test is
   * false is never answered: with a temperature history its evaluation raises KeyError.
   */
  lemma DataPacketRaisesOnceMovementKnown(
    localAddress: Address, calibration: Calibration, aggMovement: map<string, real>,
    sender: Address, voltage: real, reading: Reading, queries: QueryResults, now: int)
    requires |aggMovement| > 0 && |queries.stemTemperature| > 0
    requires GravityAnomaly(queries.gravity, reading, aggMovement) == Ok(false)
    ensures DataDecision(localAddress, calibration, aggMovement, map[], sender, voltage, reading, queries, now)
         == Err(KeyError("stdev_delta_cold"))
  {
    EmptyTemperatureAggregateNeverFlags(aggMovement, calibration, reading, queries.stemTemperature);
  }

  // ---------------------------------------------------------------- runs

  /** The temperature aggregate is never assigned: it is empty after every run from the initial state. */
  lemma {:induction false} RunKeepsTemperatureAggregate(cfg: Config, s: EngineState, deliveries: seq<Delivery>)
    ensures Run(cfg, s, deliveries).aggregatedTemperature == s.aggregatedTemperature
    decreases |deliveries|
  {
    if |deliveries| > 0 {
      StepKeepsTemperatureAggregate(cfg, deliveries[0].env, s, deliveries[0].message);
      RunKeepsTemperatureAggregate(cfg, MessageStep(cfg, deliveries[0].env, s, deliveries[0].message).state,
                                   deliveries[1..]);
    }
  }

  ghost predicate OnCommandTopic(published: seq<Publication>)
  {
    forall i :: 0 <= i < |published| ==> published[i].topic == COMMAND_TOPIC
  }

  /** Over a run, every publication is on the command topic and there are at most as many as messages. */
  lemma {:induction false} RunPublications(cfg: Config, s: EngineState, deliveries: seq<Delivery>)
    requires OnCommandTopic(s.published)
    ensures OnCommandTopic(Run(cfg, s, deliveries).published)
    ensures |Run(cfg, s, deliveries).published| <= |s.published| + |deliveries|
    decreases |deliveries|
  {
    if |deliveries| > 0 {
      var next := MessageStep(cfg, deliveries[0].env, s, deliveries[0].message).state;
      StepExtends(cfg, deliveries[0].env, s, deliveries[0].message);
      assert OnCommandTopic(next.published) by {
        forall i | 0 <= i < |next.published| ensures next.published[i].topic == COMMAND_TOPIC {
          if i < |s.published| {
            assert next.published[i] == next.published[..|s.published|][i];
          }
        }
      }
      RunPublications(cfg, next, deliveries[1..]);
    }
  }

  /**
   * In a running engine the temperature test never fires: whatever messages arrived, the
   * test against the engine's aggregates is false or raises.
   */
  lemma EngineTemperatureNeverFlags(
    cfg: Config, deliveries: seq<Delivery>, reading: Reading, samples: seq<ProbeSample>)
    ensures var s := Run(cfg, Initial(), deliveries);
      TemperatureAnomaly(s.aggregatedMovement, s.aggregatedTemperature, cfg.calibration, reading, samples) != Ok(true)
  {
    var s := Run(cfg, Initial(), deliveries);
    RunKeepsTemperatureAggregate(cfg, Initial(), deliveries);
    EmptyTemperatureAggregateNeverFlags(s.aggregatedMovement, cfg.calibration, reading, samples);
  }
}
