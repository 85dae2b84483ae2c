/**
 * The local decision engine: it receives bus messages one at a time, routes them by topic
 * substring, answers packets through the policies and keeps the network's movement
 * aggregate that the data policy reads.
 *
 * The functions here are the engine as a state machine over EngineState; the LDE class
 * is the engine as the source writes it, an object whose methods update its fields and
 * the data policy's aggregate, and every method is proved to take the step the functions
 * describe.
 */
module Engine {
  import opened Wrappers
  import opened Packets
  import opened TimeSeries
  import opened Policy

  /** The topic every reply is published on. */
  const COMMAND_TOPIC: string := "command"
  /** The command code of the cloud's helo answer. */
  const HELO_COMMAND: int := 190

  /**
   * The payload decoders: base64 then the packet codec for packet messages, JSON for
   * aggregate messages. None stands for a payload the decoder raises on.
   */
  datatype Codec = Codec(
    decodePacket: seq<byte> -> Option<Packet>,
    decodeAggregate: seq<byte> -> Option<map<string, real>>)

  datatype Message = Message(topic: string, payload: seq<byte>)

  /** What the store answers and what the clock reads while one message is handled. */
  datatype Environment = Environment(now: int, queries: QueryResults)

  /** One message together with the environment it is handled in. */
  datatype Delivery = Delivery(message: Message, env: Environment)

  datatype Config = Config(address: Address, codec: Codec, calibration: Calibration)

  datatype Publication = Publication(topic: string, reply: Reply)

  /** The errors the engine logs. */
  datatype LogEntry =
    | UnknownTopic(topic: string)
    | UnknownGlobalTopic(topic: string)
    | UnsupportedPacketType

  /** Everything handling a message can change: the two aggregates and the three output logs. */
  datatype EngineState = EngineState(
    aggregatedMovement: map<string, real>,
    aggregatedTemperature: map<string, real>,
    published: seq<Publication>,
    log: seq<LogEntry>,
    records: seq<Record>)

  /** The state after a message and the exception handling it raised, if any. */
  datatype Outcome = Outcome(state: EngineState, raised: Option<Error>)

  /** Python's `sub in s` on strings. */
  function Contains(s: string, sub: string): bool
    decreases |s|
  {
    if |sub| > |s| then false
    else if s[..|sub|] == sub then true
    else Contains(s[1..], sub)
  }

  /** The state the engine starts in: both aggregates empty and nothing sent or written. */
  function Initial(): EngineState
  {
    EngineState(map[], map[], [], [], [])
  }

  function HeloReply(address: Address, packet: HeloPacket, now: int): Reply
  {
    CloudHelo(packet.sender, address, HELO_COMMAND, now)
  }

  function Publish(s: EngineState, reply: Reply): EngineState
  {
    s.(published := s.published + [Publication(COMMAND_TOPIC, reply)])
  }

  /**
   * A data packet: the battery evaluation writes its interval first; if the rest of the
   * evaluation raises, nothing else happens, otherwise the packet is written and the
   * reply published.
   */
  function DataStep(s: EngineState, battery: Record, decision: Result<Reply, Error>, packet: Packet): Outcome
  {
    var written := s.(records := s.records + [battery]);
    match decision
    case Err(e) => Outcome(written, Some(e))
    case Ok(reply) => Outcome(Publish(written.(records := written.records + [PacketRecord(packet)]), reply), None)
  }

  /** _handle_packet: decode, dispatch by variant, publish the reply. */
  function PacketStep(cfg: Config, env: Environment, s: EngineState, payload: seq<byte>): Outcome
  {
    match cfg.codec.decodePacket(payload)
    case None => Outcome(s, Some(DecodeError))
    case Some(Helo(p)) => Outcome(Publish(s, HeloReply(cfg.address, p, env.now)), None)
    case Some(Rev31(p)) =>
      DataStep(s, BatteryRecord(p.sender, Voltage31(cfg.calibration, p), env.queries, env.now),
               Rev31Decision(cfg.address, cfg.calibration, s.aggregatedMovement, s.aggregatedTemperature,
                             p, env.queries, env.now),
               Rev31(p))
    case Some(Rev32(p)) =>
      DataStep(s, BatteryRecord(p.sender, Voltage32(cfg.calibration, p), env.queries, env.now),
               Rev32Decision(cfg.address, cfg.calibration, s.aggregatedMovement, s.aggregatedTemperature,
                             p, env.queries, env.now),
               Rev32(p))
    case Some(Light(p)) =>
      Outcome(Publish(s.(records := s.records + [PacketRecord(Light(p))]),
                      LightPolicy(cfg.address).Evaluate(p, env.now)), None)
    case Some(Other) => Outcome(s.(log := s.log + [UnsupportedPacketType]), None)
  }

  /** _handle_global_state: a movement topic replaces the movement aggregate with the decoded payload. */
  function GlobalStep(cfg: Config, s: EngineState, message: Message): Outcome
  {
    if Contains(message.topic, "movement") then
      match cfg.codec.decodeAggregate(message.payload)
      case None => Outcome(s, Some(DecodeError))
      case Some(aggregate) => Outcome(s.(aggregatedMovement := aggregate), None)
    else
      Outcome(s.(log := s.log + [UnknownGlobalTopic(message.topic)]), None)
  }

  /**
   * on_message: a "receive" topic is handled as a packet; then a "global" topic is
   * handled as global state and any other topic is logged as unknown.
   */
  function MessageStep(cfg: Config, env: Environment, s: EngineState, message: Message): Outcome
  {
    var afterPacket :=
      if Contains(message.topic, "receive") then PacketStep(cfg, env, s, message.payload)
      else Outcome(s, None);
    if afterPacket.raised.Some? then afterPacket
    else if Contains(message.topic, "global") then GlobalStep(cfg, afterPacket.state, message)
    else Outcome(afterPacket.state.(log := afterPacket.state.log + [UnknownTopic(message.topic)]), None)
  }

  /** The state after a sequence of deliveries, each handled whether or not an earlier one raised. */
  function Run(cfg: Config, s: EngineState, deliveries: seq<Delivery>): EngineState
    decreases |deliveries|
  {
    if |deliveries| == 0 then s
    else Run(cfg, MessageStep(cfg, deliveries[0].env, s, deliveries[0].message).state, deliveries[1..])
  }

  class LDE {
    const address: Address
    const codec: Codec
    const store: Store
    const dataPolicy: DataPolicy
    const lightPolicy: LightPolicy
    var published: seq<Publication>
    var log: seq<LogEntry>

    ghost predicate Valid()
      reads this, dataPolicy
    {
      && dataPolicy.store == store
      && dataPolicy.localAddress == address
      && lightPolicy.localAddress == address
      && dataPolicy.aggregatedTemperature == map[]
    }

    ghost function Settings(): Config
    {
      Config(address, codec, dataPolicy.calibration)
    }

    ghost function State(): EngineState
      reads this, dataPolicy, store
    {
      EngineState(dataPolicy.aggregatedMovement, dataPolicy.aggregatedTemperature, published, log, store.records)
    }

    constructor(address: Address, codec: Codec, calibration: Calibration)
      ensures Valid() && fresh(store) && fresh(dataPolicy)
      ensures Settings() == Config(address, codec, calibration)
      ensures State() == Initial()
    {
      this.address := address;
      this.codec := codec;
      var store := new Store();
      this.store := store;
      this.dataPolicy := new DataPolicy(address, store, calibration, map[], map[]);
      this.lightPolicy := LightPolicy(address);
      this.published := [];
      this.log := [];
    }

    method OnMessage(message: Message, env: Environment) returns (raised: Option<Error>)
      requires Valid()
      modifies this, dataPolicy`aggregatedMovement, store
      ensures Valid()
      ensures Outcome(State(), raised) == MessageStep(Settings(), env, old(State()), message)
    {
      raised := None;
      if Contains(message.topic, "receive") {
        raised := HandlePacket(message, env);
        if raised.Some? {
          return;
        }
      }
      if Contains(message.topic, "global") {
        raised := HandleGlobalState(message);
      } else {
        log := log + [UnknownTopic(message.topic)];
      }
    }

    method HandleGlobalState(message: Message) returns (raised: Option<Error>)
      requires Valid()
      modifies this, dataPolicy`aggregatedMovement
      ensures Valid()
      ensures Outcome(State(), raised) == GlobalStep(Settings(), old(State()), message)
    {
      if Contains(message.topic, "movement") {
        var data := codec.decodeAggregate(message.payload);
        if data.None? {
          return Some(DecodeError);
        }
        dataPolicy.aggregatedMovement := data.value;
        raised := None;
      } else {
        log := log + [UnknownGlobalTopic(message.topic)];
        raised := None;
      }
    }

    method HandlePacket(message: Message, env: Environment) returns (raised: Option<Error>)
      requires Valid()
      modifies this, store
      ensures Valid()
      ensures Outcome(State(), raised) == PacketStep(Settings(), env, old(State()), message.payload)
    {
      var decoded := codec.decodePacket(message.payload);
      if decoded.None? {
        return Some(DecodeError);
      }
      var reply: Reply;
      match decoded.value {
        case Helo(p) =>
          reply := HeloReply(address, p, env.now);
        case Rev31(p) =>
          var r := OnDataRev31(p, env);
          if r.Err? {
            return Some(r.error);
          }
          reply := r.value;
        case Rev32(p) =>
          var r := OnDataRev32(p, env);
          if r.Err? {
            return Some(r.error);
          }
          reply := r.value;
        case Light(p) =>
          reply := OnLight(p, env.now);
        case Other =>
          log := log + [UnsupportedPacketType];
          return None;
      }
      published := published + [Publication(COMMAND_TOPIC, reply)];
      raised := None;
    }

    /** Evaluates a revision 3.1 packet, then writes it to the store if the evaluation returned. */
    method OnDataRev31(packet: DataPacketRev31, env: Environment) returns (r: Result<Reply, Error>)
      requires Valid()
      modifies store
      ensures r == Rev31Decision(address, dataPolicy.calibration, dataPolicy.aggregatedMovement,
                                 dataPolicy.aggregatedTemperature, packet, env.queries, env.now)
      ensures store.records == old(store.records)
        + [BatteryRecord(packet.sender, Voltage31(dataPolicy.calibration, packet), env.queries, env.now)]
        + (if r.Ok? then [PacketRecord(Rev31(packet))] else [])
    {
      r := dataPolicy.Evaluate31(packet, env.queries, env.now);
      if r.Ok? {
        store.WritePoints(PacketRecord(Rev31(packet)));
      }
    }

    /** Evaluates a revision 3.2 packet, then writes it to the store if the evaluation returned. */
    method OnDataRev32(packet: DataPacketRev32, env: Environment) returns (r: Result<Reply, Error>)
      requires Valid()
      modifies store
      ensures r == Rev32Decision(address, dataPolicy.calibration, dataPolicy.aggregatedMovement,
                                 dataPolicy.aggregatedTemperature, packet, env.queries, env.now)
      ensures store.records == old(store.records)
        + [BatteryRecord(packet.sender, Voltage32(dataPolicy.calibration, packet), env.queries, env.now)]
        + (if r.Ok? then [PacketRecord(Rev32(packet))] else [])
    {
      r := dataPolicy.Evaluate32(packet, env.queries, env.now);
      if r.Ok? {
        store.WritePoints(PacketRecord(Rev32(packet)));
      }
    }

    /** Answers a light-sensor packet, then writes it to the store. */
    method OnLight(packet: LightSensorPacket, now: int) returns (reply: Reply)
      requires Valid()
      modifies store
      ensures reply == LightPolicy(address).Evaluate(packet, now)
      ensures store.records == old(store.records) + [PacketRecord(Light(packet))]
    {
      reply := lightPolicy.Evaluate(packet, now);
      store.WritePoints(PacketRecord(Light(packet)));
    }
  }
}
