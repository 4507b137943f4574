/** The records exchanged by agents, venues and the daemon
    (crates/copier-core/src/model.rs and the frame types of protocol.rs). */
module Model {
  import opened Wrappers

  type I64 = x: int | -0x8000_0000_0000_0000 <= x < 0x8000_0000_0000_0000

  datatype Platform = Trinity | Mt4 | Mt5 | CTrader

  datatype Side = Buy | Sell

  datatype TradeAction = Open | Modify | Reduce | Close

  datatype AckStatus = Accepted | Filled | Rejected | Unknown

  datatype ModelError =
    | Missing(field: string)
    | InvalidPlatform(text: string)
    | InvalidSide(text: string)
    | InvalidAction(text: string)
    | InvalidAckStatus(text: string)
    | InvalidVolume(volume: real)

  datatype TradeEvent = TradeEvent(
    eventId: string,
    sourceAccountId: string,
    platform: Platform,
    action: TradeAction,
    sourceOrderId: string,
    symbol: string,
    side: Option<Side>,
    volume: real,
    remainingVolume: Option<real>,
    price: Option<real>,
    stopLoss: Option<real>,
    takeProfit: Option<real>,
    timestamp: I64,
    originCommandId: Option<string>)
  {
    /** The checks every producer of events runs before handing one over. */
    function Validate(): Result<(), ModelError> {
      if eventId == "" then Failure(Missing("event_id"))
      else if sourceAccountId == "" then Failure(Missing("source_account_id"))
      else if sourceOrderId == "" then Failure(Missing("source_order_id"))
      else if symbol == "" then Failure(Missing("symbol"))
      else if (action == Open || action == Reduce) && volume <= 0.0 then Failure(InvalidVolume(volume))
      else if action == Open && side.None? then Failure(Missing("side"))
      else Success(())
    }
  }

  datatype ExecutionCommand = ExecutionCommand(
    commandId: string,
    originEventId: string,
    routeId: string,
    sourceAccountId: string,
    sourceOrderId: string,
    targetAccountId: string,
    action: TradeAction,
    targetOrderId: Option<string>,
    symbol: string,
    side: Option<Side>,
    volume: real,
    sourceVolume: real,
    sourceRemainingVolume: Option<real>,
    price: Option<real>,
    stopLoss: Option<real>,
    takeProfit: Option<real>,
    created: I64)
  {
    /** The key of the binding this command opens, changes or closes. */
    function Key(): string {
      MirrorKey(sourceAccountId, sourceOrderId, targetAccountId)
    }
  }

  datatype ExecutionAck = ExecutionAck(
    commandId: string,
    accountId: string,
    status: AckStatus,
    externalId: Option<string>,
    timestamp: I64,
    message: Option<string>)
  {
    /** Accepted and filled acknowledgements move the mirror book. */
    predicate Fills() {
      status == Accepted || status == Filled
    }
  }

  datatype MirrorBinding = MirrorBinding(
    routeId: string,
    sourceAccountId: string,
    sourceOrderId: string,
    targetAccountId: string,
    targetOrderId: string,
    sourceOpenVolume: real,
    sourceRemainingVolume: real,
    targetOpenVolume: real,
    targetRemainingVolume: real)
  {
    function BindingKey(): string {
      MirrorKey(sourceAccountId, sourceOrderId, targetAccountId)
    }
  }

  datatype HelloFrame = HelloFrame(accountId: string, platform: Platform, token: string)

  datatype AgentFrame =
    | Hello(hello: HelloFrame)
    | Event(event: TradeEvent)
    | Ack(ack: ExecutionAck)
    | Ping(timestamp: I64)

  datatype ServerFrame =
    | Welcome(serverTime: I64)
    | Command(command: ExecutionCommand)
    | Error(code: string, message: string)
    | Pong(serverTime: I64)

  const UNIT_SEPARATOR: char := '\U{001F}'

  function MirrorKey(source: string, order: string, target: string): string {
    source + [UNIT_SEPARATOR] + order + [UNIT_SEPARATOR] + target
  }

  function Reversed(side: Side): Side {
    match side
    case Buy => Sell
    case Sell => Buy
  }

  function Max(a: real, b: real): real {
    if a >= b then a else b
  }

  function Min(a: real, b: real): real {
    if a <= b then a else b
  }

  /** An event is valid exactly when it is named and placed, opens and reduces by more than nothing and
      opens on a side; otherwise the first of these it lacks is reported. */
  lemma EventValidIff(e: TradeEvent)
    ensures var sized := e.action == Open || e.action == Reduce ==> e.volume > 0.0;
            var sided := e.action == Open ==> e.side.Some?;
            && (e.Validate().Success? <==>
                  e.eventId != "" && e.sourceAccountId != "" && e.sourceOrderId != "" && e.symbol != "" && sized && sided)
            && (e.Validate() == Failure(InvalidVolume(e.volume)) <==>
                  e.eventId != "" && e.sourceAccountId != "" && e.sourceOrderId != "" && e.symbol != "" && !sized)
            && (e.Validate() == Failure(Missing("side")) <==>
                  e.eventId != "" && e.sourceAccountId != "" && e.sourceOrderId != "" && e.symbol != "" && sized && !sided)
            && (e.eventId == "" ==> e.Validate() == Failure(Missing("event_id")))
            && (e.eventId != "" && e.sourceAccountId == "" ==> e.Validate() == Failure(Missing("source_account_id")))
            && (e.eventId != "" && e.sourceAccountId != "" && e.sourceOrderId == "" ==> e.Validate() == Failure(Missing("source_order_id")))
            && (e.eventId != "" && e.sourceAccountId != "" && e.sourceOrderId != "" && e.symbol == "" ==>
                  e.Validate() == Failure(Missing("symbol")))
  {
    assert |"side"| == 4 && |"event_id"| == 8 && |"source_account_id"| == 17 && |"source_order_id"| == 15 && |"symbol"| == 6;
  }
}
