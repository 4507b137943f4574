/** The line protocol between agents and the daemon (crates/copier-core/src/protocol.rs and the
    textual forms of crates/copier-core/src/model.rs). */
module Wire {
  import opened Wrappers
  import opened Model
  import opened Decimal
  import opened Text

  datatype WireError =
    | UnknownFrame(kind: string)
    | UnsupportedVersion(version: int)
    | FieldCount(frame: string, expected: nat, actual: nat)
    | MissingField(name: string)
    | InvalidNumber(name: string, text: string)
    | Invalid(error: ModelError)

  /** How floating-point numbers are written and read; `finite` are the values it can carry. */
  datatype NumberFormat = NumberFormat(show: real -> string, read: string -> Option<real>, finite: real -> bool) {
    /** Printing is read back, nothing but carried values is read, and texts are plain. */
    ghost predicate Lawful() {
      && (forall x :: finite(x) ==> show(x) != "" && read(show(x)) == Some(x))
      && (forall x :: Clean(show(x)))
      && (forall text :: read(text).Some? ==> finite(read(text).value) && Clean(text))
    }

    predicate Carries(x: Option<real>) {
      x.Some? ==> finite(x.value)
    }
  }

  /* Names. */

  function ShowPlatform(p: Platform): string {
    match p
    case Trinity => "trinity"
    case Mt4 => "mt4"
    case Mt5 => "mt5"
    case CTrader => "ctrader"
  }

  function ParsePlatform(text: string): Result<Platform, WireError> {
    var name := Lower(text);
    if name == "trinity" || name == "trinityr" then Success(Trinity)
    else if name == "mt4" then Success(Mt4)
    else if name == "mt5" then Success(Mt5)
    else if name == "ctrader" || name == "c_trader" then Success(CTrader)
    else Failure(Invalid(InvalidPlatform(text)))
  }

  function ShowSide(side: Side): string {
    match side
    case Buy => "buy"
    case Sell => "sell"
  }

  function ParseSide(text: string): Result<Option<Side>, WireError> {
    var name := Lower(text);
    if text == "" then Success(None)
    else if name == "buy" || name == "long" then Success(Some(Buy))
    else if name == "sell" || name == "short" then Success(Some(Sell))
    else Failure(Invalid(InvalidSide(text)))
  }

  function ShowAction(action: TradeAction): string {
    match action
    case Open => "open"
    case Modify => "modify"
    case Reduce => "reduce"
    case Close => "close"
  }

  function ParseAction(text: string): Result<TradeAction, WireError> {
    var name := Lower(text);
    if name == "open" then Success(Open)
    else if name == "modify" then Success(Modify)
    else if name == "reduce" || name == "partial_close" then Success(Reduce)
    else if name == "close" then Success(Close)
    else Failure(Invalid(InvalidAction(text)))
  }

  function ShowStatus(status: AckStatus): string {
    match status
    case Accepted => "accepted"
    case Filled => "filled"
    case Rejected => "rejected"
    case Unknown => "unknown"
  }

  function ParseStatus(text: string): Result<AckStatus, WireError> {
    var name := Lower(text);
    if name == "accepted" then Success(Accepted)
    else if name == "filled" then Success(Filled)
    else if name == "rejected" then Success(Rejected)
    else if name == "unknown" then Success(AckStatus.Unknown)
    else Failure(Invalid(InvalidAckStatus(text)))
  }

  /* Fields. */

  function ShowOption(text: Option<string>): string {
    if text.Some? then Sanitise(text.value) else ""
  }

  function ShowOptionSide(side: Option<Side>): string {
    if side.Some? then ShowSide(side.value) else ""
  }

  function ShowNumber(format: NumberFormat, x: Option<real>): string {
    if x.Some? then format.show(x.value) else ""
  }

  function Required(text: string, name: string): Result<string, WireError> {
    if text == "" then Failure(MissingField(name)) else Success(text)
  }

  function ParseOption(text: string): Option<string> {
    if text == "" then None else Some(text)
  }

  function ParseNumber(format: NumberFormat, text: string, name: string): Result<real, WireError> {
    match format.read(text)
    case Some(x) => Success(x)
    case None => Failure(InvalidNumber(name, text))
  }

  function ParseOptionNumber(format: NumberFormat, text: string, name: string): Result<Option<real>, WireError> {
    if text == "" then Success(None)
    else
      var x :- ParseNumber(format, text, name);
      Success(Some(x))
  }

  function ParseTime(text: string, name: string): Result<I64, WireError> {
    match ParseI64(text)
    case Some(n) => Success(n)
    case None => Failure(InvalidNumber(name, text))
  }

  function RequireLen(fields: seq<string>, expected: nat, frame: string): Result<(), WireError> {
    if |fields| == expected then Success(()) else Failure(FieldCount(frame, expected, |fields|))
  }

  function RequireVersion(text: string): Result<(), WireError> {
    match ParseU16(text)
    case None => Failure(InvalidNumber("version", text))
    case Some(version) => if version == 1 then Success(()) else Failure(UnsupportedVersion(version))
  }

  const VERSION: string := Print(1)

  /* Frames as fields. */

  function HelloFields(hello: HelloFrame): seq<string> {
    ["HELLO", VERSION, Sanitise(hello.accountId), ShowPlatform(hello.platform), Sanitise(hello.token)]
  }

  function EventFields(format: NumberFormat, e: TradeEvent): seq<string> {
    ["EVENT", VERSION, Sanitise(e.eventId), Sanitise(e.sourceAccountId), ShowPlatform(e.platform), ShowAction(e.action),
     Sanitise(e.sourceOrderId), Sanitise(e.symbol), ShowOptionSide(e.side), format.show(e.volume),
     ShowNumber(format, e.remainingVolume), ShowNumber(format, e.price), ShowNumber(format, e.stopLoss),
     ShowNumber(format, e.takeProfit), Print(e.timestamp), ShowOption(e.originCommandId)]
  }

  function AckFields(ack: ExecutionAck): seq<string> {
    ["ACK", VERSION, Sanitise(ack.commandId), Sanitise(ack.accountId), ShowStatus(ack.status), ShowOption(ack.externalId),
     Print(ack.timestamp), ShowOption(ack.message)]
  }

  function AgentFields(format: NumberFormat, frame: AgentFrame): (fields: seq<string>)
    ensures |fields| >= 1
  {
    match frame
    case Hello(hello) => HelloFields(hello)
    case Event(event) => EventFields(format, event)
    case Ack(ack) => AckFields(ack)
    case Ping(timestamp) => ["PING", VERSION, Print(timestamp)]
  }

  function CommandFields(format: NumberFormat, c: ExecutionCommand): seq<string> {
    ["COMMAND", VERSION, Sanitise(c.commandId), Sanitise(c.originEventId), Sanitise(c.routeId), Sanitise(c.sourceAccountId),
     Sanitise(c.sourceOrderId), Sanitise(c.targetAccountId), ShowAction(c.action), ShowOption(c.targetOrderId),
     Sanitise(c.symbol), ShowOptionSide(c.side), format.show(c.volume), format.show(c.sourceVolume),
     ShowNumber(format, c.sourceRemainingVolume), ShowNumber(format, c.price), ShowNumber(format, c.stopLoss),
     ShowNumber(format, c.takeProfit)]
  }

  function ServerFields(format: NumberFormat, frame: ServerFrame): (fields: seq<string>)
    ensures |fields| >= 1
  {
    match frame
    case Welcome(time) => ["WELCOME", VERSION, Print(time)]
    case Command(command) => CommandFields(format, command)
    case Error(code, message) => ["ERROR", VERSION, Sanitise(code), Sanitise(message)]
    case Pong(time) => ["PONG", VERSION, Print(time)]
  }

  function EncodeAgent(format: NumberFormat, frame: AgentFrame): string {
    Join(AgentFields(format, frame), TAB) + [LF]
  }

  function EncodeServer(format: NumberFormat, frame: ServerFrame): string {
    Join(ServerFields(format, frame), TAB) + [LF]
  }

  /* Parsing. */

  function ParseHello(f: seq<string>): Result<HelloFrame, WireError> {
    var _ :- RequireLen(f, 5, "HELLO");
    var _ :- RequireVersion(f[1]);
    var accountId :- Required(f[2], "account_id");
    var platform :- ParsePlatform(f[3]);
    Success(HelloFrame(accountId, platform, f[4]))
  }

  function ParseEvent(format: NumberFormat, f: seq<string>): Result<TradeEvent, WireError> {
    var _ :- RequireLen(f, 16, "EVENT");
    var _ :- RequireVersion(f[1]);
    var eventId :- Required(f[2], "event_id");
    var sourceAccountId :- Required(f[3], "source_account_id");
    var platform :- ParsePlatform(f[4]);
    var action :- ParseAction(f[5]);
    var sourceOrderId :- Required(f[6], "source_order_id");
    var symbol :- Required(f[7], "symbol");
    var side :- ParseSide(f[8]);
    var volume :- ParseNumber(format, f[9], "volume");
    var remainingVolume :- ParseOptionNumber(format, f[10], "remaining_volume");
    var price :- ParseOptionNumber(format, f[11], "price");
    var stopLoss :- ParseOptionNumber(format, f[12], "stop_loss");
    var takeProfit :- ParseOptionNumber(format, f[13], "take_profit");
    var timestamp :- ParseTime(f[14], "timestamp_unix_ns");
    Checked(TradeEvent(eventId, sourceAccountId, platform, action, sourceOrderId, symbol, side, volume, remainingVolume,
                       price, stopLoss, takeProfit, timestamp, ParseOption(f[15])))
  }

  function Checked(event: TradeEvent): Result<TradeEvent, WireError> {
    match event.Validate()
    case Success(_) => Success(event)
    case Failure(error) => Failure(Invalid(error))
  }

  function ParseAck(f: seq<string>): Result<ExecutionAck, WireError> {
    var _ :- RequireLen(f, 8, "ACK");
    var _ :- RequireVersion(f[1]);
    var commandId :- Required(f[2], "command_id");
    var accountId :- Required(f[3], "account_id");
    var status :- ParseStatus(f[4]);
    var timestamp :- ParseTime(f[6], "timestamp_unix_ns");
    Success(ExecutionAck(commandId, accountId, status, ParseOption(f[5]), timestamp, ParseOption(f[7])))
  }

  function ParseClock(f: seq<string>, frame: string, name: string): Result<I64, WireError> {
    var _ :- RequireLen(f, 3, frame);
    var _ :- RequireVersion(f[1]);
    ParseTime(f[2], name)
  }

  function ParseCommand(format: NumberFormat, f: seq<string>): Result<ExecutionCommand, WireError> {
    var _ :- RequireLen(f, 18, "COMMAND");
    var _ :- RequireVersion(f[1]);
    var commandId :- Required(f[2], "command_id");
    var originEventId :- Required(f[3], "origin_event_id");
    var routeId :- Required(f[4], "route_id");
    var sourceAccountId :- Required(f[5], "source_account_id");
    var sourceOrderId :- Required(f[6], "source_order_id");
    var targetAccountId :- Required(f[7], "target_account_id");
    var action :- ParseAction(f[8]);
    var symbol :- Required(f[10], "symbol");
    var side :- ParseSide(f[11]);
    var volume :- ParseNumber(format, f[12], "volume");
    var sourceVolume :- ParseNumber(format, f[13], "source_volume");
    var sourceRemainingVolume :- ParseOptionNumber(format, f[14], "source_remaining_volume");
    var price :- ParseOptionNumber(format, f[15], "price");
    var stopLoss :- ParseOptionNumber(format, f[16], "stop_loss");
    var takeProfit :- ParseOptionNumber(format, f[17], "take_profit");
    Success(ExecutionCommand(commandId, originEventId, routeId, sourceAccountId, sourceOrderId, targetAccountId, action,
                             ParseOption(f[9]), symbol, side, volume, sourceVolume, sourceRemainingVolume, price, stopLoss,
                             takeProfit, 0))
  }

  function ParseError(f: seq<string>): Result<ServerFrame, WireError> {
    var _ :- RequireLen(f, 4, "ERROR");
    var _ :- RequireVersion(f[1]);
    Success(Error(f[2], f[3]))
  }

  function ParseAgentFields(format: NumberFormat, f: seq<string>): Result<AgentFrame, WireError>
    requires |f| >= 1
  {
    if f[0] == "HELLO" then
      var hello :- ParseHello(f);
      Success(Hello(hello))
    else if f[0] == "EVENT" then
      var event :- ParseEvent(format, f);
      Success(Event(event))
    else if f[0] == "ACK" then
      var ack :- ParseAck(f);
      Success(Ack(ack))
    else if f[0] == "PING" then
      var timestamp :- ParseClock(f, "PING", "timestamp_unix_ns");
      Success(Ping(timestamp))
    else Failure(UnknownFrame(f[0]))
  }

  function ParseServerFields(format: NumberFormat, f: seq<string>): Result<ServerFrame, WireError>
    requires |f| >= 1
  {
    if f[0] == "WELCOME" then
      var time :- ParseClock(f, "WELCOME", "server_time_unix_ns");
      Success(Welcome(time))
    else if f[0] == "COMMAND" then
      var command :- ParseCommand(format, f);
      Success(Command(command))
    else if f[0] == "ERROR" then ParseError(f)
    else if f[0] == "PONG" then
      var time :- ParseClock(f, "PONG", "server_time_unix_ns");
      Success(Pong(time))
    else Failure(UnknownFrame(f[0]))
  }

  function ParseAgent(format: NumberFormat, line: string): Result<AgentFrame, WireError> {
    ParseAgentFields(format, Split(StripLineEnd(line), TAB))
  }

  function ParseServer(format: NumberFormat, line: string): Result<ServerFrame, WireError> {
    ParseServerFields(format, Split(StripLineEnd(line), TAB))
  }

  /* What a frame loses on the way. */

  function CarriedOption(text: Option<string>): Option<string> {
    if text.Some? && text.value != "" then Some(Sanitise(text.value)) else None
  }

  function CarriedEvent(e: TradeEvent): TradeEvent {
    e.(eventId := Sanitise(e.eventId), sourceAccountId := Sanitise(e.sourceAccountId), sourceOrderId := Sanitise(e.sourceOrderId),
       symbol := Sanitise(e.symbol), originCommandId := CarriedOption(e.originCommandId))
  }

  function CarriedAck(ack: ExecutionAck): ExecutionAck {
    ack.(commandId := Sanitise(ack.commandId), accountId := Sanitise(ack.accountId),
         externalId := CarriedOption(ack.externalId), message := CarriedOption(ack.message))
  }

  function CarriedCommand(c: ExecutionCommand): ExecutionCommand {
    c.(commandId := Sanitise(c.commandId), originEventId := Sanitise(c.originEventId), routeId := Sanitise(c.routeId),
       sourceAccountId := Sanitise(c.sourceAccountId), sourceOrderId := Sanitise(c.sourceOrderId),
       targetAccountId := Sanitise(c.targetAccountId), targetOrderId := CarriedOption(c.targetOrderId),
       symbol := Sanitise(c.symbol), created := 0)
  }

  /** Separators in texts become spaces, an empty optional text becomes none. */
  function CarriedAgent(frame: AgentFrame): AgentFrame {
    match frame
    case Hello(hello) => Hello(hello.(accountId := Sanitise(hello.accountId), token := Sanitise(hello.token)))
    case Event(event) => Event(CarriedEvent(event))
    case Ack(ack) => Ack(CarriedAck(ack))
    case Ping(_) => frame
  }

  /** Besides, a command's creation time is not transmitted. */
  function CarriedServer(frame: ServerFrame): ServerFrame {
    match frame
    case Command(command) => Command(CarriedCommand(command))
    case Error(code, message) => Error(Sanitise(code), Sanitise(message))
    case _ => frame
  }

  /* Which frames get through. */

  predicate EncodableEvent(format: NumberFormat, e: TradeEvent) {
    && e.Validate().Success?
    && format.finite(e.volume) && format.Carries(e.remainingVolume)
    && format.Carries(e.price) && format.Carries(e.stopLoss) && format.Carries(e.takeProfit)
  }

  predicate EncodableCommand(format: NumberFormat, c: ExecutionCommand) {
    && c.commandId != "" && c.originEventId != "" && c.routeId != "" && c.sourceAccountId != ""
    && c.sourceOrderId != "" && c.targetAccountId != "" && c.symbol != ""
    && format.finite(c.volume) && format.finite(c.sourceVolume) && format.Carries(c.sourceRemainingVolume)
    && format.Carries(c.price) && format.Carries(c.stopLoss) && format.Carries(c.takeProfit)
  }

  predicate EncodableAgent(format: NumberFormat, frame: AgentFrame) {
    match frame
    case Hello(hello) => hello.accountId != ""
    case Event(event) => EncodableEvent(format, event)
    case Ack(ack) => ack.commandId != "" && ack.accountId != ""
    case Ping(_) => true
  }

  predicate EncodableServer(format: NumberFormat, frame: ServerFrame) {
    match frame
    case Command(command) => EncodableCommand(format, command)
    case _ => true
  }
}
