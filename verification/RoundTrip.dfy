/** The two printers and the two parsers of the line protocol undo each other. */
module RoundTrip {
  import opened Wrappers
  import opened Model
  import opened Decimal
  import opened Text
  import opened Wire

  /* Single fields. */

  lemma LowerFixed(s: string)
    requires forall c <- s :: !('A' <= c <= 'Z')
    ensures Lower(s) == s
  {
    assert forall i :: 0 <= i < |s| ==> s[i] in s;
  }

  lemma PlatformReadsBack(p: Platform)
    ensures Clean(ShowPlatform(p)) && ParsePlatform(ShowPlatform(p)) == Success(p)
  {
    LowerFixed(ShowPlatform(p));
  }

  lemma SideReadsBack(side: Option<Side>)
    ensures Clean(ShowOptionSide(side)) && ParseSide(ShowOptionSide(side)) == Success(side)
  {
    LowerFixed(ShowOptionSide(side));
  }

  lemma ActionReadsBack(action: TradeAction)
    ensures Clean(ShowAction(action)) && ParseAction(ShowAction(action)) == Success(action)
  {
    LowerFixed(ShowAction(action));
  }

  lemma StatusReadsBack(status: AckStatus)
    ensures Clean(ShowStatus(status)) && ParseStatus(ShowStatus(status)) == Success(status)
  {
    LowerFixed(ShowStatus(status));
  }

  lemma TimeReadsBack(n: I64, name: string)
    ensures Clean(Print(n)) && ParseTime(Print(n), name) == Success(n)
  {
    PrintedChars(n);
    PrintThenParse(n);
  }

  lemma VersionReadsBack()
    ensures Clean(VERSION) && RequireVersion(VERSION) == Success(())
  {
    PrintedChars(1);
    PrintNatValue(1);
    ParseDigits(PrintNat(1), 0, 0xFFFF);
  }

  lemma OptionReadsBack(text: Option<string>)
    ensures Clean(ShowOption(text)) && ParseOption(ShowOption(text)) == CarriedOption(text)
  {
    if text.Some? {
      SanitiseCleans(text.value);
    }
  }

  lemma NumberReadsBack(format: NumberFormat, x: real, name: string)
    requires format.Lawful()
    ensures Clean(format.show(x)) && (ParseNumber(format, format.show(x), name) == Success(x) <==> format.finite(x))
  {
    assert Clean(format.show(x));
  }

  lemma OptionNumberReadsBack(format: NumberFormat, x: Option<real>, name: string)
    requires format.Lawful()
    ensures Clean(ShowNumber(format, x))
    ensures ParseOptionNumber(format, ShowNumber(format, x), name) == Success(x) <==> format.Carries(x)
  {
    if x.Some? {
      NumberReadsBack(format, x.value, name);
    }
  }

  /* Frames. */

  lemma KindsClean()
    ensures Clean("EVENT") && Clean("COMMAND")
  {
  }

  lemma HelloReadsBack(hello: HelloFrame)
    ensures AllClean(HelloFields(hello))
    ensures ParseHello(HelloFields(hello))
         == if hello.accountId == "" then Failure(MissingField("account_id"))
            else Success(hello.(accountId := Sanitise(hello.accountId), token := Sanitise(hello.token)))
  {
    VersionReadsBack();
    SanitiseCleans(hello.accountId);
    SanitiseCleans(hello.token);
    PlatformReadsBack(hello.platform);
  }

  lemma AckReadsBack(ack: ExecutionAck)
    ensures AllClean(AckFields(ack))
    ensures ack.commandId != "" && ack.accountId != "" ==> ParseAck(AckFields(ack)) == Success(CarriedAck(ack))
    ensures ParseAck(AckFields(ack)).Success? ==> ack.commandId != "" && ack.accountId != ""
  {
    VersionReadsBack();
    SanitiseCleans(ack.commandId);
    SanitiseCleans(ack.accountId);
    StatusReadsBack(ack.status);
    OptionReadsBack(ack.externalId);
    TimeReadsBack(ack.timestamp, "timestamp_unix_ns");
    OptionReadsBack(ack.message);
  }

  lemma EventFieldsClean(format: NumberFormat, e: TradeEvent)
    requires format.Lawful()
    ensures AllClean(EventFields(format, e))
  {
    hide ParsePlatform, ParseAction, ParseSide, ParseTime, ParseNumber, ParseOptionNumber, ParseOption, RequireVersion;
    hide ShowPlatform, ShowAction, ShowOptionSide, ShowNumber, ShowOption, Sanitise, Print, Clean, NumberFormat.Lawful;
    KindsClean();
    VersionReadsBack();
    SanitiseCleans(e.eventId);
    SanitiseCleans(e.sourceAccountId);
    SanitiseCleans(e.sourceOrderId);
    SanitiseCleans(e.symbol);
    PlatformReadsBack(e.platform);
    ActionReadsBack(e.action);
    SideReadsBack(e.side);
    NumberReadsBack(format, e.volume, "");
    OptionNumberReadsBack(format, e.remainingVolume, "");
    OptionNumberReadsBack(format, e.price, "");
    OptionNumberReadsBack(format, e.stopLoss, "");
    OptionNumberReadsBack(format, e.takeProfit, "");
    TimeReadsBack(e.timestamp, "");
    OptionReadsBack(e.originCommandId);
  }

  lemma CarriedEventValid(e: TradeEvent)
    ensures CarriedEvent(e).Validate().Success? <==> e.Validate().Success?
  {
    SanitiseCleans(e.eventId);
    SanitiseCleans(e.sourceAccountId);
    SanitiseCleans(e.sourceOrderId);
    SanitiseCleans(e.symbol);
  }

  lemma EventReadsBack(format: NumberFormat, e: TradeEvent)
    requires format.Lawful()
    ensures ParseEvent(format, EventFields(format, e)) == Success(CarriedEvent(e)) <==> EncodableEvent(format, e)
  {
    hide ParsePlatform, ParseAction, ParseSide, ParseTime, ParseNumber, ParseOptionNumber, ParseOption, RequireVersion;
    hide ShowPlatform, ShowAction, ShowOptionSide, ShowNumber, ShowOption, Sanitise, Print, Clean, NumberFormat.Lawful;
    VersionReadsBack();
    CarriedEventValid(e);
    SanitiseCleans(e.eventId);
    SanitiseCleans(e.sourceAccountId);
    SanitiseCleans(e.sourceOrderId);
    SanitiseCleans(e.symbol);
    PlatformReadsBack(e.platform);
    ActionReadsBack(e.action);
    SideReadsBack(e.side);
    NumberReadsBack(format, e.volume, "volume");
    OptionNumberReadsBack(format, e.remainingVolume, "remaining_volume");
    OptionNumberReadsBack(format, e.price, "price");
    OptionNumberReadsBack(format, e.stopLoss, "stop_loss");
    OptionNumberReadsBack(format, e.takeProfit, "take_profit");
    TimeReadsBack(e.timestamp, "timestamp_unix_ns");
    OptionReadsBack(e.originCommandId);
  }

  lemma CommandFieldsClean(format: NumberFormat, c: ExecutionCommand)
    requires format.Lawful()
    ensures AllClean(CommandFields(format, c))
  {
    hide ParsePlatform, ParseAction, ParseSide, ParseTime, ParseNumber, ParseOptionNumber, ParseOption, RequireVersion;
    hide ShowPlatform, ShowAction, ShowOptionSide, ShowNumber, ShowOption, Sanitise, Print, Clean, NumberFormat.Lawful;
    KindsClean();
    VersionReadsBack();
    SanitiseCleans(c.commandId);
    SanitiseCleans(c.originEventId);
    SanitiseCleans(c.routeId);
    SanitiseCleans(c.sourceAccountId);
    SanitiseCleans(c.sourceOrderId);
    SanitiseCleans(c.targetAccountId);
    SanitiseCleans(c.symbol);
    ActionReadsBack(c.action);
    OptionReadsBack(c.targetOrderId);
    SideReadsBack(c.side);
    NumberReadsBack(format, c.volume, "");
    NumberReadsBack(format, c.sourceVolume, "");
    OptionNumberReadsBack(format, c.sourceRemainingVolume, "");
    OptionNumberReadsBack(format, c.price, "");
    OptionNumberReadsBack(format, c.stopLoss, "");
    OptionNumberReadsBack(format, c.takeProfit, "");
  }

  lemma CommandReadsBack(format: NumberFormat, c: ExecutionCommand)
    requires format.Lawful()
    ensures ParseCommand(format, CommandFields(format, c)) == Success(CarriedCommand(c)) <==> EncodableCommand(format, c)
  {
    hide ParsePlatform, ParseAction, ParseSide, ParseTime, ParseNumber, ParseOptionNumber, ParseOption, RequireVersion;
    hide ShowPlatform, ShowAction, ShowOptionSide, ShowNumber, ShowOption, Sanitise, Print, Clean, NumberFormat.Lawful;
    VersionReadsBack();
    SanitiseCleans(c.commandId);
    SanitiseCleans(c.originEventId);
    SanitiseCleans(c.routeId);
    SanitiseCleans(c.sourceAccountId);
    SanitiseCleans(c.sourceOrderId);
    SanitiseCleans(c.targetAccountId);
    SanitiseCleans(c.symbol);
    ActionReadsBack(c.action);
    OptionReadsBack(c.targetOrderId);
    SideReadsBack(c.side);
    NumberReadsBack(format, c.volume, "volume");
    NumberReadsBack(format, c.sourceVolume, "source_volume");
    OptionNumberReadsBack(format, c.sourceRemainingVolume, "source_remaining_volume");
    OptionNumberReadsBack(format, c.price, "price");
    OptionNumberReadsBack(format, c.stopLoss, "stop_loss");
    OptionNumberReadsBack(format, c.takeProfit, "take_profit");
  }

  lemma ClockReadsBack(kind: string, n: I64, name: string)
    requires Clean(kind)
    ensures AllClean([kind, VERSION, Print(n)]) && ParseClock([kind, VERSION, Print(n)], kind, name) == Success(n)
  {
    VersionReadsBack();
    TimeReadsBack(n, name);
  }

  lemma ErrorReadsBack(code: string, message: string)
    ensures AllClean(["ERROR", VERSION, Sanitise(code), Sanitise(message)])
    ensures ParseError(["ERROR", VERSION, Sanitise(code), Sanitise(message)]) == Success(Error(Sanitise(code), Sanitise(message)))
  {
    VersionReadsBack();
    SanitiseCleans(code);
    SanitiseCleans(message);
  }

  /** A frame sent by an agent arrives as it was, up to separators in texts, exactly when it is
      encodable: its required texts are there, its numbers finite and its event valid. */
  lemma AgentRoundTrip(format: NumberFormat, frame: AgentFrame)
    requires format.Lawful()
    ensures ParseAgent(format, EncodeAgent(format, frame)) == Success(CarriedAgent(frame)) <==> EncodableAgent(format, frame)
    ensures AllClean(AgentFields(format, frame))
  {
    hide ParseEvent, ParseAck, ParseHello, ParseClock, ParseCommand, ParseError, CarriedEvent, CarriedAck, CarriedCommand;
    hide EncodableEvent, EncodableCommand, Sanitise, Print, NumberFormat.Lawful, AllClean, Join, Split, StripLineEnd;
    match frame {
      case Hello(hello) => HelloReadsBack(hello);
      case Event(event) =>
        EventFieldsClean(format, event);
        EventReadsBack(format, event);
      case Ack(ack) => AckReadsBack(ack);
      case Ping(timestamp) => ClockReadsBack("PING", timestamp, "timestamp_unix_ns");
    }
    FieldsSurvive(AgentFields(format, frame));
  }

  /** So does a frame sent by the daemon. */
  lemma ServerRoundTrip(format: NumberFormat, frame: ServerFrame)
    requires format.Lawful()
    ensures ParseServer(format, EncodeServer(format, frame)) == Success(CarriedServer(frame)) <==> EncodableServer(format, frame)
    ensures AllClean(ServerFields(format, frame))
  {
    hide ParseEvent, ParseAck, ParseHello, ParseClock, ParseCommand, ParseError, CarriedEvent, CarriedAck, CarriedCommand;
    hide EncodableEvent, EncodableCommand, Sanitise, Print, NumberFormat.Lawful, AllClean, Join, Split, StripLineEnd;
    match frame {
      case Welcome(time) => ClockReadsBack("WELCOME", time, "server_time_unix_ns");
      case Command(command) =>
        CommandFieldsClean(format, command);
        CommandReadsBack(format, command);
      case Error(code, message) => ErrorReadsBack(code, message);
      case Pong(time) => ClockReadsBack("PONG", time, "server_time_unix_ns");
    }
    FieldsSurvive(ServerFields(format, frame));
  }
}
