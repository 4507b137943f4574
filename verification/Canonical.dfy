/** Reading a line and writing the frame back gives a line that reads as the same frame, through
    every alias and letter case, exactly when the line has no carriage return or line feed inside. */
module Canonical {
  import opened Wrappers
  import opened Model
  import opened Decimal
  import opened Text
  import opened Wire
  import opened RoundTrip

  /* What a field was when it parsed. */

  lemma PlatformWasClean(text: string)
    ensures ParsePlatform(text).Success? ==> Clean(text)
  {
    LowerKeepsClean(text);
  }

  lemma SideWasClean(text: string)
    ensures ParseSide(text).Success? ==> Clean(text)
  {
    LowerKeepsClean(text);
  }

  lemma ActionWasClean(text: string)
    ensures ParseAction(text).Success? ==> Clean(text)
  {
    LowerKeepsClean(text);
  }

  lemma StatusWasClean(text: string)
    ensures ParseStatus(text).Success? ==> Clean(text)
  {
    LowerKeepsClean(text);
  }

  lemma TimeWasClean(text: string, name: string)
    ensures ParseTime(text, name).Success? ==> Clean(text)
  {
    ParsedChars(text, -0x8000_0000_0000_0000, 0x7FFF_FFFF_FFFF_FFFF);
  }

  lemma VersionWasClean(text: string)
    ensures RequireVersion(text).Success? ==> Clean(text)
  {
    ParsedChars(text, 0, 0xFFFF);
  }

  lemma NumberWasClean(format: NumberFormat, text: string, name: string)
    requires format.Lawful()
    ensures ParseNumber(format, text, name).Success? ==> Clean(text) && format.finite(ParseNumber(format, text, name).value)
  {
    assert format.read(text).Some? ==> Clean(text);
  }

  lemma OptionNumberWasClean(format: NumberFormat, text: string, name: string)
    requires format.Lawful()
    ensures ParseOptionNumber(format, text, name).Success? ==>
              Clean(text) && format.Carries(ParseOptionNumber(format, text, name).value)
  {
    NumberWasClean(format, text, name);
  }

  lemma OptionKept(text: string)
    ensures CarriedOption(ParseOption(text)) == ParseOption(text) <==> Clean(text)
  {
    SanitiseCleans(text);
  }

  /* What a frame was when it parsed. */

  lemma Clean16(f: seq<string>)
    requires |f| == 16
    ensures AllClean(f) <==>
              Clean(f[0]) && Clean(f[1]) && Clean(f[2]) && Clean(f[3]) && Clean(f[4]) && Clean(f[5]) && Clean(f[6]) && Clean(f[7])
              && Clean(f[8]) && Clean(f[9]) && Clean(f[10]) && Clean(f[11]) && Clean(f[12]) && Clean(f[13]) && Clean(f[14]) && Clean(f[15])
  {
    hide Clean;
  }

  lemma Clean18(f: seq<string>)
    requires |f| == 18
    ensures AllClean(f) <==>
              Clean(f[0]) && Clean(f[1]) && Clean(f[2]) && Clean(f[3]) && Clean(f[4]) && Clean(f[5]) && Clean(f[6]) && Clean(f[7]) && Clean(f[8])
              && Clean(f[9]) && Clean(f[10]) && Clean(f[11]) && Clean(f[12]) && Clean(f[13]) && Clean(f[14]) && Clean(f[15]) && Clean(f[16]) && Clean(f[17])
  {
    hide Clean;
  }

  lemma ParsedEvent(format: NumberFormat, f: seq<string>)
    requires format.Lawful() && ParseEvent(format, f).Success? && Clean(f[0])
    ensures EncodableEvent(format, ParseEvent(format, f).value)
    ensures CarriedEvent(ParseEvent(format, f).value) == ParseEvent(format, f).value <==> AllClean(f)
  {
    hide ParsePlatform, ParseAction, ParseSide, ParseTime, ParseNumber, ParseOptionNumber, ParseOption, RequireVersion;
    hide CarriedOption, Sanitise, Clean, AllClean, NumberFormat.Lawful, TradeEvent.Validate;
    Clean16(f);
    VersionWasClean(f[1]);
    SanitiseCleans(f[2]);
    SanitiseCleans(f[3]);
    PlatformWasClean(f[4]);
    ActionWasClean(f[5]);
    SanitiseCleans(f[6]);
    SanitiseCleans(f[7]);
    SideWasClean(f[8]);
    NumberWasClean(format, f[9], "volume");
    OptionNumberWasClean(format, f[10], "remaining_volume");
    OptionNumberWasClean(format, f[11], "price");
    OptionNumberWasClean(format, f[12], "stop_loss");
    OptionNumberWasClean(format, f[13], "take_profit");
    TimeWasClean(f[14], "timestamp_unix_ns");
    OptionKept(f[15]);
  }

  lemma ParsedCommand(format: NumberFormat, f: seq<string>)
    requires format.Lawful() && ParseCommand(format, f).Success? && Clean(f[0])
    ensures EncodableCommand(format, ParseCommand(format, f).value)
    ensures CarriedCommand(ParseCommand(format, f).value) == ParseCommand(format, f).value <==> AllClean(f)
  {
    hide ParseAction, ParseSide, ParseNumber, ParseOptionNumber, ParseOption, RequireVersion;
    hide CarriedOption, Sanitise, Clean, AllClean, NumberFormat.Lawful;
    Clean18(f);
    VersionWasClean(f[1]);
    SanitiseCleans(f[2]);
    SanitiseCleans(f[3]);
    SanitiseCleans(f[4]);
    SanitiseCleans(f[5]);
    SanitiseCleans(f[6]);
    SanitiseCleans(f[7]);
    ActionWasClean(f[8]);
    OptionKept(f[9]);
    SanitiseCleans(f[10]);
    SideWasClean(f[11]);
    NumberWasClean(format, f[12], "volume");
    NumberWasClean(format, f[13], "source_volume");
    OptionNumberWasClean(format, f[14], "source_remaining_volume");
    OptionNumberWasClean(format, f[15], "price");
    OptionNumberWasClean(format, f[16], "stop_loss");
    OptionNumberWasClean(format, f[17], "take_profit");
  }

  lemma ParsedAck(f: seq<string>)
    requires ParseAck(f).Success? && Clean(f[0])
    ensures ParseAck(f).value.commandId != "" && ParseAck(f).value.accountId != ""
    ensures CarriedAck(ParseAck(f).value) == ParseAck(f).value <==> AllClean(f)
  {
    hide ParseStatus, ParseTime, ParseOption, RequireVersion, CarriedOption, Sanitise, Clean;
    VersionWasClean(f[1]);
    SanitiseCleans(f[2]);
    SanitiseCleans(f[3]);
    StatusWasClean(f[4]);
    OptionKept(f[5]);
    TimeWasClean(f[6], "timestamp_unix_ns");
    OptionKept(f[7]);
    assert AllClean(f) <==> Clean(f[0]) && Clean(f[1]) && Clean(f[2]) && Clean(f[3]) && Clean(f[4]) && Clean(f[5]) && Clean(f[6]) && Clean(f[7]);
  }

  lemma ParsedHello(f: seq<string>)
    requires ParseHello(f).Success? && Clean(f[0])
    ensures ParseHello(f).value.accountId != ""
    ensures CarriedAgent(Hello(ParseHello(f).value)) == Hello(ParseHello(f).value) <==> AllClean(f)
  {
    hide ParsePlatform, RequireVersion, Sanitise, Clean;
    VersionWasClean(f[1]);
    SanitiseCleans(f[2]);
    PlatformWasClean(f[3]);
    SanitiseCleans(f[4]);
    assert AllClean(f) <==> Clean(f[0]) && Clean(f[1]) && Clean(f[2]) && Clean(f[3]) && Clean(f[4]);
  }

  lemma ParsedClock(f: seq<string>, kind: string, name: string)
    requires ParseClock(f, kind, name).Success? && Clean(f[0])
    ensures AllClean(f)
  {
    hide ParseTime, RequireVersion, Clean;
    VersionWasClean(f[1]);
    TimeWasClean(f[2], name);
  }

  lemma ParsedError(f: seq<string>)
    requires ParseError(f).Success? && Clean(f[0])
    ensures CarriedServer(ParseError(f).value) == ParseError(f).value <==> AllClean(f)
  {
    hide RequireVersion, Sanitise, Clean;
    VersionWasClean(f[1]);
    SanitiseCleans(f[2]);
    SanitiseCleans(f[3]);
    assert AllClean(f) <==> Clean(f[0]) && Clean(f[1]) && Clean(f[2]) && Clean(f[3]);
  }

  lemma AgentKindsClean(kind: string)
    ensures kind == "HELLO" || kind == "EVENT" || kind == "ACK" || kind == "PING" ==> Clean(kind)
  {
  }

  lemma ServerKindsClean(kind: string)
    ensures kind == "WELCOME" || kind == "COMMAND" || kind == "ERROR" || kind == "PONG" ==> Clean(kind)
  {
  }

  lemma ParsedAgent(format: NumberFormat, f: seq<string>)
    requires format.Lawful() && |f| >= 1 && ParseAgentFields(format, f).Success?
    ensures EncodableAgent(format, ParseAgentFields(format, f).value)
    ensures CarriedAgent(ParseAgentFields(format, f).value) == ParseAgentFields(format, f).value <==> AllClean(f)
  {
    hide ParseEvent, ParseAck, ParseHello, ParseClock, EncodableEvent, CarriedEvent, CarriedAck, AllClean, Clean, Sanitise, NumberFormat.Lawful;
    AgentKindsClean(f[0]);
    match ParseAgentFields(format, f).value
    case Hello(_) => ParsedHello(f);
    case Event(_) => ParsedEvent(format, f);
    case Ack(_) => ParsedAck(f);
    case Ping(_) => ParsedClock(f, "PING", "timestamp_unix_ns");
  }

  lemma ErrorKind(f: seq<string>)
    ensures ParseError(f).Success? ==> ParseError(f).value.Error?
  {
  }

  lemma ParsedServer(format: NumberFormat, f: seq<string>)
    requires format.Lawful() && |f| >= 1 && ParseServerFields(format, f).Success?
    ensures EncodableServer(format, ParseServerFields(format, f).value)
    ensures CarriedServer(ParseServerFields(format, f).value) == ParseServerFields(format, f).value <==> AllClean(f)
  {
    hide ParseCommand, ParseClock, ParseError, EncodableCommand, CarriedCommand, AllClean, Clean, Sanitise, NumberFormat.Lawful;
    ServerKindsClean(f[0]);
    ErrorKind(f);
    match ParseServerFields(format, f).value
    case Welcome(_) => ParsedClock(f, "WELCOME", "server_time_unix_ns");
    case Command(_) => ParsedCommand(format, f);
    case Error(_, _) => ParsedError(f);
    case Pong(_) => ParsedClock(f, "PONG", "server_time_unix_ns");
  }

  /** For every line an agent's frame can be read from: writing the frame back is lossless if and
      only if nothing but the line's end holds a carriage return or line feed. */
  lemma AgentCanonical(format: NumberFormat, line: string)
    requires format.Lawful() && ParseAgent(format, line).Success?
    ensures ParseAgent(format, EncodeAgent(format, ParseAgent(format, line).value)) == ParseAgent(format, line)
       <==> Unbroken(StripLineEnd(line))
  {
    hide ParseAgentFields, AgentFields, CarriedAgent, EncodableAgent, EncodeAgent, NumberFormat.Lawful, StripLineEnd, Split, Unbroken, AllClean;
    var frame := ParseAgent(format, line).value;
    ParsedAgent(format, Split(StripLineEnd(line), TAB));
    LineUnbroken(StripLineEnd(line));
    AgentRoundTrip(format, frame);
  }

  lemma ServerCanonical(format: NumberFormat, line: string)
    requires format.Lawful() && ParseServer(format, line).Success?
    ensures ParseServer(format, EncodeServer(format, ParseServer(format, line).value)) == ParseServer(format, line)
       <==> Unbroken(StripLineEnd(line))
  {
    hide ParseServerFields, ServerFields, CarriedServer, EncodableServer, EncodeServer, NumberFormat.Lawful, StripLineEnd, Split, Unbroken, AllClean;
    var frame := ParseServer(format, line).value;
    ParsedServer(format, Split(StripLineEnd(line), TAB));
    LineUnbroken(StripLineEnd(line));
    ServerRoundTrip(format, frame);
  }

  /* One rewriting is enough, whatever the line. */

  lemma OptionSettles(text: Option<string>)
    ensures ShowOption(CarriedOption(text)) == ShowOption(text)
  {
    if text.Some? {
      SanitiseCleans(text.value);
      SanitiseCleans(Sanitise(text.value));
    }
  }

  lemma TextSettles(text: string)
    ensures Sanitise(Sanitise(text)) == Sanitise(text)
  {
    SanitiseCleans(text);
    SanitiseCleans(Sanitise(text));
  }

  lemma EventSettles(format: NumberFormat, e: TradeEvent)
    ensures EventFields(format, CarriedEvent(e)) == EventFields(format, e)
  {
    hide Sanitise, ShowOption, CarriedOption, ShowPlatform, ShowAction, ShowOptionSide, ShowNumber, Print;
    TextSettles(e.eventId);
    TextSettles(e.sourceAccountId);
    TextSettles(e.sourceOrderId);
    TextSettles(e.symbol);
    OptionSettles(e.originCommandId);
  }

  lemma CommandSettles(format: NumberFormat, c: ExecutionCommand)
    ensures CommandFields(format, CarriedCommand(c)) == CommandFields(format, c)
  {
    hide Sanitise, ShowOption, CarriedOption, ShowAction, ShowOptionSide, ShowNumber, Print;
    TextSettles(c.commandId);
    TextSettles(c.originEventId);
    TextSettles(c.routeId);
    TextSettles(c.sourceAccountId);
    TextSettles(c.sourceOrderId);
    TextSettles(c.targetAccountId);
    OptionSettles(c.targetOrderId);
    TextSettles(c.symbol);
  }

  lemma AgentSettles(format: NumberFormat, frame: AgentFrame)
    ensures EncodeAgent(format, CarriedAgent(frame)) == EncodeAgent(format, frame)
  {
    match frame
    case Hello(hello) =>
      TextSettles(hello.accountId);
      TextSettles(hello.token);
    case Event(event) => EventSettles(format, event);
    case Ack(ack) =>
      TextSettles(ack.commandId);
      TextSettles(ack.accountId);
      OptionSettles(ack.externalId);
      OptionSettles(ack.message);
    case Ping(_) =>
  }

  lemma ServerSettles(format: NumberFormat, frame: ServerFrame)
    ensures EncodeServer(format, CarriedServer(frame)) == EncodeServer(format, frame)
  {
    match frame
    case Command(command) => CommandSettles(format, command);
    case Error(code, message) =>
      TextSettles(code);
      TextSettles(message);
    case _ =>
  }

  /** The line a frame is written back as. */
  function RewriteAgent(format: NumberFormat, line: string): Result<string, WireError> {
    var frame :- ParseAgent(format, line);
    Success(EncodeAgent(format, frame))
  }

  function RewriteServer(format: NumberFormat, line: string): Result<string, WireError> {
    var frame :- ParseServer(format, line);
    Success(EncodeServer(format, frame))
  }

  /** Rewriting is a projection onto canonical lines: a rewritten line always reads, and rewrites
      to itself. */
  lemma RewriteAgentIdempotent(format: NumberFormat, line: string)
    requires format.Lawful() && RewriteAgent(format, line).Success?
    ensures RewriteAgent(format, RewriteAgent(format, line).value) == RewriteAgent(format, line)
  {
    hide ParseAgentFields, AgentFields, CarriedAgent, EncodableAgent, EncodeAgent, NumberFormat.Lawful, StripLineEnd, Split, AllClean;
    var frame := ParseAgent(format, line).value;
    ParsedAgent(format, Split(StripLineEnd(line), TAB));
    AgentRoundTrip(format, frame);
    AgentSettles(format, frame);
  }

  lemma RewriteServerIdempotent(format: NumberFormat, line: string)
    requires format.Lawful() && RewriteServer(format, line).Success?
    ensures RewriteServer(format, RewriteServer(format, line).value) == RewriteServer(format, line)
  {
    hide ParseServerFields, ServerFields, CarriedServer, EncodableServer, EncodeServer, NumberFormat.Lawful, StripLineEnd, Split, AllClean;
    var frame := ParseServer(format, line).value;
    ParsedServer(format, Split(StripLineEnd(line), TAB));
    ServerRoundTrip(format, frame);
    ServerSettles(format, frame);
  }

  /** Lawful formats exist: whole numbers in the 64-bit range, in decimal. */
  function WholeNumbers(): NumberFormat {
    NumberFormat((x: real) => Print(x.Floor), ReadWhole, IsWhole)
  }

  predicate IsWhole(x: real) {
    x.Floor as real == x && -0x8000_0000_0000_0000 <= x.Floor < 0x8000_0000_0000_0000
  }

  function ReadWhole(text: string): Option<real> {
    match ParseI64(text)
    case Some(n) => Some(n as real)
    case None => None
  }

  lemma WholeReadsBack(x: real)
    ensures Clean(Print(x.Floor))
    ensures IsWhole(x) ==> Print(x.Floor) != "" && ReadWhole(Print(x.Floor)) == Some(x)
  {
    PrintedChars(x.Floor);
    if IsWhole(x) {
      PrintThenParse(x.Floor);
    }
  }

  lemma ReadIsWhole(text: string)
    ensures ReadWhole(text).Some? ==> IsWhole(ReadWhole(text).value) && Clean(text)
  {
    TimeWasClean(text, "");
  }

  lemma WholeNumbersLawful()
    ensures WholeNumbers().Lawful()
  {
    hide Print, Clean, ReadWhole, IsWhole;
    forall x: real {
      WholeReadsBack(x);
    }
    forall text {
      ReadIsWhole(text);
    }
  }
}
