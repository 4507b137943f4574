/** What the names on the wire stand for, where a line's values sit, and which lines are refused before
    their values are looked at (crates/copier-core/src/model.rs and protocol.rs). */
module Names {
  import opened Wrappers
  import opened Model
  import opened Text
  import opened Wire
  import Decimal

  /* Letter case does not matter. */

  predicate SameLetter(a: char, b: char) {
    || a == b
    || ('a' <= a <= 'z' && 'A' <= b <= 'Z' && a as int == b as int + 32)
    || ('A' <= a <= 'Z' && 'a' <= b <= 'z' && a as int + 32 == b as int)
  }

  predicate SameLetters(text: string, name: string) {
    |text| == |name| && forall i :: 0 <= i < |text| ==> SameLetter(text[i], name[i])
  }

  lemma LowerIsLetter(a: char, b: char)
    requires !('A' <= b <= 'Z')
    ensures LowerChar(a) == b <==> SameLetter(a, b)
  {
    if SameLetter(a, b) && a != b {
      assert LowerChar(a) as int == b as int;
    }
  }

  lemma LowerIsName(text: string, name: string)
    requires forall c <- name :: !('A' <= c <= 'Z')
    ensures Lower(text) == name <==> SameLetters(text, name)
  {
    hide SameLetter, LowerChar;
    if |text| == |name| {
      forall i | 0 <= i < |name|
        ensures Lower(text)[i] == name[i] <==> SameLetter(text[i], name[i])
      {
        assert name[i] in name;
        LowerIsLetter(text[i], name[i]);
      }
    }
  }

  lemma PlatformsRead(text: string)
    ensures ParsePlatform(text) == Success(Trinity) <==> SameLetters(text, "trinity") || SameLetters(text, "trinityr")
    ensures ParsePlatform(text) == Success(Mt4) <==> SameLetters(text, "mt4")
    ensures ParsePlatform(text) == Success(Mt5) <==> SameLetters(text, "mt5")
    ensures ParsePlatform(text) == Success(CTrader) <==> SameLetters(text, "ctrader") || SameLetters(text, "c_trader")
    ensures ParsePlatform(text).Failure? ==> ParsePlatform(text).error == Invalid(InvalidPlatform(text))
  {
    hide SameLetters, Lower;
    LowerIsName(text, "trinity");
    LowerIsName(text, "trinityr");
    LowerIsName(text, "mt4");
    LowerIsName(text, "mt5");
    LowerIsName(text, "ctrader");
    LowerIsName(text, "c_trader");
    assert "mt4"[2] != "mt5"[2] && "trinity"[0] != "ctrader"[0];
  }

  lemma SidesRead(text: string)
    ensures ParseSide(text) == Success(None) <==> text == ""
    ensures ParseSide(text) == Success(Some(Buy)) <==> SameLetters(text, "buy") || SameLetters(text, "long")
    ensures ParseSide(text) == Success(Some(Sell)) <==> SameLetters(text, "sell") || SameLetters(text, "short")
    ensures ParseSide(text).Failure? ==> ParseSide(text).error == Invalid(InvalidSide(text))
  {
    LowerIsName(text, "buy");
    LowerIsName(text, "long");
    LowerIsName(text, "sell");
    LowerIsName(text, "short");
    assert "long"[0] != "sell"[0];
  }

  lemma ActionsRead(text: string)
    ensures ParseAction(text) == Success(Open) <==> SameLetters(text, "open")
    ensures ParseAction(text) == Success(Modify) <==> SameLetters(text, "modify")
    ensures ParseAction(text) == Success(Reduce) <==> SameLetters(text, "reduce") || SameLetters(text, "partial_close")
    ensures ParseAction(text) == Success(Close) <==> SameLetters(text, "close")
    ensures ParseAction(text).Failure? ==> ParseAction(text).error == Invalid(InvalidAction(text))
  {
    hide SameLetters, Lower;
    LowerIsName(text, "open");
    LowerIsName(text, "modify");
    LowerIsName(text, "reduce");
    LowerIsName(text, "partial_close");
    LowerIsName(text, "close");
    assert "modify"[0] != "reduce"[0];
  }

  lemma StatusesRead(text: string)
    ensures ParseStatus(text) == Success(Accepted) <==> SameLetters(text, "accepted")
    ensures ParseStatus(text) == Success(Filled) <==> SameLetters(text, "filled")
    ensures ParseStatus(text) == Success(Rejected) <==> SameLetters(text, "rejected")
    ensures ParseStatus(text) == Success(AckStatus.Unknown) <==> SameLetters(text, "unknown")
    ensures ParseStatus(text).Failure? ==> ParseStatus(text).error == Invalid(InvalidAckStatus(text))
  {
    hide SameLetters, Lower;
    LowerIsName(text, "accepted");
    LowerIsName(text, "filled");
    LowerIsName(text, "rejected");
    LowerIsName(text, "unknown");
    assert "accepted"[0] != "rejected"[0];
  }

  /* Where values sit. */

  function FieldsOf(line: string): (fields: seq<string>)
    ensures |fields| >= 1
  {
    Split(StripLineEnd(line), TAB)
  }

  /** An optional number is read where there is text. */
  predicate ReadAs(format: NumberFormat, text: string, x: Option<real>) {
    if text == "" then x.None? else x.Some? && format.read(text) == x
  }

  predicate TextAs(text: string, x: Option<string>) {
    if text == "" then x.None? else x == Some(text)
  }

  /** A line is an event when its sixteen fields are, in this order, what the event says. */
  lemma EventLine(format: NumberFormat, line: string, e: TradeEvent)
    requires ParseAgent(format, line) == Success(Event(e))
    ensures var f := FieldsOf(line);
            && |f| == 16 && f[0] == "EVENT" && Decimal.ParseU16(f[1]) == Some(1)
            && f[2] == e.eventId && f[3] == e.sourceAccountId && f[6] == e.sourceOrderId && f[7] == e.symbol
            && ParsePlatform(f[4]) == Success(e.platform) && ParseAction(f[5]) == Success(e.action) && ParseSide(f[8]) == Success(e.side)
            && format.read(f[9]) == Some(e.volume) && ReadAs(format, f[10], e.remainingVolume) && ReadAs(format, f[11], e.price)
            && ReadAs(format, f[12], e.stopLoss) && ReadAs(format, f[13], e.takeProfit)
            && Decimal.ParseI64(f[14]) == Some(e.timestamp) && TextAs(f[15], e.originCommandId)
            && e.Validate().Success?
  {
    hide Split, StripLineEnd, ParsePlatform, ParseAction, ParseSide, Decimal.ParseI64, Decimal.ParseU16, TradeEvent.Validate;
  }

  /** A line is an acknowledgement when its eight fields are. */
  lemma AckLine(format: NumberFormat, line: string, ack: ExecutionAck)
    requires ParseAgent(format, line) == Success(Ack(ack))
    ensures var f := FieldsOf(line);
            && |f| == 8 && f[0] == "ACK" && Decimal.ParseU16(f[1]) == Some(1)
            && f[2] == ack.commandId && f[3] == ack.accountId && ParseStatus(f[4]) == Success(ack.status)
            && TextAs(f[5], ack.externalId) && Decimal.ParseI64(f[6]) == Some(ack.timestamp) && TextAs(f[7], ack.message)
            && ack.commandId != "" && ack.accountId != ""
  {
    hide Split, StripLineEnd, ParseStatus, Decimal.ParseI64, Decimal.ParseU16;
  }

  /** A line is a command when its eighteen fields are; its creation time is not among them. */
  lemma CommandLine(format: NumberFormat, line: string, c: ExecutionCommand)
    requires ParseServer(format, line) == Success(Command(c))
    ensures var f := FieldsOf(line);
            && |f| == 18 && f[0] == "COMMAND" && Decimal.ParseU16(f[1]) == Some(1)
            && f[2] == c.commandId && f[3] == c.originEventId && f[4] == c.routeId && f[5] == c.sourceAccountId
            && f[6] == c.sourceOrderId && f[7] == c.targetAccountId && ParseAction(f[8]) == Success(c.action)
            && TextAs(f[9], c.targetOrderId) && f[10] == c.symbol && ParseSide(f[11]) == Success(c.side)
            && format.read(f[12]) == Some(c.volume) && format.read(f[13]) == Some(c.sourceVolume)
            && ReadAs(format, f[14], c.sourceRemainingVolume) && ReadAs(format, f[15], c.price)
            && ReadAs(format, f[16], c.stopLoss) && ReadAs(format, f[17], c.takeProfit) && c.created == 0
  {
    hide Split, StripLineEnd, ParseAction, ParseSide, Decimal.ParseU16;
  }

  /* Which lines are refused outright. */

  function AgentArity(kind: string): (n: Option<nat>)
    ensures n.Some? ==> n.value >= 3
  {
    if kind == "HELLO" then Some(5)
    else if kind == "EVENT" then Some(16)
    else if kind == "ACK" then Some(8)
    else if kind == "PING" then Some(3)
    else None
  }

  function ServerArity(kind: string): (n: Option<nat>)
    ensures n.Some? ==> n.value >= 3
  {
    if kind == "WELCOME" || kind == "PONG" then Some(3)
    else if kind == "COMMAND" then Some(18)
    else if kind == "ERROR" then Some(4)
    else None
  }

  /** How a line that starts with `f` and should have `arity` fields is refused before its values are. */
  function Refusal(f: seq<string>, arity: Option<nat>): Option<WireError>
    requires |f| >= 1 && (arity.Some? ==> arity.value >= 3)
  {
    match arity
    case None => Some(UnknownFrame(f[0]))
    case Some(n) =>
      if |f| != n then Some(FieldCount(f[0], n, |f|))
      else
        match Decimal.ParseU16(f[1])
        case None => Some(InvalidNumber("version", f[1]))
        case Some(version) => if version == 1 then None else Some(UnsupportedVersion(version))
  }

  lemma AgentLinesRefused(format: NumberFormat, line: string)
    ensures var refusal, outcome := Refusal(FieldsOf(line), AgentArity(FieldsOf(line)[0])), ParseAgent(format, line);
            && (refusal.Some? ==> outcome == Failure(refusal.value))
            && (refusal.None? && outcome.Failure? ==> outcome.error.MissingField? || outcome.error.InvalidNumber? || outcome.error.Invalid?)
  {
    hide Split, StripLineEnd, ParsePlatform, ParseAction, ParseSide, ParseStatus, Decimal.ParseI64, Decimal.ParseU16, TradeEvent.Validate;
    ParsersFailWell(format);
  }

  lemma ServerLinesRefused(format: NumberFormat, line: string)
    ensures var refusal, outcome := Refusal(FieldsOf(line), ServerArity(FieldsOf(line)[0])), ParseServer(format, line);
            && (refusal.Some? ==> outcome == Failure(refusal.value))
            && (refusal.None? && outcome.Failure? ==> outcome.error.MissingField? || outcome.error.InvalidNumber? || outcome.error.Invalid?)
  {
    hide Split, StripLineEnd, ParsePlatform, ParseAction, ParseSide, ParseStatus, Decimal.ParseI64, Decimal.ParseU16;
    ParsersFailWell(format);
  }

  lemma ParsersFailWell(format: NumberFormat)
    ensures forall text :: ParsePlatform(text).Failure? ==> ParsePlatform(text).error.Invalid?
    ensures forall text :: ParseSide(text).Failure? ==> ParseSide(text).error.Invalid?
    ensures forall text :: ParseAction(text).Failure? ==> ParseAction(text).error.Invalid?
    ensures forall text :: ParseStatus(text).Failure? ==> ParseStatus(text).error.Invalid?
  {
  }
}
