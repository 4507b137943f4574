/** A connection as one stream of characters: frames written one after the other are read line
    by line (the read loops of crates/copier-daemon/src/server.rs and crates/copier-client/src/lib.rs). */
module Stream {
  import opened Wrappers
  import opened Model
  import opened Text
  import opened Wire
  import opened RoundTrip

  /** How much one `read_line` takes: up to and including the first line feed, or everything. */
  function LineLength(s: string): (n: nat)
    ensures n <= |s| && (s != "" ==> n > 0)
  {
    if s == "" then 0 else if s[0] == LF then 1 else 1 + LineLength(s[1..])
  }

  function Lines(s: string): seq<string> {
    if s == "" then [] else [s[..LineLength(s)]] + Lines(s[LineLength(s)..])
  }

  function Concat(lines: seq<string>): string {
    if lines == [] then "" else lines[0] + Concat(lines[1..])
  }

  /** Lines an agent sent, as the daemon takes them: what does not parse is passed over. */
  function AgentFrames(format: NumberFormat, lines: seq<string>): seq<AgentFrame> {
    if lines == [] then []
    else
      var rest := AgentFrames(format, lines[..|lines| - 1]);
      match ParseAgent(format, lines[|lines| - 1])
      case Success(frame) => rest + [frame]
      case Failure(_) => rest
  }

  method ReceiveAgentFrames(format: NumberFormat, stream: string) returns (frames: seq<AgentFrame>)
    ensures frames == AgentFrames(format, Lines(stream))
  {
    hide ParseAgent;
    frames := [];
    var rest := stream;
    ghost var lines: seq<string> := [];
    while rest != ""
      invariant lines + Lines(rest) == Lines(stream)
      invariant frames == AgentFrames(format, lines)
      decreases |rest|
    {
      var line := rest[..LineLength(rest)];
      rest := rest[|line|..];
      ghost var before := lines;
      lines := lines + [line];
      assert lines[..|lines| - 1] == before;
      match ParseAgent(format, line) {
        case Success(frame) => frames := frames + [frame];
        case Failure(_) =>
      }
    }
    assert lines == Lines(stream);
  }

  lemma {:induction false} LineLengthWhole(x: string, y: string)
    requires LF !in x
    ensures LineLength(x + [LF] + y) == |x| + 1
  {
    if x != "" {
      assert (x + [LF] + y)[1..] == x[1..] + [LF] + y;
      assert x[0] in x && forall c <- x[1..] :: c in x;
      LineLengthWhole(x[1..], y);
    }
  }

  lemma {:induction false} LineLengthWithin(x: string, y: string)
    requires LF in x
    ensures LineLength(x + y) == LineLength(x)
  {
    if x[0] != LF {
      assert (x + y)[1..] == x[1..] + y && x == [x[0]] + x[1..];
      LineLengthWithin(x[1..], y);
    }
  }

  /** A line feed separates for good: what comes before it cannot disturb what comes after. */
  lemma {:induction false} LinesSplit(x: string, y: string)
    ensures Lines(x + [LF] + y) == Lines(x + [LF]) + Lines(y)
    decreases |x|
  {
    if LF !in x {
      FirstLine(x, y);
      FirstLine(x, "");
      assert x + [LF] + "" == x + [LF] && Lines("") == [];
    } else {
      var n := LineLength(x);
      LineWithin(x, [LF] + y);
      LineWithin(x, [LF]);
      assert x + ([LF] + y) == x + [LF] + y && x[n..] + ([LF] + y) == x[n..] + [LF] + y;
      LinesSplit(x[n..], y);
    }
  }

  lemma LineWithin(x: string, y: string)
    requires LF in x
    ensures Lines(x + y) == [x[..LineLength(x)]] + Lines(x[LineLength(x)..] + y)
  {
    LineLengthWithin(x, y);
    var n := LineLength(x);
    assert (x + y)[..n] == x[..n] && (x + y)[n..] == x[n..] + y;
  }

  lemma FirstLine(x: string, y: string)
    requires LF !in x
    ensures Lines(x + [LF] + y) == [x + [LF]] + Lines(y)
  {
    LineLengthWhole(x, y);
    var s := x + [LF] + y;
    assert s[..|x| + 1] == x + [LF] && s[|x| + 1..] == y;
  }

  /** A line feed at the end and nowhere else. */
  predicate IsLine(line: string) {
    line != "" && line[|line| - 1] == LF && LF !in line[..|line| - 1]
  }

  lemma EndedIsLine(body: string)
    requires LF !in body
    ensures IsLine(body + [LF])
  {
    assert (body + [LF])[..|body|] == body;
  }

  /** Whole lines written one after the other are read back one by one. */
  lemma {:induction false} LinesOfConcat(lines: seq<string>)
    requires forall line <- lines :: IsLine(line)
    ensures Lines(Concat(lines)) == lines
  {
    if lines != [] {
      assert lines[0] in lines && IsLine(lines[0]);
      var body := lines[0][..|lines[0]| - 1];
      assert lines[0] == body + [LF];
      LinesOfConcat(lines[1..]);
      LineLengthWhole(body, Concat(lines[1..]));
      var s := Concat(lines);
      assert s[..|body| + 1] == lines[0] && s[|body| + 1..] == Concat(lines[1..]);
    }
  }

  lemma {:induction false} AgentFramesConcat(format: NumberFormat, a: seq<string>, b: seq<string>)
    ensures AgentFrames(format, a + b) == AgentFrames(format, a) + AgentFrames(format, b)
  {
    if b == [] {
      assert a + b == a;
    } else {
      assert (a + b)[..|a + b| - 1] == a + b[..|b| - 1];
      AgentFramesConcat(format, a, b[..|b| - 1]);
    }
  }

  function EncodedAgent(format: NumberFormat, frames: seq<AgentFrame>): (lines: seq<string>)
    ensures |lines| == |frames|
  {
    seq(|frames|, i requires 0 <= i < |frames| => EncodeAgent(format, frames[i]))
  }

  function CarriedAll(frames: seq<AgentFrame>): seq<AgentFrame> {
    seq(|frames|, i requires 0 <= i < |frames| => CarriedAgent(frames[i]))
  }

  lemma EncodedAgentIsLine(format: NumberFormat, frame: AgentFrame)
    requires format.Lawful()
    ensures IsLine(EncodeAgent(format, frame))
  {
    AgentRoundTrip(format, frame);
    FieldsSurvive(AgentFields(format, frame));
    EndedIsLine(Join(AgentFields(format, frame), TAB));
  }

  lemma {:induction false} EncodedLinesParse(format: NumberFormat, frames: seq<AgentFrame>)
    requires format.Lawful() && forall frame <- frames :: EncodableAgent(format, frame)
    ensures AgentFrames(format, EncodedAgent(format, frames)) == CarriedAll(frames)
  {
    hide EncodeAgent, ParseAgent, CarriedAgent, EncodableAgent, NumberFormat.Lawful;
    if frames != [] {
      var init, last := frames[..|frames| - 1], frames[|frames| - 1];
      EncodedLinesParse(format, init);
      AgentRoundTrip(format, last);
      var lines := EncodedAgent(format, frames);
      assert lines[..|lines| - 1] == EncodedAgent(format, init);
      assert CarriedAll(frames) == CarriedAll(init) + [CarriedAgent(last)];
    }
  }

  /** Frames concatenated into one stream, after whatever was sent before them, arrive one by one
      and in order: earlier garbage costs only itself. */
  lemma AgentStreamRoundTrip(format: NumberFormat, garbage: string, frames: seq<AgentFrame>)
    requires format.Lawful() && forall frame <- frames :: EncodableAgent(format, frame)
    ensures AgentFrames(format, Lines(Concat(EncodedAgent(format, frames)))) == CarriedAll(frames)
    ensures AgentFrames(format, Lines(garbage + [LF] + Concat(EncodedAgent(format, frames))))
         == AgentFrames(format, Lines(garbage + [LF])) + CarriedAll(frames)
  {
    var lines := EncodedAgent(format, frames);
    forall line | line in lines
      ensures IsLine(line)
    {
      var i :| 0 <= i < |lines| && lines[i] == line;
      EncodedAgentIsLine(format, frames[i]);
    }
    LinesOfConcat(lines);
    EncodedLinesParse(format, frames);
    LinesSplit(garbage, Concat(lines));
    AgentFramesConcat(format, Lines(garbage + [LF]), lines);
  }

  /* The other direction: a client stops at the first line it cannot read. */

  function ServerFrames(format: NumberFormat, lines: seq<string>): Result<seq<ServerFrame>, WireError> {
    if lines == [] then Success([])
    else
      var rest :- ServerFrames(format, lines[..|lines| - 1]);
      var frame :- ParseServer(format, lines[|lines| - 1]);
      Success(rest + [frame])
  }

  function EncodedServer(format: NumberFormat, frames: seq<ServerFrame>): (lines: seq<string>)
    ensures |lines| == |frames|
  {
    seq(|frames|, i requires 0 <= i < |frames| => EncodeServer(format, frames[i]))
  }

  function CarriedAllServer(frames: seq<ServerFrame>): seq<ServerFrame> {
    seq(|frames|, i requires 0 <= i < |frames| => CarriedServer(frames[i]))
  }

  lemma EncodedServerIsLine(format: NumberFormat, frame: ServerFrame)
    requires format.Lawful()
    ensures IsLine(EncodeServer(format, frame))
  {
    ServerRoundTrip(format, frame);
    FieldsSurvive(ServerFields(format, frame));
    EndedIsLine(Join(ServerFields(format, frame), TAB));
  }

  lemma ServerFramesLast(format: NumberFormat, lines: seq<string>, line: string, frames: seq<ServerFrame>, frame: ServerFrame)
    ensures ServerFrames(format, lines + [line]) == Success(frames + [frame])
       <==> ServerFrames(format, lines) == Success(frames) && ParseServer(format, line) == Success(frame)
  {
    hide ParseServer;
    assert (lines + [line])[..|lines|] == lines;
    var read := ServerFrames(format, lines + [line]);
    if read == Success(frames + [frame]) {
      var rest := ServerFrames(format, lines).value;
      assert |rest| == |frames| && read.value[..|frames|] == rest && (frames + [frame])[..|frames|] == frames;
      assert read.value[|frames|] == frame;
    }
  }

  lemma {:induction false} ServerLinesParse(format: NumberFormat, frames: seq<ServerFrame>)
    requires format.Lawful()
    ensures ServerFrames(format, EncodedServer(format, frames)) == Success(CarriedAllServer(frames))
       <==> forall frame <- frames :: EncodableServer(format, frame)
  {
    hide EncodeServer, ParseServer, CarriedServer, EncodableServer, NumberFormat.Lawful;
    if frames == [] {
      assert EncodedServer(format, frames) == [] && CarriedAllServer(frames) == [];
    } else {
      var init, last := frames[..|frames| - 1], frames[|frames| - 1];
      ServerLinesParse(format, init);
      ServerRoundTrip(format, last);
      assert EncodedServer(format, frames) == EncodedServer(format, init) + [EncodeServer(format, last)];
      assert CarriedAllServer(frames) == CarriedAllServer(init) + [CarriedServer(last)];
      ServerFramesLast(format, EncodedServer(format, init), EncodeServer(format, last), CarriedAllServer(init), CarriedServer(last));
      assert frames == init + [last];
    }
  }

  /** A client reads the daemon's frames exactly when all of them are encodable. */
  lemma ServerStreamRoundTrip(format: NumberFormat, frames: seq<ServerFrame>)
    requires format.Lawful()
    ensures ServerFrames(format, Lines(Concat(EncodedServer(format, frames)))) == Success(CarriedAllServer(frames))
       <==> forall frame <- frames :: EncodableServer(format, frame)
  {
    var lines := EncodedServer(format, frames);
    forall line | line in lines
      ensures IsLine(line)
    {
      var i :| 0 <= i < |lines| && lines[i] == line;
      EncodedServerIsLine(format, frames[i]);
    }
    LinesOfConcat(lines);
    ServerLinesParse(format, frames);
  }
}
