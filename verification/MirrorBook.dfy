/** The mirror book read as history: what a binding says follows from the fills alone, whatever
    crashes happened in between, and every follow-up command refers to an order that was opened. */
module MirrorBook {
  import opened Wrappers
  import opened Model
  import opened Rounding
  import opened Routing
  import opened Journal
  import opened Handlers
  import opened History
  import Keys

  datatype Fill = Fill(command: ExecutionCommand, ack: ExecutionAck)

  /** Accepted and filled acknowledgements of outstanding commands, oldest first. */
  function Fills(journal: seq<JournalRecord>): seq<Fill> {
    if journal == [] then []
    else
      var init, last := journal[..|journal| - 1], journal[|journal| - 1];
      Fills(init)
      + if last.AckApplied? && last.ack.Fills() && last.ack.commandId in Replay(init).commands
        then [Fill(Replay(init).commands[last.ack.commandId].command, last.ack)] else []
  }

  /** The position of the last fill of `action` on `key`, or -1. */
  function LastFill(fills: seq<Fill>, key: string, action: TradeAction): (i: int)
    ensures -1 <= i < |fills|
    ensures i >= 0 ==> fills[i].command.Key() == key && fills[i].command.action == action
  {
    if fills == [] then -1
    else
      var last := fills[|fills| - 1].command;
      if last.Key() == key && last.action == action then |fills| - 1 else LastFill(fills[..|fills| - 1], key, action)
  }

  /** The volume reduced on `key` after position `since`. */
  function ReducedSince(fills: seq<Fill>, key: string, since: int): real {
    if |fills| <= since + 1 || fills == [] then 0.0
    else
      var last := fills[|fills| - 1].command;
      ReducedSince(fills[..|fills| - 1], key, since)
      + if last.Key() == key && last.action == Reduce then last.volume else 0.0
  }

  /** What the source holds on `key` by the commands filled from position `since` on: what the last of
      them that says so says, less the volume of every reduce since that does not. */
  function SourceLeft(fills: seq<Fill>, key: string, since: nat): real
    requires since < |fills|
    decreases |fills|
  {
    var last := fills[|fills| - 1].command;
    if |fills| == since + 1 then
      match last.sourceRemainingVolume
      case Some(left) => left
      case None => last.sourceVolume
    else
      var before := SourceLeft(fills[..|fills| - 1], key, since);
      if last.Key() != key || last.action != Reduce then before
      else
        match last.sourceRemainingVolume
        case Some(left) => left
        case None => if last.sourceVolume < before then before - last.sourceVolume else 0.0
  }

  /** `key` is bound exactly when its last open came after its last close; the binding names the
      position and order of that open and holds what was opened less what was reduced since, never
      below zero, and what the source still holds. */
  ghost predicate BookSays(fills: seq<Fill>, mirrors: map<string, MirrorBinding>, key: string) {
    var at := LastFill(fills, key, Open);
    && (key in mirrors <==> at > LastFill(fills, key, Close))
    && (key in mirrors ==>
          var open, binding := fills[at], mirrors[key];
          && open.ack.externalId == Some(binding.targetOrderId)
          && binding.routeId == open.command.routeId
          && binding.sourceAccountId == open.command.sourceAccountId && binding.sourceOrderId == open.command.sourceOrderId
          && binding.targetAccountId == open.command.targetAccountId
          && binding.sourceOpenVolume == open.command.sourceVolume
          && binding.targetOpenVolume == open.command.volume
          && binding.targetRemainingVolume == Max(open.command.volume - ReducedSince(fills, key, at), 0.0)
          && binding.sourceRemainingVolume == SourceLeft(fills, key, at))
  }

  lemma BookSaysStep(fills: seq<Fill>, mirrors: map<string, MirrorBinding>, fill: Fill, key: string)
    requires BookSays(fills, mirrors, key)
    requires Sized(fill.command) && !Unbookable(fill.command, fill.ack) && fill.ack.Fills()
    requires forall k <- mirrors :: mirrors[k].BindingKey() == k
    ensures BookSays(fills + [fill], Mutate(mirrors, AckMutation(mirrors, fill.command, fill.ack)), key)
  {
    hide LastFill, ReducedSince, SourceLeft, MirrorKey;
    if fill.command.Key() != key {
      LastFillSnoc(fills, fill, key, Open);
      LastFillSnoc(fills, fill, key, Close);
      ReducedSnoc(fills, fill, key, LastFill(fills, key, Open));
      SourceLeftSnoc(fills, fill, key);
      OtherKey(mirrors, fill, key);
      assert forall i :: 0 <= i < |fills| ==> (fills + [fill])[i] == fills[i];
    } else {
      OwnKey(fills, mirrors, fill);
    }
  }

  lemma OtherKey(mirrors: map<string, MirrorBinding>, fill: Fill, key: string)
    requires fill.command.Key() != key && !Unbookable(fill.command, fill.ack) && fill.ack.Fills()
    requires forall k <- mirrors :: mirrors[k].BindingKey() == k
    ensures var after := Mutate(mirrors, AckMutation(mirrors, fill.command, fill.ack));
            (key in after <==> key in mirrors) && (key in mirrors ==> after[key] == mirrors[key])
  {
  }

  lemma LastFillSnoc(fills: seq<Fill>, fill: Fill, key: string, action: TradeAction)
    ensures LastFill(fills + [fill], key, action)
         == if fill.command.Key() == key && fill.command.action == action then |fills| else LastFill(fills, key, action)
  {
    assert (fills + [fill])[..|fills|] == fills && (fills + [fill])[|fills|] == fill;
  }

  lemma ReducedSnoc(fills: seq<Fill>, fill: Fill, key: string, since: int)
    requires since < |fills|
    ensures ReducedSince(fills + [fill], key, since)
         == ReducedSince(fills, key, since) + if fill.command.Key() == key && fill.command.action == Reduce then fill.command.volume else 0.0
    ensures ReducedSince(fills + [fill], key, |fills|) == 0.0
  {
    assert (fills + [fill])[..|fills|] == fills && (fills + [fill])[|fills|] == fill;
  }

  lemma SourceLeftSnoc(fills: seq<Fill>, fill: Fill, key: string)
    ensures var at, last, all := LastFill(fills, key, Open), fill.command, fills + [fill];
            && SourceLeft(all, key, |fills|)
               == (if last.sourceRemainingVolume.Some? then last.sourceRemainingVolume.value else last.sourceVolume)
            && (at >= 0 ==>
                  SourceLeft(all, key, at) ==
                  if last.Key() != key || last.action != Reduce then SourceLeft(fills, key, at)
                  else if last.sourceRemainingVolume.Some? then last.sourceRemainingVolume.value
                  else Max(SourceLeft(fills, key, at) - last.sourceVolume, 0.0))
  {
    assert (fills + [fill])[..|fills|] == fills && (fills + [fill])[|fills|] == fill;
  }

  lemma OwnKey(fills: seq<Fill>, mirrors: map<string, MirrorBinding>, fill: Fill)
    requires BookSays(fills, mirrors, fill.command.Key())
    requires Sized(fill.command) && !Unbookable(fill.command, fill.ack) && fill.ack.Fills()
    requires forall k <- mirrors :: mirrors[k].BindingKey() == k
    ensures BookSays(fills + [fill], Mutate(mirrors, AckMutation(mirrors, fill.command, fill.ack)), fill.command.Key())
  {
    hide LastFill, ReducedSince, SourceLeft, MirrorKey;
    var key := fill.command.Key();
    LastFillSnoc(fills, fill, key, Open);
    LastFillSnoc(fills, fill, key, Close);
    SourceLeftSnoc(fills, fill, key);
    ReducedSnoc(fills, fill, key, LastFill(fills, key, Open));
    assert forall i :: 0 <= i < |fills| ==> (fills + [fill])[i] == fills[i];
  }

  /** A fill is of a genuine command, and what the record books is that command's mutation. */
  lemma FillBooks(cfg: Config, journal: seq<JournalRecord>, last: JournalRecord)
    requires Sound(cfg) && WellFormed(cfg, journal) && Admissible(cfg, Replay(journal), last)
    requires last.AckApplied? && last.ack.Fills()
    ensures var command := Replay(journal).commands[last.ack.commandId].command;
            && command.commandId == last.ack.commandId && Genuine(cfg, command) && !Unbookable(command, last.ack)
            && last.mirror == AckMutation(Replay(journal).mirrors, command, last.ack)
  {
    AlwaysConsistent(cfg, journal);
    assert Held(cfg, Replay(journal).seen, last.ack.commandId, Replay(journal).commands[last.ack.commandId].command);
  }

  lemma OnlyFillsBook(cfg: Config, s: Ledger, record: JournalRecord)
    requires cfg.Usable() && Admissible(cfg, s, record) && !(record.AckApplied? && record.ack.Fills())
    ensures Applied(s, record).mirrors == s.mirrors
  {
  }

  lemma KeyedBook(cfg: Config, journal: seq<JournalRecord>)
    requires Sound(cfg) && WellFormed(cfg, journal)
    ensures forall k <- Replay(journal).mirrors :: Replay(journal).mirrors[k].BindingKey() == k
  {
    AlwaysConsistent(cfg, journal);
    assert forall k <- Replay(journal).mirrors :: Booked(k, Replay(journal).mirrors[k]);
  }

  /** The book is the history of fills, after any journal the daemon can have written. */
  lemma {:induction false} BookIsHistory(cfg: Config, journal: seq<JournalRecord>, key: string)
    requires Sound(cfg) && WellFormed(cfg, journal)
    ensures BookSays(Fills(journal), Replay(journal).mirrors, key)
  {
    if journal != [] {
      var init, last := journal[..|journal| - 1], journal[|journal| - 1];
      BookIsHistory(cfg, init, key);
      if last.AckApplied? && last.ack.Fills() {
        FillBooks(cfg, init, last);
        KeyedBook(cfg, init);
        BookSaysStep(Fills(init), Replay(init).mirrors, Fill(Replay(init).commands[last.ack.commandId].command, last.ack), key);
      } else {
        OnlyFillsBook(cfg, Replay(init), last);
        assert Fills(journal) == Fills(init);
      }
    }
  }

  ghost predicate TerminalFill(cfg: Config, journal: seq<JournalRecord>, fill: Fill) {
    fill.command.commandId in TerminalIds(journal) && Genuine(cfg, fill.command)
  }

  /** Each fill belongs to a genuine command that is acknowledged for good. */
  lemma {:induction false} FillsAreTerminal(cfg: Config, journal: seq<JournalRecord>)
    requires Sound(cfg) && WellFormed(cfg, journal)
    ensures forall f <- Fills(journal) :: TerminalFill(cfg, journal, f)
  {
    if journal != [] {
      var init, last := journal[..|journal| - 1], journal[|journal| - 1];
      FillsAreTerminal(cfg, init);
      if last.AckApplied? && last.ack.Fills() {
        FillBooks(cfg, init, last);
      }
      forall f | f in Fills(journal)
        ensures TerminalFill(cfg, journal, f)
      {
        assert f in Fills(init) ==> TerminalFill(cfg, init, f);
      }
    }
  }

  /** No command fills twice. */
  lemma {:induction false} CommandsFillOnce(cfg: Config, journal: seq<JournalRecord>, i: nat, j: nat)
    requires Sound(cfg) && WellFormed(cfg, journal) && i < j < |Fills(journal)|
    ensures Fills(journal)[i].command.commandId != Fills(journal)[j].command.commandId
  {
    var init, last := journal[..|journal| - 1], journal[|journal| - 1];
    if j < |Fills(init)| {
      CommandsFillOnce(cfg, init, i, j);
    } else {
      FillBooks(cfg, init, last);
      FillsAreTerminal(cfg, init);
      CommandsConserved(cfg, init);
      assert Fills(init)[i] in Fills(init);
    }
  }

  /* Provenance. */

  /** A follow-up command takes its order id from the binding of its own key. */
  ghost predicate Follows(s: Ledger, command: ExecutionCommand) {
    command.action != Open ==>
      command.Key() in s.mirrors && command.targetOrderId == Some(s.mirrors[command.Key()].targetOrderId)
  }

  lemma MadeFollows(digest: Digest, s: Ledger, event: TradeEvent, now: I64, route: RouteRule, c: ExecutionCommand)
    requires route.Usable() && Made(digest, s.mirrors, event, now, route, c)
    ensures Follows(s, c)
    ensures c.sourceAccountId == event.sourceAccountId && c.targetAccountId == route.targetAccountId
  {
    assert c.Key() == MirrorKey(event.sourceAccountId, event.sourceOrderId, route.targetAccountId);
  }

  lemma PlanFollows(cfg: Config, s: Ledger, record: JournalRecord)
    requires cfg.Usable() && record.EventPlanned? && Admissible(cfg, s, record)
    ensures forall c <- record.commands :: Follows(s, c)
  {
    var event, now :| PlannedBy(cfg, s.mirrors, record, event, now);
    PlanMakes(cfg.digest, ForSource(cfg.routes, event.sourceAccountId), s.mirrors, event, now);
    forall c | c in record.commands
      ensures Follows(s, c)
    {
      var route :| route in ForSource(cfg.routes, event.sourceAccountId) && Made(cfg.digest, s.mirrors, event, now, route, c);
      MadeFollows(cfg.digest, s, event, now, route, c);
    }
  }

  /** The account ids of the routes are free of U+001F. */
  predicate SeparatorFree(routes: seq<RouteRule>) {
    forall route <- routes :: UNIT_SEPARATOR !in route.sourceAccountId && UNIT_SEPARATOR !in route.targetAccountId
  }

  ghost predicate SamePosition(a: ExecutionCommand, b: ExecutionCommand) {
    a.sourceAccountId == b.sourceAccountId && a.sourceOrderId == b.sourceOrderId && a.targetAccountId == b.targetAccountId
  }

  lemma KeyIsPosition(cfg: Config, a: ExecutionCommand, b: ExecutionCommand)
    requires SeparatorFree(cfg.routes) && Genuine(cfg, a) && Genuine(cfg, b) && a.Key() == b.Key()
    ensures SamePosition(a, b)
  {
    SameKeyIffSamePosition(a, b);
  }

  lemma SameKeyIffSamePosition(a: ExecutionCommand, b: ExecutionCommand)
    requires UNIT_SEPARATOR !in a.sourceAccountId && UNIT_SEPARATOR !in a.targetAccountId
    requires UNIT_SEPARATOR !in b.sourceAccountId && UNIT_SEPARATOR !in b.targetAccountId
    ensures a.Key() == b.Key() <==> SamePosition(a, b)
  {
    Keys.MirrorKeyInjective(a.sourceAccountId, a.sourceOrderId, a.targetAccountId,
                            b.sourceAccountId, b.sourceOrderId, b.targetAccountId);
  }

  /** Every modify, reduce or close ever planned names the order reported by an earlier accepted
      or filled open of the same source order on the same target account. */
  lemma FollowUpsNameOpenedOrders(cfg: Config, journal: seq<JournalRecord>, i: nat, command: ExecutionCommand)
    requires Sound(cfg) && SeparatorFree(cfg.routes) && WellFormed(cfg, journal)
    requires i < |journal| && journal[i].EventPlanned? && command in journal[i].commands && command.action != Open
    ensures exists open <- Fills(journal[..i]) ::
              open.command.action == Open && SamePosition(open.command, command) && open.ack.externalId == command.targetOrderId
  {
    var before := journal[..i];
    WellFormedPrefix(cfg, journal, i);
    PlanFollows(cfg, Replay(before), journal[i]);
    assert Follows(Replay(before), command);
    BookIsHistory(cfg, before, command.Key());
    var open := Fills(before)[LastFill(Fills(before), command.Key(), Open)];
    FillsAreTerminal(cfg, before);
    assert TerminalFill(cfg, before, open);
    PlanGenuine(cfg, Replay(before), journal[i]);
    KeyIsPosition(cfg, open.command, command);
  }

  /* The step grid. */

  /** At most one route between two accounts, its step a whole number of ticks. */
  predicate Gridded(routes: seq<RouteRule>) {
    && (forall route <- routes :: WholeTicks(route.volumeStep))
    && (forall i, j :: 0 <= i < j < |routes| ==>
          routes[i].sourceAccountId != routes[j].sourceAccountId || routes[i].targetAccountId != routes[j].targetAccountId)
  }

  /** On the grid of the route between the two accounts. */
  ghost predicate OnRouteGrid(routes: seq<RouteRule>, source: string, target: string, volume: real) {
    forall route <- routes :: route.sourceAccountId == source && route.targetAccountId == target ==> OnGrid(volume, route.volumeStep)
  }

  ghost predicate GridCommand(routes: seq<RouteRule>, c: ExecutionCommand) {
    && UNIT_SEPARATOR !in c.sourceAccountId && UNIT_SEPARATOR !in c.targetAccountId
    && (c.action == Open || c.action == Reduce ==>
          c.volume >= 0.0 && OnRouteGrid(routes, c.sourceAccountId, c.targetAccountId, c.volume))
  }

  ghost predicate GridBinding(routes: seq<RouteRule>, b: MirrorBinding) {
    && UNIT_SEPARATOR !in b.sourceAccountId && UNIT_SEPARATOR !in b.targetAccountId
    && 0.0 <= b.targetRemainingVolume <= b.targetOpenVolume
    && OnRouteGrid(routes, b.sourceAccountId, b.targetAccountId, b.targetRemainingVolume)
    && OnRouteGrid(routes, b.sourceAccountId, b.targetAccountId, b.targetOpenVolume)
  }

  ghost predicate OnTheGrid(cfg: Config, s: Ledger) {
    && (forall id <- s.commands :: GridCommand(cfg.routes, s.commands[id].command))
    && (forall key <- s.mirrors :: GridBinding(cfg.routes, s.mirrors[key]))
  }

  lemma OneRoute(routes: seq<RouteRule>, a: RouteRule, b: RouteRule)
    requires Gridded(routes) && a in routes && b in routes
    requires a.sourceAccountId == b.sourceAccountId && a.targetAccountId == b.targetAccountId
    ensures a == b
  {
    var i :| 0 <= i < |routes| && routes[i] == a;
    var j :| 0 <= j < |routes| && routes[j] == b;
  }

  lemma RouteGrid(routes: seq<RouteRule>, route: RouteRule, volume: real)
    requires Gridded(routes) && route in routes && OnGrid(volume, route.volumeStep)
    ensures OnRouteGrid(routes, route.sourceAccountId, route.targetAccountId, volume)
  {
    forall other | other in routes && other.sourceAccountId == route.sourceAccountId && other.targetAccountId == route.targetAccountId
      ensures OnGrid(volume, other.volumeStep)
    {
      OneRoute(routes, route, other);
    }
  }

  /** The command asks for no more than its binding still holds. */
  ghost predicate WithinRemaining(s: Ledger, c: ExecutionCommand) {
    c.action == Reduce ==> c.Key() in s.mirrors && c.volume <= s.mirrors[c.Key()].targetRemainingVolume
  }

  lemma MadeOnGrid(cfg: Config, s: Ledger, event: TradeEvent, now: I64, route: RouteRule, c: ExecutionCommand)
    requires Sound(cfg) && Gridded(cfg.routes) && SeparatorFree(cfg.routes) && Consistent(cfg, s) && OnTheGrid(cfg, s)
    requires route in cfg.routes && route.sourceAccountId == event.sourceAccountId
    requires Made(cfg.digest, s.mirrors, event, now, route, c)
    ensures GridCommand(cfg.routes, c) && WithinRemaining(s, c)
  {
    if event.action == Open {
      OpenSizing(route, event.volume);
      RouteGrid(cfg.routes, route, c.volume);
    } else if event.action == Reduce {
      var key := MirrorKey(event.sourceAccountId, event.sourceOrderId, route.targetAccountId);
      var b := s.mirrors[key];
      assert c.Key() == key && Booked(key, b) && GridBinding(cfg.routes, b);
      Keys.MirrorKeyInjective(event.sourceAccountId, event.sourceOrderId, route.targetAccountId,
                              b.sourceAccountId, b.sourceOrderId, b.targetAccountId);
      ReduceSizing(route, ProportionalReduce(event.volume, b), b.targetRemainingVolume);
      RouteGrid(cfg.routes, route, c.volume);
    }
  }

  lemma PlanOnGrid(cfg: Config, s: Ledger, record: JournalRecord)
    requires Sound(cfg) && Gridded(cfg.routes) && SeparatorFree(cfg.routes) && Consistent(cfg, s) && OnTheGrid(cfg, s)
    requires record.EventPlanned? && Admissible(cfg, s, record)
    ensures forall c <- record.commands :: GridCommand(cfg.routes, c) && WithinRemaining(s, c)
  {
    var event, now :| PlannedBy(cfg, s.mirrors, record, event, now);
    PlanMakes(cfg.digest, ForSource(cfg.routes, event.sourceAccountId), s.mirrors, event, now);
    forall c | c in record.commands
      ensures GridCommand(cfg.routes, c) && WithinRemaining(s, c)
    {
      var route :| route in ForSource(cfg.routes, event.sourceAccountId) && Made(cfg.digest, s.mirrors, event, now, route, c);
      MadeOnGrid(cfg, s, event, now, route, c);
    }
  }

  lemma ReducedOnGrid(routes: seq<RouteRule>, b: MirrorBinding, c: ExecutionCommand)
    requires GridBinding(routes, b) && GridCommand(routes, c) && c.action == Reduce
    requires b.sourceAccountId == c.sourceAccountId && b.targetAccountId == c.targetAccountId
    ensures GridBinding(routes, ReducedBinding(b, c))
  {
    forall route | route in routes && route.sourceAccountId == b.sourceAccountId && route.targetAccountId == b.targetAccountId
      ensures OnGrid(ReducedBinding(b, c).targetRemainingVolume, route.volumeStep)
    {
      GridDifference(b.targetRemainingVolume, c.volume, route.volumeStep);
      GridZero(route.volumeStep);
    }
  }

  lemma AckOnGrid(cfg: Config, s: Ledger, record: JournalRecord)
    requires Sound(cfg) && Consistent(cfg, s) && OnTheGrid(cfg, s) && record.AckApplied? && Admissible(cfg, s, record)
    requires record.mirror.Some? && record.mirror.value.Upsert?
    ensures GridBinding(cfg.routes, record.mirror.value.binding)
  {
    var c := s.commands[record.ack.commandId].command;
    assert GridCommand(cfg.routes, c);
    if c.action == Reduce {
      var b := s.mirrors[c.Key()];
      assert Booked(c.Key(), b) && GridBinding(cfg.routes, b);
      Keys.MirrorKeyInjective(c.sourceAccountId, c.sourceOrderId, c.targetAccountId,
                              b.sourceAccountId, b.sourceOrderId, b.targetAccountId);
      ReducedOnGrid(cfg.routes, b, c);
    }
  }

  /** Every binding keeps `0 <= remaining <= opened`, both on its route's grid, and so does the
      volume of every outstanding open and reduce. */
  lemma {:induction false} BookStaysOnGrid(cfg: Config, journal: seq<JournalRecord>)
    requires Sound(cfg) && Gridded(cfg.routes) && SeparatorFree(cfg.routes) && WellFormed(cfg, journal)
    ensures OnTheGrid(cfg, Replay(journal))
  {
    if journal != [] {
      var init, last := journal[..|journal| - 1], journal[|journal| - 1];
      BookStaysOnGrid(cfg, init);
      AlwaysConsistent(cfg, init);
      var p := (id, c) => GridCommand(cfg.routes, c);
      var q := (key, b) => GridBinding(cfg.routes, b);
      if last.EventPlanned? {
        PlanOnGrid(cfg, Replay(init), last);
      }
      if last.AckApplied? && last.mirror.Some? && last.mirror.value.Upsert? {
        AckOnGrid(cfg, Replay(init), last);
      }
      AppliedStores(Replay(init), last, p);
      AppliedBooks(Replay(init), last, q);
    }
  }

  /** A planned reduce never asks for more than remained when it was planned, although its
      volume is rounded to the nearest step. */
  lemma ReducesFit(cfg: Config, journal: seq<JournalRecord>, i: nat, command: ExecutionCommand)
    requires Sound(cfg) && Gridded(cfg.routes) && SeparatorFree(cfg.routes) && WellFormed(cfg, journal)
    requires i < |journal| && journal[i].EventPlanned? && command in journal[i].commands && command.action == Reduce
    ensures command.Key() in Replay(journal[..i]).mirrors
    ensures 0.0 < command.volume <= Replay(journal[..i]).mirrors[command.Key()].targetRemainingVolume
  {
    WellFormedPrefix(cfg, journal, i);
    AlwaysConsistent(cfg, journal[..i]);
    BookStaysOnGrid(cfg, journal[..i]);
    PlanOnGrid(cfg, Replay(journal[..i]), journal[i]);
    PlanGenuine(cfg, Replay(journal[..i]), journal[i]);
    assert WithinRemaining(Replay(journal[..i]), command) && Genuine(cfg, command);
  }

  /* The compiled table. */

  /** What a plain scan of the configuration makes of an event. */
  function Scan(digest: Digest, routes: seq<RouteRule>, mirrors: map<string, MirrorBinding>, event: TradeEvent, now: I64)
    : seq<ExecutionCommand>
    requires forall route <- routes :: route.Usable()
  {
    if routes == [] then []
    else
      var last := routes[|routes| - 1];
      var rest := Scan(digest, routes[..|routes| - 1], mirrors, event, now);
      if last.sourceAccountId != event.sourceAccountId then rest
      else
        match Build(digest, mirrors, event, last, now)
        case Success(Some(command)) => rest + [command]
        case _ => rest
  }

  lemma BuildOutcome(digest: Digest, mirrors: map<string, MirrorBinding>, event: TradeEvent, route: RouteRule, now: I64)
    requires route.Usable() && forall key <- mirrors :: mirrors[key].sourceOpenVolume > 0.0
    ensures Build(digest, mirrors, event, route, now).Success? || Build(digest, mirrors, event, route, now).error.MissingMirror?
  {
  }

  /** What a route adds to a plan is what it adds to a scan. */
  lemma AbsorbIsScan(before: seq<ExecutionCommand>, outcome: Result<Option<ExecutionCommand>, RouteError>)
    requires outcome.Success? || outcome.error.MissingMirror?
    ensures Absorb(before, outcome)
         == Success(match outcome case Success(Some(command)) => before + [command] case _ => before)
  {
  }

  lemma {:induction false} PlanIsScan(digest: Digest, routes: seq<RouteRule>, mirrors: map<string, MirrorBinding>, event: TradeEvent, now: I64)
    requires forall route <- routes :: route.Usable()
    requires forall key <- mirrors :: mirrors[key].sourceOpenVolume > 0.0
    ensures Plan(digest, ForSource(routes, event.sourceAccountId), mirrors, event, now)
         == Success(Scan(digest, routes, mirrors, event, now))
  {
    hide Build, RouteRule.Usable, Absorb;
    if routes == [] {
      assert Plan(digest, [], mirrors, event, now) == Success([]);
    } else {
      var init, last := routes[..|routes| - 1], routes[|routes| - 1];
      PlanIsScan(digest, init, mirrors, event, now);
      if last.sourceAccountId == event.sourceAccountId {
        var before := ForSource(init, event.sourceAccountId);
        assert (before + [last])[..|before|] == before && (before + [last])[..|before| + 1] == before + [last];
        PlanSnoc(digest, before + [last], mirrors, event, now, |before|, Scan(digest, init, mirrors, event, now));
        BuildOutcome(digest, mirrors, event, last, now);
        AbsorbIsScan(Scan(digest, init, mirrors, event, now), Build(digest, mirrors, event, last, now));
      }
    }
  }

  /** On every state the daemon reaches, planning through the compiled table is the scan, and no
      command goes back to the account its event came from. */
  lemma PlanningScansConfiguration(cfg: Config, journal: seq<JournalRecord>, event: TradeEvent, now: I64)
    requires Sound(cfg) && WellFormed(cfg, journal)
    ensures PlanEvent(cfg, Replay(journal).mirrors, event, now)
         == Success(Scan(cfg.digest, cfg.routes, Replay(journal).mirrors, event, now))
    ensures forall c <- Scan(cfg.digest, cfg.routes, Replay(journal).mirrors, event, now) ::
              c.sourceAccountId == event.sourceAccountId && c.targetAccountId != event.sourceAccountId
  {
    hide Scan, Genuine, ForSource, Plan;
    AlwaysConsistent(cfg, journal);
    var mirrors := Replay(journal).mirrors;
    assert forall key <- mirrors :: Booked(key, mirrors[key]);
    PlanIsScan(cfg.digest, cfg.routes, mirrors, event, now);
    PlansForOthers(cfg, Replay(journal), event, now);
  }

  lemma PlansForOthers(cfg: Config, s: Ledger, event: TradeEvent, now: I64)
    requires cfg.Usable() && PlanEvent(cfg, s.mirrors, event, now).Success?
    ensures forall c <- PlanEvent(cfg, s.mirrors, event, now).value ::
              c.sourceAccountId == event.sourceAccountId && c.targetAccountId != event.sourceAccountId
  {
    hide Plan;
    var routes := ForSource(cfg.routes, event.sourceAccountId);
    PlanMakes(cfg.digest, routes, s.mirrors, event, now);
    forall c | c in PlanEvent(cfg, s.mirrors, event, now).value
      ensures c.sourceAccountId == event.sourceAccountId && c.targetAccountId != event.sourceAccountId
    {
      var route :| route in routes && Made(cfg.digest, s.mirrors, event, now, route, c);
      MadeFollows(cfg.digest, s, event, now, route, c);
      SelfRouteRefused(route);
    }
  }

  lemma SelfRouteRefused(route: RouteRule)
    requires route.Usable()
    ensures route.sourceAccountId != route.targetAccountId
  {
  }
}
