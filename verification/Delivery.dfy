/** Between the daemon and those who carry out its commands: every command sent can be read, every
    answer to one is taken, and what a venue observes of its own orders is not copied again. */
module Delivery {
  import opened Wrappers
  import opened Model
  import opened Routing
  import opened Journal
  import opened Handlers
  import opened History
  import opened Runs
  import opened Reachable
  import CTrader
  import CTraderHub
  import Keys
  import MetaApi
  import Positions
  import RoundTrip
  import Text
  import Wire

  /* Answers. */

  lemma PlannedSplit(journal: seq<JournalRecord>, c: ExecutionCommand)
    requires Planned(journal, c)
    ensures journal != []
    ensures Planned(journal[..|journal| - 1], c)
         || (journal[|journal| - 1].EventPlanned? && c in journal[|journal| - 1].commands)
  {
    var i :| 0 <= i < |journal| && journal[i].EventPlanned? && c in journal[i].commands;
    var init := journal[..|journal| - 1];
    assert i < |init| ==> init[i] == journal[i];
  }

  lemma {:induction false} PlannedHasId(journal: seq<JournalRecord>, c: ExecutionCommand)
    requires Planned(journal, c)
    ensures c.commandId in PlannedIds(journal)
  {
    PlannedSplit(journal, c);
    if Planned(journal[..|journal| - 1], c) {
      PlannedHasId(journal[..|journal| - 1], c);
    }
  }

  lemma SamePlan(planned: seq<ExecutionCommand>, a: ExecutionCommand, b: ExecutionCommand)
    requires NoRepeats(Ids(planned)) && a in planned && b in planned && a.commandId == b.commandId
    ensures a == b
  {
    var i :| 0 <= i < |planned| && planned[i] == a;
    var j :| 0 <= j < |planned| && planned[j] == b;
    assert Ids(planned)[i] == Ids(planned)[j];
  }

  /** One id never stands for two commands. */
  lemma {:induction false} IdNamesCommand(cfg: Config, journal: seq<JournalRecord>, a: ExecutionCommand, b: ExecutionCommand)
    requires Sound(cfg) && WellFormed(cfg, journal) && Planned(journal, a) && Planned(journal, b) && a.commandId == b.commandId
    ensures a == b
  {
    PlannedSplit(journal, a);
    PlannedSplit(journal, b);
    var init, last := journal[..|journal| - 1], journal[|journal| - 1];
    if Planned(init, a) && Planned(init, b) {
      IdNamesCommand(cfg, init, a, b);
    } else {
      PlanAdds(cfg, init, last);
      PlanGenuine(cfg, Replay(init), last);
      if Planned(init, a) {
        PlannedHasId(init, a);
      } else if Planned(init, b) {
        PlannedHasId(init, b);
      } else {
        SamePlan(last.commands, a, b);
      }
    }
  }

  /** An answer to a command that was sent, given in the name of its target account, is never
      refused, no matter when it comes or how often. */
  lemma AnswersAreTaken(cfg: Config, moves: seq<Move>, command: ExecutionCommand, ack: ExecutionAck, now: I64, accepted: set<string>)
    requires Sound(cfg) && CanRun(cfg, moves) && command in Run(cfg, moves).sent
    requires ack.commandId == command.commandId && ack.accountId == command.targetAccountId
    ensures FrameEffects(cfg, Run(cfg, moves), command.targetAccountId, Ack(ack), now, accepted).Success?
  {
    hide WellFormed, Genuine, Planned, SentOnce, AckRecord;
    RunsKeepInv(cfg, moves);
    OnlyPlannedSent(cfg, moves);
    var s := Run(cfg, moves);
    LiveMeaning(s.ledger, Replay(s.journal));
    if ack.commandId in s.ledger.commands {
      StoredWerePlanned(s.journal);
      AlwaysConsistent(cfg, s.journal);
      var stored := Replay(s.journal).commands[ack.commandId].command;
      assert Held(cfg, Replay(s.journal).seen, ack.commandId, stored);
      IdNamesCommand(cfg, s.journal, stored, command);
    }
  }

  /** Nor is a venue's event, as long as its account is configured to publish. */
  lemma VenueEventsAreTaken(cfg: Config, moves: seq<Move>, event: TradeEvent, now: I64, accepted: set<string>)
    requires Sound(cfg) && CanRun(cfg, moves)
    requires event.sourceAccountId in cfg.accounts && cfg.accounts[event.sourceAccountId].canPublish
    ensures FrameEffects(cfg, Run(cfg, moves), event.sourceAccountId, Event(event), now, accepted).Success?
  {
    RunsKeepInv(cfg, moves);
    var s := Run(cfg, moves);
    AlwaysConsistent(cfg, s.journal);
    LiveMeaning(s.ledger, Replay(s.journal));
    PlanningNeverFails(cfg, Replay(s.journal), event, now);
  }

  /* The cTrader queue. */

  /** The commands taken from the queue by the steps of a hub, in order. */
  function TakenCommands(steps: seq<CTrader.HubStep>): seq<ExecutionCommand> {
    if steps == [] then []
    else
      var last := steps[|steps| - 1];
      TakenCommands(steps[..|steps| - 1]) + if last.Taking? then [last.command] else []
  }

  /** A queue fed through several channels delivers what was sent, each item at most once; the order
      of different accounts may change. */
  ghost predicate DeliveredFrom(sent: seq<ExecutionCommand>, taken: seq<ExecutionCommand>, at: seq<nat>) {
    && |at| == |taken|
    && (forall i, j :: 0 <= i < j < |at| ==> at[i] != at[j])
    && (forall i :: 0 <= i < |at| ==> at[i] < |sent| && taken[i] == sent[at[i]])
  }

  lemma DeliveredOnce(sent: seq<ExecutionCommand>, taken: seq<ExecutionCommand>, at: seq<nat>)
    requires DeliveredFrom(sent, taken, at) && NoRepeats(Ids(sent))
    ensures NoRepeats(Ids(taken))
  {
    forall i, j | 0 <= i < j < |taken|
      ensures Ids(taken)[i] != Ids(taken)[j]
    {
      assert Ids(sent)[at[i]] != Ids(sent)[at[j]];
    }
  }

  lemma {:induction false} TakenFromList(known: set<string>, steps: seq<CTrader.HubStep>, id: string)
    requires NoRepeats(Ids(TakenCommands(steps)))
    ensures CTrader.TimesTaken(known, steps, id) <= if id in Ids(TakenCommands(steps)) then 1 else 0
  {
    if steps != [] {
      var init, last := steps[..|steps| - 1], steps[|steps| - 1];
      if last.Taking? {
        var all := TakenCommands(steps);
        assert all[..|all| - 1] == TakenCommands(init) && all[|all| - 1] == last.command;
        NoRepeatsSnoc(all);
        IdsSnoc(all);
      } else {
        assert TakenCommands(steps) == TakenCommands(init);
      }
      TakenFromList(known, init, id);
    }
  }

  /** What the daemon sends to a hub's accounts is what the hub's bookkeeping needs: no id twice,
      none that looks like a protection id. */
  lemma HubQueueIsDeliverable(cfg: Config, moves: seq<Move>, known: set<string>, steps: seq<CTrader.HubStep>, at: seq<nat>)
    requires Sound(cfg) && CanRun(cfg, moves) && DeliveredFrom(Run(cfg, moves).sent, TakenCommands(steps), at)
    requires forall step <- steps :: step.Taking? ==> step.command in Run(cfg, moves).sent && step.command.targetAccountId in known
    ensures CTrader.Deliverable(known, steps)
  {
    RunsKeepInv(cfg, moves);
    OnlyPlannedSent(cfg, moves);
    DeliveredOnce(Run(cfg, moves).sent, TakenCommands(steps), at);
    forall id: string
      ensures CTrader.TimesTaken(known, steps, id) <= 1
    {
      TakenFromList(known, steps, id);
    }
    forall step | step in steps && step.Taking?
      ensures CTrader.Plain(step.command.commandId)
    {
      PlannedGenuine(cfg, Run(cfg, moves).journal, step.command);
      CTrader.HexIsPlain(cfg.digest, step.command.originEventId, step.command.routeId, step.command.targetAccountId);
    }
  }

  lemma PlannedGenuine(cfg: Config, journal: seq<JournalRecord>, c: ExecutionCommand)
    requires Sound(cfg) && WellFormed(cfg, journal) && Planned(journal, c)
    ensures Genuine(cfg, c)
  {
    var i :| 0 <= i < |journal| && journal[i].EventPlanned? && c in journal[i].commands;
    WellFormedPrefix(cfg, journal, i);
    PlanGenuine(cfg, Replay(journal[..i]), journal[i]);
  }

  /* Commands on the wire. */

  predicate TextsPresent(c: ExecutionCommand) {
    && c.commandId != "" && c.originEventId != "" && c.routeId != "" && c.sourceAccountId != ""
    && c.sourceOrderId != "" && c.targetAccountId != "" && c.symbol != ""
  }

  predicate FiniteNumbers(format: Wire.NumberFormat, c: ExecutionCommand) {
    && format.finite(c.volume) && format.finite(c.sourceVolume) && format.Carries(c.sourceRemainingVolume)
    && format.Carries(c.price) && format.Carries(c.stopLoss) && format.Carries(c.takeProfit)
  }

  lemma TargetSymbolFilled(route: RouteRule, symbol: string)
    requires route.Usable() && symbol != ""
    ensures route.TargetSymbol(symbol) != ""
  {
    if symbol in route.symbolMap {
      assert !Blank(route.symbolMap[symbol]);
    }
  }

  lemma IdFilled(digest: Digest, eventId: string, routeId: string, target: string)
    requires forall text :: digest(text) != []
    ensures Keys.CommandId(digest, eventId, routeId, target) != ""
  {
  }

  lemma MadeFilled(cfg: Config, mirrors: map<string, MirrorBinding>, event: TradeEvent, now: I64, route: RouteRule, c: ExecutionCommand)
    requires route.Usable() && event.Validate().Success? && (forall text :: cfg.digest(text) != [])
    requires Made(cfg.digest, mirrors, event, now, route, c)
    ensures TextsPresent(c)
  {
    IdFilled(cfg.digest, event.eventId, route.id, route.targetAccountId);
    TargetSymbolFilled(route, event.symbol);
  }

  lemma PlannedFilled(cfg: Config, journal: seq<JournalRecord>, c: ExecutionCommand)
    requires Sound(cfg) && WellFormed(cfg, journal) && Planned(journal, c) && forall text :: cfg.digest(text) != []
    ensures TextsPresent(c) && Genuine(cfg, c)
  {
    var i :| 0 <= i < |journal| && journal[i].EventPlanned? && c in journal[i].commands;
    WellFormedPrefix(cfg, journal, i);
    var mirrors := Replay(journal[..i]).mirrors;
    PlanGenuine(cfg, Replay(journal[..i]), journal[i]);
    var event, now :| PlannedBy(cfg, mirrors, journal[i], event, now);
    PlanMakes(cfg.digest, ForSource(cfg.routes, event.sourceAccountId), mirrors, event, now);
    var route :| route in ForSource(cfg.routes, event.sourceAccountId) && Made(cfg.digest, mirrors, event, now, route, c);
    MadeFilled(cfg, mirrors, event, now, route, c);
  }

  lemma HexIsClean(digest: Digest, eventId: string, routeId: string, target: string)
    ensures Text.Clean(Keys.CommandId(digest, eventId, routeId, target))
  {
    var id := Keys.CommandId(digest, eventId, routeId, target);
    assert forall k :: 0 <= k < |id| ==> id[k] in Keys.HEX_DIGITS;
    assert Text.TAB !in Keys.HEX_DIGITS && Text.CR !in Keys.HEX_DIGITS && Text.LF !in Keys.HEX_DIGITS;
  }

  /** Every command ever sent to an agent can be read by it, if and only if its numbers are finite;
      the id it will be acknowledged under arrives unchanged. */
  lemma SentCommandsDecode(cfg: Config, format: Wire.NumberFormat, moves: seq<Move>, c: ExecutionCommand)
    requires Sound(cfg) && CanRun(cfg, moves) && format.Lawful() && (forall text :: cfg.digest(text) != [])
    requires c in Run(cfg, moves).sent
    ensures Wire.ParseServer(format, Wire.EncodeServer(format, Command(c))) == Success(Command(Wire.CarriedCommand(c)))
       <==> FiniteNumbers(format, c)
    ensures Wire.CarriedCommand(c).commandId == c.commandId
  {
    hide Wire.ParseServer, Wire.EncodeServer, Text.Clean, Wire.NumberFormat.Lawful;
    RunsKeepInv(cfg, moves);
    OnlyPlannedSent(cfg, moves);
    PlannedFilled(cfg, Run(cfg, moves).journal, c);
    RoundTrip.ServerRoundTrip(format, Command(c));
    HexIsClean(cfg.digest, c.originEventId, c.routeId, c.targetAccountId);
    Text.SanitiseCleans(c.commandId);
  }

  /* Echoes. */

  predicate Alphanumeric(c: char) {
    'a' <= c <= 'z' || 'A' <= c <= 'Z' || '0' <= c <= '9'
  }

  function Compact(text: string): string {
    if text == "" then ""
    else Compact(text[..|text| - 1]) + if Alphanumeric(text[|text| - 1]) then [text[|text| - 1]] else ""
  }

  /** The client id under which the MetaApi venue places an order. */
  function ClientId(commandId: string): string {
    var all := Compact(commandId);
    var compact := if |all| > 20 then all[..20] else all;
    var at := if |compact| < 10 then |compact| else 10;
    "CR_" + compact[..at] + "_" + if compact[at..] == "" then "0" else compact[at..]
  }

  /** The label under which the cTrader hub places an order, and what it reads from one. */
  function Label(commandId: string): string {
    "CopierR:" + commandId
  }

  function OriginOf(text: string): Option<string> {
    if "CopierR:" <= text then Some(text[8..]) else None
  }

  lemma OwnOrdersAreMarked(commandId: string)
    ensures MetaApi.Origin(Some(ClientId(commandId))) == Some(ClientId(commandId))
    ensures OriginOf(Label(commandId)) == Some(commandId)
  {
    assert Label(commandId)[8..] == commandId;
    assert ClientId(commandId)[..3] == "CR_";
  }

  lemma {:induction false} CompactKeeps(text: string)
    requires forall c <- text :: Alphanumeric(c)
    ensures Compact(text) == text
  {
    if text != "" {
      var init := text[..|text| - 1];
      assert text[|text| - 1] in text && forall c <- init :: c in text;
      CompactKeeps(init);
      assert init + [text[|text| - 1]] == text;
    }
  }

  lemma HexIsAlphanumeric(id: string)
    requires forall c <- id :: c in Keys.HEX_DIGITS
    ensures forall c <- id :: Alphanumeric(c)
  {
    assert forall i :: 0 <= i < 16 ==> Alphanumeric(Keys.HEX_DIGITS[i]);
  }

  /** A client id carries the first twenty digits of a hexadecimal command id in two halves, so two
      orders share one exactly when those digits agree. */
  lemma ClientIdCarriesTwentyDigits(a: string, b: string)
    requires |a| >= 20 && |b| >= 20 && (forall c <- a :: c in Keys.HEX_DIGITS) && (forall c <- b :: c in Keys.HEX_DIGITS)
    ensures ClientId(a) == "CR_" + a[..10] + "_" + a[10..20]
    ensures ClientId(a) == ClientId(b) <==> a[..20] == b[..20]
  {
    TwoHalves(a);
    TwoHalves(b);
    hide ClientId;
    if ClientId(a) == ClientId(b) {
      assert ClientId(a)[3..13] == a[..10] && ClientId(b)[3..13] == b[..10];
      assert ClientId(a)[14..] == a[10..20] && ClientId(b)[14..] == b[10..20];
      assert a[..20] == a[..10] + a[10..20] && b[..20] == b[..10] + b[10..20];
    } else {
      assert a[..10] == a[..20][..10] && a[10..20] == a[..20][10..] && b[..10] == b[..20][..10] && b[10..20] == b[..20][10..];
    }
  }

  lemma TwoHalves(id: string)
    requires |id| >= 20 && forall c <- id :: c in Keys.HEX_DIGITS
    ensures ClientId(id) == "CR_" + id[..10] + "_" + id[10..20]
  {
    HexIsAlphanumeric(id);
    CompactKeeps(id);
    assert (if |id| > 20 then id[..20] else id) == id[..20];
    assert id[..20][..10] == id[..10] && id[..20][10..] == id[10..20];
  }

  /** What a MetaApi account shows of a position the daemon itself opened there is never copied,
      unless the account is configured to rebroadcast. */
  lemma NoMetaApiEcho(cfg: Config, s: System, account: MetaApi.Account, commandId: string, p: MetaApi.Position,
                      change: Positions.Change, now: I64, accepted: set<string>)
    requires cfg.Usable() && account.id in cfg.accounts && cfg.accounts[account.id].canPublish
    requires !cfg.accounts[account.id].allowRebroadcast
    requires p.clientId == Some(ClientId(commandId)) && MetaApi.ToEvent(account, p, change, now).Success?
    ensures EventEffects(cfg, s, MetaApi.ToEvent(account, p, change, now).value, now, accepted) == Success([])
  {
    hide MetaApi.EventId, ClientId;
    OwnOrdersAreMarked(commandId);
  }

  lemma NoCTraderEcho(cfg: Config, s: System, runtime: CTraderHub.AccountRuntime, commandId: string, p: CTrader.Snapshot,
                      change: Positions.Change, now: I64, accepted: set<string>)
    requires cfg.Usable() && runtime.account in cfg.accounts && cfg.accounts[runtime.account].canPublish
    requires !cfg.accounts[runtime.account].allowRebroadcast
    requires p.originCommandId == OriginOf(Label(commandId))
    ensures EventEffects(cfg, s, CTraderHub.EventOf(runtime, p, change, now), now, accepted) == Success([])
  {
    OwnOrdersAreMarked(commandId);
  }
}
