/** What every journal the daemon can write has in common. A record is admissible when a handler
    could have written it on the state replayed so far; a crash loses nothing that was written,
    so everything here holds across any number of restarts. */
module History {
  import opened Wrappers
  import opened Model
  import opened Routing
  import opened Journal
  import opened Handlers
  import Keys

  /* Hypotheses on the configuration. */

  /** No two routes of one source share both id and target. */
  predicate DistinctRoutes(routes: seq<RouteRule>) {
    forall i, j :: 0 <= i < j < |routes| && routes[i].sourceAccountId == routes[j].sourceAccountId ==>
      routes[i].id != routes[j].id || routes[i].targetAccountId != routes[j].targetAccountId
  }

  predicate NulFree(routes: seq<RouteRule>) {
    forall route <- routes :: Keys.NUL !in route.id && Keys.NUL !in route.targetAccountId
  }

  /** What the safety of sending rests on besides the code. */
  ghost predicate Sound(cfg: Config) {
    cfg.Usable() && cfg.durability != NoDurability && Keys.CollisionFree(cfg.digest) && NulFree(cfg.routes)
    && DistinctRoutes(cfg.routes)
  }

  /* Admissible records. */

  ghost predicate PlannedBy(cfg: Config, mirrors: map<string, MirrorBinding>, record: JournalRecord, event: TradeEvent, now: I64)
    requires cfg.Usable() && record.EventPlanned?
  {
    event.Validate().Success? && event.eventId == record.eventId && PlanEvent(cfg, mirrors, event, now) == Success(record.commands)
  }

  ghost predicate Admissible(cfg: Config, s: Ledger, record: JournalRecord)
    requires cfg.Usable()
  {
    match record
    case EventPlanned(id, _) => id !in s.seen && exists event, now :: PlannedBy(cfg, s.mirrors, record, event, now)
    case CommandDispatched(id) => id in s.commands && s.commands[id].state == Queued
    case CommandUnknown(id) => id in s.commands
    case AckApplied(ack, _) =>
      && ack.commandId in s.commands
      && ack.accountId == s.commands[ack.commandId].command.targetAccountId
      && !Unbookable(s.commands[ack.commandId].command, ack)
      && record == AckRecord(s.mirrors, s.commands[ack.commandId].command, ack)
  }

  ghost predicate WellFormed(cfg: Config, journal: seq<JournalRecord>)
    requires cfg.Usable()
  {
    journal != [] ==>
      WellFormed(cfg, journal[..|journal| - 1]) && Admissible(cfg, Replay(journal[..|journal| - 1]), journal[|journal| - 1])
  }

  lemma {:induction false} WellFormedPrefix(cfg: Config, journal: seq<JournalRecord>, n: nat)
    requires cfg.Usable() && WellFormed(cfg, journal) && n <= |journal|
    ensures WellFormed(cfg, journal[..n])
    ensures n < |journal| ==> Admissible(cfg, Replay(journal[..n]), journal[n])
  {
    if n < |journal| {
      var init := journal[..|journal| - 1];
      WellFormedPrefix(cfg, init, n);
      assert init[..n] == journal[..n];
    } else {
      assert journal[..n] == journal;
    }
  }

  /* What a plan contains. */

  /** The command is what `route` makes of the event. */
  ghost predicate Made(digest: Digest, mirrors: map<string, MirrorBinding>, event: TradeEvent, now: I64, route: RouteRule, command: ExecutionCommand)
    requires route.Usable()
  {
    Build(digest, mirrors, event, route, now) == Success(Some(command))
  }

  lemma {:induction false} PlanMakes(digest: Digest, routes: seq<RouteRule>, mirrors: map<string, MirrorBinding>, event: TradeEvent, now: I64)
    requires forall route <- routes :: route.Usable()
    requires Plan(digest, routes, mirrors, event, now).Success?
    ensures forall c <- Plan(digest, routes, mirrors, event, now).value ::
              exists route <- routes :: Made(digest, mirrors, event, now, route, c)
  {
    if routes != [] {
      var init, last := routes[..|routes| - 1], routes[|routes| - 1];
      PlanMakes(digest, init, mirrors, event, now);
      forall c | c in Plan(digest, routes, mirrors, event, now).value
        ensures exists route <- routes :: Made(digest, mirrors, event, now, route, c)
      {
        if c in Plan(digest, init, mirrors, event, now).value {
          var route :| route in init && Made(digest, mirrors, event, now, route, c);
          assert route in routes;
        } else {
          assert Made(digest, mirrors, event, now, last, c) && last in routes;
        }
      }
    }
  }

  ghost predicate Named(digest: Digest, event: TradeEvent, route: RouteRule, id: string) {
    id == Keys.CommandId(digest, event.eventId, route.id, route.targetAccountId)
  }

  lemma MadeId(digest: Digest, mirrors: map<string, MirrorBinding>, event: TradeEvent, now: I64, route: RouteRule, command: ExecutionCommand)
    requires route.Usable() && Made(digest, mirrors, event, now, route, command)
    ensures Named(digest, event, route, command.commandId)
  {
  }

  lemma DistinctNames(digest: Digest, routes: seq<RouteRule>, event: TradeEvent, i: nat, j: nat, a: string, b: string)
    requires forall route <- routes :: route.sourceAccountId == event.sourceAccountId
    requires Keys.CollisionFree(digest) && NulFree(routes) && DistinctRoutes(routes)
    requires i < j < |routes| && Named(digest, event, routes[i], a) && Named(digest, event, routes[j], b)
    ensures a != b
  {
    Keys.CommandIdInjective(digest, event.eventId, routes[i].id, routes[i].targetAccountId,
                            event.eventId, routes[j].id, routes[j].targetAccountId);
  }

  /** Commands of one plan never share an id. */
  lemma {:induction false} PlanIdsDistinct(digest: Digest, routes: seq<RouteRule>, mirrors: map<string, MirrorBinding>, event: TradeEvent, now: I64)
    requires forall route <- routes :: route.Usable() && route.sourceAccountId == event.sourceAccountId
    requires Keys.CollisionFree(digest) && NulFree(routes) && DistinctRoutes(routes)
    requires Plan(digest, routes, mirrors, event, now).Success?
    ensures NoRepeats(Ids(Plan(digest, routes, mirrors, event, now).value))
  {
    if routes != [] {
      var init, last := routes[..|routes| - 1], routes[|routes| - 1];
      PlanIdsDistinct(digest, init, mirrors, event, now);
      var before := Plan(digest, init, mirrors, event, now).value;
      var all := Plan(digest, routes, mirrors, event, now).value;
      if all != before {
        var command := all[|before|];
        MadeId(digest, mirrors, event, now, last, command);
        forall k | 0 <= k < |before|
          ensures before[k].commandId != command.commandId
        {
          var i := PlannedName(digest, init, mirrors, event, now, before[k]);
          DistinctNames(digest, routes, event, i, |init|, before[k].commandId, command.commandId);
        }
      }
    }
  }

  lemma PlannedName(digest: Digest, routes: seq<RouteRule>, mirrors: map<string, MirrorBinding>, event: TradeEvent, now: I64, c: ExecutionCommand)
    returns (i: nat)
    requires forall route <- routes :: route.Usable()
    requires Plan(digest, routes, mirrors, event, now).Success? && c in Plan(digest, routes, mirrors, event, now).value
    ensures i < |routes| && Named(digest, event, routes[i], c.commandId)
  {
    PlanMakes(digest, routes, mirrors, event, now);
    var route :| route in routes && Made(digest, mirrors, event, now, route, c);
    MadeId(digest, mirrors, event, now, route, c);
    i :| 0 <= i < |routes| && routes[i] == route;
  }

  lemma {:induction false} ForSourceDistinct(routes: seq<RouteRule>, source: string)
    requires DistinctRoutes(routes)
    ensures DistinctRoutes(ForSource(routes, source))
  {
    if routes != [] {
      var init, last := routes[..|routes| - 1], routes[|routes| - 1];
      assert DistinctRoutes(init);
      ForSourceDistinct(init, source);
      if last.sourceAccountId == source {
        var r := ForSource(init, source);
        forall i | 0 <= i < |r|
          ensures r[i].id != last.id || r[i].targetAccountId != last.targetAccountId
        {
          assert r[i] in init;
          var k :| 0 <= k < |init| && init[k] == r[i];
          assert routes[k] == r[i] && routes[|routes| - 1] == last;
        }
      }
    }
  }

  /* Consistency of the replayed state. */

  /** The command's id is the one its event and route give it. */
  ghost predicate Authentic(cfg: Config, command: ExecutionCommand) {
    command.commandId == Keys.CommandId(cfg.digest, command.originEventId, command.routeId, command.targetAccountId)
  }

  ghost predicate FromRoute(command: ExecutionCommand, route: RouteRule) {
    route.id == command.routeId && route.sourceAccountId == command.sourceAccountId && route.targetAccountId == command.targetAccountId
  }

  ghost predicate Sized(command: ExecutionCommand) {
    && (command.action == Open ==> command.sourceVolume > 0.0)
    && (command.action == Open || command.action == Reduce ==> command.volume > 0.0)
    && (command.action != Open ==> command.targetOrderId.Some?)
  }

  ghost predicate Genuine(cfg: Config, command: ExecutionCommand) {
    Authentic(cfg, command) && Sized(command) && exists route <- cfg.routes :: FromRoute(command, route)
  }

  lemma MadeGenuine(cfg: Config, mirrors: map<string, MirrorBinding>, event: TradeEvent, now: I64, route: RouteRule, command: ExecutionCommand)
    requires cfg.Usable() && route in cfg.routes && route.sourceAccountId == event.sourceAccountId
    requires event.Validate().Success? && Made(cfg.digest, mirrors, event, now, route, command)
    ensures Genuine(cfg, command) && command.originEventId == event.eventId && FromRoute(command, route)
  {
  }

  /** Every command of an admissible plan is genuine, stems from its event, and no two share an id. */
  lemma PlanGenuine(cfg: Config, s: Ledger, record: JournalRecord)
    requires Sound(cfg) && record.EventPlanned? && Admissible(cfg, s, record)
    ensures forall c <- record.commands :: Genuine(cfg, c) && c.originEventId == record.eventId
    ensures NoRepeats(Ids(record.commands))
  {
    var event, now :| PlannedBy(cfg, s.mirrors, record, event, now);
    var routes := ForSource(cfg.routes, event.sourceAccountId);
    PlanMakes(cfg.digest, routes, s.mirrors, event, now);
    forall c | c in record.commands
      ensures Genuine(cfg, c) && c.originEventId == record.eventId
    {
      var route :| route in routes && Made(cfg.digest, s.mirrors, event, now, route, c);
      MadeGenuine(cfg, s.mirrors, event, now, route, c);
    }
    ForSourceDistinct(cfg.routes, event.sourceAccountId);
    PlanIdsDistinct(cfg.digest, routes, s.mirrors, event, now);
  }

  ghost predicate Held(cfg: Config, seen: set<string>, id: string, command: ExecutionCommand) {
    command.commandId == id && Genuine(cfg, command) && command.originEventId in seen
  }

  ghost predicate Booked(key: string, binding: MirrorBinding) {
    binding.BindingKey() == key && binding.sourceOpenVolume > 0.0
  }

  ghost predicate Consistent(cfg: Config, s: Ledger) {
    && (forall id <- s.commands :: Held(cfg, s.seen, id, s.commands[id].command))
    && (forall key <- s.mirrors :: Booked(key, s.mirrors[key]))
  }

  /** What an acknowledgement books: the binding of the acknowledged command's key. */
  lemma AckBooks(cfg: Config, s: Ledger, record: JournalRecord)
    requires cfg.Usable() && Consistent(cfg, s) && record.AckApplied? && Admissible(cfg, s, record)
    ensures record.mirror.Some? ==> record.mirror.value.Key() == s.commands[record.ack.commandId].command.Key()
    ensures record.mirror.Some? && record.mirror.value.Upsert? ==> record.mirror.value.binding.sourceOpenVolume > 0.0
  {
    var command := s.commands[record.ack.commandId].command;
    assert Held(cfg, s.seen, record.ack.commandId, command);
    if command.action == Reduce && command.Key() in s.mirrors {
      assert Booked(command.Key(), s.mirrors[command.Key()]);
    }
  }

  /** Every stored command satisfies `p` of its id and itself. */
  ghost predicate AllStored(s: Ledger, p: (string, ExecutionCommand) -> bool) {
    forall id <- s.commands :: p(id, s.commands[id].command)
  }

  ghost predicate AllBooked(s: Ledger, q: (string, MirrorBinding) -> bool) {
    forall key <- s.mirrors :: q(key, s.mirrors[key])
  }

  /** Only plans add commands. */
  lemma AppliedStores(s: Ledger, record: JournalRecord, p: (string, ExecutionCommand) -> bool)
    requires AllStored(s, p)
    requires record.EventPlanned? ==> forall c <- record.commands :: p(c.commandId, c)
    ensures AllStored(Applied(s, record), p)
  {
    if record.EventPlanned? {
      EnqueueKeys(s.commands, record.commands);
    }
  }

  /** Only acknowledgements add bindings, under their own key. */
  lemma AppliedBooks(s: Ledger, record: JournalRecord, q: (string, MirrorBinding) -> bool)
    requires AllBooked(s, q)
    requires record.AckApplied? && record.mirror.Some? && record.mirror.value.Upsert? ==>
               q(record.mirror.value.Key(), record.mirror.value.binding)
    ensures AllBooked(Applied(s, record), q)
  {
  }

  lemma ConsistentStep(cfg: Config, s: Ledger, record: JournalRecord)
    requires Sound(cfg) && Consistent(cfg, s) && Admissible(cfg, s, record)
    ensures Consistent(cfg, Applied(s, record))
  {
    var after := Applied(s, record);
    var p := (id, c) => Held(cfg, after.seen, id, c);
    if record.EventPlanned? {
      PlanGenuine(cfg, s, record);
    }
    assert AllStored(s, p);
    AppliedStores(s, record, p);
    var q := (key, b) => Booked(key, b);
    if record.AckApplied? {
      AckBooks(cfg, s, record);
    }
    AppliedBooks(s, record, q);
  }

  lemma {:induction false} AlwaysConsistent(cfg: Config, journal: seq<JournalRecord>)
    requires Sound(cfg) && WellFormed(cfg, journal)
    ensures Consistent(cfg, Replay(journal))
  {
    if journal != [] {
      AlwaysConsistent(cfg, journal[..|journal| - 1]);
      ConsistentStep(cfg, Replay(journal[..|journal| - 1]), journal[|journal| - 1]);
    }
  }

  /** A validated event never trips over an invalid binding: planning cannot fail. */
  lemma PlanningNeverFails(cfg: Config, s: Ledger, event: TradeEvent, now: I64)
    requires cfg.Usable() && Consistent(cfg, s)
    ensures PlanEvent(cfg, s.mirrors, event, now).Success?
  {
    PlanSucceeds(cfg.digest, ForSource(cfg.routes, event.sourceAccountId), s.mirrors, event, now);
  }

  lemma {:induction false} PlanSucceeds(digest: Digest, routes: seq<RouteRule>, mirrors: map<string, MirrorBinding>, event: TradeEvent, now: I64)
    requires forall route <- routes :: route.Usable()
    requires forall key <- mirrors :: mirrors[key].sourceOpenVolume > 0.0
    ensures Plan(digest, routes, mirrors, event, now).Success?
  {
    if routes != [] {
      PlanSucceeds(digest, routes[..|routes| - 1], mirrors, event, now);
    }
  }

  /* Conservation of commands. */

  function PlannedIds(journal: seq<JournalRecord>): set<string> {
    if journal == [] then {}
    else
      var last := journal[|journal| - 1];
      PlannedIds(journal[..|journal| - 1]) + if last.EventPlanned? then set c <- last.commands :: c.commandId else {}
  }

  /** Ids that received an accepted, filled or rejected acknowledgement. */
  function TerminalIds(journal: seq<JournalRecord>): set<string> {
    if journal == [] then {}
    else
      var last := journal[|journal| - 1];
      TerminalIds(journal[..|journal| - 1])
      + if last.AckApplied? && last.ack.status != AckStatus.Unknown then {last.ack.commandId} else {}
  }

  function DispatchedIds(journal: seq<JournalRecord>): set<string> {
    if journal == [] then {}
    else
      var last := journal[|journal| - 1];
      DispatchedIds(journal[..|journal| - 1]) + if last.CommandDispatched? then {last.commandId} else {}
  }

  /** How often a record of the journal concerns `id` in the given way. */
  function Count(journal: seq<JournalRecord>, id: string, p: (JournalRecord, string) -> bool): nat {
    if journal == [] then 0
    else Count(journal[..|journal| - 1], id, p) + if p(journal[|journal| - 1], id) then 1 else 0
  }

  predicate Plans(record: JournalRecord, id: string) {
    record.EventPlanned? && exists c <- record.commands :: c.commandId == id
  }

  predicate Dispatches(record: JournalRecord, id: string) {
    record == CommandDispatched(id)
  }

  predicate Terminates(record: JournalRecord, id: string) {
    record.AckApplied? && record.ack.status != AckStatus.Unknown && record.ack.commandId == id
  }

  /** Ids planned so far come from events seen so far. */
  ghost predicate PlannedFromSeen(cfg: Config, journal: seq<JournalRecord>) {
    forall id <- PlannedIds(journal) ::
      exists c: ExecutionCommand :: c.commandId == id && Genuine(cfg, c) && c.originEventId in Replay(journal).seen
  }

  lemma IdDeterminesEvent(cfg: Config, a: ExecutionCommand, b: ExecutionCommand)
    requires Sound(cfg) && Genuine(cfg, a) && Genuine(cfg, b) && a.commandId == b.commandId
    ensures a.originEventId == b.originEventId
  {
    Keys.CommandIdInjective(cfg.digest, a.originEventId, a.routeId, a.targetAccountId,
                            b.originEventId, b.routeId, b.targetAccountId);
  }

  /** An admissible plan uses ids nobody planned before. */
  lemma PlanIsFresh(cfg: Config, journal: seq<JournalRecord>, record: JournalRecord)
    requires Sound(cfg) && PlannedFromSeen(cfg, journal)
    requires record.EventPlanned? && Admissible(cfg, Replay(journal), record)
    ensures forall c <- record.commands :: c.commandId !in PlannedIds(journal)
  {
    PlanGenuine(cfg, Replay(journal), record);
    forall c | c in record.commands
      ensures c.commandId !in PlannedIds(journal)
    {
      if c.commandId in PlannedIds(journal) {
        var earlier: ExecutionCommand :| earlier.commandId == c.commandId && Genuine(cfg, earlier) && earlier.originEventId in Replay(journal).seen;
        IdDeterminesEvent(cfg, c, earlier);
      }
    }
  }

  lemma {:induction false} AlwaysPlannedFromSeen(cfg: Config, journal: seq<JournalRecord>)
    requires Sound(cfg) && WellFormed(cfg, journal)
    ensures PlannedFromSeen(cfg, journal)
  {
    if journal != [] {
      var init, last := journal[..|journal| - 1], journal[|journal| - 1];
      AlwaysPlannedFromSeen(cfg, init);
      if last.EventPlanned? {
        PlanGenuine(cfg, Replay(init), last);
      }
      assert Replay(init).seen <= Replay(journal).seen;
    }
  }

  /** A plan adds its commands, all new and all queued. */
  lemma PlanAdds(cfg: Config, init: seq<JournalRecord>, last: JournalRecord)
    requires Sound(cfg) && WellFormed(cfg, init) && last.EventPlanned? && Admissible(cfg, Replay(init), last)
    ensures var after := Applied(Replay(init), last).commands;
            var ids := set c <- last.commands :: c.commandId;
            && ids !! PlannedIds(init)
            && after.Keys == Replay(init).commands.Keys + ids
            && (forall id <- Replay(init).commands :: after[id] == Replay(init).commands[id])
  {
    AlwaysPlannedFromSeen(cfg, init);
    PlanIsFresh(cfg, init, last);
    EnqueueKeys(Replay(init).commands, last.commands);
  }

  /** Every command ever planned is outstanding or terminally acknowledged, never both and never
      lost; nothing else is either. */
  lemma {:induction false} CommandsConserved(cfg: Config, journal: seq<JournalRecord>)
    requires Sound(cfg) && WellFormed(cfg, journal)
    ensures PlannedIds(journal) == Replay(journal).commands.Keys + TerminalIds(journal)
    ensures Replay(journal).commands.Keys !! TerminalIds(journal)
  {
    if journal != [] {
      var init, last := journal[..|journal| - 1], journal[|journal| - 1];
      CommandsConserved(cfg, init);
      if last.EventPlanned? {
        PlanAdds(cfg, init, last);
      }
    }
  }

  ghost predicate QueuedIsFresh(journal: seq<JournalRecord>) {
    forall id <- Replay(journal).commands :: Replay(journal).commands[id].state == Queued ==> id !in DispatchedIds(journal)
  }

  /** A queued command was never dispatched, not even before a crash. */
  lemma {:induction false} QueuedNeverDispatched(cfg: Config, journal: seq<JournalRecord>)
    requires Sound(cfg) && WellFormed(cfg, journal)
    ensures DispatchedIds(journal) <= PlannedIds(journal) && QueuedIsFresh(journal)
  {
    if journal != [] {
      var init, last := journal[..|journal| - 1], journal[|journal| - 1];
      QueuedNeverDispatched(cfg, init);
      CommandsConserved(cfg, init);
      if last.EventPlanned? {
        PlanAdds(cfg, init, last);
      }
    }
  }

  /** No event plans a command that was planned before. */
  lemma {:induction false} PlannedOnce(cfg: Config, journal: seq<JournalRecord>, id: string)
    requires Sound(cfg) && WellFormed(cfg, journal)
    ensures Count(journal, id, Plans) == if id in PlannedIds(journal) then 1 else 0
  {
    if journal != [] {
      var init, last := journal[..|journal| - 1], journal[|journal| - 1];
      PlannedOnce(cfg, init, id);
      if last.EventPlanned? {
        PlanAdds(cfg, init, last);
        assert Plans(last, id) <==> id in set c <- last.commands :: c.commandId;
      }
    }
  }

  /** No command is journaled as dispatched twice. */
  lemma {:induction false} DispatchedOnce(cfg: Config, journal: seq<JournalRecord>, id: string)
    requires Sound(cfg) && WellFormed(cfg, journal)
    ensures Count(journal, id, Dispatches) == if id in DispatchedIds(journal) then 1 else 0
  {
    if journal != [] {
      DispatchedOnce(cfg, journal[..|journal| - 1], id);
      QueuedNeverDispatched(cfg, journal[..|journal| - 1]);
    }
  }

  /** No command is acknowledged terminally twice. */
  lemma {:induction false} TerminatedOnce(cfg: Config, journal: seq<JournalRecord>, id: string)
    requires Sound(cfg) && WellFormed(cfg, journal)
    ensures Count(journal, id, Terminates) == if id in TerminalIds(journal) then 1 else 0
  {
    if journal != [] {
      TerminatedOnce(cfg, journal[..|journal| - 1], id);
      CommandsConserved(cfg, journal[..|journal| - 1]);
    }
  }
}
