/** What a frame leads to (crates/copier-daemon/src/runtime.rs), in any state a run can reach: which frames
    are refused, what becomes of each planned command, and what an acknowledgement settles. */
module Outcomes {
  import opened Wrappers
  import opened Model
  import opened Routing
  import opened Journal
  import opened Handlers
  import opened History
  import opened Runs
  import opened Safety
  import opened MirrorBook
  import opened Commands

  /* Refusals. */

  /** Why a frame is refused, if it is. */
  function Objection(cfg: Config, s: System, connected: string, frame: AgentFrame): Option<FrameError> {
    match frame
    case Hello(_) => Some(HelloNotFirst)
    case Ping(_) => None
    case Event(event) =>
      if event.sourceAccountId != connected then Some(AccountMismatch)
      else if connected !in cfg.accounts then Some(UnknownSource)
      else if !cfg.accounts[connected].canPublish then Some(NotPermitted)
      else None
    case Ack(ack) =>
      if ack.accountId != connected then Some(AccountMismatch)
      else if ack.commandId in s.ledger.commands && s.ledger.commands[ack.commandId].command.targetAccountId != connected
      then Some(AckTargetMismatch)
      else None
  }

  lemma LiveIsHistorical(cfg: Config, s: System)
    requires Sound(cfg) && Ready(cfg, s)
    ensures Historical(Fills(s.journal), s.ledger.mirrors)
  {
    hide WellFormed, SentOnce, Historical;
    LiveMeaning(s.ledger, Replay(s.journal));
    BookIsHistorical(cfg, s.journal);
  }

  lemma LivePlanned(cfg: Config, s: System, event: TradeEvent, now: I64)
    requires Sound(cfg) && Ready(cfg, s)
    ensures PlanEvent(cfg, s.ledger.mirrors, event, now).Success?
  {
    hide WellFormed, SentOnce, Genuine, PlanEvent;
    LiveMeaning(s.ledger, Replay(s.journal));
    AlwaysConsistent(cfg, s.journal);
    PlanningNeverFails(cfg, Replay(s.journal), event, now);
  }

  /** Frames are refused for these reasons and no other, planning errors included, and a refused frame
      changes nothing. */
  lemma FramesRefused(cfg: Config, s: System, connected: string, frame: AgentFrame, now: I64, accepted: set<string>)
    requires Sound(cfg) && Ready(cfg, s)
    ensures var effects, objection := FrameEffects(cfg, s, connected, frame, now, accepted), Objection(cfg, s, connected, frame);
            && (effects.Failure? <==> objection.Some?)
            && (objection.Some? ==> effects.error == objection.value
                                    && After(cfg, s, Complete(Frame(connected, frame, now, accepted))) == s)
  {
    hide Ready, PlanEvent, DispatchAll;
    if frame.Event? {
      LivePlanned(cfg, s, frame.event, now);
    }
  }

  /* Events. */

  /** The event is in its account's name, may be published and copied, and was not handled before. */
  predicate Fresh(cfg: Config, s: System, connected: string, event: TradeEvent) {
    && event.sourceAccountId == connected && connected in cfg.accounts && cfg.accounts[connected].canPublish
    && (event.originCommandId.None? || cfg.accounts[connected].allowRebroadcast)
    && event.eventId !in s.ledger.seen
  }

  /** What a planned command has become: queued where its account is not connected, else sent, or
      unknown if the channel was closed. */
  ghost predicate Delivered(s: System, after: System, c: ExecutionCommand, accepted: set<string>) {
    && c.commandId in after.ledger.commands && after.ledger.commands[c.commandId].command == c
    && after.ledger.commands[c.commandId].state ==
         if c.targetAccountId !in s.sessions then Queued
         else if c.commandId in accepted then Dispatched else StoredCommandState.Unknown
  }

  /** The commands that are sent, in order. */
  function Pushed(sessions: map<string, nat>, commands: seq<ExecutionCommand>, accepted: set<string>): seq<ExecutionCommand> {
    if commands == [] then []
    else
      var last := commands[|commands| - 1];
      Pushed(sessions, commands[..|commands| - 1], accepted)
      + if last.targetAccountId in sessions && last.commandId in accepted then [last] else []
  }

  lemma {:induction false} DispatchingSends(s: System, commands: seq<ExecutionCommand>, accepted: set<string>)
    ensures DispatchedMany(s, commands, accepted).sent == s.sent + Pushed(s.sessions, commands, accepted)
    ensures s.journal <= DispatchedMany(s, commands, accepted).journal
  {
    if commands != [] {
      var init := commands[..|commands| - 1];
      DispatchingSends(s, init, accepted);
      DispatchedManyFrame(s, init, accepted);
    }
  }

  lemma {:induction false} Waits(s: System, commands: seq<ExecutionCommand>, accepted: set<string>, c: ExecutionCommand)
    requires IsQueued(s, c) && c.targetAccountId !in s.sessions && NoRepeats(Ids(commands)) && c in commands
    ensures IsQueued(DispatchedMany(s, commands, accepted), c)
  {
    hide NoRepeats;
    var init, last := commands[..|commands| - 1], commands[|commands| - 1];
    NoRepeatsSnoc(commands);
    DispatchedManyFrame(s, init, accepted);
    var mid := DispatchedMany(s, init, accepted);
    if c in init {
      Waits(s, init, accepted, c);
      Dispatched1Frame(mid, last, accepted);
    } else {
      NotAmong(init, c);
      StaysQueued(s, mid, Ids(init), c);
    }
  }

  lemma NotAmong(commands: seq<ExecutionCommand>, c: ExecutionCommand)
    requires forall other <- commands :: other.commandId != c.commandId
    ensures c.commandId !in Ids(commands)
  {
  }

  lemma EachDelivered(s: System, commands: seq<ExecutionCommand>, accepted: set<string>)
    requires NoRepeats(Ids(commands)) && forall c <- commands :: IsQueued(s, c)
    ensures forall c <- commands :: Delivered(s, DispatchedMany(s, commands, accepted), c, accepted)
  {
    hide NoRepeats, DispatchedMany, Touches;
    var after := DispatchedMany(s, commands, accepted);
    DispatchedManyFrame(s, commands, accepted);
    forall c | c in commands
      ensures Delivered(s, after, c, accepted)
    {
      assert IsQueued(s, c);
      SameCommand(s, after, Ids(commands), c);
      if c.targetAccountId in s.sessions {
        FlushTakes(s, commands, accepted, c);
      } else {
        Waits(s, commands, accepted, c);
      }
    }
  }

  lemma SameCommand(s: System, after: System, ids: seq<string>, c: ExecutionCommand)
    requires Touches(s, after, ids) && IsQueued(s, c)
    ensures c.commandId in after.ledger.commands && after.ledger.commands[c.commandId].command == c
  {
  }

  /** The commands a handled event led to. */
  ghost predicate Copied(cfg: Config, s: System, after: System, event: TradeEvent, now: I64, accepted: set<string>, planned: seq<ExecutionCommand>)
    requires cfg.Usable()
  {
    && CopyOf(cfg, Fills(s.journal), event, now, planned)
    && s.journal + [EventPlanned(event.eventId, planned)] <= after.journal
    && after.ledger.seen == s.ledger.seen + {event.eventId} && after.ledger.mirrors == s.ledger.mirrors && after.sessions == s.sessions
    && after.sent == s.sent + Pushed(s.sessions, planned, accepted)
    && (forall c <- planned :: Delivered(s, after, c, accepted) && c.commandId !in s.ledger.commands)
    && (forall id <- s.ledger.commands :: id in after.ledger.commands && after.ledger.commands[id] == s.ledger.commands[id])
    && (forall id <- after.ledger.commands :: id in s.ledger.commands || id in Ids(planned))
  }

  lemma FreshIsPlanned(cfg: Config, s: System, connected: string, event: TradeEvent, now: I64, accepted: set<string>, planned: seq<ExecutionCommand>)
    requires cfg.Usable() && Fresh(cfg, s, connected, event) && PlanEvent(cfg, s.ledger.mirrors, event, now) == Success(planned)
    ensures After(cfg, s, Complete(Frame(connected, Event(event), now, accepted)))
         == Exec(cfg.durability, s, Log(EventPlanned(event.eventId, planned)) + DispatchAll(s.sessions, planned, accepted))
  {
    hide RouteRule.Usable, PlanEvent, DispatchAll, Log, Exec;
  }

  lemma StaleIsIgnored(cfg: Config, s: System, connected: string, event: TradeEvent, now: I64, accepted: set<string>)
    requires cfg.Usable() && !Fresh(cfg, s, connected, event)
    ensures After(cfg, s, Complete(Frame(connected, Event(event), now, accepted))) == s
  {
    hide RouteRule.Usable, PlanEvent, DispatchAll, Log;
  }

  /** A validated event that is fresh is copied to its routes, its commands journaled before any is
      sent; one that is not changes nothing. */
  lemma EventsAreCopied(cfg: Config, s: System, connected: string, event: TradeEvent, now: I64, accepted: set<string>)
    requires Sound(cfg) && Ready(cfg, s) && event.Validate().Success?
    ensures var after := After(cfg, s, Complete(Frame(connected, Event(event), now, accepted)));
            if Fresh(cfg, s, connected, event) then exists planned :: Copied(cfg, s, after, event, now, accepted, planned)
            else after == s
  {
    hide Ready, PlanEvent, CopyOf, Historical, Copied, After, RouteRule.Usable;
    if Fresh(cfg, s, connected, event) {
      LivePlanned(cfg, s, event, now);
      var planned := PlanEvent(cfg, s.ledger.mirrors, event, now).value;
      LiveIsHistorical(cfg, s);
      PlanCopies(cfg, Fills(s.journal), s.ledger.mirrors, event, now);
      PlannedAreDelivered(cfg, s, event, now, accepted, planned);
      FreshIsPlanned(cfg, s, connected, event, now, accepted, planned);
    } else {
      StaleIsIgnored(cfg, s, connected, event, now, accepted);
    }
  }

  lemma PlannedAreDelivered(cfg: Config, s: System, event: TradeEvent, now: I64, accepted: set<string>, planned: seq<ExecutionCommand>)
    requires Sound(cfg) && Ready(cfg, s) && event.Validate().Success? && event.eventId !in s.ledger.seen
    requires PlanEvent(cfg, s.ledger.mirrors, event, now) == Success(planned)
    requires CopyOf(cfg, Fills(s.journal), event, now, planned)
    ensures Copied(cfg, s, Exec(cfg.durability, s, Log(EventPlanned(event.eventId, planned)) + DispatchAll(s.sessions, planned, accepted)),
                   event, now, accepted, planned)
  {
    hide Ready, PlanEvent, DispatchAll, CopyOf, Fills, Log, NoRepeats, IsQueued, Delivered, RouteRule.Usable;
    var record := EventPlanned(event.eventId, planned);
    var logged := s.(journal := s.journal + [record], ledger := Applied(s.ledger, record));
    EventLegal(cfg, s, event, now, accepted, planned);
    EnqueueKeys(s.ledger.commands, planned);
    DispatchedManyFrame(logged, planned, accepted);
    DispatchingSends(logged, planned, accepted);
    EachDelivered(logged, planned, accepted);
    DeliveredSince(s, logged, DispatchedMany(logged, planned, accepted), planned, accepted);
    NewAreNotAmong(s, planned);
  }

  lemma DeliveredSince(s: System, logged: System, after: System, planned: seq<ExecutionCommand>, accepted: set<string>)
    requires s.sessions == logged.sessions && forall c <- planned :: Delivered(logged, after, c, accepted)
    ensures forall c <- planned :: Delivered(s, after, c, accepted)
  {
    forall c | c in planned
      ensures Delivered(s, after, c, accepted)
    {
      assert Delivered(logged, after, c, accepted);
    }
  }

  lemma NewAreNotAmong(s: System, planned: seq<ExecutionCommand>)
    requires forall c <- planned :: c.commandId !in s.ledger.commands
    ensures forall id <- s.ledger.commands :: id !in Ids(planned)
    ensures forall id <- (set c <- planned :: c.commandId) :: id in Ids(planned)
  {
    forall c | c in planned
      ensures c.commandId in Ids(planned)
    {
      var i :| 0 <= i < |planned| && planned[i] == c;
      assert Ids(planned)[i] == c.commandId;
    }
  }

  /* Acknowledgements. */

  /** The outcome stays open: the target does not know it, or filled an open without naming the order. */
  predicate Undecided(c: ExecutionCommand, ack: ExecutionAck) {
    || ack.status == AckStatus.Unknown
    || (ack.status != Rejected && c.action == Open && ack.externalId.None?)
  }

  /** How a fill moves the book: an open binds its position to the reported order with its volumes, a
      reduce takes its volume off a bound one, a close unbinds it, and nothing else changes. */
  ghost predicate Moves(before: map<string, MirrorBinding>, after: map<string, MirrorBinding>, c: ExecutionCommand, ack: ExecutionAck) {
    var key := c.Key();
    && (forall other :: other != key ==> Lookup(after, other) == Lookup(before, other))
    && match c.action
       case Modify => Lookup(after, key) == Lookup(before, key)
       case Close => key !in after
       case Open =>
         && key in after && ack.externalId == Some(after[key].targetOrderId)
         && after[key].targetOpenVolume == after[key].targetRemainingVolume == c.volume
         && after[key].sourceOpenVolume == c.sourceVolume
       case Reduce =>
         && (key in after <==> key in before)
         && (key in before ==>
               && after[key].targetOrderId == before[key].targetOrderId
               && after[key].targetOpenVolume == before[key].targetOpenVolume
               && after[key].sourceOpenVolume == before[key].sourceOpenVolume
               && after[key].targetRemainingVolume == Max(before[key].targetRemainingVolume - c.volume, 0.0))
  }

  /** An acknowledgement of an outstanding command settles it, or leaves it unknown if the outcome
      stays open. Fills alone move the book. Nothing else changes, and nothing is sent. */
  lemma AcksSettle(cfg: Config, s: System, ack: ExecutionAck, now: I64)
    requires Sound(cfg) && Ready(cfg, s) && ack.commandId in s.ledger.commands
    requires s.ledger.commands[ack.commandId].command.targetAccountId == ack.accountId
    ensures var after := After(cfg, s, Complete(Frame(ack.accountId, Ack(ack), now, {})));
            var id, c := ack.commandId, s.ledger.commands[ack.commandId].command;
            && after.sessions == s.sessions && after.sent == s.sent && after.ledger.seen == s.ledger.seen
            && after.ledger.commands == (if Undecided(c, ack) then s.ledger.commands[id := StoredCommand(c, StoredCommandState.Unknown)]
                                         else s.ledger.commands - {id})
            && (if Undecided(c, ack) || ack.status == Rejected then after.ledger.mirrors == s.ledger.mirrors
                else Moves(s.ledger.mirrors, after.ledger.mirrors, c, ack))
  {
    hide Ready, Applied, AckRecord, Moves, Do, Exec, Log;
    var c := s.ledger.commands[ack.commandId].command;
    var record := AckRecord(s.ledger.mirrors, c, ack);
    LiveUnderIds(cfg, s);
    LiveKeyed(cfg, s);
    ReadyIsIdle(cfg, s);
    LogExec(cfg, s, record);
    LogSends(cfg.durability, s, record);
    AckMoves(s.ledger, c, ack);
  }

  lemma ReadyIsIdle(cfg: Config, s: System)
    requires cfg.Usable() && Ready(cfg, s)
    ensures s.pending.None?
  {
  }

  lemma LiveKeyed(cfg: Config, s: System)
    requires Sound(cfg) && Ready(cfg, s)
    ensures forall k <- s.ledger.mirrors :: s.ledger.mirrors[k].BindingKey() == k
  {
    LiveMeaning(s.ledger, Replay(s.journal));
    KeyedBook(cfg, s.journal);
  }

  lemma LogSends(durability: Durability, s: System, record: JournalRecord)
    ensures Exec(durability, s, Log(record)).sent == s.sent
  {
    ExecOne(durability, s, Append(record));
    ExecOne(durability, Do(durability, s, Append(record)), Apply(record));
    assert Log(record) == [Append(record)] + [Apply(record)];
    ExecConcat(durability, s, [Append(record)], [Apply(record)]);
  }

  lemma AckMoves(s: Ledger, c: ExecutionCommand, ack: ExecutionAck)
    requires ack.commandId in s.commands && s.commands[ack.commandId].command == c && c.commandId == ack.commandId
    requires forall k <- s.mirrors :: s.mirrors[k].BindingKey() == k
    ensures var after, id := Applied(s, AckRecord(s.mirrors, c, ack)), ack.commandId;
            && after.seen == s.seen
            && after.commands == (if Undecided(c, ack) then s.commands[id := StoredCommand(c, StoredCommandState.Unknown)]
                                  else s.commands - {id})
            && (if Undecided(c, ack) || ack.status == Rejected then after.mirrors == s.mirrors
                else Moves(s.mirrors, after.mirrors, c, ack))
  {
    hide MirrorKey;
  }
}
