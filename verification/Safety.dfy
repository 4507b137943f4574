/** What every run guarantees: nothing is sent twice, nothing is lost, uncertain commands are
    never retried, and dispatched commands belong to live sessions. */
module Safety {
  import opened Wrappers
  import opened Model
  import opened Routing
  import opened Journal
  import opened Handlers
  import opened History
  import opened Runs

  /** No command is ever pushed to a session channel twice, across any number of crashes. */
  lemma SentAtMostOnce(cfg: Config, moves: seq<Move>)
    requires Sound(cfg) && CanRun(cfg, moves)
    ensures NoRepeats(Ids(Run(cfg, moves).sent))
  {
    RunsKeepInv(cfg, moves);
  }

  /** The live state is what replaying the journal gives, up to commands a restart wrote off. */
  lemma LiveAgreesWithJournal(cfg: Config, moves: seq<Move>)
    requires Sound(cfg) && CanRun(cfg, moves)
    ensures WellFormed(cfg, Run(cfg, moves).journal)
    ensures Finalize(Run(cfg, moves).ledger) == Recovered(Run(cfg, moves).journal)
  {
    RunsKeepInv(cfg, moves);
  }

  /** Every command ever planned is queued, dispatched, unknown or terminally acknowledged, and
      only one of these. */
  lemma NothingLost(cfg: Config, moves: seq<Move>)
    requires Sound(cfg) && CanRun(cfg, moves)
    ensures var s := Run(cfg, moves);
            && PlannedIds(s.journal) == s.ledger.commands.Keys + TerminalIds(s.journal)
            && s.ledger.commands.Keys !! TerminalIds(s.journal)
  {
    RunsKeepInv(cfg, moves);
    var s := Run(cfg, moves);
    LiveMeaning(s.ledger, Replay(s.journal));
    CommandsConserved(cfg, s.journal);
  }

  /* Progress of a command. */

  /** Unplanned 0, queued 1, dispatched 2, unknown 3, terminally acknowledged 4. */
  function Rank(s: System, id: string): nat {
    if id in s.ledger.commands then
      match s.ledger.commands[id].state
      case Queued => 1
      case Dispatched => 2
      case Unknown => 3
    else if id in TerminalIds(s.journal) then 4 else 0
  }

  lemma RankAppend(cfg: Config, s: System, record: JournalRecord, id: string)
    requires Sound(cfg) && Inv(cfg, s) && Legal(cfg, s, Append(record))
    ensures Rank(Do(cfg.durability, s, Append(record)), id) == Rank(s, id)
  {
    hide WellFormed, Genuine, SentOnce, Agree;
    LiveMeaning(s.ledger, Replay(s.journal));
    TerminalSnoc(s.journal, record);
    if record.AckApplied? {
      TerminatesStored(cfg, Replay(s.journal), record);
    }
  }

  lemma TerminalSnoc(journal: seq<JournalRecord>, record: JournalRecord)
    ensures TerminalIds(journal + [record])
         == TerminalIds(journal) + if record.AckApplied? && record.ack.status != AckStatus.Unknown then {record.ack.commandId} else {}
  {
    assert (journal + [record])[..|journal|] == journal;
  }

  /** Only outstanding commands are acknowledged. */
  lemma TerminatesStored(cfg: Config, s: Ledger, record: JournalRecord)
    requires cfg.Usable() && Admissible(cfg, s, record) && record.AckApplied?
    ensures record.ack.commandId in s.commands
  {
  }

  lemma EntryProgress(s: Ledger, record: JournalRecord, id: string)
    requires id in s.commands
    requires record.CommandDispatched? && record.commandId == id ==> s.commands[id].state == Queued
    ensures var after := Applied(s, record).commands;
            if id in after then
              after[id].state == s.commands[id].state || after[id].state == StoredCommandState.Unknown
              || (s.commands[id].state == Queued && after[id].state == Dispatched)
            else Terminates(record, id)
  {
    if record.EventPlanned? {
      EnqueueKeys(s.commands, record.commands);
    }
  }

  /** The record in flight moves a command to dispatched only from the queue. */
  lemma PendingFromQueue(cfg: Config, s: System, id: string)
    requires Sound(cfg) && Inv(cfg, s) && s.pending == Some(CommandDispatched(id))
    ensures id in s.ledger.commands && s.ledger.commands[id].state == Queued
  {
    LiveMeaning(s.ledger, Replay(s.journal[..|s.journal| - 1]));
  }

  lemma OutstandingNotTerminal(cfg: Config, s: System)
    requires Sound(cfg) && Ready(cfg, s)
    ensures s.ledger.commands.Keys !! TerminalIds(s.journal)
  {
    LiveMeaning(s.ledger, Replay(s.journal));
    CommandsConserved(cfg, s.journal);
  }

  lemma RankApply(cfg: Config, s: System, record: JournalRecord, id: string)
    requires Sound(cfg) && Inv(cfg, s) && Legal(cfg, s, Apply(record))
    ensures Rank(s, id) <= Rank(Do(cfg.durability, s, Apply(record)), id)
  {
    var after := Do(cfg.durability, s, Apply(record));
    InvStep(cfg, s, Apply(record));
    OutstandingNotTerminal(cfg, after);
    if id in s.ledger.commands {
      if record == CommandDispatched(id) {
        PendingFromQueue(cfg, s, id);
      }
      EntryProgress(s.ledger, record, id);
      LastTerminates(s.journal, id);
    }
  }

  lemma LastTerminates(journal: seq<JournalRecord>, id: string)
    requires journal != []
    ensures Terminates(journal[|journal| - 1], id) ==> id in TerminalIds(journal)
  {
  }

  lemma RankStep(cfg: Config, s: System, effect: Effect, id: string)
    requires Sound(cfg) && Inv(cfg, s) && Legal(cfg, s, effect)
    ensures Rank(s, id) <= Rank(Do(cfg.durability, s, effect), id)
  {
    match effect
    case Append(record) => RankAppend(cfg, s, record, id);
    case Apply(record) => RankApply(cfg, s, record, id);
    case _ =>
  }

  lemma RankRestart(cfg: Config, s: System, id: string)
    requires Sound(cfg) && Inv(cfg, s)
    ensures Rank(s, id) <= Rank(Restart(s), id)
    decreases s.pending.Some?
  {
    match s.pending
    case None =>
      LiveMeaning(s.ledger, Replay(s.journal));
      if id in s.ledger.commands {
        assert Finalize(s.ledger).commands[id] == Restart(s).ledger.commands[id];
      }
    case Some(record) =>
      var applied := Do(cfg.durability, s, Apply(record));
      RankApply(cfg, s, record, id);
      InvStep(cfg, s, Apply(record));
      assert Restart(applied) == Restart(s);
      RankRestart(cfg, applied, id);
  }

  /** Sends of one command so far. */
  function Sends(s: System, id: string): seq<ExecutionCommand> {
    Only(s.sent, id)
  }

  function Only(sent: seq<ExecutionCommand>, id: string): seq<ExecutionCommand> {
    if sent == [] then []
    else Only(sent[..|sent| - 1], id) + if sent[|sent| - 1].commandId == id then [sent[|sent| - 1]] else []
  }

  lemma OnlySnoc(sent: seq<ExecutionCommand>, c: ExecutionCommand, id: string)
    ensures Only(sent + [c], id) == Only(sent, id) + if c.commandId == id then [c] else []
  {
    assert (sent + [c])[..|sent|] == sent;
  }

  /** No effect moves a command back, and one whose outcome is unknown or final is not sent. */
  ghost predicate Forward(a: System, b: System, id: string) {
    Rank(a, id) <= Rank(b, id) && (Rank(a, id) >= 3 ==> Sends(b, id) == Sends(a, id))
  }

  lemma {:induction false} ForwardExec(cfg: Config, s: System, effects: seq<Effect>, id: string)
    requires Sound(cfg) && Inv(cfg, s) && AllLegal(cfg, s, effects)
    ensures Forward(s, Exec(cfg.durability, s, effects), id)
  {
    if effects != [] {
      var init, last := effects[..|effects| - 1], effects[|effects| - 1];
      var mid := Exec(cfg.durability, s, init);
      ForwardExec(cfg, s, init, id);
      InvExec(cfg, s, init);
      RankStep(cfg, mid, last, id);
      if last.Push? {
        OnlySnoc(mid.sent, last.command, id);
      }
    }
  }

  lemma ForwardMove(cfg: Config, s: System, move: Move, id: string)
    requires Sound(cfg) && Ready(cfg, s) && CanMove(cfg, s, move)
    ensures Forward(s, After(cfg, s, move), id)
  {
    var effects := Effects(cfg, s, move.input);
    InputLegal(cfg, s, move.input);
    match move
    case Complete(_) =>
      ForwardExec(cfg, s, effects, id);
    case CrashDuring(_, at) =>
      LegalPrefix(cfg, s, effects, at);
      ForwardExec(cfg, s, effects[..at], id);
      InvExec(cfg, s, effects[..at]);
      RankRestart(cfg, Exec(cfg.durability, s, effects[..at]), id);
  }

  lemma {:induction false} CanRunPrefix(cfg: Config, moves: seq<Move>, n: nat)
    requires cfg.Usable() && CanRun(cfg, moves) && n <= |moves|
    ensures CanRun(cfg, moves[..n])
  {
    if n < |moves| {
      CanRunPrefix(cfg, moves[..|moves| - 1], n);
      assert moves[..|moves| - 1][..n] == moves[..n];
    } else {
      assert moves[..n] == moves;
    }
  }

  /** Along every run, crashes included, a command only moves forward through queued,
      dispatched, unknown and acknowledged; once unknown it is never sent again. */
  lemma {:induction false} CommandsMoveForward(cfg: Config, moves: seq<Move>, n: nat, id: string)
    requires Sound(cfg) && CanRun(cfg, moves) && n <= |moves|
    ensures Forward(Run(cfg, moves[..n]), Run(cfg, moves), id)
  {
    if n < |moves| {
      var init := moves[..|moves| - 1];
      CommandsMoveForward(cfg, init, n, id);
      assert init[..n] == moves[..n];
      RunsKeepInv(cfg, init);
      ForwardMove(cfg, Run(cfg, init), moves[|moves| - 1], id);
    } else {
      assert moves[..n] == moves;
    }
  }

  /* Sessions. */

  /** Every dispatched command's account is connected. */
  ghost predicate DispatchedAreConnected(s: System) {
    forall id <- s.ledger.commands ::
      s.ledger.commands[id].state == Dispatched ==> s.ledger.commands[id].command.targetAccountId in s.sessions
  }

  lemma {:induction false} DispatchKeepsConnected(s: System, commands: seq<ExecutionCommand>, accepted: set<string>)
    requires DispatchedAreConnected(s)
    requires forall c <- commands :: c.commandId in s.ledger.commands && s.ledger.commands[c.commandId].command == c
    ensures DispatchedAreConnected(DispatchedMany(s, commands, accepted))
  {
    hide DispatchedAreConnected, Dispatched1;
    if commands != [] {
      var init, last := commands[..|commands| - 1], commands[|commands| - 1];
      DispatchKeepsConnected(s, init, accepted);
      DispatchedManyFrame(s, init, accepted);
      OneKeepsConnected(DispatchedMany(s, init, accepted), last, accepted);
    }
  }

  lemma OneKeepsConnected(s: System, c: ExecutionCommand, accepted: set<string>)
    requires DispatchedAreConnected(s) && c.commandId in s.ledger.commands && s.ledger.commands[c.commandId].command == c
    ensures DispatchedAreConnected(Dispatched1(s, c, accepted))
  {
  }

  lemma EventConnected(cfg: Config, s: System, event: TradeEvent, now: I64, accepted: set<string>, planned: seq<ExecutionCommand>)
    requires Sound(cfg) && Ready(cfg, s) && event.Validate().Success? && event.eventId !in s.ledger.seen && DispatchedAreConnected(s)
    requires PlanEvent(cfg, s.ledger.mirrors, event, now) == Success(planned)
    ensures DispatchedAreConnected(Exec(cfg.durability, s, Log(EventPlanned(event.eventId, planned)) + DispatchAll(s.sessions, planned, accepted)))
  {
    hide Ready, PlanEvent, RouteRule.Usable;
    var record := EventPlanned(event.eventId, planned);
    EventLegal(cfg, s, event, now, accepted, planned);
    EnqueueKeys(s.ledger.commands, planned);
    DispatchKeepsConnected(s.(journal := s.journal + [record], ledger := Applied(s.ledger, record)), planned, accepted);
  }

  lemma ConnectedInput(cfg: Config, s: System, input: Input)
    requires Sound(cfg) && Ready(cfg, s) && Possible(s, input) && DispatchedAreConnected(s)
    ensures DispatchedAreConnected(Exec(cfg.durability, s, Effects(cfg, s, input)))
  {
    hide Ready, PlanEvent, DispatchAll, RouteRule.Usable;
    match input
    case Frame(connected, Event(event), now, accepted) =>
      if event.sourceAccountId == connected && EventEffects(cfg, s, event, now, accepted).Success?
         && EventEffects(cfg, s, event, now, accepted).value != [] {
        EventConnected(cfg, s, event, now, accepted, PlanEvent(cfg, s.ledger.mirrors, event, now).value);
      }
    case Frame(connected, Ack(ack), now, accepted) =>
      if ack.accountId == connected && AckEffects(s, ack).Success? && ack.commandId in s.ledger.commands {
        AckConnected(cfg, s, ack);
      }
    case Frame(_, _, _, _) =>
    case Register(account) =>
      ExecOne(cfg.durability, s, OpenSession(account));
    case DispatchQueued(account, order, keys, accepted) =>
      SelectedIds(cfg, s, account, Queued, order, keys);
      DispatchAllLegal(cfg, s, order, accepted);
      DispatchKeepsConnected(s, order, accepted);
    case Unregister(account, sessionId, order, keys) =>
      if Current(s, account, sessionId) {
        UnregisterMeaning(cfg, s, account, sessionId, order, keys);
      }
  }

  /** Acknowledgements and write-offs leave entries alone, make them unknown or drop them. */
  lemma OnlyUnknown(s: Ledger, record: JournalRecord)
    requires record.AckApplied? || record.CommandUnknown?
    ensures forall id <- Applied(s, record).commands ::
              id in s.commands && Applied(s, record).commands[id].command == s.commands[id].command
              && (Applied(s, record).commands[id] == s.commands[id] || Applied(s, record).commands[id].state == StoredCommandState.Unknown)
  {
  }

  lemma AckConnected(cfg: Config, s: System, ack: ExecutionAck)
    requires Sound(cfg) && Ready(cfg, s) && AckEffects(s, ack).Success? && ack.commandId in s.ledger.commands
    requires DispatchedAreConnected(s)
    ensures DispatchedAreConnected(Exec(cfg.durability, s, AckEffects(s, ack).value))
  {
    var record := AckRecord(s.ledger.mirrors, s.ledger.commands[ack.commandId].command, ack);
    OnlyUnknown(s.ledger, record);
    LogExec(cfg, s, record);
  }

  lemma LogExec(cfg: Config, s: System, record: JournalRecord)
    requires s.pending.None?
    ensures Exec(cfg.durability, s, Log(record)).ledger == Applied(s.ledger, record)
    ensures Exec(cfg.durability, s, Log(record)).sessions == s.sessions
  {
    ExecOne(cfg.durability, s, Append(record));
    ExecOne(cfg.durability, Do(cfg.durability, s, Append(record)), Apply(record));
    assert Log(record) == [Append(record)] + [Apply(record)];
    ExecConcat(cfg.durability, s, [Append(record)], [Apply(record)]);
  }

  /** Closing the current session writes off exactly the account's dispatched commands. */
  lemma UnregisterMeaning(cfg: Config, s: System, account: string, sessionId: nat, order: seq<ExecutionCommand>, keys: seq<string>)
    requires Sound(cfg) && Ready(cfg, s) && Selects(s.ledger, account, Dispatched, order, keys)
    requires Current(s, account, sessionId)
    ensures var after := Exec(cfg.durability, s, DisconnectEffects(s, account, sessionId, order));
            && after.sessions == s.sessions - {account} && after.sent == s.sent
            && after.ledger.seen == s.ledger.seen && after.ledger.mirrors == s.ledger.mirrors
            && after.ledger.commands.Keys == s.ledger.commands.Keys
            && forall id <- s.ledger.commands :: after.ledger.commands[id] ==
                 if InState(s.ledger, account, Dispatched, id)
                 then s.ledger.commands[id].(state := StoredCommandState.Unknown) else s.ledger.commands[id]
  {
    SelectedIds(cfg, s, account, Dispatched, order, keys);
    var closed := Do(cfg.durability, s, CloseSession(account));
    ExecOne(cfg.durability, s, CloseSession(account));
    ExecConcat(cfg.durability, s, [CloseSession(account)], MarkAll(keys));
    MarkAllLegal(cfg, closed, keys);
    MarkedManyMeaning(closed, keys);
    MarkedManySends(closed, keys);
  }

  lemma {:induction false} MarkedManySends(s: System, ids: seq<string>)
    ensures MarkedMany(s, ids).sent == s.sent
  {
    if ids != [] {
      MarkedManySends(s, ids[..|ids| - 1]);
    }
  }

  /** A superseded session id changes nothing. */
  lemma SupersededUnregister(cfg: Config, s: System, account: string, sessionId: nat, order: seq<ExecutionCommand>)
    requires !Current(s, account, sessionId)
    ensures Exec(cfg.durability, s, DisconnectEffects(s, account, sessionId, order)) == s
  {
  }

  /** At the end of every run a dispatched command's account has a session. */
  lemma {:induction false} DispatchedHaveSessions(cfg: Config, moves: seq<Move>)
    requires Sound(cfg) && CanRun(cfg, moves)
    ensures DispatchedAreConnected(Run(cfg, moves))
  {
    if moves != [] {
      var s, move := Run(cfg, moves[..|moves| - 1]), moves[|moves| - 1];
      DispatchedHaveSessions(cfg, moves[..|moves| - 1]);
      RunsKeepInv(cfg, moves[..|moves| - 1]);
      if move.Complete? {
        ConnectedInput(cfg, s, move.input);
      }
    }
  }

  /* Flushing the queue. */

  /** A command that was taken from the queue: sent, or written off. */
  ghost predicate Taken(s: System, c: ExecutionCommand, accepted: set<string>) {
    c.commandId in s.ledger.commands
    && if c.commandId in accepted then s.ledger.commands[c.commandId].state == Dispatched && c in s.sent
       else s.ledger.commands[c.commandId].state == StoredCommandState.Unknown
  }

  lemma TakenOne(s: System, c: ExecutionCommand, accepted: set<string>)
    requires c.targetAccountId in s.sessions && c.commandId in s.ledger.commands
    ensures Taken(Dispatched1(s, c, accepted), c, accepted)
  {
  }

  lemma {:induction false} FlushTakes(s: System, commands: seq<ExecutionCommand>, accepted: set<string>, c: ExecutionCommand)
    requires c in commands && c.targetAccountId in s.sessions && c.commandId in s.ledger.commands
    requires NoRepeats(Ids(commands))
    ensures Taken(DispatchedMany(s, commands, accepted), c, accepted)
  {
    var init, last := commands[..|commands| - 1], commands[|commands| - 1];
    var mid := DispatchedMany(s, init, accepted);
    NoRepeatsSnoc(commands);
    DispatchedManyFrame(s, init, accepted);
    if c in init {
      FlushTakes(s, init, accepted, c);
      Dispatched1Frame(mid, last, accepted);
    } else {
      TakenOne(mid, c, accepted);
    }
  }

  /** A connected account's queue empties: each of its queued commands is sent or, if the channel
      closed, written off; no other command changes. */
  lemma FlushEmptiesQueue(cfg: Config, s: System, account: string, order: seq<ExecutionCommand>, keys: seq<string>, accepted: set<string>)
    requires Sound(cfg) && Ready(cfg, s) && account in s.sessions && Selects(s.ledger, account, Queued, order, keys)
    ensures var after := Exec(cfg.durability, s, DispatchAll(s.sessions, order, accepted));
            && after.ledger.commands.Keys == s.ledger.commands.Keys
            && (forall id <- s.ledger.commands :: !InState(after.ledger, account, Queued, id))
            && (forall id <- s.ledger.commands :: InState(s.ledger, account, Queued, id) ==>
                  Taken(after, s.ledger.commands[id].command, accepted))
            && (forall id <- s.ledger.commands :: !InState(s.ledger, account, Queued, id) ==>
                  after.ledger.commands[id] == s.ledger.commands[id])
  {
    SelectedIds(cfg, s, account, Queued, order, keys);
    DispatchAllLegal(cfg, s, order, accepted);
    DispatchedManyFrame(s, order, accepted);
    var after := DispatchedMany(s, order, accepted);
    forall id | InState(s.ledger, account, Queued, id)
      ensures after.ledger.commands[id].state != Queued
      ensures Taken(after, s.ledger.commands[id].command, accepted)
    {
      var i :| 0 <= i < |keys| && keys[i] == id;
      assert order[i].commandId == id;
      FlushTakes(s, order, accepted, order[i]);
    }
  }
}
