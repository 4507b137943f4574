/** Whole runs of the daemon: any sequence of frames, connects, disconnects and queue flushes,
    with a crash and restart allowed inside any of them. */
module Runs {
  import opened Wrappers
  import opened Model
  import opened Routing
  import opened Journal
  import opened Handlers
  import opened History

  datatype Input =
    | Frame(connected: string, frame: AgentFrame, now: I64, accepted: set<string>)
    | Register(account: string)
    | DispatchQueued(account: string, order: seq<ExecutionCommand>, keys: seq<string>, accepted: set<string>)
    | Unregister(account: string, sessionId: nat, order: seq<ExecutionCommand>, keys: seq<string>)

  /** Events have been validated by whoever produced them; loops run over the stored commands in
      some order. */
  ghost predicate Possible(s: System, input: Input) {
    match input
    case Frame(_, Event(event), _, _) => event.Validate().Success?
    case DispatchQueued(account, order, keys, _) => Selects(s.ledger, account, Queued, order, keys)
    case Unregister(account, sessionId, order, keys) =>
      Current(s, account, sessionId) ==> Selects(s.ledger, account, Dispatched, order, keys)
    case _ => true
  }

  function Effects(cfg: Config, s: System, input: Input): seq<Effect>
    requires cfg.Usable()
  {
    match input
    case Frame(connected, frame, now, accepted) =>
      var effects := FrameEffects(cfg, s, connected, frame, now, accepted);
      if effects.Success? then effects.value else []
    case Register(account) => [OpenSession(account)]
    case DispatchQueued(_, order, _, accepted) => DispatchAll(s.sessions, order, accepted)
    case Unregister(account, sessionId, order, _) => DisconnectEffects(s, account, sessionId, order)
  }

  /** Everything in memory is lost; the journal and what was already sent are not. */
  function Restart(s: System): System {
    System(Recovered(s.journal), s.journal, None, map[], 1, s.sent)
  }

  datatype Move = Complete(input: Input) | CrashDuring(input: Input, at: nat)

  ghost predicate CanMove(cfg: Config, s: System, move: Move)
    requires cfg.Usable()
  {
    Possible(s, move.input) && (move.CrashDuring? ==> move.at <= |Effects(cfg, s, move.input)|)
  }

  function After(cfg: Config, s: System, move: Move): System
    requires cfg.Usable()
  {
    var effects := Effects(cfg, s, move.input);
    match move
    case Complete(_) => Exec(cfg.durability, s, effects)
    case CrashDuring(_, at) => if at <= |effects| then Restart(Exec(cfg.durability, s, effects[..at])) else s
  }

  const START: System := System(EMPTY, [], None, map[], 1, [])

  function Run(cfg: Config, moves: seq<Move>): System
    requires cfg.Usable()
  {
    if moves == [] then START else After(cfg, Run(cfg, moves[..|moves| - 1]), moves[|moves| - 1])
  }

  ghost predicate CanRun(cfg: Config, moves: seq<Move>)
    requires cfg.Usable()
  {
    moves != [] ==>
      CanRun(cfg, moves[..|moves| - 1]) && CanMove(cfg, Run(cfg, moves[..|moves| - 1]), moves[|moves| - 1])
  }

  /* The invariant between effects. */

  /** The live state, with the record in flight, agrees with the journal. */
  ghost predicate Live(cfg: Config, s: System)
    requires cfg.Usable()
  {
    match s.pending
    case None => Agree(s.ledger, Replay(s.journal))
    case Some(record) =>
      && s.journal != [] && s.journal[|s.journal| - 1] == record
      && Agree(s.ledger, Replay(s.journal[..|s.journal| - 1]))
  }

  ghost predicate SentOnce(s: System) {
    NoRepeats(Ids(s.sent)) && forall c <- s.sent :: c.commandId in DispatchedIds(s.journal)
  }

  ghost predicate Inv(cfg: Config, s: System)
    requires cfg.Usable()
  {
    WellFormed(cfg, s.journal) && Live(cfg, s) && SentOnce(s)
  }

  /** What a handler owes before each effect. A push needs the command to be dispatched right
      now, and never pushed before. */
  ghost predicate Legal(cfg: Config, s: System, effect: Effect)
    requires cfg.Usable()
  {
    match effect
    case Append(record) => s.pending.None? && Admissible(cfg, Replay(s.journal), record)
    case Apply(record) => s.pending == Some(record)
    case Push(command) =>
      && s.pending.None?
      && command.commandId in s.ledger.commands
      && s.ledger.commands[command.commandId] == StoredCommand(command, Dispatched)
      && command.commandId in DispatchedIds(s.journal)
      && forall c <- s.sent :: c.commandId != command.commandId
    case OpenSession(_) => s.pending.None?
    case CloseSession(_) => s.pending.None?
  }

  ghost predicate AllLegal(cfg: Config, s: System, effects: seq<Effect>)
    requires cfg.Usable()
  {
    effects != [] ==>
      var init := effects[..|effects| - 1];
      AllLegal(cfg, s, init) && Legal(cfg, Exec(cfg.durability, s, init), effects[|effects| - 1])
  }

  lemma InvStep(cfg: Config, s: System, effect: Effect)
    requires Sound(cfg) && Inv(cfg, s) && Legal(cfg, s, effect)
    ensures Inv(cfg, Do(cfg.durability, s, effect))
  {
    match effect
    case Append(record) =>
      assert (s.journal + [record])[..|s.journal|] == s.journal;
    case Apply(record) =>
      var init := s.journal[..|s.journal| - 1];
      ApplyAgree(s.ledger, Replay(init), record);
    case Push(command) =>
    case _ =>
  }

  lemma {:induction false} InvExec(cfg: Config, s: System, effects: seq<Effect>)
    requires Sound(cfg) && Inv(cfg, s) && AllLegal(cfg, s, effects)
    ensures Inv(cfg, Exec(cfg.durability, s, effects))
  {
    if effects != [] {
      var init := effects[..|effects| - 1];
      InvExec(cfg, s, init);
      InvStep(cfg, Exec(cfg.durability, s, init), effects[|effects| - 1]);
    }
  }

  lemma InvRestart(cfg: Config, s: System)
    requires cfg.Usable() && Inv(cfg, s)
    ensures Inv(cfg, Restart(s))
  {
    FinalizeIdempotent(Replay(s.journal));
  }

  lemma {:induction false} LegalPrefix(cfg: Config, s: System, effects: seq<Effect>, n: nat)
    requires cfg.Usable() && AllLegal(cfg, s, effects) && n <= |effects|
    ensures AllLegal(cfg, s, effects[..n])
  {
    if n < |effects| {
      LegalPrefix(cfg, s, effects[..|effects| - 1], n);
      assert effects[..|effects| - 1][..n] == effects[..n];
    } else {
      assert effects[..n] == effects;
    }
  }

  lemma {:induction false} LegalConcat(cfg: Config, s: System, first: seq<Effect>, second: seq<Effect>)
    requires cfg.Usable() && AllLegal(cfg, s, first)
    requires AllLegal(cfg, Exec(cfg.durability, s, first), second)
    ensures AllLegal(cfg, s, first + second)
  {
    hide Legal, Do, RouteRule.Usable;
    if second == [] {
      ConcatNothing(first);
    } else {
      var init := second[..|second| - 1];
      ConcatInit(first, second);
      LegalConcat(cfg, s, first, init);
      ExecConcat(cfg.durability, s, first, init);
    }
  }

  lemma LegalOne(cfg: Config, s: System, effect: Effect)
    requires cfg.Usable() && Legal(cfg, s, effect)
    ensures AllLegal(cfg, s, [effect])
  {
    assert [effect][..0] == [];
    assert AllLegal(cfg, s, []) && Exec(cfg.durability, s, []) == s;
  }

  /* Handlers owe nothing. */

  lemma LogLegal(cfg: Config, s: System, record: JournalRecord)
    requires Sound(cfg) && s.pending.None? && Admissible(cfg, Replay(s.journal), record)
    ensures AllLegal(cfg, s, Log(record))
    ensures Exec(cfg.durability, s, Log(record)) == s.(journal := s.journal + [record], ledger := Applied(s.ledger, record))
  {
    LegalOne(cfg, s, Append(record));
    ExecOne(cfg.durability, s, Append(record));
    var mid := Do(cfg.durability, s, Append(record));
    LegalOne(cfg, mid, Apply(record));
    ExecOne(cfg.durability, mid, Apply(record));
    assert Log(record) == [Append(record)] + [Apply(record)];
    LegalConcat(cfg, s, [Append(record)], [Apply(record)]);
    ExecConcat(cfg.durability, s, [Append(record)], [Apply(record)]);
  }

  /** Between handlers the live state and the journal store the same commands, equal but for
      commands a restart made unknown, and the same bindings. */
  lemma LiveMeaning(a: Ledger, b: Ledger)
    requires Agree(a, b)
    ensures a.seen == b.seen && a.mirrors == b.mirrors && a.commands.Keys == b.commands.Keys
    ensures forall id <- a.commands :: a.commands[id].command == b.commands[id].command
    ensures forall id <- a.commands :: a.commands[id].state == Queued <==> b.commands[id].state == Queued
  {
    assert Finalize(a).seen == Finalize(b).seen && Finalize(a).mirrors == Finalize(b).mirrors;
    assert Finalize(a).commands.Keys == a.commands.Keys && Finalize(b).commands.Keys == b.commands.Keys;
    forall id | id in a.commands
      ensures Settled(a.commands[id]) == Settled(b.commands[id])
    {
      assert Finalize(a).commands[id] == Finalize(b).commands[id];
    }
  }

  ghost predicate Ready(cfg: Config, s: System)
    requires cfg.Usable()
  {
    Inv(cfg, s) && s.pending.None?
  }

  ghost predicate IsQueued(s: System, command: ExecutionCommand) {
    command.commandId in s.ledger.commands && s.ledger.commands[command.commandId] == StoredCommand(command, Queued)
  }

  /** What one dispatch does to the state. */
  function Dispatched1(s: System, command: ExecutionCommand, accepted: set<string>): System {
    if command.targetAccountId !in s.sessions then s
    else
      var taken := s.(journal := s.journal + [CommandDispatched(command.commandId)],
                      ledger := Applied(s.ledger, CommandDispatched(command.commandId)));
      if command.commandId in accepted then taken.(sent := s.sent + [command])
      else taken.(journal := taken.journal + [CommandUnknown(command.commandId)],
                  ledger := Applied(taken.ledger, CommandUnknown(command.commandId)))
  }

  lemma DispatchLegal(cfg: Config, s: System, command: ExecutionCommand, accepted: set<string>)
    requires Sound(cfg) && Ready(cfg, s) && IsQueued(s, command)
    ensures AllLegal(cfg, s, DispatchEffects(s.sessions, command, accepted))
    ensures Exec(cfg.durability, s, DispatchEffects(s.sessions, command, accepted)) == Dispatched1(s, command, accepted)
    ensures Ready(cfg, Dispatched1(s, command, accepted))
  {
    if command.targetAccountId in s.sessions {
      var id := command.commandId;
      LiveMeaning(s.ledger, Replay(s.journal));
      QueuedNeverDispatched(cfg, s.journal);
      LogLegal(cfg, s, CommandDispatched(id));
      InvExec(cfg, s, Log(CommandDispatched(id)));
      var taken := Exec(cfg.durability, s, Log(CommandDispatched(id)));
      assert taken.journal[..|s.journal|] == s.journal;
      LiveMeaning(taken.ledger, Replay(taken.journal));
      if id in accepted {
        LegalOne(cfg, taken, Push(command));
        ExecOne(cfg.durability, taken, Push(command));
        LegalConcat(cfg, s, Log(CommandDispatched(id)), [Push(command)]);
        ExecConcat(cfg.durability, s, Log(CommandDispatched(id)), [Push(command)]);
        InvStep(cfg, taken, Push(command));
      } else {
        LogLegal(cfg, taken, CommandUnknown(id));
        LegalConcat(cfg, s, Log(CommandDispatched(id)), Log(CommandUnknown(id)));
        ExecConcat(cfg.durability, s, Log(CommandDispatched(id)), Log(CommandUnknown(id)));
        InvExec(cfg, taken, Log(CommandUnknown(id)));
      }
    }
  }

  /** The state after dispatching several commands in order. */
  function DispatchedMany(s: System, commands: seq<ExecutionCommand>, accepted: set<string>): System {
    if commands == [] then s
    else Dispatched1(DispatchedMany(s, commands[..|commands| - 1], accepted), commands[|commands| - 1], accepted)
  }

  lemma IdsSnoc(commands: seq<ExecutionCommand>)
    requires commands != []
    ensures Ids(commands) == Ids(commands[..|commands| - 1]) + [commands[|commands| - 1].commandId]
  {
  }

  lemma NoRepeatsSnoc(commands: seq<ExecutionCommand>)
    requires commands != [] && NoRepeats(Ids(commands))
    ensures NoRepeats(Ids(commands[..|commands| - 1]))
    ensures commands[|commands| - 1].commandId !in Ids(commands[..|commands| - 1])
    ensures forall c <- commands[..|commands| - 1] :: c.commandId != commands[|commands| - 1].commandId
  {
    IdsSnoc(commands);
    var init, last := commands[..|commands| - 1], commands[|commands| - 1];
    assert Ids(commands)[..|init|] == Ids(init) && Ids(commands)[|init|] == last.commandId;
    forall c | c in init
      ensures c.commandId != last.commandId
    {
      var i :| 0 <= i < |init| && init[i] == c;
      assert Ids(init)[i] == c.commandId;
    }
  }

  /** The states differ at most in the table entries of `ids` and in what was logged and sent. */
  ghost predicate Touches(a: System, b: System, ids: seq<string>) {
    && b.sessions == a.sessions && b.nextSession == a.nextSession && b.pending == a.pending
    && b.ledger == a.ledger.(commands := b.ledger.commands)
    && b.ledger.commands.Keys == a.ledger.commands.Keys
    && (forall id <- a.ledger.commands :: b.ledger.commands[id].command == a.ledger.commands[id].command)
    && (forall id <- a.ledger.commands :: id !in ids ==> b.ledger.commands[id] == a.ledger.commands[id])
  }

  lemma Dispatched1Frame(s: System, command: ExecutionCommand, accepted: set<string>)
    ensures Touches(s, Dispatched1(s, command, accepted), [command.commandId])
  {
  }

  /** Dispatching touches the dispatched commands only. */
  lemma {:induction false} DispatchedManyFrame(s: System, commands: seq<ExecutionCommand>, accepted: set<string>)
    ensures Touches(s, DispatchedMany(s, commands, accepted), Ids(commands))
  {
    if commands != [] {
      var init, last := commands[..|commands| - 1], commands[|commands| - 1];
      DispatchedManyFrame(s, init, accepted);
      Dispatched1Frame(DispatchedMany(s, init, accepted), last, accepted);
      IdsSnoc(commands);
    }
  }

  lemma SameSessions(s: System, mid: System, ids: seq<string>)
    requires Touches(s, mid, ids)
    ensures mid.sessions == s.sessions
  {
  }

  /** Dispatching others leaves a command in the queue. */
  lemma StaysQueued(s: System, mid: System, ids: seq<string>, c: ExecutionCommand)
    requires Touches(s, mid, ids) && IsQueued(s, c) && c.commandId !in ids
    ensures IsQueued(mid, c)
  {
  }

  lemma {:induction false} DispatchAllLegal(cfg: Config, s: System, commands: seq<ExecutionCommand>, accepted: set<string>)
    requires Sound(cfg) && Ready(cfg, s) && NoRepeats(Ids(commands)) && forall c <- commands :: IsQueued(s, c)
    ensures AllLegal(cfg, s, DispatchAll(s.sessions, commands, accepted))
    ensures Exec(cfg.durability, s, DispatchAll(s.sessions, commands, accepted)) == DispatchedMany(s, commands, accepted)
    ensures Ready(cfg, DispatchedMany(s, commands, accepted))
  {
    hide Ready, Touches, RouteRule.Usable, NoRepeats, DispatchEffects, Dispatched1, IsQueued;
    if commands == [] {
      assert DispatchAll(s.sessions, commands, accepted) == [] && AllLegal(cfg, s, []) && Exec(cfg.durability, s, []) == s;
    } else {
      var init, last := commands[..|commands| - 1], commands[|commands| - 1];
      NoRepeatsSnoc(commands);
      DispatchAllLegal(cfg, s, init, accepted);
      DispatchedManyFrame(s, init, accepted);
      var mid := DispatchedMany(s, init, accepted);
      StaysQueued(s, mid, Ids(init), last);
      SameSessions(s, mid, Ids(init));
      DispatchLegal(cfg, mid, last, accepted);
      LegalConcat(cfg, s, DispatchAll(s.sessions, init, accepted), DispatchEffects(s.sessions, last, accepted));
      ExecConcat(cfg.durability, s, DispatchAll(s.sessions, init, accepted), DispatchEffects(s.sessions, last, accepted));
    }
  }

  /** The state after writing off several commands. */
  function MarkedMany(s: System, ids: seq<string>): System {
    if ids == [] then s
    else
      var mid, record := MarkedMany(s, ids[..|ids| - 1]), CommandUnknown(ids[|ids| - 1]);
      mid.(journal := mid.journal + [record], ledger := Applied(mid.ledger, record))
  }

  lemma {:induction false} MarkedManyMeaning(s: System, ids: seq<string>)
    requires forall id <- ids :: id in s.ledger.commands
    ensures MarkedMany(s, ids).sessions == s.sessions
    ensures MarkedMany(s, ids).ledger == s.ledger.(commands := MarkedMany(s, ids).ledger.commands)
    ensures MarkedMany(s, ids).ledger.commands.Keys == s.ledger.commands.Keys
    ensures forall id <- s.ledger.commands :: MarkedMany(s, ids).ledger.commands[id] ==
              if id in ids then s.ledger.commands[id].(state := StoredCommandState.Unknown) else s.ledger.commands[id]
  {
    if ids != [] {
      MarkedManyMeaning(s, ids[..|ids| - 1]);
      assert ids == ids[..|ids| - 1] + [ids[|ids| - 1]];
    }
  }

  lemma {:induction false} MarkAllLegal(cfg: Config, s: System, ids: seq<string>)
    requires Sound(cfg) && Ready(cfg, s) && forall id <- ids :: id in s.ledger.commands
    ensures AllLegal(cfg, s, MarkAll(ids))
    ensures Exec(cfg.durability, s, MarkAll(ids)) == MarkedMany(s, ids)
    ensures Ready(cfg, MarkedMany(s, ids))
  {
    if ids != [] {
      var init, last := ids[..|ids| - 1], ids[|ids| - 1];
      MarkAllLegal(cfg, s, init);
      MarkedManyMeaning(s, init);
      var mid := MarkedMany(s, init);
      LiveMeaning(mid.ledger, Replay(mid.journal));
      LogLegal(cfg, mid, CommandUnknown(last));
      InvExec(cfg, mid, Log(CommandUnknown(last)));
      LegalConcat(cfg, s, MarkAll(init), Log(CommandUnknown(last)));
      ExecConcat(cfg.durability, s, MarkAll(init), Log(CommandUnknown(last)));
    }
  }

  /** A fresh plan puts each of its commands in the queue. */
  lemma {:induction false} PlanQueues(commands: Commands, planned: seq<ExecutionCommand>, c: ExecutionCommand)
    requires NoRepeats(Ids(planned)) && c in planned && c.commandId !in commands
    ensures c.commandId in Enqueue(commands, planned)
    ensures Enqueue(commands, planned)[c.commandId] == StoredCommand(c, Queued)
  {
    var init, last := planned[..|planned| - 1], planned[|planned| - 1];
    NoRepeatsSnoc(planned);
    if c in init {
      PlanQueues(commands, init, c);
    } else {
      EnqueueKeys(commands, init);
    }
  }

  lemma PlannedFresh(cfg: Config, s: System, record: JournalRecord)
    requires Sound(cfg) && Ready(cfg, s) && record.EventPlanned? && Admissible(cfg, Replay(s.journal), record)
    ensures NoRepeats(Ids(record.commands))
    ensures forall c <- record.commands :: c.commandId !in s.ledger.commands && c.commandId !in PlannedIds(s.journal)
  {
    LiveMeaning(s.ledger, Replay(s.journal));
    PlanGenuine(cfg, Replay(s.journal), record);
    AlwaysPlannedFromSeen(cfg, s.journal);
    PlanIsFresh(cfg, s.journal, record);
    CommandsConserved(cfg, s.journal);
  }

  lemma EventLegal(cfg: Config, s: System, event: TradeEvent, now: I64, accepted: set<string>, planned: seq<ExecutionCommand>)
    requires Sound(cfg) && Ready(cfg, s) && event.Validate().Success? && event.eventId !in s.ledger.seen
    requires PlanEvent(cfg, s.ledger.mirrors, event, now) == Success(planned)
    ensures AllLegal(cfg, s, Log(EventPlanned(event.eventId, planned)) + DispatchAll(s.sessions, planned, accepted))
    ensures var record := EventPlanned(event.eventId, planned);
            var logged := s.(journal := s.journal + [record], ledger := Applied(s.ledger, record));
            && Exec(cfg.durability, s, Log(record) + DispatchAll(s.sessions, planned, accepted)) == DispatchedMany(logged, planned, accepted)
            && Ready(cfg, logged)
            && Ready(cfg, DispatchedMany(logged, planned, accepted))
            && NoRepeats(Ids(planned)) && forall c <- planned :: IsQueued(logged, c) && c.commandId !in s.ledger.commands
  {
    var record := EventPlanned(event.eventId, planned);
    LiveMeaning(s.ledger, Replay(s.journal));
    assert PlannedBy(cfg, Replay(s.journal).mirrors, record, event, now);
    PlannedFresh(cfg, s, record);
    forall c | c in planned
      ensures c.commandId in Applied(s.ledger, record).commands && Applied(s.ledger, record).commands[c.commandId] == StoredCommand(c, Queued)
    {
      PlanQueues(s.ledger.commands, planned, c);
    }
    LogLegal(cfg, s, record);
    InvExec(cfg, s, Log(record));
    var logged := Exec(cfg.durability, s, Log(record));
    DispatchAllLegal(cfg, logged, planned, accepted);
    LegalConcat(cfg, s, Log(record), DispatchAll(s.sessions, planned, accepted));
    ExecConcat(cfg.durability, s, Log(record), DispatchAll(s.sessions, planned, accepted));
  }

  lemma AckLegal(cfg: Config, s: System, ack: ExecutionAck)
    requires Sound(cfg) && Ready(cfg, s) && AckEffects(s, ack).Success?
    ensures AllLegal(cfg, s, AckEffects(s, ack).value)
    ensures Ready(cfg, Exec(cfg.durability, s, AckEffects(s, ack).value))
  {
    LiveMeaning(s.ledger, Replay(s.journal));
    if ack.commandId in s.ledger.commands {
      AlwaysConsistent(cfg, s.journal);
      var record := AckRecord(s.ledger.mirrors, s.ledger.commands[ack.commandId].command, ack);
      LogLegal(cfg, s, record);
      InvExec(cfg, s, Log(record));
    }
  }

  /** Live commands sit under their own ids. */
  lemma LiveUnderIds(cfg: Config, s: System)
    requires Sound(cfg) && Ready(cfg, s)
    ensures forall id <- s.ledger.commands :: s.ledger.commands[id].command.commandId == id
  {
    hide WellFormed, Genuine;
    AlwaysConsistent(cfg, s.journal);
    LiveMeaning(s.ledger, Replay(s.journal));
    forall id | id in s.ledger.commands
      ensures s.ledger.commands[id].command.commandId == id
    {
      assert Held(cfg, Replay(s.journal).seen, id, Replay(s.journal).commands[id].command);
    }
  }

  lemma SelectedIds(cfg: Config, s: System, account: string, state: StoredCommandState, order: seq<ExecutionCommand>, keys: seq<string>)
    requires Sound(cfg) && Ready(cfg, s) && Selects(s.ledger, account, state, order, keys)
    ensures Ids(order) == keys
    ensures state == Queued ==> forall c <- order :: IsQueued(s, c)
  {
    hide Ready, Sound;
    LiveUnderIds(cfg, s);
    forall i | 0 <= i < |keys|
      ensures Ids(order)[i] == keys[i]
    {
      assert keys[i] in s.ledger.commands;
    }
    if state == Queued {
      forall c | c in order
        ensures IsQueued(s, c)
      {
        var i :| 0 <= i < |order| && order[i] == c;
        assert keys[i] in keys;
        assert InState(s.ledger, account, state, keys[i]);
      }
    }
  }

  /** Whatever a handler does is legal, effect by effect. */
  lemma InputLegal(cfg: Config, s: System, input: Input)
    requires Sound(cfg) && Ready(cfg, s) && Possible(s, input)
    ensures AllLegal(cfg, s, Effects(cfg, s, input))
    ensures Ready(cfg, Exec(cfg.durability, s, Effects(cfg, s, input)))
  {
    match input
    case Frame(connected, Event(event), now, accepted) =>
      if event.sourceAccountId == connected && EventEffects(cfg, s, event, now, accepted).Success?
         && EventEffects(cfg, s, event, now, accepted).value != [] {
        EventLegal(cfg, s, event, now, accepted, PlanEvent(cfg, s.ledger.mirrors, event, now).value);
      }
    case Frame(connected, Ack(ack), now, accepted) =>
      if ack.accountId == connected && AckEffects(s, ack).Success? {
        AckLegal(cfg, s, ack);
      }
    case Frame(_, _, _, _) =>
    case Register(account) =>
      LegalOne(cfg, s, OpenSession(account));
      ExecOne(cfg.durability, s, OpenSession(account));
    case DispatchQueued(account, order, keys, accepted) =>
      SelectedIds(cfg, s, account, Queued, order, keys);
      DispatchAllLegal(cfg, s, order, accepted);
    case Unregister(account, sessionId, order, keys) =>
      if Current(s, account, sessionId) {
        SelectedIds(cfg, s, account, Dispatched, order, keys);
        var closed := Do(cfg.durability, s, CloseSession(account));
        LegalOne(cfg, s, CloseSession(account));
        ExecOne(cfg.durability, s, CloseSession(account));
        MarkAllLegal(cfg, closed, keys);
        LegalConcat(cfg, s, [CloseSession(account)], MarkAll(keys));
        ExecConcat(cfg.durability, s, [CloseSession(account)], MarkAll(keys));
      }
  }

  /** In every state a run can reach, the journal is well formed, the live state agrees with it
      and everything sent was sent once. */
  lemma {:induction false} RunsKeepInv(cfg: Config, moves: seq<Move>)
    requires Sound(cfg) && CanRun(cfg, moves)
    ensures Ready(cfg, Run(cfg, moves))
  {
    if moves == [] {
      assert Agree(EMPTY, Replay([]));
    } else {
      var s, move := Run(cfg, moves[..|moves| - 1]), moves[|moves| - 1];
      RunsKeepInv(cfg, moves[..|moves| - 1]);
      InputLegal(cfg, s, move.input);
      if move.CrashDuring? {
        LegalPrefix(cfg, s, Effects(cfg, s, move.input), move.at);
        InvExec(cfg, s, Effects(cfg, s, move.input)[..move.at]);
        InvRestart(cfg, Exec(cfg.durability, s, Effects(cfg, s, move.input)[..move.at]));
      }
    }
  }
}
