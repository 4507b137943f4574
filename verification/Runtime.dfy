/** The daemon's state and its handlers, updating in place
    (crates/copier-daemon/src/runtime.rs). Each method is tied to the effects of Handlers. */
module Runtime {
  import opened Wrappers
  import opened Model
  import opened Routing
  import opened Journal
  import opened Handlers

  lemma {:induction false} PlanFailsEarly(digest: Digest, routes: seq<RouteRule>, mirrors: map<string, MirrorBinding>, event: TradeEvent, now: I64, n: nat)
    requires forall route <- routes :: route.Usable()
    requires n <= |routes| && Plan(digest, routes[..n], mirrors, event, now).Failure?
    ensures Plan(digest, routes, mirrors, event, now) == Plan(digest, routes[..n], mirrors, event, now)
  {
    if n == |routes| {
      assert routes[..n] == routes;
    } else {
      assert routes[..|routes| - 1][..n] == routes[..n];
      PlanFailsEarly(digest, routes[..|routes| - 1], mirrors, event, now, n);
    }
  }

  class AppState {
    const cfg: Config
    const engine: CopyEngine
    const journal: JournalFile
    const runtime: ReplayState
    var sessions: map<string, nat>
    var nextSessionId: nat
    ghost var pending: Option<JournalRecord>
    ghost var sent: seq<ExecutionCommand>

    ghost function View(): System
      reads this, journal, runtime
    {
      System(runtime.View(), journal.records, pending, sessions, nextSessionId, sent)
    }

    ghost predicate Valid()
      reads this
    {
      && cfg.Usable() && journal.durability == cfg.durability && pending.None?
      && forall source :: engine.RoutesFor(source) == ForSource(cfg.routes, source)
    }

    constructor (cfg: Config, engine: CopyEngine, journal: JournalFile, replay: ReplayState)
      requires journal.durability == cfg.durability
      requires forall source :: engine.RoutesFor(source) == ForSource(cfg.routes, source)
      ensures this.cfg == cfg && this.journal == journal && runtime == replay
      ensures cfg.Usable() ==> Valid()
      ensures View() == System(replay.View(), journal.records, None, map[], 1, [])
    {
      this.cfg, this.engine, this.journal, runtime := cfg, engine, journal, replay;
      sessions, nextSessionId := map[], 1;
      pending, sent := None, [];
    }

    method RegisterSession(account: string) returns (id: nat)
      requires Valid()
      modifies this
      ensures Valid()
      ensures id == old(nextSessionId) && nextSessionId == id + 1 && sessions == old(sessions)[account := id]
      ensures View() == Do(cfg.durability, old(View()), OpenSession(account))
    {
      id := nextSessionId;
      nextSessionId := nextSessionId + 1;
      sessions := sessions[account := id];
    }

    /** Writes a record, then applies it: the two steps a crash can fall between. */
    method Record(record: JournalRecord)
      requires Valid()
      modifies this`pending, journal, runtime
      ensures Valid()
      ensures View() == Exec(cfg.durability, old(View()), Log(record))
    {
      ghost var before := View();
      journal.Append(record);
      pending := Some(record);
      assert View() == Do(cfg.durability, before, Append(record));
      runtime.Apply(record);
      pending := None;
      ExecOne(cfg.durability, before, Append(record));
      ExecOne(cfg.durability, Do(cfg.durability, before, Append(record)), Apply(record));
      assert Log(record) == [Append(record)] + [Apply(record)];
      ExecConcat(cfg.durability, before, [Append(record)], [Apply(record)]);
    }

    /** `accepted` tells whose channel still takes a command. */
    method DispatchIfConnected(command: ExecutionCommand, accepted: set<string>)
      requires Valid()
      modifies this`pending, this`sent, journal, runtime
      ensures Valid() && sessions == old(sessions)
      ensures View() == Exec(cfg.durability, old(View()), DispatchEffects(old(sessions), command, accepted))
    {
      ghost var before := View();
      if command.targetAccountId !in sessions {
        return;
      }
      Record(CommandDispatched(command.commandId));
      ghost var taken := View();
      if command.commandId in accepted {
        sent := sent + [command];
        ExecOne(cfg.durability, taken, Push(command));
        ExecConcat(cfg.durability, before, Log(CommandDispatched(command.commandId)), [Push(command)]);
      } else {
        MarkUnknown(command.commandId);
        ExecConcat(cfg.durability, before, Log(CommandDispatched(command.commandId)), Log(CommandUnknown(command.commandId)));
      }
    }

    method MarkUnknown(id: string)
      requires Valid()
      modifies this`pending, journal, runtime
      ensures Valid()
      ensures View() == Exec(cfg.durability, old(View()), Log(CommandUnknown(id)))
    {
      Record(CommandUnknown(id));
    }

    method DispatchEach(commands: seq<ExecutionCommand>, accepted: set<string>)
      requires Valid()
      modifies this`pending, this`sent, journal, runtime
      ensures Valid() && sessions == old(sessions)
      ensures View() == Exec(cfg.durability, old(View()), DispatchAll(old(sessions), commands, accepted))
    {
      ghost var before := View();
      for i := 0 to |commands|
        invariant Valid() && sessions == old(sessions)
        invariant View() == Exec(cfg.durability, before, DispatchAll(before.sessions, commands[..i], accepted))
      {
        DispatchIfConnected(commands[i], accepted);
        assert commands[..i + 1][..i] == commands[..i];
        ExecConcat(cfg.durability, before, DispatchAll(before.sessions, commands[..i], accepted),
                   DispatchEffects(before.sessions, commands[i], accepted));
      }
      assert commands[..|commands|] == commands;
    }

    /** The stored commands of an account in one state, in the order the map yields them. */
    method Select(account: string, state: StoredCommandState) returns (order: seq<ExecutionCommand>, ghost keys: seq<string>)
      ensures Selects(runtime.View(), account, state, order, keys)
    {
      order, keys := [], [];
      var todo := runtime.commands.Keys;
      while todo != {}
        invariant todo <= runtime.commands.Keys
        invariant |order| == |keys| && NoRepeats(keys)
        invariant forall id :: id in keys <==> id !in todo && InState(runtime.View(), account, state, id)
        invariant forall i :: 0 <= i < |keys| ==> keys[i] in runtime.commands && order[i] == runtime.commands[keys[i]].command
      {
        var id :| id in todo;
        if runtime.commands[id].state == state && runtime.commands[id].command.targetAccountId == account {
          order := order + [runtime.commands[id].command];
          keys := keys + [id];
        }
        todo := todo - {id};
      }
    }

    method DispatchQueuedFor(account: string, accepted: set<string>)
      returns (ghost order: seq<ExecutionCommand>, ghost keys: seq<string>)
      requires Valid()
      modifies this`pending, this`sent, journal, runtime
      ensures Valid()
      ensures Selects(old(runtime.View()), account, Queued, order, keys)
      ensures View() == Exec(cfg.durability, old(View()), DispatchAll(old(sessions), order, accepted))
    {
      var queued;
      queued, keys := Select(account, Queued);
      order := queued;
      DispatchEach(queued, accepted);
    }

    method UnregisterSession(account: string, sessionId: nat)
      returns (ghost order: seq<ExecutionCommand>, ghost keys: seq<string>)
      requires Valid()
      modifies this, journal, runtime
      ensures Valid()
      ensures Current(old(View()), account, sessionId) ==> Selects(old(runtime.View()), account, Dispatched, order, keys)
      ensures View() == Exec(cfg.durability, old(View()), DisconnectEffects(old(View()), account, sessionId, order))
    {
      ghost var before := View();
      order, keys := [], [];
      if account !in sessions || sessions[account] != sessionId {
        return;
      }
      sessions := sessions - {account};
      ghost var closed := View();
      ExecOne(cfg.durability, before, CloseSession(account));
      var dispatched;
      dispatched, keys := Select(account, Dispatched);
      order := dispatched;
      for i := 0 to |dispatched|
        invariant Valid()
        invariant View() == Exec(cfg.durability, closed, MarkAll(Ids(dispatched)[..i]))
      {
        MarkUnknown(dispatched[i].commandId);
        var ids := Ids(dispatched);
        assert ids[..i + 1][..i] == ids[..i];
        ExecConcat(cfg.durability, closed, MarkAll(ids[..i]), Log(CommandUnknown(ids[i])));
      }
      assert Ids(dispatched)[..|dispatched|] == Ids(dispatched);
      ExecConcat(cfg.durability, before, [CloseSession(account)], MarkAll(Ids(dispatched)));
    }

    /** The planning loop: one lookup and one build per route, through the compiled table. */
    method PlanCommands(event: TradeEvent, now: I64) returns (r: Result<seq<ExecutionCommand>, RouteError>)
      requires Valid()
      ensures r == PlanEvent(cfg, runtime.View().mirrors, event, now)
    {
      var planned: seq<ExecutionCommand> := [];
      var routes := engine.RoutesFor(event.sourceAccountId);
      var mirrors := runtime.mirrors;
      for i := 0 to |routes|
        invariant Plan(cfg.digest, routes[..i], mirrors, event, now) == Success(planned)
      {
        var route := routes[i];
        var key := MirrorKey(event.sourceAccountId, event.sourceOrderId, route.targetAccountId);
        var outcome := BuildCommand(cfg.digest, event, route, Lookup(runtime.mirrors, key), now);
        PlanSnoc(cfg.digest, routes, mirrors, event, now, i, planned);
        match outcome {
          case Success(Some(command)) => planned := planned + [command];
          case Success(None) =>
          case Failure(MissingMirror(_)) =>
          case Failure(error) =>
            PlanFailsEarly(cfg.digest, routes, mirrors, event, now, i + 1);
            return Failure(error);
        }
      }
      assert routes[..|routes|] == routes;
      r := Success(planned);
    }

    method HandleEvent(event: TradeEvent, now: I64, accepted: set<string>) returns (r: Result<(), FrameError>)
      requires Valid()
      modifies this`pending, this`sent, journal, runtime
      ensures Valid()
      ensures Performs(r, old(View()), EventEffects(cfg, old(View()), event, now, accepted))
    {
      ghost var before := View();
      if event.sourceAccountId !in cfg.accounts {
        return Failure(UnknownSource);
      }
      if !cfg.accounts[event.sourceAccountId].canPublish {
        return Failure(NotPermitted);
      }
      if event.originCommandId.Some? && !cfg.accounts[event.sourceAccountId].allowRebroadcast {
        return Success(());
      }
      if event.eventId in runtime.seenEvents {
        return Success(());
      }
      var plan := PlanCommands(event, now);
      if plan.Failure? {
        return Failure(Route(plan.error));
      }
      Record(EventPlanned(event.eventId, plan.value));
      DispatchEach(plan.value, accepted);
      ExecConcat(cfg.durability, before, Log(EventPlanned(event.eventId, plan.value)),
                 DispatchAll(before.sessions, plan.value, accepted));
      r := Success(());
    }

    method MutationFor(command: ExecutionCommand, ack: ExecutionAck) returns (mutation: Option<MirrorMutation>)
      requires command.action == Open ==> ack.externalId.Some?
      ensures mutation == AckMutation(runtime.View().mirrors, command, ack)
    {
      var key := command.Key();
      match command.action
      case Open => mutation := Some(Upsert(OpenBinding(command, ack.externalId.value)));
      case Modify => mutation := None;
      case Reduce =>
        if key !in runtime.mirrors {
          return None;
        }
        mutation := Some(Upsert(ReducedBinding(runtime.mirrors[key], command)));
      case Close => mutation := Some(Remove(key));
    }

    method HandleAck(ack: ExecutionAck) returns (r: Result<(), FrameError>)
      requires Valid()
      modifies this`pending, journal, runtime
      ensures Valid()
      ensures Performs(r, old(View()), AckEffects(old(View()), ack))
    {
      if ack.commandId !in runtime.commands {
        return Success(());
      }
      var command := runtime.commands[ack.commandId].command;
      if command.targetAccountId != ack.accountId {
        return Failure(AckTargetMismatch);
      }
      if ack.status == AckStatus.Unknown {
        Record(AckApplied(ack, None));
        return Success(());
      }
      if (ack.status == Accepted || ack.status == Filled) && command.action == Open && ack.externalId.None? {
        MarkUnknown(command.commandId);
        return Success(());
      }
      var mutation := None;
      if ack.status == Accepted || ack.status == Filled {
        mutation := MutationFor(command, ack);
      }
      Record(AckApplied(ack, mutation));
      r := Success(());
    }

    method HandleFrame(connected: string, frame: AgentFrame, now: I64, accepted: set<string>) returns (r: Result<(), FrameError>)
      requires Valid()
      modifies this`pending, this`sent, journal, runtime
      ensures Valid()
      ensures Performs(r, old(View()), FrameEffects(cfg, old(View()), connected, frame, now, accepted))
    {
      match frame
      case Hello(_) => r := Failure(HelloNotFirst);
      case Event(event) =>
        if event.sourceAccountId != connected {
          return Failure(AccountMismatch);
        }
        r := HandleEvent(event, now, accepted);
      case Ack(ack) =>
        if ack.accountId != connected {
          return Failure(AccountMismatch);
        }
        r := HandleAck(ack);
      case Ping(_) => r := Success(());
    }

    /** An error leaves the state as it was; otherwise exactly the effects happen. */
    ghost predicate Performs(r: Result<(), FrameError>, before: System, effects: Result<seq<Effect>, FrameError>)
      reads this, journal, runtime
    {
      match effects
      case Failure(error) => r == Failure(error) && View() == before
      case Success(list) => r == Success(()) && View() == Exec(cfg.durability, before, list)
    }
  }

  /** Starting the daemon on an existing journal. Rules whose limits are inverted do not keep it
      from starting; what it does afterwards is only modelled without them. */
  method Start(cfg: Config, records: seq<JournalRecord>) returns (r: Result<AppState, RouteError>)
    ensures r.Success? <==> forall i :: 0 <= i < |cfg.routes| ==> cfg.routes[i].Validate().Success?
    ensures r.Success? ==> fresh(r.value) && r.value.cfg == cfg
    ensures r.Success? && (forall route <- cfg.routes :: route.minVolume <= route.maxVolume) ==> r.value.Valid()
    ensures r.Success? ==> r.value.View() == System(Recovered(records), records, None, map[], 1, [])
  {
    var compiled := Compile(cfg.routes);
    if compiled.Failure? {
      return Failure(compiled.error);
    }
    var file, replay := OpenJournal(cfg.durability, records);
    var app := new AppState(cfg, compiled.value, file, replay);
    r := Success(app);
  }
}
