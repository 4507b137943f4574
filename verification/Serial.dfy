/** The concurrent tasks of AwaitLevel are the handlers of Handlers taken apart: a task that nothing
    interrupts has one way to go on, and does to the state exactly what its handler does. */
module Serial {
  import opened Wrappers
  import opened Model
  import opened Routing
  import opened Journal
  import opened Handlers
  import opened AwaitLevel
  import Race

  /** The state as a handler running alone sees it. */
  function SystemOf(a: Await): System {
    System(a.ledger, a.journal, None, a.sessions, a.nextSession, a.sent)
  }

  /** `a` with task `t` where it says and the rest of the world as `s` says. */
  function At(a: Await, t: nat, task: Task, s: System): Await {
    Await(s.ledger, s.journal, a.tasks[t := task], a.flight, s.sessions, s.nextSession, a.open, s.sent)
  }

  /** Task `t` takes `a` to `b` on its own. */
  ghost predicate Reaches(cfg: Config, a: Await, t: nat, b: Await)
    requires cfg.Usable()
  {
    exists turns :: Alone(turns, t) && From(cfg, a, turns) == b
  }

  predicate Alone(turns: seq<Turn>, t: nat) {
    forall turn <- turns :: turn.task == t && Own(turn.action)
  }

  /** Not the environment's doing. */
  predicate Own(action: Action) {
    !action.Crash? && !action.CloseChannel?
  }

  lemma StepReaches(cfg: Config, a: Await, t: nat, action: Action)
    requires cfg.Usable() && Enabled(cfg, a, t, action) && Own(action)
    ensures Reaches(cfg, a, t, Step(cfg, a, t, action))
  {
    hide Step, Enabled;
    Race.FromOne(cfg, a, Turn(t, action));
    assert Alone([Turn(t, action)], t);
  }

  lemma StaysThere(cfg: Config, a: Await, t: nat)
    requires cfg.Usable()
    ensures Reaches(cfg, a, t, a)
  {
    assert Alone([], t) && From(cfg, a, []) == a;
  }

  lemma Onwards(cfg: Config, a: Await, t: nat, b: Await, c: Await)
    requires cfg.Usable() && Reaches(cfg, a, t, b) && Reaches(cfg, b, t, c)
    ensures Reaches(cfg, a, t, c)
  {
    hide From;
    var x :| Alone(x, t) && From(cfg, a, x) == b;
    var y :| Alone(y, t) && From(cfg, b, y) == c;
    Race.FromConcat(cfg, a, x, y);
    assert Alone(x + y, t);
  }

  /* Writing and applying a record. */

  lemma {:induction false} WithoutLast(flight: seq<nat>, t: nat)
    requires t !in flight
    ensures Without(flight + [t], t) == flight
  {
    if flight != [] {
      assert (flight + [t])[1..] == flight[1..] + [t];
      WithoutLast(flight[1..], t);
      assert [flight[0]] + flight[1..] == flight;
    }
  }

  lemma LogIs(durability: Durability, s: System, record: JournalRecord)
    requires durability != NoDurability && s.pending.None?
    ensures Exec(durability, s, Log(record)) == s.(journal := s.journal + [record], ledger := Applied(s.ledger, record))
  {
    hide Applied;
    ExecOne(durability, s, Append(record));
    ExecOne(durability, Do(durability, s, Append(record)), Apply(record));
    assert Log(record) == [Append(record)] + [Apply(record)];
    ExecConcat(durability, s, [Append(record)], [Apply(record)]);
  }

  /** Task `t` can be told to do one thing at a time. */
  ghost predicate Ordinary(cfg: Config, a: Await, t: nat, s: System) {
    cfg.Usable() && cfg.durability != NoDurability && t !in a.flight && s.pending.None?
  }

  /** A task that has written a record applies it. */
  lemma Applies(cfg: Config, a: Await, t: nat, s: System, task: Task, record: JournalRecord, subject: Option<ExecutionCommand>, next: Task)
    requires Ordinary(cfg, a, t, s)
    ensures Reaches(cfg, Write(At(a, t, task, s), t, record, subject, next), t, At(a, t, next, Exec(cfg.durability, s, Log(record))))
  {
    hide Applied, Log, Exec, Reaches;
    LogIs(cfg.durability, s, record);
    WithoutLast(a.flight, t);
    var b := Write(At(a, t, task, s), t, record, subject, next);
    StepReaches(cfg, b, t, ApplyRecord);
    assert b.Task(t) == InFlight(record, subject, next);
    assert b.tasks[t := next] == a.tasks[t := next];
  }

  lemma Moves(cfg: Config, a: Await, t: nat, s: System, task: Task, action: Action, next: Task)
    requires Ordinary(cfg, a, t, s) && Enabled(cfg, At(a, t, task, s), t, action) && Own(action)
    requires Step(cfg, At(a, t, task, s), t, action) == Local(At(a, t, task, s), t, next)
    ensures Reaches(cfg, At(a, t, task, s), t, At(a, t, next, s))
  {
    hide Step, Enabled, Reaches;
    StepReaches(cfg, At(a, t, task, s), t, action);
    assert a.tasks[t := task][t := next] == a.tasks[t := next];
  }

  lemma Writes(cfg: Config, a: Await, t: nat, s: System, task: Task, action: Action, record: JournalRecord, subject: Option<ExecutionCommand>, next: Task)
    requires Ordinary(cfg, a, t, s) && Enabled(cfg, At(a, t, task, s), t, action) && Own(action)
    requires Step(cfg, At(a, t, task, s), t, action) == Write(At(a, t, task, s), t, record, subject, next)
    ensures Reaches(cfg, At(a, t, task, s), t, At(a, t, next, Exec(cfg.durability, s, Log(record))))
  {
    hide Step, Enabled, Reaches, Exec, Log;
    var b := At(a, t, task, s);
    StepReaches(cfg, b, t, action);
    Applies(cfg, a, t, s, task, record, subject, next);
    Onwards(cfg, b, t, Write(b, t, record, subject, next), At(a, t, next, Exec(cfg.durability, s, Log(record))));
  }

  /* The sending loop. */

  /** The accepted commands are those whose account's channel is open. */
  ghost predicate Accepts(a: Await, s: System, c: ExecutionCommand, accepted: set<string>) {
    c.targetAccountId in s.sessions ==> (c.commandId in accepted <==> s.sessions[c.targetAccountId] in a.open)
  }

  /** A command for a connected account is taken up and recorded as dispatched. */
  lemma TakesUp(cfg: Config, a: Await, t: nat, s: System, c: ExecutionCommand, rest: seq<ExecutionCommand>)
    requires Ordinary(cfg, a, t, s) && c.targetAccountId in s.sessions
    ensures Reaches(cfg, At(a, t, Sending([c] + rest), s), t,
                    At(a, t, Pushing(c, s.sessions[c.targetAccountId], rest), Exec(cfg.durability, s, Log(CommandDispatched(c.commandId)))))
  {
    hide Reaches, Exec, Log, Applied, RouteRule.Usable;
    var task, session := Sending([c] + rest), s.sessions[c.targetAccountId];
    assert ([c] + rest)[1..] == rest;
    Moves(cfg, a, t, s, task, TakeSession, Holding(c, session, rest));
    Writes(cfg, a, t, s, Holding(c, session, rest), WriteDispatched, CommandDispatched(c.commandId), Some(c), Pushing(c, session, rest));
    Onwards(cfg, At(a, t, task, s), t, At(a, t, Holding(c, session, rest), s),
            At(a, t, Pushing(c, session, rest), Exec(cfg.durability, s, Log(CommandDispatched(c.commandId)))));
  }

  lemma SendsOne(cfg: Config, a: Await, t: nat, s: System, c: ExecutionCommand, rest: seq<ExecutionCommand>, accepted: set<string>)
    requires Ordinary(cfg, a, t, s) && Accepts(a, s, c, accepted)
    ensures Reaches(cfg, At(a, t, Sending([c] + rest), s), t,
                    At(a, t, Sending(rest), Exec(cfg.durability, s, DispatchEffects(s.sessions, c, accepted))))
  {
    hide Reaches, Exec, Log, Applied, RouteRule.Usable;
    var task := Sending([c] + rest);
    if c.targetAccountId !in s.sessions {
      assert ([c] + rest)[1..] == rest;
      Moves(cfg, a, t, s, task, SkipNext, Sending(rest));
      ExecNothing(cfg.durability, s);
    } else {
      hide DispatchEffects, At;
      var session := s.sessions[c.targetAccountId];
      TakesUp(cfg, a, t, s, c, rest);
      Answers(cfg, a, t, s, c, session, rest, accepted);
      Onwards(cfg, At(a, t, task, s), t, At(a, t, Pushing(c, session, rest), Exec(cfg.durability, s, Log(CommandDispatched(c.commandId)))),
              At(a, t, Sending(rest), Exec(cfg.durability, s, DispatchEffects(s.sessions, c, accepted))));
    }
  }

  lemma ExecNothing(durability: Durability, s: System)
    ensures Exec(durability, s, []) == s
  {
  }

  /** What the channel makes of a command that was just recorded as dispatched. */
  lemma Answers(cfg: Config, a: Await, t: nat, s: System, c: ExecutionCommand, session: nat, rest: seq<ExecutionCommand>, accepted: set<string>)
    requires Ordinary(cfg, a, t, s) && Accepts(a, s, c, accepted)
    requires c.targetAccountId in s.sessions && s.sessions[c.targetAccountId] == session
    ensures Reaches(cfg, At(a, t, Pushing(c, session, rest), Exec(cfg.durability, s, Log(CommandDispatched(c.commandId)))), t,
                    At(a, t, Sending(rest), Exec(cfg.durability, s, DispatchEffects(s.sessions, c, accepted))))
  {
    hide Reaches, Exec, Log, Applied, RouteRule.Usable;
    var log := Log(CommandDispatched(c.commandId));
    LogIs(cfg.durability, s, CommandDispatched(c.commandId));
    var mid := Exec(cfg.durability, s, log);
    var task := Pushing(c, session, rest);
    if session in a.open {
      var b := At(a, t, task, mid);
      StepReaches(cfg, b, t, PushAccepted);
      ExecOne(cfg.durability, mid, Push(c));
      ExecConcat(cfg.durability, s, log, [Push(c)]);
      assert a.tasks[t := task][t := Sending(rest)] == a.tasks[t := Sending(rest)];
    } else {
      Writes(cfg, a, t, mid, task, PushRefused, CommandUnknown(c.commandId), Some(c), Sending(rest));
      ExecConcat(cfg.durability, s, log, Log(CommandUnknown(c.commandId)));
    }
  }

  lemma {:induction false} DispatchFirst(sessions: map<string, nat>, c: ExecutionCommand, rest: seq<ExecutionCommand>, accepted: set<string>)
    ensures DispatchAll(sessions, [c] + rest, accepted) == DispatchEffects(sessions, c, accepted) + DispatchAll(sessions, rest, accepted)
  {
    hide DispatchEffects;
    if rest == [] {
      assert [c] + rest == [c] && [c][..0] == [];
    } else {
      var init, last := rest[..|rest| - 1], rest[|rest| - 1];
      ConcatInit([c], rest);
      DispatchFirst(sessions, c, init, accepted);
    }
  }

  /** Dispatching one command leaves the sessions to the next. */
  lemma DispatchKeeps(durability: Durability, s: System, c: ExecutionCommand, accepted: set<string>)
    requires durability != NoDurability && s.pending.None?
    ensures var after := Exec(durability, s, DispatchEffects(s.sessions, c, accepted));
            after.sessions == s.sessions && after.pending.None?
  {
    hide Applied, Exec, Log;
    var log := Log(CommandDispatched(c.commandId));
    if c.targetAccountId !in s.sessions {
      ExecNothing(durability, s);
    } else {
      LogIs(durability, s, CommandDispatched(c.commandId));
      var mid := Exec(durability, s, log);
      ExecOne(durability, mid, Push(c));
      ExecConcat(durability, s, log, [Push(c)]);
      LogIs(durability, mid, CommandUnknown(c.commandId));
      ExecConcat(durability, s, log, Log(CommandUnknown(c.commandId)));
    }
  }

  lemma {:induction false} SendsAll(cfg: Config, a: Await, t: nat, s: System, commands: seq<ExecutionCommand>, accepted: set<string>)
    requires Ordinary(cfg, a, t, s) && forall c <- commands :: Accepts(a, s, c, accepted)
    ensures Reaches(cfg, At(a, t, Sending(commands), s), t,
                    At(a, t, Idle, Exec(cfg.durability, s, DispatchAll(s.sessions, commands, accepted))))
    decreases |commands|
  {
    hide Reaches, Exec, DispatchEffects, RouteRule.Usable;
    if commands == [] {
      Moves(cfg, a, t, s, Sending(commands), Finish, Idle);
      ExecNothing(cfg.durability, s);
    } else {
      var c, rest := commands[0], commands[1..];
      assert commands == [c] + rest;
      SendsOne(cfg, a, t, s, c, rest, accepted);
      DispatchKeeps(cfg.durability, s, c, accepted);
      var mid := Exec(cfg.durability, s, DispatchEffects(s.sessions, c, accepted));
      forall d | d in rest
        ensures Accepts(a, mid, d, accepted)
      {
        assert d in commands && Accepts(a, s, d, accepted);
      }
      SendsAll(cfg, a, t, mid, rest, accepted);
      DispatchFirst(s.sessions, c, rest, accepted);
      ExecConcat(cfg.durability, s, DispatchEffects(s.sessions, c, accepted), DispatchAll(s.sessions, rest, accepted));
      Onwards(cfg, At(a, t, Sending(commands), s), t, At(a, t, Sending(rest), mid),
              At(a, t, Idle, Exec(cfg.durability, s, DispatchAll(s.sessions, commands, accepted))));
    }
  }

  /* Events. */

  lemma {:induction false} Plans(cfg: Config, a: Await, t: nat, event: TradeEvent, now: I64, n: nat, planned: seq<ExecutionCommand>)
    requires Ordinary(cfg, a, t, SystemOf(a)) && n <= |ForSource(cfg.routes, event.sourceAccountId)|
    requires PlanEvent(cfg, a.ledger.mirrors, event, now) == Success(planned)
    ensures var routes := ForSource(cfg.routes, event.sourceAccountId);
            var soFar := Plan(cfg.digest, routes[..n], a.ledger.mirrors, event, now);
            && soFar.Success?
            && Reaches(cfg, At(a, t, Planning(event, now, routes, []), SystemOf(a)), t,
                       At(a, t, Planning(event, now, routes[n..], soFar.value), SystemOf(a)))
    decreases n
  {
    hide Reaches, Build, RouteRule.Usable, Absorb, ForSource;
    var routes := ForSource(cfg.routes, event.sourceAccountId);
    Race.PrefixPlans(cfg.digest, routes, a.ledger.mirrors, event, now, n);
    if n == 0 {
      StaysThere(cfg, At(a, t, Planning(event, now, routes, []), SystemOf(a)), t);
      assert routes[0..] == routes && routes[..0] == [];
    } else {
      Plans(cfg, a, t, event, now, n - 1, planned);
      Race.PrefixPlans(cfg.digest, routes, a.ledger.mirrors, event, now, n - 1);
      BuildsNext(cfg, a, t, event, now, n - 1);
    }
  }

  lemma BuildsNext(cfg: Config, a: Await, t: nat, event: TradeEvent, now: I64, n: nat)
    requires Ordinary(cfg, a, t, SystemOf(a)) && n < |ForSource(cfg.routes, event.sourceAccountId)|
    requires var routes := ForSource(cfg.routes, event.sourceAccountId);
             && Plan(cfg.digest, routes[..n], a.ledger.mirrors, event, now).Success?
             && Plan(cfg.digest, routes[..n + 1], a.ledger.mirrors, event, now).Success?
             && Reaches(cfg, At(a, t, Planning(event, now, routes, []), SystemOf(a)), t,
                        At(a, t, Planning(event, now, routes[n..], Plan(cfg.digest, routes[..n], a.ledger.mirrors, event, now).value), SystemOf(a)))
    ensures var routes := ForSource(cfg.routes, event.sourceAccountId);
            Reaches(cfg, At(a, t, Planning(event, now, routes, []), SystemOf(a)), t,
                    At(a, t, Planning(event, now, routes[n + 1..], Plan(cfg.digest, routes[..n + 1], a.ledger.mirrors, event, now).value), SystemOf(a)))
  {
    hide Reaches, Build, RouteRule.Validate, Plan, ForSource;
    var routes, s := ForSource(cfg.routes, event.sourceAccountId), SystemOf(a);
    var before := Plan(cfg.digest, routes[..n], a.ledger.mirrors, event, now).value;
    var after := Plan(cfg.digest, routes[..n + 1], a.ledger.mirrors, event, now).value;
    PlanSnoc(cfg.digest, routes, a.ledger.mirrors, event, now, n, before);
    assert routes[n..][0] == routes[n] && routes[n..][1..] == routes[n + 1..] && routes[n] in routes;
    var task := Planning(event, now, routes[n..], before);
    assert At(a, t, task, s).Task(t) == task && At(a, t, task, s).ledger == a.ledger;
    Moves(cfg, a, t, s, task, BuildNext, Planning(event, now, routes[n + 1..], after));
    Onwards(cfg, At(a, t, Planning(event, now, routes, []), s), t, At(a, t, task, s), At(a, t, Planning(event, now, routes[n + 1..], after), s));
  }

  /** An event a task may take up, handled without interruption, does what HandleEvent does. */
  lemma EventAlone(cfg: Config, a: Await, t: nat, event: TradeEvent, now: I64, accepted: set<string>, planned: seq<ExecutionCommand>)
    requires Ordinary(cfg, a, t, SystemOf(a)) && Enabled(cfg, a, t, StartEvent(event, now))
    requires PlanEvent(cfg, a.ledger.mirrors, event, now) == Success(planned)
    requires forall c <- planned :: Accepts(a, SystemOf(a), c, accepted)
    ensures var effects := EventEffects(cfg, SystemOf(a), event, now, accepted);
            effects.Success? && Reaches(cfg, a, t, At(a, t, Idle, Exec(cfg.durability, SystemOf(a), effects.value)))
  {
    hide Reaches, Exec, Plan, Log, DispatchAll, TradeEvent.Validate;
    var s, routes, record := SystemOf(a), ForSource(cfg.routes, event.sourceAccountId), EventPlanned(event.eventId, planned);
    hide ForSource, Applied, RouteRule.Usable;
    var ready := Planning(event, now, [], planned);
    StepReaches(cfg, a, t, StartEvent(event, now));
    assert Step(cfg, a, t, StartEvent(event, now)) == At(a, t, Planning(event, now, routes, []), s);
    Plans(cfg, a, t, event, now, |routes|, planned);
    assert routes[..|routes|] == routes && routes[|routes|..] == [];
    Onwards(cfg, a, t, At(a, t, Planning(event, now, routes, []), s), At(a, t, ready, s));
    Writes(cfg, a, t, s, ready, WritePlan, record, None, Sending(planned));
    LogIs(cfg.durability, s, record);
    var logged := Exec(cfg.durability, s, Log(record));
    Onwards(cfg, a, t, At(a, t, ready, s), At(a, t, Sending(planned), logged));
    SendsAll(cfg, a, t, logged, planned, accepted);
    ExecConcat(cfg.durability, s, Log(record), DispatchAll(s.sessions, planned, accepted));
    Onwards(cfg, a, t, At(a, t, Sending(planned), logged),
            At(a, t, Idle, Exec(cfg.durability, s, Log(record) + DispatchAll(s.sessions, planned, accepted))));
  }

  /* Connecting and leaving. */

  /** Connecting does what RegisterSession does, on an open channel. */
  lemma ConnectAlone(cfg: Config, a: Await, t: nat, account: string)
    requires Ordinary(cfg, a, t, SystemOf(a)) && a.Task(t).Idle?
    ensures Enabled(cfg, a, t, Connect(account))
    ensures Step(cfg, a, t, Connect(account))
         == At(a, t, Joining(account), Exec(cfg.durability, SystemOf(a), [OpenSession(account)])).(open := a.open + {a.nextSession})
  {
    ExecOne(cfg.durability, SystemOf(a), OpenSession(account));
  }

  /** A flush without interruption does what DispatchQueuedFor does. */
  lemma FlushAlone(cfg: Config, a: Await, t: nat, order: seq<ExecutionCommand>, keys: seq<string>, accepted: set<string>)
    requires Ordinary(cfg, a, t, SystemOf(a)) && Enabled(cfg, a, t, StartDispatch(order, keys))
    requires forall c <- order :: Accepts(a, SystemOf(a), c, accepted)
    ensures Reaches(cfg, a, t, At(a, t, Idle, Exec(cfg.durability, SystemOf(a), DispatchAll(a.sessions, order, accepted))))
  {
    hide Reaches, Exec, DispatchAll, Selects, RouteRule.Usable;
    StepReaches(cfg, a, t, StartDispatch(order, keys));
    assert Step(cfg, a, t, StartDispatch(order, keys)) == At(a, t, Sending(order), SystemOf(a));
    SendsAll(cfg, a, t, SystemOf(a), order, accepted);
    Onwards(cfg, a, t, At(a, t, Sending(order), SystemOf(a)),
            At(a, t, Idle, Exec(cfg.durability, SystemOf(a), DispatchAll(a.sessions, order, accepted))));
  }

  lemma {:induction false} MarkFirst(id: string, rest: seq<string>)
    ensures MarkAll([id] + rest) == Log(CommandUnknown(id)) + MarkAll(rest)
  {
    hide Log;
    if rest == [] {
      assert [id] + rest == [id] && [id][..0] == [];
    } else {
      ConcatInit([id], rest);
      MarkFirst(id, rest[..|rest| - 1]);
    }
  }

  lemma {:induction false} MarksAll(cfg: Config, a: Await, t: nat, s: System, commands: seq<ExecutionCommand>)
    requires Ordinary(cfg, a, t, s)
    ensures Reaches(cfg, At(a, t, Marking(commands), s), t, At(a, t, Idle, Exec(cfg.durability, s, MarkAll(Ids(commands)))))
    decreases |commands|
  {
    hide Reaches, Exec, Log, Applied, RouteRule.Usable;
    if commands == [] {
      Moves(cfg, a, t, s, Marking(commands), Finish, Idle);
      ExecNothing(cfg.durability, s);
    } else {
      var c, rest := commands[0], commands[1..];
      var record := CommandUnknown(c.commandId);
      Writes(cfg, a, t, s, Marking(commands), WriteUnknown, record, Some(c), Marking(rest));
      LogIs(cfg.durability, s, record);
      var mid := Exec(cfg.durability, s, Log(record));
      MarksAll(cfg, a, t, mid, rest);
      assert Ids(commands) == [c.commandId] + Ids(rest);
      MarkFirst(c.commandId, Ids(rest));
      ExecConcat(cfg.durability, s, Log(record), MarkAll(Ids(rest)));
      Onwards(cfg, At(a, t, Marking(commands), s), t, At(a, t, Marking(rest), mid),
              At(a, t, Idle, Exec(cfg.durability, s, MarkAll(Ids(commands)))));
    }
  }

  /** A disconnect without interruption does what UnregisterSession does. */
  lemma DisconnectAlone(cfg: Config, a: Await, t: nat, account: string, session: nat, order: seq<ExecutionCommand>, keys: seq<string>)
    requires Ordinary(cfg, a, t, SystemOf(a)) && Enabled(cfg, a, t, Disconnect(account, session))
    requires Selects(a.ledger, account, Dispatched, order, keys)
    ensures Reaches(cfg, a, t, At(a, t, Idle, Exec(cfg.durability, SystemOf(a), DisconnectEffects(SystemOf(a), account, session, order))))
  {
    hide Reaches, Exec, MarkAll, Selects, RouteRule.Usable;
    var s := SystemOf(a);
    ExecOne(cfg.durability, s, CloseSession(account));
    var closed := Exec(cfg.durability, s, [CloseSession(account)]);
    StepReaches(cfg, a, t, Disconnect(account, session));
    assert Step(cfg, a, t, Disconnect(account, session)) == At(a, t, Leaving(account), closed);
    Moves(cfg, a, t, closed, Leaving(account), StartUnregister(order, keys), Marking(order));
    Onwards(cfg, a, t, At(a, t, Leaving(account), closed), At(a, t, Marking(order), closed));
    MarksAll(cfg, a, t, closed, order);
    ExecConcat(cfg.durability, s, [CloseSession(account)], MarkAll(Ids(order)));
    Onwards(cfg, a, t, At(a, t, Marking(order), closed),
            At(a, t, Idle, Exec(cfg.durability, s, [CloseSession(account)] + MarkAll(Ids(order)))));
  }

  /* Acknowledgements. */

  lemma Books(cfg: Config, a: Await, t: nat, s: System, ack: ExecutionAck, command: ExecutionCommand)
    requires Ordinary(cfg, a, t, s)
    ensures Reaches(cfg, At(a, t, Acking(ack, command), s), t,
                    At(a, t, Idle, Exec(cfg.durability, s, Log(AckRecord(s.ledger.mirrors, command, ack)))))
  {
    hide Reaches, Exec, Log, AckRecord, RouteRule.Usable;
    var record := AckRecord(s.ledger.mirrors, command, ack);
    Moves(cfg, a, t, s, Acking(ack, command), DecideAck, Booking(record, command));
    Writes(cfg, a, t, s, Booking(record, command), WriteAck, record, Some(command), Idle);
    Onwards(cfg, At(a, t, Acking(ack, command), s), t, At(a, t, Booking(record, command), s),
            At(a, t, Idle, Exec(cfg.durability, s, Log(record))));
  }

  /** An acknowledgement handled without interruption does what HandleAck does. */
  lemma AckAlone(cfg: Config, a: Await, t: nat, ack: ExecutionAck)
    requires Ordinary(cfg, a, t, SystemOf(a)) && Enabled(cfg, a, t, StartAck(ack))
    ensures var effects := AckEffects(SystemOf(a), ack);
            effects.Success? && Reaches(cfg, a, t, At(a, t, Idle, Exec(cfg.durability, SystemOf(a), effects.value)))
  {
    hide Reaches, Exec, Log, AckRecord, RouteRule.Usable, Applied;
    var s, command := SystemOf(a), a.ledger.commands[ack.commandId].command;
    StepReaches(cfg, a, t, StartAck(ack));
    assert Step(cfg, a, t, StartAck(ack)) == At(a, t, Acking(ack, command), s);
    Books(cfg, a, t, s, ack, command);
    Onwards(cfg, a, t, At(a, t, Acking(ack, command), s),
            At(a, t, Idle, Exec(cfg.durability, s, Log(AckRecord(a.ledger.mirrors, command, ack)))));
  }

  /* One way to go on. */

  /** A task that is doing something can go on in one way only, apart from the order in which the hash
      map yields the commands a loop runs over. */
  lemma OneWayOn(cfg: Config, a: Await, t: nat, x: Action, y: Action)
    requires cfg.Usable() && !a.Task(t).Idle? && Own(x) && Own(y)
    requires Enabled(cfg, a, t, x) && Enabled(cfg, a, t, y)
    ensures x == y || (x.StartDispatch? && y.StartDispatch?) || (x.StartUnregister? && y.StartUnregister?)
  {
    hide Selects, NextPlan, RouteRule.Usable;
  }
}
