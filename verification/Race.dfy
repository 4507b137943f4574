/** When a queue flush goes wrong: exactly when it selects a command that another handler can still
    push, and such flushes do happen, in every configuration that copies anything. */
module Race {
  import opened Wrappers
  import opened Model
  import opened Routing
  import opened Journal
  import opened Handlers
  import opened History
  import opened AwaitLevel
  import opened Overlap
  import Hypotheses
  import Runs

  lemma {:induction false} FromConcat(cfg: Config, a: Await, x: seq<Turn>, y: seq<Turn>)
    requires cfg.Usable()
    ensures From(cfg, a, x + y) == From(cfg, From(cfg, a, x), y)
  {
    hide Step, Enabled;
    if y == [] {
      assert x + y == x;
    } else {
      assert (x + y)[..|x + y| - 1] == x + y[..|y| - 1];
      FromConcat(cfg, a, x, y[..|y| - 1]);
    }
  }

  lemma FromOne(cfg: Config, a: Await, turn: Turn)
    requires cfg.Usable() && Enabled(cfg, a, turn.task, turn.action)
    ensures From(cfg, a, [turn]) == Step(cfg, a, turn.task, turn.action)
  {
    hide Step, Enabled;
    assert [turn][..0] == [];
    assert From(cfg, a, []) == a;
  }

  /* What one handler can still do. */

  /** No handler but `t` that is doing something moved, and no channel closed. */
  ghost predicate Spares(a: Await, b: Await, t: nat) {
    && (forall u: nat :: u != t && !a.Task(u).Idle? ==> b.Task(u) == a.Task(u))
    && a.open <= b.open
    && |a.sent| <= |b.sent| && b.sent[..|a.sent|] == a.sent
  }

  /** A command named `id` was pushed in between. */
  ghost predicate Pushed(a: Await, b: Await, id: string) {
    exists i :: |a.sent| <= i < |b.sent| && b.sent[i].commandId == id
  }

  predicate NoFlush(turns: seq<Turn>) {
    forall turn <- turns :: !turn.action.StartDispatch?
  }

  /** How far a sending handler is from being done. */
  function Effort(task: Task): nat {
    match task
    case Sending(commands) => 6 * |commands|
    case Holding(_, _, rest) => 6 * |rest| + 5
    case Pushing(_, _, rest) => 6 * |rest| + 3
    case InFlight(_, _, next) => Effort(next) + 1
    case _ => 0
  }

  /** What a sending handler does next. */
  function Advance(a: Await, t: nat): Action {
    match a.Task(t)
    case Sending(commands) => if commands != [] && commands[0].targetAccountId in a.sessions then TakeSession else SkipNext
    case Holding(_, _, _) => WriteDispatched
    case Pushing(_, session, _) => if session in a.open then PushAccepted else PushRefused
    case _ => ApplyRecord
  }

  /** The command is at hand, but its account has no open session to send it to. */
  predicate Waits(a: Await, t: nat, id: string) {
    var task := a.Task(t);
    task.Sending? && task.commands != [] && task.commands[0].commandId == id
    && (task.commands[0].targetAccountId in a.sessions ==> a.sessions[task.commands[0].targetAccountId] !in a.open)
  }

  predicate Pushes(a: Await, t: nat, id: string) {
    a.Task(t).Pushing? && a.Task(t).command.commandId == id && a.Task(t).session in a.open
  }

  lemma CanAdvance(cfg: Config, a: Await, t: nat, id: string)
    requires cfg.Usable() && id in Hands(a, t)
    ensures Enabled(cfg, a, t, Advance(a, t))
  {
  }

  lemma AdvanceSpares(cfg: Config, a: Await, t: nat)
    requires cfg.Usable() && Enabled(cfg, a, t, Advance(a, t))
    ensures Spares(a, Step(cfg, a, t, Advance(a, t)), t)
    ensures var b := Step(cfg, a, t, Advance(a, t));
            b.open == a.open && b.Task(t) == Step(cfg, a, t, Advance(a, t)).Task(t)
  {
  }

  lemma TailIds(commands: seq<ExecutionCommand>, id: string)
    requires commands != [] && id in IdSet(commands) && commands[0].commandId != id
    ensures id in IdSet(commands[1..])
  {
    var c :| c in commands && c.commandId == id;
    assert c in commands[1..];
  }

  /** Unless it pushes the command now, or waits for a session, a handler that can push it gets
      closer to doing so. */
  lemma AdvanceCloser(cfg: Config, a: Await, t: nat, id: string)
    requires cfg.Usable() && id in Hands(a, t) && !Pushes(a, t, id) && !Waits(a, t, id)
    requires Enabled(cfg, a, t, Advance(a, t))
    ensures id in Hands(Step(cfg, a, t, Advance(a, t)), t)
    ensures Effort(Step(cfg, a, t, Advance(a, t)).Task(t)) < Effort(a.Task(t))
  {
    var task := a.Task(t);
    var b := Step(cfg, a, t, Advance(a, t));
    match task
    case Sending(commands) =>
      if commands[0].commandId != id {
        TailIds(commands, id);
      }
      assert b.Task(t).Holding? ==> b.Task(t).rest == commands[1..] && b.Task(t).command == commands[0];
    case Holding(command, session, rest) =>
      assert b.Task(t).next == Pushing(command, session, rest);
      assert Live(b.open, b.Task(t)) == Live(b.open, b.Task(t).next);
    case Pushing(_, session, rest) =>
      assert session !in a.open ==> b.Task(t).next == Sending(rest) && Live(b.open, b.Task(t)) == Live(b.open, Sending(rest));
    case InFlight(_, _, next) =>
      assert b.Task(t) == next && b.open == a.open;
      assert Live(a.open, task) == Live(a.open, next) && Effort(task) == Effort(next) + 1;
  }

  lemma PushesNow(cfg: Config, a: Await, t: nat, id: string)
    requires cfg.Usable() && Pushes(a, t, id)
    ensures Enabled(cfg, a, t, PushAccepted)
    ensures var b := Step(cfg, a, t, PushAccepted); Spares(a, b, t) && Pushed(a, b, id)
  {
    var b := Step(cfg, a, t, PushAccepted);
    assert b.sent[|a.sent|] == a.Task(t).command;
  }

  lemma {:induction false} Unused(tasks: set<nat>) returns (v: nat)
    ensures forall t <- tasks :: t < v
  {
    if tasks == {} {
      v := 0;
    } else {
      var t :| t in tasks;
      v := Unused(tasks - {t});
      v := if v <= t then t + 1 else v;
      assert forall u <- tasks :: u == t || u in tasks - {t};
    }
  }

  /** A new connection brings an account an open session. */
  lemma Connects(cfg: Config, a: Await, t: nat, id: string) returns (v: nat)
    requires cfg.Usable() && id in Hands(a, t) && Waits(a, t, id)
    ensures var connect := Connect(a.Task(t).commands[0].targetAccountId);
            && Enabled(cfg, a, v, connect)
            && var b := Step(cfg, a, v, connect);
               Spares(a, b, t) && b.Task(t) == a.Task(t) && id in Hands(b, t) && !Waits(b, t, id)
  {
    v := Unused(a.tasks.Keys);
    assert v !in a.tasks;
  }

  lemma SparesThen(a: Await, b: Await, c: Await, t: nat, id: string)
    requires Spares(a, b, t) && Spares(b, c, t)
    ensures Spares(a, c, t)
    ensures Pushed(b, c, id) ==> Pushed(a, c, id)
  {
    assert c.sent[..|a.sent|] == c.sent[..|b.sent|][..|a.sent|];
    forall u: nat | u != t && !a.Task(u).Idle?
      ensures c.Task(u) == a.Task(u)
    {
      assert b.Task(u) == a.Task(u);
    }
  }

  lemma NoFlushConcat(x: seq<Turn>, y: seq<Turn>)
    requires NoFlush(x) && NoFlush(y)
    ensures NoFlush(x + y)
  {
  }

  /** One turn, then others. */
  lemma TurnThen(cfg: Config, a: Await, turn: Turn, rest: seq<Turn>, t: nat, id: string)
    requires cfg.Usable() && Enabled(cfg, a, turn.task, turn.action) && !turn.action.StartDispatch? && NoFlush(rest)
    requires var b := Step(cfg, a, turn.task, turn.action);
             Spares(a, b, t) && Spares(b, From(cfg, b, rest), t) && Pushed(b, From(cfg, b, rest), id)
    ensures NoFlush([turn] + rest) && Spares(a, From(cfg, a, [turn] + rest), t) && Pushed(a, From(cfg, a, [turn] + rest), id)
  {
    hide Step, Enabled, Spares, Pushed, From;
    FromOne(cfg, a, turn);
    FromConcat(cfg, a, [turn], rest);
    SparesThen(a, Step(cfg, a, turn.task, turn.action), From(cfg, a, [turn] + rest), t, id);
  }

  /** A handler that can push a command can be brought to push it, without any flush, without
      disturbing any other handler at work and without closing a channel. */
  lemma {:induction false} CanPush(cfg: Config, a: Await, t: nat, id: string) returns (turns: seq<Turn>)
    requires cfg.Usable() && id in Hands(a, t)
    ensures NoFlush(turns) && Spares(a, From(cfg, a, turns), t) && Pushed(a, From(cfg, a, turns), id)
    decreases Effort(a.Task(t)), Waits(a, t, id)
  {
    hide Step, Enabled, Spares, Pushed, From, Live, Pushes;
    if Pushes(a, t, id) {
      PushesNow(cfg, a, t, id);
      FromOne(cfg, a, Turn(t, PushAccepted));
      turns := [Turn(t, PushAccepted)];
    } else if Waits(a, t, id) {
      var v := Connects(cfg, a, t, id);
      var turn := Turn(v, Connect(a.Task(t).commands[0].targetAccountId));
      var rest := CanPush(cfg, Step(cfg, a, turn.task, turn.action), t, id);
      TurnThen(cfg, a, turn, rest, t, id);
      turns := [turn] + rest;
    } else {
      CanAdvance(cfg, a, t, id);
      AdvanceSpares(cfg, a, t);
      AdvanceCloser(cfg, a, t, id);
      var turn := Turn(t, Advance(a, t));
      var rest := CanPush(cfg, Step(cfg, a, turn.task, turn.action), t, id);
      TurnThen(cfg, a, turn, rest, t, id);
      turns := [turn] + rest;
    }
  }

  /* Two handlers with one command. */

  lemma StillInHands(a: Await, b: Await, t: nat, u: nat, id: string)
    requires Spares(a, b, t) && t != u && id in Hands(a, u)
    ensures id in Hands(b, u)
  {
    assert b.Task(u) == a.Task(u);
    MoreOpen(a.open, b.open, a.Task(u));
  }

  lemma {:induction false} MoreOpen(x: set<nat>, y: set<nat>, task: Task)
    requires x <= y
    ensures Live(x, task) <= Live(y, task)
    decreases task
  {
    if task.InFlight? {
      MoreOpen(x, y, task.next);
    }
  }

  lemma PushedTwice(a: Await, b: Await, c: Await, t: nat, id: string)
    requires Pushed(a, b, id) && Pushed(b, c, id) && Spares(b, c, t)
    ensures !NoRepeats(Ids(c.sent))
  {
    var i :| |a.sent| <= i < |b.sent| && b.sent[i].commandId == id;
    var j :| |b.sent| <= j < |c.sent| && c.sent[j].commandId == id;
    assert c.sent[i] == c.sent[..|b.sent|][i];
    assert Ids(c.sent)[i] == Ids(c.sent)[j];
  }

  lemma BothPush(cfg: Config, a: Await, t: nat, u: nat, id: string) returns (turns: seq<Turn>)
    requires cfg.Usable() && t != u && id in Hands(a, t) && id in Hands(a, u)
    ensures NoFlush(turns) && !NoRepeats(Ids(From(cfg, a, turns).sent))
  {
    hide Step, Enabled, Spares, Pushed, Live;
    var first := CanPush(cfg, a, t, id);
    var b := From(cfg, a, first);
    StillInHands(a, b, t, u, id);
    var second := CanPush(cfg, b, u, id);
    FromConcat(cfg, a, first, second);
    PushedTwice(a, b, From(cfg, b, second), u, id);
    NoFlushConcat(first, second);
    turns := first + second;
  }

  lemma {:induction false} NoFlushIsSafe(cfg: Config, a: Await, turns: seq<Turn>)
    requires cfg.Usable() && NoFlush(turns)
    ensures FlushesSafe(cfg, a, turns)
  {
    hide Step, Enabled, FlushSafe;
    if turns != [] {
      NoFlushIsSafe(cfg, a, turns[..|turns| - 1]);
      assert turns[|turns| - 1] in turns;
    }
  }

  /* The flush that matters. */

  /** From here, without another unsafe flush, some command can still be sent twice. */
  ghost predicate Doomed(cfg: Config, a: Await)
    requires cfg.Usable()
  {
    exists more :: FlushesSafe(cfg, a, more) && !NoRepeats(Ids(From(cfg, a, more).sent))
  }

  lemma SelectedIsHeld(cfg: Config, a: Await, t: nat, order: seq<ExecutionCommand>, keys: seq<string>, id: string)
    requires cfg.Usable() && StoredOk(cfg, a.ledger) && Enabled(cfg, a, t, StartDispatch(order, keys)) && id in keys
    ensures id in Hands(Step(cfg, a, t, StartDispatch(order, keys)), t)
  {
    hide StoredOk;
    SelectedById(cfg, a.ledger, a.Task(t).account, order, keys);
    var i :| 0 <= i < |keys| && keys[i] == id;
    assert order[i] in order && Ids(order)[i] == id;
    assert Step(cfg, a, t, StartDispatch(order, keys)).Task(t) == Sending(order);
  }

  lemma OthersHold(cfg: Config, a: Await, t: nat, order: seq<ExecutionCommand>, keys: seq<string>, u: nat, id: string)
    requires cfg.Usable() && Enabled(cfg, a, t, StartDispatch(order, keys)) && id in Hands(a, u)
    ensures u != t && id in Hands(Step(cfg, a, t, StartDispatch(order, keys)), u)
  {
  }

  /** After any run from the start whose flushes were safe, a flush opens the way to sending a
      command twice if and only if it selects a command that some handler can still push. */
  lemma FlushDoomsIffHeld(cfg: Config, turns: seq<Turn>, t: nat, order: seq<ExecutionCommand>, keys: seq<string>)
    requires Separable(cfg) && FlushesSafe(cfg, BEGIN, turns)
    requires Enabled(cfg, Interleaved(cfg, turns), t, StartDispatch(order, keys))
    ensures Doomed(cfg, Step(cfg, Interleaved(cfg, turns), t, StartDispatch(order, keys)))
       <==> exists u: nat, id :: id in keys && id in Hands(Interleaved(cfg, turns), u)
  {
    hide Step, Enabled, Live;
    var a, flush := Interleaved(cfg, turns), StartDispatch(order, keys);
    SafeFlushesSendOnce(cfg, turns);
    var b := Step(cfg, a, t, flush);
    if u: nat, id :| id in keys && id in Hands(a, u) {
      SelectedIsHeld(cfg, a, t, order, keys, id);
      OthersHold(cfg, a, t, order, keys, u, id);
      var more := BothPush(cfg, b, t, u, id);
      NoFlushIsSafe(cfg, b, more);
    } else {
      SendStep(cfg, a, t, flush);
      forall more | FlushesSafe(cfg, b, more)
        ensures NoRepeats(Ids(From(cfg, b, more).sent))
      {
        SafeFlushesKeep(cfg, b, more);
      }
    }
  }

  /* Such a flush from the start. */

  /** The stored commands of an account in one state can always be listed. */
  lemma {:induction false} CanSelect(s: Ledger, account: string, state: StoredCommandState, among: set<string>)
    returns (order: seq<ExecutionCommand>, keys: seq<string>)
    ensures |order| == |keys| && NoRepeats(keys)
    ensures forall id :: id in keys <==> id in among && InState(s, account, state, id)
    ensures forall i :: 0 <= i < |keys| ==> keys[i] in s.commands && order[i] == s.commands[keys[i]].command
    decreases |among|
  {
    if among == {} {
      order, keys := [], [];
    } else {
      var id :| id in among;
      order, keys := CanSelect(s, account, state, among - {id});
      if InState(s, account, state, id) {
        order, keys := order + [s.commands[id].command], keys + [id];
      }
    }
  }

  /** The turns in which handler 0 plans an event, up to its first `n` routes. */
  function PlanningTurns(event: TradeEvent, now: I64, n: nat): (turns: seq<Turn>)
    ensures |turns| == n + 1
  {
    if n == 0 then [Turn(0, StartEvent(event, now))] else PlanningTurns(event, now, n - 1) + [Turn(0, BuildNext)]
  }

  lemma {:induction false} PlansSoFar(cfg: Config, event: TradeEvent, now: I64, n: nat, planned: seq<ExecutionCommand>)
    requires cfg.Usable() && Hypotheses.Copies(cfg, event, now, planned)
    requires n <= |ForSource(cfg.routes, event.sourceAccountId)|
    ensures var routes := ForSource(cfg.routes, event.sourceAccountId);
            var soFar := Plan(cfg.digest, routes[..n], map[], event, now);
            && soFar.Success?
            && From(cfg, BEGIN, PlanningTurns(event, now, n))
               == Local(BEGIN, 0, Planning(event, now, routes[n..], soFar.value))
    ensures NoFlush(PlanningTurns(event, now, n))
    decreases n
  {
    hide Step, Enabled, Build, RouteRule.Usable, Absorb, ForSource;
    var routes := ForSource(cfg.routes, event.sourceAccountId);
    PrefixPlans(cfg.digest, routes, map[], event, now, n);
    if n == 0 {
      StartsPlanning(cfg, event, now);
      assert routes[0..] == routes && routes[..0] == [];
    } else {
      PlansSoFar(cfg, event, now, n - 1, planned);
      BuildsNext(cfg, event, now, n - 1);
      PrefixPlans(cfg.digest, routes, map[], event, now, n - 1);
      var turns := PlanningTurns(event, now, n);
      assert turns[..n] == PlanningTurns(event, now, n - 1) && turns[n] == Turn(0, BuildNext);
      NoFlushConcat(PlanningTurns(event, now, n - 1), [Turn(0, BuildNext)]);
    }
  }

  /** A plan that succeeds succeeds on its first routes. */
  lemma {:induction false} PrefixPlans(digest: Digest, routes: seq<RouteRule>, mirrors: map<string, MirrorBinding>, event: TradeEvent, now: I64, n: nat)
    requires forall route <- routes :: route.Usable()
    requires Plan(digest, routes, mirrors, event, now).Success? && n <= |routes|
    ensures Plan(digest, routes[..n], mirrors, event, now).Success?
  {
    hide Build, RouteRule.Usable;
    if n < |routes| {
      PrefixPlans(digest, routes[..|routes| - 1], mirrors, event, now, n);
      assert routes[..|routes| - 1][..n] == routes[..n];
    } else {
      assert routes[..n] == routes;
    }
  }

  lemma StartsPlanning(cfg: Config, event: TradeEvent, now: I64)
    requires cfg.Usable() && event.Validate().Success? && Admits(cfg, event)
    ensures From(cfg, BEGIN, [Turn(0, StartEvent(event, now))])
         == Local(BEGIN, 0, Planning(event, now, ForSource(cfg.routes, event.sourceAccountId), []))
  {
    assert forall u :: BEGIN.Task(u) == Idle;
    FromOne(cfg, BEGIN, Turn(0, StartEvent(event, now)));
  }

  lemma BuildsNext(cfg: Config, event: TradeEvent, now: I64, n: nat)
    requires cfg.Usable() && n < |ForSource(cfg.routes, event.sourceAccountId)|
    requires var routes := ForSource(cfg.routes, event.sourceAccountId);
             Plan(cfg.digest, routes[..n], map[], event, now).Success? && Plan(cfg.digest, routes[..n + 1], map[], event, now).Success?
    ensures var routes := ForSource(cfg.routes, event.sourceAccountId);
            var a := Local(BEGIN, 0, Planning(event, now, routes[n..], Plan(cfg.digest, routes[..n], map[], event, now).value));
            && Enabled(cfg, a, 0, BuildNext)
            && Step(cfg, a, 0, BuildNext)
               == Local(BEGIN, 0, Planning(event, now, routes[n + 1..], Plan(cfg.digest, routes[..n + 1], map[], event, now).value))
  {
    hide Build, RouteRule.Validate;
    var routes := ForSource(cfg.routes, event.sourceAccountId);
    var before := Plan(cfg.digest, routes[..n], map[], event, now).value;
    PlanSnoc(cfg.digest, routes, map[], event, now, n, before);
    assert routes[n..][0] == routes[n] && routes[n..][1..] == routes[n + 1..] && routes[n] in routes;
    var a := Local(BEGIN, 0, Planning(event, now, routes[n..], before));
    assert a.Task(0).todo == routes[n..] && a.ledger.mirrors == map[];
    assert a.tasks[0 := Planning(event, now, routes[n + 1..], Plan(cfg.digest, routes[..n + 1], map[], event, now).value)]
        == BEGIN.tasks[0 := Planning(event, now, routes[n + 1..], Plan(cfg.digest, routes[..n + 1], map[], event, now).value)];
  }

  /** Handler 0 has planned and recorded the event and is about to send; handler 1 has just
      registered the target's session. */
  function Rivals(event: TradeEvent, planned: seq<ExecutionCommand>, account: string): Await {
    var record := EventPlanned(event.eventId, planned);
    Await(Applied(EMPTY, record), [record], map[0 := Sending(planned), 1 := Joining(account)], [], map[account := 1], 2, {1}, [])
  }

  lemma PlanIsWritten(cfg: Config, event: TradeEvent, now: I64, planned: seq<ExecutionCommand>)
    requires cfg.Usable()
    ensures var a := Local(BEGIN, 0, Planning(event, now, [], planned));
            var record := EventPlanned(event.eventId, planned);
            && Enabled(cfg, a, 0, WritePlan)
            && Step(cfg, a, 0, WritePlan) == Await(EMPTY, [record], map[0 := InFlight(record, None, Sending(planned))], [0], map[], 1, {}, [])
  {
    var record := EventPlanned(event.eventId, planned);
    assert Step(cfg, Local(BEGIN, 0, Planning(event, now, [], planned)), 0, WritePlan).tasks
        == map[0 := InFlight(record, None, Sending(planned))];
  }

  lemma PlanIsApplied(cfg: Config, record: JournalRecord, planned: seq<ExecutionCommand>)
    requires cfg.Usable()
    ensures var a := Await(EMPTY, [record], map[0 := InFlight(record, None, Sending(planned))], [0], map[], 1, {}, []);
            && Enabled(cfg, a, 0, ApplyRecord)
            && Step(cfg, a, 0, ApplyRecord) == Await(Applied(EMPTY, record), [record], map[0 := Sending(planned)], [], map[], 1, {}, [])
  {
    var a := Await(EMPTY, [record], map[0 := InFlight(record, None, Sending(planned))], [0], map[], 1, {}, []);
    assert Step(cfg, a, 0, ApplyRecord).tasks == map[0 := Sending(planned)] && [0 as nat][1..] == [];
  }

  lemma TargetConnects(cfg: Config, s: Ledger, journal: seq<JournalRecord>, planned: seq<ExecutionCommand>, account: string)
    requires cfg.Usable()
    ensures var a := Await(s, journal, map[0 := Sending(planned)], [], map[], 1, {}, []);
            && Enabled(cfg, a, 1, Connect(account))
            && Step(cfg, a, 1, Connect(account))
               == Await(s, journal, map[0 := Sending(planned), 1 := Joining(account)], [], map[account := 1], 2, {1}, [])
  {
    var a := Await(s, journal, map[0 := Sending(planned)], [], map[], 1, {}, []);
    var b := Step(cfg, a, 1, Connect(account));
    assert b.tasks == map[0 := Sending(planned), 1 := Joining(account)] && b.sessions == map[account := 1] && b.open == {1};
  }

  lemma RivalsFrom(cfg: Config, event: TradeEvent, now: I64, planned: seq<ExecutionCommand>, account: string)
    requires cfg.Usable()
    ensures var a := Local(BEGIN, 0, Planning(event, now, [], planned));
            From(cfg, a, [Turn(0, WritePlan)] + [Turn(0, ApplyRecord)] + [Turn(1, Connect(account))]) == Rivals(event, planned, account)
  {
    hide Step, Enabled;
    var record := EventPlanned(event.eventId, planned);
    var a := Local(BEGIN, 0, Planning(event, now, [], planned));
    PlanIsWritten(cfg, event, now, planned);
    FromOne(cfg, a, Turn(0, WritePlan));
    PlanIsApplied(cfg, record, planned);
    FromOne(cfg, Step(cfg, a, 0, WritePlan), Turn(0, ApplyRecord));
    FromConcat(cfg, a, [Turn(0, WritePlan)], [Turn(0, ApplyRecord)]);
    TargetConnects(cfg, Applied(EMPTY, record), [record], planned, account);
    FromOne(cfg, Step(cfg, Step(cfg, a, 0, WritePlan), 0, ApplyRecord), Turn(1, Connect(account)));
    FromConcat(cfg, a, [Turn(0, WritePlan)] + [Turn(0, ApplyRecord)], [Turn(1, Connect(account))]);
  }

  /** Turns from the start to that moment. */
  lemma ReachRivals(cfg: Config, event: TradeEvent, now: I64, planned: seq<ExecutionCommand>, account: string) returns (turns: seq<Turn>)
    requires cfg.Usable() && Hypotheses.Copies(cfg, event, now, planned)
    ensures NoFlush(turns) && Interleaved(cfg, turns) == Rivals(event, planned, account)
  {
    hide Step, Enabled;
    var routes := ForSource(cfg.routes, event.sourceAccountId);
    var first := PlanningTurns(event, now, |routes|);
    var last := [Turn(0, WritePlan)] + [Turn(0, ApplyRecord)] + [Turn(1, Connect(account))];
    PlansSoFar(cfg, event, now, |routes|, planned);
    assert routes[..|routes|] == routes && routes[|routes|..] == [];
    RivalsFrom(cfg, event, now, planned, account);
    FromConcat(cfg, BEGIN, first, last);
    NoFlushConcat(first, last);
    turns := first + last;
  }

  /** Whenever a configuration copies some event, there is an interleaving from the start in which
      a command is sent twice: its account connects, and its queue is flushed, between the moment
      the plan is recorded and the moment it is sent. */
  lemma RaceFromStart(cfg: Config, event: TradeEvent, now: I64, planned: seq<ExecutionCommand>) returns (turns: seq<Turn>)
    requires Separable(cfg) && Hypotheses.Copies(cfg, event, now, planned) && planned != []
    ensures !NoRepeats(Ids(Interleaved(cfg, turns).sent))
  {
    hide Step, Hypotheses.Copies;
    var account, id := planned[0].targetAccountId, planned[0].commandId;
    var start := ReachRivals(cfg, event, now, planned, account);
    var a := Rivals(event, planned, account);
    var order, keys := RivalSelects(cfg, event, now, planned, account);
    NoFlushIsSafe(cfg, BEGIN, start);
    FlushDoomsIffHeld(cfg, start, 1, order, keys);
    assert a.Task(0) == Sending(planned) && planned[0] in planned && id in Hands(a, 0);
    var flush := Turn(1, StartDispatch(order, keys));
    var b := Step(cfg, a, 1, flush.action);
    var more :| FlushesSafe(cfg, b, more) && !NoRepeats(Ids(From(cfg, b, more).sent));
    FromOne(cfg, a, flush);
    FromConcat(cfg, BEGIN, start, [flush]);
    FromConcat(cfg, BEGIN, start + [flush], more);
    turns := start + [flush] + more;
  }

  lemma RivalSelects(cfg: Config, event: TradeEvent, now: I64, planned: seq<ExecutionCommand>, account: string)
    returns (order: seq<ExecutionCommand>, keys: seq<string>)
    requires Separable(cfg) && Hypotheses.Copies(cfg, event, now, planned) && planned != []
    requires account == planned[0].targetAccountId
    ensures Enabled(cfg, Rivals(event, planned, account), 1, StartDispatch(order, keys))
    ensures planned[0].commandId in keys
  {
    var s := Rivals(event, planned, account).ledger;
    ForSourceDistinct(cfg.routes, event.sourceAccountId);
    PlanIdsDistinct(cfg.digest, ForSource(cfg.routes, event.sourceAccountId), map[], event, now);
    Runs.PlanQueues(map[], planned, planned[0]);
    assert InState(s, account, Queued, planned[0].commandId);
    order, keys := CanSelect(s, account, Queued, s.commands.Keys);
  }
}
