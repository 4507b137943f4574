/** Sending at most once among concurrent handlers. Flushing an account's queue while another
    handler still holds one of the selected commands can send it twice; nothing else can. */
module Overlap {
  import opened Wrappers
  import opened Model
  import opened Routing
  import opened Journal
  import opened Handlers
  import opened History
  import opened AwaitLevel
  import Confluence
  import Runs
  import Keys

  /** The commands a task is still to send. */
  function ToSend(task: Task): seq<ExecutionCommand> {
    match task
    case Sending(commands) => commands
    case Holding(command, _, rest) => [command] + rest
    case Pushing(command, _, rest) => [command] + rest
    case InFlight(_, _, next) => ToSend(next)
    case _ => []
  }

  function IdSet(commands: seq<ExecutionCommand>): set<string> {
    set c <- commands :: c.commandId
  }

  /** The ids of the commands a task can still get through to a channel: the one it has taken a
      session for only while that session's channel is open. */
  function Live(open: set<nat>, task: Task): set<string> {
    match task
    case Sending(commands) => IdSet(commands)
    case Holding(command, session, rest) => Head(open, command, session) + IdSet(rest)
    case Pushing(command, session, rest) => Head(open, command, session) + IdSet(rest)
    case InFlight(_, _, next) => Live(open, next)
    case _ => {}
  }

  function Head(open: set<nat>, command: ExecutionCommand, session: nat): set<string> {
    if session in open then {command.commandId} else {}
  }

  function Hands(a: Await, t: nat): set<string> {
    Live(a.open, a.Task(t))
  }

  /** No other handler can still push one of the selected commands. */
  ghost predicate FlushSafe(a: Await, keys: seq<string>) {
    forall u: nat, id | id in keys :: id !in Hands(a, u)
  }

  ghost predicate NotQueued(s: Ledger, id: string) {
    id in s.commands ==> s.commands[id].state != Queued
  }

  /** The route of a planned command is behind the planner; a task about to push has its
      command's dispatch record in flight. */
  ghost predicate Steady(task: Task) {
    && (task.Planning? ==>
          && NoRepeats(Ids(task.planned)) && DistinctRoutes(task.todo) && NulFree(task.todo)
          && forall c <- task.planned :: NulFreeCommand(c) && AheadOf(c, task.todo))
    && (task.InFlight? && task.next.Pushing? ==> task.record == CommandDispatched(task.next.command.commandId))
  }

  predicate NulFreeCommand(c: ExecutionCommand) {
    Keys.NUL !in c.routeId && Keys.NUL !in c.targetAccountId
  }

  predicate AheadOf(c: ExecutionCommand, todo: seq<RouteRule>) {
    forall route <- todo :: c.routeId != route.id || c.targetAccountId != route.targetAccountId
  }

  /** The session a task has taken for its command. */
  function SessionOf(task: Task): Option<nat> {
    match task
    case Holding(_, session, _) => Some(session)
    case Pushing(_, session, _) => Some(session)
    case InFlight(_, _, next) => SessionOf(next)
    case _ => None
  }

  /** Sessions still to come have never been taken by anyone. */
  ghost predicate SessionsOk(a: Await) {
    && (forall session <- a.open :: session < a.nextSession)
    && (forall account <- a.sessions :: a.sessions[account] < a.nextSession)
    && (forall t :: SessionOf(a.Task(t)).Some? ==> SessionOf(a.Task(t)).value < a.nextSession)
  }

  ghost predicate HandsOk(a: Await) {
    && (forall t :: NoRepeats(Ids(ToSend(a.Task(t)))))
    && (forall t, u :: t != u ==> Hands(a, t) !! Hands(a, u))
    && (forall t :: Steady(a.Task(t)))
    && (forall t :: a.Task(t).Pushing? ==> NotQueued(a.ledger, a.Task(t).command.commandId))
  }

  ghost predicate Spent(cfg: Config, a: Await, c: ExecutionCommand) {
    Known(cfg, a.ledger.seen, c) && NotQueued(a.ledger, c.commandId) && forall t :: c.commandId !in Hands(a, t)
  }

  ghost predicate SentOk(cfg: Config, a: Await) {
    NoRepeats(Ids(a.sent)) && forall c <- a.sent :: Spent(cfg, a, c)
  }

  ghost predicate SendInv(cfg: Config, a: Await) {
    Inv(cfg, a) && SessionsOk(a) && HandsOk(a) && SentOk(cfg, a)
  }

  lemma {:induction false} LiveIsHeld(open: set<nat>, task: Task)
    ensures Live(open, task) <= IdSet(ToSend(task))
    decreases task
  {
    match task
    case InFlight(_, _, next) => LiveIsHeld(open, next);
    case Holding(command, _, rest) => assert forall c <- [command] + rest :: c.commandId in IdSet([command] + rest);
    case Pushing(command, _, rest) => assert forall c <- [command] + rest :: c.commandId in IdSet([command] + rest);
    case _ =>
  }

  /** Closing a channel takes from what a task can push; a session nobody has taken adds nothing. */
  lemma {:induction false} LiveSessions(open: set<nat>, task: Task, session: nat)
    ensures Live(open - {session}, task) <= Live(open, task)
    ensures SessionOf(task) != Some(session) ==> Live(open + {session}, task) == Live(open, task)
    decreases task
  {
    if task.InFlight? {
      LiveSessions(open, task.next, session);
    }
  }

  /* Steps that put nothing into anybody's hands. */

  ghost predicate Releases(open: set<nat>, before: Task, after: Task) {
    NoRepeats(Ids(ToSend(after))) && Live(open, after) <= Live(open, before) && Steady(after) && !after.Pushing?
  }

  /** Hands only get emptier. */
  lemma ShrinkKeeps(cfg: Config, a: Await, b: Await)
    requires HandsOk(a) && SentOk(cfg, a) && b.ledger == a.ledger && b.sent == a.sent
    requires forall u :: Hands(b, u) <= Hands(a, u)
    requires forall u :: NoRepeats(Ids(ToSend(b.Task(u)))) && Steady(b.Task(u))
    requires forall u :: b.Task(u).Pushing? ==> b.Task(u) == a.Task(u)
    ensures HandsOk(b) && SentOk(cfg, b)
  {
    hide Live, Steady, Known, NotQueued, ToSend, NoRepeats;
    forall t: nat, u: nat | t != u
      ensures Hands(b, t) !! Hands(b, u)
    {
      assert Hands(a, t) !! Hands(a, u);
    }
    forall c | c in b.sent
      ensures Spent(cfg, b, c)
    {
      assert Spent(cfg, a, c);
    }
  }

  lemma ReleaseKeeps(cfg: Config, a: Await, b: Await, t: nat, task: Task)
    requires HandsOk(a) && SentOk(cfg, a) && Releases(a.open, a.Task(t), task)
    requires b.ledger == a.ledger && b.sent == a.sent && b.tasks == a.tasks[t := task]
    requires forall u :: Live(b.open, b.Task(u)) <= Live(a.open, b.Task(u))
    ensures HandsOk(b) && SentOk(cfg, b)
  {
    hide Live, Steady, Known, NotQueued, ToSend, NoRepeats, SentOk;
    assert forall u :: b.Task(u) == if u == t then task else a.Task(u);
    ShrinkKeeps(cfg, a, b);
  }

  lemma TailHands(commands: seq<ExecutionCommand>)
    requires commands != [] && NoRepeats(Ids(commands))
    ensures NoRepeats(Ids(commands[1..])) && IdSet(commands[1..]) <= IdSet(commands)
    ensures commands[0].commandId !in IdSet(commands[1..])
    ensures [commands[0]] + commands[1..] == commands
  {
    var ids := Ids(commands);
    assert Ids(commands[1..]) == ids[1..];
    forall c | c in commands[1..]
      ensures c.commandId != commands[0].commandId
    {
      var i :| 0 <= i < |commands| - 1 && commands[1..][i] == c;
      assert ids[i + 1] != ids[0];
    }
  }

  lemma DropRoute(todo: seq<RouteRule>)
    requires DistinctRoutes(todo) && NulFree(todo) && todo != []
    ensures DistinctRoutes(todo[1..]) && NulFree(todo[1..])
  {
  }

  /** A route just taken is none of those that remain. */
  lemma RouteTaken(todo: seq<RouteRule>, source: string, c: ExecutionCommand)
    requires DistinctRoutes(todo) && NulFree(todo) && todo != [] && forall route <- todo :: route.sourceAccountId == source
    requires c.routeId == todo[0].id && c.targetAccountId == todo[0].targetAccountId
    ensures NulFreeCommand(c) && AheadOf(c, todo[1..])
  {
    forall other | other in todo[1..]
      ensures todo[0].id != other.id || todo[0].targetAccountId != other.targetAccountId
    {
      var i :| 0 <= i < |todo| - 1 && todo[1..][i] == other;
      assert todo[i + 1] == other && todo[i + 1] in todo && todo[0] in todo;
    }
    assert todo[0] in todo;
  }

  lemma PlannerGrows(task: Task, more: seq<ExecutionCommand>)
    requires task.Planning? && Steady(task) && task.todo != [] && NoRepeats(Ids(task.planned + more))
    requires forall c <- more :: NulFreeCommand(c) && AheadOf(c, task.todo[1..])
    ensures Steady(task.(todo := task.todo[1..], planned := task.planned + more))
  {
    DropRoute(task.todo);
  }

  /** A built command carries the route just taken, which is ahead of all that remain. */
  lemma BuildKeepsPlanner(cfg: Config, a: Await, task: Task)
    requires History.Sound(cfg) && task.Planning? && Steady(task) && TaskOk(cfg, a.ledger.seen, task) && task.todo != []
    requires task.todo[0].Usable()
    requires NextPlan(cfg, a, task).Success?
    ensures Steady(task.(todo := task.todo[1..], planned := NextPlan(cfg, a, task).value))
  {
    var outcome := Build(cfg.digest, a.ledger.mirrors, task.event, task.todo[0], task.now);
    if outcome.Success? && outcome.value.Some? {
      var c := outcome.value.value;
      NewIdDiffers(cfg, a, task, c);
      RouteTaken(task.todo, task.event.sourceAccountId, c);
      PlannerGrows(task, [c]);
    } else {
      assert task.planned + [] == task.planned;
      PlannerGrows(task, []);
    }
  }

  lemma NewIdDiffers(cfg: Config, a: Await, task: Task, command: ExecutionCommand)
    requires History.Sound(cfg) && task.Planning? && Steady(task) && TaskOk(cfg, a.ledger.seen, task) && task.todo != []
    requires task.todo[0].Usable() && Made(cfg.digest, a.ledger.mirrors, task.event, task.now, task.todo[0], command)
    ensures command.routeId == task.todo[0].id && command.targetAccountId == task.todo[0].targetAccountId
    ensures NoRepeats(Ids(task.planned + [command]))
  {
    MadeGenuine(cfg, a.ledger.mirrors, task.event, task.now, task.todo[0], command);
    forall i | 0 <= i < |task.planned|
      ensures Ids(task.planned)[i] != command.commandId
    {
      var c := task.planned[i];
      assert c in task.planned && Genuine(cfg, c) && c.originEventId == task.event.eventId;
      assert NulFreeCommand(c) && AheadOf(c, task.todo);
      Keys.CommandIdInjective(cfg.digest, c.originEventId, c.routeId, c.targetAccountId,
                              command.originEventId, command.routeId, command.targetAccountId);
    }
    assert Ids(task.planned + [command]) == Ids(task.planned) + [command.commandId];
  }

  /* Steps that take new commands in hand. */

  /** Fresh commands: nobody can push them and they were never sent. */
  ghost predicate Fresh(a: Await, commands: seq<ExecutionCommand>) {
    && NoRepeats(Ids(commands))
    && (forall c <- commands :: forall u :: c.commandId !in Hands(a, u))
    && (forall c <- commands :: forall d <- a.sent :: c.commandId != d.commandId)
  }

  lemma TakeKeeps(cfg: Config, a: Await, b: Await, t: nat, task: Task)
    requires HandsOk(a) && SentOk(cfg, a) && Fresh(a, ToSend(task)) && !task.Pushing? && Steady(task)
    requires b.ledger == a.ledger && b.sent == a.sent && b.open == a.open && b.tasks == a.tasks[t := task]
    ensures HandsOk(b) && SentOk(cfg, b)
  {
    hide Live, Steady, Known, NotQueued, NoRepeats, ToSend;
    assert forall u :: b.Task(u) == if u == t then task else a.Task(u);
    LiveIsHeld(a.open, task);
    forall u: nat, v: nat | u != v
      ensures Hands(b, u) !! Hands(b, v)
    {
      assert Hands(a, u) !! Hands(a, v);
    }
    forall c | c in b.sent
      ensures Spent(cfg, b, c)
    {
      assert Spent(cfg, a, c);
      assert c.commandId !in IdSet(ToSend(task));
      forall u: nat
        ensures c.commandId !in Hands(b, u)
      {
        assert u != t ==> Hands(b, u) == Hands(a, u);
      }
    }
  }

  /** Whatever a task holds is known, or part of its own plan in flight. */
  lemma HandsAreGenuine(cfg: Config, seen: set<string>, task: Task, c: ExecutionCommand)
    requires TaskOk(cfg, seen, task) && c in ToSend(task)
    ensures Genuine(cfg, c) && (c.originEventId in seen || EventOf(task) == Some(c.originEventId))
  {
  }

  lemma NotInHands(cfg: Config, a: Await, t: nat, c: ExecutionCommand, u: nat)
    requires Separable(cfg) && TasksOk(cfg, a) && a.Task(t).Planning? && c in a.Task(t).planned
    ensures c.commandId !in Hands(a, u)
  {
    assert TaskOk(cfg, a.ledger.seen, a.Task(t)) && TaskOk(cfg, a.ledger.seen, a.Task(u));
    assert u != t ==> AwaitLevel.Apart(a.Task(t), a.Task(u));
    forall d | d in ToSend(a.Task(u))
      ensures d.commandId != c.commandId
    {
      HandsAreGenuine(cfg, a.ledger.seen, a.Task(u), d);
      if d.commandId == c.commandId {
        IdDeterminesEvent(cfg, c, d);
      }
    }
    LiveIsHeld(a.open, a.Task(u));
  }

  lemma PlanIsFreshlyTaken(cfg: Config, a: Await, t: nat)
    requires Separable(cfg) && SendInv(cfg, a) && a.Task(t).Planning?
    ensures Fresh(a, a.Task(t).planned)
  {
    var task := a.Task(t);
    assert TaskOk(cfg, a.ledger.seen, task) && Steady(task);
    forall c, u: nat | c in task.planned
      ensures c.commandId !in Hands(a, u)
    {
      NotInHands(cfg, a, t, c, u);
    }
    forall c, d | c in task.planned && d in a.sent
      ensures c.commandId != d.commandId
    {
      assert Spent(cfg, a, d);
      if c.commandId == d.commandId {
        IdDeterminesEvent(cfg, c, d);
      }
    }
  }

  lemma SelectionIsFresh(cfg: Config, a: Await, account: string, order: seq<ExecutionCommand>, keys: seq<string>)
    requires SendInv(cfg, a) && Selects(a.ledger, account, Queued, order, keys) && FlushSafe(a, keys)
    ensures Fresh(a, order)
  {
    hide Live;
    SelectedById(cfg, a.ledger, account, order, keys);
    forall c | c in order
      ensures forall u: nat :: c.commandId !in Hands(a, u)
      ensures forall d <- a.sent :: c.commandId != d.commandId
    {
      var i :| 0 <= i < |order| && order[i] == c;
      assert keys[i] in keys && Ids(order)[i] == c.commandId;
      assert InState(a.ledger, account, Queued, keys[i]);
      forall d | d in a.sent
        ensures c.commandId != d.commandId
      {
        assert Spent(cfg, a, d);
      }
    }
  }

  lemma SelectedById(cfg: Config, s: Ledger, account: string, order: seq<ExecutionCommand>, keys: seq<string>)
    requires StoredOk(cfg, s) && Selects(s, account, Queued, order, keys)
    ensures Ids(order) == keys
  {
    assert forall i :: 0 <= i < |keys| ==> keys[i] in s.commands && Ids(order)[i] == keys[i];
  }

  /* Pushing, applying, crashing. */

  lemma PushHands(a: Await, b: Await, t: nat)
    requires HandsOk(a) && a.Task(t).Pushing? && a.Task(t).session in a.open
    requires b.ledger == a.ledger && b.open == a.open && b.tasks == a.tasks[t := Sending(a.Task(t).rest)]
    ensures HandsOk(b)
    ensures forall u :: Hands(b, u) <= Hands(a, u) - {a.Task(t).command.commandId}
  {
    var task := a.Task(t);
    assert forall u :: b.Task(u) == if u == t then Sending(task.rest) else a.Task(u);
    assert NoRepeats(Ids(ToSend(task))) && ToSend(task)[1..] == task.rest;
    TailHands(ToSend(task));
    assert task.command.commandId in Hands(a, t);
    forall u: nat
      ensures Hands(b, u) <= Hands(a, u) - {task.command.commandId}
    {
      assert u != t ==> Hands(a, t) !! Hands(a, u);
    }
  }

  lemma PushKeeps(cfg: Config, a: Await, b: Await, t: nat)
    requires HandsOk(a) && SentOk(cfg, a) && a.Task(t).Pushing? && a.Task(t).session in a.open
    requires Known(cfg, a.ledger.seen, a.Task(t).command)
    requires b.ledger == a.ledger && b.open == a.open && b.tasks == a.tasks[t := Sending(a.Task(t).rest)]
    requires b.sent == a.sent + [a.Task(t).command]
    ensures HandsOk(b) && SentOk(cfg, b)
  {
    var command := a.Task(t).command;
    PushHands(a, b, t);
    assert command.commandId in Hands(a, t);
    forall c | c in a.sent
      ensures Spent(cfg, b, c) && c.commandId != command.commandId
    {
      assert Spent(cfg, a, c);
    }
    assert Spent(cfg, b, command);
    SentOnceMore(a.sent, command);
  }

  lemma SentOnceMore(sent: seq<ExecutionCommand>, command: ExecutionCommand)
    requires NoRepeats(Ids(sent)) && forall c <- sent :: c.commandId != command.commandId
    ensures NoRepeats(Ids(sent + [command]))
  {
    assert Ids(sent + [command]) == Ids(sent) + [command.commandId];
    forall i | 0 <= i < |sent|
      ensures Ids(sent)[i] != command.commandId
    {
      assert sent[i] in sent;
    }
  }

  /** No record puts a command back into the queue; plans in flight store other commands. */
  lemma StaysOut(cfg: Config, seen: set<string>, s: Ledger, x: Task, c: ExecutionCommand)
    requires Separable(cfg) && x.InFlight? && TaskOk(cfg, seen, x) && Known(cfg, seen, c) && NotQueued(s, c.commandId)
    ensures NotQueued(Applied(s, x.record), c.commandId)
  {
    if x.record.EventPlanned? {
      KnownIsNotPlanned(cfg, seen, c, x.record.eventId, x.record.commands);
      EnqueueKeys(s.commands, x.record.commands);
      EnqueueKeys(map[], x.record.commands);
    }
  }

  lemma PushingStays(cfg: Config, a: Await, t: nat, u: nat)
    requires Separable(cfg) && TasksOk(cfg, a) && HandsOk(a) && a.Task(t).InFlight? && a.Task(u).Pushing?
    ensures NotQueued(Applied(a.ledger, a.Task(t).record), a.Task(u).command.commandId)
  {
    assert TaskOk(cfg, a.ledger.seen, a.Task(t)) && TaskOk(cfg, a.ledger.seen, a.Task(u));
    StaysOut(cfg, a.ledger.seen, a.ledger, a.Task(t), a.Task(u).command);
  }

  /** A task is to send after its record is applied what it was to send before. */
  lemma Unwrap(open: set<nat>, x: Task)
    requires x.InFlight? && Steady(x) && !x.next.Planning? && !x.next.InFlight?
    ensures ToSend(x.next) == ToSend(x) && Live(open, x.next) == Live(open, x) && Steady(x.next)
  {
  }

  lemma AppliedIsDispatched(s: Ledger, x: Task)
    requires x.InFlight? && Steady(x) && x.next.Pushing?
    ensures NotQueued(Applied(s, x.record), x.next.command.commandId)
  {
  }

  lemma ApplyHands(cfg: Config, a: Await, b: Await, t: nat)
    requires Separable(cfg) && TasksOk(cfg, a) && HandsOk(a) && a.Task(t).InFlight? && b.open == a.open
    requires b.ledger == Applied(a.ledger, a.Task(t).record) && b.tasks == a.tasks[t := a.Task(t).next]
    ensures HandsOk(b) && forall u :: Hands(b, u) == Hands(a, u)
  {
    hide Live, ToSend, Steady, NotQueued, TasksOk, NoRepeats;
    var x := a.Task(t);
    NextIsLoop(cfg, a, t);
    Unwrap(a.open, x);
    assert forall u :: b.Task(u) == if u == t then x.next else a.Task(u);
    forall u: nat
      ensures Hands(b, u) == Hands(a, u) && Steady(b.Task(u)) && NoRepeats(Ids(ToSend(b.Task(u))))
      ensures b.Task(u).Pushing? ==> NotQueued(b.ledger, b.Task(u).command.commandId)
    {
      assert Steady(a.Task(u)) && NoRepeats(Ids(ToSend(a.Task(u))));
      if u != t && a.Task(u).Pushing? {
        PushingStays(cfg, a, t, u);
      } else if u == t && x.next.Pushing? {
        AppliedIsDispatched(a.ledger, x);
      }
    }
    forall u: nat, v: nat | u != v
      ensures Hands(b, u) !! Hands(b, v)
    {
      assert Hands(a, u) !! Hands(a, v);
    }
  }

  lemma NextIsLoop(cfg: Config, a: Await, t: nat)
    requires TasksOk(cfg, a) && a.Task(t).InFlight?
    ensures !a.Task(t).next.Planning? && !a.Task(t).next.InFlight?
  {
    assert TaskOk(cfg, a.ledger.seen, a.Task(t));
  }

  lemma ApplySends(cfg: Config, a: Await, b: Await, t: nat)
    requires Separable(cfg) && SendInv(cfg, a) && a.Task(t).InFlight? && b.open == a.open && b.sent == a.sent
    requires b.ledger == Applied(a.ledger, a.Task(t).record) && b.tasks == a.tasks[t := a.Task(t).next]
    ensures HandsOk(b) && SentOk(cfg, b)
  {
    ApplyHands(cfg, a, b, t);
    assert TaskOk(cfg, a.ledger.seen, a.Task(t));
    forall c | c in b.sent
      ensures Spent(cfg, b, c)
    {
      assert Spent(cfg, a, c);
      StaysOut(cfg, a.ledger.seen, a.ledger, a.Task(t), c);
    }
  }

  lemma {:induction false} FoldStaysOut(cfg: Config, a: Await, n: nat, c: ExecutionCommand)
    requires Separable(cfg) && Inv(cfg, a) && n <= |a.flight| && Spent(cfg, a, c)
    ensures NotQueued(Fold(a.ledger, Records(a, a.flight)[..n]), c.commandId)
    ensures a.ledger.seen <= Fold(a.ledger, Records(a, a.flight)[..n]).seen
  {
    if n > 0 {
      FoldStaysOut(cfg, a, n - 1, c);
      var records := Records(a, a.flight)[..n];
      assert records[..n - 1] == Records(a, a.flight)[..n - 1];
      var x := a.Task(a.flight[n - 1]);
      assert a.flight[n - 1] in a.flight && TaskOk(cfg, a.ledger.seen, x);
      StaysOut(cfg, a.ledger.seen, Fold(a.ledger, records[..n - 1]), x, c);
    }
  }

  lemma CrashSpent(cfg: Config, a: Await, b: Await, c: ExecutionCommand)
    requires Separable(cfg) && Inv(cfg, a) && Spent(cfg, a, c)
    requires b.ledger == Recovered(a.journal) && b.tasks == map[]
    ensures Spent(cfg, b, c)
  {
    var flight := Records(a, a.flight);
    FoldStaysOut(cfg, a, |flight|, c);
    assert flight[..|flight|] == flight;
    Runs.LiveMeaning(Fold(a.ledger, flight), Replay(a.journal));
    assert forall u :: b.Task(u) == Idle;
  }

  lemma CrashSends(cfg: Config, a: Await, t: nat)
    requires Separable(cfg) && SendInv(cfg, a)
    ensures HandsOk(Step(cfg, a, t, Crash)) && SentOk(cfg, Step(cfg, a, t, Crash))
  {
    var b := Step(cfg, a, t, Crash);
    assert forall u :: b.Task(u) == Idle;
    forall c | c in b.sent
      ensures Spent(cfg, b, c)
    {
      CrashSpent(cfg, a, b, c);
    }
  }

  /* All steps. */

  lemma EventReleases(cfg: Config, a: Await, t: nat, action: Action)
    requires Separable(cfg) && SendInv(cfg, a) && Enabled(cfg, a, t, action)
    requires action.StartEvent? || action.BuildNext?
    ensures Releases(a.open, a.Task(t), Step(cfg, a, t, action).Task(t))
  {
    var task := a.Task(t);
    assert TaskOk(cfg, a.ledger.seen, task) && Steady(task);
    match action
    case StartEvent(event, now) => ForSourceDistinct(cfg.routes, event.sourceAccountId);
    case BuildNext => BuildKeepsPlanner(cfg, a, task);
  }

  /** The moves of a send loop. */
  predicate LoopMove(before: Task, after: Task) {
    || (before.Sending? && before.commands != [] && after == Sending(before.commands[1..]))
    || (before.Sending? && before.commands != [] && after.Holding? && after.command == before.commands[0] && after.rest == before.commands[1..])
    || (before.Holding? && after == InFlight(CommandDispatched(before.command.commandId), Some(before.command),
                                             Pushing(before.command, before.session, before.rest)))
    || (before.Pushing? && after == InFlight(CommandUnknown(before.command.commandId), Some(before.command), Sending(before.rest)))
  }

  /** What a send loop leaves in hand is what it had, less the head it skipped or failed to push. */
  lemma LoopShrinks(open: set<nat>, before: Task, after: Task)
    requires LoopMove(before, after) && NoRepeats(Ids(ToSend(before)))
    ensures Releases(open, before, after)
  {
    TailHands(ToSend(before));
    match before
    case Sending(commands) => assert after.Holding? ==> Head(open, after.command, after.session) <= IdSet(commands);
    case Holding(command, session, rest) =>
      assert ToSend(after) == ToSend(before) && Live(open, after) == Live(open, Pushing(command, session, rest));
    case Pushing(_, _, rest) =>
      assert ToSend(after) == rest == ToSend(before)[1..] && Live(open, after) == Live(open, Sending(rest));
  }

  lemma LoopReleases(cfg: Config, a: Await, t: nat, action: Action)
    requires cfg.Usable() && HandsOk(a) && Enabled(cfg, a, t, action)
    requires action.SkipNext? || action.TakeSession? || action.WriteDispatched? || action.PushRefused?
    ensures Releases(a.open, a.Task(t), Step(cfg, a, t, action).Task(t))
  {
    hide Releases, NoRepeats, ToSend, Live;
    assert NoRepeats(Ids(ToSend(a.Task(t))));
    LoopShrinks(a.open, a.Task(t), Step(cfg, a, t, action).Task(t));
  }

  lemma EmptyReleases(cfg: Config, a: Await, t: nat, action: Action)
    requires cfg.Usable() && Enabled(cfg, a, t, action)
    requires action.Connect? || action.Disconnect? || action.StartUnregister? || action.WriteUnknown? || action.StartAck?
          || action.DecideAck? || action.WriteAck? || action.Finish?
    ensures Releases(a.open, a.Task(t), Step(cfg, a, t, action).Task(t))
  {
    NothingToSend(cfg, a, t, action);
    LiveIsHeld(a.open, Step(cfg, a, t, action).Task(t));
    assert IdSet([]) == {};
  }

  lemma NothingToSend(cfg: Config, a: Await, t: nat, action: Action)
    requires cfg.Usable() && Enabled(cfg, a, t, action)
    requires action.Connect? || action.Disconnect? || action.StartUnregister? || action.WriteUnknown? || action.StartAck?
          || action.DecideAck? || action.WriteAck? || action.Finish?
    ensures var after := Step(cfg, a, t, action).Task(t); ToSend(after) == [] && Steady(after) && !after.Pushing?
  {
    hide Selects, ForSource, NextPlan, Applied, AckRecord, Recovered, RouteRule.Usable, TradeEvent.Validate, Admits, Without;
  }

  predicate Special(action: Action) {
    action.WritePlan? || action.StartDispatch? || action.PushAccepted? || action.CloseChannel? || action.ApplyRecord? || action.Crash?
  }

  /** Ordinary steps replace one task, and open at most a channel nobody has taken. */
  lemma StepReplaces(cfg: Config, a: Await, t: nat, action: Action)
    requires cfg.Usable() && Enabled(cfg, a, t, action) && (!Special(action) || action.WritePlan? || action.StartDispatch?)
    ensures var b := Step(cfg, a, t, action);
            && b.ledger == a.ledger && b.sent == a.sent && b.tasks == a.tasks[t := b.Task(t)]
            && b.open == (if action.Connect? then a.open + {a.nextSession} else a.open)
            && (action.Connect? ==> b.Task(t).Joining?)
  {
  }

  lemma ReleaseStep(cfg: Config, a: Await, t: nat, action: Action)
    requires cfg.Usable() && SendInv(cfg, a) && Enabled(cfg, a, t, action) && !Special(action)
    requires Releases(a.open, a.Task(t), Step(cfg, a, t, action).Task(t))
    ensures HandsOk(Step(cfg, a, t, action)) && SentOk(cfg, Step(cfg, a, t, action))
  {
    var b := Step(cfg, a, t, action);
    StepReplaces(cfg, a, t, action);
    if action.Connect? {
      NewSession(a, b, t);
    }
    ReleaseKeeps(cfg, a, b, t, b.Task(t));
  }

  lemma NewSession(a: Await, b: Await, t: nat)
    requires SessionsOk(a) && b.tasks == a.tasks[t := b.Task(t)] && b.Task(t).Joining? && b.open == a.open + {a.nextSession}
    ensures forall u :: Live(b.open, b.Task(u)) == Live(a.open, b.Task(u))
  {
    forall u: nat
      ensures Live(b.open, b.Task(u)) == Live(a.open, b.Task(u))
    {
      assert u != t ==> b.Task(u) == a.Task(u);
      assert SessionOf(b.Task(u)) != Some(a.nextSession);
      LiveSessions(a.open, b.Task(u), a.nextSession);
    }
  }

  lemma TakeStep(cfg: Config, a: Await, t: nat, action: Action)
    requires Separable(cfg) && SendInv(cfg, a) && Enabled(cfg, a, t, action)
    requires action.WritePlan? || (action.StartDispatch? && FlushSafe(a, action.keys))
    ensures HandsOk(Step(cfg, a, t, action)) && SentOk(cfg, Step(cfg, a, t, action))
  {
    StepReplaces(cfg, a, t, action);
    if action.WritePlan? {
      PlanIsFreshlyTaken(cfg, a, t);
    } else {
      SelectionIsFresh(cfg, a, a.Task(t).account, action.order, action.keys);
    }
    TakeKeeps(cfg, a, Step(cfg, a, t, action), t, Step(cfg, a, t, action).Task(t));
  }

  lemma CloseStep(cfg: Config, a: Await, t: nat, session: nat)
    requires cfg.Usable() && HandsOk(a) && SentOk(cfg, a) && session in a.open
    ensures HandsOk(Step(cfg, a, t, CloseChannel(session))) && SentOk(cfg, Step(cfg, a, t, CloseChannel(session)))
  {
    hide Live;
    var b := Step(cfg, a, t, CloseChannel(session));
    assert forall u :: b.Task(u) == a.Task(u);
    forall u: nat
      ensures Hands(b, u) <= Hands(a, u)
    {
      LiveSessions(a.open, a.Task(u), session);
    }
    ShrinkKeeps(cfg, a, b);
  }

  lemma StepReleases(cfg: Config, a: Await, t: nat, action: Action)
    requires Separable(cfg) && SendInv(cfg, a) && Enabled(cfg, a, t, action) && !Special(action)
    ensures Releases(a.open, a.Task(t), Step(cfg, a, t, action).Task(t))
  {
    hide Releases;
    if action.StartEvent? || action.BuildNext? {
      EventReleases(cfg, a, t, action);
    } else if action.SkipNext? || action.TakeSession? || action.WriteDispatched? || action.PushRefused? {
      LoopReleases(cfg, a, t, action);
    } else {
      EmptyReleases(cfg, a, t, action);
    }
  }

  lemma PusherKnown(cfg: Config, a: Await, t: nat)
    requires TasksOk(cfg, a) && a.Task(t).Pushing?
    ensures Known(cfg, a.ledger.seen, a.Task(t).command)
  {
    assert TaskOk(cfg, a.ledger.seen, a.Task(t));
  }

  lemma HandsStep(cfg: Config, a: Await, t: nat, action: Action)
    requires Separable(cfg) && SendInv(cfg, a) && Enabled(cfg, a, t, action)
    requires action.StartDispatch? ==> FlushSafe(a, action.keys)
    ensures HandsOk(Step(cfg, a, t, action)) && SentOk(cfg, Step(cfg, a, t, action))
  {
    hide HandsOk, SentOk, Inv, SessionsOk;
    if action.WritePlan? || action.StartDispatch? {
      TakeStep(cfg, a, t, action);
    } else if action.PushAccepted? {
      PushStep(cfg, a, t);
    } else if action.CloseChannel? {
      CloseStep(cfg, a, t, action.session);
    } else if action.ApplyRecord? {
      ApplySends(cfg, a, Applying(a, t), t);
    } else if action.Crash? {
      CrashSends(cfg, a, t);
    } else {
      StepReleases(cfg, a, t, action);
      ReleaseStep(cfg, a, t, action);
    }
  }

  lemma PushStep(cfg: Config, a: Await, t: nat)
    requires cfg.Usable() && SendInv(cfg, a) && Enabled(cfg, a, t, PushAccepted)
    ensures HandsOk(Step(cfg, a, t, PushAccepted)) && SentOk(cfg, Step(cfg, a, t, PushAccepted))
  {
    PusherKnown(cfg, a, t);
    PushKeeps(cfg, a, Step(cfg, a, t, PushAccepted), t);
  }

  /* Sessions. */

  /** Only one task moves; sessions are numbered upwards and only new ones are opened. */
  lemma SessionsGrow(cfg: Config, a: Await, t: nat, action: Action)
    requires cfg.Usable() && Enabled(cfg, a, t, action) && !action.Crash?
    ensures var b := Step(cfg, a, t, action);
            && (forall u :: u != t ==> b.Task(u) == a.Task(u))
            && a.nextSession <= b.nextSession
            && (forall account <- b.sessions :: b.sessions[account] < b.nextSession
                                             || (account in a.sessions && b.sessions[account] == a.sessions[account]))
            && (forall session <- b.open :: session in a.open || session < b.nextSession)
  {
    hide Selects, ForSource, NextPlan, Applied, AckRecord, Recovered, RouteRule.Usable, TradeEvent.Validate, Admits, Without;
  }

  /** A task goes on with the session it had, a registered one, or none. */
  lemma SessionTaken(cfg: Config, a: Await, t: nat, action: Action)
    requires cfg.Usable() && Enabled(cfg, a, t, action) && !action.Crash?
    ensures var b := Step(cfg, a, t, action);
            SessionOf(b.Task(t)).None? || SessionOf(b.Task(t)) == SessionOf(a.Task(t))
            || exists account <- a.sessions :: SessionOf(b.Task(t)) == Some(a.sessions[account])
  {
    hide Selects, ForSource, NextPlan, Applied, AckRecord, Recovered, RouteRule.Usable, TradeEvent.Validate, Admits, Without;
    var task := a.Task(t);
    if action.TakeSession? {
      assert task.commands[0].targetAccountId in a.sessions;
    }
  }

  lemma SessionStep(cfg: Config, a: Await, t: nat, action: Action)
    requires cfg.Usable() && SessionsOk(a) && Enabled(cfg, a, t, action)
    ensures SessionsOk(Step(cfg, a, t, action))
  {
    hide Step, Enabled;
    var b := Step(cfg, a, t, action);
    if action.Crash? {
      CrashSessions(cfg, a, t);
    } else {
      SessionsGrow(cfg, a, t, action);
      SessionTaken(cfg, a, t, action);
      forall u: nat | SessionOf(b.Task(u)).Some?
        ensures SessionOf(b.Task(u)).value < b.nextSession
      {
        assert u != t ==> b.Task(u) == a.Task(u);
      }
    }
  }

  lemma CrashSessions(cfg: Config, a: Await, t: nat)
    requires cfg.Usable()
    ensures SessionsOk(Step(cfg, a, t, Crash))
  {
    var b := Step(cfg, a, t, Crash);
    assert forall u :: b.Task(u) == Idle;
  }

  lemma SendStep(cfg: Config, a: Await, t: nat, action: Action)
    requires Separable(cfg) && SendInv(cfg, a) && Enabled(cfg, a, t, action)
    requires action.StartDispatch? ==> FlushSafe(a, action.keys)
    ensures SendInv(cfg, Step(cfg, a, t, action))
  {
    hide HandsOk, SentOk, Inv, SessionsOk, Step, Enabled;
    StepKeeps(cfg, a, t, action);
    SessionStep(cfg, a, t, action);
    HandsStep(cfg, a, t, action);
  }

  /* Runs. */

  /** Every flush that happens finds its commands in nobody's hands. */
  ghost predicate FlushesSafe(cfg: Config, a: Await, turns: seq<Turn>)
    requires cfg.Usable()
  {
    turns != [] ==>
      var init, last := turns[..|turns| - 1], turns[|turns| - 1];
      && FlushesSafe(cfg, a, init)
      && (Enabled(cfg, From(cfg, a, init), last.task, last.action) && last.action.StartDispatch? ==>
            FlushSafe(From(cfg, a, init), last.action.keys))
  }

  lemma {:induction false} SafeFlushesKeep(cfg: Config, a: Await, turns: seq<Turn>)
    requires Separable(cfg) && SendInv(cfg, a) && FlushesSafe(cfg, a, turns)
    ensures SendInv(cfg, From(cfg, a, turns))
  {
    hide SendInv, Step, Enabled, FlushSafe;
    if turns != [] {
      var init, last := turns[..|turns| - 1], turns[|turns| - 1];
      SafeFlushesKeep(cfg, a, init);
      if Enabled(cfg, From(cfg, a, init), last.task, last.action) {
        SendStep(cfg, From(cfg, a, init), last.task, last.action);
      }
    }
  }

  lemma BeginSends(cfg: Config)
    ensures SendInv(cfg, BEGIN)
  {
    BeginKeeps(cfg);
    assert forall u :: BEGIN.Task(u) == Idle;
  }

  /** However handlers interleave and crash, no command is sent twice as long as no flush selects
      a command another handler can still push. */
  lemma SafeFlushesSendOnce(cfg: Config, turns: seq<Turn>)
    requires Separable(cfg) && FlushesSafe(cfg, BEGIN, turns)
    ensures SendInv(cfg, Interleaved(cfg, turns))
    ensures NoRepeats(Ids(Interleaved(cfg, turns).sent))
  {
    BeginSends(cfg);
    SafeFlushesKeep(cfg, BEGIN, turns);
  }
}
