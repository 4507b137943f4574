/** Handlers as concurrent tasks. Writing a record and applying it are separate steps under
    different locks (crates/copier-daemon/src/journal.rs:139, runtime.rs:160), so records may be
    applied in another order than they were written. */
module AwaitLevel {
  import opened Wrappers
  import opened Model
  import opened Routing
  import opened Journal
  import opened Confluence
  import opened Handlers
  import opened History
  import opened MirrorBook
  import Keys

  /** Where a handler is between two awaits. */
  datatype Task =
    | Idle
    | Planning(event: TradeEvent, now: I64, todo: seq<RouteRule>, planned: seq<ExecutionCommand>)
    | Joining(account: string)
    | Sending(commands: seq<ExecutionCommand>)
    | Holding(command: ExecutionCommand, session: nat, rest: seq<ExecutionCommand>)
    | Pushing(command: ExecutionCommand, session: nat, rest: seq<ExecutionCommand>)
    | Leaving(account: string)
    | Marking(commands: seq<ExecutionCommand>)
    | Acking(ack: ExecutionAck, command: ExecutionCommand)
    | Booking(record: JournalRecord, command: ExecutionCommand)
    | InFlight(record: JournalRecord, subject: Option<ExecutionCommand>, next: Task)

  /** `flight` lists the tasks whose record is written but not applied, in writing order; `open`
      holds the sessions whose channel still has a receiver, whether still registered or not. */
  datatype Await = Await(
    ledger: Ledger,
    journal: seq<JournalRecord>,
    tasks: map<nat, Task>,
    flight: seq<nat>,
    sessions: map<string, nat>,
    nextSession: nat,
    open: set<nat>,
    sent: seq<ExecutionCommand>)
  {
    function Task(t: nat): Task {
      if t in tasks then tasks[t] else Idle
    }
  }

  datatype Action =
    | StartEvent(event: TradeEvent, now: I64)
    | BuildNext
    | WritePlan
    | Connect(account: string)
    | StartDispatch(order: seq<ExecutionCommand>, keys: seq<string>)
    | SkipNext
    | TakeSession
    | WriteDispatched
    | PushAccepted
    | PushRefused
    | CloseChannel(session: nat)
    | Disconnect(account: string, session: nat)
    | StartUnregister(order: seq<ExecutionCommand>, keys: seq<string>)
    | WriteUnknown
    | StartAck(ack: ExecutionAck)
    | DecideAck
    | WriteAck
    | ApplyRecord
    | Finish
    | Crash

  /** The event a task is planning or has planned but not applied. */
  function EventOf(task: Task): Option<string> {
    match task
    case Planning(event, _, _, _) => Some(event.eventId)
    case InFlight(EventPlanned(id, _), _, _) => Some(id)
    case _ => None
  }

  /** The account whose acknowledgement a task is working on. */
  function AckAccount(task: Task): Option<string> {
    match task
    case Acking(_, command) => Some(command.targetAccountId)
    case Booking(_, command) => Some(command.targetAccountId)
    case InFlight(AckApplied(_, _), Some(command), _) => Some(command.targetAccountId)
    case _ => None
  }

  /** The account may publish this event. */
  predicate Admits(cfg: Config, event: TradeEvent) {
    event.sourceAccountId in cfg.accounts && cfg.accounts[event.sourceAccountId].canPublish
    && (event.originCommandId.Some? ==> cfg.accounts[event.sourceAccountId].allowRebroadcast)
  }

  /** What planning the next route gives. */
  function NextPlan(cfg: Config, a: Await, task: Task): Result<seq<ExecutionCommand>, RouteError>
    requires task.Planning? && task.todo != [] && task.todo[0].Usable()
  {
    Absorb(task.planned, Build(cfg.digest, a.ledger.mirrors, task.event, task.todo[0], task.now))
  }

  /** When a task may take a step. Two things are asked of the environment: no event id is
      handled twice at the same time, and the acknowledgements of one account arrive one by one. */
  ghost predicate Enabled(cfg: Config, a: Await, t: nat, action: Action)
    requires cfg.Usable()
  {
    var task := a.Task(t);
    match action
    case StartEvent(event, _) =>
      task.Idle? && event.Validate().Success? && Admits(cfg, event) && event.eventId !in a.ledger.seen
      && forall u :: EventOf(a.Task(u)) != Some(event.eventId)
    case BuildNext =>
      task.Planning? && task.todo != [] && task.todo[0].Usable() && NextPlan(cfg, a, task).Success?
    case WritePlan => task.Planning? && task.todo == []
    case Connect(_) => task.Idle?
    case StartDispatch(order, keys) => task.Joining? && Selects(a.ledger, task.account, Queued, order, keys)
    case SkipNext => task.Sending? && task.commands != [] && task.commands[0].targetAccountId !in a.sessions
    case TakeSession => task.Sending? && task.commands != [] && task.commands[0].targetAccountId in a.sessions
    case WriteDispatched => task.Holding?
    case PushAccepted => task.Pushing? && task.session in a.open
    case PushRefused => task.Pushing? && task.session !in a.open
    case CloseChannel(session) => session in a.open
    case Disconnect(account, session) => task.Idle? && account in a.sessions && a.sessions[account] == session
    case StartUnregister(order, keys) => task.Leaving? && Selects(a.ledger, task.account, Dispatched, order, keys)
    case WriteUnknown => task.Marking? && task.commands != []
    case StartAck(ack) =>
      task.Idle? && ack.commandId in a.ledger.commands
      && a.ledger.commands[ack.commandId].command.targetAccountId == ack.accountId
      && forall u :: AckAccount(a.Task(u)) != Some(ack.accountId)
    case DecideAck => task.Acking?
    case WriteAck => task.Booking?
    case ApplyRecord => task.InFlight?
    case Finish =>
      (task.Sending? && task.commands == []) || (task.Marking? && task.commands == [])
      || (task.Planning? && task.todo != [] && task.todo[0].Usable() && NextPlan(cfg, a, task).Failure?)
    case Crash => true
  }

  function Local(a: Await, t: nat, task: Task): Await {
    a.(tasks := a.tasks[t := task])
  }

  function Write(a: Await, t: nat, record: JournalRecord, subject: Option<ExecutionCommand>, next: Task): Await {
    a.(tasks := a.tasks[t := InFlight(record, subject, next)], journal := a.journal + [record], flight := a.flight + [t])
  }

  /** The list without one of its entries. */
  function Without(flight: seq<nat>, t: nat): seq<nat> {
    if flight == [] then []
    else if flight[0] == t then flight[1..]
    else [flight[0]] + Without(flight[1..], t)
  }

  function Applying(a: Await, t: nat): Await
    requires a.Task(t).InFlight?
  {
    a.(ledger := Applied(a.ledger, a.Task(t).record), tasks := a.tasks[t := a.Task(t).next], flight := Without(a.flight, t))
  }

  ghost function Step(cfg: Config, a: Await, t: nat, action: Action): Await
    requires cfg.Usable() && Enabled(cfg, a, t, action)
  {
    var task := a.Task(t);
    match action
    case StartEvent(event, now) => Local(a, t, Planning(event, now, ForSource(cfg.routes, event.sourceAccountId), []))
    case BuildNext =>
      Local(a, t, task.(todo := task.todo[1..], planned := NextPlan(cfg, a, task).value))
    case WritePlan => Write(a, t, EventPlanned(task.event.eventId, task.planned), None, Sending(task.planned))
    case Connect(account) =>
      Local(a, t, Joining(account)).(sessions := a.sessions[account := a.nextSession], nextSession := a.nextSession + 1,
                                     open := a.open + {a.nextSession})
    case StartDispatch(order, _) => Local(a, t, Sending(order))
    case SkipNext => Local(a, t, Sending(task.commands[1..]))
    case TakeSession =>
      Local(a, t, Holding(task.commands[0], a.sessions[task.commands[0].targetAccountId], task.commands[1..]))
    case WriteDispatched =>
      Write(a, t, CommandDispatched(task.command.commandId), Some(task.command), Pushing(task.command, task.session, task.rest))
    case PushAccepted => Local(a, t, Sending(task.rest)).(sent := a.sent + [task.command])
    case PushRefused => Write(a, t, CommandUnknown(task.command.commandId), Some(task.command), Sending(task.rest))
    case CloseChannel(session) => a.(open := a.open - {session})
    case Disconnect(account, _) => Local(a, t, Leaving(account)).(sessions := a.sessions - {account})
    case StartUnregister(order, _) => Local(a, t, Marking(order))
    case WriteUnknown => Write(a, t, CommandUnknown(task.commands[0].commandId), Some(task.commands[0]), Marking(task.commands[1..]))
    case StartAck(ack) => Local(a, t, Acking(ack, a.ledger.commands[ack.commandId].command))
    case DecideAck => Local(a, t, Booking(AckRecord(a.ledger.mirrors, task.command, task.ack), task.command))
    case WriteAck => Write(a, t, task.record, Some(task.command), Idle)
    case ApplyRecord => Applying(a, t)
    case Finish => Local(a, t, Idle)
    case Crash => Await(Recovered(a.journal), a.journal, map[], [], map[], 1, {}, a.sent)
  }

  /* The invariant. */

  ghost predicate Known(cfg: Config, seen: set<string>, c: ExecutionCommand) {
    Genuine(cfg, c) && c.originEventId in seen
  }

  ghost predicate AllKnown(cfg: Config, seen: set<string>, cs: seq<ExecutionCommand>) {
    forall c <- cs :: Known(cfg, seen, c)
  }

  ghost predicate AllOf(cfg: Config, id: string, cs: seq<ExecutionCommand>) {
    forall c <- cs :: Genuine(cfg, c) && c.originEventId == id
  }

  /** The record names this command only and changes at most its binding. */
  predicate Concerns(record: JournalRecord, c: ExecutionCommand) {
    !record.EventPlanned? && Names(record) == {c.commandId}
    && (Mutation(record).Some? ==> Mutation(record).value.Key() == c.Key())
  }

  ghost predicate LoopOk(cfg: Config, seen: set<string>, task: Task) {
    match task
    case Idle => true
    case Joining(_) => true
    case Sending(cs) => AllKnown(cfg, seen, cs)
    case Holding(c, _, rest) => Known(cfg, seen, c) && AllKnown(cfg, seen, rest)
    case Pushing(c, _, rest) => Known(cfg, seen, c) && AllKnown(cfg, seen, rest)
    case Leaving(_) => true
    case Marking(cs) => AllKnown(cfg, seen, cs)
    case _ => false
  }

  ghost predicate TaskOk(cfg: Config, seen: set<string>, task: Task) {
    match task
    case Planning(event, _, todo, planned) =>
      event.eventId !in seen && event.Validate().Success? && AllOf(cfg, event.eventId, planned)
      && forall route <- todo :: route in cfg.routes && route.sourceAccountId == event.sourceAccountId
    case Acking(ack, c) => Known(cfg, seen, c) && ack.commandId == c.commandId
    case Booking(record, c) => Known(cfg, seen, c) && Concerns(record, c)
    case InFlight(EventPlanned(id, planned), subject, next) =>
      id !in seen && AllOf(cfg, id, planned) && subject.None? && next == Sending(planned)
    case InFlight(record, subject, next) =>
      subject.Some? && Known(cfg, seen, subject.value) && Concerns(record, subject.value) && LoopOk(cfg, seen, next)
    case _ => LoopOk(cfg, seen, task)
  }

  /** No two tasks work on one event or on acknowledgements of one account. */
  ghost predicate Apart(x: Task, y: Task) {
    && (EventOf(x).Some? ==> EventOf(x) != EventOf(y))
    && (AckAccount(x).Some? ==> AckAccount(x) != AckAccount(y))
  }

  ghost predicate StoredOk(cfg: Config, s: Ledger) {
    && (forall id <- s.commands :: s.commands[id].command.commandId == id && Known(cfg, s.seen, s.commands[id].command))
    && (forall key <- s.mirrors :: s.mirrors[key].BindingKey() == key)
  }

  ghost predicate FlightOk(a: Await) {
    NoRepeats(a.flight) && forall t :: t in a.flight <==> a.Task(t).InFlight?
  }

  function RecordOf(task: Task): JournalRecord {
    if task.InFlight? then task.record else CommandUnknown("")
  }

  /** The records written by the listed tasks. */
  function Records(a: Await, flight: seq<nat>): (r: seq<JournalRecord>)
    ensures |r| == |flight|
    ensures forall i :: 0 <= i < |r| ==> r[i] == RecordOf(a.Task(flight[i]))
  {
    seq(|flight|, i requires 0 <= i < |flight| => RecordOf(a.Task(flight[i])))
  }

  ghost predicate TasksOk(cfg: Config, a: Await) {
    && (forall t :: TaskOk(cfg, a.ledger.seen, a.Task(t)))
    && (forall t, u :: t != u ==> Apart(a.Task(t), a.Task(u)))
  }

  ghost predicate Inv(cfg: Config, a: Await) {
    && TasksOk(cfg, a)
    && StoredOk(cfg, a.ledger)
    && FlightOk(a)
    && Agree(Fold(a.ledger, Records(a, a.flight)), Replay(a.journal))
  }

  ghost predicate Separable(cfg: Config) {
    History.Sound(cfg) && SeparatorFree(cfg.routes)
  }

  lemma KnownIsNotPlanned(cfg: Config, seen: set<string>, c: ExecutionCommand, id: string, planned: seq<ExecutionCommand>)
    requires Separable(cfg) && Known(cfg, seen, c) && id !in seen && AllOf(cfg, id, planned)
    ensures c.commandId !in Stores(EventPlanned(id, planned))
  {
    EnqueueKeys(map[], planned);
    forall p | p in planned
      ensures p.commandId != c.commandId
    {
      if p.commandId == c.commandId {
        IdDeterminesEvent(cfg, p, c);
      }
    }
  }

  lemma PlansDisjoint(cfg: Config, id1: string, p1: seq<ExecutionCommand>, id2: string, p2: seq<ExecutionCommand>)
    requires Separable(cfg) && id1 != id2 && AllOf(cfg, id1, p1) && AllOf(cfg, id2, p2)
    ensures Stores(EventPlanned(id1, p1)).Keys !! Stores(EventPlanned(id2, p2)).Keys
  {
    EnqueueKeys(map[], p1);
    EnqueueKeys(map[], p2);
    forall x, y | x in p1 && y in p2
      ensures x.commandId != y.commandId
    {
      if x.commandId == y.commandId {
        IdDeterminesEvent(cfg, x, y);
      }
    }
  }

  /** Records of two different tasks never clash. */
  lemma FlightsDoNotClash(cfg: Config, seen: set<string>, x: Task, y: Task)
    requires Separable(cfg) && x.InFlight? && y.InFlight? && TaskOk(cfg, seen, x) && TaskOk(cfg, seen, y) && Apart(x, y)
    ensures !Clash(x.record, y.record)
  {
    if x.record.EventPlanned? && y.record.EventPlanned? {
      PlansDisjoint(cfg, x.record.eventId, x.record.commands, y.record.eventId, y.record.commands);
    } else if x.record.EventPlanned? {
      KnownIsNotPlanned(cfg, seen, y.subject.value, x.record.eventId, x.record.commands);
    } else if y.record.EventPlanned? {
      KnownIsNotPlanned(cfg, seen, x.subject.value, y.record.eventId, y.record.commands);
    } else if Mutation(x.record).Some? && Mutation(y.record).Some? {
      var c, d := x.subject.value, y.subject.value;
      SameKeyIffSamePosition(c, d);
    }
  }

  /* Steps keep it. */

  ghost predicate ApartFromAll(a: Await, t: nat, task: Task) {
    forall u :: u != t ==> Apart(task, a.Task(u)) && Apart(a.Task(u), task)
  }

  /** A step that takes on no new event and no new account. */
  predicate Inherits(before: Task, after: Task) {
    && (EventOf(after).None? || EventOf(after) == EventOf(before))
    && (AckAccount(after).None? || AckAccount(after) == AckAccount(before))
  }

  lemma InheritsApart(cfg: Config, a: Await, t: nat, task: Task)
    requires Inv(cfg, a) && Inherits(a.Task(t), task)
    ensures ApartFromAll(a, t, task)
  {
    forall u: nat | u != t
      ensures Apart(task, a.Task(u)) && Apart(a.Task(u), task)
    {
      assert Apart(a.Task(t), a.Task(u)) && Apart(a.Task(u), a.Task(t));
    }
  }

  lemma ReplaceTask(cfg: Config, a: Await, b: Await, t: nat, task: Task)
    requires TasksOk(cfg, a) && b.ledger.seen == a.ledger.seen && b.tasks == a.tasks[t := task]
    requires TaskOk(cfg, a.ledger.seen, task) && ApartFromAll(a, t, task)
    ensures TasksOk(cfg, b)
  {
    assert forall u :: b.Task(u) == if u == t then task else a.Task(u);
  }

  lemma LocalKeeps(cfg: Config, a: Await, t: nat, task: Task)
    requires Inv(cfg, a) && !a.Task(t).InFlight? && !task.InFlight?
    requires TaskOk(cfg, a.ledger.seen, task) && ApartFromAll(a, t, task)
    ensures Inv(cfg, Local(a, t, task))
  {
    var b := Local(a, t, task);
    ReplaceTask(cfg, a, b, t, task);
    assert forall u :: b.Task(u) == if u == t then task else a.Task(u);
    assert Records(b, b.flight) == Records(a, a.flight);
  }

  lemma FlightGrows(a: Await, b: Await, t: nat, task: Task)
    requires FlightOk(a) && !a.Task(t).InFlight? && task.InFlight?
    requires b.tasks == a.tasks[t := task] && b.flight == a.flight + [t]
    ensures FlightOk(b) && Records(b, b.flight) == Records(a, a.flight) + [task.record]
  {
    assert forall u :: b.Task(u) == if u == t then task else a.Task(u);
  }

  lemma WriteKeeps(cfg: Config, a: Await, t: nat, record: JournalRecord, subject: Option<ExecutionCommand>, next: Task)
    requires Inv(cfg, a) && !a.Task(t).InFlight?
    requires TaskOk(cfg, a.ledger.seen, InFlight(record, subject, next)) && ApartFromAll(a, t, InFlight(record, subject, next))
    ensures Inv(cfg, Write(a, t, record, subject, next))
  {
    var b := Write(a, t, record, subject, next);
    ReplaceTask(cfg, a, b, t, InFlight(record, subject, next));
    FlightGrows(a, b, t, InFlight(record, subject, next));
    var before := Records(a, a.flight);
    assert (before + [record])[..|before|] == before && b.journal[..|a.journal|] == a.journal;
    ApplyAgree(Fold(a.ledger, before), Replay(a.journal), record);
  }

  lemma {:induction false} WithoutMeaning(flight: seq<nat>, t: nat) returns (i: nat)
    requires t in flight && NoRepeats(flight)
    ensures i < |flight| && flight[i] == t && Without(flight, t) == flight[..i] + flight[i + 1..]
  {
    if flight[0] == t {
      i := 0;
    } else {
      var rest := flight[1..];
      i := WithoutMeaning(rest, t);
      i := i + 1;
      assert flight[..i] == [flight[0]] + rest[..i - 1] && flight[i + 1..] == rest[i..];
    }
  }

  lemma StoredKeeps(cfg: Config, s: Ledger, record: JournalRecord)
    requires StoredOk(cfg, s)
    requires record.EventPlanned? ==> AllOf(cfg, record.eventId, record.commands)
    ensures StoredOk(cfg, Applied(s, record))
  {
    var after := Applied(s, record);
    var p := (id, c: ExecutionCommand) => c.commandId == id && Known(cfg, after.seen, c);
    assert AllStored(s, p);
    AppliedStores(s, record, p);
    AppliedBooks(s, record, (key, b: MirrorBinding) => b.BindingKey() == key);
  }

  /** What a task may do is not spoiled by another task's record. */
  lemma ApplyKeepsTask(cfg: Config, s: Ledger, x: Task, y: Task)
    requires x.InFlight? && TaskOk(cfg, s.seen, x) && TaskOk(cfg, s.seen, y) && Apart(x, y)
    ensures TaskOk(cfg, Applied(s, x.record).seen, y)
  {
  }

  /** Applying a written record out of turn is as good as in turn. */
  lemma ApplyAgrees(cfg: Config, a: Await, t: nat, i: nat)
    requires Separable(cfg) && Inv(cfg, a) && i < |a.flight| && a.flight[i] == t
    ensures a.Task(t).InFlight?
    ensures var flight := Records(a, a.flight);
            Agree(Fold(Applied(a.ledger, a.Task(t).record), flight[..i] + flight[i + 1..]), Replay(a.journal))
  {
    assert t in a.flight;
    var x := a.Task(t);
    var flight := Records(a, a.flight);
    forall r | r in flight[..i]
      ensures !Clash(x.record, r)
    {
      var j :| 0 <= j < i && flight[j] == r;
      assert a.flight[j] in a.flight && a.flight[j] != t;
      FlightsDoNotClash(cfg, a.ledger.seen, x, a.Task(a.flight[j]));
    }
    OutOfTurn(a.ledger, flight, i);
  }

  lemma ApplyKeepsTasks(cfg: Config, a: Await, b: Await, t: nat)
    requires TasksOk(cfg, a) && a.Task(t).InFlight?
    requires b.ledger == Applied(a.ledger, a.Task(t).record) && b.tasks == a.tasks[t := a.Task(t).next]
    ensures TasksOk(cfg, b) && !b.Task(t).InFlight? && forall u :: u != t ==> b.Task(u) == a.Task(u)
  {
    hide TaskOk, LoopOk, Applied;
    var x := a.Task(t);
    assert TaskOk(cfg, a.ledger.seen, x);
    assert forall u :: b.Task(u) == if u == t then x.next else a.Task(u);
    forall u: nat
      ensures TaskOk(cfg, b.ledger.seen, b.Task(u))
    {
      if u != t {
        ApplyKeepsTask(cfg, a.ledger, x, a.Task(u));
      } else {
        NextOk(cfg, a.ledger, x);
      }
    }
    NextOk(cfg, a.ledger, x);
    LoopIsFree(cfg, b.ledger.seen, x.next);
  }

  lemma LoopIsFree(cfg: Config, seen: set<string>, task: Task)
    requires LoopOk(cfg, seen, task)
    ensures EventOf(task).None? && AckAccount(task).None? && !task.InFlight?
  {
  }

  lemma NextOk(cfg: Config, s: Ledger, x: Task)
    requires x.InFlight? && TaskOk(cfg, s.seen, x)
    ensures TaskOk(cfg, Applied(s, x.record).seen, x.next) && LoopOk(cfg, Applied(s, x.record).seen, x.next)
  {
  }

  lemma RemoveAt(flight: seq<nat>, i: nat)
    requires NoRepeats(flight) && i < |flight|
    ensures NoRepeats(flight[..i] + flight[i + 1..])
    ensures forall u :: u in flight[..i] + flight[i + 1..] <==> u in flight && u != flight[i]
  {
    assert flight == flight[..i] + [flight[i]] + flight[i + 1..];
  }

  lemma FlightAfter(a: Await, b: Await, t: nat, i: nat)
    requires FlightOk(a) && i < |a.flight| && a.flight[i] == t && b.flight == a.flight[..i] + a.flight[i + 1..]
    requires !b.Task(t).InFlight? && forall u :: u != t ==> b.Task(u) == a.Task(u)
    ensures FlightOk(b)
  {
    RemoveAt(a.flight, i);
  }

  lemma RecordsFrame(a: Await, b: Await, flight: seq<nat>)
    requires forall u <- flight :: b.Task(u) == a.Task(u)
    ensures Records(b, flight) == Records(a, flight)
  {
  }

  lemma RecordsConcat(a: Await, x: seq<nat>, y: seq<nat>)
    ensures Records(a, x + y) == Records(a, x) + Records(a, y)
  {
  }

  lemma RecordsAfter(a: Await, b: Await, t: nat, i: nat)
    requires NoRepeats(a.flight) && i < |a.flight| && a.flight[i] == t
    requires forall u :: u != t ==> b.Task(u) == a.Task(u)
    ensures Records(b, a.flight[..i] + a.flight[i + 1..]) == Records(a, a.flight)[..i] + Records(a, a.flight)[i + 1..]
  {
    RecordsConcat(b, a.flight[..i], a.flight[i + 1..]);
    RecordsFrame(a, b, a.flight[..i]);
    RecordsFrame(a, b, a.flight[i + 1..]);
    assert Records(a, a.flight)[..i] == Records(a, a.flight[..i]);
    assert Records(a, a.flight)[i + 1..] == Records(a, a.flight[i + 1..]);
  }

  lemma ApplyStored(cfg: Config, a: Await, t: nat)
    requires TasksOk(cfg, a) && StoredOk(cfg, a.ledger) && a.Task(t).InFlight?
    ensures StoredOk(cfg, Applied(a.ledger, a.Task(t).record))
  {
    assert TaskOk(cfg, a.ledger.seen, a.Task(t));
    StoredKeeps(cfg, a.ledger, a.Task(t).record);
  }

  lemma ApplyKeeps(cfg: Config, a: Await, t: nat)
    requires Separable(cfg) && Inv(cfg, a) && a.Task(t).InFlight?
    ensures Inv(cfg, Applying(a, t))
  {
    var b := Applying(a, t);
    var i := WithoutMeaning(a.flight, t);
    ApplyAgrees(cfg, a, t, i);
    ApplyKeepsTasks(cfg, a, b, t);
    FlightAfter(a, b, t, i);
    RecordsAfter(a, b, t, i);
    ApplyStored(cfg, a, t);
  }

  lemma {:induction false} FoldStored(cfg: Config, s: Ledger, records: seq<JournalRecord>)
    requires StoredOk(cfg, s) && forall r <- records :: r.EventPlanned? ==> AllOf(cfg, r.eventId, r.commands)
    ensures StoredOk(cfg, Fold(s, records))
  {
    if records != [] {
      FoldStored(cfg, s, records[..|records| - 1]);
      StoredKeeps(cfg, Fold(s, records[..|records| - 1]), records[|records| - 1]);
    }
  }

  lemma AgreeStored(cfg: Config, a: Ledger, b: Ledger)
    requires Agree(a, b) && StoredOk(cfg, a)
    ensures StoredOk(cfg, Finalize(b))
  {
    assert Finalize(b) == Finalize(a);
    assert Finalize(a).commands.Keys == a.commands.Keys && Finalize(a).seen == a.seen;
  }

  lemma RecoveredStored(cfg: Config, a: Await)
    requires cfg.Usable() && Inv(cfg, a)
    ensures StoredOk(cfg, Recovered(a.journal))
  {
    hide Known, Genuine, Finalize, Agree, Fold, Apart;
    var flight := Records(a, a.flight);
    forall r | r in flight && r.EventPlanned?
      ensures AllOf(cfg, r.eventId, r.commands)
    {
      var i :| 0 <= i < |flight| && flight[i] == r;
      assert TaskOk(cfg, a.ledger.seen, a.Task(a.flight[i]));
    }
    FoldStored(cfg, a.ledger, flight);
    AgreeStored(cfg, Fold(a.ledger, flight), Replay(a.journal));
  }

  lemma CrashKeeps(cfg: Config, a: Await, t: nat)
    requires cfg.Usable() && Inv(cfg, a)
    ensures Inv(cfg, Step(cfg, a, t, Crash))
  {
    var b := Step(cfg, a, t, Crash);
    RecoveredStored(cfg, a);
    FinalizeIdempotent(Replay(a.journal));
    assert forall u :: b.Task(u) == Idle;
    assert Records(b, b.flight) == [];
  }

  lemma SelectedKnown(cfg: Config, s: Ledger, account: string, state: StoredCommandState, order: seq<ExecutionCommand>, keys: seq<string>)
    requires StoredOk(cfg, s) && Selects(s, account, state, order, keys)
    ensures AllKnown(cfg, s.seen, order)
  {
    forall c | c in order
      ensures Known(cfg, s.seen, c)
    {
      var i :| 0 <= i < |order| && order[i] == c;
      assert keys[i] in s.commands;
    }
  }

  lemma PlanGrows(cfg: Config, a: Await, task: Task)
    requires cfg.Usable() && task.Planning? && TaskOk(cfg, a.ledger.seen, task) && task.todo != []
    requires task.todo[0].Usable()
    requires NextPlan(cfg, a, task).Success?
    ensures AllOf(cfg, task.event.eventId, NextPlan(cfg, a, task).value)
  {
    var outcome := Build(cfg.digest, a.ledger.mirrors, task.event, task.todo[0], task.now);
    if outcome.Success? && outcome.value.Some? {
      MadeGenuine(cfg, a.ledger.mirrors, task.event, task.now, task.todo[0], outcome.value.value);
    }
  }

  lemma EventSteps(cfg: Config, a: Await, t: nat, action: Action)
    requires Separable(cfg) && Inv(cfg, a) && Enabled(cfg, a, t, action)
    requires action.StartEvent? || action.BuildNext? || action.WritePlan?
    ensures Inv(cfg, Step(cfg, a, t, action))
  {
    var task := a.Task(t);
    assert TaskOk(cfg, a.ledger.seen, task);
    match action
    case StartEvent(event, now) =>
      LocalKeeps(cfg, a, t, Planning(event, now, ForSource(cfg.routes, event.sourceAccountId), []));
    case BuildNext =>
      PlanGrows(cfg, a, task);
      var next := task.(todo := task.todo[1..], planned := NextPlan(cfg, a, task).value);
      InheritsApart(cfg, a, t, next);
      LocalKeeps(cfg, a, t, next);
    case WritePlan =>
      InheritsApart(cfg, a, t, InFlight(EventPlanned(task.event.eventId, task.planned), None, Sending(task.planned)));
      WriteKeeps(cfg, a, t, EventPlanned(task.event.eventId, task.planned), None, Sending(task.planned));
  }

  /** A task that loops over known commands may become any other such task. */
  lemma LoopLocal(cfg: Config, a: Await, t: nat, next: Task)
    requires Inv(cfg, a) && !a.Task(t).InFlight? && LoopOk(cfg, a.ledger.seen, next)
    ensures Inv(cfg, Local(a, t, next))
  {
    InheritsApart(cfg, a, t, next);
    LocalKeeps(cfg, a, t, next);
  }

  lemma LoopWrite(cfg: Config, a: Await, t: nat, record: JournalRecord, c: ExecutionCommand, next: Task)
    requires Inv(cfg, a) && !a.Task(t).InFlight? && LoopOk(cfg, a.ledger.seen, next)
    requires Known(cfg, a.ledger.seen, c) && Concerns(record, c) && !record.AckApplied?
    ensures Inv(cfg, Write(a, t, record, Some(c), next))
  {
    InheritsApart(cfg, a, t, InFlight(record, Some(c), next));
    WriteKeeps(cfg, a, t, record, Some(c), next);
  }

  lemma WriteSteps(cfg: Config, a: Await, t: nat, action: Action)
    requires cfg.Usable() && Inv(cfg, a) && Enabled(cfg, a, t, action)
    requires action.WriteDispatched? || action.PushRefused? || action.WriteUnknown?
    ensures Inv(cfg, Step(cfg, a, t, action))
  {
    var task := a.Task(t);
    assert TaskOk(cfg, a.ledger.seen, task);
    match action
    case WriteDispatched =>
      LoopWrite(cfg, a, t, CommandDispatched(task.command.commandId), task.command, Pushing(task.command, task.session, task.rest));
    case PushRefused => LoopWrite(cfg, a, t, CommandUnknown(task.command.commandId), task.command, Sending(task.rest));
    case WriteUnknown =>
      LoopWrite(cfg, a, t, CommandUnknown(task.commands[0].commandId), task.commands[0], Marking(task.commands[1..]));
  }

  lemma LoopSteps(cfg: Config, a: Await, t: nat, action: Action)
    requires cfg.Usable() && Inv(cfg, a) && Enabled(cfg, a, t, action)
    requires action.SkipNext? || action.TakeSession? || action.PushAccepted? || action.Finish?
    ensures Inv(cfg, Step(cfg, a, t, action))
  {
    var task := a.Task(t);
    assert TaskOk(cfg, a.ledger.seen, task);
    match action
    case SkipNext => LoopLocal(cfg, a, t, Sending(task.commands[1..]));
    case TakeSession => LoopLocal(cfg, a, t, Step(cfg, a, t, action).Task(t));
    case PushAccepted =>
      LoopLocal(cfg, a, t, Sending(task.rest));
      OutsideIsFree(cfg, Local(a, t, Sending(task.rest)), Step(cfg, a, t, action));
    case Finish => LoopLocal(cfg, a, t, Idle);
  }

  lemma SessionSteps(cfg: Config, a: Await, t: nat, action: Action)
    requires cfg.Usable() && Inv(cfg, a) && Enabled(cfg, a, t, action)
    requires action.Connect? || action.CloseChannel? || action.Disconnect?
    ensures Inv(cfg, Step(cfg, a, t, action))
  {
    match action
    case Connect(account) =>
      LoopLocal(cfg, a, t, Joining(account));
      OutsideIsFree(cfg, Local(a, t, Joining(account)), Step(cfg, a, t, action));
    case Disconnect(account, _) =>
      LoopLocal(cfg, a, t, Leaving(account));
      OutsideIsFree(cfg, Local(a, t, Leaving(account)), Step(cfg, a, t, action));
    case CloseChannel(_) => OutsideIsFree(cfg, a, Step(cfg, a, t, action));
  }

  lemma AckRecordConcerns(mirrors: map<string, MirrorBinding>, c: ExecutionCommand, ack: ExecutionAck)
    requires c.commandId == ack.commandId && forall key <- mirrors :: mirrors[key].BindingKey() == key
    ensures Concerns(AckRecord(mirrors, c, ack), c)
  {
  }

  lemma StartAckKeeps(cfg: Config, a: Await, t: nat, ack: ExecutionAck)
    requires cfg.Usable() && Inv(cfg, a) && Enabled(cfg, a, t, StartAck(ack))
    ensures Inv(cfg, Local(a, t, Acking(ack, a.ledger.commands[ack.commandId].command)))
  {
    var task := Acking(ack, a.ledger.commands[ack.commandId].command);
    AckStartsApart(a, t, task);
    assert StoredOk(cfg, a.ledger) && TaskOk(cfg, a.ledger.seen, task);
    LocalKeeps(cfg, a, t, task);
  }

  lemma AckStartsApart(a: Await, t: nat, task: Task)
    requires task.Acking? && forall u :: AckAccount(a.Task(u)) != Some(task.command.targetAccountId)
    ensures ApartFromAll(a, t, task)
  {
  }

  lemma DecideAckKeeps(cfg: Config, a: Await, t: nat)
    requires Inv(cfg, a) && a.Task(t).Acking?
    ensures var task := a.Task(t);
            Inv(cfg, Local(a, t, Booking(AckRecord(a.ledger.mirrors, task.command, task.ack), task.command)))
  {
    var task := a.Task(t);
    assert TaskOk(cfg, a.ledger.seen, task);
    AckRecordConcerns(a.ledger.mirrors, task.command, task.ack);
    var record := AckRecord(a.ledger.mirrors, task.command, task.ack);
    InheritsApart(cfg, a, t, Booking(record, task.command));
    LocalKeeps(cfg, a, t, Booking(record, task.command));
  }

  lemma WriteAckKeeps(cfg: Config, a: Await, t: nat)
    requires Inv(cfg, a) && a.Task(t).Booking?
    ensures Inv(cfg, Write(a, t, a.Task(t).record, Some(a.Task(t).command), Idle))
  {
    var task := a.Task(t);
    assert TaskOk(cfg, a.ledger.seen, task);
    InheritsApart(cfg, a, t, InFlight(task.record, Some(task.command), Idle));
    WriteKeeps(cfg, a, t, task.record, Some(task.command), Idle);
  }

  lemma StepKeeps(cfg: Config, a: Await, t: nat, action: Action)
    requires Separable(cfg) && Inv(cfg, a) && Enabled(cfg, a, t, action)
    ensures Inv(cfg, Step(cfg, a, t, action))
  {
    match action
    case StartEvent(_, _) | BuildNext | WritePlan => EventSteps(cfg, a, t, action);
    case StartAck(ack) => StartAckKeeps(cfg, a, t, ack);
    case DecideAck => DecideAckKeeps(cfg, a, t);
    case WriteAck => WriteAckKeeps(cfg, a, t);
    case Connect(_) | CloseChannel(_) | Disconnect(_, _) => SessionSteps(cfg, a, t, action);
    case StartDispatch(order, keys) =>
      SelectedKnown(cfg, a.ledger, a.Task(t).account, Queued, order, keys);
      LoopLocal(cfg, a, t, Sending(order));
    case StartUnregister(order, keys) =>
      SelectedKnown(cfg, a.ledger, a.Task(t).account, Dispatched, order, keys);
      LoopLocal(cfg, a, t, Marking(order));
    case ApplyRecord => ApplyKeeps(cfg, a, t);
    case Crash => CrashKeeps(cfg, a, t);
    case WriteDispatched | PushRefused | WriteUnknown => WriteSteps(cfg, a, t, action);
    case _ => LoopSteps(cfg, a, t, action);
  }

  /** Sessions and what was sent are outside the invariant. */
  lemma OutsideIsFree(cfg: Config, a: Await, b: Await)
    requires Inv(cfg, a) && b.ledger == a.ledger && b.journal == a.journal && b.tasks == a.tasks && b.flight == a.flight
    ensures Inv(cfg, b)
  {
    assert forall u :: b.Task(u) == a.Task(u);
    assert Records(b, b.flight) == Records(a, a.flight);
  }

  /* Runs. */

  datatype Turn = Turn(task: nat, action: Action)

  const BEGIN: Await := Await(EMPTY, [], map[], [], map[], 1, {}, [])

  /** Any turns in any order; one that is not possible is passed over. */
  ghost function From(cfg: Config, a: Await, turns: seq<Turn>): Await
    requires cfg.Usable()
  {
    if turns == [] then a
    else
      var mid, turn := From(cfg, a, turns[..|turns| - 1]), turns[|turns| - 1];
      if Enabled(cfg, mid, turn.task, turn.action) then Step(cfg, mid, turn.task, turn.action) else mid
  }

  ghost function Interleaved(cfg: Config, turns: seq<Turn>): Await
    requires cfg.Usable()
  {
    From(cfg, BEGIN, turns)
  }

  lemma BeginKeeps(cfg: Config)
    ensures Inv(cfg, BEGIN)
  {
    assert forall u :: BEGIN.Task(u) == Idle;
    assert Records(BEGIN, []) == [];
  }

  lemma {:induction false} InterleavingsKeepInv(cfg: Config, turns: seq<Turn>)
    requires Separable(cfg)
    ensures Inv(cfg, Interleaved(cfg, turns))
  {
    if turns == [] {
      BeginKeeps(cfg);
    } else {
      var a, turn := Interleaved(cfg, turns[..|turns| - 1]), turns[|turns| - 1];
      InterleavingsKeepInv(cfg, turns[..|turns| - 1]);
      if Enabled(cfg, a, turn.task, turn.action) {
        StepKeeps(cfg, a, turn.task, turn.action);
      }
    }
  }

  /** However the handlers interleave and crash, recovering from the journal gives the state the
      live daemon is heading for: its own with the written records applied, in any order. In a
      quiet moment that is its own state. */
  lemma InterleavingsAgree(cfg: Config, turns: seq<Turn>)
    requires Separable(cfg)
    ensures var a := Interleaved(cfg, turns);
            && FlightOk(a)
            && Finalize(Fold(a.ledger, Records(a, a.flight))) == Recovered(a.journal)
            && (a.flight == [] ==> Finalize(a.ledger) == Recovered(a.journal))
  {
    InterleavingsKeepInv(cfg, turns);
  }
}
