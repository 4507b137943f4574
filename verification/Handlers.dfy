/** What the daemon's handlers do (crates/copier-daemon/src/runtime.rs), as sequences of small
    effects. A handler runs alone; a crash may cut its sequence anywhere. */
module Handlers {
  import opened Wrappers
  import opened Model
  import opened Routing
  import opened Journal

  datatype AccountPolicy = AccountPolicy(canPublish: bool, allowRebroadcast: bool)

  datatype Config = Config(
    accounts: map<string, AccountPolicy>,
    routes: seq<RouteRule>,
    digest: Digest,
    durability: Durability)
  {
    predicate Usable() {
      forall route <- routes :: route.Usable()
    }
  }

  datatype FrameError =
    | HelloNotFirst
    | AccountMismatch
    | UnknownSource
    | NotPermitted
    | Route(error: RouteError)
    | AckTargetMismatch

  /** The state of the daemon and of the world around it: `pending` is the record written but
      not yet applied, `sent` everything ever pushed to a session channel, restarts included. */
  datatype System = System(
    ledger: Ledger,
    journal: seq<JournalRecord>,
    pending: Option<JournalRecord>,
    sessions: map<string, nat>,
    nextSession: nat,
    sent: seq<ExecutionCommand>)

  datatype Effect =
    | Append(record: JournalRecord)
    | Apply(record: JournalRecord)
    | Push(command: ExecutionCommand)
    | OpenSession(account: string)
    | CloseSession(account: string)

  function Do(durability: Durability, s: System, effect: Effect): System {
    match effect
    case Append(record) =>
      s.(journal := if durability == NoDurability then s.journal else s.journal + [record], pending := Some(record))
    case Apply(record) => s.(ledger := Applied(s.ledger, record), pending := None)
    case Push(command) => s.(sent := s.sent + [command])
    case OpenSession(account) => s.(sessions := s.sessions[account := s.nextSession], nextSession := s.nextSession + 1)
    case CloseSession(account) => s.(sessions := s.sessions - {account})
  }

  function Exec(durability: Durability, s: System, effects: seq<Effect>): System {
    if effects == [] then s
    else Do(durability, Exec(durability, s, effects[..|effects| - 1]), effects[|effects| - 1])
  }

  lemma {:induction false} ExecConcat(durability: Durability, s: System, first: seq<Effect>, second: seq<Effect>)
    ensures Exec(durability, s, first + second) == Exec(durability, Exec(durability, s, first), second)
  {
    hide Do;
    if second == [] {
      ConcatNothing(first);
    } else {
      ConcatInit(first, second);
      ExecConcat(durability, s, first, second[..|second| - 1]);
    }
  }

  lemma ExecOne(durability: Durability, s: System, effect: Effect)
    ensures Exec(durability, s, [effect]) == Do(durability, s, effect)
  {
    assert [effect][..0] == [];
    assert Exec(durability, s, []) == s;
  }

  /* Planning. */

  function Lookup(mirrors: map<string, MirrorBinding>, key: string): Option<MirrorBinding> {
    if key in mirrors then Some(mirrors[key]) else None
  }

  function Build(digest: Digest, mirrors: map<string, MirrorBinding>, event: TradeEvent, route: RouteRule, now: I64)
    : Result<Option<ExecutionCommand>, RouteError>
    requires route.Usable()
  {
    BuildCommand(digest, event, route,
                 Lookup(mirrors, MirrorKey(event.sourceAccountId, event.sourceOrderId, route.targetAccountId)), now)
  }

  /** Commands for the routes in order; a missing binding skips its route, any other error
      discards the event. */
  function Plan(digest: Digest, routes: seq<RouteRule>, mirrors: map<string, MirrorBinding>, event: TradeEvent, now: I64)
    : Result<seq<ExecutionCommand>, RouteError>
    requires forall route <- routes :: route.Usable()
  {
    if routes == [] then Success([])
    else
      var before :- Plan(digest, routes[..|routes| - 1], mirrors, event, now);
      Absorb(before, Build(digest, mirrors, event, routes[|routes| - 1], now))
  }

  /** What one route adds to a plan. */
  function Absorb(before: seq<ExecutionCommand>, outcome: Result<Option<ExecutionCommand>, RouteError>)
    : Result<seq<ExecutionCommand>, RouteError>
  {
    match outcome
    case Success(Some(command)) => Success(before + [command])
    case Success(None) => Success(before)
    case Failure(MissingMirror(_)) => Success(before)
    case Failure(error) => Failure(error)
  }

  lemma PlanSnoc(digest: Digest, routes: seq<RouteRule>, mirrors: map<string, MirrorBinding>, event: TradeEvent, now: I64,
                 n: nat, before: seq<ExecutionCommand>)
    requires forall route <- routes :: route.Usable()
    requires n < |routes| && Plan(digest, routes[..n], mirrors, event, now) == Success(before)
    ensures Plan(digest, routes[..n + 1], mirrors, event, now) == Absorb(before, Build(digest, mirrors, event, routes[n], now))
  {
    assert routes[..n + 1][..n] == routes[..n];
  }

  function PlanEvent(cfg: Config, mirrors: map<string, MirrorBinding>, event: TradeEvent, now: I64)
    : Result<seq<ExecutionCommand>, RouteError>
    requires cfg.Usable()
  {
    Plan(cfg.digest, ForSource(cfg.routes, event.sourceAccountId), mirrors, event, now)
  }

  /* Effects. `accepted` holds the ids of the commands whose channel was still open. */

  function Log(record: JournalRecord): seq<Effect> {
    [Append(record), Apply(record)]
  }

  function DispatchEffects(sessions: map<string, nat>, command: ExecutionCommand, accepted: set<string>): seq<Effect> {
    if command.targetAccountId !in sessions then []
    else
      Log(CommandDispatched(command.commandId))
      + if command.commandId in accepted then [Push(command)] else Log(CommandUnknown(command.commandId))
  }

  function DispatchAll(sessions: map<string, nat>, commands: seq<ExecutionCommand>, accepted: set<string>): seq<Effect> {
    if commands == [] then []
    else
      DispatchAll(sessions, commands[..|commands| - 1], accepted)
      + DispatchEffects(sessions, commands[|commands| - 1], accepted)
  }

  function MarkAll(ids: seq<string>): seq<Effect> {
    if ids == [] then [] else MarkAll(ids[..|ids| - 1]) + Log(CommandUnknown(ids[|ids| - 1]))
  }

  function EventEffects(cfg: Config, s: System, event: TradeEvent, now: I64, accepted: set<string>)
    : Result<seq<Effect>, FrameError>
    requires cfg.Usable()
  {
    if event.sourceAccountId !in cfg.accounts then Failure(UnknownSource)
    else if !cfg.accounts[event.sourceAccountId].canPublish then Failure(NotPermitted)
    else if event.originCommandId.Some? && !cfg.accounts[event.sourceAccountId].allowRebroadcast then Success([])
    else if event.eventId in s.ledger.seen then Success([])
    else
      match PlanEvent(cfg, s.ledger.mirrors, event, now)
      case Failure(error) => Failure(Route(error))
      case Success(planned) =>
        Success(Log(EventPlanned(event.eventId, planned)) + DispatchAll(s.sessions, planned, accepted))
  }

  function OpenBinding(command: ExecutionCommand, targetOrderId: string): MirrorBinding {
    MirrorBinding(command.routeId, command.sourceAccountId, command.sourceOrderId, command.targetAccountId, targetOrderId,
                  command.sourceVolume,
                  if command.sourceRemainingVolume.Some? then command.sourceRemainingVolume.value else command.sourceVolume,
                  command.volume, command.volume)
  }

  function ReducedBinding(binding: MirrorBinding, command: ExecutionCommand): MirrorBinding {
    binding.(
      sourceRemainingVolume :=
        if command.sourceRemainingVolume.Some? then command.sourceRemainingVolume.value
        else Max(binding.sourceRemainingVolume - command.sourceVolume, 0.0),
      targetRemainingVolume := Max(binding.targetRemainingVolume - command.volume, 0.0))
  }

  function AckMutation(mirrors: map<string, MirrorBinding>, command: ExecutionCommand, ack: ExecutionAck): Option<MirrorMutation>
    requires command.action == Open ==> ack.externalId.Some?
  {
    match command.action
    case Open => Some(Upsert(OpenBinding(command, ack.externalId.value)))
    case Modify => None
    case Reduce =>
      if command.Key() in mirrors then Some(Upsert(ReducedBinding(mirrors[command.Key()], command))) else None
    case Close => Some(Remove(command.Key()))
  }

  /** A fill of an open that does not name the opened order cannot be booked. */
  predicate Unbookable(command: ExecutionCommand, ack: ExecutionAck) {
    ack.Fills() && command.action == Open && ack.externalId.None?
  }

  function AckRecord(mirrors: map<string, MirrorBinding>, command: ExecutionCommand, ack: ExecutionAck): JournalRecord {
    if Unbookable(command, ack) then CommandUnknown(command.commandId)
    else AckApplied(ack, if ack.Fills() then AckMutation(mirrors, command, ack) else None)
  }

  function AckEffects(s: System, ack: ExecutionAck): Result<seq<Effect>, FrameError> {
    if ack.commandId !in s.ledger.commands then Success([])
    else
      var command := s.ledger.commands[ack.commandId].command;
      if command.targetAccountId != ack.accountId then Failure(AckTargetMismatch)
      else Success(Log(AckRecord(s.ledger.mirrors, command, ack)))
  }

  function FrameEffects(cfg: Config, s: System, connected: string, frame: AgentFrame, now: I64, accepted: set<string>)
    : Result<seq<Effect>, FrameError>
    requires cfg.Usable()
  {
    match frame
    case Hello(_) => Failure(HelloNotFirst)
    case Event(event) =>
      if event.sourceAccountId != connected then Failure(AccountMismatch)
      else EventEffects(cfg, s, event, now, accepted)
    case Ack(ack) =>
      if ack.accountId != connected then Failure(AccountMismatch) else AckEffects(s, ack)
    case Ping(_) => Success([])
  }

  /** Commands of one account in one state. */
  ghost predicate InState(s: Ledger, account: string, state: StoredCommandState, id: string) {
    id in s.commands && s.commands[id].state == state && s.commands[id].command.targetAccountId == account
  }

  predicate NoRepeats<T(==)>(items: seq<T>) {
    forall i, j :: 0 <= i < j < |items| ==> items[i] != items[j]
  }

  /** `order` lists, in whatever order the hash map yields them, the stored commands of an
      account that are in `state`. */
  ghost predicate Selects(s: Ledger, account: string, state: StoredCommandState, order: seq<ExecutionCommand>, keys: seq<string>) {
    && |order| == |keys|
    && NoRepeats(keys)
    && (forall id :: id in keys <==> InState(s, account, state, id))
    && (forall i :: 0 <= i < |keys| ==> keys[i] in s.commands && order[i] == s.commands[keys[i]].command)
  }

  function Ids(commands: seq<ExecutionCommand>): (ids: seq<string>)
    ensures |ids| == |commands|
    ensures forall i :: 0 <= i < |ids| ==> ids[i] == commands[i].commandId
  {
    seq(|commands|, i requires 0 <= i < |commands| => commands[i].commandId)
  }

  predicate Current(s: System, account: string, sessionId: nat) {
    account in s.sessions && s.sessions[account] == sessionId
  }

  function DisconnectEffects(s: System, account: string, sessionId: nat, order: seq<ExecutionCommand>): seq<Effect> {
    if Current(s, account, sessionId) then [CloseSession(account)] + MarkAll(Ids(order)) else []
  }
}
