/** The cTrader hub (crates/copier-daemon/src/venues/ctrader.rs): commands wait for their final
    execution, opens with stop loss or take profit wait once more for the protection order. */
module CTrader {
  import opened Wrappers
  import opened Model
  import opened Rounding
  import Decimal
  import Keys
  import Positions

  datatype Symbol = Symbol(id: int, name: string, lotSizeCents: real)

  datatype Snapshot = Snapshot(
    id: string,
    symbol: string,
    side: Side,
    volumeLots: real,
    price: Option<real>,
    stopLoss: Option<real>,
    takeProfit: Option<real>,
    originCommandId: Option<string>)
  {
    function Quoted(): Positions.Quote {
      Positions.Quote(volumeLots, stopLoss, takeProfit)
    }
  }

  type Book = map<string, Snapshot>

  datatype HubError =
    | SymbolNotFound(name: string)
    | SideOmitted
    | VolumeIsZero
    | PositionRequired
    | InvalidPosition(text: string)
    | AccountOmitted
    | PositionIdOmitted
    | BadPosition(text: string)
    | NoRuntime
    | SendFailed
    | Refused

  /** The text of an error as an acknowledgement carries it. */
  function Explain(error: HubError): string {
    match error
    case SymbolNotFound(name) => "cTrader symbol " + name + " not found"
    case SideOmitted => "cTrader open command omitted side"
    case VolumeIsZero => "cTrader normalized volume is zero"
    case PositionRequired => "cTrader command requires target position id"
    case InvalidPosition(_) => "invalid cTrader target position id"
    case _ => ""
  }

  datatype Request =
    | NewOrder(ctid: int, symbolId: int, buy: bool, volume: int, clientOrderId: string)
    | Amend(ctid: int, positionId: I64, stopLoss: Option<real>, takeProfit: Option<real>)
    | ClosePosition(ctid: int, positionId: I64, volume: int)

  /** A float-to-integer cast saturates. */
  function ToI64(n: int): I64 {
    if n < -0x8000_0000_0000_0000 then -0x8000_0000_0000_0000
    else if n >= 0x8000_0000_0000_0000 then 0x7FFF_FFFF_FFFF_FFFF
    else n
  }

  function TargetPosition(command: ExecutionCommand): Result<I64, HubError> {
    match command.targetOrderId
    case None => Failure(PositionRequired)
    case Some(text) =>
      match Decimal.ParseI64(text)
      case Some(n) => Success(n)
      case None => Failure(InvalidPosition(text))
  }

  function CommandMessage(ctid: int, symbols: map<string, Symbol>, positions: Book, command: ExecutionCommand): Result<Request, HubError> {
    match command.action
    case Open =>
      if command.symbol !in symbols then Failure(SymbolNotFound(command.symbol))
      else if command.side.None? then Failure(SideOmitted)
      else
        var symbol := symbols[command.symbol];
        var volume := ToI64(Round(Scale(command.volume, symbol.lotSizeCents)));
        if volume <= 0 then Failure(VolumeIsZero)
        else Success(NewOrder(ctid, symbol.id, command.side.value == Buy, volume, command.commandId))
    case Modify =>
      var positionId :- TargetPosition(command);
      Success(Amend(ctid, positionId, command.stopLoss, command.takeProfit))
    case _ =>
      var positionId :- TargetPosition(command);
      if command.symbol !in symbols then Failure(SymbolNotFound(command.symbol))
      else
        var key := Decimal.Print(positionId);
        var lots := if command.action == Close && key in positions then positions[key].volumeLots else command.volume;
        Success(ClosePosition(ctid, positionId, ToI64(Round(Scale(lots, symbols[command.symbol].lotSizeCents)))))
  }

  /** The volume, in the broker's units, a command asks for. */
  function Units(symbols: map<string, Symbol>, positions: Book, command: ExecutionCommand, positionId: string): real
    requires command.symbol in symbols
  {
    var lots := if command.action == Close && positionId in positions then positions[positionId].volumeLots else command.volume;
    Scale(lots, symbols[command.symbol].lotSizeCents)
  }

  function Distance(n: int, x: real): real {
    if n as real <= x then x - n as real else n as real - x
  }

  /** No 64-bit integer is closer. */
  ghost predicate Nearest(volume: int, units: real) {
    forall n: I64 :: Distance(volume, units) <= Distance(n, units)
  }

  lemma RoundedIsNearest(units: real)
    ensures Nearest(ToI64(Round(units)), units)
  {
    RoundNearest(units);
    var r := Round(units);
    forall n: I64
      ensures Distance(ToI64(r), units) <= Distance(n, units)
    {
      assert n < r ==> n as real <= r as real - 1.0;
      assert n > r ==> n as real >= r as real + 1.0;
    }
  }

  /** Orders are for the 64-bit number of units nearest to the command's volume, opens for at least
      one, on the command's side and symbol; a close takes what the hub knows the position holds.
      Requests name the position the command names and carry its stop levels. */
  lemma RequestsAskForVolume(ctid: int, symbols: map<string, Symbol>, positions: Book, command: ExecutionCommand)
    requires CommandMessage(ctid, symbols, positions, command).Success?
    ensures match CommandMessage(ctid, symbols, positions, command).value
            case NewOrder(account, symbolId, buy, volume, id) =>
              && command.action == Open && account == ctid && id == command.commandId && volume > 0
              && command.side == Some(if buy then Buy else Sell)
              && command.symbol in symbols && symbolId == symbols[command.symbol].id
              && Nearest(volume, Units(symbols, positions, command, ""))
            case Amend(account, positionId, stopLoss, takeProfit) =>
              && command.action == Modify && account == ctid && command.targetOrderId.Some?
              && Decimal.ParseI64(command.targetOrderId.value) == Some(positionId)
              && stopLoss == command.stopLoss && takeProfit == command.takeProfit
            case ClosePosition(account, positionId, volume) =>
              && (command.action == Reduce || command.action == Close) && account == ctid && command.targetOrderId.Some?
              && Decimal.ParseI64(command.targetOrderId.value) == Some(positionId)
              && command.symbol in symbols && Nearest(volume, Units(symbols, positions, command, Decimal.Print(positionId)))
  {
    hide Decimal.ParseI64, Decimal.Print, Scale, Round, ToI64, Nearest;
    if command.symbol in symbols {
      RoundedIsNearest(Scale(command.volume, symbols[command.symbol].lotSizeCents));
      forall key {
        RoundedIsNearest(Units(symbols, positions, command, key));
      }
    }
  }

  lemma RoundsToNothing(x: real)
    ensures ToI64(Round(x)) <= 0 <==> x < 0.5
  {
    RoundNearest(x);
  }

  /** A command can be put into words exactly when its symbol is known, its position is a 64-bit
      number, and an open names its side and asks for at least half a unit. */
  lemma RequestableIff(ctid: int, symbols: map<string, Symbol>, positions: Book, command: ExecutionCommand)
    ensures var positioned := command.targetOrderId.Some? && Decimal.ParseI64(command.targetOrderId.value).Some?;
            CommandMessage(ctid, symbols, positions, command).Success? <==>
            match command.action
            case Open => command.symbol in symbols && command.side.Some? && Units(symbols, positions, command, "") >= 0.5
            case Modify => positioned
            case _ => positioned && command.symbol in symbols
  {
    hide Decimal.ParseI64, Decimal.Print, Scale, Round, ToI64;
    if command.symbol in symbols {
      RoundsToNothing(Scale(command.volume, symbols[command.symbol].lotSizeCents));
    }
  }

  /* Commands on their way. */

  datatype Protected = Protected(command: ExecutionCommand, positionId: string)

  /** `acks` is everything handed to the daemon. */
  datatype Hub = Hub(pending: map<string, ExecutionCommand>, protection: map<string, Protected>, acks: seq<ExecutionAck>)

  /** What the world contributes to a step: whether the socket took a message, whether the daemon
      refused an acknowledgement, and the time. */
  datatype Env = Env(delivered: bool, refused: bool, now: I64)

  datatype Execution = Execution(
    ctid: Option<int>,
    kind: int,
    messageId: string,
    positionId: Option<string>,
    orderId: Option<string>,
    errorCode: Option<string>)

  /** An error ends the select loop. */
  datatype Outcome = Outcome(hub: Hub, result: Result<(), HubError>)

  function Proceed(hub: Hub): Outcome {
    Outcome(hub, Success(()))
  }

  function Acked(hub: Hub, ack: ExecutionAck, env: Env): Outcome {
    Outcome(hub.(acks := hub.acks + [ack]), if env.refused then Failure(Refused) else Success(()))
  }

  function AckFor(command: ExecutionCommand, status: AckStatus, externalId: Option<string>, env: Env, message: Option<string>): ExecutionAck {
    ExecutionAck(command.commandId, command.targetAccountId, status, externalId, env.now, message)
  }

  function ProtectionId(commandId: string): string {
    "p:" + commandId
  }

  predicate NonFinal(kind: int) {
    kind == 2 || kind == 11
  }

  predicate Filling(kind: int) {
    kind == 3 || kind == 4
  }

  function StatusOf(kind: int): AckStatus {
    if Filling(kind) then Filled else if 5 <= kind <= 8 then Rejected else AckStatus.Unknown
  }

  /** A command from the queue: sent to the broker, or rejected if it cannot be put into words. */
  function TakeCommand(hub: Hub, known: bool, request: Result<Request, HubError>, command: ExecutionCommand, env: Env): Outcome {
    if !known then Proceed(hub)
    else
      match request
      case Failure(error) => Acked(hub, AckFor(command, Rejected, None, env, Some(Explain(error))), env)
      case Success(_) =>
        if env.delivered then Proceed(hub.(pending := hub.pending[command.commandId := command]))
        else Outcome(hub, Failure(SendFailed))
  }

  predicate NeedsProtection(command: ExecutionCommand, kind: int) {
    command.action == Open && Filling(kind) && (command.stopLoss.Some? || command.takeProfit.Some?)
  }

  function ExternalId(execution: Execution, command: ExecutionCommand): Option<string> {
    if execution.positionId.Some? then execution.positionId
    else if execution.orderId.Some? then execution.orderId
    else command.targetOrderId
  }

  /** A filled open gets its protection order, under an id of its own. */
  function Protect(hub: Hub, known: bool, command: ExecutionCommand, positionId: string, env: Env): Outcome {
    if !known then Outcome(hub, Failure(NoRuntime))
    else if Decimal.ParseI64(positionId).None? then Outcome(hub, Failure(InvalidPosition(positionId)))
    else if !env.delivered then Outcome(hub, Failure(SendFailed))
    else Proceed(hub.(protection := hub.protection[ProtectionId(command.commandId) := Protected(command, positionId)]))
  }

  /** An execution report. `known` tells which accounts the hub runs. */
  function Execute(hub: Hub, known: set<string>, execution: Execution, env: Env): Outcome {
    var id := execution.messageId;
    if execution.ctid.None? then Outcome(hub, Failure(AccountOmitted))
    else if NonFinal(execution.kind) then Proceed(hub)
    else if id in hub.protection then
      var p := hub.protection[id];
      Acked(hub.(protection := hub.protection - {id}),
            AckFor(p.command, StatusOf(execution.kind), Some(p.positionId), env, Some("cTrader position protection finalized")), env)
    else if id in hub.pending then
      var command, rest := hub.pending[id], hub.(pending := hub.pending - {id});
      var externalId := ExternalId(execution, command);
      if !NeedsProtection(command, execution.kind) then
        Acked(rest, AckFor(command, StatusOf(execution.kind), externalId, env, execution.errorCode), env)
      else if externalId.None? then
        Acked(rest, AckFor(command, AckStatus.Unknown, None, env, Some("cTrader fill omitted position id")), env)
      else Protect(rest, command.targetAccountId in known, command, externalId.value, env)
    else Proceed(hub)
  }

  /** An error report: a plain command is rejected, an unprotected fill becomes unknown. */
  function Fail(hub: Hub, id: string, message: string, env: Env): Outcome {
    if id in hub.pending then
      Acked(hub.(pending := hub.pending - {id}), AckFor(hub.pending[id], Rejected, None, env, Some(message)), env)
    else if id in hub.protection then
      var p := hub.protection[id];
      Acked(hub.(protection := hub.protection - {id}),
            AckFor(p.command, AckStatus.Unknown, Some(p.positionId), env, Some("cTrader order filled but SL/TP protection request failed")), env)
    else Proceed(hub)
  }

  /* Conservation. */

  datatype HubStep =
    | Taking(request: Result<Request, HubError>, command: ExecutionCommand, env: Env)
    | Executing(execution: Execution, env: Env)
    | Failing(id: string, message: string, env: Env)

  function Next(hub: Hub, known: set<string>, step: HubStep): Outcome {
    match step
    case Taking(request, command, env) => TakeCommand(hub, command.targetAccountId in known, request, command, env)
    case Executing(execution, env) => Execute(hub, known, execution, env)
    case Failing(id, message, env) => Fail(hub, id, message, env)
  }

  function Acks(acks: seq<ExecutionAck>, id: string): nat {
    if acks == [] then 0 else Acks(acks[..|acks| - 1], id) + if acks[|acks| - 1].commandId == id then 1 else 0
  }

  /** In how many places a command is: waiting, waiting for protection, or acknowledged. */
  function Places(hub: Hub, id: string): nat {
    (if id in hub.pending then 1 else 0) + (if ProtectionId(id) in hub.protection then 1 else 0) + Acks(hub.acks, id)
  }

  /** Command ids are not protection ids, and entries sit under their own id. */
  predicate Plain(id: string) {
    !("p:" <= id)
  }

  predicate HubKeyed(hub: Hub) {
    && (forall id <- hub.pending :: hub.pending[id].commandId == id && Plain(id))
    && (forall id <- hub.protection :: id == ProtectionId(hub.protection[id].command.commandId)
                                      && Plain(hub.protection[id].command.commandId))
  }

  predicate Takes(step: HubStep, known: set<string>, id: string) {
    step.Taking? && step.command.commandId == id && step.command.targetAccountId in known
  }

  lemma AcksOneMore(acks: seq<ExecutionAck>, ack: ExecutionAck, id: string)
    ensures Acks(acks + [ack], id) == Acks(acks, id) + if ack.commandId == id then 1 else 0
  {
    assert (acks + [ack])[..|acks|] == acks;
  }

  lemma ProtectionIds(a: string, b: string)
    ensures ProtectionId(a) == ProtectionId(b) <==> a == b
    ensures Plain(a) ==> a != ProtectionId(b)
  {
    assert ProtectionId(a)[2..] == a && ProtectionId(b)[2..] == b;
  }

  /** No pending command also waits for protection. */
  predicate Disjoint(hub: Hub) {
    forall id <- hub.pending :: ProtectionId(id) !in hub.protection
  }

  function WithoutPending(hub: Hub, key: string): Hub {
    hub.(pending := hub.pending - {key})
  }

  function WithoutProtection(hub: Hub, key: string): Hub {
    hub.(protection := hub.protection - {key})
  }

  /** A command taken out of `from` and handed back, acknowledged or parked, keeps its place. */
  ghost predicate SamePlaces(before: Hub, after: Hub) {
    HubKeyed(after) && forall id :: Places(after, id) == Places(before, id)
  }

  /** A command taken out loses its place. */
  ghost predicate InHand(before: Hub, after: Hub, commandId: string) {
    HubKeyed(after) && forall id :: Places(after, id) == Places(before, id) - if id == commandId then 1 else 0
  }

  lemma Unpend(hub: Hub, key: string)
    requires HubKeyed(hub) && key in hub.pending
    ensures InHand(hub, WithoutPending(hub, key), key) && hub.pending[key].commandId == key
  {
    forall id: string {
      ProtectionIds(id, key);
    }
  }

  lemma Unprotect(hub: Hub, key: string)
    requires HubKeyed(hub) && key in hub.protection
    ensures InHand(hub, WithoutProtection(hub, key), hub.protection[key].command.commandId)
  {
    forall id: string {
      ProtectionIds(id, hub.protection[key].command.commandId);
    }
  }

  lemma HandedBack(before: Hub, rest: Hub, ack: ExecutionAck, env: Env)
    requires InHand(before, rest, ack.commandId)
    ensures SamePlaces(before, Acked(rest, ack, env).hub)
  {
    forall id: string {
      AcksOneMore(rest.acks, ack, id);
    }
  }

  lemma Parked(before: Hub, rest: Hub, command: ExecutionCommand, positionId: string)
    requires InHand(before, rest, command.commandId) && Plain(command.commandId)
    requires ProtectionId(command.commandId) !in rest.protection
    ensures SamePlaces(before, rest.(protection := rest.protection[ProtectionId(command.commandId) := Protected(command, positionId)]))
  {
    forall id: string {
      ProtectionIds(id, command.commandId);
    }
  }

  lemma ExecuteConserves(hub: Hub, known: set<string>, execution: Execution, env: Env)
    requires HubKeyed(hub) && Disjoint(hub)
    ensures var after := Execute(hub, known, execution, env);
            SamePlaces(hub, after.hub) || (after.result.Failure? && exists id :: InHand(hub, after.hub, id))
  {
    hide HubKeyed, Places, Acked, InHand, SamePlaces, StatusOf, ExternalId, NeedsProtection;
    var key := execution.messageId;
    Stays(hub);
    if execution.ctid.None? || NonFinal(execution.kind) {
    } else if key in hub.protection {
      var p := hub.protection[key];
      Unprotect(hub, key);
      HandedBack(hub, WithoutProtection(hub, key),
                 AckFor(p.command, StatusOf(execution.kind), Some(p.positionId), env, Some("cTrader position protection finalized")), env);
    } else if key in hub.pending {
      var command, rest := hub.pending[key], WithoutPending(hub, key);
      var externalId := ExternalId(execution, command);
      Unpend(hub, key);
      if !NeedsProtection(command, execution.kind) {
        HandedBack(hub, rest, AckFor(command, StatusOf(execution.kind), externalId, env, execution.errorCode), env);
      } else if externalId.None? {
        HandedBack(hub, rest, AckFor(command, AckStatus.Unknown, None, env, Some("cTrader fill omitted position id")), env);
      } else {
        PendingPlain(hub, key);
        Parked(hub, rest, command, externalId.value);
      }
    }
  }

  lemma Stays(hub: Hub)
    requires HubKeyed(hub)
    ensures SamePlaces(hub, hub)
  {
  }

  lemma PendingPlain(hub: Hub, key: string)
    requires HubKeyed(hub) && key in hub.pending
    ensures Plain(key) && hub.pending[key].commandId == key
  {
  }

  lemma FailConserves(hub: Hub, key: string, message: string, env: Env)
    requires HubKeyed(hub)
    ensures SamePlaces(hub, Fail(hub, key, message, env).hub)
  {
    hide HubKeyed, Places, Acked, InHand, SamePlaces;
    Stays(hub);
    if key in hub.pending {
      Unpend(hub, key);
      HandedBack(hub, WithoutPending(hub, key), AckFor(hub.pending[key], Rejected, None, env, Some(message)), env);
    } else if key in hub.protection {
      var p := hub.protection[key];
      Unprotect(hub, key);
      HandedBack(hub, WithoutProtection(hub, key),
                 AckFor(p.command, AckStatus.Unknown, Some(p.positionId), env,
                        Some("cTrader order filled but SL/TP protection request failed")), env);
    }
  }

  lemma AckPlaces(hub: Hub, ack: ExecutionAck, env: Env, id: string)
    requires HubKeyed(hub)
    ensures HubKeyed(Acked(hub, ack, env).hub)
    ensures Places(Acked(hub, ack, env).hub, id) == Places(hub, id) + if ack.commandId == id then 1 else 0
  {
    hide Acks, Plain;
    AcksOneMore(hub.acks, ack, id);
  }

  lemma PendPlaces(hub: Hub, command: ExecutionCommand, id: string)
    requires HubKeyed(hub) && command.commandId !in hub.pending && Plain(command.commandId)
    ensures var after := hub.(pending := hub.pending[command.commandId := command]);
            HubKeyed(after) && Places(after, id) == Places(hub, id) + if command.commandId == id then 1 else 0
  {
    hide Acks, Plain;
  }

  /** A command taken from the queue finds one place, unless the socket fails. */
  lemma TakeConserves(hub: Hub, known: set<string>, step: HubStep, id: string)
    requires HubKeyed(hub) && step.Taking? && step.command.commandId !in hub.pending && Plain(step.command.commandId)
    ensures var after := Next(hub, known, step);
            && HubKeyed(after.hub)
            && Places(hub, id) <= Places(after.hub, id) <= Places(hub, id) + (if Takes(step, known, id) then 1 else 0)
            && (after.result.Success? ==> Places(after.hub, id) == Places(hub, id) + if Takes(step, known, id) then 1 else 0)
  {
    hide Explain, CommandMessage, HubKeyed, Places, Acked, Plain;
    PendPlaces(hub, step.command, id);
    if step.request.Failure? {
      AckPlaces(hub, AckFor(step.command, Rejected, None, step.env, Some(Explain(step.request.error))), step.env, id);
      AckedResult(hub, AckFor(step.command, Rejected, None, step.env, Some(Explain(step.request.error))), step.env);
    }
  }

  lemma AckedResult(hub: Hub, ack: ExecutionAck, env: Env)
    ensures Acked(hub, ack, env).hub == hub.(acks := hub.acks + [ack])
  {
  }

  function TakenNow(step: HubStep, known: set<string>, id: string): nat {
    if Takes(step, known, id) then 1 else 0
  }

  /** Every command is in as many places as before, plus one if it was just taken; `lost`, if any,
      may be missing from one. */
  ghost predicate Conserves(hub: Hub, after: Hub, known: set<string>, step: HubStep, lost: Option<string>) {
    forall id ::
      var expected := Places(hub, id) + TakenNow(step, known, id);
      if lost == Some(id) then expected - 1 <= Places(after, id) <= expected else Places(after, id) == expected
  }

  lemma TakingConserves(hub: Hub, known: set<string>, step: HubStep)
    requires HubKeyed(hub) && step.Taking? && step.command.commandId !in hub.pending && Plain(step.command.commandId)
    ensures var after := Next(hub, known, step);
            && HubKeyed(after.hub)
            && Conserves(hub, after.hub, known, step, if after.result.Success? then None else Some(step.command.commandId))
  {
    hide HubKeyed, Places, Next;
    TakeConserves(hub, known, step, "");
    forall id: string {
      TakeConserves(hub, known, step, id);
    }
  }

  /** The number of places of a command changes only when it is taken from the queue. A step that
      ends the loop may drop the one command it had in hand, and no other. */
  lemma StepConserves(hub: Hub, known: set<string>, step: HubStep)
    requires HubKeyed(hub) && Disjoint(hub)
    requires step.Taking? ==> step.command.commandId !in hub.pending && Plain(step.command.commandId)
    ensures var after := Next(hub, known, step);
            && HubKeyed(after.hub)
            && (after.result.Success? ==> Conserves(hub, after.hub, known, step, None))
            && (after.result.Failure? ==> exists lost :: Conserves(hub, after.hub, known, step, lost))
  {
    match step
    case Taking(_, _, _) => TakingConserves(hub, known, step);
    case Executing(execution, env) =>
      ExecuteConserves(hub, known, execution, env);
      var after := Execute(hub, known, execution, env).hub;
      if SamePlaces(hub, after) {
        assert Conserves(hub, after, known, step, None);
      } else {
        var id :| InHand(hub, after, id);
        assert Conserves(hub, after, known, step, Some(id));
      }
    case Failing(key, message, env) =>
      FailConserves(hub, key, message, env);
      assert Conserves(hub, Fail(hub, key, message, env).hub, known, step, None);
  }

  /* Whole runs of the select loop. */

  function RunHub(known: set<string>, steps: seq<HubStep>): Outcome {
    if steps == [] then Proceed(Hub(map[], map[], []))
    else
      var before := RunHub(known, steps[..|steps| - 1]);
      if before.result.Failure? then before else Next(before.hub, known, steps[|steps| - 1])
  }

  /** How often a command was taken from the queue by the steps that happened. */
  function TimesTaken(known: set<string>, steps: seq<HubStep>, id: string): nat {
    if steps == [] then 0
    else
      TimesTaken(known, steps[..|steps| - 1], id)
      + if RunHub(known, steps[..|steps| - 1]).result.Success? && Takes(steps[|steps| - 1], known, id) then 1 else 0
  }

  /** What the queue delivers: commands with ids of the right form, none twice. */
  ghost predicate Deliverable(known: set<string>, steps: seq<HubStep>) {
    && (forall id :: TimesTaken(known, steps, id) <= 1)
    && (forall step <- steps :: step.Taking? ==> Plain(step.command.commandId) && step.command.targetAccountId in known)
  }

  ghost predicate Accounted(known: set<string>, steps: seq<HubStep>) {
    var s := RunHub(known, steps);
    HubKeyed(s.hub) && (s.result.Success? ==> forall id :: Places(s.hub, id) == TimesTaken(known, steps, id))
  }

  lemma OnePlaceIsApart(hub: Hub)
    requires forall id :: Places(hub, id) <= 1
    ensures Disjoint(hub)
  {
    forall id | id in hub.pending
      ensures ProtectionId(id) !in hub.protection
    {
      assert Places(hub, id) <= 1;
    }
  }

  lemma DeliverablePrefix(known: set<string>, steps: seq<HubStep>)
    requires Deliverable(known, steps) && steps != []
    ensures Deliverable(known, steps[..|steps| - 1])
  {
    var init := steps[..|steps| - 1];
    forall id: string
      ensures TimesTaken(known, init, id) <= 1
    {
      assert TimesTaken(known, init, id) <= TimesTaken(known, steps, id);
    }
  }

  lemma NothingAccounted(known: set<string>)
    ensures Accounted(known, [])
  {
  }

  lemma {:induction false} AlwaysAccounted(known: set<string>, steps: seq<HubStep>)
    requires Deliverable(known, steps)
    ensures Accounted(known, steps)
  {
    hide Deliverable, Next, Places, TimesTaken;
    if steps == [] {
      NothingAccounted(known);
    } else {
      var init, last := steps[..|steps| - 1], steps[|steps| - 1];
      DeliverablePrefix(known, steps);
      AlwaysAccounted(known, init);
      var before := RunHub(known, init);
      assert init + [last] == steps;
      if before.result.Success? {
        LoopAccounted(known, init, last);
      }
    }
  }

  lemma LoopAccounted(known: set<string>, init: seq<HubStep>, last: HubStep)
    requires Deliverable(known, init + [last]) && Accounted(known, init) && RunHub(known, init).result.Success?
    ensures Accounted(known, init + [last])
    ensures var before, after := RunHub(known, init), RunHub(known, init + [last]);
            forall id :: TimesTaken(known, init + [last], id) - 1 <= Places(after.hub, id) <= TimesTaken(known, init + [last], id)
  {
    hide HubKeyed, Places, Next, Disjoint;
    var steps, before := init + [last], RunHub(known, init);
    assert steps[..|steps| - 1] == init && last in steps;
    assert forall id :: TimesTaken(known, steps, id) == TimesTaken(known, init, id) + if Takes(last, known, id) then 1 else 0;
    forall id: string
      ensures Places(before.hub, id) <= 1
    {
      assert TimesTaken(known, init, id) <= TimesTaken(known, steps, id) <= 1;
    }
    OnePlaceIsApart(before.hub);
    if last.Taking? {
      TakenIsNew(known, init, last);
    }
    assert RunHub(known, steps) == Next(before.hub, known, last);
    StepConserves(before.hub, known, last);
  }

  lemma TakenIsNew(known: set<string>, init: seq<HubStep>, last: HubStep)
    requires Deliverable(known, init + [last]) && RunHub(known, init).result.Success? && last.Taking?
    requires forall id :: Places(RunHub(known, init).hub, id) == TimesTaken(known, init, id)
    ensures last.command.commandId !in RunHub(known, init).hub.pending && Plain(last.command.commandId)
  {
    var steps, id := init + [last], last.command.commandId;
    assert steps[..|steps| - 1] == init && last in steps;
    assert TimesTaken(known, steps, id) == TimesTaken(known, init, id) + 1;
    assert Places(RunHub(known, init).hub, id) == 0;
  }

  /** While the loop runs, every command taken from the queue is in exactly one place: waiting,
      waiting for protection, or acknowledged once; nothing else is in any. */
  lemma TakenIsInOnePlace(known: set<string>, steps: seq<HubStep>, id: string)
    requires Deliverable(known, steps) && RunHub(known, steps).result.Success?
    ensures Places(RunHub(known, steps).hub, id) == TimesTaken(known, steps, id)
    ensures Acks(RunHub(known, steps).hub.acks, id) <= 1
  {
    AlwaysAccounted(known, steps);
  }

  /** Also when an error has ended the loop, no command was acknowledged twice. */
  lemma {:induction false} AckedAtMostOnce(known: set<string>, steps: seq<HubStep>, id: string)
    requires Deliverable(known, steps)
    ensures Acks(RunHub(known, steps).hub.acks, id) <= 1
  {
    if steps != [] {
      var init, last := steps[..|steps| - 1], steps[|steps| - 1];
      DeliverablePrefix(known, steps);
      if RunHub(known, init).result.Failure? {
        AckedAtMostOnce(known, init, id);
      } else {
        AlwaysAccounted(known, init);
        assert init + [last] == steps;
        LoopAccounted(known, init, last);
        assert Places(RunHub(known, steps).hub, id) <= TimesTaken(known, steps, id);
      }
    }
  }

  /** Executions that are not final consume nothing. */
  lemma NonFinalConsumesNothing(hub: Hub, known: set<string>, execution: Execution, env: Env)
    requires execution.kind == 2 || execution.kind == 11
    ensures Execute(hub, known, execution, env).hub == hub
  {
  }

  /** The command waiting under a message id, wherever it waits. */
  function Waiting(hub: Hub, id: string): ExecutionCommand
    requires id in hub.protection || id in hub.pending
  {
    if id in hub.protection then hub.protection[id].command else hub.pending[id]
  }

  /** An execution names the position it filled, else the order, else leaves the command's own. */
  predicate Names(execution: Execution, command: ExecutionCommand, externalId: Option<string>) {
    && (execution.positionId.Some? ==> externalId == execution.positionId)
    && (execution.positionId.None? && execution.orderId.Some? ==> externalId == execution.orderId)
    && (execution.positionId.None? && execution.orderId.None? ==> externalId == command.targetOrderId)
  }

  /** A command taken for one of the hub's accounts is rejected exactly when it cannot be put into
      words and waits exactly when the broker got it. */
  lemma TakingSettles(hub: Hub, request: Result<Request, HubError>, command: ExecutionCommand, env: Env)
    ensures var after := TakeCommand(hub, true, request, command, env);
            && after.hub.protection == hub.protection
            && after.hub.pending == (if request.Success? && env.delivered then hub.pending[command.commandId := command] else hub.pending)
            && |after.hub.acks| == |hub.acks| + (if request.Failure? then 1 else 0) && hub.acks <= after.hub.acks
            && (request.Failure? ==> var ack := after.hub.acks[|hub.acks|];
                  && ack.commandId == command.commandId && ack.accountId == command.targetAccountId
                  && ack.status == Rejected && ack.externalId.None?)
            && (request.Success? ==> (after.result.Success? <==> env.delivered))
  {
  }

  /** What a final execution does with the command waiting under its id. It no longer waits there;
      others wait as before. It is answered at once, or else its protection was asked for, which
      takes an open with stop levels, filled at a position with a number, and a broker that hears;
      or it is lost with an error. */
  lemma ExecutionsSettle(hub: Hub, known: set<string>, execution: Execution, env: Env)
    requires execution.ctid.Some? && execution.kind != 2 && execution.kind != 11
    requires execution.messageId in hub.pending || execution.messageId in hub.protection
    ensures var id, after := execution.messageId, Execute(hub, known, execution, env);
            var protected := id in hub.protection;
            && after.hub.pending == (if protected then hub.pending else hub.pending - {id})
            && (protected ==> after.hub.protection == hub.protection - {id} && |after.hub.acks| == |hub.acks| + 1)
            && (!protected ==>
                  var command := hub.pending[id];
                  var deferred := command.action == Open && (execution.kind == 3 || execution.kind == 4)
                                  && (command.stopLoss.Some? || command.takeProfit.Some?)
                                  && (execution.positionId.Some? || execution.orderId.Some? || command.targetOrderId.Some?);
                  && |after.hub.acks| == |hub.acks| + (if deferred then 0 else 1)
                  && (!deferred ==> after.hub.protection == hub.protection)
                  && (deferred ==> exists positionId ::
                        && Names(execution, command, Some(positionId))
                        && (after.result.Success? <==> command.targetAccountId in known && Decimal.ParseI64(positionId).Some? && env.delivered)
                        && after.hub.protection == if after.result.Failure? then hub.protection
                                                   else hub.protection["p:" + command.commandId := Protected(command, positionId)]))
            && hub.acks <= after.hub.acks
  {
    hide Decimal.ParseI64;
    var id := execution.messageId;
    if id !in hub.protection && ExternalId(execution, hub.pending[id]).Some? {
      var positionId := ExternalId(execution, hub.pending[id]).value;
      assert Names(execution, hub.pending[id], Some(positionId));
    }
  }

  /** What an execution's acknowledgement says. It answers the command that waited under the
      execution's id; rejections and fills are what the broker reported; an open that asked for a
      stop loss or take profit is filled only once its protection order is, under the position id
      its fill reported; a fill that is not passed on as one could not be protected. */
  lemma AnswersTellOutcome(hub: Hub, known: set<string>, execution: Execution, env: Env, ack: ExecutionAck)
    requires Execute(hub, known, execution, env).hub.acks == hub.acks + [ack]
    ensures var id := execution.messageId;
            && (id in hub.protection || id in hub.pending) && execution.kind != 2 && execution.kind != 11
            && ack.timestamp == env.now && (ack.status == Filled && id !in hub.protection ==> ack.message == execution.errorCode)
            && ack.commandId == Waiting(hub, id).commandId && ack.accountId == Waiting(hub, id).targetAccountId
            && (ack.status == Rejected <==> 5 <= execution.kind <= 8)
            && (ack.status == Filled ==> Filling(execution.kind) && (id in hub.protection || !NeedsProtection(hub.pending[id], execution.kind)))
            && (Filling(execution.kind) && ack.status != Filled ==> id !in hub.protection && NeedsProtection(hub.pending[id], execution.kind))
            && (id in hub.protection ==> ack.externalId == Some(hub.protection[id].positionId))
            && (id !in hub.protection ==> Names(execution, hub.pending[id], ack.externalId))
  {
    var after := Execute(hub, known, execution, env).hub.acks;
    assert after[|hub.acks|] == ack && |after| > |hub.acks|;
  }

  /** An error rejects a command the broker has not filled; a filled open whose protection failed
      is never reported as rejected. */
  lemma ErrorsTellOutcome(hub: Hub, id: string, message: string, env: Env, ack: ExecutionAck)
    requires Fail(hub, id, message, env).hub.acks == hub.acks + [ack]
    ensures id in hub.pending || id in hub.protection
    ensures id in hub.pending ==> ack.commandId == hub.pending[id].commandId && ack.status == Rejected && ack.externalId.None?
    ensures id !in hub.pending ==> ack.commandId == hub.protection[id].command.commandId
                                   && ack.status == AckStatus.Unknown && ack.externalId == Some(hub.protection[id].positionId)
  {
    var after := Fail(hub, id, message, env).hub.acks;
    assert after[|hub.acks|] == ack && |after| > |hub.acks|;
  }

  /* What fills are acknowledged with, over whole runs. */

  ghost predicate WasTaken(steps: seq<HubStep>, command: ExecutionCommand) {
    exists step <- steps :: step.Taking? && step.command == command
  }

  ghost predicate WasFilled(steps: seq<HubStep>, command: ExecutionCommand, externalId: Option<string>) {
    exists step <- steps :: step.Executing? && step.execution.messageId == command.commandId && Filling(step.execution.kind)
                            && Names(step.execution, command, externalId)
  }

  /** A fill was reported for a command the queue delivered, under the id the acknowledgement carries. */
  ghost predicate Backed(steps: seq<HubStep>, ack: ExecutionAck) {
    ack.status == Filled ==>
      exists step <- steps :: step.Taking? && step.command.commandId == ack.commandId && step.command.targetAccountId == ack.accountId
                              && WasFilled(steps, step.command, ack.externalId)
  }

  ghost predicate Sourced(steps: seq<HubStep>, hub: Hub) {
    && (forall id <- hub.pending :: WasTaken(steps, hub.pending[id]) && hub.pending[id].commandId == id)
    && (forall id <- hub.protection :: WasTaken(steps, hub.protection[id].command)
                                       && WasFilled(steps, hub.protection[id].command, Some(hub.protection[id].positionId)))
    && (forall ack <- hub.acks :: Backed(steps, ack))
  }

  lemma StaysSourced(steps: seq<HubStep>, step: HubStep, hub: Hub)
    requires Sourced(steps, hub)
    ensures Sourced(steps + [step], hub)
  {
    hide Names;
    var all := steps + [step];
    assert forall s <- steps :: s in all;
    forall command, externalId | WasFilled(steps, command, externalId)
      ensures WasFilled(all, command, externalId)
    {
    }
    forall ack | ack in hub.acks
      ensures Backed(all, ack)
    {
      assert Backed(steps, ack);
    }
  }

  lemma BackedByFill(steps: seq<HubStep>, command: ExecutionCommand, ack: ExecutionAck)
    requires WasTaken(steps, command) && ack.commandId == command.commandId && ack.accountId == command.targetAccountId
    requires ack.status == Filled ==> WasFilled(steps, command, ack.externalId)
    ensures Backed(steps, ack)
  {
    hide WasFilled;
  }

  lemma SourcedAck(steps: seq<HubStep>, hub: Hub, rest: Hub, ack: ExecutionAck, env: Env)
    requires Sourced(steps, hub) && Backed(steps, ack) && rest.acks == hub.acks
    requires rest.pending == hub.pending || exists id :: rest.pending == hub.pending - {id}
    requires rest.protection == hub.protection || exists id :: rest.protection == hub.protection - {id}
    ensures Sourced(steps, Acked(rest, ack, env).hub)
  {
    hide WasTaken, WasFilled, Backed;
  }

  lemma ExecuteSourced(steps: seq<HubStep>, hub: Hub, known: set<string>, execution: Execution, env: Env)
    requires Sourced(steps, hub) && Executing(execution, env) in steps
    ensures Sourced(steps, Execute(hub, known, execution, env).hub)
  {
    hide Sourced, Acked, NeedsProtection, ExternalId;
    var id := execution.messageId;
    if execution.ctid.None? || NonFinal(execution.kind) {
    } else if id in hub.protection {
      var p := hub.protection[id];
      ProtectionSourced(steps, hub, id);
      var ack := AckFor(p.command, StatusOf(execution.kind), Some(p.positionId), env, Some("cTrader position protection finalized"));
      BackedByFill(steps, p.command, ack);
      SourcedAck(steps, hub, WithoutProtection(hub, id), ack, env);
    } else if id in hub.pending {
      var command, externalId := hub.pending[id], ExternalId(execution, hub.pending[id]);
      PendingSourced(steps, hub, id);
      FillSourced(steps, command, execution, env);
      if !NeedsProtection(command, execution.kind) {
        var ack := AckFor(command, StatusOf(execution.kind), externalId, env, execution.errorCode);
        BackedByFill(steps, command, ack);
        SourcedAck(steps, hub, WithoutPending(hub, id), ack, env);
      } else if externalId.None? {
        var ack := AckFor(command, AckStatus.Unknown, None, env, Some("cTrader fill omitted position id"));
        BackedByFill(steps, command, ack);
        SourcedAck(steps, hub, WithoutPending(hub, id), ack, env);
      } else {
        NeededIsFill(command, execution.kind);
        ParkedSourced(steps, hub, id, externalId.value);
      }
    }
  }

  lemma NeededIsFill(command: ExecutionCommand, kind: int)
    requires NeedsProtection(command, kind)
    ensures Filling(kind)
  {
  }

  lemma ProtectionSourced(steps: seq<HubStep>, hub: Hub, id: string)
    requires Sourced(steps, hub) && id in hub.protection
    ensures WasTaken(steps, hub.protection[id].command)
    ensures WasFilled(steps, hub.protection[id].command, Some(hub.protection[id].positionId))
  {
    hide WasTaken, WasFilled, Backed;
  }

  lemma PendingSourced(steps: seq<HubStep>, hub: Hub, id: string)
    requires Sourced(steps, hub) && id in hub.pending
    ensures WasTaken(steps, hub.pending[id]) && hub.pending[id].commandId == id
  {
    hide WasTaken, WasFilled, Backed;
  }

  lemma FillSourced(steps: seq<HubStep>, command: ExecutionCommand, execution: Execution, env: Env)
    requires Executing(execution, env) in steps && execution.messageId == command.commandId
    ensures Filling(execution.kind) ==> WasFilled(steps, command, ExternalId(execution, command))
  {
    assert Names(execution, command, ExternalId(execution, command));
  }

  lemma ParkedSourced(steps: seq<HubStep>, hub: Hub, id: string, positionId: string)
    requires Sourced(steps, hub) && id in hub.pending && WasFilled(steps, hub.pending[id], Some(positionId))
    ensures var rest := WithoutPending(hub, id);
            && Sourced(steps, rest)
            && Sourced(steps, rest.(protection := rest.protection[ProtectionId(hub.pending[id].commandId) := Protected(hub.pending[id], positionId)]))
  {
    hide WasTaken, WasFilled, Backed;
  }

  lemma FailSourced(steps: seq<HubStep>, hub: Hub, id: string, message: string, env: Env)
    requires Sourced(steps, hub)
    ensures Sourced(steps, Fail(hub, id, message, env).hub)
  {
    hide Sourced, Acked;
    if id in hub.pending {
      PendingSourced(steps, hub, id);
      var ack := AckFor(hub.pending[id], Rejected, None, env, Some(message));
      BackedByFill(steps, hub.pending[id], ack);
      SourcedAck(steps, hub, WithoutPending(hub, id), ack, env);
    } else if id in hub.protection {
      var p := hub.protection[id];
      ProtectionSourced(steps, hub, id);
      var ack := AckFor(p.command, AckStatus.Unknown, Some(p.positionId), env, Some("cTrader order filled but SL/TP protection request failed"));
      BackedByFill(steps, p.command, ack);
      SourcedAck(steps, hub, WithoutProtection(hub, id), ack, env);
    }
  }

  lemma TakeSourced(steps: seq<HubStep>, hub: Hub, known: bool, request: Result<Request, HubError>, command: ExecutionCommand, env: Env)
    requires Sourced(steps, hub) && Taking(request, command, env) in steps
    ensures Sourced(steps, TakeCommand(hub, known, request, command, env).hub)
  {
    hide WasFilled, Acked, Explain;
    assert WasTaken(steps, command);
    if known && request.Failure? {
      var ack := AckFor(command, Rejected, None, env, Some(Explain(request.error)));
      BackedByFill(steps, command, ack);
      SourcedAck(steps, hub, hub, ack, env);
    }
  }

  lemma {:induction false} AlwaysSourced(known: set<string>, steps: seq<HubStep>)
    ensures Sourced(steps, RunHub(known, steps).hub)
  {
    hide Sourced, Execute, Fail, TakeCommand;
    if steps == [] {
      NothingSourced();
    } else {
      var init, last := steps[..|steps| - 1], steps[|steps| - 1];
      AlwaysSourced(known, init);
      assert steps == init + [last];
      var hub := RunHub(known, init).hub;
      StaysSourced(init, last, hub);
      match last
      case Taking(request, command, env) => TakeSourced(steps, hub, command.targetAccountId in known, request, command, env);
      case Executing(execution, env) => ExecuteSourced(steps, hub, known, execution, env);
      case Failing(id, message, env) => FailSourced(steps, hub, id, message, env);
    }
  }

  lemma NothingSourced()
    ensures Sourced([], Hub(map[], map[], []))
  {
  }

  /** Every acknowledgement of a fill is of a command the queue delivered, in its account's name, and
      carries the position that a fill execution of that command named, be it protected or not. */
  lemma FillsNamePositions(known: set<string>, steps: seq<HubStep>, ack: ExecutionAck)
    requires ack in RunHub(known, steps).hub.acks && ack.status == Filled
    ensures exists taking <- steps, filling <- steps ::
              && taking.Taking? && taking.command.commandId == ack.commandId && taking.command.targetAccountId == ack.accountId
              && filling.Executing? && filling.execution.messageId == ack.commandId
              && (filling.execution.kind == 3 || filling.execution.kind == 4)
              && Names(filling.execution, taking.command, ack.externalId)
  {
    hide RunHub, Names;
    AlwaysSourced(known, steps);
    assert Backed(steps, ack);
    var taking :| taking in steps && taking.Taking? && taking.command.commandId == ack.commandId && taking.command.targetAccountId == ack.accountId
                  && WasFilled(steps, taking.command, ack.externalId);
    var filling :| filling in steps && filling.Executing? && filling.execution.messageId == ack.commandId && Filling(filling.execution.kind)
                   && Names(filling.execution, taking.command, ack.externalId);
  }

  /** Hexadecimal command ids never look like protection ids. */
  lemma HexIsPlain(digest: string -> seq<Keys.Byte>, eventId: string, routeId: string, target: string)
    ensures Plain(Keys.CommandId(digest, eventId, routeId, target))
  {
    var id := Keys.CommandId(digest, eventId, routeId, target);
    assert id != "" ==> id[0] in Keys.HEX_DIGITS;
    assert 'p' !in Keys.HEX_DIGITS;
  }

  /* Positions. */

  /** A broker's report of one position, decoded as far as it could be. */
  datatype Report = Report(positionId: Option<string>, closed: bool, snapshot: Result<Snapshot, HubError>)

  type Decoded = r: Report | r.positionId.Some? && (r.closed || r.snapshot.Success?)
    witness Report(Some(""), true, Failure(SideOmitted))

  function View(book: Book, id: string): Option<Positions.Quote> {
    if id in book then Some(book[id].Quoted()) else None
  }

  function Observed(book: Book, id: string, report: Report): Book
    requires report.closed || report.snapshot.Success?
  {
    if report.closed then book - {id} else book[id := report.snapshot.value]
  }

  /** A report is remembered as it stands, and says nothing of other positions. */
  lemma ReportsAreRemembered(book: Book, report: Decoded, other: string)
    ensures var id, after := report.positionId.value, Observed(book, report.positionId.value, report);
            && (id in after <==> !report.closed) && (id in after ==> after[id] == report.snapshot.value)
            && (other != id ==> View(after, other) == View(book, other))
  {
  }

  /** What a report gives rise to, if its account publishes. */
  function ChangeOf(book: Book, id: string, report: Report): Option<Positions.Change>
    requires report.closed || report.snapshot.Success?
  {
    Positions.Diff(View(book, id), View(Observed(book, id, report), id))
  }

  function BookAfter(book: Book, reports: seq<Decoded>): Book
  {
    if reports == [] then book
    else
      var last := reports[|reports| - 1];
      Observed(BookAfter(book, reports[..|reports| - 1]), last.positionId.value, last)
  }

  /** The volume reported of one position by changes of one kind. */
  function Published(book: Book, reports: seq<Decoded>, id: string, action: TradeAction): real
  {
    if reports == [] then 0.0
    else
      var init, last := reports[..|reports| - 1], reports[|reports| - 1];
      var change := ChangeOf(BookAfter(book, init), last.positionId.value, last);
      Published(book, init, id, action)
      + if last.positionId.value == id && change.Some? && change.value.action == action then change.value.volume else 0.0
  }

  function Views(book: Book, reports: seq<Decoded>, id: string): (views: Positions.Views)
    ensures |views| == |reports| + 1
  {
    if reports == [] then [View(book, id)]
    else Views(book, reports[..|reports| - 1], id) + [View(BookAfter(book, reports), id)]
  }

  lemma LastView(book: Book, reports: seq<Decoded>, id: string)
    ensures Views(book, reports, id)[|reports|] == View(BookAfter(book, reports), id)
  {
  }

  lemma UnchangedIsSilent(view: Option<Positions.Quote>)
    ensures Positions.Diff(view, view).None?
  {
  }

  lemma {:induction false} PublishedIsReported(book: Book, reports: seq<Decoded>, id: string, action: TradeAction)
    ensures Published(book, reports, id, action) == Positions.Reported(Views(book, reports, id), action)
  {
    hide Positions.Diff;
    if reports != [] {
      var init, last := reports[..|reports| - 1], reports[|reports| - 1];
      PublishedIsReported(book, init, id, action);
      LastView(book, init, id);
      var views := Views(book, reports, id);
      assert views[..|views| - 1] == Views(book, init, id);
      if last.positionId.value != id {
        UnchangedIsSilent(View(BookAfter(book, init), id));
      }
    }
  }

  /** Over any series of reports, about this position or others, what is published of a position
      accounts for its volume, scale-ins apart, to within one epsilon for each report in which it
      stood still. */
  lemma {:induction false} ReportsConserveVolume(book: Book, reports: seq<Decoded>, id: string)
    ensures var views := Views(book, reports, id);
            var balance := Published(book, reports, id, Open) - Published(book, reports, id, Reduce) - Published(book, reports, id, Close);
            Positions.Abs(Positions.Held(views[|reports|]) - Positions.Held(views[0]) - balance - Positions.Growth(views))
            <= Positions.Stills(views) as real * Positions.EPSILON
  {
    hide Positions.Reported, Positions.Growth, Positions.Stills, Published, Views;
    PublishedIsReported(book, reports, id, Open);
    PublishedIsReported(book, reports, id, Reduce);
    PublishedIsReported(book, reports, id, Close);
    Positions.VolumeConserved(Views(book, reports, id));
  }
}
