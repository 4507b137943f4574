/** The hub's select loop, step by step, updating in place (crates/copier-daemon/src/venues/ctrader.rs:173-386).
    Each method is tied to a step of CTrader and to the daemon's handlers. */
module CTraderHub {
  import opened Wrappers
  import opened Model
  import opened Journal
  import opened Handlers
  import opened CTrader
  import Decimal
  import History
  import Keys
  import MetaApi
  import Positions
  import Runs
  import Runtime
  import Safety
  import Wire

  datatype AccountRuntime = AccountRuntime(
    account: string,
    platform: Platform,
    canPublish: bool,
    sessionId: nat,
    symbols: map<string, Symbol>,
    positions: Book)

  /** The daemon after it was handed an acknowledgement, or refused it. */
  function Heard(cfg: Config, s: System, ack: ExecutionAck, now: I64): System
    requires cfg.Usable()
  {
    Runs.After(cfg, s, Runs.Complete(Runs.Frame(ack.accountId, Ack(ack), now, {})))
  }

  function Seen(cfg: Config, s: System, event: TradeEvent, now: I64, accepted: set<string>): System
    requires cfg.Usable()
  {
    Runs.After(cfg, s, Runs.Complete(Runs.Frame(event.sourceAccountId, Event(event), now, accepted)))
  }

  function EventOf(runtime: AccountRuntime, p: Snapshot, change: Positions.Change, now: I64): TradeEvent {
    TradeEvent("ctrader:" + runtime.account + ":" + p.id + ":" + Wire.ShowAction(change.action) + ":" + Decimal.Print(now),
               runtime.account, runtime.platform, change.action, p.id, p.symbol, Some(p.side), change.volume, change.remaining,
               p.price, p.stopLoss, p.takeProfit, now, p.originCommandId)
  }

  /** An event is in the name of the account and in the words of the position, tells the change, and
      its id names position, action and time, whatever characters position ids hold. */
  lemma EventTells(runtime: AccountRuntime, p: Snapshot, change: Positions.Change, now: I64, q: Snapshot, other: Positions.Change, later: I64)
    ensures var event := EventOf(runtime, p, change, now);
            && event.sourceAccountId == runtime.account && event.platform == runtime.platform && event.timestamp == now
            && event.sourceOrderId == p.id && event.symbol == p.symbol && event.side == Some(p.side) && event.price == p.price
            && event.stopLoss == p.stopLoss && event.takeProfit == p.takeProfit && event.originCommandId == p.originCommandId
            && Positions.Change(event.action, event.volume, event.remainingVolume) == change
            && (event.eventId == EventOf(runtime, q, other, later).eventId <==> p.id == q.id && change.action == other.action && now == later)
  {
    var a, b := EventOf(runtime, p, change, now).eventId, EventOf(runtime, q, other, later).eventId;
    if a == b {
      var head := "ctrader:" + runtime.account + ":";
      Decimal.PrintedChars(now);
      Decimal.PrintedChars(later);
      MetaApi.ActionNames(change.action, other.action);
      var pa, qa := head + p.id + ":" + Wire.ShowAction(change.action), head + q.id + ":" + Wire.ShowAction(other.action);
      assert a == pa + [':'] + Decimal.Print(now) && b == qa + [':'] + Decimal.Print(later);
      Keys.SplitAtLast(':', pa, Decimal.Print(now), qa, Decimal.Print(later));
      Keys.SplitAtLast(':', head + p.id, Wire.ShowAction(change.action), head + q.id, Wire.ShowAction(other.action));
      assert (head + p.id)[|head|..] == p.id && (head + q.id)[|head|..] == q.id;
      Decimal.PrintInjective(now, later);
    }
  }

  /* Leaving. */

  ghost predicate NoneDispatched(s: System, account: string) {
    forall id :: !InState(s.ledger, account, Dispatched, id)
  }

  /** No account is run twice. */
  predicate DistinctAccounts(runtimes: map<int, AccountRuntime>) {
    forall a <- runtimes, b <- runtimes :: a != b ==> runtimes[a].account != runtimes[b].account
  }

  /** What closing one session leaves behind. */
  lemma SessionClosed(cfg: Config, s: System, account: string, sessionId: nat, order: seq<ExecutionCommand>, keys: seq<string>)
    requires History.Sound(cfg) && Runs.Ready(cfg, s)
    requires Current(s, account, sessionId) ==> Selects(s.ledger, account, Dispatched, order, keys)
    ensures var after := Exec(cfg.durability, s, DisconnectEffects(s, account, sessionId, order));
            && Runs.Ready(cfg, after)
            && (Current(s, account, sessionId) ==> NoneDispatched(after, account))
            && (forall other :: NoneDispatched(s, other) ==> NoneDispatched(after, other))
            && (forall other, id :: other != account ==> (Current(after, other, id) <==> Current(s, other, id)))
  {
    Runs.InputLegal(cfg, s, Runs.Unregister(account, sessionId, order, keys));
    var after := Exec(cfg.durability, s, DisconnectEffects(s, account, sessionId, order));
    if Current(s, account, sessionId) {
      Safety.UnregisterMeaning(cfg, s, account, sessionId, order, keys);
      ClosedMeaning(s, after, account);
    }
  }

  lemma ClosedMeaning(s: System, after: System, account: string)
    requires after.ledger.commands.Keys == s.ledger.commands.Keys
    requires forall id <- s.ledger.commands :: after.ledger.commands[id] ==
               if InState(s.ledger, account, Dispatched, id)
               then s.ledger.commands[id].(state := StoredCommandState.Unknown) else s.ledger.commands[id]
    ensures NoneDispatched(after, account)
    ensures forall other :: NoneDispatched(s, other) ==> NoneDispatched(after, other)
  {
    forall other, id | NoneDispatched(s, other)
      ensures !InState(after.ledger, other, Dispatched, id)
    {
      assert !InState(s.ledger, other, Dispatched, id);
    }
  }

  lemma NonEmpty(ids: set<int>)
    requires ids != {}
    ensures exists id :: id in ids
  {
    assert (forall id :: id !in ids) ==> ids == {};
  }

  class CTraderHub {
    const app: Runtime.AppState
    var runtimes: map<int, AccountRuntime>
    var pending: map<string, ExecutionCommand>
    var protectionPending: map<string, Protected>
    ghost var acks: seq<ExecutionAck>

    ghost function View(): Hub
      reads this
    {
      Hub(pending, protectionPending, acks)
    }

    ghost function Known(): set<string>
      reads this
    {
      set ctid <- runtimes :: runtimes[ctid].account
    }

    constructor (app: Runtime.AppState, runtimes: map<int, AccountRuntime>)
      ensures this.app == app && this.runtimes == runtimes && View() == Hub(map[], map[], [])
    {
      this.app, this.runtimes := app, runtimes;
      pending, protectionPending, acks := map[], map[], [];
    }

    /** The runtime of a local account; the map yields its entries in any order. */
    method FindRuntime(account: string) returns (ctid: Option<int>)
      ensures ctid.Some? <==> account in Known()
      ensures ctid.Some? ==> ctid.value in runtimes && runtimes[ctid.value].account == account
    {
      if found: int :| found in runtimes && runtimes[found].account == account {
        ctid := Some(found);
      } else {
        ctid := None;
      }
    }

    method HandOver(ack: ExecutionAck, now: I64) returns (r: Result<(), HubError>)
      requires app.Valid()
      modifies this`acks, app, app.journal, app.runtime
      ensures app.Valid() && acks == old(acks) + [ack] && (r == Success(()) || r == Failure(Refused))
      ensures app.View() == Heard(app.cfg, old(app.View()), ack, now)
    {
      acks := acks + [ack];
      var outcome := app.HandleFrame(ack.accountId, Ack(ack), now, {});
      r := if outcome.Failure? then Failure(Refused) else Success(());
    }

    /** At most one acknowledgement was handed to the daemon, and nothing else happened to it. */
    twostate predicate AtMostOneAck(now: I64)
      reads this, app, app.journal, app.runtime
    {
      app.cfg.Usable() &&
      if acks == old(acks) then app.View() == old(app.View())
      else |acks| == |old(acks)| + 1 && app.View() == Heard(app.cfg, old(app.View()), acks[|acks| - 1], now)
    }

    method TakeCommand(command: ExecutionCommand, delivered: bool, now: I64)
      returns (r: Result<(), HubError>, ghost request: Result<Request, HubError>, ghost env: Env)
      requires app.Valid()
      modifies this`pending, this`acks, app, app.journal, app.runtime
      ensures app.Valid() && AtMostOneAck(now) && env.delivered == delivered && env.now == now
      ensures Outcome(View(), r) == CTrader.TakeCommand(old(View()), command.targetAccountId in Known(), request, command, env)
      ensures command.targetAccountId in Known() ==>
                exists ctid :: ctid in runtimes && runtimes[ctid].account == command.targetAccountId
                               && request == CommandMessage(ctid, runtimes[ctid].symbols, runtimes[ctid].positions, command)
    {
      env, request := Env(delivered, false, now), Failure(NoRuntime);
      var ctid := FindRuntime(command.targetAccountId);
      if ctid.None? {
        return Success(()), request, env;
      }
      var message := CommandMessage(ctid.value, runtimes[ctid.value].symbols, runtimes[ctid.value].positions, command);
      request := message;
      if message.Failure? {
        r := HandOver(ExecutionAck(command.commandId, command.targetAccountId, Rejected, None, now, Some(Explain(message.error))), now);
        env := Env(delivered, r.Failure?, now);
        return;
      }
      if !delivered {
        return Failure(SendFailed), request, env;
      }
      pending := pending[command.commandId := command];
      r := Success(());
    }

    method HandleExecution(execution: Execution, delivered: bool, now: I64) returns (r: Result<(), HubError>, ghost env: Env)
      requires app.Valid()
      modifies this`pending, this`protectionPending, this`acks, app, app.journal, app.runtime
      ensures app.Valid() && AtMostOneAck(now) && env.delivered == delivered && env.now == now
      ensures Outcome(View(), r) == Execute(old(View()), Known(), execution, env)
    {
      hide Heard, StatusOf, ExternalId;
      env := Env(delivered, false, now);
      var id := execution.messageId;
      if execution.ctid.None? {
        return Failure(AccountOmitted), env;
      }
      if execution.kind == 2 || execution.kind == 11 {
        return Success(()), env;
      }
      if id in protectionPending {
        var original := protectionPending[id];
        protectionPending := protectionPending - {id};
        r := HandOver(ExecutionAck(original.command.commandId, original.command.targetAccountId, StatusOf(execution.kind),
                                   Some(original.positionId), now, Some("cTrader position protection finalized")), now);
        env := Env(delivered, r.Failure?, now);
      } else if id in pending {
        var command := pending[id];
        pending := pending - {id};
        var externalId := ExternalId(execution, command);
        if command.action == Open && (execution.kind == 3 || execution.kind == 4)
           && (command.stopLoss.Some? || command.takeProfit.Some?) {
          if externalId.None? {
            r := HandOver(ExecutionAck(command.commandId, command.targetAccountId, AckStatus.Unknown, None, now,
                                       Some("cTrader fill omitted position id")), now);
            env := Env(delivered, r.Failure?, now);
            return;
          }
          r := StartProtection(command, externalId.value, delivered, now);
        } else {
          r := HandOver(ExecutionAck(command.commandId, command.targetAccountId, StatusOf(execution.kind), externalId, now,
                                     execution.errorCode), now);
          env := Env(delivered, r.Failure?, now);
        }
      } else {
        r := Success(());
      }
    }

    method StartProtection(command: ExecutionCommand, positionId: string, delivered: bool, now: I64) returns (r: Result<(), HubError>)
      modifies this`protectionPending
      ensures Outcome(View(), r)
           == Protect(old(View()), command.targetAccountId in Known(), command, positionId, Env(delivered, false, now))
    {
      var ctid := FindRuntime(command.targetAccountId);
      if ctid.None? {
        return Failure(NoRuntime);
      }
      if Decimal.ParseI64(positionId).None? {
        return Failure(InvalidPosition(positionId));
      }
      if !delivered {
        return Failure(SendFailed);
      }
      protectionPending := protectionPending["p:" + command.commandId := Protected(command, positionId)];
      r := Success(());
    }

    method HandleError(id: string, message: string, now: I64) returns (r: Result<(), HubError>, ghost env: Env)
      requires app.Valid()
      modifies this`pending, this`protectionPending, this`acks, app, app.journal, app.runtime
      ensures app.Valid() && AtMostOneAck(now) && env.now == now
      ensures Outcome(View(), r) == Fail(old(View()), id, message, env)
    {
      env := Env(true, false, now);
      if id in pending {
        var command := pending[id];
        pending := pending - {id};
        r := HandOver(ExecutionAck(command.commandId, command.targetAccountId, Rejected, None, now, Some(message)), now);
        env := Env(true, r.Failure?, now);
      } else if id in protectionPending {
        var original := protectionPending[id];
        protectionPending := protectionPending - {id};
        r := HandOver(ExecutionAck(original.command.commandId, original.command.targetAccountId, AckStatus.Unknown,
                                   Some(original.positionId), now,
                                   Some("cTrader order filled but SL/TP protection request failed")), now);
        env := Env(true, r.Failure?, now);
      } else {
        r := Success(());
      }
    }

    /** Reports the change of a position, then remembers the position as it is now. */
    method UpdatePosition(ctid: int, report: Report, now: I64, accepted: set<string>)
      returns (r: Result<(), HubError>, ghost published: Option<Positions.Change>)
      requires app.Valid() && ctid in runtimes
      modifies this`runtimes, app, app.journal, app.runtime
      ensures app.Valid()
      ensures r.Failure? ==> app.View() == old(app.View())
      ensures r.Failure? ==> runtimes == old(runtimes) || (report.closed && report.positionId.Some?
                               && runtimes == old(runtimes)[ctid := old(runtimes[ctid]).(positions := old(runtimes[ctid]).positions - {report.positionId.value})])
      ensures r.Success? ==> report.positionId.Some? && (report.closed || report.snapshot.Success?)
      ensures r.Success? ==>
                var id, before := report.positionId.value, old(runtimes[ctid]);
                && runtimes == old(runtimes)[ctid := before.(positions := Observed(before.positions, id, report))]
                && published == (if before.canPublish then ChangeOf(before.positions, id, report) else None)
                && app.View() == if published.None? then old(app.View())
                                 else Seen(app.cfg, old(app.View()), EventOf(before, Described(before.positions, id, report), published.value, now), now, accepted)
    {
      published := None;
      if report.positionId.None? {
        return Failure(PositionIdOmitted), published;
      }
      var id, runtime := report.positionId.value, runtimes[ctid];
      if report.closed {
        runtimes := runtimes[ctid := runtime.(positions := runtime.positions - {id})];
        if id in runtime.positions && runtime.canPublish {
          var closed := runtime.positions[id];
          published := Some(Positions.Change(Close, closed.volumeLots, Some(0.0)));
          r := Publish(runtime, closed, Positions.Change(Close, closed.volumeLots, Some(0.0)), now, accepted);
          return;
        }
        return Success(()), published;
      }
      if report.snapshot.Failure? {
        return Failure(report.snapshot.error), published;
      }
      var current := report.snapshot.value;
      if runtime.canPublish {
        var change := Positions.Diff(CTrader.View(runtime.positions, id), Some(current.Quoted()));
        published := change;
        if change.Some? {
          r := Publish(runtime, current, change.value, now, accepted);
          if r.Failure? {
            return;
          }
        }
      }
      runtimes := runtimes[ctid := runtime.(positions := runtime.positions[id := current])];
      r := Success(());
    }

    method Publish(runtime: AccountRuntime, p: Snapshot, change: Positions.Change, now: I64, accepted: set<string>) returns (r: Result<(), HubError>)
      requires app.Valid()
      modifies app, app.journal, app.runtime
      ensures app.Valid()
      ensures app.View() == if r.Success? then Seen(app.cfg, old(app.View()), EventOf(runtime, p, change, now), now, accepted) else old(app.View())
    {
      var event := EventOf(runtime, p, change, now);
      if event.Validate().Failure? {
        return Failure(BadPosition(p.id));
      }
      var outcome := app.HandleFrame(runtime.account, Event(event), now, accepted);
      r := if outcome.Failure? then Failure(Refused) else Success(());
    }

    /** After the select loop, however it ended: the sessions of all accounts are closed. Where a
        session was still current, none of its account's commands is left dispatched. */
    method Cleanup()
      requires app.Valid() && History.Sound(app.cfg) && Runs.Ready(app.cfg, app.View()) && DistinctAccounts(runtimes)
      modifies app, app.journal, app.runtime
      ensures app.Valid() && Runs.Ready(app.cfg, app.View())
      ensures forall ctid <- runtimes :: Current(old(app.View()), runtimes[ctid].account, runtimes[ctid].sessionId) ==>
                NoneDispatched(app.View(), runtimes[ctid].account)
    {
      ghost var before := app.View();
      var todo := runtimes.Keys;
      while todo != {}
        invariant todo <= runtimes.Keys
        invariant app.Valid() && Runs.Ready(app.cfg, app.View())
        invariant forall ctid <- todo :: Current(before, runtimes[ctid].account, runtimes[ctid].sessionId) ==>
                    Current(app.View(), runtimes[ctid].account, runtimes[ctid].sessionId)
        invariant forall ctid <- runtimes :: ctid !in todo && Current(before, runtimes[ctid].account, runtimes[ctid].sessionId) ==>
                    NoneDispatched(app.View(), runtimes[ctid].account)
      {
        NonEmpty(todo);
        var ctid :| ctid in todo;
        ghost var mid := app.View();
        ghost var order, keys := app.UnregisterSession(runtimes[ctid].account, runtimes[ctid].sessionId);
        SessionClosed(app.cfg, mid, runtimes[ctid].account, runtimes[ctid].sessionId, order, keys);
        todo := todo - {ctid};
      }
    }
  }

  /** The snapshot an event describes. */
  function Described(book: Book, id: string, report: Report): Snapshot
    requires report.closed || report.snapshot.Success?
  {
    if report.closed && id in book then book[id]
    else if report.snapshot.Success? then report.snapshot.value
    else Snapshot("", "", Buy, 0.0, None, None, None, None)
  }
}
