/** What sending at most once needs of the configuration: without a durable journal, or with two
    routes that agree in id and target, one command can be sent twice. */
module Hypotheses {
  import opened Wrappers
  import opened Model
  import opened Routing
  import opened Journal
  import opened Handlers
  import opened History
  import opened Runs
  import Keys
  import Safety

  /** The daemon handles the event when nothing happened before, and plans these commands for it. */
  ghost predicate Copies(cfg: Config, event: TradeEvent, now: I64, planned: seq<ExecutionCommand>)
    requires cfg.Usable()
  {
    && event.Validate().Success? && event.sourceAccountId in cfg.accounts
    && cfg.accounts[event.sourceAccountId].canPublish
    && (event.originCommandId.Some? ==> cfg.accounts[event.sourceAccountId].allowRebroadcast)
    && PlanEvent(cfg, map[], event, now) == Success(planned)
  }

  function Arrival(event: TradeEvent, now: I64, id: string): Input {
    Frame(event.sourceAccountId, Event(event), now, {id})
  }

  /** How often a command id occurs among the commands. */
  function Times(commands: seq<ExecutionCommand>, id: string): nat {
    if commands == [] then 0
    else Times(commands[..|commands| - 1], id) + if commands[|commands| - 1].commandId == id then 1 else 0
  }

  lemma {:induction false} TwiceRepeats(commands: seq<ExecutionCommand>, id: string)
    requires NoRepeats(Ids(commands))
    ensures Times(commands, id) <= 1
    ensures Times(commands, id) == 1 <==> id in Ids(commands)
  {
    if commands != [] {
      NoRepeatsSnoc(commands);
      IdsSnoc(commands);
      TwiceRepeats(commands[..|commands| - 1], id);
    }
  }

  /** The dispatch loop sends each command of a connected account as often as it occurs. */
  lemma {:induction false} LoopSends(cfg: Config, s: System, commands: seq<ExecutionCommand>, account: string, id: string)
    requires s.sessions.Keys == {account} && forall c <- commands :: c.commandId == id ==> c.targetAccountId == account
    ensures var after := Exec(cfg.durability, s, DispatchAll(s.sessions, commands, {id}));
            Times(after.sent, id) == Times(s.sent, id) + Times(commands, id)
    ensures cfg.durability == NoDurability ==> Exec(cfg.durability, s, DispatchAll(s.sessions, commands, {id})).journal == s.journal
  {
    if commands != [] {
      var init, last := commands[..|commands| - 1], commands[|commands| - 1];
      LoopSends(cfg, s, init, account, id);
      var mid := Exec(cfg.durability, s, DispatchAll(s.sessions, init, {id}));
      ExecConcat(cfg.durability, s, DispatchAll(s.sessions, init, {id}), DispatchEffects(s.sessions, last, {id}));
      OneSends(cfg, s.sessions, mid, last, account, id);
    }
  }

  lemma LogMeaning(cfg: Config, s: System, record: JournalRecord)
    ensures var after := Exec(cfg.durability, s, Log(record));
            && after.sent == s.sent && after.sessions == s.sessions
            && (cfg.durability == NoDurability ==> after.journal == s.journal)
  {
    ExecOne(cfg.durability, s, Append(record));
    ExecOne(cfg.durability, Do(cfg.durability, s, Append(record)), Apply(record));
    assert Log(record) == [Append(record)] + [Apply(record)];
    ExecConcat(cfg.durability, s, [Append(record)], [Apply(record)]);
  }

  lemma OneSends(cfg: Config, sessions: map<string, nat>, s: System, command: ExecutionCommand, account: string, id: string)
    requires sessions.Keys == {account} && (command.commandId == id ==> command.targetAccountId == account)
    ensures var after := Exec(cfg.durability, s, DispatchEffects(sessions, command, {id}));
            && Times(after.sent, id) == Times(s.sent, id) + (if command.commandId == id then 1 else 0)
            && (cfg.durability == NoDurability ==> after.journal == s.journal)
  {
    if command.targetAccountId in sessions {
      var first := Log(CommandDispatched(command.commandId));
      LogMeaning(cfg, s, CommandDispatched(command.commandId));
      var taken := Exec(cfg.durability, s, first);
      if command.commandId == id {
        ExecConcat(cfg.durability, s, first, [Push(command)]);
        ExecOne(cfg.durability, taken, Push(command));
        assert (taken.sent + [command])[..|taken.sent|] == taken.sent;
      } else {
        ExecConcat(cfg.durability, s, first, Log(CommandUnknown(command.commandId)));
        LogMeaning(cfg, taken, CommandUnknown(command.commandId));
      }
    }
  }

  /** Connecting the target and then handling the event sends the command as often as it was planned. */
  lemma ArrivalSends(cfg: Config, s: System, event: TradeEvent, now: I64, planned: seq<ExecutionCommand>, account: string, id: string)
    requires cfg.Usable() && Copies(cfg, event, now, planned)
    requires s.ledger == EMPTY && s.sessions == map[]
    requires forall c <- planned :: c.commandId == id ==> c.targetAccountId == account
    ensures var connected := After(cfg, s, Complete(Register(account)));
            var after := After(cfg, connected, Complete(Arrival(event, now, id)));
            && CanMove(cfg, s, Complete(Register(account))) && CanMove(cfg, connected, Complete(Arrival(event, now, id)))
            && Times(after.sent, id) == Times(s.sent, id) + Times(planned, id)
            && (cfg.durability == NoDurability ==> after.journal == s.journal)
  {
    ExecOne(cfg.durability, s, OpenSession(account));
    var connected := After(cfg, s, Complete(Register(account)));
    assert connected == Do(cfg.durability, s, OpenSession(account));
    var record := EventPlanned(event.eventId, planned);
    ExecConcat(cfg.durability, connected, Log(record), DispatchAll(connected.sessions, planned, {id}));
    LogMeaning(cfg, connected, record);
    LoopSends(cfg, Exec(cfg.durability, connected, Log(record)), planned, account, id);
  }

  /* Routes that agree in id and target. */

  type Book = map<string, MirrorBinding>

  /** The `i`-th route makes a command of the event. */
  predicate Makes(digest: Digest, routes: seq<RouteRule>, mirrors: Book, event: TradeEvent, now: I64, i: nat)
    requires i < |routes| && routes[i].Usable()
  {
    var outcome := Build(digest, mirrors, event, routes[i], now);
    outcome.Success? && outcome.value.Some?
  }

  /** Two routes with one id and one target both make a command of the event. */
  ghost predicate Collide(digest: Digest, routes: seq<RouteRule>, mirrors: Book, event: TradeEvent, now: I64, i: nat, j: nat)
    requires forall route <- routes :: route.Usable()
  {
    && i < j < |routes| && routes[i].id == routes[j].id && routes[i].targetAccountId == routes[j].targetAccountId
    && Makes(digest, routes, mirrors, event, now, i) && Makes(digest, routes, mirrors, event, now, j)
  }

  ghost predicate RoutesCollide(digest: Digest, routes: seq<RouteRule>, mirrors: Book, event: TradeEvent, now: I64)
    requires forall route <- routes :: route.Usable()
  {
    exists i: nat, j: nat :: Collide(digest, routes, mirrors, event, now, i, j)
  }

  lemma MadeIsPlanned(digest: Digest, routes: seq<RouteRule>, mirrors: Book, event: TradeEvent, now: I64, i: nat)
    returns (c: ExecutionCommand)
    requires forall route <- routes :: route.Usable()
    requires Plan(digest, routes, mirrors, event, now).Success? && i < |routes| && Makes(digest, routes, mirrors, event, now, i)
    ensures c in Plan(digest, routes, mirrors, event, now).value && Named(digest, event, routes[i], c.commandId)
    decreases |routes|
  {
    PlanOfLast(digest, routes, mirrors, event, now);
    var init := routes[..|routes| - 1];
    if i < |init| {
      c := MadeIsPlanned(digest, init, mirrors, event, now, i);
    } else {
      c := Build(digest, mirrors, event, routes[i], now).value.value;
    }
  }

  lemma PlanOfLast(digest: Digest, routes: seq<RouteRule>, mirrors: Book, event: TradeEvent, now: I64)
    requires routes != [] && forall route <- routes :: route.Usable()
    requires Plan(digest, routes, mirrors, event, now).Success?
    ensures var before := Plan(digest, routes[..|routes| - 1], mirrors, event, now);
            before.Success? && Plan(digest, routes, mirrors, event, now)
                            == Absorb(before.value, Build(digest, mirrors, event, routes[|routes| - 1], now))
  {
    hide Build, RouteRule.Usable;
  }

  /** A plan in which an id repeats comes from routes that collide. */
  lemma {:induction false} RepeatedIdsCollide(digest: Digest, routes: seq<RouteRule>, mirrors: Book, event: TradeEvent, now: I64)
    requires (forall route <- routes :: route.Usable()) && Keys.CollisionFree(digest) && NulFree(routes)
    requires Plan(digest, routes, mirrors, event, now).Success? && !RoutesCollide(digest, routes, mirrors, event, now)
    ensures NoRepeats(Ids(Plan(digest, routes, mirrors, event, now).value))
  {
    hide Build, RouteRule.Usable, Keys.CollisionFree;
    if routes != [] {
      var init, last := routes[..|routes| - 1], routes[|routes| - 1];
      PlanOfLast(digest, routes, mirrors, event, now);
      NoneCollideBefore(digest, routes, mirrors, event, now);
      RepeatedIdsCollide(digest, init, mirrors, event, now);
      var outcome := Build(digest, mirrors, event, last, now);
      if outcome.Success? && outcome.value.Some? {
        NewIdAmong(digest, routes, mirrors, event, now, outcome.value.value);
      }
    }
  }

  lemma NoneCollideBefore(digest: Digest, routes: seq<RouteRule>, mirrors: Book, event: TradeEvent, now: I64)
    requires routes != [] && (forall route <- routes :: route.Usable()) && !RoutesCollide(digest, routes, mirrors, event, now)
    ensures !RoutesCollide(digest, routes[..|routes| - 1], mirrors, event, now)
  {
    hide Build, RouteRule.Usable;
    var init := routes[..|routes| - 1];
    forall i: nat, j: nat
      ensures !Collide(digest, init, mirrors, event, now, i, j)
    {
      assert !Collide(digest, routes, mirrors, event, now, i, j);
    }
  }

  /** The command of the last route differs from those before if no route collides with it. */
  lemma NewIdAmong(digest: Digest, routes: seq<RouteRule>, mirrors: Book, event: TradeEvent, now: I64, c: ExecutionCommand)
    requires routes != [] && (forall route <- routes :: route.Usable()) && Keys.CollisionFree(digest) && NulFree(routes)
    requires Plan(digest, routes[..|routes| - 1], mirrors, event, now).Success? && !RoutesCollide(digest, routes, mirrors, event, now)
    requires Made(digest, mirrors, event, now, routes[|routes| - 1], c)
    requires NoRepeats(Ids(Plan(digest, routes[..|routes| - 1], mirrors, event, now).value))
    ensures NoRepeats(Ids(Plan(digest, routes[..|routes| - 1], mirrors, event, now).value + [c]))
  {
    hide Build, RouteRule.Usable;
    var init, n := routes[..|routes| - 1], |routes| - 1;
    var before := Plan(digest, init, mirrors, event, now).value;
    MadeId(digest, mirrors, event, now, routes[n], c);
    assert Ids(before + [c]) == Ids(before) + [c.commandId];
    forall k | 0 <= k < |before|
      ensures Ids(before)[k] != c.commandId
    {
      var i := MakerOf(digest, init, mirrors, event, now, before[k]);
      assert !Collide(digest, routes, mirrors, event, now, i, n);
      assert routes[i] == init[i] && routes[i] in routes && routes[n] in routes;
      Keys.CommandIdInjective(digest, event.eventId, routes[i].id, routes[i].targetAccountId,
                              event.eventId, routes[n].id, routes[n].targetAccountId);
    }
  }

  lemma MakerOf(digest: Digest, routes: seq<RouteRule>, mirrors: Book, event: TradeEvent, now: I64, c: ExecutionCommand)
    returns (i: nat)
    requires forall route <- routes :: route.Usable()
    requires Plan(digest, routes, mirrors, event, now).Success? && c in Plan(digest, routes, mirrors, event, now).value
    ensures i < |routes| && Makes(digest, routes, mirrors, event, now, i) && Named(digest, event, routes[i], c.commandId)
  {
    PlanMakes(digest, routes, mirrors, event, now);
    var route :| route in routes && Made(digest, mirrors, event, now, route, c);
    MadeId(digest, mirrors, event, now, route, c);
    i :| 0 <= i < |routes| && routes[i] == route;
  }

  /** Routes that collide put one id into the plan twice. */
  lemma {:induction false} CollidingRepeat(digest: Digest, routes: seq<RouteRule>, mirrors: Book, event: TradeEvent, now: I64, i: nat, j: nat)
    requires (forall route <- routes :: route.Usable()) && Plan(digest, routes, mirrors, event, now).Success?
    requires Collide(digest, routes, mirrors, event, now, i, j)
    ensures !NoRepeats(Ids(Plan(digest, routes, mirrors, event, now).value))
  {
    hide Build, RouteRule.Usable;
    PlanOfLast(digest, routes, mirrors, event, now);
    var init := routes[..|routes| - 1];
    var before, all := Plan(digest, init, mirrors, event, now).value, Plan(digest, routes, mirrors, event, now).value;
    assert before <= all && Ids(all)[..|before|] == Ids(before);
    if j < |init| {
      assert Collide(digest, init, mirrors, event, now, i, j);
      CollidingRepeat(digest, init, mirrors, event, now, i, j);
      assert forall k :: 0 <= k < |before| ==> Ids(all)[k] == Ids(before)[k];
    } else {
      var c := MadeIsPlanned(digest, init, mirrors, event, now, i);
      var k :| 0 <= k < |before| && before[k] == c;
      MadeId(digest, mirrors, event, now, routes[j], all[|before|]);
      assert Ids(all)[k] == Ids(all)[|before|];
    }
  }

  /** Whatever the book, the ids of a plan repeat exactly when two routes with one id and one target
      both make a command of the event. */
  lemma PlanRepeatsIffRoutesCollide(cfg: Config, mirrors: Book, event: TradeEvent, now: I64)
    requires cfg.Usable() && Keys.CollisionFree(cfg.digest) && NulFree(cfg.routes) && PlanEvent(cfg, mirrors, event, now).Success?
    ensures !NoRepeats(Ids(PlanEvent(cfg, mirrors, event, now).value))
       <==> RoutesCollide(cfg.digest, ForSource(cfg.routes, event.sourceAccountId), mirrors, event, now)
  {
    var routes := ForSource(cfg.routes, event.sourceAccountId);
    if RoutesCollide(cfg.digest, routes, mirrors, event, now) {
      var i: nat, j: nat :| Collide(cfg.digest, routes, mirrors, event, now, i, j);
      CollidingRepeat(cfg.digest, routes, mirrors, event, now, i, j);
    } else {
      RepeatedIdsCollide(cfg.digest, routes, mirrors, event, now);
    }
  }

  /* What one handler sends. */

  lemma {:induction false} RepeatedTwice(commands: seq<ExecutionCommand>) returns (id: string)
    requires !NoRepeats(Ids(commands))
    ensures Times(commands, id) >= 2
  {
    var init, last := commands[..|commands| - 1], commands[|commands| - 1];
    IdsSnoc(commands);
    if !NoRepeats(Ids(init)) {
      id := RepeatedTwice(init);
    } else {
      id := last.commandId;
      TwiceRepeats(init, id);
    }
  }

  lemma {:induction false} RareIsOnce(commands: seq<ExecutionCommand>)
    requires forall id :: Times(commands, id) <= 1
    ensures NoRepeats(Ids(commands))
  {
    if !NoRepeats(Ids(commands)) {
      var id := RepeatedTwice(commands);
    }
  }

  /** The dispatch loop sends no id more often than it occurs. */
  lemma {:induction false} LoopSendsAtMost(cfg: Config, s: System, commands: seq<ExecutionCommand>, sessions: map<string, nat>, accepted: set<string>, id: string)
    ensures Times(Exec(cfg.durability, s, DispatchAll(sessions, commands, accepted)).sent, id) <= Times(s.sent, id) + Times(commands, id)
  {
    if commands != [] {
      var init, last := commands[..|commands| - 1], commands[|commands| - 1];
      LoopSendsAtMost(cfg, s, init, sessions, accepted, id);
      var mid := Exec(cfg.durability, s, DispatchAll(sessions, init, accepted));
      ExecConcat(cfg.durability, s, DispatchAll(sessions, init, accepted), DispatchEffects(sessions, last, accepted));
      OneSendsAtMost(cfg, sessions, mid, last, accepted, id);
    }
  }

  lemma OneSendsAtMost(cfg: Config, sessions: map<string, nat>, s: System, command: ExecutionCommand, accepted: set<string>, id: string)
    ensures Times(Exec(cfg.durability, s, DispatchEffects(sessions, command, accepted)).sent, id)
         <= Times(s.sent, id) + if command.commandId == id then 1 else 0
  {
    if command.targetAccountId in sessions {
      var first := Log(CommandDispatched(command.commandId));
      LogMeaning(cfg, s, CommandDispatched(command.commandId));
      var taken := Exec(cfg.durability, s, first);
      if command.commandId in accepted {
        ExecConcat(cfg.durability, s, first, [Push(command)]);
        ExecOne(cfg.durability, taken, Push(command));
        assert (taken.sent + [command])[..|taken.sent|] == taken.sent;
      } else {
        ExecConcat(cfg.durability, s, first, Log(CommandUnknown(command.commandId)));
        LogMeaning(cfg, taken, CommandUnknown(command.commandId));
      }
    }
  }

  /** A daemon whose account has connected and that then handles one event. */
  function FirstEvent(account: string, event: TradeEvent, now: I64, accepted: set<string>): seq<Move> {
    [Complete(Register(account)), Complete(Frame(event.sourceAccountId, Event(event), now, accepted))]
  }

  lemma FirstEventMeaning(cfg: Config, event: TradeEvent, now: I64, planned: seq<ExecutionCommand>, account: string, accepted: set<string>)
    requires cfg.Usable() && Copies(cfg, event, now, planned)
    ensures CanRun(cfg, FirstEvent(account, event, now, accepted))
    ensures forall id :: Times(Run(cfg, FirstEvent(account, event, now, accepted)).sent, id) <= Times(planned, id)
  {
    hide PlanEvent, RouteRule.Usable, DispatchAll;
    var a, b := FirstEvent(account, event, now, accepted)[0], FirstEvent(account, event, now, accepted)[1];
    RunTwo(cfg, a, b);
    ExecOne(cfg.durability, START, OpenSession(account));
    var connected := After(cfg, START, a);
    assert connected == Do(cfg.durability, START, OpenSession(account));
    var record := EventPlanned(event.eventId, planned);
    LogMeaning(cfg, connected, record);
    var logged := Exec(cfg.durability, connected, Log(record));
    ExecConcat(cfg.durability, connected, Log(record), DispatchAll(connected.sessions, planned, accepted));
    forall id: string
      ensures Times(Run(cfg, [a, b]).sent, id) <= Times(planned, id)
    {
      LoopSendsAtMost(cfg, logged, planned, connected.sessions, accepted, id);
    }
  }

  /** Handling an event that is copied can send one id twice, to some account, exactly when two routes
      with one id and one target both copy it. */
  lemma HandlerSendsTwiceIffRoutesCollide(cfg: Config, event: TradeEvent, now: I64, planned: seq<ExecutionCommand>)
    requires cfg.Usable() && Keys.CollisionFree(cfg.digest) && NulFree(cfg.routes) && Copies(cfg, event, now, planned)
    ensures (exists account, accepted :: !NoRepeats(Ids(Run(cfg, FirstEvent(account, event, now, accepted)).sent)))
       <==> RoutesCollide(cfg.digest, ForSource(cfg.routes, event.sourceAccountId), map[], event, now)
  {
    hide Run, RoutesCollide, Keys.CollisionFree;
    PlanRepeatsIffRoutesCollide(cfg, map[], event, now);
    if NoRepeats(Ids(planned)) {
      forall account, accepted
        ensures NoRepeats(Ids(Run(cfg, FirstEvent(account, event, now, accepted)).sent))
      {
        FirstEventMeaning(cfg, event, now, planned, account, accepted);
        forall id: string {
          TwiceRepeats(planned, id);
        }
        RareIsOnce(Run(cfg, FirstEvent(account, event, now, accepted)).sent);
      }
    } else {
      var account, id := DuplicateRoutesSendTwice(cfg, event, now, planned);
    }
  }

  /** A plan in which an id repeats makes one handler send it twice. */
  lemma DuplicateRoutesSendTwice(cfg: Config, event: TradeEvent, now: I64, planned: seq<ExecutionCommand>)
    returns (account: string, id: string)
    requires cfg.Usable() && Keys.CollisionFree(cfg.digest) && NulFree(cfg.routes) && Copies(cfg, event, now, planned)
    requires !NoRepeats(Ids(planned))
    ensures CanRun(cfg, FirstEvent(account, event, now, {id}))
    ensures !NoRepeats(Ids(Run(cfg, FirstEvent(account, event, now, {id})).sent))
  {
    id := RepeatedTwice(planned);
    account := TargetOf(cfg, event, now, planned, id);
    ArrivalSends(cfg, START, event, now, planned, account, id);
    RunTwo(cfg, Complete(Register(account)), Complete(Arrival(event, now, id)));
    if NoRepeats(Ids(Run(cfg, FirstEvent(account, event, now, {id})).sent)) {
      TwiceRepeats(Run(cfg, FirstEvent(account, event, now, {id})).sent, id);
    }
  }

  /** Commands of one id go to one account. */
  lemma TargetOf(cfg: Config, event: TradeEvent, now: I64, planned: seq<ExecutionCommand>, id: string) returns (account: string)
    requires cfg.Usable() && Keys.CollisionFree(cfg.digest) && NulFree(cfg.routes)
    requires PlanEvent(cfg, map[], event, now) == Success(planned)
    ensures forall c <- planned :: c.commandId == id ==> c.targetAccountId == account
  {
    if c :| c in planned && c.commandId == id {
      account := c.targetAccountId;
      var route := RouteOf(cfg, event, now, planned, c);
      forall d | d in planned && d.commandId == id
        ensures d.targetAccountId == account
      {
        IdNamesTarget(cfg, event, now, planned, route, d);
      }
    } else {
      account := "";
    }
  }

  lemma RouteOf(cfg: Config, event: TradeEvent, now: I64, planned: seq<ExecutionCommand>, c: ExecutionCommand) returns (route: RouteRule)
    requires cfg.Usable() && PlanEvent(cfg, map[], event, now) == Success(planned) && c in planned
    ensures route in cfg.routes && route.targetAccountId == c.targetAccountId && Named(cfg.digest, event, route, c.commandId)
  {
    PlanMakes(cfg.digest, ForSource(cfg.routes, event.sourceAccountId), map[], event, now);
    route :| route in ForSource(cfg.routes, event.sourceAccountId) && Made(cfg.digest, map[], event, now, route, c);
    MadeId(cfg.digest, map[], event, now, route, c);
  }

  lemma IdNamesTarget(cfg: Config, event: TradeEvent, now: I64, planned: seq<ExecutionCommand>, route: RouteRule, c: ExecutionCommand)
    requires cfg.Usable() && Keys.CollisionFree(cfg.digest) && NulFree(cfg.routes) && route in cfg.routes
    requires PlanEvent(cfg, map[], event, now) == Success(planned) && c in planned
    requires Named(cfg.digest, event, route, c.commandId)
    ensures c.targetAccountId == route.targetAccountId
  {
    PlanMakes(cfg.digest, ForSource(cfg.routes, event.sourceAccountId), map[], event, now);
    var other :| other in ForSource(cfg.routes, event.sourceAccountId) && Made(cfg.digest, map[], event, now, other, c);
    MadeId(cfg.digest, map[], event, now, other, c);
    Keys.CommandIdInjective(cfg.digest, event.eventId, route.id, route.targetAccountId, event.eventId, other.id, other.targetAccountId);
  }

  lemma RunTwo(cfg: Config, a: Move, b: Move)
    requires cfg.Usable()
    ensures Run(cfg, [a, b]) == After(cfg, After(cfg, START, a), b)
    ensures CanMove(cfg, START, a) && CanMove(cfg, After(cfg, START, a), b) ==> CanRun(cfg, [a, b])
  {
    assert [a, b][..1] == [a] && [a][..0] == [];
    assert Run(cfg, []) == START && CanRun(cfg, []);
    assert Run(cfg, [a]) == After(cfg, START, a);
    assert CanMove(cfg, START, a) ==> CanRun(cfg, [a]);
  }

  lemma RunMore(cfg: Config, moves: seq<Move>, a: Move)
    requires cfg.Usable()
    ensures Run(cfg, moves + [a]) == After(cfg, Run(cfg, moves), a)
    ensures CanRun(cfg, moves) && CanMove(cfg, Run(cfg, moves), a) ==> CanRun(cfg, moves + [a])
  {
    assert (moves + [a])[..|moves|] == moves;
  }

  /** Without a durable journal a restart forgets that the event was seen: delivered again, it
      is planned and sent again. */
  lemma ForgettingSendsTwice(cfg: Config, event: TradeEvent, now: I64, planned: seq<ExecutionCommand>) returns (moves: seq<Move>)
    requires cfg.Usable() && cfg.durability == NoDurability && Copies(cfg, event, now, planned)
    requires planned != [] && NoRepeats(Ids(planned))
    ensures CanRun(cfg, moves) && !NoRepeats(Ids(Run(cfg, moves).sent))
  {
    var account, id := planned[0].targetAccountId, planned[0].commandId;
    assert forall c <- planned :: c.commandId == id ==> c == planned[0] by {
      forall i | 0 < i < |planned|
        ensures planned[i].commandId != id
      {
        assert Ids(planned)[i] != Ids(planned)[0];
      }
    }
    TwiceRepeats(planned, id);
    assert Ids(planned)[0] == id;
    var a, b, c := Complete(Register(account)), Complete(Arrival(event, now, id)), CrashDuring(Register(account), 0);
    ArrivalSends(cfg, START, event, now, planned, account, id);
    RunTwo(cfg, a, b);
    var first := [a, b];
    RunMore(cfg, first, c);
    var second := first + [c];
    RestartForgets(cfg, Run(cfg, first), account);
    ArrivalSends(cfg, Run(cfg, second), event, now, planned, account, id);
    RunMore(cfg, second, a);
    RunMore(cfg, second + [a], b);
    moves := second + [a] + [b];
    if NoRepeats(Ids(Run(cfg, moves).sent)) {
      TwiceRepeats(Run(cfg, moves).sent, id);
    }
  }

  lemma RestartForgets(cfg: Config, s: System, account: string)
    requires cfg.Usable() && s.journal == []
    ensures var crash := CrashDuring(Register(account), 0);
            CanMove(cfg, s, crash) && After(cfg, s, crash) == START.(sent := s.sent)
  {
    assert Effects(cfg, s, Register(account))[..0] == [];
    assert Exec(cfg.durability, s, []) == s;
    assert Finalize(EMPTY).commands == EMPTY.commands;
  }

  /** Sending at most once is exactly what a durable journal buys: for a configuration that is
      otherwise sound and copies at least one event, it holds of every run if and only if
      durability is not off. */
  lemma DurabilityDecides(cfg: Config, event: TradeEvent, now: I64, planned: seq<ExecutionCommand>)
    requires Sound(cfg.(durability := Fsync)) && Copies(cfg, event, now, planned) && planned != []
    ensures (forall moves | CanRun(cfg, moves) :: NoRepeats(Ids(Run(cfg, moves).sent))) <==> cfg.durability != NoDurability
  {
    if cfg.durability != NoDurability {
      forall moves | CanRun(cfg, moves)
        ensures NoRepeats(Ids(Run(cfg, moves).sent))
      {
        Safety.SentAtMostOnce(cfg, moves);
      }
    } else {
      ForSourceDistinct(cfg.routes, event.sourceAccountId);
      PlanIdsDistinct(cfg.digest, ForSource(cfg.routes, event.sourceAccountId), map[], event, now);
      var moves := ForgettingSendsTwice(cfg, event, now, planned);
    }
  }
}
