/** What each planned command says (crates/copier-core/src/routing.rs, crates/copier-daemon/src/runtime.rs),
    told by the source's event, the route and the fills booked before, and which routes get none. */
module Commands {
  import opened Wrappers
  import opened Model
  import opened Rounding
  import opened Routing
  import opened Journal
  import opened Handlers
  import opened History
  import opened MirrorBook

  /** Rounding to any step errs by at most half a step and half a tick. */
  function Tolerance(route: RouteRule): real {
    route.volumeStep / 2.0 + 0.000_000_005
  }

  /** The event is no older than the route allows. */
  predicate InTime(route: RouteRule, event: TradeEvent, now: I64) {
    var limit := route.maxEventAgeMs * 1_000_000;
    limit == 0 || limit >= I64_MAX || now - event.timestamp <= limit
  }

  predicate Admits(route: RouteRule, event: TradeEvent, now: I64) {
    route.sourceAccountId == event.sourceAccountId && Copyable(route, event.symbol, event.side) && InTime(route, event, now)
  }

  /** The command passes the event on to the route's target: its position, action, price and source
      volumes unchanged, its symbol renamed, its side turned round by a reversing route and by no
      other, its stop levels where the route copies them. */
  predicate Relays(event: TradeEvent, route: RouteRule, now: I64, c: ExecutionCommand) {
    && c.originEventId == event.eventId && c.routeId == route.id
    && c.sourceAccountId == event.sourceAccountId && c.sourceOrderId == event.sourceOrderId
    && c.targetAccountId == route.targetAccountId
    && c.action == event.action && c.price == event.price && c.created == now
    && c.sourceVolume == event.volume && c.sourceRemainingVolume == event.remainingVolume
    && (event.symbol in route.symbolMap ==> c.symbol == route.symbolMap[event.symbol])
    && (event.symbol !in route.symbolMap ==> c.symbol == route.symbolPrefix + event.symbol + route.symbolSuffix)
    && (c.side.Some? <==> event.side.Some?)
    && (event.side.Some? ==> (c.side != event.side <==> route.reverse))
    && (route.copySlTp ==> c.stopLoss == event.stopLoss && c.takeProfit == event.takeProfit)
    && (!route.copySlTp ==> c.stopLoss.None? && c.takeProfit.None?)
  }

  /** The last fill that opened the position, if none closed it since. */
  predicate IsOpen(fills: seq<Fill>, key: string) {
    LastFill(fills, key, Open) > LastFill(fills, key, Close)
  }

  function Opening(fills: seq<Fill>, key: string): Fill
    requires IsOpen(fills, key)
  {
    fills[LastFill(fills, key, Open)]
  }

  /** What the follower still holds of the position. */
  function Left(fills: seq<Fill>, key: string): real
    requires IsOpen(fills, key)
  {
    Max(Opening(fills, key).command.volume - ReducedSince(fills, key, LastFill(fills, key, Open)), 0.0)
  }

  /** The follower's part of a reduce of the source by `volume`. */
  function Share(open: ExecutionCommand, volume: real): real
    requires open.sourceVolume != 0.0
  {
    volume / open.sourceVolume * open.volume
  }

  /** Whether `volume` is one to ask for: for an open, the rounded request of the rule; for a reduce,
      the rounded share, no more than what is left; for anything else, all that is left. */
  ghost predicate Fits(fills: seq<Fill>, route: RouteRule, event: TradeEvent, key: string, volume: real)
    requires route.Usable()
  {
    match event.action
    case Open => Honours(route, event.volume, volume, Tolerance(route))
    case Reduce =>
      && IsOpen(fills, key) && Opening(fills, key).command.sourceVolume > 0.0
      && Within(volume, Min(Share(Opening(fills, key).command, event.volume), Left(fills, key)), Tolerance(route))
    case _ => IsOpen(fills, key) && volume == Left(fills, key)
  }

  /** An open names no order, anything else that of the fill which opened the position. */
  ghost predicate Addresses(fills: seq<Fill>, event: TradeEvent, key: string, c: ExecutionCommand) {
    if event.action == Open then c.targetOrderId.None?
    else IsOpen(fills, key) && c.targetOrderId == Opening(fills, key).ack.externalId
  }

  function KeyOf(event: TradeEvent, route: RouteRule): string {
    MirrorKey(event.sourceAccountId, event.sourceOrderId, route.targetAccountId)
  }

  ghost predicate Copies(fills: seq<Fill>, event: TradeEvent, route: RouteRule, now: I64, c: ExecutionCommand)
    requires route.Usable()
  {
    && Admits(route, event, now) && Relays(event, route, now, c)
    && Addresses(fills, event, KeyOf(event, route), c)
    && Fits(fills, route, event, KeyOf(event, route), c.volume)
    && (event.action == Open || event.action == Reduce ==> c.volume > 0.0)
  }

  /** An admitted event leads to no command only if the follower has no such position, or an open or
      reduce rounds to nothing. */
  ghost predicate NothingToDo(fills: seq<Fill>, event: TradeEvent, route: RouteRule)
    requires route.Usable()
  {
    var key := KeyOf(event, route);
    || (event.action != Open && !IsOpen(fills, key))
    || ((event.action == Open || event.action == Reduce) && exists volume: real :: volume <= 0.0 && Fits(fills, route, event, key, volume))
  }

  /** The commands are copies of the event, and every route that admits it has one or had nothing to do. */
  ghost predicate CopyOf(cfg: Config, fills: seq<Fill>, event: TradeEvent, now: I64, commands: seq<ExecutionCommand>)
    requires cfg.Usable()
  {
    && (forall c <- commands :: exists route <- cfg.routes :: Copies(fills, event, route, now, c))
    && (forall route <- cfg.routes :: Admits(route, event, now) ==>
          NothingToDo(fills, event, route) || exists c <- commands :: Copies(fills, event, route, now, c))
  }

  /* One route. */

  /** A book that is the history of `fills`. */
  ghost predicate Historical(fills: seq<Fill>, mirrors: map<string, MirrorBinding>) {
    && (forall key :: BookSays(fills, mirrors, key))
    && (forall key <- mirrors :: mirrors[key].sourceOpenVolume > 0.0 && mirrors[key].targetOpenVolume > 0.0)
  }

  lemma AdmitsIff(route: RouteRule, event: TradeEvent, now: I64)
    requires route.sourceAccountId == event.sourceAccountId
    ensures Admits(route, event, now) <==> route.Allows(event) && !route.TooOld(event, now)
  {
    hide RouteRule.Allows, Copyable, RouteRule.TooOld;
    AllowsIffCopyable(route, event);
    TooOldIff(route, event, now);
  }

  lemma BuiltRelays(digest: Digest, event: TradeEvent, route: RouteRule, mirror: Option<MirrorBinding>, now: I64)
    requires route.Usable()
    ensures match BuildCommand(digest, event, route, mirror, now)
            case Success(Some(c)) => Relays(event, route, now, c) && c.Key() == KeyOf(event, route)
            case _ => true
  {
    hide RouteRule.Allows, RouteRule.TooOld, TargetAndVolume;
  }

  lemma ShareIsProportional(open: ExecutionCommand, binding: MirrorBinding, volume: real)
    requires binding.sourceOpenVolume == open.sourceVolume > 0.0 && binding.targetOpenVolume == open.volume >= 0.0
    ensures ProportionalReduce(volume, binding) == Share(open, volume)
    ensures volume >= 0.0 ==> Share(open, volume) >= 0.0
  {
    var q := volume / open.sourceVolume;
    assert Ratio(volume, open.sourceVolume) == q;
    assert open.volume * q == q * open.volume;
    if volume >= 0.0 {
      RatioLeq(0.0, volume, open.sourceVolume);
      ScaleLeq(0.0, q, open.volume);
    }
  }

  lemma TargetFits(fills: seq<Fill>, mirrors: map<string, MirrorBinding>, event: TradeEvent, route: RouteRule)
    requires route.Usable() && Historical(fills, mirrors) && event.Validate().Success?
    ensures var key := KeyOf(event, route);
            match TargetAndVolume(event, route, Lookup(mirrors, key))
            case Success((order, volume)) =>
              && Fits(fills, route, event, key, volume)
              && (if event.action == Open then order.None? else IsOpen(fills, key) && order == Opening(fills, key).ack.externalId)
            case Failure(error) => error.MissingMirror? && event.action != Open && !IsOpen(fills, key)
  {
    var key := KeyOf(event, route);
    hide RouteRule.Usable, LastFill, ReducedSince, SourceLeft, MirrorKey, Honours, ProportionalReduce, NormalizeStep, Within;
    assert BookSays(fills, mirrors, key);
    if event.action == Open {
      OpenSizingAnyStep(route, event.volume);
    } else if event.action == Reduce && key in mirrors {
      var binding := mirrors[key];
      var open := Opening(fills, key).command;
      ShareIsProportional(open, binding, event.volume);
      var capped := Min(ProportionalReduce(event.volume, binding), binding.targetRemainingVolume);
      PositiveStep(route);
      NormalizeNearAnyStep(capped, route.volumeStep);
    }
  }

  /** What the planner makes of an event for one route of its source. */
  lemma BuiltCopies(digest: Digest, fills: seq<Fill>, mirrors: map<string, MirrorBinding>, event: TradeEvent, route: RouteRule, now: I64)
    requires route.Usable() && Historical(fills, mirrors) && event.Validate().Success?
    requires route.sourceAccountId == event.sourceAccountId
    ensures match Build(digest, mirrors, event, route, now)
            case Success(Some(c)) => Copies(fills, event, route, now, c)
            case _ => Admits(route, event, now) ==> NothingToDo(fills, event, route)
  {
    hide RouteRule.Usable, Relays, Admits, Fits, IsOpen, KeyOf, RouteRule.Allows, RouteRule.TooOld;
    var key := KeyOf(event, route);
    AdmitsIff(route, event, now);
    BuiltRelays(digest, event, route, Lookup(mirrors, key), now);
    TargetFits(fills, mirrors, event, route);
    KeyOfEvent(event, route);
    hide TargetAndVolume;
  }

  lemma KeyOfEvent(event: TradeEvent, route: RouteRule)
    ensures KeyOf(event, route) == MirrorKey(event.sourceAccountId, event.sourceOrderId, route.targetAccountId)
  {
  }

  /* Plans. */

  /** What a route makes of the event is in the plan. */
  lemma {:induction false} MadeIsPlanned(digest: Digest, routes: seq<RouteRule>, mirrors: map<string, MirrorBinding>, event: TradeEvent, now: I64,
                                         route: RouteRule, c: ExecutionCommand)
    requires forall route <- routes :: route.Usable()
    requires Plan(digest, routes, mirrors, event, now).Success?
    requires route in routes && Made(digest, mirrors, event, now, route, c)
    ensures c in Plan(digest, routes, mirrors, event, now).value
  {
    hide Build, RouteRule.Usable;
    var init, last := routes[..|routes| - 1], routes[|routes| - 1];
    if last != route {
      MadeIsPlanned(digest, init, mirrors, event, now, route, c);
    }
  }

  lemma PlanCopies(cfg: Config, fills: seq<Fill>, mirrors: map<string, MirrorBinding>, event: TradeEvent, now: I64)
    requires cfg.Usable() && Historical(fills, mirrors) && event.Validate().Success?
    requires PlanEvent(cfg, mirrors, event, now).Success?
    ensures CopyOf(cfg, fills, event, now, PlanEvent(cfg, mirrors, event, now).value)
  {
    hide Build, RouteRule.Usable, Copies, Admits, NothingToDo, Historical, Plan;
    var routes := ForSource(cfg.routes, event.sourceAccountId);
    var commands := PlanEvent(cfg, mirrors, event, now).value;
    PlanMakes(cfg.digest, routes, mirrors, event, now);
    forall c | c in commands
      ensures exists route <- cfg.routes :: Copies(fills, event, route, now, c)
    {
      var route :| route in routes && Made(cfg.digest, mirrors, event, now, route, c);
      BuiltCopies(cfg.digest, fills, mirrors, event, route, now);
      assert route in cfg.routes;
    }
    forall route | route in cfg.routes && Admits(route, event, now)
      ensures NothingToDo(fills, event, route) || exists c <- commands :: Copies(fills, event, route, now, c)
    {
      AdmittedIsOfSource(route, event, now);
      BuiltCopies(cfg.digest, fills, mirrors, event, route, now);
      var built := Build(cfg.digest, mirrors, event, route, now);
      if built.Success? && built.value.Some? {
        MadeIsPlanned(cfg.digest, routes, mirrors, event, now, route, built.value.value);
      }
    }
  }

  lemma AdmittedIsOfSource(route: RouteRule, event: TradeEvent, now: I64)
    requires Admits(route, event, now)
    ensures route.sourceAccountId == event.sourceAccountId
  {
  }

  /* Journals. */

  /** Bindings hold the volumes of sized opens. */
  lemma BookIsHistorical(cfg: Config, journal: seq<JournalRecord>)
    requires Sound(cfg) && WellFormed(cfg, journal)
    ensures Historical(Fills(journal), Replay(journal).mirrors)
  {
    hide LastFill, ReducedSince, SourceLeft, MirrorKey, Authentic, FromRoute;
    var fills, mirrors := Fills(journal), Replay(journal).mirrors;
    forall key: string
      ensures BookSays(fills, mirrors, key)
    {
      BookIsHistory(cfg, journal, key);
    }
    FillsAreTerminal(cfg, journal);
    forall key | key in mirrors
      ensures mirrors[key].sourceOpenVolume > 0.0 && mirrors[key].targetOpenVolume > 0.0
    {
      assert BookSays(fills, mirrors, key);
      assert TerminalFill(cfg, journal, fills[LastFill(fills, key, Open)]);
    }
  }

  /** Every plan ever journaled is a copy of a validated event: what each command says follows from
      that event, its route and the fills booked before, and no route that admits the event is left
      out that had anything to do. */
  lemma JournaledPlansCopy(cfg: Config, journal: seq<JournalRecord>, i: nat)
    requires Sound(cfg) && WellFormed(cfg, journal) && i < |journal| && journal[i].EventPlanned?
    ensures exists event: TradeEvent, now: I64 :: event.Validate().Success? && event.eventId == journal[i].eventId
                                 && CopyOf(cfg, Fills(journal[..i]), event, now, journal[i].commands)
  {
    hide CopyOf, Historical, PlanEvent, WellFormed;
    WellFormedPrefix(cfg, journal, i);
    var event, now :| PlannedBy(cfg, Replay(journal[..i]).mirrors, journal[i], event, now);
    BookIsHistorical(cfg, journal[..i]);
    PlanCopies(cfg, Fills(journal[..i]), Replay(journal[..i]).mirrors, event, now);
  }

  lemma RouteOfCopy(cfg: Config, fills: seq<Fill>, event: TradeEvent, now: I64, commands: seq<ExecutionCommand>, c: ExecutionCommand)
    returns (route: RouteRule)
    requires cfg.Usable() && CopyOf(cfg, fills, event, now, commands) && c in commands
    ensures route in cfg.routes && Copies(fills, event, route, now, c)
  {
    hide Copies;
    route :| route in cfg.routes && Copies(fills, event, route, now, c);
  }

  lemma CopyTakesAllThatIsLeft(fills: seq<Fill>, event: TradeEvent, route: RouteRule, now: I64, c: ExecutionCommand)
    requires route.Usable() && Copies(fills, event, route, now, c) && (c.action == Modify || c.action == Close)
    ensures var key := c.Key();
            var at := LastFill(fills, key, Open);
            && at > LastFill(fills, key, Close) && c.targetOrderId == fills[at].ack.externalId
            && c.volume == Max(fills[at].command.volume - ReducedSince(fills, key, at), 0.0)
  {
    hide LastFill, ReducedSince, RouteRule.Usable, Admits;
    assert c.Key() == KeyOf(event, route);
  }

  /** A planned modify or close is for all the follower still holds: what its position was opened with
      less what was reduced since. */
  lemma ClosesTakeAllThatIsLeft(cfg: Config, journal: seq<JournalRecord>, i: nat, command: ExecutionCommand)
    requires Sound(cfg) && WellFormed(cfg, journal) && i < |journal| && journal[i].EventPlanned?
    requires command in journal[i].commands && (command.action == Modify || command.action == Close)
    ensures var fills, key := Fills(journal[..i]), command.Key();
            var at := LastFill(fills, key, Open);
            && at > LastFill(fills, key, Close) && command.targetOrderId == fills[at].ack.externalId
            && command.volume == Max(fills[at].command.volume - ReducedSince(fills, key, at), 0.0)
  {
    hide LastFill, ReducedSince, WellFormed, Copies, CopyOf, RouteRule.Usable, Fills;
    JournaledPlansCopy(cfg, journal, i);
    var fills := Fills(journal[..i]);
    var event: TradeEvent, now: I64 :| CopyOf(cfg, fills, event, now, journal[i].commands);
    var route := RouteOfCopy(cfg, fills, event, now, journal[i].commands, command);
    CopyTakesAllThatIsLeft(fills, event, route, now, command);
  }
}
