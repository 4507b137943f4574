/** Routing and sizing (crates/copier-core/src/routing.rs). */
module Routing {
  import opened Wrappers
  import opened Model
  import opened Rounding
  import Keys

  datatype SizingMode = Mirror | Fixed | Multiplier

  datatype RouteError =
    | InvalidRule(id: string)
    | SelfRoute(id: string)
    | InvalidVolumePolicy(id: string)
    | MissingMirror(id: string)
    | InvalidMirror(id: string)
    | InvalidSymbolMap(id: string)

  type Digest = string -> seq<Keys.Byte>

  const I64_MAX: int := 0x7FFF_FFFF_FFFF_FFFF
  const I64_MIN: int := -0x8000_0000_0000_0000
  const U64_MAX: int := 0xFFFF_FFFF_FFFF_FFFF

  type U64 = x: int | 0 <= x < 0x1_0000_0000_0000_0000

  /** `trim().is_empty()` on the characters that occur in configuration files. */
  predicate Blank(text: string) {
    forall c <- text :: c == ' ' || c == '\t' || c == '\n' || c == '\r'
  }

  function Clamp(x: real, low: real, high: real): real
    requires low <= high
  {
    if x < low then low else if x > high then high else x
  }

  function SaturatingSub(a: int, b: int): int {
    if a - b > I64_MAX then I64_MAX else if a - b < I64_MIN then I64_MIN else a - b
  }

  function SaturatingMul(a: U64, b: U64): int {
    if a * b > U64_MAX then U64_MAX else a * b
  }

  datatype RouteRule = RouteRule(
    id: string,
    sourceAccountId: string,
    targetAccountId: string,
    enabled: bool,
    sizing: SizingMode,
    sizeValue: real,
    reverse: bool,
    copySlTp: bool,
    minVolume: real,
    maxVolume: real,
    volumeStep: real,
    allowBuy: bool,
    allowSell: bool,
    allowSymbols: seq<string>,
    denySymbols: seq<string>,
    symbolMap: map<string, string>,
    symbolPrefix: string,
    symbolSuffix: string,
    maxEventAgeMs: U64)
  {
    function Validate(): Result<(), RouteError> {
      if id == "" || sourceAccountId == "" || targetAccountId == "" then Failure(InvalidRule(id))
      else if sourceAccountId == targetAccountId then Failure(SelfRoute(id))
      else if maxVolume <= 0.0 || volumeStep <= 0.0 || minVolume < 0.0 then Failure(InvalidVolumePolicy(id))
      else if sizing != Mirror && sizeValue <= 0.0 then Failure(InvalidVolumePolicy(id))
      else if exists source <- symbolMap :: Blank(source) || Blank(symbolMap[source]) then Failure(InvalidSymbolMap(id))
      else Success(())
    }

    /** A validated rule whose limits are in order; `validate` does not check the latter, and
        clamping panics without it. */
    predicate Usable() {
      Validate().Success? && minVolume <= maxVolume
    }

    predicate Allows(event: TradeEvent) {
      && enabled
      && (allowSymbols == [] || event.symbol in allowSymbols)
      && event.symbol !in denySymbols
      && !(event.side == Some(Buy) && allowSell && !allowBuy)
      && !(event.side == Some(Sell) && allowBuy && !allowSell)
    }

    predicate TooOld(event: TradeEvent, now: I64) {
      var age := SaturatingSub(now, event.timestamp);
      maxEventAgeMs > 0 && (if age < 0 then 0 else age) > SaturatingMul(maxEventAgeMs, 1_000_000)
    }

    function TargetSymbol(source: string): string {
      if source in symbolMap then symbolMap[source] else symbolPrefix + source + symbolSuffix
    }

    function RawOpenVolume(sourceVolume: real): real {
      match sizing
      case Mirror => sourceVolume
      case Fixed => sizeValue
      case Multiplier => Scale(sourceVolume, sizeValue)
    }

    function OpenVolume(sourceVolume: real): real
      requires Usable()
    {
      NormalizeStep(Clamp(RawOpenVolume(sourceVolume), minVolume, maxVolume), volumeStep)
    }

    function ReduceVolume(raw: real, remaining: real): real
      requires Usable()
    {
      NormalizeStep(Max(Min(raw, remaining), 0.0), volumeStep)
    }
  }

  /** The follower's share of a source reduction. */
  function ProportionalReduce(volume: real, binding: MirrorBinding): real
    requires binding.sourceOpenVolume > 0.0
  {
    Scale(binding.targetOpenVolume, Ratio(volume, binding.sourceOpenVolume))
  }

  /** The target order and volume of the command an admitted event leads to. */
  function TargetAndVolume(event: TradeEvent, route: RouteRule, mirror: Option<MirrorBinding>)
    : Result<(Option<string>, real), RouteError>
    requires route.Usable()
  {
    match event.action
    case Open => Success((None, route.OpenVolume(event.volume)))
    case Modify | Close =>
      if mirror.None? then Failure(MissingMirror(route.id))
      else Success((Some(mirror.value.targetOrderId), mirror.value.targetRemainingVolume))
    case Reduce =>
      if mirror.None? then Failure(MissingMirror(route.id))
      else if mirror.value.sourceOpenVolume <= 0.0 then Failure(InvalidMirror(route.id))
      else Success((Some(mirror.value.targetOrderId),
                    route.ReduceVolume(ProportionalReduce(event.volume, mirror.value), mirror.value.targetRemainingVolume)))
  }

  function BuildCommand(digest: Digest, event: TradeEvent, route: RouteRule, mirror: Option<MirrorBinding>, now: I64)
    : Result<Option<ExecutionCommand>, RouteError>
    requires route.Usable()
  {
    if !route.Allows(event) || route.TooOld(event, now) then Success(None)
    else
      var (targetOrderId, volume) :- TargetAndVolume(event, route, mirror);
      if (event.action == Open || event.action == Reduce) && volume <= 0.0 then Success(None)
      else Success(Some(ExecutionCommand(
        Keys.CommandId(digest, event.eventId, route.id, route.targetAccountId),
        event.eventId, route.id, event.sourceAccountId, event.sourceOrderId, route.targetAccountId,
        event.action, targetOrderId, route.TargetSymbol(event.symbol),
        if event.side.Some? && route.reverse then Some(Reversed(event.side.value)) else event.side,
        volume, event.volume, event.remainingVolume, event.price,
        if route.copySlTp then event.stopLoss else None,
        if route.copySlTp then event.takeProfit else None,
        now)))
  }

  /** The routes of one source account, in configuration order. */
  function ForSource(routes: seq<RouteRule>, source: string): (r: seq<RouteRule>)
    ensures forall route <- r :: route in routes && route.sourceAccountId == source
    ensures forall route <- routes :: route.sourceAccountId == source ==> route in r
  {
    if routes == [] then []
    else
      var init, last := routes[..|routes| - 1], routes[|routes| - 1];
      if last.sourceAccountId == source then ForSource(init, source) + [last] else ForSource(init, source)
  }

  /** The compiled routing table. */
  datatype CopyEngine = CopyEngine(routesBySource: map<string, seq<RouteRule>>) {
    function RoutesFor(source: string): seq<RouteRule> {
      if source in routesBySource then routesBySource[source] else []
    }
  }

  lemma ForSourceSnoc(routes: seq<RouteRule>, i: nat)
    requires i < |routes|
    ensures forall source :: ForSource(routes[..i + 1], source)
                          == if routes[i].sourceAccountId == source then ForSource(routes[..i], source) + [routes[i]]
                             else ForSource(routes[..i], source)
  {
    assert routes[..i + 1][..i] == routes[..i];
  }

  /** Adding a route to the index adds it to the scan. */
  lemma IndexGrows(index: map<string, seq<RouteRule>>, routes: seq<RouteRule>, i: nat)
    requires i < |routes| && forall source :: CopyEngine(index).RoutesFor(source) == ForSource(routes[..i], source)
    ensures var source := routes[i].sourceAccountId;
            var after := index[source := CopyEngine(index).RoutesFor(source) + [routes[i]]];
            forall other :: CopyEngine(after).RoutesFor(other) == ForSource(routes[..i + 1], other)
  {
    hide ForSource;
    ForSourceSnoc(routes, i);
    var source := routes[i].sourceAccountId;
    var after := index[source := CopyEngine(index).RoutesFor(source) + [routes[i]]];
    forall other
      ensures CopyEngine(after).RoutesFor(other) == ForSource(routes[..i + 1], other)
    {
      assert CopyEngine(index).RoutesFor(other) == ForSource(routes[..i], other);
      assert CopyEngine(index).RoutesFor(source) == ForSource(routes[..i], source);
    }
  }

  lemma NoRoutes()
    ensures forall source :: ForSource([], source) == []
  {
  }

  /** Compiling succeeds exactly when every rule validates, reports the first rule that does
      not, and the table answers every source with what a scan of the configuration finds. */
  method Compile(routes: seq<RouteRule>) returns (r: Result<CopyEngine, RouteError>)
    ensures r.Success? <==> forall i :: 0 <= i < |routes| ==> routes[i].Validate().Success?
    ensures r.Success? ==> forall source :: r.value.RoutesFor(source) == ForSource(routes, source)
    ensures r.Failure? ==> exists i :: && 0 <= i < |routes| && routes[i].Validate() == Failure(r.error)
                                       && forall j :: 0 <= j < i ==> routes[j].Validate().Success?
  {
    hide RouteRule.Validate, ForSource;
    var index: map<string, seq<RouteRule>> := map[];
    NoRoutes();
    for i := 0 to |routes|
      invariant forall j :: 0 <= j < i ==> routes[j].Validate().Success?
      invariant forall source :: CopyEngine(index).RoutesFor(source) == ForSource(routes[..i], source)
    {
      var route := routes[i];
      if route.Validate().Failure? {
        return Failure(route.Validate().error);
      }
      IndexGrows(index, routes, i);
      var before := CopyEngine(index).RoutesFor(route.sourceAccountId);
      index := index[route.sourceAccountId := before + [route]];
    }
    assert routes[..|routes|] == routes;
    r := Success(CopyEngine(index));
  }

  /** Validation lets a rule through whose limits are inverted, for which opening panics. */
  lemma ValidationAdmitsInvertedLimits(route: RouteRule)
    requires route.Usable() && route.maxVolume < 10.0
    ensures route.(minVolume := 10.0).Validate().Success? && !route.(minVolume := 10.0).Usable()
  {
  }

  /* Which rules are accepted, and which events they admit. */

  /** A rule is accepted exactly when its ids are there and differ, its volumes make sense and its
      symbol map names symbols; otherwise the first of these that fails is reported. */
  lemma RuleAcceptedIff(route: RouteRule)
    ensures var named := route.id != "" && route.sourceAccountId != "" && route.targetAccountId != "";
            var apart := route.sourceAccountId != route.targetAccountId;
            var sized := route.maxVolume > 0.0 && route.volumeStep > 0.0 && route.minVolume >= 0.0
                         && (route.sizing == Mirror || route.sizeValue > 0.0);
            var mapped := forall symbol <- route.symbolMap :: !Blank(symbol) && !Blank(route.symbolMap[symbol]);
            && (route.Validate().Success? <==> named && apart && sized && mapped)
            && (!named <==> route.Validate() == Failure(InvalidRule(route.id)))
            && (named && !apart <==> route.Validate() == Failure(SelfRoute(route.id)))
            && (named && apart && !sized <==> route.Validate() == Failure(InvalidVolumePolicy(route.id)))
            && (named && apart && sized && !mapped <==> route.Validate() == Failure(InvalidSymbolMap(route.id)))
  {
    hide Blank;
  }

  /** An enabled rule admits the symbols it lists, or any when it lists none, less those it denies;
      a rule for one side refuses exactly the other. */
  predicate Copyable(route: RouteRule, symbol: string, side: Option<Side>) {
    && route.enabled
    && (symbol in route.allowSymbols || |route.allowSymbols| == 0)
    && (forall denied <- route.denySymbols :: denied != symbol)
    && match side
       case None => true
       case Some(Buy) => route.allowBuy || !route.allowSell
       case Some(Sell) => route.allowSell || !route.allowBuy
  }

  lemma AllowsIffCopyable(route: RouteRule, event: TradeEvent)
    ensures route.Allows(event) <==> Copyable(route, event.symbol, event.side)
  {
  }

  /** An event is too old when its true age exceeds the limit; a limit of 2^63 - 1 ns or more is
      never exceeded, since the age saturates there. */
  lemma TooOldIff(route: RouteRule, event: TradeEvent, now: I64)
    ensures var limit := route.maxEventAgeMs * 1_000_000;
            route.TooOld(event, now) <==> 0 < limit < I64_MAX && now - event.timestamp > limit
  {
  }

  /* Sizing. */

  lemma PositiveStep(route: RouteRule)
    requires route.Usable()
    ensures route.volumeStep > 0.0
  {
  }

  ghost predicate SteppedLimits(route: RouteRule) {
    OnGrid(route.minVolume, route.volumeStep) && OnGrid(route.maxVolume, route.volumeStep)
  }

  /** The volume is within `error` of what the rule asks for, kept within its limits: the source's
      volume, the configured one, or the source's times the configured factor. */
  predicate Honours(route: RouteRule, sourceVolume: real, volume: real, error: real)
    requires route.minVolume <= route.maxVolume
  {
    match route.sizing
    case Mirror => Within(volume, Clamp(sourceVolume, route.minVolume, route.maxVolume), error)
    case Fixed => Within(volume, Clamp(route.sizeValue, route.minVolume, route.maxVolume), error)
    case Multiplier => Within(volume, Clamp(sourceVolume * route.sizeValue, route.minVolume, route.maxVolume), error)
  }

  /** Clamping gives the value between the limits that is closest. */
  lemma ClampIsClosest(x: real, low: real, high: real, y: real)
    requires low <= high && low <= y <= high
    ensures low <= Clamp(x, low, high) <= high
    ensures y <= x ==> y <= Clamp(x, low, high) <= x
    ensures x <= y ==> x <= Clamp(x, low, high) <= y
  {
  }

  lemma HonoursRequest(route: RouteRule, sourceVolume: real, volume: real, error: real)
    requires route.minVolume <= route.maxVolume
    ensures Honours(route, sourceVolume, volume, error)
       <==> Within(volume, Clamp(route.RawOpenVolume(sourceVolume), route.minVolume, route.maxVolume), error)
  {
    assert Scale(sourceVolume, route.sizeValue) == sourceVolume * route.sizeValue;
  }

  /** An open is sized to the nearest step of the request kept within the limits, and leaves the
      limits only when they are off the grid themselves. */
  lemma OpenSizing(route: RouteRule, sourceVolume: real)
    requires route.Usable() && WholeTicks(route.volumeStep)
    ensures OnGrid(route.OpenVolume(sourceVolume), route.volumeStep)
    ensures Honours(route, sourceVolume, route.OpenVolume(sourceVolume), route.volumeStep / 2.0)
    ensures NormalizeStep(route.OpenVolume(sourceVolume), route.volumeStep) == route.OpenVolume(sourceVolume)
    ensures SteppedLimits(route) ==> route.minVolume <= route.OpenVolume(sourceVolume) <= route.maxVolume
  {
    var clamped := Clamp(route.RawOpenVolume(sourceVolume), route.minVolume, route.maxVolume);
    HonoursRequest(route, sourceVolume, route.OpenVolume(sourceVolume), route.volumeStep / 2.0);
    hide Honours, RouteRule.RawOpenVolume;
    NormalizeExact(clamped, route.volumeStep);
    NormalizeNear(clamped, route.volumeStep);
    NormalizeIdempotent(clamped, route.volumeStep);
    if SteppedLimits(route) {
      NormalizeBelowGrid(clamped, route.maxVolume, route.volumeStep);
      NormalizeAboveGrid(clamped, route.minVolume, route.volumeStep);
    }
  }

  /** A larger source never opens smaller. */
  lemma OpenSizingMonotone(route: RouteRule, small: real, large: real)
    requires route.Usable() && small <= large
    ensures route.OpenVolume(small) <= route.OpenVolume(large)
  {
    if route.sizing == Multiplier {
      ScaleLeq(small, large, route.sizeValue);
    }
    NormalizeMonotone(Clamp(route.RawOpenVolume(small), route.minVolume, route.maxVolume),
                      Clamp(route.RawOpenVolume(large), route.minVolume, route.maxVolume), route.volumeStep);
  }

  /** For a step off the 1e-8 tick the error grows by at most half a tick. */
  lemma OpenSizingAnyStep(route: RouteRule, sourceVolume: real)
    requires route.Usable()
    ensures Honours(route, sourceVolume, route.OpenVolume(sourceVolume), route.volumeStep / 2.0 + 0.000_000_005)
  {
    HonoursRequest(route, sourceVolume, route.OpenVolume(sourceVolume), route.volumeStep / 2.0 + 0.000_000_005);
    hide Honours, RouteRule.RawOpenVolume;
    NormalizeNearAnyStep(Clamp(route.RawOpenVolume(sourceVolume), route.minVolume, route.maxVolume), route.volumeStep);
  }

  /** A limit off the grid can be exceeded: at most 0.015 in steps of 0.01 opens 0.02. */
  lemma LimitsMustBeStepped(route: RouteRule)
    requires route.Usable() && route.sizing == Mirror && route.maxVolume == 0.015 && route.volumeStep == 0.01
    ensures route.OpenVolume(1.0) == 0.02 > route.maxVolume
  {
    assert Ratio(0.015, 0.01) == 1.5 && Round(1.5) == 2;
    assert ToTicks(Steps(2, 0.01)) == 2_000_000.0;
    RoundInteger(2_000_000);
  }

  lemma RequestFor(route: RouteRule, raw: real) returns (sourceVolume: real)
    requires route.Usable() && route.sizing != Fixed
    ensures route.RawOpenVolume(sourceVolume) == raw
  {
    if route.sizing == Mirror {
      sourceVolume := raw;
    } else {
      RatioScale(raw, route.sizeValue);
      sourceVolume := Ratio(raw, route.sizeValue);
    }
  }

  /** Every open stays within the limits exactly when the limits themselves round inwards; with a
      fixed size, when that one volume does not round out of them. */
  lemma LimitsKeptIffRoundedInwards(route: RouteRule)
    requires route.Usable()
    ensures (forall v: real :: route.minVolume <= route.OpenVolume(v) <= route.maxVolume)
       <==> var step := route.volumeStep;
            if route.sizing == Fixed
            then route.minVolume <= NormalizeStep(Clamp(route.sizeValue, route.minVolume, route.maxVolume), step) <= route.maxVolume
            else route.minVolume <= NormalizeStep(route.minVolume, step) && NormalizeStep(route.maxVolume, step) <= route.maxVolume
  {
    hide NormalizeStep, Blank;
    if route.sizing == Fixed {
      var only := NormalizeStep(Clamp(route.sizeValue, route.minVolume, route.maxVolume), route.volumeStep);
      assert forall v: real :: route.OpenVolume(v) == only;
      assert (forall v: real :: route.minVolume <= route.OpenVolume(v) <= route.maxVolume) ==>
               route.minVolume <= route.OpenVolume(0.0) <= route.maxVolume;
    } else {
      VaryingLimits(route);
    }
  }

  lemma VaryingLimits(route: RouteRule)
    requires route.Usable() && route.sizing != Fixed
    ensures (forall v: real :: route.minVolume <= route.OpenVolume(v) <= route.maxVolume)
       <==> route.minVolume <= NormalizeStep(route.minVolume, route.volumeStep)
            && NormalizeStep(route.maxVolume, route.volumeStep) <= route.maxVolume
  {
    hide NormalizeStep, Blank;
    var low := RequestFor(route, route.minVolume);
    var high := RequestFor(route, route.maxVolume);
    assert route.OpenVolume(low) == NormalizeStep(route.minVolume, route.volumeStep);
    assert route.OpenVolume(high) == NormalizeStep(route.maxVolume, route.volumeStep);
    forall v: real
      ensures NormalizeStep(route.minVolume, route.volumeStep) <= route.OpenVolume(v) <= NormalizeStep(route.maxVolume, route.volumeStep)
    {
      var clamped := Clamp(route.RawOpenVolume(v), route.minVolume, route.maxVolume);
      NormalizeMonotone(route.minVolume, clamped, route.volumeStep);
      NormalizeMonotone(clamped, route.maxVolume, route.volumeStep);
    }
  }

  /** A reduce is on the grid and asks for no more than what remains, nearest-rounding and all. */
  lemma ReduceSizing(route: RouteRule, raw: real, remaining: real)
    requires route.Usable() && WholeTicks(route.volumeStep)
    requires OnGrid(remaining, route.volumeStep) && remaining >= 0.0
    ensures OnGrid(route.ReduceVolume(raw, remaining), route.volumeStep)
    ensures 0.0 <= route.ReduceVolume(raw, remaining) <= remaining
    ensures 0.0 <= raw <= remaining ==> Within(route.ReduceVolume(raw, remaining), raw, route.volumeStep / 2.0)
    ensures raw >= remaining ==> route.ReduceVolume(raw, remaining) == remaining
  {
    var capped := Max(Min(raw, remaining), 0.0);
    NormalizeExact(capped, route.volumeStep);
    NormalizeNear(capped, route.volumeStep);
    NormalizeBelowGrid(capped, remaining, route.volumeStep);
    if raw >= remaining {
      NormalizeAboveGrid(capped, remaining, route.volumeStep);
    }
  }
}
