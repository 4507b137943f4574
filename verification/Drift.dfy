/** How far a follower drifts from its source over a series of partial closes: the loop from
    sizing a reduce (crates/copier-core/src/routing.rs) to booking its fill
    (crates/copier-daemon/src/runtime.rs) and back. */
module Drift {
  import opened Wrappers
  import opened Model
  import opened Rounding
  import opened Routing
  import opened Handlers

  /** A reduce event and the time it is handled. */
  datatype Cut = Cut(event: TradeEvent, now: I64)

  predicate Admitted(route: RouteRule, cut: Cut) {
    cut.event.action == Reduce && cut.event.volume > 0.0 && route.Allows(cut.event) && !route.TooOld(cut.event, cut.now)
  }

  /** The binding after one reduce is planned and filled, or dropped because it rounds to nothing. */
  function AfterCut(digest: Digest, route: RouteRule, binding: MirrorBinding, cut: Cut): MirrorBinding
    requires route.Usable()
  {
    match BuildCommand(digest, cut.event, route, Some(binding), cut.now)
    case Success(Some(command)) => ReducedBinding(binding, command)
    case _ => binding
  }

  function AfterCuts(digest: Digest, route: RouteRule, binding: MirrorBinding, cuts: seq<Cut>): MirrorBinding
    requires route.Usable()
  {
    if cuts == [] then binding
    else AfterCut(digest, route, AfterCuts(digest, route, binding, cuts[..|cuts| - 1]), cuts[|cuts| - 1])
  }

  function Total(cuts: seq<Cut>): real {
    if cuts == [] then 0.0 else Total(cuts[..|cuts| - 1]) + cuts[|cuts| - 1].event.volume
  }

  /** What the follower would hold if volumes were not rounded. */
  function Ideal(binding: MirrorBinding, reduced: real): real
    requires binding.sourceOpenVolume > 0.0
  {
    binding.targetOpenVolume * (1.0 - reduced / binding.sourceOpenVolume)
  }

  lemma IdealIsShare(binding: MirrorBinding, reduced: real)
    requires binding.sourceOpenVolume > 0.0
    ensures Ideal(binding, reduced) == binding.targetOpenVolume - ProportionalReduce(reduced, binding)
  {
    var t, q := binding.targetOpenVolume, reduced / binding.sourceOpenVolume;
    assert t * (1.0 - q) == t - t * q;
  }

  /** Volumes are positive and the target side lies on the route's grid. */
  ghost predicate Cuttable(route: RouteRule, binding: MirrorBinding) {
    && route.Usable() && WholeTicks(route.volumeStep)
    && binding.sourceOpenVolume > 0.0 && binding.targetOpenVolume >= 0.0
    && binding.targetRemainingVolume >= 0.0 && OnGrid(binding.targetRemainingVolume, route.volumeStep)
  }

  lemma IdealStep(binding: MirrorBinding, reduced: real, volume: real)
    requires binding.sourceOpenVolume > 0.0
    ensures Ideal(binding, reduced + volume) == Ideal(binding, reduced) - ProportionalReduce(volume, binding)
  {
    IdealIsShare(binding, reduced);
    IdealIsShare(binding, reduced + volume);
    hide Ideal;
    var s, t := binding.sourceOpenVolume, binding.targetOpenVolume;
    assert Ratio(reduced + volume, s) == Ratio(reduced, s) + Ratio(volume, s);
    var a, b := Ratio(reduced, s), Ratio(volume, s);
    assert t * (a + b) == t * a + t * b;
  }

  lemma IdealNotNegative(binding: MirrorBinding, reduced: real)
    requires binding.sourceOpenVolume > 0.0 && binding.targetOpenVolume >= 0.0
    requires 0.0 <= reduced <= binding.sourceOpenVolume
    ensures Ideal(binding, reduced) >= 0.0
  {
    IdealIsShare(binding, reduced);
    hide Ideal;
    var s, t := binding.sourceOpenVolume, binding.targetOpenVolume;
    var q := Ratio(reduced, s);
    RatioLeq(reduced, s, s);
    RatioScale(1.0, s);
    assert Ratio(s, s) == 1.0 by {
      assert Scale(1.0, s) == s;
    }
    ScaleLeq(q, 1.0, t);
    assert ProportionalReduce(reduced, binding) == Scale(q, t);
  }

  lemma ShareNotNegative(binding: MirrorBinding, volume: real)
    requires binding.sourceOpenVolume > 0.0 && binding.targetOpenVolume >= 0.0 && volume >= 0.0
    ensures ProportionalReduce(volume, binding) >= 0.0
  {
    RatioLeq(0.0, volume, binding.sourceOpenVolume);
    var q := Ratio(volume, binding.sourceOpenVolume);
    ScaleLeq(0.0, q, binding.targetOpenVolume);
    assert Scale(q, binding.targetOpenVolume) == Scale(binding.targetOpenVolume, q);
  }

  /** One reduce, planned or dropped, takes the sized volume from what remains. */
  lemma CutTakes(digest: Digest, route: RouteRule, binding: MirrorBinding, cut: Cut)
    requires Cuttable(route, binding) && Admitted(route, cut)
    ensures var after := AfterCut(digest, route, binding, cut);
            var sized := route.ReduceVolume(ProportionalReduce(cut.event.volume, binding), binding.targetRemainingVolume);
            && after.targetRemainingVolume == binding.targetRemainingVolume - sized
            && after.sourceOpenVolume == binding.sourceOpenVolume && after.targetOpenVolume == binding.targetOpenVolume
            && Cuttable(route, after)
  {
    var sized := route.ReduceVolume(ProportionalReduce(cut.event.volume, binding), binding.targetRemainingVolume);
    ReduceSizing(route, ProportionalReduce(cut.event.volume, binding), binding.targetRemainingVolume);
    GridDifference(binding.targetRemainingVolume, sized, route.volumeStep);
  }

  /** The error grows by at most half a step per reduce, also when the reduce is dropped or
      capped by what remains. */
  lemma CutDrifts(digest: Digest, route: RouteRule, binding: MirrorBinding, cut: Cut, reduced: real, error: real)
    requires Cuttable(route, binding) && Admitted(route, cut)
    requires 0.0 <= reduced && reduced + cut.event.volume <= binding.sourceOpenVolume
    requires error >= 0.0 && Within(binding.targetRemainingVolume, Ideal(binding, reduced), error)
    ensures Within(AfterCut(digest, route, binding, cut).targetRemainingVolume,
                   Ideal(binding, reduced + cut.event.volume), error + route.volumeStep / 2.0)
  {
    var raw := ProportionalReduce(cut.event.volume, binding);
    CutTakes(digest, route, binding, cut);
    ReduceSizing(route, raw, binding.targetRemainingVolume);
    ShareNotNegative(binding, cut.event.volume);
    IdealStep(binding, reduced, cut.event.volume);
    IdealNotNegative(binding, reduced + cut.event.volume);
  }

  lemma IdealAtStart(binding: MirrorBinding)
    requires binding.sourceOpenVolume > 0.0
    ensures Ideal(binding, 0.0) == binding.targetOpenVolume
  {
    IdealIsShare(binding, 0.0);
    hide Ideal;
    RatioScale(0.0, binding.sourceOpenVolume);
  }

  lemma SameIdeal(a: MirrorBinding, b: MirrorBinding, reduced: real)
    requires a.sourceOpenVolume == b.sourceOpenVolume > 0.0 && a.targetOpenVolume == b.targetOpenVolume
    ensures Ideal(a, reduced) == Ideal(b, reduced)
  {
  }

  /** After `n` partial closes of one position, each filled or dropped before the next and
      together no more than the source opened, the follower's remaining volume is within
      `n` half steps of the exact proportional share. */
  lemma {:induction false} DriftBound(digest: Digest, route: RouteRule, binding: MirrorBinding, cuts: seq<Cut>)
    requires Cuttable(route, binding) && binding.targetRemainingVolume == binding.targetOpenVolume
    requires (forall cut <- cuts :: Admitted(route, cut)) && Total(cuts) <= binding.sourceOpenVolume
    ensures Within(AfterCuts(digest, route, binding, cuts).targetRemainingVolume,
                   Ideal(binding, Total(cuts)), Steps(|cuts|, route.volumeStep / 2.0))
    ensures Cuttable(route, AfterCuts(digest, route, binding, cuts))
    ensures AfterCuts(digest, route, binding, cuts).sourceOpenVolume == binding.sourceOpenVolume
    ensures AfterCuts(digest, route, binding, cuts).targetOpenVolume == binding.targetOpenVolume
    ensures Total(cuts) >= 0.0
  {
    hide AfterCut, Ideal, Steps, RouteRule.Usable, OnGrid, RouteRule.Allows;
    var half := route.volumeStep / 2.0;
    if cuts == [] {
      IdealAtStart(binding);
      StepCount(0, half);
    } else {
      var init, last := cuts[..|cuts| - 1], cuts[|cuts| - 1];
      assert Admitted(route, last);
      DriftBound(digest, route, binding, init);
      var mid := AfterCuts(digest, route, binding, init);
      StepCount(|init|, half);
      SameIdeal(mid, binding, Total(init));
      SameIdeal(mid, binding, Total(cuts));
      PositiveStep(route);
      CutDrifts(digest, route, mid, last, Total(init), Steps(|init|, half));
      CutTakes(digest, route, mid, last);
    }
  }

  lemma StepCount(n: nat, step: real)
    ensures Steps(0, step) == 0.0 && Steps(n + 1, step) == Steps(n, step) + step
    ensures step >= 0.0 ==> Steps(n, step) >= 0.0
  {
    ScaleSum(n as real, 1.0, step);
    if step >= 0.0 {
      ScaleLeq(0.0, n as real, step);
    }
  }

  /** A position of `n` lots against a source of `2n`, in steps of one lot. */
  predicate HalfSize(route: RouteRule, binding: MirrorBinding, n: nat) {
    && route.Usable() && route.volumeStep == 1.0 && n > 0
    && binding.sourceOpenVolume == 2.0 * n as real && binding.targetOpenVolume == n as real
  }

  lemma HalfShare(route: RouteRule, binding: MirrorBinding, n: nat, volume: real)
    requires HalfSize(route, binding, n)
    ensures ProportionalReduce(volume, binding) == volume / 2.0
  {
    hide RouteRule.Usable;
    var s, t := 2.0 * n as real, n as real;
    RatioScale(volume, s);
    var q := Ratio(volume, s);
    assert Scale(q, s) == Scale(t, q) * 2.0;
  }

  /** A cut of one source lot asks for half a lot and takes a whole one. */
  lemma OneLotTaken(digest: Digest, route: RouteRule, binding: MirrorBinding, n: nat, cut: Cut)
    requires HalfSize(route, binding, n) && Admitted(route, cut) && cut.event.volume == 1.0
    requires binding.targetRemainingVolume >= 1.0
    ensures var after := AfterCut(digest, route, binding, cut);
            after.targetRemainingVolume == binding.targetRemainingVolume - 1.0 && HalfSize(route, after, n)
  {
    HalfShare(route, binding, n, 1.0);
    hide NormalizeStep, ProportionalReduce;
    HalfLotRoundsUp();
  }

  /** The bound cannot be improved, however many cuts there are: here each of them adds a full half
      step. */
  lemma {:induction false} DriftBoundAttained(digest: Digest, route: RouteRule, binding: MirrorBinding, n: nat, cuts: seq<Cut>)
    requires HalfSize(route, binding, n) && binding.targetRemainingVolume == n as real
    requires |cuts| <= n && forall cut <- cuts :: Admitted(route, cut) && cut.event.volume == 1.0
    ensures AfterCuts(digest, route, binding, cuts).targetRemainingVolume == n as real - |cuts| as real
    ensures HalfSize(route, AfterCuts(digest, route, binding, cuts), n)
    ensures Ideal(binding, Total(cuts)) - AfterCuts(digest, route, binding, cuts).targetRemainingVolume
         == Steps(|cuts|, route.volumeStep / 2.0)
  {
    hide AfterCut, ProportionalReduce, Admitted, RouteRule.Usable, Ideal;
    TotalOfOnes(cuts);
    IdealIsShare(binding, |cuts| as real);
    HalfShare(route, binding, n, |cuts| as real);
    if cuts != [] {
      var init, last := cuts[..|cuts| - 1], cuts[|cuts| - 1];
      assert Admitted(route, last);
      DriftBoundAttained(digest, route, binding, n, init);
      OneLotTaken(digest, route, AfterCuts(digest, route, binding, init), n, last);
    }
  }

  lemma HalfLotRoundsUp()
    ensures NormalizeStep(0.5, 1.0) == 1.0
  {
    assert Ratio(0.5, 1.0) == 0.5 && Round(0.5) == 1;
    assert ToTicks(Steps(1, 1.0)) == 100_000_000.0;
    RoundInteger(100_000_000);
  }

  lemma {:induction false} TotalOfOnes(cuts: seq<Cut>)
    requires forall cut <- cuts :: cut.event.volume == 1.0
    ensures Total(cuts) == |cuts| as real
  {
    if cuts != [] {
      TotalOfOnes(cuts[..|cuts| - 1]);
    }
  }
}
