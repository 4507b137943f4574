/** How direct venues turn successive views of a position into changes: the rule shared by
    crates/copier-daemon/src/venues/metaapi.rs and ctrader.rs, and what it conserves. */
module Positions {
  import opened Wrappers
  import opened Model

  /** Machine epsilon of double precision. */
  const EPSILON: real := 1.0 / 4_503_599_627_370_496.0

  const PRICE_TOLERANCE: real := 0.000_000_000_1

  datatype Quote = Quote(volume: real, stopLoss: Option<real>, takeProfit: Option<real>)

  datatype Change = Change(action: TradeAction, volume: real, remaining: Option<real>)

  function Abs(x: real): real {
    if x < 0.0 then -x else x
  }

  predicate ChangedPrice(left: Option<real>, right: Option<real>) {
    match (left, right)
    case (Some(l), Some(r)) => Abs(l - r) > PRICE_TOLERANCE
    case (None, None) => false
    case _ => true
  }

  predicate Shrinks(earlier: Quote, current: Quote) {
    current.volume + EPSILON < earlier.volume
  }

  predicate ScalesIn(earlier: Quote, current: Quote) {
    current.volume > earlier.volume + EPSILON
  }

  predicate Reprices(earlier: Quote, current: Quote) {
    ChangedPrice(earlier.stopLoss, current.stopLoss) || ChangedPrice(earlier.takeProfit, current.takeProfit)
  }

  /** What is reported of a position seen as `earlier` before and as `current` now. Growth is only
      logged. */
  function Diff(earlier: Option<Quote>, current: Option<Quote>): Option<Change> {
    match (earlier, current)
    case (None, None) => None
    case (None, Some(c)) => Some(Change(Open, c.volume, Some(c.volume)))
    case (Some(o), None) => Some(Change(Close, o.volume, Some(0.0)))
    case (Some(o), Some(c)) =>
      if Shrinks(o, c) then Some(Change(Reduce, o.volume - c.volume, Some(c.volume)))
      else if ScalesIn(o, c) then None
      else if Reprices(o, c) then Some(Change(Modify, c.volume, Some(c.volume)))
      else None
  }

  /** Both prices are there and more than 1e-10 apart, or just one is there. */
  predicate Moved(left: Option<real>, right: Option<real>) {
    && left != right
    && (left.Some? && right.Some? ==> (left.value - right.value) * 10_000_000_000.0 > 1.0 || (right.value - left.value) * 10_000_000_000.0 > 1.0)
  }

  /** What a change says: an appearance opens, a disappearance closes, a volume less by more than
      2^-52 reduces, a moved stop level at the same volume modifies, and each carries what it changed
      and what remains. Nothing else is reported. */
  lemma DiffMeaning(earlier: Option<Quote>, current: Option<Quote>)
    ensures var change, ulp := Diff(earlier, current), 1.0 / 4_503_599_627_370_496.0;
            var before, now := Held(earlier), Held(current);
            var still := earlier.Some? && current.Some? && before - now <= ulp && now - before <= ulp;
            var moved := still && (Moved(earlier.value.stopLoss, current.value.stopLoss)
                                   || Moved(earlier.value.takeProfit, current.value.takeProfit));
            && (earlier.None? && current.Some? <==> change == Some(Change(Open, now, Some(now))))
            && (earlier.Some? && current.None? <==> change == Some(Change(Close, before, Some(0.0))))
            && (earlier.Some? && current.Some? && before - now > ulp <==> change == Some(Change(Reduce, before - now, Some(now))))
            && (moved <==> change == Some(Change(Modify, now, Some(now))))
            && (change.None? <==> (earlier.None? && current.None?) || (still && !moved)
                                  || (earlier.Some? && current.Some? && now - before > ulp))
  {
    if earlier.Some? && current.Some? {
      MovedIsChanged(earlier.value.stopLoss, current.value.stopLoss);
      MovedIsChanged(earlier.value.takeProfit, current.value.takeProfit);
    }
    hide Moved, ChangedPrice;
  }

  lemma MovedIsChanged(left: Option<real>, right: Option<real>)
    ensures ChangedPrice(left, right) <==> Moved(left, right)
  {
  }

  /* Conservation over the views of one position. */

  type Views = seq<Option<Quote>>

  function Held(view: Option<Quote>): real {
    if view.Some? then view.value.volume else 0.0
  }

  function Step(views: Views): Option<Change>
    requires |views| >= 2
  {
    Diff(views[|views| - 2], views[|views| - 1])
  }

  /** The volume reported by changes of one kind. */
  function Reported(views: Views, action: TradeAction): real {
    if |views| < 2 then 0.0
    else
      Reported(views[..|views| - 1], action)
      + if Step(views).Some? && Step(views).value.action == action then Step(views).value.volume else 0.0
  }

  predicate Grew(earlier: Option<Quote>, current: Option<Quote>) {
    earlier.Some? && current.Some? && ScalesIn(earlier.value, current.value)
  }

  /** The volume added by scale-ins, which goes unreported. */
  function Growth(views: Views): real {
    if |views| < 2 then 0.0
    else
      var earlier, current := views[|views| - 2], views[|views| - 1];
      Growth(views[..|views| - 1]) + if Grew(earlier, current) then current.value.volume - earlier.value.volume else 0.0
  }

  /** A view that neither opens, closes, reduces nor scales in a position that is there. */
  predicate Still(earlier: Option<Quote>, current: Option<Quote>) {
    earlier.Some? && current.Some? && !Shrinks(earlier.value, current.value) && !ScalesIn(earlier.value, current.value)
  }

  function Stills(views: Views): nat {
    if |views| < 2 then 0
    else Stills(views[..|views| - 1]) + if Still(views[|views| - 2], views[|views| - 1]) then 1 else 0
  }

  /** What the reports say is still held. */
  function Balance(views: Views): real {
    Reported(views, Open) - Reported(views, Reduce) - Reported(views, Close)
  }

  /** Over any series of views the reports account for the held volume, scale-ins apart, to within
      one epsilon for each view in which the position stood still. */
  lemma {:induction false} VolumeConserved(views: Views)
    requires |views| >= 1
    ensures Abs(Held(views[|views| - 1]) - Held(views[0]) - Balance(views) - Growth(views)) <= Stills(views) as real * EPSILON
  {
    if |views| >= 2 {
      VolumeConserved(views[..|views| - 1]);
    }
  }

  predicate NeverGrows(views: Views) {
    forall i :: 0 < i < |views| ==> !Grew(views[i - 1], views[i])
  }

  lemma {:induction false} NoGrowth(views: Views)
    requires NeverGrows(views)
    ensures Growth(views) == 0.0
  {
    if |views| >= 2 {
      NoGrowth(views[..|views| - 1]);
    }
  }

  /** A position that comes and goes without scaling in: what was opened is what was reduced and
      closed, to within one epsilon a view. */
  lemma OpenedIsReducedAndClosed(views: Views)
    requires |views| >= 1 && views[0].None? && views[|views| - 1].None? && NeverGrows(views)
    ensures Abs(Reported(views, Open) - Reported(views, Reduce) - Reported(views, Close)) <= Stills(views) as real * EPSILON
  {
    VolumeConserved(views);
    NoGrowth(views);
  }

  /** A position that shrinks by exactly one epsilon a view. */
  function Melting(volume: real, n: nat): (views: Views)
    ensures |views| == n + 2
  {
    if n == 0 then [None, Some(Quote(volume, None, None))]
    else Melting(volume, n - 1) + [Some(Quote(volume - n as real * EPSILON, None, None))]
  }

  lemma {:induction false} MeltingLast(volume: real, n: nat)
    ensures Melting(volume, n)[n + 1] == Some(Quote(volume - n as real * EPSILON, None, None))
  {
  }

  lemma ReportedOnce(views: Views, action: TradeAction)
    requires |views| == 2
    ensures Reported(views, action) == if Step(views).Some? && Step(views).value.action == action then Step(views).value.volume else 0.0
  {
    assert Reported(views[..1], action) == 0.0;
  }

  lemma {:induction false} MeltingUnreported(volume: real, n: nat)
    ensures Balance(Melting(volume, n)) == volume && Stills(Melting(volume, n)) == n
  {
    var views := Melting(volume, n);
    if n == 0 {
      assert Step(views) == Some(Change(Open, volume, Some(volume)));
      ReportedOnce(views, Open);
      ReportedOnce(views, Reduce);
      ReportedOnce(views, Close);
      assert Stills(views[..1]) == 0;
    } else {
      MeltingUnreported(volume, n - 1);
      MeltingLast(volume, n - 1);
      MeltingLast(volume, n);
      assert views[..n + 1] == Melting(volume, n - 1);
      assert Step(views).None? && Still(views[n], views[n + 1]);
    }
  }

  /** The bound is attained: such a position loses `n` epsilons without a report. */
  lemma BoundAttained(volume: real, n: nat)
    ensures var views := Melting(volume, n) + [None];
            Stills(views) == n && Balance(views) == n as real * EPSILON
  {
    var views := Melting(volume, n) + [None];
    MeltingUnreported(volume, n);
    MeltingLast(volume, n);
    assert views[..n + 2] == Melting(volume, n);
    assert Step(views) == Some(Change(Close, volume - n as real * EPSILON, Some(0.0)));
  }
}
