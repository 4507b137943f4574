/** The MetaApi venue (crates/copier-daemon/src/venues/metaapi.rs): polls an account's positions
    and reports the difference between successive snapshots as trade events. */
module MetaApi {
  import opened Wrappers
  import opened Model
  import opened Positions
  import Decimal
  import Keys
  import Wire

  datatype Account = Account(id: string, platform: Platform, canPublish: bool)

  datatype Position = Position(
    id: string,
    kind: string,
    symbol: string,
    volume: real,
    openPrice: real,
    stopLoss: Option<real>,
    takeProfit: Option<real>,
    clientId: Option<string>)
  {
    function Quoted(): Quote {
      Quote(volume, stopLoss, takeProfit)
    }
  }

  datatype VenueError =
    | UnknownType(kind: string)
    | Invalid(error: ModelError)

  type Book = map<string, Position>

  /** Positions by id; of two with one id the later wins. */
  function IndexPositions(positions: seq<Position>): (book: Book)
    ensures forall id <- book :: book[id].id == id
    ensures forall p <- positions :: p.id in book
  {
    if positions == [] then map[]
    else
      var last := positions[|positions| - 1];
      IndexPositions(positions[..|positions| - 1])[last.id := last]
  }

  /** The book holds under an id the last position that has it, and no other ids. */
  lemma {:induction false} IndexedIsLast(positions: seq<Position>, id: string) returns (at: nat)
    ensures id !in IndexPositions(positions) ==> forall p <- positions :: p.id != id
    ensures id in IndexPositions(positions) ==>
              && at < |positions| && positions[at].id == id && IndexPositions(positions)[id] == positions[at]
              && forall j :: at < j < |positions| ==> positions[j].id != id
  {
    at := 0;
    if positions != [] {
      var n := |positions| - 1;
      if positions[n].id == id {
        at := n;
      } else {
        at := IndexedIsLast(positions[..n], id);
      }
    }
  }

  function View(book: Book, id: string): Option<Quote> {
    if id in book then Some(book[id].Quoted()) else None
  }

  /* Events. */

  function EventId(account: string, id: string, action: TradeAction, now: I64): string {
    "metaapi:" + account + ":" + id + ":" + Wire.ShowAction(action) + ":" + Decimal.Print(now)
  }

  predicate StartsWith(text: string, prefix: string) {
    |prefix| <= |text| && text[..|prefix|] == prefix
  }

  function Origin(clientId: Option<string>): Option<string> {
    if clientId.Some? && StartsWith(clientId.value, "CR_") then clientId else None
  }

  function SideOf(kind: string): Option<Side> {
    if kind == "POSITION_TYPE_BUY" then Some(Buy) else if kind == "POSITION_TYPE_SELL" then Some(Sell) else None
  }

  function ToEvent(account: Account, p: Position, change: Change, now: I64): Result<TradeEvent, VenueError> {
    if SideOf(p.kind).None? then Failure(UnknownType(p.kind))
    else
      var event := TradeEvent(
        EventId(account.id, p.id, change.action, now), account.id, account.platform, change.action, p.id, p.symbol,
        SideOf(p.kind), change.volume, change.remaining, Some(p.openPrice), p.stopLoss, p.takeProfit, now, Origin(p.clientId));
      match event.Validate()
      case Success(_) => Success(event)
      case Failure(error) => Failure(Invalid(error))
  }

  /** The snapshot an event describes: the current one, or of a vanished position the last. */
  function Subject(previous: Book, current: Book, id: string): Position
    requires id in previous || id in current
  {
    if id in current then current[id] else previous[id].(volume := 0.0)
  }

  function DiffOf(previous: Book, current: Book, id: string): Option<Change> {
    Diff(View(previous, id), View(current, id))
  }

  /** What two snapshots report about one position. */
  function Report(account: Account, previous: Book, current: Book, id: string, now: I64): Option<Result<TradeEvent, VenueError>> {
    match DiffOf(previous, current, id)
    case None => None
    case Some(change) => Some(ToEvent(account, Subject(previous, current, id), change, now))
  }

  /** `events` reports exactly the positions in `done`, each once. */
  ghost predicate Reports(account: Account, previous: Book, current: Book, clock: string -> I64, done: set<string>, events: seq<TradeEvent>) {
    && (forall i, j :: 0 <= i < j < |events| ==> events[i].sourceOrderId != events[j].sourceOrderId)
    && (forall event <- events :: event.sourceOrderId in done
          && Report(account, previous, current, event.sourceOrderId, clock(event.sourceOrderId)) == Some(Success(event)))
    && (forall id <- done :: Report(account, previous, current, id, clock(id)).Some? ==> exists event <- events :: event.sourceOrderId == id)
  }

  predicate Keyed(book: Book) {
    forall id <- book :: book[id].id == id
  }

  /** The event is about the position as it is now, or as it was last. */
  predicate Describes(event: TradeEvent, account: Account, p: Position, now: I64) {
    && event.sourceAccountId == account.id && event.platform == account.platform && event.timestamp == now
    && event.sourceOrderId == p.id && event.symbol == p.symbol
    && (event.side == Some(Buy) <==> p.kind == "POSITION_TYPE_BUY")
    && (event.side == Some(Sell) <==> p.kind == "POSITION_TYPE_SELL")
    && event.price == Some(p.openPrice) && event.stopLoss == p.stopLoss && event.takeProfit == p.takeProfit
    && (event.originCommandId.Some? <==> p.clientId.Some? && "CR_" <= p.clientId.value)
    && (event.originCommandId.Some? ==> event.originCommandId == p.clientId)
  }

  /** An event tells the difference of the two books at its position and describes that position. */
  predicate Tells(account: Account, previous: Book, current: Book, now: I64, event: TradeEvent) {
    var id := event.sourceOrderId;
    && (id in current || id in previous)
    && Describes(event, account, if id in current then current[id] else previous[id], now)
    && Some(Change(event.action, event.volume, event.remainingVolume)) == Diff(View(previous, id), View(current, id))
    && event.Validate().Success?
  }

  lemma ReportNamesPosition(account: Account, previous: Book, current: Book, id: string, now: I64)
    requires Keyed(previous) && Keyed(current)
    requires Report(account, previous, current, id, now).Some? && Report(account, previous, current, id, now).value.Success?
    ensures var event := Report(account, previous, current, id, now).value.value;
            && event.eventId == EventId(account.id, id, event.action, now)
            && event.sourceOrderId == id && event.sourceAccountId == account.id && event.Validate().Success?
            && Some(Change(event.action, event.volume, event.remainingVolume)) == DiffOf(previous, current, id)
            && Tells(account, previous, current, now, event)
  {
    hide EventId, TradeEvent.Validate, Diff;
    KindsDiffer();
    DiffOfNothing();
  }

  lemma KindsDiffer()
    ensures "POSITION_TYPE_BUY" != "POSITION_TYPE_SELL"
  {
    assert |"POSITION_TYPE_BUY"| != |"POSITION_TYPE_SELL"|;
  }

  lemma DiffOfNothing()
    ensures Diff(None, None).None?
  {
  }

  /** A difference cannot be made an event exactly when the position's type is neither of the two or
      its event would be invalid. */
  lemma ReportFailsIff(account: Account, previous: Book, current: Book, id: string, now: I64)
    requires Keyed(previous) && Keyed(current) && DiffOf(previous, current, id).Some?
    ensures var p := if id in current then current[id] else previous[id];
            var change, outcome := DiffOf(previous, current, id).value, Report(account, previous, current, id, now);
            var typed := p.kind == "POSITION_TYPE_BUY" || p.kind == "POSITION_TYPE_SELL";
            && (id in current || id in previous) && outcome.Some?
            && (!typed <==> outcome == Some(Failure(UnknownType(p.kind))))
            && (outcome.value.Success? <==> typed && account.id != "" && id != "" && p.symbol != ""
                                            && (change.action == Open || change.action == Reduce ==> change.volume > 0.0))
  {
    hide Diff;
    DiffOfNothing();
    assert EventId(account.id, id, DiffOf(previous, current, id).value.action, now)[0] == 'm';
  }

  /** Whatever was reported so far tells and describes. */
  lemma ReportsTell(account: Account, previous: Book, current: Book, clock: string -> I64, done: set<string>, events: seq<TradeEvent>)
    requires Keyed(previous) && Keyed(current) && Reports(account, previous, current, clock, done, events)
    ensures forall event <- events :: Tells(account, previous, current, clock(event.sourceOrderId), event)
  {
    hide Report, Tells;
    forall event | event in events
      ensures Tells(account, previous, current, clock(event.sourceOrderId), event)
    {
      ReportNamesPosition(account, previous, current, event.sourceOrderId, clock(event.sourceOrderId));
    }
  }

  lemma ReportsOneMore(account: Account, previous: Book, current: Book, clock: string -> I64, done: set<string>, events: seq<TradeEvent>, id: string)
    requires Keyed(previous) && Keyed(current) && Reports(account, previous, current, clock, done, events) && id !in done
    ensures Report(account, previous, current, id, clock(id)).None? ==>
              Reports(account, previous, current, clock, done + {id}, events)
    ensures forall event :: Report(account, previous, current, id, clock(id)) == Some(Success(event)) ==>
              Reports(account, previous, current, clock, done + {id}, events + [event])
  {
    hide Report, ToEvent, EventId, Tells;
    forall event | Report(account, previous, current, id, clock(id)) == Some(Success(event))
      ensures Reports(account, previous, current, clock, done + {id}, events + [event])
    {
      ReportNamesPosition(account, previous, current, id, clock(id));
      var all := events + [event];
      assert all[|events|] == event && forall e <- events :: e in all;
    }
  }

  lemma VanishedIsClosed(account: Account, previous: Book, current: Book, id: string, now: I64)
    requires id in previous && id !in current
    ensures Report(account, previous, current, id, now)
         == Some(ToEvent(account, previous[id].(volume := 0.0), Change(Close, previous[id].volume, Some(0.0)), now))
  {
    hide ToEvent;
  }

  lemma NothingReported(account: Account, previous: Book, current: Book, clock: string -> I64)
    ensures Reports(account, previous, current, clock, {}, [])
  {
  }

  /** The two loops over the snapshots, in whatever order the maps yield their entries. */
  method EmitPositionDiffs(account: Account, previous: Book, current: Book, clock: string -> I64)
    returns (r: Result<(), VenueError>, events: seq<TradeEvent>)
    requires Keyed(previous) && Keyed(current)
    ensures forall event <- events :: Tells(account, previous, current, clock(event.sourceOrderId), event)
    ensures r.Success? ==> Complete(account, previous, current, clock, events)
    ensures r.Failure? ==> exists done, id :: Reports(account, previous, current, clock, done, events) && id !in done
                                              && Report(account, previous, current, id, clock(id)) == Some(Failure(r.error))
  {
    hide Reports, ToEvent, Diff, Tells;
    ghost var done: set<string> := {};
    events := [];
    NothingReported(account, previous, current, clock);
    var todo := current.Keys;
    while todo != {}
      invariant todo <= current.Keys && done == current.Keys - todo
      invariant Reports(account, previous, current, clock, done, events)
    {
      var id :| id in todo;
      var position := current[id];
      var change := Diff(View(previous, id), Some(position.Quoted()));
      ReportsOneMore(account, previous, current, clock, done, events, id);
      if change.Some? {
        var event := ToEvent(account, position, change.value, clock(id));
        if event.Failure? {
          ReportsTell(account, previous, current, clock, done, events);
          return Failure(event.error), events;
        }
        events := events + [event.value];
      }
      todo := todo - {id};
      done := done + {id};
    }
    todo := previous.Keys;
    while todo != {}
      invariant todo <= previous.Keys && done == current.Keys + (previous.Keys - todo)
      invariant Reports(account, previous, current, clock, done, events)
    {
      var id :| id in todo;
      if id !in current {
        var closed := previous[id].(volume := 0.0);
        VanishedIsClosed(account, previous, current, id, clock(id));
        ReportsOneMore(account, previous, current, clock, done, events, id);
        var event := ToEvent(account, closed, Change(Close, previous[id].volume, Some(0.0)), clock(id));
        if event.Failure? {
          ReportsTell(account, previous, current, clock, done, events);
          return Failure(event.error), events;
        }
        events := events + [event.value];
      } else {
        assert done + {id} == done;
      }
      todo := todo - {id};
      done := done + {id};
    }
    assert done == previous.Keys + current.Keys;
    ReportsTell(account, previous, current, clock, done, events);
    r := Success(());
  }

  /* What the events of one poll say together. */

  /** The book's positions after an event, as a follower of the events sees them. */
  function Tracked(ids: set<string>, event: TradeEvent): set<string> {
    match event.action
    case Open => ids + {event.sourceOrderId}
    case Close => ids - {event.sourceOrderId}
    case _ => ids
  }

  function TrackedAll(ids: set<string>, events: seq<TradeEvent>): set<string> {
    if events == [] then ids else Tracked(TrackedAll(ids, events[..|events| - 1]), events[|events| - 1])
  }

  ghost predicate Complete(account: Account, previous: Book, current: Book, clock: string -> I64, events: seq<TradeEvent>) {
    Keyed(previous) && Keyed(current) && Reports(account, previous, current, clock, previous.Keys + current.Keys, events)
  }

  predicate About(events: seq<TradeEvent>, id: string) {
    exists event <- events :: event.sourceOrderId == id
  }

  predicate OncePerPosition(events: seq<TradeEvent>) {
    forall i, j :: 0 <= i < j < |events| ==> events[i].sourceOrderId != events[j].sourceOrderId
  }

  lemma LastIsNew(events: seq<TradeEvent>)
    requires events != [] && OncePerPosition(events)
    ensures !About(events[..|events| - 1], events[|events| - 1].sourceOrderId)
  {
    var init, last := events[..|events| - 1], events[|events| - 1];
    forall event | event in init
      ensures event.sourceOrderId != last.sourceOrderId
    {
      var i :| 0 <= i < |init| && init[i] == event;
      assert events[i].sourceOrderId != events[|init|].sourceOrderId;
    }
  }

  lemma {:induction false} Untracked(ids: set<string>, events: seq<TradeEvent>, id: string)
    requires !About(events, id)
    ensures id in TrackedAll(ids, events) <==> id in ids
  {
    if events != [] {
      var init := events[..|events| - 1];
      assert events[|events| - 1] in events && forall event <- init :: event in events;
      Untracked(ids, init, id);
    }
  }

  lemma {:induction false} TrackedAfter(ids: set<string>, events: seq<TradeEvent>, k: nat)
    requires OncePerPosition(events) && k < |events|
    ensures var id := events[k].sourceOrderId;
            id in TrackedAll(ids, events) <==> events[k].action == Open || (events[k].action != Close && id in ids)
  {
    var init, last := events[..|events| - 1], events[|events| - 1];
    if k < |init| {
      assert last.sourceOrderId != events[k].sourceOrderId;
      TrackedAfter(ids, init, k);
    } else {
      LastIsNew(events);
      Untracked(ids, init, last.sourceOrderId);
    }
  }

  /** Whatever order a poll's events come in, applying them to the previous book's positions
      gives the current book's. */
  lemma EventsTrackBook(account: Account, previous: Book, current: Book, clock: string -> I64, events: seq<TradeEvent>)
    requires Complete(account, previous, current, clock, events)
    ensures TrackedAll(previous.Keys, events) == current.Keys
  {
    hide TrackedAll, Report, Diff;
    forall id: string
      ensures id in TrackedAll(previous.Keys, events) <==> id in current
    {
      EventsTrackPosition(account, previous, current, clock, events, id);
    }
  }

  lemma EventsTrackPosition(account: Account, previous: Book, current: Book, clock: string -> I64, events: seq<TradeEvent>, id: string)
    requires Complete(account, previous, current, clock, events)
    ensures id in TrackedAll(previous.Keys, events) <==> id in current
  {
    hide TrackedAll, ToEvent, Tells;
    if k :| 0 <= k < |events| && events[k].sourceOrderId == id {
      assert events[k] in events;
      TrackedAfter(previous.Keys, events, k);
      ReportNamesPosition(account, previous, current, id, clock(id));
    } else {
      Untracked(previous.Keys, events, id);
      assert id in previous || id in current ==> Report(account, previous, current, id, clock(id)).None?;
    }
  }

  /* Whole runs of polls. */

  /** The volume reported of a position by events of one kind. */
  function Volume(events: seq<TradeEvent>, id: string, action: TradeAction): real {
    if events == [] then 0.0
    else
      var last := events[|events| - 1];
      Volume(events[..|events| - 1], id, action) + if last.sourceOrderId == id && last.action == action then last.volume else 0.0
  }

  lemma {:induction false} VolumeOfOne(events: seq<TradeEvent>, id: string, action: TradeAction)
    requires OncePerPosition(events)
    ensures !About(events, id) ==> Volume(events, id, action) == 0.0
    ensures forall event <- events :: event.sourceOrderId == id ==>
              Volume(events, id, action) == if event.action == action then event.volume else 0.0
  {
    if events != [] {
      var init, last := events[..|events| - 1], events[|events| - 1];
      VolumeOfOne(init, id, action);
      assert events == init + [last];
      assert forall event <- init :: event in events;
      LastIsNew(events);
    }
  }

  lemma PollVolume(account: Account, previous: Book, current: Book, clock: string -> I64, events: seq<TradeEvent>, id: string, action: TradeAction)
    requires Complete(account, previous, current, clock, events)
    ensures var change := DiffOf(previous, current, id);
            Volume(events, id, action) == if change.Some? && change.value.action == action then change.value.volume else 0.0
  {
    hide ToEvent, Tells;
    VolumeOfOne(events, id, action);
    if event :| event in events && event.sourceOrderId == id {
      ReportNamesPosition(account, previous, current, id, clock(id));
    } else if id in previous || id in current {
      assert Report(account, previous, current, id, clock(id)).None?;
    }
  }

  function Views(books: seq<Book>, id: string): (views: Positions.Views)
    ensures |views| == |books|
    ensures forall i :: 0 <= i < |views| ==> views[i] == View(books[i], id)
  {
    seq(|books|, i requires 0 <= i < |books| => View(books[i], id))
  }

  /** The volume reported of a position over a run, by events of one kind. */
  function TotalVolume(emitted: seq<seq<TradeEvent>>, id: string, action: TradeAction): real {
    if emitted == [] then 0.0
    else TotalVolume(emitted[..|emitted| - 1], id, action) + Volume(emitted[|emitted| - 1], id, action)
  }

  /** Each poll's events report the step from the book before it to the book it fetched. */
  ghost predicate Polled(account: Account, books: seq<Book>, clocks: seq<string -> I64>, emitted: seq<seq<TradeEvent>>) {
    && |books| == |emitted| + 1 == |clocks| + 1
    && forall i :: 0 <= i < |emitted| ==> Complete(account, books[i], books[i + 1], clocks[i], emitted[i])
  }

  lemma PolledPrefix(account: Account, books: seq<Book>, clocks: seq<string -> I64>, emitted: seq<seq<TradeEvent>>, n: nat)
    requires Polled(account, books, clocks, emitted) && |emitted| == n + 1
    ensures Polled(account, books[..n + 1], clocks[..n], emitted[..n])
    ensures Complete(account, books[n], books[n + 1], clocks[n], emitted[n])
  {
    hide Complete;
  }

  lemma {:induction false} EventsReportViews(account: Account, books: seq<Book>, clocks: seq<string -> I64>, emitted: seq<seq<TradeEvent>>, id: string, action: TradeAction)
    requires Polled(account, books, clocks, emitted)
    ensures TotalVolume(emitted, id, action) == Reported(Views(books, id), action)
    decreases |emitted|
  {
    hide Complete, Diff, Volume, View;
    if emitted != [] {
      var n := |emitted| - 1;
      PolledPrefix(account, books, clocks, emitted, n);
      EventsReportViews(account, books[..n + 1], clocks[..n], emitted[..n], id, action);
      PollVolume(account, books[n], books[n + 1], clocks[n], emitted[n], id, action);
      assert Views(books, id)[..n + 1] == Views(books[..n + 1], id);
    }
  }

  lemma {:induction false} FewerStills(views: Positions.Views)
    requires |views| >= 1
    ensures Stills(views) < |views|
  {
    if |views| >= 2 {
      FewerStills(views[..|views| - 1]);
    }
  }

  /** Over any run of polls, a position that appears and disappears without scaling in is reported
      as opened with the volume it is reported reduced and closed with, to within one machine
      epsilon for each poll it did not move in. */
  lemma RunConservesVolume(account: Account, books: seq<Book>, clocks: seq<string -> I64>, emitted: seq<seq<TradeEvent>>, id: string)
    requires Polled(account, books, clocks, emitted)
    requires id !in books[0] && id !in books[|books| - 1] && NeverGrows(Views(books, id))
    ensures Abs(TotalVolume(emitted, id, Open) - TotalVolume(emitted, id, Reduce) - TotalVolume(emitted, id, Close))
         <= |emitted| as real * EPSILON
  {
    hide Reported, Growth, Stills, Step, TotalVolume, NeverGrows;
    EventsReportViews(account, books, clocks, emitted, id, Open);
    EventsReportViews(account, books, clocks, emitted, id, Reduce);
    EventsReportViews(account, books, clocks, emitted, id, Close);
    OpenedIsReducedAndClosed(Views(books, id));
    FewerStills(Views(books, id));
    MoreEpsilons(Stills(Views(books, id)), |emitted|);
  }

  lemma MoreEpsilons(a: nat, b: nat)
    requires a <= b
    ensures a as real * EPSILON <= b as real * EPSILON
  {
  }

  class MetaApiVenue {
    const account: Account
    var known: Book
    ghost var books: seq<Book>
    ghost var clocks: seq<string -> I64>
    ghost var emitted: seq<seq<TradeEvent>>

    ghost predicate Valid()
      reads this
    {
      Polled(account, books, clocks, emitted) && known == books[|books| - 1] && Keyed(known)
    }

    /** Without an initial snapshot the venue starts empty. */
    constructor (account: Account, initial: Option<seq<Position>>)
      ensures Valid() && this.account == account && emitted == []
      ensures known == if initial.Some? then IndexPositions(initial.value) else map[]
    {
      this.account := account;
      known := if initial.Some? then IndexPositions(initial.value) else map[];
      books := [if initial.Some? then IndexPositions(initial.value) else map[]];
      clocks, emitted := [], [];
    }

    /** One tick. `events` is what was handed to the daemon. A failed fetch is passed over; an event
        that cannot be made ends the venue with the book it had, after some of the differences were
        handed over; otherwise exactly the differences are. */
    method Poll(fetched: Option<seq<Position>>, clock: string -> I64) returns (r: Result<(), VenueError>, events: seq<TradeEvent>)
      requires Valid()
      modifies this
      ensures Valid()
      ensures !account.canPublish || fetched.None? ==> r == Success(()) && events == []
      ensures !account.canPublish || fetched.None? || r.Failure? ==> known == old(known) && books == old(books) && emitted == old(emitted)
      ensures r.Failure? ==> fetched.Some? && exists done, id ::
                && Reports(account, known, IndexPositions(fetched.value), clock, done, events) && id !in done
                && Report(account, known, IndexPositions(fetched.value), id, clock(id)) == Some(Failure(r.error))
      ensures fetched.Some? ==> forall event <- events :: Tells(account, old(known), IndexPositions(fetched.value), clock(event.sourceOrderId), event)
      ensures account.canPublish && fetched.Some? && r.Success? ==>
                known == IndexPositions(fetched.value) && books == old(books) + [known] && emitted == old(emitted) + [events]
    {
      hide Report, Reports, Tells;
      if !account.canPublish || fetched.None? {
        return Success(()), [];
      }
      var current := IndexPositions(fetched.value);
      r, events := EmitPositionDiffs(account, known, current, clock);
      if r.Failure? {
        return;
      }
      known := current;
      books, clocks, emitted := books + [current], clocks + [clock], emitted + [events];
    }
  }

  /* Names. */

  lemma ActionNames(a: TradeAction, b: TradeAction)
    ensures ':' !in Wire.ShowAction(a)
    ensures Wire.ShowAction(a) == Wire.ShowAction(b) <==> a == b
  {
    assert Wire.ShowAction(a)[0] == Wire.ShowAction(b)[0] <==> a == b;
  }

  /** The ids of one account's events name the position, the action and the time, whatever
      characters position ids hold. */
  lemma EventIdInjective(account: string, p: string, a: TradeAction, t: I64, q: string, b: TradeAction, u: I64)
    ensures EventId(account, p, a, t) == EventId(account, q, b, u) <==> p == q && a == b && t == u
  {
    if EventId(account, p, a, t) == EventId(account, q, b, u) {
      var head := "metaapi:" + account + ":";
      Decimal.PrintedChars(t);
      Decimal.PrintedChars(u);
      ActionNames(a, b);
      Keys.SplitAtLast(':', head + p + ":" + Wire.ShowAction(a), Decimal.Print(t), head + q + ":" + Wire.ShowAction(b), Decimal.Print(u));
      Keys.SplitAtLast(':', head + p, Wire.ShowAction(a), head + q, Wire.ShowAction(b));
      assert (head + p)[|head|..] == p && (head + q)[|head|..] == q;
      Decimal.PrintInjective(t, u);
    }
  }

  /** Events of one poll have different ids, so none is taken for a repetition of another. */
  lemma PollIdsDiffer(account: Account, previous: Book, current: Book, clock: string -> I64, events: seq<TradeEvent>, i: nat, j: nat)
    requires Complete(account, previous, current, clock, events) && i < j < |events|
    ensures events[i].eventId != events[j].eventId
  {
    hide EventId, Report;
    var x, y := events[i].sourceOrderId, events[j].sourceOrderId;
    assert events[i] in events && events[j] in events;
    ReportNamesPosition(account, previous, current, x, clock(x));
    ReportNamesPosition(account, previous, current, y, clock(y));
    EventIdInjective(account.id, x, events[i].action, clock(x), y, events[j].action, clock(y));
  }
}
