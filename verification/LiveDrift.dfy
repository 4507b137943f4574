/** The drift bound for the live book: partial closes of one position, each planned on the book and
    filled before the next, in the middle of everything else the daemon does. */
module LiveDrift {
  import opened Wrappers
  import opened Model
  import opened Rounding
  import opened Routing
  import opened Journal
  import opened Handlers
  import opened History
  import opened Runs
  import opened MirrorBook
  import opened Reachable
  import Confluence
  import Delivery
  import Drift
  import Keys

  /** One partial close as the journal shows it: its plan, the fill of its command if it has one, and
      whatever else was recorded before and after that fill. */
  datatype Episode = Episode(
    cut: Drift.Cut,
    planned: seq<ExecutionCommand>,
    before: seq<JournalRecord>,
    fill: Option<ExecutionAck>,
    mirror: Option<MirrorMutation>,
    after: seq<JournalRecord>)
  {
    function Plan(): JournalRecord {
      EventPlanned(cut.event.eventId, planned)
    }

    function Fill(): seq<JournalRecord> {
      if fill.Some? then [AckApplied(fill.value, mirror)] else []
    }

    function Records(): seq<JournalRecord> {
      [Plan()] + before + Fill() + after
    }
  }

  /** The records leave the binding of a position alone. */
  predicate Leave(records: seq<JournalRecord>, key: string) {
    forall r <- records :: Confluence.Mutation(r).Some? ==> Confluence.Mutation(r).value.Key() != key
  }

  function CutKey(route: RouteRule, cut: Drift.Cut): string {
    MirrorKey(cut.event.sourceAccountId, cut.event.sourceOrderId, route.targetAccountId)
  }

  /** The episode follows the state `s`: the cut is planned on its book, and the command `route` makes
      of it, if any, is the next thing that changes the position. */
  ghost predicate Continues(cfg: Config, s: Ledger, route: RouteRule, key: string, episode: Episode)
    requires cfg.Usable()
  {
    && route in cfg.routes && route.sourceAccountId == episode.cut.event.sourceAccountId && CutKey(route, episode.cut) == key
    && Drift.Admitted(route, episode.cut)
    && PlanEvent(cfg, s.mirrors, episode.cut.event, episode.cut.now) == Success(episode.planned)
    && Leave(episode.before, key) && Leave(episode.after, key)
    && match Build(cfg.digest, s.mirrors, episode.cut.event, route, episode.cut.now)
       case Success(Some(command)) => episode.fill.Some? && episode.fill.value.commandId == command.commandId && episode.fill.value.Fills()
       case _ => episode.fill.None?
  }

  function Flatten(episodes: seq<Episode>): seq<JournalRecord> {
    if episodes == [] then [] else Flatten(episodes[..|episodes| - 1]) + episodes[|episodes| - 1].Records()
  }

  function Cuts(episodes: seq<Episode>): (cuts: seq<Drift.Cut>)
    ensures |cuts| == |episodes|
    ensures forall i :: 0 <= i < |cuts| ==> cuts[i] == episodes[i].cut
  {
    seq(|episodes|, i requires 0 <= i < |episodes| => episodes[i].cut)
  }

  /** The journal goes on from `opening` with these episodes, one after the other. */
  ghost predicate Sequential(cfg: Config, opening: seq<JournalRecord>, route: RouteRule, key: string, episodes: seq<Episode>)
    requires cfg.Usable()
  {
    episodes != [] ==>
      var init, last := episodes[..|episodes| - 1], episodes[|episodes| - 1];
      && Sequential(cfg, opening, route, key, init)
      && Continues(cfg, Replay(opening + Flatten(init)), route, key, last)
  }

  /* One episode. */

  /** The position's binding. */
  function At(s: Ledger, key: string): Option<MirrorBinding> {
    Lookup(s.mirrors, key)
  }

  lemma {:induction false} LeaveFold(s: Ledger, records: seq<JournalRecord>, key: string)
    requires Leave(records, key)
    ensures At(Fold(s, records), key) == At(s, key)
  {
    if records != [] {
      LeaveFold(s, records[..|records| - 1], key);
      assert records[|records| - 1] in records;
    }
  }

  lemma LeavePrefix(journal: seq<JournalRecord>, records: seq<JournalRecord>, key: string)
    requires Leave(records, key)
    ensures At(Replay(journal + records), key) == At(Replay(journal), key)
  {
    FoldConcat(EMPTY, journal, records);
    LeaveFold(Replay(journal), records, key);
  }

  /** The command a route makes of an event is in its plan. */
  lemma {:induction false} MadeIsInPlan(digest: Digest, routes: seq<RouteRule>, mirrors: map<string, MirrorBinding>, event: TradeEvent, now: I64,
                                        route: RouteRule, c: ExecutionCommand)
    requires (forall r <- routes :: r.Usable()) && route in routes
    requires Plan(digest, routes, mirrors, event, now).Success? && Made(digest, mirrors, event, now, route, c)
    ensures c in Plan(digest, routes, mirrors, event, now).value
  {
    hide Build, RouteRule.Usable;
    var init, last := routes[..|routes| - 1], routes[|routes| - 1];
    if route in init {
      MadeIsInPlan(digest, init, mirrors, event, now, route, c);
    } else {
      assert route == last;
    }
  }

  /** The fill acknowledges the very command the route made. */
  lemma FillNamesCommand(cfg: Config, journal: seq<JournalRecord>, episode: Episode, c: ExecutionCommand)
    requires Sound(cfg) && WellFormed(cfg, journal) && c in episode.planned
    requires exists i :: 0 <= i < |journal| && journal[i] == episode.Plan()
    requires c.commandId in Replay(journal).commands
    ensures Replay(journal).commands[c.commandId].command == c
  {
    AlwaysConsistent(cfg, journal);
    StoredWerePlanned(journal);
    var stored := Replay(journal).commands[c.commandId].command;
    assert Held(cfg, Replay(journal).seen, c.commandId, stored);
    var i :| 0 <= i < |journal| && journal[i] == episode.Plan();
    assert journal[i].EventPlanned? && c in journal[i].commands;
    assert Planned(journal, c);
    Delivery.IdNamesCommand(cfg, journal, stored, c);
  }

  /** Filling the command reduces the binding by it. */
  lemma FillReduces(cfg: Config, journal: seq<JournalRecord>, episode: Episode, c: ExecutionCommand, key: string)
    requires Sound(cfg) && WellFormed(cfg, journal + episode.Fill()) && c in episode.planned && c.action == Reduce && c.Key() == key
    requires exists i :: 0 <= i < |journal| && journal[i] == episode.Plan()
    requires episode.fill.Some? && episode.fill.value.commandId == c.commandId && episode.fill.value.Fills()
    requires At(Replay(journal), key).Some?
    ensures At(Replay(journal + episode.Fill()), key) == Some(ReducedBinding(At(Replay(journal), key).value, c))
  {
    var all, record := journal + episode.Fill(), AckApplied(episode.fill.value, episode.mirror);
    assert all[..|journal|] == journal && all[|journal|] == record;
    WellFormedPrefix(cfg, all, |journal|);
    FillNamesCommand(cfg, journal, episode, c);
    AlwaysConsistent(cfg, journal);
    assert Booked(key, Replay(journal).mirrors[key]);
    assert record == AckRecord(Replay(journal).mirrors, c, episode.fill.value);
    assert Replay(all) == Applied(Replay(journal), record);
  }

  lemma SameCommand(cfg: Config, s: Ledger, route: RouteRule, key: string, cut: Drift.Cut)
    requires route.Usable() && CutKey(route, cut) == key && key in s.mirrors
    ensures Build(cfg.digest, s.mirrors, cut.event, route, cut.now)
         == BuildCommand(cfg.digest, cut.event, route, Some(s.mirrors[key]), cut.now)
  {
  }

  lemma MadeReduces(cfg: Config, s: Ledger, route: RouteRule, cut: Drift.Cut, c: ExecutionCommand)
    requires route.Usable() && Drift.Admitted(route, cut) && Made(cfg.digest, s.mirrors, cut.event, cut.now, route, c)
    ensures c.action == Reduce && c.Key() == CutKey(route, cut)
  {
  }

  /** An episode does to the live binding what the cut does to it on paper. */
  lemma EpisodeCuts(cfg: Config, journal: seq<JournalRecord>, route: RouteRule, key: string, episode: Episode)
    requires Sound(cfg) && WellFormed(cfg, journal + episode.Records()) && Continues(cfg, Replay(journal), route, key, episode)
    requires At(Replay(journal), key).Some?
    ensures At(Replay(journal + episode.Records()), key)
         == Some(Drift.AfterCut(cfg.digest, route, At(Replay(journal), key).value, episode.cut))
  {
    hide Drift.Admitted, Build, BuildCommand, WellFormed, RouteRule.Usable, Keys.CollisionFree;
    var s := Replay(journal);
    var b := s.mirrors[key];
    var first := journal + ([episode.Plan()] + episode.before);
    var second := first + episode.Fill();
    assert journal + episode.Records() == second + episode.after;
    assert Leave([episode.Plan()] + episode.before, key);
    LeavePrefix(journal, [episode.Plan()] + episode.before, key);
    LeavePrefix(second, episode.after, key);
    SameCommand(cfg, s, route, key, episode.cut);
    match Build(cfg.digest, s.mirrors, episode.cut.event, route, episode.cut.now)
    case Success(Some(c)) =>
      EpisodeFills(cfg, journal, route, key, episode, c);
    case _ =>
      assert second == first;
  }

  lemma EpisodeFills(cfg: Config, journal: seq<JournalRecord>, route: RouteRule, key: string, episode: Episode, c: ExecutionCommand)
    requires Sound(cfg) && WellFormed(cfg, journal + episode.Records()) && Continues(cfg, Replay(journal), route, key, episode)
    requires Made(cfg.digest, Replay(journal).mirrors, episode.cut.event, episode.cut.now, route, c)
    requires var first := journal + ([episode.Plan()] + episode.before);
             At(Replay(first), key) == At(Replay(journal), key) && At(Replay(journal), key).Some?
    ensures var first := journal + ([episode.Plan()] + episode.before);
            At(Replay(first + episode.Fill()), key) == Some(ReducedBinding(At(Replay(journal), key).value, c))
  {
    hide Drift.Admitted, Build, WellFormed, Leave;
    var first := journal + ([episode.Plan()] + episode.before);
    var all, second := journal + episode.Records(), first + episode.Fill();
    assert all == second + episode.after && all[..|second|] == second;
    WellFormedPrefix(cfg, all, |second|);
    MadeIsInPlan(cfg.digest, ForSource(cfg.routes, episode.cut.event.sourceAccountId), Replay(journal).mirrors,
                 episode.cut.event, episode.cut.now, route, c);
    MadeReduces(cfg, Replay(journal), route, episode.cut, c);
    assert first[|journal|] == episode.Plan();
    FillReduces(cfg, first, episode, c, key);
  }

  /* All of them. */

  /** However the partial closes are interleaved with other business, the live binding is what they
      make of it one after the other. */
  lemma {:induction false} EpisodesCut(cfg: Config, opening: seq<JournalRecord>, route: RouteRule, key: string, episodes: seq<Episode>)
    requires Sound(cfg) && route.Usable() && WellFormed(cfg, opening + Flatten(episodes)) && Sequential(cfg, opening, route, key, episodes)
    requires At(Replay(opening), key).Some?
    ensures At(Replay(opening + Flatten(episodes)), key)
         == Some(Drift.AfterCuts(cfg.digest, route, At(Replay(opening), key).value, Cuts(episodes)))
  {
    hide Continues, WellFormed, RouteRule.Usable, Keys.CollisionFree, Drift.AfterCut, Episode.Records;
    if episodes == [] {
      assert opening + Flatten(episodes) == opening;
    } else {
      var init, last := episodes[..|episodes| - 1], episodes[|episodes| - 1];
      var journal, all := opening + Flatten(init), opening + Flatten(episodes);
      assert all == journal + last.Records() && all[..|journal|] == journal;
      WellFormedPrefix(cfg, all, |journal|);
      EpisodesCut(cfg, opening, route, key, init);
      EpisodeCuts(cfg, journal, route, key, last);
      assert Cuts(episodes)[..|init|] == Cuts(init);
    }
  }

  lemma {:induction false} CutsAdmitted(cfg: Config, opening: seq<JournalRecord>, route: RouteRule, key: string, episodes: seq<Episode>)
    requires cfg.Usable() && Sequential(cfg, opening, route, key, episodes)
    ensures forall cut <- Cuts(episodes) :: Drift.Admitted(route, cut)
  {
    hide RouteRule.Usable, Build, PlanEvent, Drift.Admitted, Leave;
    if episodes != [] {
      var init := episodes[..|episodes| - 1];
      CutsAdmitted(cfg, opening, route, key, init);
      assert Cuts(episodes) == Cuts(init) + [episodes[|episodes| - 1].cut];
    }
  }

  lemma FreshIsCuttable(cfg: Config, opening: seq<JournalRecord>, route: RouteRule, key: string)
    requires Sound(cfg) && Gridded(cfg.routes) && SeparatorFree(cfg.routes) && WellFormed(cfg, opening)
    requires route in cfg.routes && At(Replay(opening), key).Some?
    requires var b := Replay(opening).mirrors[key]; b.sourceAccountId == route.sourceAccountId && b.targetAccountId == route.targetAccountId
    ensures Drift.Cuttable(route, Replay(opening).mirrors[key])
  {
    AlwaysConsistent(cfg, opening);
    BookStaysOnGrid(cfg, opening);
    var b := Replay(opening).mirrors[key];
    assert Booked(key, b) && GridBinding(cfg.routes, b);
  }

  /** In every state the daemon reaches: if, since a position was opened through a route, only partial
      closes changed it, each planned on the book and filled or dropped before the next and together
      no more than the source opened, the live binding's remaining volume is within half a step a
      close of the exact proportional share. */
  lemma LiveDriftBound(cfg: Config, moves: seq<Move>, opening: seq<JournalRecord>, route: RouteRule, key: string, episodes: seq<Episode>)
    requires Sound(cfg) && Gridded(cfg.routes) && SeparatorFree(cfg.routes) && CanRun(cfg, moves)
    requires Run(cfg, moves).journal == opening + Flatten(episodes) && Sequential(cfg, opening, route, key, episodes)
    requires route in cfg.routes && key in Replay(opening).mirrors
    requires var b := Replay(opening).mirrors[key];
             && b.sourceAccountId == route.sourceAccountId && b.targetAccountId == route.targetAccountId
             && b.targetRemainingVolume == b.targetOpenVolume && Drift.Total(Cuts(episodes)) <= b.sourceOpenVolume
    ensures var b, live := Replay(opening).mirrors[key], Run(cfg, moves).ledger.mirrors;
            && b.sourceOpenVolume > 0.0 && key in live
            && Within(live[key].targetRemainingVolume, Drift.Ideal(b, Drift.Total(Cuts(episodes))),
                      Steps(|episodes|, route.volumeStep / 2.0))
  {
    hide Sequential, Within, Steps, Drift.Ideal, Drift.AfterCuts, WellFormed, OnGrid, RouteRule.Validate;
    RunsKeepInv(cfg, moves);
    var s := Run(cfg, moves);
    LiveMeaning(s.ledger, Replay(s.journal));
    assert s.journal[..|opening|] == opening;
    WellFormedPrefix(cfg, s.journal, |opening|);
    FreshIsCuttable(cfg, opening, route, key);
    EpisodesCut(cfg, opening, route, key, episodes);
    CutsAdmitted(cfg, opening, route, key, episodes);
    Drift.DriftBound(cfg.digest, route, Replay(opening).mirrors[key], Cuts(episodes));
  }
}
