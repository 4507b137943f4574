/** The theorems about the mirror book, for the live state of a running daemon: after any run,
    crashes and restarts included, and for whatever was sent in it. */
module Reachable {
  import opened Wrappers
  import opened Model
  import opened Routing
  import opened Journal
  import opened Handlers
  import opened History
  import opened Runs
  import opened MirrorBook

  /** The live book says what the history of fills says. */
  lemma LiveBookIsHistory(cfg: Config, moves: seq<Move>, key: string)
    requires Sound(cfg) && CanRun(cfg, moves)
    ensures BookSays(Fills(Run(cfg, moves).journal), Run(cfg, moves).ledger.mirrors, key)
  {
    RunsKeepInv(cfg, moves);
    var s := Run(cfg, moves);
    LiveMeaning(s.ledger, Replay(s.journal));
    BookIsHistory(cfg, s.journal, key);
  }

  lemma GridCarries(cfg: Config, a: Ledger, b: Ledger)
    requires Agree(a, b) && OnTheGrid(cfg, b)
    ensures OnTheGrid(cfg, a)
  {
    LiveMeaning(a, b);
  }

  /** Live bindings and outstanding commands are on their route's grid, and no binding holds
      less than nothing or more than was opened. */
  lemma LiveBookOnGrid(cfg: Config, moves: seq<Move>)
    requires Sound(cfg) && Gridded(cfg.routes) && SeparatorFree(cfg.routes) && CanRun(cfg, moves)
    ensures OnTheGrid(cfg, Run(cfg, moves).ledger)
  {
    RunsKeepInv(cfg, moves);
    BookStaysOnGrid(cfg, Run(cfg, moves).journal);
    GridCarries(cfg, Run(cfg, moves).ledger, Replay(Run(cfg, moves).journal));
  }

  /** Whatever event comes next, the compiled table plans what a scan of the configuration
      would, and a modify, reduce or close is planned only where a binding names its order. */
  lemma LivePlanning(cfg: Config, moves: seq<Move>, event: TradeEvent, now: I64)
    requires Sound(cfg) && CanRun(cfg, moves)
    ensures var s := Run(cfg, moves).ledger;
            var planned := Scan(cfg.digest, cfg.routes, s.mirrors, event, now);
            && PlanEvent(cfg, s.mirrors, event, now) == Success(planned)
            && forall c <- planned :: Follows(s, c) && c.sourceAccountId == event.sourceAccountId != c.targetAccountId
  {
    RunsKeepInv(cfg, moves);
    var s := Run(cfg, moves);
    LiveMeaning(s.ledger, Replay(s.journal));
    PlanningScansConfiguration(cfg, s.journal, event, now);
    var routes := ForSource(cfg.routes, event.sourceAccountId);
    PlanMakes(cfg.digest, routes, s.ledger.mirrors, event, now);
    forall c | c in Scan(cfg.digest, cfg.routes, s.ledger.mirrors, event, now)
      ensures Follows(s.ledger, c)
    {
      var route :| route in routes && Made(cfg.digest, s.ledger.mirrors, event, now, route, c);
      MadeFollows(cfg.digest, s.ledger, event, now, route, c);
    }
  }

  /* What was sent. */

  ghost predicate Planned(journal: seq<JournalRecord>, c: ExecutionCommand) {
    exists i :: 0 <= i < |journal| && journal[i].EventPlanned? && c in journal[i].commands
  }

  lemma PlannedStays(journal: seq<JournalRecord>, record: JournalRecord, c: ExecutionCommand)
    ensures Planned(journal, c) ==> Planned(journal + [record], c)
    ensures record.EventPlanned? && c in record.commands ==> Planned(journal + [record], c)
  {
    if Planned(journal, c) {
      var i :| 0 <= i < |journal| && journal[i].EventPlanned? && c in journal[i].commands;
      assert (journal + [record])[i] == journal[i];
    }
    assert (journal + [record])[|journal|] == record;
  }

  lemma {:induction false} StoredWerePlanned(journal: seq<JournalRecord>)
    ensures forall id <- Replay(journal).commands :: Planned(journal, Replay(journal).commands[id].command)
  {
    if journal != [] {
      var init, last := journal[..|journal| - 1], journal[|journal| - 1];
      StoredWerePlanned(init);
      assert journal == init + [last];
      forall c {
        PlannedStays(init, last, c);
      }
      AppliedStores(Replay(init), last, (id, c) => Planned(journal, c));
    }
  }

  ghost predicate SentWerePlanned(s: System) {
    forall c <- s.sent :: Planned(s.journal, c)
  }

  lemma EffectSendsPlanned(cfg: Config, s: System, effect: Effect)
    requires Sound(cfg) && Inv(cfg, s) && Legal(cfg, s, effect) && SentWerePlanned(s)
    ensures SentWerePlanned(Do(cfg.durability, s, effect))
  {
    match effect
    case Append(record) =>
      forall c {
        PlannedStays(s.journal, record, c);
      }
    case Push(command) =>
      LiveMeaning(s.ledger, Replay(s.journal));
      StoredWerePlanned(s.journal);
    case _ =>
  }

  lemma {:induction false} EffectsSendPlanned(cfg: Config, s: System, effects: seq<Effect>)
    requires Sound(cfg) && Inv(cfg, s) && AllLegal(cfg, s, effects) && SentWerePlanned(s)
    ensures SentWerePlanned(Exec(cfg.durability, s, effects))
  {
    if effects != [] {
      var init := effects[..|effects| - 1];
      EffectsSendPlanned(cfg, s, init);
      InvExec(cfg, s, init);
      EffectSendsPlanned(cfg, Exec(cfg.durability, s, init), effects[|effects| - 1]);
    }
  }

  /** Only planned commands are ever sent. */
  lemma {:induction false} OnlyPlannedSent(cfg: Config, moves: seq<Move>)
    requires Sound(cfg) && CanRun(cfg, moves)
    ensures SentWerePlanned(Run(cfg, moves))
  {
    if moves != [] {
      var init, move := moves[..|moves| - 1], moves[|moves| - 1];
      var s := Run(cfg, init);
      OnlyPlannedSent(cfg, init);
      RunsKeepInv(cfg, init);
      InputLegal(cfg, s, move.input);
      var effects := Effects(cfg, s, move.input);
      if move.CrashDuring? {
        LegalPrefix(cfg, s, effects, move.at);
        EffectsSendPlanned(cfg, s, effects[..move.at]);
      } else {
        EffectsSendPlanned(cfg, s, effects);
      }
    }
  }

  lemma {:induction false} FillsStay(journal: seq<JournalRecord>, n: nat)
    requires n <= |journal|
    ensures forall fill <- Fills(journal[..n]) :: fill in Fills(journal)
  {
    if n < |journal| {
      var init := journal[..|journal| - 1];
      FillsStay(init, n);
      assert init[..n] == journal[..n];
    } else {
      assert journal[..n] == journal;
    }
  }

  /** Every modify, reduce or close the daemon ever sent names the order that an accepted or
      filled open of the same position reported. */
  lemma SentFollowUpsNameOpenedOrders(cfg: Config, moves: seq<Move>, command: ExecutionCommand)
    requires Sound(cfg) && SeparatorFree(cfg.routes) && CanRun(cfg, moves)
    requires command in Run(cfg, moves).sent && command.action != Open
    ensures exists open <- Fills(Run(cfg, moves).journal) ::
              open.command.action == Open && SamePosition(open.command, command) && open.ack.externalId == command.targetOrderId
  {
    RunsKeepInv(cfg, moves);
    OnlyPlannedSent(cfg, moves);
    var journal := Run(cfg, moves).journal;
    var i :| 0 <= i < |journal| && journal[i].EventPlanned? && command in journal[i].commands;
    FollowUpsNameOpenedOrders(cfg, journal, i, command);
    FillsStay(journal, i);
  }
}
