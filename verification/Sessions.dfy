/** Session ids (crates/copier-daemon/src/runtime.rs): what connects, reconnects and late disconnects make
    of the session table over whole runs. */
module Sessions {
  import opened Wrappers
  import opened Model
  import opened Routing
  import opened Journal
  import opened Handlers
  import opened Runs

  /* What one handler does to the table. */

  ghost predicate LeavesSessions(effects: seq<Effect>) {
    forall effect <- effects :: !effect.OpenSession? && !effect.CloseSession?
  }

  lemma {:induction false} SessionsKept(durability: Durability, s: System, effects: seq<Effect>)
    requires LeavesSessions(effects)
    ensures Exec(durability, s, effects).sessions == s.sessions && Exec(durability, s, effects).nextSession == s.nextSession
  {
    if effects != [] {
      var init, last := effects[..|effects| - 1], effects[|effects| - 1];
      assert last in effects && forall effect <- init :: effect in effects;
      SessionsKept(durability, s, init);
    }
  }

  lemma {:induction false} DispatchingLeaves(sessions: map<string, nat>, commands: seq<ExecutionCommand>, accepted: set<string>)
    ensures LeavesSessions(DispatchAll(sessions, commands, accepted))
  {
    if commands != [] {
      DispatchingLeaves(sessions, commands[..|commands| - 1], accepted);
    }
  }

  lemma {:induction false} MarkingLeaves(ids: seq<string>)
    ensures LeavesSessions(MarkAll(ids))
  {
    if ids != [] {
      MarkingLeaves(ids[..|ids| - 1]);
    }
  }

  lemma FrameLeaves(cfg: Config, s: System, connected: string, frame: AgentFrame, now: I64, accepted: set<string>)
    requires cfg.Usable()
    ensures LeavesSessions(Effects(cfg, s, Frame(connected, frame, now, accepted)))
  {
    hide PlanEvent, RouteRule.Usable, AckRecord, DispatchAll;
    if frame.Event? {
      forall planned {
        DispatchingLeaves(s.sessions, planned, accepted);
      }
    }
  }

  /** Connecting puts the account under the next number, which is used up; a disconnect removes the
      account if the number is still its own; nothing else touches the table. */
  lemma MoveSessions(cfg: Config, s: System, input: Input)
    requires cfg.Usable()
    ensures var after := After(cfg, s, Complete(input));
            match input
            case Register(account) => after.sessions == s.sessions[account := s.nextSession] && after.nextSession == s.nextSession + 1
            case Unregister(account, id, _, _) =>
              && after.sessions == (if account in s.sessions && s.sessions[account] == id then s.sessions - {account} else s.sessions)
              && after.nextSession == s.nextSession
            case _ => after.sessions == s.sessions && after.nextSession == s.nextSession
  {
    match input
    case Frame(connected, frame, now, accepted) =>
      FrameLeaves(cfg, s, connected, frame, now, accepted);
      SessionsKept(cfg.durability, s, Effects(cfg, s, input));
    case Register(account) =>
      ExecOne(cfg.durability, s, OpenSession(account));
    case DispatchQueued(_, order, _, accepted) =>
      DispatchingLeaves(s.sessions, order, accepted);
      SessionsKept(cfg.durability, s, Effects(cfg, s, input));
    case Unregister(account, id, order, _) =>
      if Current(s, account, id) {
        ExecOne(cfg.durability, s, CloseSession(account));
        ExecConcat(cfg.durability, s, [CloseSession(account)], MarkAll(Ids(order)));
        MarkingLeaves(Ids(order));
        SessionsKept(cfg.durability, Do(cfg.durability, s, CloseSession(account)), MarkAll(Ids(order)));
      }
  }

  /* Whole runs. */

  /** Registered numbers have been handed out, and no two accounts share one. */
  predicate Numbered(s: System) {
    && (forall account <- s.sessions :: s.sessions[account] < s.nextSession)
    && (forall a <- s.sessions, b <- s.sessions :: s.sessions[a] == s.sessions[b] ==> a == b)
  }

  lemma {:induction false} SessionsStayNumbered(cfg: Config, moves: seq<Move>)
    requires cfg.Usable() && CanRun(cfg, moves)
    ensures Numbered(Run(cfg, moves))
  {
    if moves != [] {
      var init, move := moves[..|moves| - 1], moves[|moves| - 1];
      SessionsStayNumbered(cfg, init);
      if move.Complete? {
        MoveSessions(cfg, Run(cfg, init), move.input);
      }
    }
  }

  /** No restart among the moves from `from` on. */
  predicate OneProcess(moves: seq<Move>, from: nat) {
    forall k :: from <= k < |moves| ==> moves[k].Complete?
  }

  predicate Connects(moves: seq<Move>, k: nat, account: string) {
    k < |moves| && moves[k] == Complete(Register(account))
  }

  /** The number a connect was given: what its account is registered under right after it. */
  function Given(cfg: Config, moves: seq<Move>, k: nat, account: string): nat
    requires cfg.Usable() && Connects(moves, k, account)
  {
    MoveSessions(cfg, Run(cfg, moves[..k]), Register(account));
    assert moves[..k + 1][..k] == moves[..k];
    Run(cfg, moves[..k + 1]).sessions[account]
  }

  lemma RunSnoc(cfg: Config, moves: seq<Move>, k: nat)
    requires cfg.Usable() && k < |moves|
    ensures Run(cfg, moves[..k + 1]) == After(cfg, Run(cfg, moves[..k]), moves[k])
  {
    assert moves[..k + 1][..k] == moves[..k];
  }

  lemma GivenIsNext(cfg: Config, moves: seq<Move>, k: nat, account: string)
    requires cfg.Usable() && Connects(moves, k, account)
    ensures Given(cfg, moves, k, account) == Run(cfg, moves[..k]).nextSession
    ensures Run(cfg, moves[..k + 1]).nextSession == Given(cfg, moves, k, account) + 1
    ensures Current(Run(cfg, moves[..k + 1]), account, Given(cfg, moves, k, account))
  {
    RunSnoc(cfg, moves, k);
    MoveSessions(cfg, Run(cfg, moves[..k]), Register(account));
  }

  lemma {:induction false} NumbersGrow(cfg: Config, moves: seq<Move>, i: nat, j: nat)
    requires cfg.Usable() && i <= j <= |moves| && OneProcess(moves, i)
    ensures Run(cfg, moves[..i]).nextSession <= Run(cfg, moves[..j]).nextSession
    decreases j
  {
    hide Run, After, RouteRule.Usable;
    if i < j {
      NumbersGrow(cfg, moves, i, j - 1);
      RunSnoc(cfg, moves, j - 1);
      MoveSessions(cfg, Run(cfg, moves[..j - 1]), moves[j - 1].input);
    }
  }

  /** Between restarts no number is given twice, to whatever accounts. */
  lemma NumbersDiffer(cfg: Config, moves: seq<Move>, i: nat, a: string, j: nat, b: string)
    requires cfg.Usable() && i < j && Connects(moves, i, a) && Connects(moves, j, b) && OneProcess(moves, i)
    ensures Given(cfg, moves, i, a) < Given(cfg, moves, j, b)
  {
    GivenIsNext(cfg, moves, i, a);
    GivenIsNext(cfg, moves, j, b);
    NumbersGrow(cfg, moves, i + 1, j);
  }

  /** The move gives the account another number or hands back this one. */
  predicate Ends(move: Move, account: string, id: nat) {
    match move.input
    case Register(other) => other == account
    case Unregister(other, given, _, _) => other == account && given == id
    case _ => false
  }

  /** A number stays its account's exactly until the account connects anew or the number is handed back. */
  lemma {:induction false} CurrentUntil(cfg: Config, moves: seq<Move>, k: nat, account: string)
    requires cfg.Usable() && Connects(moves, k, account) && OneProcess(moves, k)
    ensures Current(Run(cfg, moves), account, Given(cfg, moves, k, account))
       <==> forall j :: k < j < |moves| ==> !Ends(moves[j], account, Given(cfg, moves, k, account))
    decreases |moves|
  {
    hide Run, After, RouteRule.Usable, Ends;
    GivenIsNext(cfg, moves, k, account);
    assert moves[..|moves|] == moves;
    if k + 1 < |moves| {
      var n := |moves| - 1;
      var init, last := moves[..n], moves[n];
      assert init[..k] == moves[..k] && init[..k + 1] == moves[..k + 1];
      CurrentUntil(cfg, init, k, account);
      NumbersGrow(cfg, moves, k + 1, n);
      RunSnoc(cfg, moves, n);
      StaysCurrent(cfg, Run(cfg, init), last.input, account, Given(cfg, moves, k, account));
    }
  }

  lemma StaysCurrent(cfg: Config, s: System, input: Input, account: string, id: nat)
    requires cfg.Usable() && id < s.nextSession
    ensures Current(After(cfg, s, Complete(input)), account, id) <==> Current(s, account, id) && !Ends(Complete(input), account, id)
  {
    hide After, RouteRule.Usable;
    MoveSessions(cfg, s, input);
  }

  /** The cleanup of a connection that was superseded, or already cleaned up, changes nothing. */
  lemma LateDisconnectIgnored(cfg: Config, moves: seq<Move>, i: nat, j: nat, account: string, order: seq<ExecutionCommand>, keys: seq<string>)
    requires cfg.Usable() && i < j < |moves| && Connects(moves, i, account) && OneProcess(moves, i)
    requires Ends(moves[j], account, Given(cfg, moves, i, account))
    ensures After(cfg, Run(cfg, moves), Complete(Unregister(account, Given(cfg, moves, i, account), order, keys))) == Run(cfg, moves)
  {
    CurrentUntil(cfg, moves, i, account);
  }
}
