/** The append-only journal and the state replayed from it (crates/copier-daemon/src/journal.rs). */
module Journal {
  import opened Wrappers
  import opened Model

  datatype StoredCommandState = Queued | Dispatched | Unknown

  datatype StoredCommand = StoredCommand(command: ExecutionCommand, state: StoredCommandState)

  datatype MirrorMutation = Upsert(binding: MirrorBinding) | Remove(bindingKey: string) {
    function Key(): string {
      match this
      case Upsert(binding) => binding.BindingKey()
      case Remove(key) => key
    }
  }

  /** Timestamps and the free-text reason of a record are never read back and are dropped. */
  datatype JournalRecord =
    | EventPlanned(eventId: string, commands: seq<ExecutionCommand>)
    | CommandDispatched(commandId: string)
    | CommandUnknown(commandId: string)
    | AckApplied(ack: ExecutionAck, mirror: Option<MirrorMutation>)

  datatype Durability = NoDurability | Flush | Fsync

  type Commands = map<string, StoredCommand>

  /** The value of a `ReplayState`. */
  datatype Ledger = Ledger(seen: set<string>, commands: Commands, mirrors: map<string, MirrorBinding>)

  const EMPTY: Ledger := Ledger({}, map[], map[])

  /** `entry(..).or_insert_with(..)` for each planned command: the first holder of an id stays. */
  function Enqueue(commands: Commands, planned: seq<ExecutionCommand>): Commands {
    if planned == [] then commands
    else
      var rest, last := Enqueue(commands, planned[..|planned| - 1]), planned[|planned| - 1];
      if last.commandId in rest then rest else rest[last.commandId := StoredCommand(last, Queued)]
  }

  function Mark(commands: Commands, id: string, state: StoredCommandState): Commands {
    if id in commands then commands[id := commands[id].(state := state)] else commands
  }

  function Mutate(mirrors: map<string, MirrorBinding>, mutation: Option<MirrorMutation>): map<string, MirrorBinding> {
    match mutation
    case None => mirrors
    case Some(Upsert(binding)) => mirrors[binding.BindingKey() := binding]
    case Some(Remove(key)) => mirrors - {key}
  }

  function Applied(s: Ledger, record: JournalRecord): Ledger {
    match record
    case EventPlanned(id, planned) => s.(seen := s.seen + {id}, commands := Enqueue(s.commands, planned))
    case CommandDispatched(id) => s.(commands := Mark(s.commands, id, Dispatched))
    case CommandUnknown(id) => s.(commands := Mark(s.commands, id, StoredCommandState.Unknown))
    case AckApplied(ack, mirror) =>
      s.(commands := if ack.status == AckStatus.Unknown then Mark(s.commands, ack.commandId, StoredCommandState.Unknown)
                     else s.commands - {ack.commandId},
         mirrors := Mutate(s.mirrors, mirror))
  }

  function Settled(stored: StoredCommand): StoredCommand {
    if stored.state == Dispatched then stored.(state := StoredCommandState.Unknown) else stored
  }

  /** After a restart nobody knows what became of a dispatched command. */
  function Finalize(s: Ledger): Ledger {
    s.(commands := map id <- s.commands :: Settled(s.commands[id]))
  }

  /** Applies records in order, starting from `s`. */
  function Fold(s: Ledger, records: seq<JournalRecord>): Ledger {
    if records == [] then s
    else Applied(Fold(s, records[..|records| - 1]), records[|records| - 1])
  }

  function Replay(records: seq<JournalRecord>): Ledger {
    Fold(EMPTY, records)
  }

  /** What a daemon starts from. */
  function Recovered(records: seq<JournalRecord>): Ledger {
    Finalize(Replay(records))
  }

  class ReplayState {
    var seenEvents: set<string>
    var commands: Commands
    var mirrors: map<string, MirrorBinding>

    function View(): Ledger
      reads this
    {
      Ledger(seenEvents, commands, mirrors)
    }

    constructor ()
      ensures View() == EMPTY
    {
      seenEvents, commands, mirrors := {}, map[], map[];
    }

    method Apply(record: JournalRecord)
      modifies this
      ensures View() == Applied(old(View()), record)
    {
      match record
      case EventPlanned(id, planned) =>
        seenEvents := seenEvents + {id};
        ghost var before := commands;
        for i := 0 to |planned|
          invariant seenEvents == old(seenEvents) + {id} && mirrors == old(mirrors)
          invariant commands == Enqueue(before, planned[..i])
        {
          assert planned[..i + 1][..i] == planned[..i];
          if planned[i].commandId !in commands {
            commands := commands[planned[i].commandId := StoredCommand(planned[i], Queued)];
          }
        }
        assert planned[..|planned|] == planned;
      case CommandDispatched(id) =>
        SetState(id, Dispatched);
      case CommandUnknown(id) =>
        SetState(id, StoredCommandState.Unknown);
      case AckApplied(ack, mirror) =>
        if ack.status == AckStatus.Unknown {
          SetState(ack.commandId, StoredCommandState.Unknown);
        } else {
          commands := commands - {ack.commandId};
        }
        match mirror {
          case None =>
          case Some(Upsert(binding)) => mirrors := mirrors[binding.BindingKey() := binding];
          case Some(Remove(key)) => mirrors := mirrors - {key};
        }
    }

    method SetState(id: string, state: StoredCommandState)
      modifies this`commands
      ensures commands == Mark(old(commands), id, state)
    {
      if id in commands {
        commands := commands[id := commands[id].(state := state)];
      }
    }

    method FinalizeAfterReplay()
      modifies this`commands
      ensures View() == Finalize(old(View()))
    {
      var todo := commands.Keys;
      while todo != {}
        invariant todo <= commands.Keys == old(commands).Keys
        invariant forall id <- commands ::
                    commands[id] == if id in todo then old(commands)[id] else Settled(old(commands)[id])
      {
        var id :| id in todo;
        if commands[id].state == Dispatched {
          commands := commands[id := commands[id].(state := StoredCommandState.Unknown)];
        }
        todo := todo - {id};
      }
    }
  }

  class JournalFile {
    const durability: Durability
    var records: seq<JournalRecord>

    constructor (durability: Durability, records: seq<JournalRecord>)
      ensures this.durability == durability && this.records == records
    {
      this.durability, this.records := durability, records;
    }

    /** Appending is silent without durability. */
    method Append(record: JournalRecord)
      modifies this
      ensures records == if durability == NoDurability then old(records) else old(records) + [record]
    {
      if durability == NoDurability {
        return;
      }
      records := records + [record];
    }
  }

  method ReplayFile(records: seq<JournalRecord>) returns (replay: ReplayState)
    ensures fresh(replay) && replay.View() == Replay(records)
  {
    replay := new ReplayState();
    for i := 0 to |records|
      invariant fresh(replay) && replay.View() == Replay(records[..i])
    {
      assert records[..i + 1][..i] == records[..i];
      replay.Apply(records[i]);
    }
    assert records[..|records|] == records;
  }

  method OpenJournal(durability: Durability, records: seq<JournalRecord>) returns (file: JournalFile, replay: ReplayState)
    ensures fresh(file) && fresh(replay)
    ensures file.durability == durability && file.records == records
    ensures replay.View() == Recovered(records)
  {
    replay := ReplayFile(records);
    replay.FinalizeAfterReplay();
    file := new JournalFile(durability, records);
  }

  /* Recovery. */

  /** Equal but for what a restart makes of dispatched commands. */
  predicate Agree(a: Ledger, b: Ledger) {
    Finalize(a) == Finalize(b)
  }

  lemma EnqueueKeys(commands: Commands, planned: seq<ExecutionCommand>)
    ensures Enqueue(commands, planned).Keys == commands.Keys + set c <- planned :: c.commandId
    ensures forall id <- commands :: Enqueue(commands, planned)[id] == commands[id]
    ensures forall id <- Enqueue(commands, planned) :: id !in commands ==>
      Enqueue(commands, planned)[id].state == Queued && Enqueue(commands, planned)[id].command in planned
      && Enqueue(commands, planned)[id].command.commandId == id
  {
  }

  /** What a fresh id is bound to depends on the plan alone. */
  lemma {:induction false} EnqueueFresh(a: Commands, b: Commands, planned: seq<ExecutionCommand>, id: string)
    requires id !in a && id !in b && id in Enqueue(a, planned)
    ensures id in Enqueue(b, planned) && Enqueue(b, planned)[id] == Enqueue(a, planned)[id]
    decreases |planned|
  {
    var init := planned[..|planned| - 1];
    if id in Enqueue(a, init) {
      EnqueueFresh(a, b, init, id);
    } else if id in Enqueue(b, init) {
      EnqueueFresh(b, a, init, id);
    }
  }

  lemma FinalizeThenPlan(s: Ledger, planned: seq<ExecutionCommand>)
    ensures Finalize(Applied(Finalize(s), EventPlanned("", planned))).commands
         == Finalize(Applied(s, EventPlanned("", planned))).commands
  {
    var a, b := Enqueue(Finalize(s).commands, planned), Enqueue(s.commands, planned);
    EnqueueKeys(s.commands, planned);
    EnqueueKeys(Finalize(s).commands, planned);
    assert a.Keys == b.Keys;
    forall id | id in b
      ensures Settled(a[id]) == Settled(b[id])
    {
      if id !in s.commands {
        EnqueueFresh(s.commands, Finalize(s).commands, planned, id);
      } else {
        assert a[id] == Settled(s.commands[id]) && b[id] == s.commands[id];
      }
    }
  }

  lemma FinalizeThenMark(s: Ledger, id: string, state: StoredCommandState)
    ensures Finalize(Finalize(s).(commands := Mark(Finalize(s).commands, id, state)))
         == Finalize(s.(commands := Mark(s.commands, id, state)))
  {
    var a, b := Mark(Finalize(s).commands, id, state), Mark(s.commands, id, state);
    assert a.Keys == b.Keys;
    assert forall k <- b :: Settled(a[k]) == Settled(b[k]);
  }

  /** Finalising can be postponed past any record. */
  lemma FinalizeThenApply(s: Ledger, record: JournalRecord)
    ensures Finalize(Applied(Finalize(s), record)) == Finalize(Applied(s, record))
  {
    match record
    case EventPlanned(_, planned) =>
      FinalizeThenPlan(s, planned);
    case CommandDispatched(id) =>
      FinalizeThenMark(s, id, Dispatched);
    case CommandUnknown(id) =>
      FinalizeThenMark(s, id, StoredCommandState.Unknown);
    case AckApplied(ack, _) =>
      FinalizeThenMark(s, ack.commandId, StoredCommandState.Unknown);
      assert Finalize(s).commands - {ack.commandId} == Finalize(s.(commands := s.commands - {ack.commandId})).commands;
      FinalizeIdempotent(s.(commands := s.commands - {ack.commandId}));
  }

  lemma ApplyAgree(a: Ledger, b: Ledger, record: JournalRecord)
    requires Agree(a, b)
    ensures Agree(Applied(a, record), Applied(b, record))
  {
    FinalizeThenApply(a, record);
    FinalizeThenApply(b, record);
  }

  lemma {:induction false} FoldAgree(a: Ledger, b: Ledger, records: seq<JournalRecord>)
    requires Agree(a, b)
    ensures Agree(Fold(a, records), Fold(b, records))
  {
    if records != [] {
      var init := records[..|records| - 1];
      FoldAgree(a, b, init);
      ApplyAgree(Fold(a, init), Fold(b, init), records[|records| - 1]);
    }
  }

  lemma FinalizeIdempotent(s: Ledger)
    ensures Finalize(Finalize(s)) == Finalize(s)
  {
    assert Finalize(Finalize(s)).commands == Finalize(s).commands;
  }

  lemma {:induction false} FoldConcat(s: Ledger, first: seq<JournalRecord>, second: seq<JournalRecord>)
    ensures Fold(s, first + second) == Fold(Fold(s, first), second)
  {
    hide Applied;
    if second == [] {
      ConcatNothing(first);
    } else {
      ConcatInit(first, second);
      FoldConcat(s, first, second[..|second| - 1]);
    }
  }

  /** The state after the last of several runs, each of which started from what the previous
      one had left, without ever journaling the rewrite done at the restart. */
  function AfterRuns(runs: seq<seq<JournalRecord>>): Ledger {
    if runs == [] then EMPTY
    else Finalize(Fold(AfterRuns(runs[..|runs| - 1]), runs[|runs| - 1]))
  }

  function Flatten(runs: seq<seq<JournalRecord>>): seq<JournalRecord> {
    if runs == [] then [] else Flatten(runs[..|runs| - 1]) + runs[|runs| - 1]
  }

  /** Recovery composes: however a journal is cut into runs by restarts, replaying it whole
      gives the state those runs went through. */
  lemma {:induction false} RecoveryComposes(runs: seq<seq<JournalRecord>>)
    ensures AfterRuns(runs) == Recovered(Flatten(runs))
  {
    if runs == [] {
      assert Finalize(EMPTY).commands == EMPTY.commands;
    } else {
      var init, last := runs[..|runs| - 1], runs[|runs| - 1];
      RecoveryComposes(init);
      FoldConcat(EMPTY, Flatten(init), last);
      FinalizeIdempotent(Replay(Flatten(init)));
      FoldAgree(Recovered(Flatten(init)), Replay(Flatten(init)), last);
    }
  }
}
