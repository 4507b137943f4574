/** Which journal records may change places. The file lock and the state lock are different
    locks, so records can be applied in another order than they were written; this module says
    exactly when that goes unnoticed after a restart. */
module Confluence {
  import opened Wrappers
  import opened Model
  import opened Journal

  function Names(record: JournalRecord): set<string> {
    match record
    case EventPlanned(_, _) => {}
    case CommandDispatched(id) => {id}
    case CommandUnknown(id) => {id}
    case AckApplied(ack, _) => {ack.commandId}
  }

  /** The command a plan stores under each id on an empty table. */
  function Stores(record: JournalRecord): Commands {
    if record.EventPlanned? then Enqueue(map[], record.commands) else map[]
  }

  function Mutation(record: JournalRecord): Option<MirrorMutation> {
    if record.AckApplied? then record.mirror else None
  }

  /** A plan and a record naming one of its commands, two plans storing different commands under
      one id, or two different mutations of one binding. */
  ghost predicate Clash(a: JournalRecord, b: JournalRecord) {
    || !(Names(a) !! Stores(b).Keys)
    || !(Names(b) !! Stores(a).Keys)
    || (exists id <- Stores(a) :: id in Stores(b) && Stores(a)[id] != Stores(b)[id])
    || (Mutation(a).Some? && Mutation(b).Some? && Mutation(a) != Mutation(b)
        && Mutation(a).value.Key() == Mutation(b).value.Key())
  }

  ghost predicate Commute(a: JournalRecord, b: JournalRecord) {
    forall s: Ledger :: Agree(Applied(Applied(s, a), b), Applied(Applied(s, b), a))
  }

  /** A command table entry after a record, in terms of the entry before it. */
  function Entry(commands: Commands, id: string): Option<StoredCommand> {
    if id in commands then Some(commands[id]) else None
  }

  function EntryAfter(entry: Option<StoredCommand>, record: JournalRecord, id: string): Option<StoredCommand> {
    if id in Stores(record) && entry.None? then Some(Stores(record)[id])
    else if id !in Names(record) || entry.None? then entry
    else if record.CommandDispatched? then Some(entry.value.(state := Dispatched))
    else if record.AckApplied? && record.ack.status != AckStatus.Unknown then None
    else Some(entry.value.(state := StoredCommandState.Unknown))
  }

  /** Records act on each entry separately. */
  lemma AppliedPointwise(s: Ledger, record: JournalRecord, id: string)
    ensures Entry(Applied(s, record).commands, id) == EntryAfter(Entry(s.commands, id), record, id)
  {
    if record.EventPlanned? {
      EnqueueKeys(s.commands, record.commands);
      EnqueueKeys(map[], record.commands);
      if id !in s.commands && id in Stores(record) {
        EnqueueFresh(map[], s.commands, record.commands, id);
      }
    }
  }

  function SettledEntry(entry: Option<StoredCommand>): Option<StoredCommand> {
    if entry.Some? then Some(Settled(entry.value)) else None
  }

  lemma AgreePointwise(a: Ledger, b: Ledger)
    requires a.seen == b.seen && a.mirrors == b.mirrors
    requires forall id :: SettledEntry(Entry(a.commands, id)) == SettledEntry(Entry(b.commands, id))
    ensures Agree(a, b)
  {
    forall id
      ensures id in a.commands <==> id in b.commands
      ensures id in a.commands ==> Settled(a.commands[id]) == Settled(b.commands[id])
    {
      assert SettledEntry(Entry(a.commands, id)) == SettledEntry(Entry(b.commands, id));
    }
    assert Finalize(a).commands == Finalize(b).commands;
  }

  lemma PointwiseAgree(a: Ledger, b: Ledger, id: string)
    requires Agree(a, b)
    ensures SettledEntry(Entry(a.commands, id)) == SettledEntry(Entry(b.commands, id))
  {
    assert Entry(Finalize(a).commands, id) == Entry(Finalize(b).commands, id);
  }

  lemma EntriesCommute(entry: Option<StoredCommand>, a: JournalRecord, b: JournalRecord, id: string)
    requires !Clash(a, b)
    ensures SettledEntry(EntryAfter(EntryAfter(entry, a, id), b, id))
         == SettledEntry(EntryAfter(EntryAfter(entry, b, id), a, id))
  {
    assert !(id in Names(a) && id in Stores(b)) && !(id in Names(b) && id in Stores(a));
    assert id in Stores(a) && id in Stores(b) ==> Stores(a)[id] == Stores(b)[id];
  }

  lemma MutationsCommute(mirrors: map<string, MirrorBinding>, a: JournalRecord, b: JournalRecord)
    requires !Clash(a, b)
    ensures Mutate(Mutate(mirrors, Mutation(a)), Mutation(b)) == Mutate(Mutate(mirrors, Mutation(b)), Mutation(a))
  {
    hide Stores, Names, MirrorKey;
  }

  lemma CommuteAt(s: Ledger, a: JournalRecord, b: JournalRecord, id: string)
    requires !Clash(a, b)
    ensures SettledEntry(Entry(Applied(Applied(s, a), b).commands, id)) == SettledEntry(Entry(Applied(Applied(s, b), a).commands, id))
  {
    hide Applied, Clash, Entry, EntryAfter;
    AppliedPointwise(s, a, id);
    AppliedPointwise(Applied(s, a), b, id);
    AppliedPointwise(s, b, id);
    AppliedPointwise(Applied(s, b), a, id);
    EntriesCommute(Entry(s.commands, id), a, b, id);
  }

  lemma SeenAndBooked(s: Ledger, record: JournalRecord)
    ensures Applied(s, record).seen == s.seen + if record.EventPlanned? then {record.eventId} else {}
    ensures Applied(s, record).mirrors == Mutate(s.mirrors, Mutation(record))
  {
  }

  lemma ClashlessCommute(a: JournalRecord, b: JournalRecord)
    requires !Clash(a, b)
    ensures Commute(a, b)
  {
    hide Applied, Clash, Mutate, Agree;
    forall s: Ledger
      ensures Agree(Applied(Applied(s, a), b), Applied(Applied(s, b), a))
    {
      var ab, ba := Applied(Applied(s, a), b), Applied(Applied(s, b), a);
      forall id {
        CommuteAt(s, a, b, id);
      }
      SeenAndBooked(s, a);
      SeenAndBooked(s, b);
      SeenAndBooked(Applied(s, a), b);
      SeenAndBooked(Applied(s, b), a);
      MutationsCommute(s.mirrors, a, b);
      AgreePointwise(ab, ba);
    }
  }

  lemma StoresQueued(record: JournalRecord)
    ensures forall id <- Stores(record) :: Stores(record)[id].state == Queued
  {
    if record.EventPlanned? {
      EnqueueKeys(map[], record.commands);
    }
  }

  lemma DisagreeAt(a: JournalRecord, b: JournalRecord, id: string)
    requires SettledEntry(EntryAfter(EntryAfter(None, a, id), b, id))
          != SettledEntry(EntryAfter(EntryAfter(None, b, id), a, id))
    ensures !Agree(Applied(Applied(EMPTY, a), b), Applied(Applied(EMPTY, b), a))
  {
    AppliedPointwise(EMPTY, a, id);
    AppliedPointwise(Applied(EMPTY, a), b, id);
    AppliedPointwise(EMPTY, b, id);
    AppliedPointwise(Applied(EMPTY, b), a, id);
    if Agree(Applied(Applied(EMPTY, a), b), Applied(Applied(EMPTY, b), a)) {
      PointwiseAgree(Applied(Applied(EMPTY, a), b), Applied(Applied(EMPTY, b), a), id);
    }
  }

  lemma MutationsDisagree(a: MirrorMutation, b: MirrorMutation)
    requires a != b && a.Key() == b.Key()
    ensures Mutate(Mutate(map[], Some(a)), Some(b)) != Mutate(Mutate(map[], Some(b)), Some(a))
  {
    var ab, ba := Mutate(Mutate(map[], Some(a)), Some(b)), Mutate(Mutate(map[], Some(b)), Some(a));
    assert a.Upsert? ==> a.Key() in ba && ba[a.Key()] == a.binding;
    assert b.Upsert? ==> b.Key() in ab && ab[b.Key()] == b.binding;
    assert a.Remove? ==> a.Key() !in ba;
    assert b.Remove? ==> b.Key() !in ab;
  }

  /** On the empty state every clash shows. */
  lemma ClashShows(a: JournalRecord, b: JournalRecord)
    requires Clash(a, b)
    ensures !Agree(Applied(Applied(EMPTY, a), b), Applied(Applied(EMPTY, b), a))
  {
    StoresQueued(a);
    StoresQueued(b);
    if !(Names(a) !! Stores(b).Keys) {
      var id :| id in Names(a) && id in Stores(b);
      DisagreeAt(a, b, id);
    } else if !(Names(b) !! Stores(a).Keys) {
      var id :| id in Names(b) && id in Stores(a);
      DisagreeAt(a, b, id);
    } else if id :| id in Stores(a) && id in Stores(b) && Stores(a)[id] != Stores(b)[id] {
      DisagreeAt(a, b, id);
    } else {
      MutationsDisagree(Mutation(a).value, Mutation(b).value);
      assert Finalize(Applied(Applied(EMPTY, a), b)).mirrors != Finalize(Applied(Applied(EMPTY, b), a)).mirrors;
    }
  }

  /** Two records commute on every state, up to what a restart forgets, exactly when they do
      not clash. */
  lemma CommuteIffNoClash(a: JournalRecord, b: JournalRecord)
    ensures Commute(a, b) <==> !Clash(a, b)
  {
    if Clash(a, b) {
      ClashShows(a, b);
    } else {
      ClashlessCommute(a, b);
    }
  }

  /** A record moves to the front of records it does not clash with. */
  lemma {:induction false} MoveToFront(s: Ledger, before: seq<JournalRecord>, record: JournalRecord)
    requires forall r <- before :: !Clash(record, r)
    ensures Agree(Fold(s, before + [record]), Fold(Applied(s, record), before))
  {
    if before == [] {
      assert before + [record] == [record] && [record][..0] == [];
      assert Fold(s, [record]) == Applied(Fold(s, []), record);
    } else {
      var init, last := before[..|before| - 1], before[|before| - 1];
      MoveToFront(s, init, record);
      assert (init + [record])[..|init|] == init && (before + [record])[..|before|] == before;
      ClashlessCommute(record, last);
      assert Agree(Applied(Applied(Fold(s, init), record), last), Applied(Applied(Fold(s, init), last), record));
      ApplyAgree(Fold(s, init + [record]), Fold(Applied(s, record), init), last);
    }
  }

  /** Taking any in-flight record out of turn changes nothing that survives a restart, as long
      as it clashes with none of those written before it. */
  lemma OutOfTurn(s: Ledger, flight: seq<JournalRecord>, i: nat)
    requires i < |flight|
    requires forall r <- flight[..i] :: !Clash(flight[i], r)
    ensures Agree(Fold(s, flight), Fold(Applied(s, flight[i]), flight[..i] + flight[i + 1..]))
  {
    hide Applied, Agree, Clash, Fold;
    MoveToFront(s, flight[..i], flight[i]);
    CutAt(flight, i);
    FoldConcat(s, flight[..i] + [flight[i]], flight[i + 1..]);
    FoldConcat(Applied(s, flight[i]), flight[..i], flight[i + 1..]);
    FoldAgree(Fold(s, flight[..i] + [flight[i]]), Fold(Applied(s, flight[i]), flight[..i]), flight[i + 1..]);
  }
}
