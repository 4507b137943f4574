# CopierR in Dafny

CopierR copies trades from source accounts to follower accounts. A source's trade event is planned
into execution commands by the configured routes; commands are journaled before they are sent to
the follower's agent or venue; acknowledgements move a book of mirrored positions, from which later
modifies, reduces and closes take their target order. After a crash the journal is replayed.

This project models that core and proves what it is for: no command is sent twice and none is lost,
whatever crashes; the book is the history of fills; volumes stay on the follower's grid and drift by
a bounded amount; the venues' bookkeeping conserves commands and volumes; the line protocol carries
frames without changing them.

## Layout

| module | about |
|---|---|
| Wrappers, Model | options and results; the records exchanged |
| Keys | the mirror key, the command-id preimage, hexadecimal ids |
| Rounding, Routing, Drift, LiveDrift | rounding to steps, route rules and sizing, drift over partial closes, on paper and in the live book |
| Journal, Confluence | the replayed state, recovery, which records may change places |
| Handlers, Runtime | what each handler does as a list of small effects; `AppState`, updating in place, tied to it |
| History, MirrorBook, Commands | journals the daemon can have written, and what they imply; what each planned command says, told by the event, the route and the fills so far |
| Runs, Safety, Sessions, Reachable, Outcomes, Hypotheses | whole runs with crashes between any two effects; safety; session ids; what a frame leads to; necessity of the hypotheses |
| AwaitLevel, Serial, Overlap, Race | handlers as concurrent tasks, with looking up a session, writing a record, applying it and pushing as separate steps; that a task alone does what its handler does; when they send once, and exactly when not |
| Positions, MetaApi, CTrader, CTraderHub | the two direct venues |
| Decimal, Text, Wire, Names, RoundTrip, Canonical, Stream | the line protocol |
| Delivery | what the parts guarantee to each other |

A handler is a sequence of effects (`Append`, `Apply`, `Push`, sessions opening and closing), and a
crash is a cut anywhere in it followed by `Restart`. The methods of `Runtime.AppState`,
`Journal.ReplayState`, `Journal.JournalFile`, `MetaApi.MetaApiVenue` and `CTraderHub.CTraderHub`
update fields in place and are proved equal to the specification functions; the theorems are about
those functions, so they carry over to the methods.

## Hypotheses

The code establishes none of these; theorems that need them say so.

* Durability is not off, appending is atomic, and the configuration does not change between restarts
  (`History.Sound`). `Hypotheses.DurabilityDecides` shows that durability decides at-most-once.
* The hash has no collisions (`Keys.CollisionFree`; it can be met, `Keys.CollisionFreeDigestExists`), and
  route ids and target accounts hold no NUL (`Keys.PreimageNeedsNulFreeRoutes` shows why).
* No two routes of one source agree in id and target. `Hypotheses.HandlerSendsTwiceIffRoutesCollide` shows
  that a handler can send an id twice exactly when two such routes both copy its event.
  For the step grid, at most one route joins two accounts.
* Account ids hold no U+001F where the mirror key must tell positions apart
  (`Keys.MirrorKeyNeedsSeparatorFreeAccounts` shows why).
* `min_volume <= max_volume`: rule validation does not check it and clamping panics without it
  (`Routing.ValidationAdmitsInvertedLimits`).
* Steps are whole multiples of 1e-8 where a result is said to lie on the grid.
* Volumes are finite. Volumes and prices are real numbers.
* At the await level, one event id is not handled twice at the same time and the acknowledgements of
  one account arrive one by one.

## Findings

* Sending at most once holds when handlers run one at a time. With handlers interleaved it does not:
  in every configuration that copies some event there is an interleaving from the start in which one
  command is sent twice (`Race.RaceFromStart`). The target connects, and its queue is flushed
  (crates/copier-daemon/src/runtime.rs:58-70), after the plan is recorded and before the event's own
  sending loop (crates/copier-daemon/src/runtime.rs:163-166) comes to the command; neither looks at the
  command's state again. Exactly such flushes do harm: after any run whose flushes were harmless, a
  flush opens the way to sending a command twice if and only if it selects one that another handler can
  still push, that is one it has yet to take up or has taken up for a session whose channel is open
  (`Race.FlushDoomsIffHeld`). Runs without such a flush send at most once (`Overlap.SafeFlushesSendOnce`).
* The README of the program says unsent queued commands stay safe to send after a reconnect
  (README.md:90). That is proved, and so is that an unknown command is never sent again.
* Two records may be applied in the order opposite to the one they were written in exactly when they
  do not clash (`Confluence.CommuteIffNoClash`); records of concurrent handlers never clash, so the live
  state and the journal agree at every interleaving (`AwaitLevel.InterleavingsAgree`).
* An event age limit of 2^63 - 1 nanoseconds or more is never exceeded, since the age saturates there
  (`Routing.TooOldIff`); below that the limit is exact.

## Model

| member | source | states |
|---|---|---|
| Safety.SentAtMostOnce | crates/copier-daemon/src/runtime.rs:58-200 | over every run, with a crash allowed between any two effects, no command id is pushed to a session channel twice |
| Safety.CommandsMoveForward | crates/copier-daemon/src/journal.rs:57-107 | along every run a command only moves forward through queued, dispatched, unknown, acknowledged; once unknown or acknowledged it is never sent again |
| Safety.NothingLost | crates/copier-daemon/src/journal.rs:60-97 | after every run the planned ids are exactly the outstanding ones plus the terminally acknowledged ones, and no id is both |
| Safety.LiveAgreesWithJournal | crates/copier-daemon/src/journal.rs:117-131 | after every run the live state, finalised, is what replaying the journal recovers |
| Safety.DispatchedHaveSessions | crates/copier-daemon/src/runtime.rs:169-187 | after every run each dispatched command's account has a registered session |
| Safety.UnregisterMeaning | crates/copier-daemon/src/runtime.rs:72-98 | closing the current session makes exactly that account's dispatched commands unknown and changes nothing else |
| Safety.FlushEmptiesQueue | crates/copier-daemon/src/runtime.rs:58-70 | flushing a connected account leaves it no queued command: each is sent and dispatched if its channel is open, else unknown; every other command is as it was |
| Safety.RankStep | crates/copier-daemon/src/journal.rs:57-99 | no single effect of a handler moves a command back |
| Safety.RankRestart | crates/copier-daemon/src/journal.rs:101-107 | neither does a restart, also with a record written but not applied |
| Runs.RunsKeepInv | crates/copier-daemon/src/runtime.rs:51-276 | every run keeps the journal well formed, the live state in agreement with it, and the sent ids distinct and dispatched |
| Runs.InputLegal | crates/copier-daemon/src/runtime.rs:51-276 | whatever a handler does in such a state it does legally, effect by effect |
| Runs.LiveMeaning | crates/copier-daemon/src/journal.rs:101-107 | agreement up to finalising means equal events, bindings, commands and queue |
| Hypotheses.DurabilityDecides | crates/copier-daemon/src/journal.rs:133-136 | for a configuration that is otherwise sound and copies some event, no run sends a command twice if and only if durability is not off |
| Hypotheses.ForgettingSendsTwice | crates/copier-daemon/src/journal.rs:133-136 | without a durable journal, an event delivered again after a restart is sent again |
| Hypotheses.PlanRepeatsIffRoutesCollide | crates/copier-core/src/routing.rs:126-136 | on any book, the ids of a plan repeat if and only if two routes with one id and one target both make a command of the event |
| Hypotheses.HandlerSendsTwiceIffRoutesCollide | crates/copier-daemon/src/runtime.rs:136-166 | handling a copied event can send one id twice, to some account, if and only if two routes with one id and one target both copy it |
| History.AlwaysConsistent | crates/copier-daemon/src/runtime.rs:119-276 | on every journal the daemon can write, stored commands are genuine and sit under their id, bindings sit under their key with a positive opened volume |
| History.CommandsConserved | crates/copier-daemon/src/journal.rs:60-97 | planned ids are the disjoint union of outstanding and terminally acknowledged ids |
| History.QueuedNeverDispatched | crates/copier-daemon/src/journal.rs:60-86 | a queued command was never dispatched before, crashes included |
| History.PlannedOnce | crates/copier-daemon/src/runtime.rs:130-162 | no journal plans one command id twice |
| History.DispatchedOnce | crates/copier-daemon/src/runtime.rs:169-187 | no journal records one command as dispatched twice |
| History.TerminatedOnce | crates/copier-daemon/src/runtime.rs:202-244 | no command is terminally acknowledged twice |
| History.PlanningNeverFails | crates/copier-daemon/src/runtime.rs:136-157 | on a consistent state planning a validated event never fails |
| History.PlanIdsDistinct | crates/copier-core/src/routing.rs:213-228 | the commands of one plan have distinct ids |
| History.PlanGenuine | crates/copier-core/src/routing.rs:145-210 | every planned command has the id its event and route give it, a positive volume where it opens or reduces, and a target order where it does not open |
| Journal.RecoveryComposes | crates/copier-daemon/src/journal.rs:101-131 | however restarts cut a journal into runs, replaying it whole gives the state those runs went through |
| Journal.FinalizeThenApply | crates/copier-daemon/src/journal.rs:57-107 | finalising can be postponed past any record |
| Journal.ReplayState.Apply | crates/copier-daemon/src/journal.rs:57-99 | the in-place update equals the specification `Applied`, for every record |
| Journal.ReplayState.FinalizeAfterReplay | crates/copier-daemon/src/journal.rs:101-107 | the loop over the stored commands equals `Finalize` |
| Journal.JournalFile.Append | crates/copier-daemon/src/journal.rs:133-148 | a record is added at the end, or dropped when durability is off |
| Journal.ReplayFile | crates/copier-daemon/src/journal.rs:150-166 | the replay loop equals folding the records from the empty state |
| Journal.OpenJournal | crates/copier-daemon/src/journal.rs:117-131 | opening gives the recovered state of the records on disk |
| Confluence.CommuteIffNoClash | crates/copier-daemon/src/journal.rs:57-107 | two records commute on every state, up to what a restart forgets, exactly when they do not clash: neither plans a command the other names, they store no different command under one id, they do not mutate one binding differently |
| Confluence.OutOfTurn | crates/copier-daemon/src/runtime.rs:158-162 | applying any in-flight record out of turn changes nothing that survives a restart if it clashes with none written before it |
| AwaitLevel.InterleavingsAgree | crates/copier-daemon/src/runtime.rs:119-276 | with writing and applying as separate steps of concurrent tasks and crashes anywhere, the live state after all records in flight, finalised, is the recovered journal |
| AwaitLevel.FlightsDoNotClash | crates/copier-daemon/src/runtime.rs:158-182 | records in flight of two different handlers never clash |
| AwaitLevel.StepKeeps | crates/copier-daemon/src/runtime.rs:58-276 | every step of every task keeps the await-level invariant |
| Serial.EventAlone | crates/copier-daemon/src/runtime.rs:119-167 | a task that handles an event without interruption does to the state exactly what the handler does, open channels being the accepting ones |
| Serial.FlushAlone | crates/copier-daemon/src/runtime.rs:58-70 | likewise for a queue flush |
| Serial.DisconnectAlone | crates/copier-daemon/src/runtime.rs:72-98 | likewise for a disconnect |
| Serial.AckAlone | crates/copier-daemon/src/runtime.rs:202-244 | likewise for an acknowledgement |
| Serial.ConnectAlone | crates/copier-daemon/src/runtime.rs:51-56 | likewise for a connect, which opens a channel |
| Serial.OneWayOn | crates/copier-daemon/src/runtime.rs:58-276 | a task that is doing something can go on in one way only, apart from the order a map yields its commands in |
| Overlap.SafeFlushesSendOnce | crates/copier-daemon/src/runtime.rs:58-70 | in any interleaving, crashes, reconnects and closing channels included, in which no flush selects a command another handler can still push, nothing is sent twice |
| Race.FlushDoomsIffHeld | crates/copier-daemon/src/runtime.rs:58-70 | after any run from the start whose flushes were safe, a flush admits a continuation, itself without unsafe flushes, in which a command is sent twice if and only if it selects a command that some handler can still push |
| Race.CanPush | crates/copier-daemon/src/runtime.rs:169-187 | a handler that can still push a command can be brought to push it without another flush, without disturbing other handlers and without closing a channel |
| Race.RaceFromStart | crates/copier-daemon/src/runtime.rs:158-167 | whenever some event is copied, there is an interleaving from the start in which a command is sent twice |
| MirrorBook.BookIsHistory | crates/copier-daemon/src/runtime.rs:246-276 | a key is bound exactly when its last filled open is later than its last filled close; the binding names that open's position, route and order, holds what it opened less what was reduced since, never below zero, and what the source still holds by the fills since |
| MirrorBook.CommandsFillOnce | crates/copier-daemon/src/runtime.rs:202-244 | each command counts at most once in that history |
| MirrorBook.FollowUpsNameOpenedOrders | crates/copier-core/src/routing.rs:163-185 | every planned modify, reduce or close names the order reported by an earlier filled open of the same position |
| Commands.JournaledPlansCopy | crates/copier-core/src/routing.rs:145-210 | every plan ever journaled copies a validated event: a command for the event's position, action, price and volumes, on the route's symbol, its side turned round by a reversing route and no other, stop levels where copied, for the rounded request, the rounded share or all that is left, naming the order of the fill that opened the position; an admitting route has no command only if its follower has no such position or the volume rounds to nothing |
| Commands.ClosesTakeAllThatIsLeft | crates/copier-core/src/routing.rs:163-185 | a planned modify or close is for what its position was opened with less what was reduced since, and names the order of that open |
| MirrorBook.BookStaysOnGrid | crates/copier-daemon/src/runtime.rs:249-273 | every binding keeps remaining between zero and opened, both on its route's grid, and so do outstanding opens and reduces |
| MirrorBook.ReducesFit | crates/copier-core/src/routing.rs:115-117 | a planned reduce asks for more than nothing and no more than remained when it was planned, although it rounds to nearest |
| MirrorBook.PlanIsScan | crates/copier-core/src/routing.rs:138-143 | planning through the compiled table is a scan of the configuration in order |
| MirrorBook.PlanningScansConfiguration | crates/copier-daemon/src/runtime.rs:136-157 | on every journal the daemon can write the plan is that scan, and no command goes to its own source account |
| Sessions.SessionsStayNumbered | crates/copier-daemon/src/runtime.rs:51-56 | after every run each registered id is below the next one and no two accounts share one |
| Sessions.NumbersDiffer | crates/copier-daemon/src/runtime.rs:52 | between restarts a later connect, of whatever account, is given a larger id |
| Sessions.CurrentUntil | crates/copier-daemon/src/runtime.rs:72-83 | until a restart an account is registered under the id a connect was given if and only if it has not connected again nor handed that id back |
| Sessions.LateDisconnectIgnored | crates/copier-daemon/src/runtime.rs:76-82 | the cleanup of a connection that was superseded or already cleaned up leaves the whole state as it was |
| Outcomes.FramesRefused | crates/copier-daemon/src/runtime.rs:100-129 | in every state a run can reach, frames are refused exactly for a second hello, another account's name, an unknown or unpermitted source or another target's command, and then change nothing |
| Outcomes.EventsAreCopied | crates/copier-daemon/src/runtime.rs:119-167 | a fresh validated event is copied to its routes, the plan journaled before anything is sent, each command then queued, sent or unknown as its account's session says; an event that is not fresh changes nothing |
| Outcomes.AcksSettle | crates/copier-daemon/src/runtime.rs:202-276 | an acknowledgement settles its command, or leaves it unknown if the outcome stays open; only fills move the book, and only at the command's position |
| Reachable.LiveBookIsHistory | crates/copier-daemon/src/runtime.rs:246-276 | after every run the live book says what the history of fills says |
| Reachable.LiveBookOnGrid | crates/copier-daemon/src/runtime.rs:249-273 | after every run live bindings and outstanding commands are on the grid |
| Reachable.LivePlanning | crates/copier-daemon/src/runtime.rs:136-157 | after every run any event plans what a scan of the configuration plans, and a follow-up only where a binding names its order |
| Reachable.OnlyPlannedSent | crates/copier-daemon/src/runtime.rs:169-187 | only planned commands are ever sent |
| Reachable.SentFollowUpsNameOpenedOrders | crates/copier-daemon/src/runtime.rs:223-264 | every modify, reduce or close ever sent names the order that a filled open of the same position reported |
| Drift.DriftBound | crates/copier-core/src/routing.rs:169-189 | after n partial closes, each filled, dropped or capped, the follower's remaining volume is within n half steps of the exact share |
| Drift.DriftBoundAttained | crates/copier-core/src/routing.rs:115-117 | for every n there is a position for which each of n closes adds a full half step, so the bound cannot be improved |
| LiveDrift.EpisodesCut | crates/copier-daemon/src/runtime.rs:246-276 | partial closes of one position, each filled or dropped before the next, amid anything else in the journal, leave the binding they leave on paper |
| LiveDrift.LiveDriftBound | crates/copier-daemon/src/runtime.rs:266-273 | after every run, a live binding changed since its open only by such closes is within half a step a close of the exact share |
| Drift.CutTakes | crates/copier-daemon/src/runtime.rs:266-273 | one partial close, planned or dropped, takes the sized volume from what remains and leaves the opened volumes |
| Rounding.RoundNearest | crates/copier-core/src/routing.rs:230-235 | rounding is within a half and odd, so ties go away from zero on both sides |
| Rounding.NormalizeExact | crates/copier-core/src/routing.rs:230-235 | on whole-tick steps the second rounding loses nothing: the result is the nearest number of steps |
| Rounding.NormalizeNearAnyStep | crates/copier-core/src/routing.rs:230-235 | for any step the result is within half a step plus half a tick |
| Rounding.NormalizeMonotone | crates/copier-core/src/routing.rs:230-235 | monotone in the volume |
| Rounding.NormalizeIdempotent | crates/copier-core/src/routing.rs:230-235 | normalising twice is normalising once |
| Rounding.NormalizeBelowGrid | crates/copier-core/src/routing.rs:115-117 | rounding to nearest never climbs over a cap that lies on the grid |
| Routing.Compile | crates/copier-core/src/routing.rs:126-136 | compiling succeeds exactly when every rule validates, reports the first that does not, and answers every source with what a scan finds |
| Routing.OpenSizing | crates/copier-core/src/routing.rs:101-113 | an open is a step multiple within half a step of the source volume, the fixed size or their product with the factor, as the mode says, clamped to the limits; a fixed point of normalising, and within the limits when they are step multiples |
| Routing.OpenSizingMonotone | crates/copier-core/src/routing.rs:101-113 | monotone in the source volume in all three sizing modes |
| Routing.OpenSizingAnyStep | crates/copier-core/src/routing.rs:101-113 | for any step the error against that request is at most half a step plus half a tick |
| Routing.TooOldIff | crates/copier-core/src/routing.rs:145-162 | an event is too old if and only if its true age exceeds the limit and the limit is below 2^63 - 1 ns, saturation and all |
| Routing.LimitsMustBeStepped | crates/copier-core/src/routing.rs:110-113 | with a limit off the grid an open can leave the limits |
| Routing.LimitsKeptIffRoundedInwards | crates/copier-core/src/routing.rs:101-113 | for any limits and step: every open stays within the limits if and only if the limits themselves round inwards, or with a fixed size if that one volume stays within them |
| Routing.ReduceSizing | crates/copier-core/src/routing.rs:115-117 | a reduce is a step multiple between zero and what remains, within half a step of the capped share |
| Routing.ValidationAdmitsInvertedLimits | crates/copier-core/src/routing.rs:56-75 | validation accepts a rule whose lower limit exceeds its upper one |
| Keys.MirrorKeyInjective | crates/copier-core/src/model.rs:232-234 | mirror keys agree exactly when all three parts agree, for any order ids, if account ids are free of U+001F |
| Keys.KeysMeetIffOverlapping | crates/copier-core/src/model.rs:232-234 | for any ids at all: two account pairs can produce one key for some order ids if and only if, separators included, one source begins the other and one target ends the other |
| Keys.PreimagesMeetIffSuffix | crates/copier-core/src/routing.rs:213-220 | for any ids at all: two routes can produce one preimage for some event ids if and only if one's route part ends the other's |
| Keys.MirrorKeyNeedsSeparatorFreeAccounts | crates/copier-core/src/model.rs:232-234 | with U+001F in an account id two positions share a key |
| Keys.PreimageInjective | crates/copier-core/src/routing.rs:213-220 | preimages agree exactly when event, route and target agree, for any event id, if route and target ids are free of NUL |
| Keys.PreimageNeedsNulFreeRoutes | crates/copier-core/src/routing.rs:213-220 | with a NUL in a route id two routes share a preimage |
| Keys.HexInjective | crates/copier-core/src/routing.rs:221-227 | hexadecimal forms agree exactly when the bytes agree |
| Keys.HexReads | crates/copier-core/src/routing.rs:221-227 | each pair of digits, the high one first, is its byte |
| Keys.CommandIdInjective | crates/copier-core/src/routing.rs:213-228 | command ids name (event, route, target) triples uniquely |
| Keys.FormatCommandId | crates/copier-core/src/routing.rs:221-227 | the formatting loop fills in the hexadecimal digest of the preimage |
| Runtime.AppState.RegisterSession | crates/copier-daemon/src/runtime.rs:51-56 | the account's session becomes the next id, which is returned and used up; freshness over whole runs is `Sessions.NumbersDiffer` |
| Runtime.AppState.DispatchIfConnected | crates/copier-daemon/src/runtime.rs:169-187 | nothing for an unconnected account; otherwise dispatched, then sent or, if the channel is closed, unknown |
| Runtime.AppState.DispatchQueuedFor | crates/copier-daemon/src/runtime.rs:58-70 | dispatches exactly the account's queued commands, in the order the map yields them |
| Runtime.AppState.UnregisterSession | crates/copier-daemon/src/runtime.rs:72-98 | ignores a superseded id; otherwise closes the session and writes off exactly the account's dispatched commands |
| Runtime.AppState.PlanCommands | crates/copier-daemon/src/runtime.rs:136-157 | the planning loop over the compiled table equals the specification plan, first error included |
| Runtime.AppState.HandleEvent | crates/copier-daemon/src/runtime.rs:119-167 | an error leaves the state alone; otherwise exactly the effects of the specification happen |
| Runtime.AppState.MutationFor | crates/copier-daemon/src/runtime.rs:246-276 | the mutation equals the specification for every action |
| Runtime.AppState.HandleAck | crates/copier-daemon/src/runtime.rs:202-244 | an error leaves the state alone; otherwise exactly the record of the specification is written and applied |
| Runtime.AppState.HandleFrame | crates/copier-daemon/src/runtime.rs:100-117 | frames in another account's name and repeated hellos are refused, the rest goes to its handler |
| Runtime.Start | crates/copier-daemon/src/runtime.rs:24-34 | the daemon starts, from the recovered journal and without sessions, exactly when every rule validates |
| Positions.DiffMeaning | crates/copier-daemon/src/venues/metaapi.rs:348-371 | exactly when a position is reported opened, closed, reduced or modified, or not at all, and with which volumes |
| Positions.VolumeConserved | crates/copier-daemon/src/venues/metaapi.rs:348-365 | over any views of a position, reported opens less reduces and closes account for the held volume, scale-ins apart, to within one epsilon for each view it stood still in |
| Positions.OpenedIsReducedAndClosed | crates/copier-daemon/src/venues/metaapi.rs:348-371 | a position that comes and goes without scaling in is reported opened with what it is reported reduced and closed with, to within that bound |
| Positions.BoundAttained | crates/copier-daemon/src/venues/metaapi.rs:353-356 | a position shrinking by one epsilon a view attains the bound |
| MetaApi.IndexPositions | crates/copier-daemon/src/venues/metaapi.rs:337-339 | every position is found under its own id |
| MetaApi.IndexedIsLast | crates/copier-daemon/src/venues/metaapi.rs:337-339 | an id is held exactly if it occurs, with the last position that has it |
| MetaApi.ReportNamesPosition | crates/copier-daemon/src/venues/metaapi.rs:375-409 | a reported event is about the position as it is now, or was last: its side is buy exactly for the buy type and sell exactly for the sell type, its symbol, price, stop levels and origin are the position's, its action and volumes the difference of the two books |
| MetaApi.ReportFailsIff | crates/copier-daemon/src/venues/metaapi.rs:382-407 | a difference cannot be made an event if and only if the type is neither of the two or a name or the volume is missing |
| MetaApi.EmitPositionDiffs | crates/copier-daemon/src/venues/metaapi.rs:341-373 | in whatever order the maps are walked, each position is reported at most once and with exactly the difference of the two snapshots; on success all are covered, on failure the error is that of a position not covered yet; every event handed over describes its position, side included |
| MetaApi.EventsTrackBook | crates/copier-daemon/src/venues/metaapi.rs:341-373 | applying one poll's events in any order to the previous book's positions gives the current book's |
| MetaApi.RunConservesVolume | crates/copier-daemon/src/venues/metaapi.rs:69-92 | over k polls a position that comes and goes without scaling in is opened with what it is reduced and closed with, to within k epsilons |
| MetaApi.EventsReportViews | crates/copier-daemon/src/venues/metaapi.rs:341-373 | the volumes of the events of a run are those of the differences between its snapshots |
| MetaApi.MetaApiVenue.Poll | crates/copier-daemon/src/venues/metaapi.rs:80-89 | a failed fetch changes nothing; an event that cannot be made leaves the known book, and the events handed over before it are differences of the two books; otherwise exactly the differences are handed over and the new book is known |
| MetaApi.EventIdInjective | crates/copier-daemon/src/venues/metaapi.rs:391-392 | ids of one account's events agree exactly when position, action and time agree |
| MetaApi.PollIdsDiffer | crates/copier-daemon/src/venues/metaapi.rs:391-392 | events of one poll have different ids |
| CTrader.StepConserves | crates/copier-daemon/src/venues/ctrader.rs:230-350 | a step changes in how many places a command is (pending, awaiting protection, acknowledged) only by taking it from the queue; a step that ends the loop loses at most one command a place |
| CTrader.TakenIsInOnePlace | crates/copier-daemon/src/venues/ctrader.rs:173-217 | while the loop runs, every command taken is in exactly one place and nothing else is in any |
| CTrader.AckedAtMostOnce | crates/copier-daemon/src/venues/ctrader.rs:173-217 | no command is acknowledged twice, also when an error ends the loop |
| CTrader.AnswersTellOutcome | crates/copier-daemon/src/venues/ctrader.rs:260-314 | an execution's acknowledgement answers the command waiting under its id; rejections and fills are the broker's; an open with stop loss or take profit is filled only once its protection is; the order it names is the execution's position, else its order, else the command's own, or the position its protected fill named |
| CTrader.ExecutionsSettle | crates/copier-daemon/src/venues/ctrader.rs:260-314 | a final execution ends the wait of the command under its id and of no other; it is answered at once or, if a filled open with stop levels named a position, its protection is asked for with exactly that position, or it is lost with an error |
| CTrader.FillsNamePositions | crates/copier-daemon/src/venues/ctrader.rs:173-314 | over whole runs, every acknowledged fill is of a command taken from the queue, in its account's name, and names the position that a fill execution of that command named |
| CTrader.TakingSettles | crates/copier-daemon/src/venues/ctrader.rs:175-199 | a command taken for a hub's account is rejected exactly when it cannot be put into words and waits exactly when the broker got it |
| CTrader.RequestableIff | crates/copier-daemon/src/venues/ctrader.rs:417-471 | a command can be put into words if and only if its symbol is known, its position is a 64-bit number, and an open names its side and asks for at least half a unit |
| CTrader.ErrorsTellOutcome | crates/copier-daemon/src/venues/ctrader.rs:322-346 | an error rejects a waiting command, and makes unknown, never rejected, a filled open whose protection failed |
| CTrader.HexIsPlain | crates/copier-daemon/src/venues/ctrader.rs:282 | command ids never look like protection ids |
| CTrader.RequestsAskForVolume | crates/copier-daemon/src/venues/ctrader.rs:417-464 | requests are for the 64-bit number of units nearest to the command's volume, opens for at least one, with the command's side, symbol, position and stop levels |
| CTrader.ReportsConserveVolume | crates/copier-daemon/src/venues/ctrader.rs:352-386 | over any reports, what is published of a position accounts for its volume, scale-ins apart, to within one epsilon for each report it stood still in |
| CTraderHub.CTraderHub.TakeCommand | crates/copier-daemon/src/venues/ctrader.rs:175-199 | the in-place step equals the specification, and the daemon hears of at most one acknowledgement |
| CTraderHub.CTraderHub.HandleExecution | crates/copier-daemon/src/venues/ctrader.rs:241-314 | likewise for an execution report |
| CTraderHub.CTraderHub.StartProtection | crates/copier-daemon/src/venues/ctrader.rs:281-294 | likewise for asking for protection |
| CTraderHub.CTraderHub.HandleError | crates/copier-daemon/src/venues/ctrader.rs:322-346 | likewise for an error report, at the time of the call |
| CTraderHub.CTraderHub.UpdatePosition | crates/copier-daemon/src/venues/ctrader.rs:352-386 | on success the position is remembered as reported and exactly its change is published, if the account publishes; on failure the daemon hears nothing and at most a closed position is forgotten |
| CTraderHub.CTraderHub.Cleanup | crates/copier-daemon/src/venues/ctrader.rs:219-223 | after the loop, where an account's session was still current, none of its commands is left dispatched |
| CTraderHub.SessionClosed | crates/copier-daemon/src/venues/ctrader.rs:219-223 | closing one session disturbs no other session and brings no account a dispatched command |
| CTraderHub.EventTells | crates/copier-daemon/src/venues/ctrader.rs:388-415 | a published event is in its account's name and the position's words and tells the change; its id names position, action and time uniquely |
| Delivery.AnswersAreTaken | crates/copier-daemon/src/runtime.rs:202-212 | an answer to a sent command in its target's name is never refused, whenever it comes |
| Delivery.VenueEventsAreTaken | crates/copier-daemon/src/runtime.rs:119-129 | an event of an account that publishes is never refused |
| Delivery.IdNamesCommand | crates/copier-core/src/routing.rs:213-228 | one id never stands for two commands in a journal |
| Delivery.HubQueueIsDeliverable | crates/copier-daemon/src/venues/ctrader.rs:147-161 | what the daemon sends to a hub's accounts, in whatever order their channels are merged, has the form the hub's bookkeeping needs |
| Delivery.SentCommandsDecode | crates/copier-daemon/src/server.rs:50-56 | every command ever sent can be read by an agent if and only if its numbers are finite, and its id arrives unchanged |
| Delivery.ClientIdCarriesTwentyDigits | crates/copier-daemon/src/venues/metaapi.rs:303-313 | an order's client id is the first twenty digits of its command id in two halves, so two orders share one exactly when those agree |
| Delivery.NoMetaApiEcho | crates/copier-daemon/src/venues/metaapi.rs:388-390 | what a MetaApi account shows of the daemon's own orders is not copied unless rebroadcast is allowed |
| Delivery.NoCTraderEcho | crates/copier-daemon/src/venues/ctrader.rs:567-568 | nor is what a cTrader account shows of them |
| RoundTrip.AgentRoundTrip | crates/copier-core/src/protocol.rs:30-178 | an agent's frame, written and read back, is itself up to separators in texts, if and only if it is encodable |
| RoundTrip.ServerRoundTrip | crates/copier-core/src/protocol.rs:86-215 | likewise for the daemon's frames; a command's creation time is not carried |
| Canonical.AgentCanonical | crates/copier-core/src/protocol.rs:30-178 | for every line that reads as an agent's frame, writing it back is lossless if and only if only the line's end holds CR or LF, through every alias and letter case |
| Canonical.ServerCanonical | crates/copier-core/src/protocol.rs:86-215 | likewise for the daemon's lines |
| Canonical.RewriteAgentIdempotent | crates/copier-core/src/protocol.rs:139-178 | for every line that reads at all, rewriting twice is rewriting once |
| Canonical.RewriteServerIdempotent | crates/copier-core/src/protocol.rs:180-215 | likewise for the daemon's lines |
| Canonical.WholeNumbersLawful | crates/copier-core/src/protocol.rs:264-276 | a number format with the assumed laws exists |
| Names.PlatformsRead | crates/copier-core/src/model.rs:28-37 | which texts stand for which platform, in any letter case, and for none |
| Names.SidesRead | crates/copier-core/src/model.rs:67-73 | likewise for sides, long and short included |
| Names.ActionsRead | crates/copier-core/src/model.rs:99-107 | likewise for actions |
| Names.StatusesRead | crates/copier-core/src/model.rs:196-204 | likewise for acknowledgement states |
| Names.EventLine | crates/copier-core/src/protocol.rs:43-64 | which field of a line each part of an event is read from, and how |
| Names.AckLine | crates/copier-core/src/protocol.rs:65-76 | likewise for an acknowledgement |
| Names.CommandLine | crates/copier-core/src/protocol.rs:97-119 | likewise for a command |
| Names.AgentLinesRefused | crates/copier-core/src/protocol.rs:221-242 | an unknown kind, a wrong number of fields, and a version that is no number or not 1 are refused as such, in this order, before any value is looked at |
| Names.ServerLinesRefused | crates/copier-core/src/protocol.rs:221-242 | likewise for the daemon's lines |
| Stream.ReceiveAgentFrames | crates/copier-daemon/src/server.rs:64-78 | the read loop takes exactly the lines that parse, in order |
| Stream.AgentStreamRoundTrip | crates/copier-core/src/protocol.rs:139-178 | concatenated encodable frames arrive one by one and in order, and garbage before a line feed costs only itself |
| Stream.ServerStreamRoundTrip | crates/copier-client/src/lib.rs:37-44 | a client reads the daemon's frames exactly when all of them are encodable |
| Text.SplitJoin | crates/copier-core/src/protocol.rs:31 | splitting undoes joining when no field holds the separator |
| Text.JoinSplit | crates/copier-core/src/protocol.rs:31 | joining undoes splitting, always |
| Text.SanitiseCleans | crates/copier-core/src/protocol.rs:284-286 | sanitising puts a space for every separator and changes nothing else |
| Text.StripsLineBreaks | crates/copier-core/src/protocol.rs:217-219 | all line breaks at the end are stripped and nothing else |
| Text.FieldsSurvive | crates/copier-core/src/protocol.rs:217-219 | clean fields survive joining, the line end and splitting |
| Decimal.ReadsNumerals | crates/copier-core/src/protocol.rs:278-282 | exactly the numerals of a value in range are read: digits after an optional sign, a minus only for a signed type |
| Decimal.PrintThenParse | crates/copier-core/src/protocol.rs:278-282 | every 64-bit integer is read back as printed |
| Decimal.LeadingZeros | crates/copier-core/src/protocol.rs:278-282 | leading zeros do not matter and a value out of range is refused |

## Left out

- TCP, WebSocket and HTTP transport, authentication, secrets, provisioning, the user interface and process launching: foreign I/O without an invariant of its own. Venues are sources of acknowledgements, executions and snapshots.
- JSON: journal records and broker messages are modelled decoded; a torn or malformed journal line, which makes opening fail, is not modelled. Free-text reasons and timestamps of records, never read back, are dropped.
- SHA-256 is a function without collisions; its 16-byte truncation is not modelled, digests have any length.
- Bit-level floating point, NaN and infinities: arithmetic is real; on the wire a number's text is an opaque printer and reader pair with round-trip laws. Adding machine epsilon to a volume of two or more is lost in doubles but not here.
- Order of delivery in a queue flush: the map may yield commands in any order, and no order is claimed.
- The remaining source volume of a binding follows the events; no bound on it is claimed.
- Session ids are unbounded; the program's counter wraps after 2^64 connects.
- A configuration that changes between restarts. After a start with inverted volume limits nothing is claimed.
- Setup of the cTrader hub before its select loop, including sessions registered before a failure there. Local account ids are assumed distinct.
- The select loops of the venues: which source is ready next is any order of steps.
- MetaApi order execution (mapping of result codes to acknowledgement states): one branch per code, no state.
- The file lock and the runtime lock are two steps of a task in AwaitLevel, on values; the methods of `Runtime.AppState` run one at a time. Serial ties the two where nothing interrupts.
- Trimming of configured symbols considers the white space of ASCII only.
