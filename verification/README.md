# A model of Inference Inquire's stateful core

Inference Inquire polls a llama.cpp server and a host agent every few seconds and turns the answers
into state that has to stay consistent over time, over restarts and over channels that lose things.
This project models the parts where that is hard, each in a module of its own, and proves what they
keep.

| module | what it models |
|---|---|
| `SlimTicks`, `SlimProtocol`, `SlimServer` | the WebSocket ticks that carry only changed sections, and the page's rebuild; the protocol around them as a state machine over every interleaving; the server's coroutines as code that takes that machine's steps |
| `AlertGate`, `EventLog`, `Dashboard`, `Notifier` | hold times and transitions; the event log and its reader; a dashboard's life from polls to chart annotations; announcements over runs with restarts, and their delivery |
| `Aggregates`, `Rollups`, `Counters` | windows of polls into rows, rows into buckets; the incremental fold among writes, prunes and aborted folds; counters across agent restarts |
| `Usage` | energy and tokens in buckets aligned to local time |
| `Baseline` | the learned decode rate and the slow-decode alert |
| `Journal`, `JournalHistory`, `Follower` | the log parser fed at least once, and what it holds read off the log; the two threads that follow a unit's log |
| `Gguf`, `DockerLog` | the GGUF header reader, against a writer; the Docker log demultiplexer, against an encoder |
| `Demo` | the endless replay of a recorded session |

Objects the program updates in place are classes here, and its loops are loops; each such method is
proved equal to a function of its inputs and the old state, and the results below are about those
functions over whole runs. A run is a sequence of polls, events or steps; a function gives the state
after it, and a result holds for every run.

Where the code falls short of what a reader might expect of it, the exact condition is proved:

- After a restart, an announced alert whose condition holds throughout is called "cleared" if and
  only if some poll comes when the grace is over and the alert is not back: its hold, counted from
  the first poll, is not over, or a transition suppresses it (`Notifier.FalseClearIff`). As
  configured, only a first poll later than three intervals, or a transition that outlasts the grace,
  does that; a model load under way at the restart is a run that does
  (`Notifier.LoadAtRestartFalselyClears`).
- Counted log lines count once if and only if their timestamps are positive and strictly increase
  (`Journal.CountsAllIff`).
- Watchdog and reader compare unit names only. While a tail that does not end by itself is read, of
  another unit or container than the active one, the active one can come to be followed if and only
  if the names differ or the watchdog has just read another name (`Follower.FollowsAnewIff`); a unit
  that moves to another container is a run that is stuck for good (`Follower.StuckForever`,
  `Follower.StuckIsReachable`).
- Pruning does not look at the rollup cursor. It is safe if and only if no unfolded row lies before
  its cutoff (`Rollups.PruneIsSafeIff`), which is if and only if the rollup is right afterwards
  whatever the values of those rows (`Rollups.PruneIsHarmlessIff`); four events show a loss
  (`Rollups.UnsafePruneLosesABucket`), and a fold every few minutes rules it out
  (`Rollups.FoldsKeepingUpMakeRunSafe`).
- A counter's column adds up to the signals written to the log, plus those that a restarted agent
  read again, less those that no tail read and what restarts hid that did not show as a drop
  (`Counters.SumIs`). It is right at every report if and only if at each one what was read again is
  what was skipped and hidden (`Counters.RightThroughoutIff`); for a restart that shows as a drop,
  if and only if no signal lies between where its tail started and the furthest line reported
  (`Counters.RestartedRunIsExactIff`). A drop can lose a signal (`Counters.ADropLosesASignal`) and
  can count one twice (`Counters.ADropRecountsASignal`).
- What the demo replays never falls back if and only if the numbers it serves rise within a pass and
  span no more than a pass adds (`Demo.NeverFallsIff`). For a counter that rises in the recording,
  that is if and only if its step is known or what is served of it never moves
  (`Demo.CountersNeverFallIff`), and a step is known if and only if the agent's own answers of the
  first and of the last frame both hold it (`Demo.StepIsKnownIff`). One failed or empty answer at
  either end is enough (`Demo.FirstFrameWithout`, `Demo.LastFrameFailed`).
- Splitting a window of energy loses one capped step in one case, given exactly
  (`Usage.EnergySplits`), as long as one table with one cap serves the window and its parts.
- Three reads of the GGUF header lie outside the `try`, so a file cut inside its first 24 bytes
  raises; the model's result is then `None` (`Gguf.ParseHeader`).

## Model

| member | source | states |
|---|---|---|
| SlimTicks.SectionSigs | app/inferenceinquire/snapshot.py:71-82 | one digest for each path whose section the snapshot has, and none for the others |
| SlimTicks.KeptApart | app/inferenceinquire/snapshot.py:85-100 | the paths left out of a tick are pairwise not prefixes of one another, whatever the signatures |
| SlimTicks.SlimSnapshot | app/inferenceinquire/snapshot.py:85-100 | the slim snapshot is the full one without the kept sections, on the heap, and no object the caller shares is written to |
| SlimTicks.DropSection | app/inferenceinquire/snapshot.py:91-99 | one section is dropped after its container is copied: what other clients share stays as it was |
| SlimTicks.MergeKept | app/static/js/data.js:85-94 | the page's loop puts back every kept section from its own copy |
| SlimTicks.MergeRestores | app/static/js/data.js:85-94 | rebuilding restores the full snapshot when the page's sections equal the dropped ones, for any set of paths none of which is a prefix of another |
| SlimTicks.MergeAgreesIff | app/static/js/data.js:85-94 | the rebuilt snapshot is the server's exactly when each section left out is the one the page holds |
| SlimTicks.OnlyChangesTravel | app/inferenceinquire/snapshot.py:85-100 | against another snapshot's signatures, a section is left out exactly when it has not changed, and every other one is sent as it is |
| SlimProtocol.TickRestores | app/inferenceinquire/monitor.py:452-468 | a tick built against signatures of what the page will hold rebuilds to the current full snapshot |
| SlimProtocol.PublishKeeps | app/inferenceinquire/monitor.py:427-439 | a new poll keeps the protocol invariant: every message under way still leads to the snapshot of its own poll |
| SlimProtocol.TransmitKeeps | app/inferenceinquire/monitor.py:452-468 | a tick handed to the socket keeps the invariant |
| SlimProtocol.SendDoneKeeps | app/inferenceinquire/monitor.py:452-468 | a send that went through keeps the invariant and everyone registered, and notes the signatures of the poll sent for that client alone, if it is still there |
| SlimProtocol.SendFailedKeeps | app/inferenceinquire/monitor.py:452-468 | a failed send drops the client and keeps it |
| SlimProtocol.ConnectKeeps | app/inferenceinquire/api.py:233-267 | reading snapshot and signatures together at connect keeps it |
| SlimProtocol.RegisterKeeps | app/inferenceinquire/api.py:233-267 | registering after the first message is sent keeps it, even when polls were published in between |
| SlimProtocol.HandleKeeps | app/static/js/data.js:22-54 | the page handling its next message keeps it |
| SlimProtocol.InvHolds | app/inferenceinquire/monitor.py:427-468 | the invariant holds after every run of polls, sends, failures, connects, registrations, leaves and handled messages |
| SlimProtocol.SlimTicksRefineFullOnes | app/inferenceinquire/monitor.py:452-468 | in every interleaving, a page that has handled a message holds exactly the full snapshot of that message's poll, as if every tick had carried everything |
| SlimProtocol.BroadcastReachesEveryone | app/inferenceinquire/monitor.py:452-468 | once a broadcast is through, each page the events leave registered, the newcomers since the poll apart, stands at that poll or will when its inbox is handled |
| SlimProtocol.ClientsAreRegistered | app/inferenceinquire/monitor.py:452-468 | the table of clients holds exactly those that the events alone leave registered: registering puts one in, leaving and a failed send take it out, nothing else does |
| SlimProtocol.StaysRegistered | app/inferenceinquire/monitor.py:464-468 | a client that neither leaves nor has a send fail stays registered, however many sends succeed |
| SlimProtocol.TicksCarryChangesOnly | app/inferenceinquire/monitor.py:452-468 | in every interleaving, a tick carries exactly the sections that differ from the snapshot the page will hold when the tick comes |
| SlimProtocol.SignaturesDescribeThePage | app/inferenceinquire/monitor.py:452-468 | the signatures the server holds for a client are those of the snapshot the page will hold once it has handled what is under way to it, except between a send and its noting |
| SlimServer.Monitor.Publish | app/inferenceinquire/monitor.py:427-439 | whatever runs while it awaits, a poll is published and broadcast by steps of the protocol alone; every client registered before whose send did not fail and that did not leave is registered still, and those clients stand at the poll |
| SlimServer.Monitor.BroadcastTick | app/inferenceinquire/monitor.py:452-468 | the loop over a copy of the clients takes protocol steps only, while clients come and go under it, and every failure among them is of a client whose send failed |
| SlimServer.Monitor.SendTick | app/inferenceinquire/monitor.py:456-468 | one client's tick is the protocol's, sent or failed; a client still there afterwards was sent it and has the new signatures |
| SlimServer.Monitor.EndSend | app/inferenceinquire/monitor.py:464-468 | after a good send the table is as before with the new signatures for that client if it is there; after a failed one it is as before without that client |
| SlimServer.Monitor.WsEndpoint | app/inferenceinquire/api.py:233-264 | a connection's handler takes protocol steps only, however many polls pass while it sends, and leaves nothing registered |
| SlimServer.Monitor.Greeting | app/inferenceinquire/api.py:238-257 | the client is registered with the signatures of the snapshot it was sent, read together with it |
| SlimProtocol.SlimPathsApart | app/inferenceinquire/snapshot.py:47-68 | no path the server may leave out is a prefix of another |
| AlertGate.Gate.UpdateTransition | app/inferenceinquire/alerts.py:47-58 | the new transition and the started or ended edge, for every signal and time |
| AlertGate.Gate.Apply | app/inferenceinquire/alerts.py:74-91 | the new first-seen table, and the alerts let through in order with their start and notify flag |
| AlertGate.SeenIsHistory | app/inferenceinquire/alerts.py:74-86 | after any run of polls, first_seen holds for each key present when its unbroken run of polls began, and nothing else |
| AlertGate.TransitionIsHistory | app/inferenceinquire/alerts.py:47-58 | the transition state equals a specification over the history of signals alone |
| AlertGate.GateEqualsHistory | app/inferenceinquire/alerts.py:47-91 | an alert is let through at a poll if and only if its condition was there on every poll since the run began, the run has lasted its hold, and no transition suppresses it |
| AlertGate.ShownInOrder | app/inferenceinquire/alerts.py:74-91 | on every poll of every run, the alerts shown are those due by the history, each once, in the order of the rules |
| AlertGate.PushedIff | app/inferenceinquire/alerts.py:12-17 | of what is shown, nothing on the skip list is pushed, the rest if serious or critical, and a warning exactly when its key starts with a listed prefix |
| AlertGate.SuppressionIsBounded | app/inferenceinquire/alerts.py:60-63 | repeated signals never stretch the suppression of one transition past its maximum |
| AlertGate.EdgesAlternate | app/inferenceinquire/alerts.py:47-58 | started and ended edges alternate, and an end comes after more than the tail of silence |
| EventLog.Monitor.ReconcileAlerts | app/inferenceinquire/monitor.py:441-450 | for every key, exactly one event if it came or went and none otherwise, whatever order the keys are taken in |
| EventLog.ByKeyIsLast | app/inferenceinquire/monitor.py:443 | of several alerts of one key the last is the current one |
| EventLog.LogTellsChange | app/inferenceinquire/monitor.py:441-450 | a key's log grows with a poll exactly when its alert came, in its own words, or went, in those of the poll before |
| EventLog.BuildAnnotations | app/static/js/data.js:100-133 | the loop over the events and the closing of what is no longer active equal the decoder function |
| EventLog.DecodeByKey | app/static/js/data.js:100-133 | the spans of a key depend only on the events of that key |
| EventLog.AnyLogReads | app/static/js/data.js:100-133 | for any log whatever, with restarts and with raises out of range: a key's annotations are the spans its events begin, a clear without a raise reaching back to the range's start, and one still open whose key is not active ends where it began |
| EventLog.BeginsIff | app/static/js/data.js:108-124 | an event begins a span exactly when it does not come right after a raise of its key |
| EventLog.RaisedAgain | app/static/js/data.js:108-111 | a raise repeated by a restarted dashboard changes no span, whatever follows |
| EventLog.MarksAre | app/static/js/data.js:103-106 | each change of model is one mark, in order |
| EventLog.KeyLogRoundTrip | app/inferenceinquire/monitor.py:441-450 | what is logged for a key decodes to its maximal runs of activity |
| EventLog.EventLogRoundTrip | app/static/js/data.js:100-133 | for any log that holds a key's edges, among any other events, the annotations of the key are exactly its maximal runs of active polls with their times and texts, and one is open exactly when the key is active now |
| EventLog.Watch | app/inferenceinquire/monitor.py:441-450 | over any polls, with model changes and transitions logged between them, the log holds for every alert key exactly its edges |
| EventLog.Annotated | app/static/js/data.js:100-133 | from polls to annotations: what the page shows for every alert key is exactly its maximal runs |
| Dashboard.SpansOfEdges | app/static/js/data.js:100-133 | started and ended edges in turns decode to one span each pair, the last one open if it has no end |
| Dashboard.TransitionRoundTrip | app/inferenceinquire/monitor.py:388-412 | for any log that holds the gate's edges, the transition's annotations are exactly the gate's transitions, and one is open exactly while one lasts |
| Dashboard.OnePoll | app/inferenceinquire/monitor.py:388-414 | a poll drives the gate, logs a transition's edge and those of the alerts let through, and keeps gate and log in step with the history |
| Dashboard.Annotations | app/inferenceinquire/monitor.py:388-450 | gate, log and page together: every alert shows as the maximal runs of polls on which the gate let it through, the transition as the gate's transitions |
| Notifier.Notifier.constructor | app/inferenceinquire/notify.py:109-119 | a start takes the open set and the announcement times from the store, with an empty outbox |
| Notifier.Notifier.CurrentAlerts | app/inferenceinquire/notify.py:125 | the alerts to push by key, the last of a key winning, in the order the dictionary iterates |
| Notifier.CurrentIsLast | app/inferenceinquire/notify.py:125 | plainly: the last alert to push under a key is the one |
| Notifier.Notifier.Update | app/inferenceinquire/notify.py:124-156 | each key's new entry and lines are those of the one-key step, which PollSaysWhatIsDue pins to the messages so far; the store holds what memory holds; a message is queued exactly when there is something to say |
| Notifier.Notifier.Deliver | app/inferenceinquire/notify.py:158-171 | the outbox after a round: sent messages gone, failed ones due later or given up |
| Notifier.Drive | app/inferenceinquire/notify.py:106-171 | one notifier after another over one store, through polls, deliveries and restarts: every key's entry, lines and grace are those of its run |
| Notifier.MessagesTellAStory | app/inferenceinquire/notify.py:124-156 | over any run with restarts, each key's lines follow raise, escalations, clear; the open set is what the lines say; a raise that is not critical keeps the cooldown from every earlier one |
| Notifier.PollSaysWhatIsDue | app/inferenceinquire/notify.py:124-149 | over any run with restarts, read off the messages so far, the last start and the poll: an alert that stands at a lower level is escalated, one that does not stand is raised exactly when critical or past the cooldown, one that is gone is cleared exactly after the grace, and nothing else is said |
| Notifier.LevelToldIsWorst | app/inferenceinquire/notify.py:141-144 | while an alert stands, the level last told is the worst that any poll has shown since its raise |
| Notifier.AtMostTwoEscalations | app/inferenceinquire/notify.py:141-144 | between a raise and its clear there are at most two escalations |
| Notifier.OpenAfterGrace | app/inferenceinquire/notify.py:124-156 | after the grace, the open keys are current, and a current key is open or held back by the cooldown |
| Notifier.AttemptsAreBounded | app/inferenceinquire/notify.py:158-171 | a message has at most 62 attempts, and none after one went through |
| Notifier.TriedWhenDue | app/inferenceinquire/notify.py:158-171 | a message is gone exactly when its last attempt went through or came more than an hour after it was written, and until then every round from the retry interval on tries it |
| Notifier.Digest | app/inferenceinquire/notify.py:150-156 | a message shows a prefix of the lines and counts the rest, and only a full one has a rest |
| Notifier.BackAfterHold | app/inferenceinquire/alerts.py:74-91 | after a restart the gate lets a condition that holds on every poll through exactly when its hold is over and no transition suppresses it |
| Notifier.FalseClearIff | app/inferenceinquire/notify.py:145-149 | after a restart, an announced alert that holds throughout is called cleared exactly when some poll comes after the grace and before the end of the hold counted from the first poll, or during a suppressing transition; otherwise it stays open and only escalations are said |
| Notifier.RestartNeverFalselyClears | app/inferenceinquire/notify.py:109-149 | gate and notifier together: with the grace of the longest hold and three intervals, an announced alert whose condition holds on every poll after the restart, the first within three intervals, and that no transition suppresses past the grace, is neither cleared nor raised again |
| Notifier.LoadAtRestartFalselyClears | app/inferenceinquire/alerts.py:74-91 | a run in which a model load outlasts the grace and the unreachable server is called cleared |
| Aggregates.AggregateWindow | app/inferenceinquire/schema.py:130-166 | one pass over a window's polls gives NULL for no values and otherwise their sum, the one of them no other exceeds, the one no other undercuts, or the number that times their count is their sum; beside a peak, and nothing else, the mean |
| Aggregates.FoldSplit | app/inferenceinquire/schema.py:102-119 | SUM, MAX and MIN of a table are those of any two parts of it combined; what each is of its column, FoldIs says |
| Aggregates.FoldIs | app/inferenceinquire/schema.py:102-119 | of any column: NULL exactly for no values; SUM is what they add up to in any order; MAX and MIN are among them and at least, or at most, every other |
| Aggregates.AverageIs | app/inferenceinquire/schema.py:102-119 | AVG times the number of values is what they add up to |
| Aggregates.FoldSeqIs | app/inferenceinquire/schema.py:130-166 | the same three over a window's polls |
| Aggregates.MeanIs | app/inferenceinquire/schema.py:130-166 | a window's mean times the number of its values is their sum |
| Aggregates.RowTells | app/inferenceinquire/schema.py:102-119 | a rolled-up row says of its rows what its rule means, with the mean taken for a missing peak, and the mean beside it is that of theirs |
| Aggregates.AverageBetween | app/inferenceinquire/schema.py:102-119 | AVG is NULL only for all NULLs and otherwise lies within any bounds of the values |
| Aggregates.GroupConserves | app/inferenceinquire/schema.py:102-119 | grouping into buckets of any width keeps the total, maximum, minimum or peak of the table |
| Aggregates.GroupStaysBetween | app/inferenceinquire/schema.py:102-119 | grouping an averaged column keeps every value within the bounds of what went in |
| Aggregates.AlignedRangeCommutes | app/inferenceinquire/store.py:267-298 | selecting whole buckets of the grouped table is grouping the rows of that range |
| Aggregates.StoringConserves | app/inferenceinquire/schema.py:130-166 | the stored rows have the total, maximum, minimum or peak of the polls in their windows |
| Aggregates.WindowStaysBetween | app/inferenceinquire/schema.py:130-166 | a window's stored mean lies between its polls |
| Aggregates.AveragesStayBetween | app/inferenceinquire/schema.py:102-166 | at every level of the history and in any chart of it, an averaged column stays between the least and the greatest poll |
| Aggregates.ConservedThroughEveryLevel | app/inferenceinquire/schema.py:102-166 | the sum of a count, the greatest occupancy, the least `healthy` and a GPU's peak over all polls, meant plainly, are what stored rows, 5-minute rows, hourly rows and any chart of them read |
| Aggregates.AlignedRangeConserves | app/inferenceinquire/store.py:267-298 | the same for a range of whole buckets of a rollup table, and a chart of it: they read as the polls stored in that range |
| Rollups.Store.Write | app/inferenceinquire/store.py:87-106 | a row is inserted, or replaces the one of its timestamp |
| Rollups.Store.Rollup | app/inferenceinquire/store.py:324-385 | each level, in turn and on its own, becomes its fold at that time |
| Rollups.Store.Prune | app/inferenceinquire/store.py:387-403 | what is older than each table's cutoff is gone, and nothing else |
| Rollups.InsertedBuckets | app/inferenceinquire/store.py:345-351 | a fold inserts exactly the buckets between cursor and limit that have rows, each the aggregate of every row ever written to it |
| Rollups.FoldKeeps | app/inferenceinquire/store.py:334-385 | a fold, cut off before its cursor moves or not, keeps the rollup equal to the one-shot fold |
| Rollups.PruneKeeps | app/inferenceinquire/store.py:387-403 | a prune keeps it exactly when no row still to be folded is older than the cutoff |
| Rollups.IncrementalEqualsOneShot | app/inferenceinquire/store.py:324-403 | over any run of writes, folds, folds cut short and safe prunes, every retained bucket below the cursor is the group-by of all rows ever written to it, pruned ones included |
| Rollups.PruneIsSafeIff | app/inferenceinquire/store.py:387-392 | all rows still to be folded survive a prune if and only if none of them lies before the cutoff |
| Rollups.PruneIsHarmlessIff | app/inferenceinquire/store.py:324-392 | a prune is safe if and only if a fold that goes past it leaves the rollup equal to the one-shot fold whatever the values of rows no fold had seen |
| Rollups.UnsafeIsWrong | app/inferenceinquire/store.py:324-392 | for any row an unsafe prune takes there is a value with which the next fold disagrees |
| Rollups.FoldMakesSafe | app/inferenceinquire/store.py:334-344 | a completed fold makes pruning safe up to the lag and one bucket before it |
| Rollups.FoldStaysBehind | app/inferenceinquire/store.py:324-344 | a fold writes no bucket that had not ended the lag before, its cursor comes to the last boundary by then, and without completing it leaves the cursor |
| Rollups.FoldsKeepingUpMakeRunSafe | app/inferenceinquire/monitor.py:489-508 | a completed fold of each level no longer before each prune than its cutoff allows makes the whole run safe |
| Rollups.PrunedTooSoon | app/inferenceinquire/store.py:387-392 | a prune that takes all rows of a bucket not folded yet leaves nothing to fold it from |
| Rollups.LostForever | app/inferenceinquire/store.py:324-403 | such a bucket stays out of the rollup whatever happens afterwards |
| Rollups.UnsafePruneLosesABucket | app/inferenceinquire/store.py:324-403 | two writes, a prune and a fold after which a retained bucket below the cursor is missing |
| Counters.Monitor.ReadJournal | app/inferenceinquire/monitor.py:352-355 | each column's difference, and the counters remembered unless the report was empty |
| Counters.ReadCounts | agent/inferenceinquire_agent/journal/parser.py:96-102 | in one life of the agent, under any respawns, a line counts exactly when it is new to that life |
| Counters.SignalsAreLines | agent/inferenceinquire_agent/journal/parser.py:119-131 | the signals of each counter are the log lines of its kind |
| Counters.InvHolds | app/inferenceinquire/derive.py:293-305 | in every run of writes, tails, reads, restarts and polls, what the agent has counted since its last report balances with what was written, read again and skipped |
| Counters.SumIs | app/inferenceinquire/derive.py:293-305 | a column adds up to the signals written from the first report to the furthest line reported, plus those read again, less those skipped and hidden |
| Counters.RightIff | app/inferenceinquire/derive.py:293-305 | after any run the column adds up to the signals written exactly when what was read again is what was skipped and hidden |
| Counters.RightThroughoutIff | app/inferenceinquire/derive.py:293-305 | the column is right after every step exactly when each report replays as much as it skips and hides |
| Counters.RestartIsExactIff | agent/inferenceinquire_agent/runtimes/units.py:12-14 | a new tail's first difference is the signals written exactly when none lies between its start and the furthest line reported, or, when it hides a restart, when the old count was read again |
| Counters.RestartedRunIsExactIff | agent/inferenceinquire_agent/runtimes/units.py:12-14 | the same over runs, for a tail that replays forty lines, with any reports before the agent has its tail |
| Counters.ADropLosesASignal | agent/inferenceinquire_agent/runtimes/units.py:12-14 | a run in which a restart shows as a drop and a signal is in no column |
| Counters.ADropRecountsASignal | agent/inferenceinquire_agent/journal/parser.py:65-75 | a run in which a restart shows as a drop and a signal is in the column twice |
| Counters.HistoryIs | app/inferenceinquire/schema.py:102-166 | from log lines to charts: stored rows, hourly rows and charts of 5-minute rows all add up to that sum |
| Usage.KeyIsStart | app/inferenceinquire/usage.py:31-54 | every moment of the window has its bucket among those returned, for any offset and any positive width |
| Usage.InBucketIff | app/inferenceinquire/usage.py:31-32 | a moment lies in a bucket exactly from the bucket's start to the start of the next |
| Usage.BucketsAreLocal | app/inferenceinquire/usage.py:31-32 | each bucket starts at a whole number of widths on the reader's clock, and a moment's is the last to start by then |
| Usage.Prefill | app/inferenceinquire/usage.py:52-55 | the loop makes exactly the zero buckets that start before the end of the window |
| Usage.AddTokens | app/inferenceinquire/usage.py:56-77 | each bucket's six numbers are what the log of its part of the window says of probes and of everyone else |
| Usage.TokensInAre | app/inferenceinquire/usage.py:56-77 | between any two moments: generated tokens, prompt tokens and requests, of probes and of the others apart, each with NULL as 0, are their own sums over the request log or the matching fields of its hourly rows |
| Usage.Gather | app/inferenceinquire/usage.py:79-91 | the dictionary by timestamp holds the sum of the rows that count, the step of one of them and the busy flag |
| Usage.DrawAddsUp | app/inferenceinquire/usage.py:79-91 | the draws of a moment add up over the cards' rows, however they are parted, and a NULL adds nothing |
| Usage.StepIsGapOrCap | app/inferenceinquire/usage.py:79-91 | a row stands for the time since the row just before it, up to the cap, and for nothing when there is none |
| Usage.WattHours | app/inferenceinquire/usage.py:94 | a watt for an hour is a watt-hour, and energy is proportional to draw and to time |
| Usage.ConstantDraw | app/inferenceinquire/usage.py:92-97 | under a constant draw the energy is that draw over the covered time |
| Usage.AddGpu | app/inferenceinquire/usage.py:92-103 | totals, busy energy, covered time and each bucket's share, in whatever order the timestamps come |
| Usage.AddHost | app/inferenceinquire/usage.py:105-117 | the host's energy, NULL when there is none, and each bucket's share |
| Usage.Collect | app/inferenceinquire/usage.py:119 | the returned rows are all the buckets of the window, in order, none filtered out |
| Usage.UsageReport | app/inferenceinquire/usage.py:12-131 | the six totals, in all and per bucket, are what the log says of probes and of everyone else; energy and coverage are those of the samples in the window |
| Usage.TokensInBuckets | app/inferenceinquire/usage.py:119-127 | the buckets' tokens and requests add up to those of the window |
| Usage.EnergyInBuckets | app/inferenceinquire/usage.py:92-117 | the buckets' energy adds up to the whole |
| Usage.BucketsAddUp | app/inferenceinquire/usage.py:119-131 | bucket sums equal totals for tokens, requests, GPU energy and host energy |
| Usage.GatherIsEnergy | app/inferenceinquire/usage.py:79-95 | when every card has a row at every timestamp, GPU energy is the capped integral of the total draw |
| Usage.LaterRow | app/inferenceinquire/usage.py:79-117 | a row past a cut counts the same in the whole and in the second part, but for one |
| Usage.EnergySplits | app/inferenceinquire/usage.py:79-117 | energy over [a, c) is that over [a, b) and over [b, c), and one capped step of the first row from b on exactly when the row before it lies in [a - cap, b - cap) |
| Usage.ReportsSplit | app/inferenceinquire/usage.py:12-131 | the same for three reports: tokens, requests and host energy always, GPU energy when every card has a row at every timestamp |
| Usage.CoveredAtMost | app/inferenceinquire/usage.py:92-97 | covered time is at most the window and one cap |
| Usage.CoveredIsBounded | app/inferenceinquire/usage.py:79-97 | the report's covered_s keeps that bound when every card has a row at every timestamp |
| Usage.HoleAddsOneCap | app/inferenceinquire/usage.py:79-97 | a hole of any length adds at most one cap to what lies around it |
| Usage.BusyAtMostAll | app/inferenceinquire/usage.py:92-103 | energy drawn while requests ran is at most all the energy |
| Usage.BusyOrIdle | app/inferenceinquire/usage.py:92-103 | busy energy was drawn while at least one request ran, and with that drawn while none did it is all the energy |
| Baseline.MedianFollowsMajority | app/inferenceinquire/store.py:114-127 | if more than half of the values lie in a range, so does the median |
| Baseline.HalfIsNotEnough | app/inferenceinquire/store.py:114-127 | two values show that half of them do not suffice |
| Baseline.LearnsWhatItSees | app/inferenceinquire/monitor.py:232-236 | what is learnt of a model is, by the polls alone, every rate it was seen at over 24 tokens or more |
| Baseline.WindowIsNewest | app/inferenceinquire/store.py:114-127 | once 300 newer observations of a model are there, no older one bears on its norm |
| Baseline.WindowIsAll | app/inferenceinquire/store.py:114-127 | until then all of them count, and there is a norm exactly from 12 on |
| Baseline.Judge.DecodeBaseline | app/inferenceinquire/store.py:114-127 | the median of the model's newest observations, up to the window, or none for too few |
| Baseline.Judge.SlowDecode | app/inferenceinquire/rules.py:60-99 | one poll learns, judges, and keeps the run across polls without an observation |
| Baseline.AlertIffRunOfSlow | app/inferenceinquire/rules.py:60-80 | the alert is up if and only if the last runToAlert observations were all too slow, however many polls without one lie among them |
| Baseline.StaysUntilNotSlow | app/inferenceinquire/rules.py:60-80 | it goes with the first observation that is not too slow and not before |
| Baseline.SlowMinorityIsCaught | app/inferenceinquire/rules.py:60-99 | while most of the window lies in [lo, hi], enough observations slow against lo raise the critical alert, and it is up at every poll from then on |
| Baseline.RecoveryClears | app/inferenceinquire/rules.py:60-80 | one observation that is fast against hi takes it down |
| Baseline.ColdIsCaught | app/inferenceinquire/rules.py:72-99 | without a norm, too few observations or a norm of zero, enough of them under the fixed bar raise the serious alert |
| Baseline.ColdRecovers | app/inferenceinquire/rules.py:72-80 | and one at or over the bar takes it down |
| Journal.CountsAllIff | agent/inferenceinquire_agent/journal/parser.py:96-131 | a log read once counts every signal if and only if their timestamps are positive and strictly increase |
| Journal.TallyCounts | agent/inferenceinquire_agent/journal/parser.py:119-131 | each counter is the number of lines of its kind, and the evicted MiB their sum |
| Journal.OneMoreTail | agent/inferenceinquire_agent/journal/parser.py:96-102 | a tail that starts at or before the point reached leaves the counters of the log read once up to the furthest point |
| Journal.CountsExactlyOnce | agent/inferenceinquire_agent/journal/parser.py:96-131 | over any schedule of such tails, counters and evicted MiB are those of reading the log once |
| Journal.SlotsDoNotInterfere | agent/inferenceinquire_agent/journal/parser.py:133-260 | if a task stays on its slot between loads, a slot's completed requests and live state, the pick included, are those its own lines and the load lines give |
| Journal.DequeHoldsTheNewest | agent/inferenceinquire_agent/journal/parser.py:52-77 | the bounded deque holds the newest of them, and all while no more than its length have completed |
| Journal.JournalParser.ResetLoad | agent/inferenceinquire_agent/journal/parser.py:79-81 | the load record is fresh and the rest untouched |
| Journal.JournalParser.Count | agent/inferenceinquire_agent/journal/parser.py:96-102 | a signal counts unless one as late has counted |
| Journal.JournalParser.Ingest | agent/inferenceinquire_agent/journal/parser.py:104-117 | a line's effect on counters, slots, requests, load record, events and match counts is the specification's, which the results of JournalHistory pin to the log |
| Journal.JournalParser.HandleRelease | agent/inferenceinquire_agent/journal/parser.py:217-226 | a request completes, the deque drops its oldest when full, and the release is told |
| Journal.JournalParser.HandleLoadLine | agent/inferenceinquire_agent/journal/parser.py:240-264 | the load record, and what it forgets and tells |
| Journal.JournalParser.HandleSlotLine | agent/inferenceinquire_agent/journal/parser.py:133-238 | the other lines write to their slot or to the request under way as the specification does, and a launch is told with its pick; what they write is JournalHistory.TrackRunIsTold |
| JournalHistory.TrackRunIsTold | agent/inferenceinquire_agent/journal/parser.py:133-238 | over any log: each field of a completed request, of one under way and of a live slot is that of the last line that says it since the line that started or forgot it; the pick is the slot's last before the launch, the wall time release less launch |
| JournalHistory.LoadRunIsTold | agent/inferenceinquire_agent/journal/parser.py:240-264 | the load record likewise: state, times, path and seconds since the last load began, and each warning since then once, as first said |
| JournalHistory.EmissionsAreTold | agent/inferenceinquire_agent/journal/parser.py:203-264 | every event told is read off the log: a launch with its slot's last pick, a release with its task's last decode count, each new warning once |
| JournalHistory.LastSinceIs | agent/inferenceinquire_agent/journal/parser.py:133-264 | "the last line that says it" plainly: there is one after which none says it and none forgets it |
| JournalHistory.ReadLog | agent/inferenceinquire_agent/journal/parser.py:104-117 | a fresh parser fed any log holds what the log's own history says: every slot, request and completed request, the load record, the last cache limit, the latest events, the lines per pattern, and the counters of all signals exactly when their timestamps tick |
| Follower.ProcessStream.Stop | agent/inferenceinquire_agent/runtimes/streams.py:45-62 | the writers are signalled once, however often it is stopped, and the pipe is left alone |
| Follower.ProcessStream.Close | agent/inferenceinquire_agent/runtimes/streams.py:64-70 | stopped and closed, with no second signal |
| Follower.JournalFollower.Kill | agent/inferenceinquire_agent/journal/follower.py:52-78 | on the heap, the state machine's stop for the watchdog and its close for the reader, for every tail there is |
| Follower.JournalFollower.Spawn | agent/inferenceinquire_agent/journal/follower.py:35-50 | the old tail is closed, the load record forgotten exactly for another target, and a fresh tail followed if it starts |
| Follower.SpawnIsItsSteps | agent/inferenceinquire_agent/journal/follower.py:35-50 | the reader's steps inside the lock come to that whole |
| Follower.LocksKeep | agent/inferenceinquire_agent/journal/follower.py:35-133 | each lock is held by exactly the thread whose place in its code says so |
| Follower.StreamsKeep | agent/inferenceinquire_agent/runtimes/streams.py:45-70 | no step leaves a live tail that is not the followed one, or a reader on a closed pipe |
| Follower.SourcesKeep | agent/inferenceinquire_agent/journal/follower.py:35-51 | no step leaves lines of another target in the load record |
| Follower.InvHolds | agent/inferenceinquire_agent/journal/follower.py:35-133 | all three hold in every reachable interleaving of reader, watchdog, snapshots and switches |
| Follower.OneLiveTail | agent/inferenceinquire_agent/journal/follower.py:35-78 | at most one tail has not been ended, and it is the followed one |
| Follower.OnlyTheReaderCloses | agent/inferenceinquire_agent/journal/follower.py:52-78 | a pipe is closed by the reader alone, holding the lock |
| Follower.NeverReadsAClosedPipe | agent/inferenceinquire_agent/runtimes/streams.py:45-70 | while the reader is blocked in a read, its pipe is open and it holds no lock of the follower |
| Follower.LoadIsOfTheTarget | agent/inferenceinquire_agent/journal/follower.py:35-51 | the load record comes only from lines of the target followed now |
| Follower.RecordIffHeld | agent/inferenceinquire_agent/journal/follower.py:35-51 | the load record holds lines of a target exactly when one was taken from its tail and no other target has been turned to since: a tail started again for the same unit keeps it |
| Follower.NothingIsLeft | agent/inferenceinquire_agent/journal/follower.py:52-78 | every tail but the followed one has been ended and its pipe closed, and `alive` is shown exactly while the reader is on a tail |
| Follower.NoWaitCycle | agent/inferenceinquire_agent/journal/follower.py:60-99 | no thread waits, directly or through another, for itself, with the buffered reader's own lock among the locks |
| Follower.NobodyWaitsForABlockedRead | agent/inferenceinquire_agent/journal/follower.py:60-67 | while the reader holds the pipe's lock in a read, no thread waits for it, nor for one that does |
| Follower.ReaderGetsCloser | agent/inferenceinquire_agent/journal/follower.py:101-133 | while another unit serves, every step of the reader lowers the rank |
| Follower.OthersDoNotSetBack | agent/inferenceinquire_agent/journal/follower.py:80-99 | the other threads never raise it, and the watchdog lowers it while the reader is blocked on a live tail |
| Follower.SomeoneCanMove | agent/inferenceinquire_agent/journal/follower.py:80-133 | the reader, the watchdog or the holder of a wanted lock can always take a step |
| Follower.AstrayIsBounded | agent/inferenceinquire_agent/journal/follower.py:35-133 | no run stays on the wrong unit for more than 44 steps that bring it closer |
| Follower.StuckForever | agent/inferenceinquire_agent/journal/follower.py:80-133 | a reader on a tail of the active unit's name in another container stays on it in every run in which no unit changes and no tail ends by itself |
| Follower.StuckIsReachable | agent/inferenceinquire_agent/journal/follower.py:101-133 | a run from the start leads there |
| Follower.FollowsAnewIff | agent/inferenceinquire_agent/journal/follower.py:80-133 | from a read of a live tail of another target the active one can come to be followed if and only if the names differ or the watchdog has just read another name |
| Gguf.ReadItems | agent/inferenceinquire_agent/collectors/gguf.py:55-70 | array elements read, nested ones included, never exceed the bytes there are, whatever count is declared |
| Gguf.ReadPairs | agent/inferenceinquire_agent/collectors/gguf.py:83-93 | pairs and elements read together never exceed the bytes, and a short count means truncation |
| Gguf.GVal | agent/inferenceinquire_agent/collectors/gguf.py:42-71 | the recursive reader equals the value function, failures included |
| Gguf.GItems | agent/inferenceinquire_agent/collectors/gguf.py:55-70 | the element loop equals it while keeping only the first elements of a wanted array |
| Gguf.GPair | agent/inferenceinquire_agent/collectors/gguf.py:84-90 | one key and its value, or the failure |
| Gguf.ReadMeta | agent/inferenceinquire_agent/collectors/gguf.py:82-93 | the loop's dictionary is the pairs read before the first failure, marked when there was one |
| Gguf.ParseHeader | agent/inferenceinquire_agent/collectors/gguf.py:74-93 | the whole reader: empty without the magic, an exception inside the first 24 bytes, the dictionary otherwise |
| Gguf.ScalarsAre | agent/inferenceinquire_agent/collectors/gguf.py:42-59 | what each scalar type code reads: how many bytes, the first weighing least, and which are signed, floating or a bool |
| Gguf.KeepIff | agent/inferenceinquire_agent/collectors/gguf.py:83-89 | an array is kept exactly when the word is somewhere in its key |
| Gguf.FillIsLast | agent/inferenceinquire_agent/collectors/gguf.py:82-90 | the dictionary has the value of each key's last pair, and no other keys |
| Gguf.ReadInvertsWrite | agent/inferenceinquire_agent/collectors/gguf.py:42-71 | a value of any type and nesting, written anywhere in a buffer, reads back as itself, an unwanted array as its count |
| Gguf.ReadBackEntry | agent/inferenceinquire_agent/collectors/gguf.py:84-90 | so does a key with its value |
| Gguf.PrefixReadsPrefix | agent/inferenceinquire_agent/collectors/gguf.py:74-93 | the pairs read from any prefix of any buffer are a prefix of those read from the whole |
| Gguf.CutFileReadsWholeEntries | agent/inferenceinquire_agent/collectors/gguf.py:74-93 | a written file cut anywhere after its header reads as exactly the entries before the cut, marked unless all are there |
| Gguf.FileRoundTrip | agent/inferenceinquire_agent/collectors/gguf.py:74-93 | reading inverts writing, whatever follows the entries |
| DockerLog.DemuxInvertsEncode | agent/inferenceinquire_agent/runtimes/docker.py:216-225 | any frames' encoding demultiplexes to their payloads up to the first empty frame |
| DockerLog.FrameOnTheWire | agent/inferenceinquire_agent/runtimes/docker.py:216-225 | byte by byte: the last four of eight header bytes, the first of them weighing most, say how many bytes of payload follow |
| DockerLog.StripCr | agent/inferenceinquire_agent/runtimes/docker.py:240 | all carriage returns at the end go, and nothing else |
| DockerLog.LinesAppend | agent/inferenceinquire_agent/runtimes/docker.py:233-242 | the lines of two parts are those of the first, then those of the second with the unfinished rest put in front |
| DockerLog.LinesPartition | agent/inferenceinquire_agent/runtimes/docker.py:233-242 | lines and rest put together are the bytes, and no line holds a newline |
| DockerLog.LogStream.ReadExactly | agent/inferenceinquire_agent/runtimes/docker.py:207-214 | exactly n bytes of the wire however it is cut into reads, or none when it ends before |
| DockerLog.LogStream.NextChunk | agent/inferenceinquire_agent/runtimes/docker.py:216-225 | one frame's payload, or raw bytes with a TTY |
| DockerLog.LogStream.TakeLines | agent/inferenceinquire_agent/runtimes/docker.py:236-242 | the finished lines leave the buffer in order, the rest stays |
| DockerLog.LogStream.Iterate | agent/inferenceinquire_agent/runtimes/docker.py:227-242 | the lines yielded are those of what the wire carries, each shaped, for any cut into reads |
| DockerLog.FollowFrames | agent/inferenceinquire_agent/runtimes/docker.py:207-242 | from frames to lines: exactly the finished lines of the payloads in order, up to the first empty frame |
| Demo.MomentIsLatest | app/inferenceinquire/demo.py:106-109 | the frame served is the latest at or before now: every later one of this pass or the next lies ahead |
| Demo.MomentIsMonotone | app/inferenceinquire/demo.py:106-109 | time never takes the replay back |
| Demo.PassIsTheRecording | app/inferenceinquire/demo.py:70-109 | in every pass frames are as far apart as recorded, and the last is shown for one poll interval |
| Demo.Answer | app/inferenceinquire/demo.py:111-132 | a path's last recorded answer at or before the frame, moved to the pass |
| Demo.LastAnswerIs | app/inferenceinquire/demo.py:111-118 | plainly: the answer of the last frame up to this one that has one |
| Demo.ReplayTransport.Handle | app/inferenceinquire/demo.py:161-173 | all requests after one for the agent are answered from its moment |
| Demo.WalkAt | app/inferenceinquire/demo.py:138-150 | shifting a tree moves each leaf by its own path and keeps the shape |
| Demo.ServedIsShown | app/inferenceinquire/demo.py:106-109 | a frame is served only if none was recorded at its time after it |
| Demo.ShownIsServed | app/inferenceinquire/demo.py:106-109 | and such a frame is served in every pass, at its own time |
| Demo.SeriesNeverFallsIff | app/inferenceinquire/demo.py:89-109 | numbers that some frames hold, moved on by a step a pass, never fall in any number of passes if and only if those served rise within a pass and span no more than a step |
| Demo.ServedIs | app/inferenceinquire/demo.py:111-150 | what is served at a path is what the last answer holds there, moved on by what a pass adds |
| Demo.TimesKeepTheirDistance | app/inferenceinquire/demo.py:134-150 | a recorded time is served as long before its frame is shown as it was recorded before the frame |
| Demo.CountersGoOn | app/inferenceinquire/demo.py:89-96 | in each pass a counter starts where it ended in the pass before, and keeps its recorded differences |
| Demo.MetricsGoOn | app/inferenceinquire/demo.py:98-132 | so does a counter of the server's own |
| Demo.NeverFallsIff | app/inferenceinquire/demo.py:89-150 | the same of any number anywhere in the agent's answers, whatever frames lack it and whatever requests failed |
| Demo.TimesNeverFallIff | app/inferenceinquire/demo.py:134-150 | a time that rises in the recording never goes back in any number of passes if and only if any two served lie within a period |
| Demo.CountersNeverFallIff | app/inferenceinquire/demo.py:89-96 | a counter that rises in the recording never falls back if and only if its step is known or no two served differ |
| Demo.StepIsKnownIff | app/inferenceinquire/demo.py:89-96 | a step is known if and only if the path is a counter's and the agent's own answers of the first and the last frame both hold it |
| Demo.FirstFrameWithout | app/inferenceinquire/demo.py:77-96 | a recording whose last answer is whole and whose counter still falls back: the first answer failed or lacks it |
| Demo.LastFrameFailed | app/inferenceinquire/demo.py:77-96 | and one whose last answer failed |
| Demo.MetricsNeverFallIff | app/inferenceinquire/demo.py:98-132 | a counter of the server's own that rises in the recording never falls back if and only if its step is known or no two served differ |

## Left out

- HTTP, WebSocket framing, SQLite, subprocesses and sockets: a send succeeds or fails, a table is a map or a sequence, a read returns any piece of what is left.
- Regular expressions, UTF-8, JSON text and timestamp parsing: log lines arrive matched, strings and floats of GGUF files stay bytes and bit patterns.
- Rounding: times, rates and energies are exact reals.
- Hash collisions: digests are a parameter, assumed injective where two sections are told apart by them.
- Threads: the follower's two threads and the snapshots are steps of a state machine, a step being what runs between two points where another can run; only what they do to the tails is also a class. In `SlimServer` what runs during an await is any sequence of the other parties' steps.
- The page: its rebuild of a tick and its decoding of events are loops here, its state and connection steps of the protocol.
- LAST columns: stored as the last poll's value and rolled up as a maximum, they conserve neither.
- The hourly request rollup: a request stored after its hour is folded is missing from it; `Usage` takes its rows as given.
- Tables are modelled one column and one card at a time; the cursor is that column's, and the cursor shared by the sample and GPU tables is not modelled apart.
- GPU steps when cards have rows at different times: the step is that of the first row met; what `Usage` says of GPU energy as an integral, and of covered time, is for cards that have rows at the same times.
- Which history table serves a range, prices, medians of idle draw and energy per token: single expressions.
- Message text and its cut to a number of lines, and the wording of alerts.
- Delivery beside an update: a delivery round and an update do not overlap in the model.
- Python's recursion limit in the GGUF reader, which a deeply nested file could reach.
- Trimming the table of decode observations to its newest twenty thousand rows, which matters only past many models' windows.
- The rules for GPU power, request telemetry and the BMC log, which keep a run in the same way as slow decode; the stateless rules; ratios and rates.
- The demo's other recorded bodies, its history seed, and the text form of its metrics.
- The page's rendering, the host and guest discovery, and the other collectors.
- Journal.SlotsDoNotInterfere: takes a task to stay on one slot between loads, as the server assigns them.
- SlimProtocol.SlimTicksRefineFullOnes: takes digests to be injective and no section of a snapshot to be JavaScript's undefined, which JSON cannot carry.
- Counters.SumIs: one unit's log and one dashboard's life; a dashboard that starts again begins its sums anew, and a unit switch starts another log.
- Rollups.Store.Rollup: the hourly table of requests, folded in the same method, is not modelled.
- Rollups.Store.Prune: the log of requests, the events and the decode observations, pruned in the same method, are not modelled.
- Usage.UsageReport: busy share, idle draw, cost and energy per token, single expressions of what it does state, are not modelled.
- DockerLog.LogStream.Iterate: how a line is shaped is a parameter; that one without a stamp gets the clock's time is not modelled.
- Journal.JournalParser.Ingest: event details are kept as values, not as text.
- Usage.ReportsSplit: the table and the cap a window is served with depend on its length; the result is for a window and parts served by one table with one cap.
