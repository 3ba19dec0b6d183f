# Freezeit control plane in Dafny

Freezeit freezes background apps on Android: a Rust daemon decides and acts on processes, and a Java hook inside
`system_server` suppresses background work on its behalf. This project models the daemon's control plane and the two
codecs it shares with the hook, and proves what has to hold over every run of it.

* **Control pass** (`Domain`, `Trace`, `Transactions`, `ControlState`, `Actions`, `ControlTurn`, `TurnReference`,
  `TurnRefinement`, `TurnTheorems`, `ControlPass`, `PromotionGate`, `Audit`, `Deferral`). The state is a class with the
  source's maps and sets. Discovery, identity checks, freezes, thaws, kills, samples and ledger answers come from the
  class `World`, whose methods answer arbitrarily and record every call in a ghost trace. Each method is specified by an
  account of how it went (`Story`, `Act`, `Turn`, `Step`), and the theorems are about all accounts and all chains of
  steps. `TurnReference` says over the discovered batch, the states and the recorded calls alone, with the source's
  numbers and names, what a turn has to do; `TurnRefinement` proves that every account does it. `PromotionGate` joins
  the pass with the ledger.
* **SIGSTOP ledger** (`Ledger`, `LedgerTheorems`, `Recovery`). Two files, the main ledger and a provenance sidecar that
  only counts for one generation of the main file. Every operation is the list of states it takes the files through,
  so a crash is a prefix of that list. Every access to the files, failed ones included, is kept in a ghost log.
  `Recovery` uses this ledger for signals and for recovery after a restart.
* **App config** (`Text`, `AppConfig`, `LineTheorems`, `ConfigRewrite`, `RewriteTheorems`). The line format, loading,
  merging, and the line-by-line rewrite.
* **Commit protocol** (`HookPayload`, `ConfigCommit`, `CommitTheorems`, `Interleaving`). One request's effects on
  memory, disk and hook, with a ghost log of every access, and then the two threads, the action gate and the detached
  copies as a state machine.
* **Smaller machines** (`JsonScanner`, `JsonTheorems`, `ManagerLog`, `HookSnapshot`). The hand-written JSON scanner
  against all JSON objects (by the grammar of RFC 8259), the bounded deduplicating log behind the 128-entry ring, and
  the hook's runtime snapshot with its copy-on-write set.

What the proofs take from their surroundings: a main ledger that an older daemon replaces gets a generation no sidecar
claim names (the inode stands for it; the daemon's own rewrites do not need this); rewriting and reloading use one
resolver, and no package is named like another app's UID; the manager socket has a single accept loop; clocks do not
run backwards where a row says so. Stored UIDs may repeat, and `RewriteReloadsExactly` says when a rewritten file still
loads as memory; with distinct UIDs it always does (`RewriteReloads`).

Where the sources promise something else than the code does, the code is followed and the difference proved. Extended
and duplicate ledger rows are said never to be promoted, but can be once the main file has been rewritten
(`ReadyOnceRewritten`). A tracked app whose policy was removed is said to be thawed, but the daemon looks for processes
of controlled UIDs only and drops it frozen (`SweepMayThawNothing`). A frozen batch is forgotten if the rescan after it
fails (`LostBatchStaysFrozen`). Escaped text beyond ASCII does not read back (`EscapeRoundTrip`). A sync claim can be
ahead of the hook while a request is at work (`SyncClaimInFlight`). Recovery of a process without a cgroup path does not
unfreeze its binder.

Check the project with `dafny verify dfyconfig.toml`. No proof relies on an induction that Dafny guesses
(`--manual-lemma-induction` turns the guesses off), and `{:induction false}` marks lemmas that a guess only misleads.

## Model

| member | source | states |
|---|---|---|
| ControlPass.Pass | freezeitDaemon/src/app/controller.rs:1138-1857 | one whole pass is a sweep followed by the turns of its control records in order, up to the first that fails, each with the input of this pass and starting from the state and the download samples the one before left; every call it makes is one of theirs, and the audit clock advances once |
| ControlPass.Sweep | freezeitDaemon/src/app/controller.rs:1151-1206 | what belongs to no controlled UID is dropped before any record is looked at, after an attempt to thaw the processes that are found of it |
| ControlPass.SweepMayThawNothing | freezeitDaemon/src/sys/socket.rs:405-441 | where discovery finds no process of uncontrolled UIDs, as with the daemon's own snapshot, which holds controlled UIDs only, the sweep only discovers: it drops the tracked apps of all other UIDs without a thaw |
| ControlPass.ForgetSamples | freezeitDaemon/src/app/controller.rs:1162-1184 | exactly the download baselines of remembered but uncontrolled UIDs are forgotten |
| ControlPass.RunLoop | freezeitDaemon/src/sys/socket.rs:385-484 | any number of passes and disablings, failed ones included, run one after another: each command makes the steps its own input asks for, with state, download samples and audit clock handed on, and the tracking invariant is kept |
| ControlPass.DisableControl | freezeitDaemon/src/sys/socket.rs:462-484 | disabling control is one thaw of everything that is tracked |
| ControlPass.RunIsGuarded | freezeitDaemon/src/app/controller.rs:1971-2157 | in every run each freeze, kill and thaw directly follows a successful identity check of that process |
| ControlPass.RunIsPermitted | freezeitDaemon/src/app/controller.rs:1208-1506 | in every run each freeze or kill hits the batch just discovered, of one package, of a control-mode record that is neither system-range nor protected nor in the foreground; not tracked unless the audit is due and saw it running; past its recorded due time unless there is no delay; if it is a download app, slow since its last sample by the whole history of the run; and with the backend its mode and batch call for |
| ControlPass.ControlLoop | freezeitDaemon/src/sys/socket.rs:385-484 | the control loop over any commands and any answers: in the trace it really recorded, every kernel action is checked; every sweep, turn and disabling is right by the reference; and every freeze and kill is one that its command asks for: of a record of its config, outside its foreground, at its time, under its settings and audit, permitted by state and sample history, with the backend that the mode, the signal option, the evidence and the device call for |
| ControlPass.EachRecordHasItsTurn | freezeitDaemon/src/app/controller.rs:1151-1217 | the sweep keeps exactly the UIDs of the control-mode records, and each of these records has its own turn, at its place among them and with what this pass knows, unless an earlier turn failed |
| ControlPass.LoopAuditsExactly | freezeitDaemon/src/app/controller.rs:1859-1890 | in the loop, with fixed settings and a clock that does not run backwards, a pass audits exactly if it is a minute after the first one, keeps the gap of every audit before it (a minute in the first quarter of an hour, then 30, 60 or 120 minutes), and is in that quarter or has the option on |
| ControlPass.SwitchedOnLateAudits | freezeitDaemon/src/app/controller.rs:1859-1890 | fixed settings are needed: after a late pass with the option off, the next pass audits at once exactly if the option is on |
| ControlPass.StepIsSound | freezeitDaemon/src/app/controller.rs:1138-1857 | every step, also of a pass that fails, keeps the invariant and the taint, and only a record's turn can freeze, kill or earn SignalOnly |
| ControlPass.TaintIsAbsorbing | freezeitDaemon/src/app/controller.rs:601-659 | over every run an ownership entry that is not SignalOnly never becomes SignalOnly while it exists |
| ControlPass.SignalOnlyWasEarned | freezeitDaemon/src/app/controller.rs:1713-1782 | wherever a run has SignalOnly that it did not start with, one step earned it by a fully confirmed direct stop of an identity without an entry, and it has held ever since |
| ControlPass.PassLeavesNothingForeign | freezeitDaemon/src/app/controller.rs:1170-1206 | after a pass, even a failed one, due times, blocked signatures and detached ownership belong to controlled UIDs only |
| PromotionGate.ResidualStays | freezeitDaemon/src/sys/procfs.rs:228-299 | a residual entry stays residual through crashes, failures and whatever is done for other processes |
| PromotionGate.ResidualStopsPromotion | freezeitDaemon/src/app/controller.rs:1923-1949 | a batch with a process whose ledger entry is residual, recorded before or after a restart and unresolved since, is stopped without asking for a promotion and earns no SignalOnly, whatever memory holds |
| TurnTheorems.TurnIsSafe | freezeitDaemon/src/app/controller.rs:1209-1506 | every possible turn of a record is aimed, checked and permitted |
| TurnTheorems.TurnIsSound | freezeitDaemon/src/app/controller.rs:1209-1854 | a turn changes only what is remembered of its own UID, keeps the invariant and removes no taint in place |
| TurnTheorems.TurnEarnsSignalOnly | freezeitDaemon/src/app/controller.rs:1713-1782 | an identity newly SignalOnly had no entry and every process of its batch was stopped without a cgroup path with its promotion confirmed |
| TurnTheorems.NothingFrozenIsForgotten | freezeitDaemon/src/app/controller.rs:1507-1783 | a process that a turn froze and did not thaw is tracked afterwards or was gone at the rescan, and is neither exactly when the rescan itself failed |
| TurnTheorems.LostBatchStaysFrozen | freezeitDaemon/src/app/controller.rs:1632 | when the rescan after a complete freeze fails, which the function's fallible discovery parameter allows and the daemon's own snapshot closure never does, every process of the batch stays frozen and the app leaves or stays out of tracking, with no other app affected |
| TurnRefinement.TurnIsRight | freezeitDaemon/src/app/controller.rs:1208-1854 | every possible turn is right by the reference, in its calls and in the whole state after it: the gates in their order with their delays, intervals and names; a tracked app in the foreground or overslept is thawed process by process with the backend that stopped it, and leaves tracking exactly if every check and thaw succeeded; a forbidden one wherever it is tracked; and else the action |
| TurnRefinement.ActionIsRight | freezeitDaemon/src/app/controller.rs:1490-1823 | mode 10 kills; modes 20 and 21, and 30 and 31 with the signal option, stop by signal; otherwise a batch in use is left alone, one that can be is frozen through the cgroup first, and the rest is stopped by signal; nothing is frozen before the whole batch is confirmed, all of it is if no call fails, and the state after it follows from what failed |
| TurnRefinement.ThawIsRight | freezeitDaemon/src/app/controller.rs:829-877 | a thaw checks every process of a batch of its own package in order and directly thaws each confirmed one, without cgroup path exactly after a stop by signal alone; a batch with a foreign package is not touched |
| TurnRefinement.RightTurnShows | freezeitDaemon/src/app/controller.rs:1013-1026 | a kill shows mode 10; a freeze another mode, and with modes 30 and 31 without the signal option an idle batch; a freeze through the cgroup such a mode, the binder freezer and a cgroup path on every process |
| TurnRefinement.IdleMeans | freezeitDaemon/src/app/freezer_backend.rs:147-170 | a freeze is held back exactly if a process is foreground, visible or unknown, or its binder state mentions work in letters of either case |
| TurnRefinement.SweepIsRight | freezeitDaemon/src/app/controller.rs:1151-1206 | the sweep tries every tracked identity of an uncontrolled UID with its own backend, and what stays remembered of such UIDs is only what is still frozen |
| TurnRefinement.DisablingIsRight | freezeitDaemon/src/app/controller.rs:691-722 | disabling tries every tracked identity with its own backend and remembers only what is still frozen |
| TurnRefinement.SamplesAreRight | freezeitDaemon/src/app/controller.rs:1412-1475 | a turn that samples evaluates exactly that sample, and a UID without processes or forbidden loses its baseline |
| ControlTurn.TakeTurn | freezeitDaemon/src/app/controller.rs:1209-1286 | one record's turn does exactly what its account says, in state, in calls and in the download samples, and fails exactly when a discovery failed |
| ControlTurn.Consider | freezeitDaemon/src/app/controller.rs:1330-1475 | the audit, delay and download gates, in the order of the pass, with the sample that the download gate leaves |
| ControlTurn.FreezerAction | freezeitDaemon/src/app/controller.rs:1508-1710 | freeze, then rescan; on failure fall back to a stop by signal that is never promoted |
| ControlTurn.SignalAction | freezeitDaemon/src/app/controller.rs:1713-1783 | a direct stop, with promotion decided before it and ownership recorded after it |
| ControlTurn.TerminateAction | freezeitDaemon/src/app/controller.rs:1784-1821 | a kill of the whole batch clears what was remembered of it, a failed one nothing |
| Actions.ActFits | freezeitDaemon/src/app/controller.rs:1507-1823 | whatever backend an action uses and however it goes: its calls are checked and aimed, one package only, one identity changes, the invariant holds, and SignalOnly is stored exactly by a fully confirmed direct stop |
| Actions.DirectStopExact | freezeitDaemon/src/app/controller.rs:2163-2192 | a signal transaction is a fully confirmed direct stop exactly when it completed and every promotion was confirmed |
| Actions.MayPromote | freezeitDaemon/src/app/controller.rs:1923-1949 | promotion is asked for exactly when memory holds no unresolved ownership and every process has a start time and no recorded stop other than SignalOnly |
| Actions.PromoteAll | freezeitDaemon/src/app/controller.rs:2163-2192 | every process's promotion is asked for in batch order, and it counts only if all were confirmed |
| Actions.CleanRescanLosesTrack | freezeitDaemon/src/app/controller.rs:1632-1697 | a process still held after a rescan that was rolled back cleanly had vanished at the rescan |
| Transactions.FreezeTransaction | freezeitDaemon/src/app/controller.rs:2049-2157 | the calls made and the outcome reported are those of one story: refused before any freeze, completed, or undone |
| Transactions.TransactionSafe | freezeitDaemon/src/app/controller.rs:2049-2157 | no call on an unchecked process or outside the batch, and only a one-package batch is frozen |
| Transactions.FreezesExactlyAppliedPrefix | freezeitDaemon/src/app/controller.rs:2087-2157 | the processes frozen are exactly the reported number of them, in batch order: all n, or a proper prefix of a failed batch |
| Transactions.RollbackOrder | freezeitDaemon/src/app/controller.rs:2087-2157 | rollback attempts exactly the frozen prefix, last process first |
| Transactions.NothingHeldAfterCleanFailure | freezeitDaemon/src/app/controller.rs:2049-2157 | applied is rolled back plus rollback failures, a failure without rollback failures holds nothing, and one without possible residue made no freeze call |
| Transactions.CompletedHoldsBatch | freezeitDaemon/src/app/controller.rs:2087-2157 | a completed transaction thaws nothing and leaves every process of its batch frozen |
| Transactions.CleanRollbackHoldsNothing | freezeitDaemon/src/app/controller.rs:2087-2157 | a rollback without failures leaves no process of the batch frozen |
| Transactions.UnfreezeIdentity | freezeitDaemon/src/app/controller.rs:829-878 | every process is tried; a foreign package in the batch stops the thaw before any call |
| Transactions.UnfreezeReleases | freezeitDaemon/src/app/controller.rs:829-878 | a process whose attempt was done is released by the thaw |
| Transactions.TerminateTransaction | freezeitDaemon/src/app/controller.rs:1971-2047 | the whole batch is checked first, then killed in order up to the first failure |
| Transactions.TerminationSafe | freezeitDaemon/src/app/controller.rs:1971-2047 | a kill hits only a checked process of a one-package batch and freezes nothing |
| ControlStateTracking.RuntimeControlState.TrackFrozen | freezeitDaemon/src/app/controller.rs:601-621 | an identity becomes tracked; SignalOnly survives only where nothing else was ever recorded |
| ControlStateTracking.RuntimeControlState.ClearFrozen | freezeitDaemon/src/app/controller.rs:637-641 | an identity and everything remembered of its freeze is forgotten |
| ControlStateTracking.RuntimeControlState.MarkAbnormalThaw | freezeitDaemon/src/app/controller.rs:643-653 | an app found running stops being tracked but keeps a weakened ownership entry |
| ControlStateTracking.RuntimeControlState.ThawAll | freezeitDaemon/src/app/controller.rs:691-722 | the state and the calls are those of one thaw attempt per tracked identity, and the result is true exactly when nothing stays tracked |
| ControlStateTracking.RuntimeControlState.ThawIdentities | freezeitDaemon/src/app/controller.rs:880-966 | each identity is attempted once, whatever happened to the others |
| ControlStateTracking.ThawsClearExactlyClean | freezeitDaemon/src/app/controller.rs:880-966 | exactly the identities whose attempt left nothing to thaw stop being tracked |
| ControlStateTracking.AllCleanMeansNoneLeft | freezeitDaemon/src/app/controller.rs:691-722 | nothing stays tracked exactly when every attempt was clean |
| ControlStateTracking.ThawsUseOwnOwnership | freezeitDaemon/src/app/controller.rs:880-966 | each thaw uses the backend its own ownership asks for, undisturbed by earlier attempts |
| Audit.QuietDeadline | freezeitDaemon/src/app/controller.rs:1859-1890 | until the first audit the deadline stays one minute after the first pass |
| Audit.AuditsExactly | freezeitDaemon/src/app/controller.rs:1859-1890 | for fixed settings and a clock that does not run backwards, a pass audits exactly if it comes at least a minute after the first one, keeps the gap of every audit before it, and audits are possible at its time |
| Deferral.DownloadDeferral.Evaluate | freezeitDaemon/src/app/download_deferral.rs:38-74 | the answer and the remembered sample of one evaluation |
| Deferral.OneSampleRefinesHistory | freezeitDaemon/src/app/download_deferral.rs:34-74 | the one remembered sample answers exactly as the whole history does: proceed when the last happening for the UID was a usable sample, earlier and not larger, and the rate since is at most the limit |
| Deferral.DivisionBound | freezeitDaemon/src/app/download_deferral.rs:58-74 | the integer division of the source compares the rate with the limit exactly as the product form does |
| Ledger.Store.ReadMain | freezeitDaemon/src/sys/procfs.rs:725-758 | every named process is known, and is canonical exactly when it has one row and that row has two fields |
| Ledger.Store.ReadSide | freezeitDaemon/src/sys/procfs.rs:760-800 | a claim counts exactly when it is the only statement about its process; an unreadable line or file distrusts all |
| Ledger.Store.RewriteBoth | freezeitDaemon/src/sys/procfs.rs:811-828 | claims are cleared, the main file replaced, the claims rebound, in that order, whatever fails |
| Ledger.Store.RecordStop | freezeitDaemon/src/sys/procfs.rs:228-251 | every state of the two files during a recording, and every access; no access failed exactly if it was sound |
| Ledger.Store.PromoteStop | freezeitDaemon/src/sys/procfs.rs:261-299 | every state of the two files during a promotion, every access, and its answer |
| Ledger.Store.TakeStop | freezeitDaemon/src/sys/procfs.rs:311-335 | every state of the two files during a taking, every access, and its answer |
| Ledger.Store.RecordedOwnership | freezeitDaemon/src/sys/procfs.rs:687-711 | a reader begins with the main file and reports the ledger's map, or something weaker if a logged access failed |
| Ledger.MainTextMeans | freezeitDaemon/src/sys/procfs.rs:830-839 | a written main file names exactly the given processes, canonically |
| Ledger.SideTextMeans | freezeitDaemon/src/sys/procfs.rs:841-856 | a written sidecar makes exactly the given claims, for one generation |
| LedgerTheorems.RecordRefines | freezeitDaemon/src/sys/procfs.rs:228-251 | recording, the very first one included, is one update of the map: this process becomes ResidualUnknown, every other is unchanged |
| LedgerTheorems.TakeRefines | freezeitDaemon/src/sys/procfs.rs:311-335 | taking is one removal from the map and tells whether there was something to remove |
| LedgerTheorems.PromoteRefines | freezeitDaemon/src/sys/procfs.rs:261-299 | promotion makes exactly this entry SignalOnly, exactly on promotable rows; any other answer changed nothing |
| LedgerTheorems.RecordOnlyWeakens | freezeitDaemon/src/sys/procfs.rs:811-876 | every state an interrupted or failing recording can leave strengthens no entry |
| LedgerTheorems.TakeOnlyWeakens | freezeitDaemon/src/sys/procfs.rs:811-876 | every state an interrupted or failing taking can leave strengthens no entry |
| LedgerTheorems.ReplacedReadsSignalOnly | freezeitDaemon/src/sys/procfs.rs:46-66 | after the main file alone was replaced, an entry reads SignalOnly exactly if its row there is canonical and a readable sidecar makes one statement about it, for the new file's generation; a fresh generation therefore proves nothing |
| LedgerTheorems.RecycledGenerationRevivesClaim | freezeitDaemon/src/sys/procfs.rs:46-66 | one such input: a recycled inode revives a stale claim |
| LedgerTheorems.SignalOnlyWasPromoted | freezeitDaemon/src/sys/procfs.rs:228-335 | over every history of complete, failing and interrupted operations and replacements, an entry that reads SignalOnly was so from the start or became so by a promotion that reached its write, and nothing that should have ended that came later |
| LedgerTheorems.EntryOutlivesCrashes | freezeitDaemon/src/sys/procfs.rs:228-335 | an entry is only removed by taking it or by a replacement |
| LedgerTheorems.ReadyOnceRewritten | freezeitDaemon/src/sys/procfs.rs:42-45 | an extended or repeated row becomes canonical and promotable exactly when some recording or taking of any process got as far as writing the main file, over every history that neither takes the entry nor replaces the file |
| LedgerTheorems.PromotedOnceRewritten | freezeitDaemon/src/sys/procfs.rs:261-299 | before that no promotion of it succeeds, after that every one does in which no access fails |
| LedgerTheorems.ExtendedRowIsPromoted | freezeitDaemon/src/sys/procfs.rs:830-839 | one extended row and a recording of another process: the row cannot be promoted before, and is promoted to SignalOnly after |
| Recovery.Device.SendStop | freezeitDaemon/src/sys/signal.rs:32-47 | a stop that reports success is on record; one that fails to be recorded is continued again if possible; it fails only if a signal or a logged access does |
| Recovery.Device.SendContinue | freezeitDaemon/src/sys/signal.rs:48-60 | the record is taken before the signal and put back if the signal fails; it fails only if a signal or a logged access does |
| Recovery.Device.Recover | freezeitDaemon/src/app/controller.rs:2490-2553 | each kernel action follows an identity check, SIGCONT goes only to owned stops, and with no failure exactly what had a cgroup path and was no signal-only recovery is thawed and unfrozen |
| Recovery.Device.RecoverAfterRestart | freezeitDaemon/src/app/controller.rs:2562-2645 | the ledger is read for every process seen stopped; if no logged access failed and no failure is reported, a recorded stop is continued and its entry taken; a failure is reported only if an access or a call failed; a truthful SignalOnly mark and a cgroup path leave nothing frozen |
| AppConfig.CanonicalTokenNamesUid | freezeitDaemon/src/config/migration.rs:59-78 | the token the daemon writes reads back as its UID |
| AppConfig.PrintedLineParses | freezeitDaemon/src/config/migration.rs:49-57 | a printed line parses to its token, mode and permission |
| LineTheorems.PolicyLineMeans | freezeitDaemon/src/config/migration.rs:49-57 | any line of a token, a signed number in range and whatever follows is that policy, permissive unless the next word is 0, whatever white space it has; with a leading number sign it says nothing |
| LineTheorems.OtherLinesAreSkipped | freezeitDaemon/src/config/migration.rs:49-57 | a line without a second word, or whose second word is no number, says nothing |
| LineTheorems.NumericTokenMeans | freezeitDaemon/src/config/migration.rs:59-78 | a token names a UID by itself exactly if it is a numeral of it, or numerals of it before and after the first "uid" |
| LineTheorems.SignedNumeralMeans | freezeitDaemon/src/config/migration.rs:49-78 | a signed numeral with any leading zeros means its number, if that is in range |
| AppConfig.MergeObeysRequest | freezeitDaemon/src/protocol/manager_v1.rs:964-993 | a request decides every app it names and no other, repeated UIDs included: the last record of a UID counts |
| AppConfig.MergeExtends | freezeitDaemon/src/protocol/manager_v1.rs:964-993 | old records keep their order and UIDs, new ones follow |
| ConfigRewrite.MakePlan | freezeitDaemon/src/protocol/manager_v1.rs:727-894 | the text to be written and the new token map, computed with the source's loops |
| RewriteTheorems.RewriteLoadsAs | freezeitDaemon/src/protocol/manager_v1.rs:727-894 | what the file loads as after a rewrite, with any UIDs repeated: each old line follows a change of its UID's last record exactly if it is anchored, then come the new records in order; the token map in memory is the one the file gives |
| RewriteTheorems.RewriteReloadsExactly | freezeitDaemon/src/protocol/manager_v1.rs:727-894 | after a request the file loads as memory exactly if every stored line of a UID the request names either says what is requested already, or is anchored while the UID's last record changes |
| RewriteTheorems.RunStaysLoadedIff | freezeitDaemon/src/protocol/manager_v1.rs:335-406 | over any run of requests the file keeps loading as memory exactly while every request meets that condition |
| RewriteTheorems.RewriteReloads | freezeitDaemon/src/protocol/manager_v1.rs:727-894 | with distinct stored UIDs writing back and loading again gives exactly the new records in order and the token map memory holds |
| RewriteTheorems.EveryRunStaysLoaded | freezeitDaemon/src/protocol/manager_v1.rs:335-406 | so with distinct UIDs the file loads as what memory holds after any number of requests |
| RewriteTheorems.FileRunStaysLoaded | freezeitDaemon/src/protocol/manager_v1.rs:335-406 | the same from a file alone: loaded as it is, with distinct UIDs |
| RewriteTheorems.AnchorIsStoredUid | freezeitDaemon/src/protocol/manager_v1.rs:765-803 | a line is anchored to the UID it was loaded under, exactly if its token is the last one of that UID or a number, and else to none |
| RewriteTheorems.NothingRemains | freezeitDaemon/src/protocol/manager_v1.rs:805-827 | with a token map from loading no line is placed by position |
| RewriteTheorems.LinesSurvive | freezeitDaemon/src/protocol/manager_v1.rs:829-875 | whatever memory held, no line of the file is lost, moved or given another token or line ending, and what follows is one canonical line for each record without a line, in order |
| RewriteTheorems.RepeatedUidBreaksReload | freezeitDaemon/src/protocol/manager_v1.rs:753-758 | an input that fails the condition: of two lines for one UID the first keeps its policy, and the file loads as something else than memory |
| HookPayload.HandleConfig | freezeitApp/app/src/main/java/io/github/jark006/freezeit/hook/android/FreezeitService.java:493-552 | the hook's parser with its loops computes the parse that the theorems are about |
| HookPayload.HookReadsWhatDaemonWrites | freezeitDaemon/src/protocol/manager_v1.rs:543-587 | the daemon can encode records exactly when every managed UID, of a mode other than 40 and 50, has at most five digits; the hook accepts such a payload exactly when they are all app UIDs, and then holds the daemon's settings, managed apps and permissive apps |
| HookPayload.EncodingIsFaithful | freezeitDaemon/src/protocol/manager_v1.rs:543-587 | accepted payloads with equal text carry equal settings and app sets |
| HookPayload.TokenPassesIffApp | freezeitApp/app/src/main/java/io/github/jark006/freezeit/hook/android/FreezeitService.java:520-538 | a token of the daemon passes the hook exactly when its UID is an app UID |
| ConfigCommit.Manager.HandleAppConfig | freezeitDaemon/src/protocol/manager_v1.rs:335-406 | every effect of a request on memory, disk and hook and every access, in order, whatever fails; and of an answerable request without a failed access: the file is read, written unless it is there and nothing changes, and the hook asked; success is replied exactly if the hook took it, and then memory, file and hook hold the request; else file and hook get back what they had |
| ConfigCommit.Manager.TakeBack | freezeitDaemon/src/protocol/manager_v1.rs:919-952 | a refused configuration is taken back from disk and hook, with the sync claim dropped first |
| ConfigCommit.Manager.HandleSettings | freezeitDaemon/src/protocol/manager_v1.rs:634-688 | every effect and access of a settings request; a valid one without a failed access is written, committed and confirmed |
| CommitTheorems.ConfigKeepsSync | freezeitDaemon/src/protocol/manager_v1.rs:335-406 | after any request, a sync claim is true of the payload the hook took last |
| CommitTheorems.SuccessMeansSynced | freezeitDaemon/src/protocol/manager_v1.rs:370-380 | success is replied exactly when the request got through, its write was confirmed and the hook confirmed it, and then it is committed |
| CommitTheorems.RefusalIsUndone | freezeitDaemon/src/protocol/manager_v1.rs:919-952 | a refused request leaves disk, records and revision as they were and gives the hook its old configuration back, if both halves of the rollback succeed |
| CommitTheorems.ConfigIsAllOrNothing | freezeitDaemon/src/protocol/manager_v1.rs:704-719 | a request commits all of its records or none, and the revision moves exactly when the records do |
| CommitTheorems.DiskFollowsMemory | freezeitDaemon/src/protocol/manager_v1.rs:335-406 | after any request that settles every stored line, as all do when UIDs are distinct, the file reloads as what memory holds, except exactly when the records were to change and a late write failure could not be read back or a restore failed before its rename |
| CommitTheorems.DistinctDiskFollows | freezeitDaemon/src/protocol/manager_v1.rs:335-406 | with distinct UIDs in memory and in the request every line is settled, and UIDs stay distinct whatever fails |
| CommitTheorems.SettingsFollowDisk | freezeitDaemon/src/protocol/manager_v1.rs:634-702 | memory stays what the settings file normalises to, except exactly when a late failure of a real change could not be read back |
| CommitTheorems.SettingsStayInRange | freezeitDaemon/src/protocol/manager_v1.rs:634-668 | a request is valid exactly if it keeps every setting in its range, the defaults are in range, and settings in range stay there |
| Interleaving.NoUpdateIsLost | freezeitDaemon/src/sys/socket.rs:354-383 | for every interleaving, writing a detached copy back discards nothing: the request has the effect of running whole on the current state |
| Interleaving.PolicyIsStable | freezeitDaemon/src/sys/socket.rs:797-907 | while a control iteration acts, its policy snapshot is still the shared policy |
| Interleaving.AnswersAreNeverStale | freezeitDaemon/src/sys/socket.rs:682-760 | with the gate held a hook answer is never stale: the claim is set exactly by a confirmed answer of a ready hook |
| Interleaving.IterationRuns | freezeitDaemon/src/sys/socket.rs:797-907 | whenever the gate is free a control iteration can run, whatever the hook answers, and leaves the claim set exactly if a ready hook took the payload of the shared policy |
| Interleaving.SyncClaimIsTrue | freezeitDaemon/src/sys/socket.rs:632-760 | in every reachable state in which no policy request is at work, a sync claim is true of the last payload the hook took |
| Interleaving.SyncClaimInFlight | freezeitDaemon/src/sys/socket.rs:354-383 | while a request is at work the claim is wrong exactly if it was set before and the request is a config request that got as far as asking the hook with another payload, which the hook took and which was not taken back as its last effect; a settings request never breaks the claim |
| Interleaving.SyncClaimCanBeAhead | freezeitDaemon/src/sys/socket.rs:354-383 | every such point of every request is reached from every start, and whether the claim is wrong there is decided by the request, its answers and the number of its effects |
| Interleaving.SyncClaimAheadExample | freezeitDaemon/src/sys/socket.rs:354-383 | one concrete run into such a state |
| Interleaving.DiskFollowsEveryRun | freezeitDaemon/src/sys/socket.rs:304-383 | in every interleaving of requests that settle every stored line and do not diverge, the file reloads as what memory holds whenever none is at work |
| Interleaving.DistinctRunIsTame | freezeitDaemon/src/sys/socket.rs:304-383 | with distinct UIDs in memory and in every request all requests of an interleaving do settle every line |
| JsonScanner.TopLevelField | freezeitDaemon/src/protocol/xposed.rs:119-161 | the loop over the top-level object computes the scan |
| JsonScanner.SkipValueAt | freezeitDaemon/src/protocol/xposed.rs:163-239 | the recursive skipping with its index computes the scan and terminates |
| JsonScanner.ParseStringAt | freezeitDaemon/src/protocol/xposed.rs:250-287 | the string loop computes the scan |
| JsonScanner.IsReadyForControl | freezeitDaemon/src/protocol/xposed.rs:89-117 | the explicit control status decides, the overall one only without it |
| JsonTheorems.ValueIsSkipped | freezeitDaemon/src/protocol/xposed.rs:163-239 | every value of the grammar of RFC 8259, and every looser run of number characters, is consumed exactly, or refused exactly when its containers nest more than 64 deep |
| JsonTheorems.TopFieldIsFound | freezeitDaemon/src/protocol/xposed.rs:119-161 | for every object of that grammar, with any white space and escapes, the answer is the last top-level string bound to the field, regardless of nested members, and an error exactly for a non-string binding or too deep a value |
| JsonTheorems.ReadyMeans | freezeitDaemon/src/protocol/xposed.rs:89-117 | a well-formed report makes the daemon ready exactly by the last top-level status that counts |
| JsonTheorems.EscapeRoundTrip | freezeitDaemon/src/app/operation_log.rs:294-309 | an escaped string, written as UTF-8 and scanned, reads back as itself exactly when it is ASCII without control characters other than newline, return and tab; those read as question marks, and a character beyond ASCII as one character for each of its bytes |
| JsonTheorems.AccentComesBackDoubled | freezeitDaemon/src/protocol/xposed.rs:250-287 | the letter U+00E9 comes back as two characters |
| ManagerLogging.ManagerLog.PushRecord | freezeitDaemon/src/app/logging.rs:145-193 | the whole new state of a push: refused, or admitted after evicting the fewest oldest records that make room |
| ManagerLogging.ManagerLog.PushOnce | freezeitDaemon/src/app/logging.rs:195-204 | a record already known by level, category and payload is not pushed again |
| ManagerLogging.ManagerLog.ClearAll | freezeitDaemon/src/app/logging.rs:206-214 | clearing keeps the identity mark and sets the cutoff |
| ManagerLogging.ManagerLog.CopyRing | freezeitDaemon/src/sys/socket.rs:875-885 | copying the ring is pushing all of it in order |
| ManagerLogging.OperationRing.PushOperation | freezeitDaemon/src/app/operation_log.rs:20-25 | the ring keeps the last 128 operations in order |
| ManagerLogging.EvictsLeast | freezeitDaemon/src/app/logging.rs:170-182 | eviction stops as soon as the record fits, and always ends in a log it fits |
| ManagerLogging.RunKeepsLogValid | freezeitDaemon/src/app/logging.rs:145-214 | in every run the count stays within capacity, the byte count is the sum and within the limit, and stored identities strictly increase |
| ManagerLogging.EveryOperationAtMostOnce | freezeitDaemon/src/app/logging.rs:145-193 | in every run no stamped operation is admitted twice, not even after eviction or clearing |
| ManagerLogging.RingRefinesQueue | freezeitDaemon/src/sys/socket.rs:849-887 | on every run, with no assumption on copies or clocks, the ring copied again and again into the log is a queue of the last 128 operations that hands over what cutoff and size allow and drops what is pushed out |
| ManagerLogging.HandedOverExactly | freezeitDaemon/src/sys/socket.rs:849-887 | an operation is admitted exactly if there is a next copy, at most 128 operations are stamped from it up to that copy, and cutoff and size allow it then; provided the clock of the clears does not run backwards |
| ManagerLogging.BackwardClearAdmitsLate | freezeitDaemon/src/app/logging.rs:206-214 | that proviso is needed: a clear with an earlier time lets a later copy admit an operation that an earlier copy refused |
| ManagerLogging.OverrunLosesOperations | freezeitDaemon/src/app/operation_log.rs:20-25 | on every run, an operation from which on more than 128 are stamped before the next copy is never admitted to the log |
| HookSnapshot.VectorSet.Add | freezeitApp/app/src/main/java/io/github/jark006/freezeit/hook/XpUtils.java:375-386 | a new member is appended, an old one changes nothing |
| HookSnapshot.VectorSet.Erase | freezeitApp/app/src/main/java/io/github/jark006/freezeit/hook/XpUtils.java:388-400 | exactly the erased member disappears |
| HookSnapshot.VectorSet.Contains | freezeitApp/app/src/main/java/io/github/jark006/freezeit/hook/XpUtils.java:403-411 | membership, of app UIDs only |
| HookSnapshot.HookService.HandleConfig | freezeitApp/app/src/main/java/io/github/jark006/freezeit/hook/android/FreezeitService.java:493-585 | all of a payload takes effect or none of it, and it starts with nothing published; one that parses is refused only while the fields the hook needs are not found |
| HookSnapshot.HookService.HandlePending | freezeitApp/app/src/main/java/io/github/jark006/freezeit/hook/android/FreezeitService.java:715-761 | a pending list is published whole, or refused if one UID is unmanaged |
| HookSnapshot.HookService.PublishForeground | freezeitApp/app/src/main/java/io/github/jark006/freezeit/hook/android/FreezeitService.java:763-782 | a foreground set is published only for the configuration it was prepared for, and un-pairs the pending set |
| HookSnapshot.HookService.PublishPending | freezeitApp/app/src/main/java/io/github/jark006/freezeit/hook/android/FreezeitService.java:784-799 | a pending set is published only for the configuration it was prepared for |
| HookSnapshot.HookService.ShouldSuppress | freezeitApp/app/src/main/java/io/github/jark006/freezeit/hook/android/FreezeitService.java:71-85 | the question the hook asks of its snapshot |
| HookSnapshot.SuppressionIsJustified | freezeitApp/app/src/main/java/io/github/jark006/freezeit/hook/android/FreezeitService.java:71-107 | over every sequence of requests, work is suppressed exactly when since the last accepted configuration a foreground set and then a pending set were published, no foreground set later, both at most 15 s old, with the app managed and in neither |

## Left out

- ControlPass.Pass: does not model operation records and their texts, the network-restriction requests and `status_since_ms`, because nothing the pass decides depends on them.
- ControlPass.Sweep: attempts the stale identities in an arbitrary order, because the source's order by package name and UID decides nothing but the order of calls.
- ControlStateTracking.RuntimeControlState.ThawAll: process signatures are multisets instead of sorted lists, because only their equality is used.
- Ledger.Store.ReadMain: does not model the splitting of a ledger line into its fields; lines are given as what they parse to.
- Ledger.Store.WriteMain: a write that reports an error changed nothing, because the ledger's writer renames as its last step; interruptions between steps are modelled.
- Recovery.Device.RecoverAfterRestart: covers one process, because the loop over processes carries no state between them.
- ConfigCommit.Manager.HandleAppConfig: does not model log messages and error texts; replies are success, failure, rejected or error.
- ConfigRewrite.MakePlan: works on characters instead of UTF-8 bytes; a file that is not UTF-8 is a value of its own.
- HookPayload.HandleConfig: does not model that Java also reads non-ASCII digits or the uid and package indexes, and takes the hook's field initialisation as given.
- JsonScanner.TopLevelField: texts are bytes, one above 127 being the character with that number, as the scanner reads them; printed objects are byte texts, and `EscapeRoundTrip` relates them to characters.
- ManagerLogging.ManagerLog.PushRecord: the memory a record's texts take is part of the record, because the allocator decides it.
- HookSnapshot.HookService.HandleWakeLock: does not model the app-ops calls, only what it publishes.
- The server's other requests, the realtime metrics, charts and reports: display code that changes no configuration.
- Panics inside a request and the poisoned mutexes that follow.
- Process discovery, cgroup and `/proc` walking, sockets, deadlines and peer checks: environment steps with arbitrary answers.
- `reconcile_live_process_control_states` and the capability cache: the state of a discovered process and binder availability are inputs.
- The foreground scan in the hook: its result is an arbitrary set of UIDs.
- `BucketSet`: a set of UIDs whose additions below 10000 are refused, as a value.
- `scheduler.rs`, `foreground.rs`, `health.rs`, hook registration, reflection and the Android UI.
