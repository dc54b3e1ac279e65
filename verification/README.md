# Ninox, modelled and proved in Dafny

Ninox runs fleets of coding agents in tmux sessions. This project models the stateful parts of it that have to be right
when events race, processes crash or messages go stale, and proves what each of them is for.

| file | what it models |
|---|---|
| `NinoxTypes.dfy`, `Sequences.dfy`, `Sorting.dfy` | the values that travel between engine, store and app; stable sorting |
| `AppModel.dfy`, `DesktopApp.dfy` | what every message and engine event does to the desktop app: as functions, and as methods on the app's fields that are proved equal to the functions |
| `AppEffects.dfy`, `AppMessages.dfy` | what events, messages and polls leave behind, field by field and over whole streams |
| `Coalescer.dfy` | the engine-event coalescer, a timed state machine between the broadcast channel and the app |
| `Equivalence.dfy`, `Conservation.dfy`, `Delivery.dfy`, `Timing.dfy` | the coalesced stream means the same, loses nothing, ends only with its channel and keeps its deadlines |
| `Transparency.dfy`, `Visibility.dfy` | the coalesced app beside one that handles every event on arrival: how far it lags, and exactly what a screen can lose by it |
| `Generations.dfy`, `Polling.dfy`, `Threads.dfy` | client generations, store polling and review threads over all runs |
| `Decimal.dfy`, `Utf8.dfy`, `Keyboard.dfy`, `KittyDecoder.dfy`, `PlainDecoder.dfy`, `Mouse.dfy` | the key and mouse encoders, and decoders that undo them |
| `ReleaseStore.dfy`, `ReleaseEffects.dfy`, `ReleaseProtocol.dfy`, `ReleaseLock.dfy`, `ReleaseOutcomes.dfy`, `ReleaseRuns.dfy`, `ReleaseLimits.dfy` | `ninox release` against the store, alone and interleaved with crashes, re-leases, runtime starts and other releases; what its lock is for; exactly how far its promises reach |
| `FleetRestore.dfy`, `RestoreGuarantees.dfy`, `RestoreAccount.dfy` | `ninox fleet restore`, cut off anywhere and run again, and exactly what it does to whom |
| `SessionGrouping.dfy`, `BatchRestart.dfy`, `OrchestratorAuth.dfy`, `Slug.dfy` | the session board, batch restarts, the runtime-identity check, session ids |

`dafny verify dfyconfig.toml` checks the project.

## How the code is modelled

- Code that changes state step by step is imperative here too: classes `App`, `ClientOutputCoalescer`, the two `Store`s
  and `Restorer`, and methods with loops for the board, the batch and the targets. Each method is proved equal to a
  function of the old state, and the run theorems are about those functions.
- A run is any finite sequence of steps. For the coalescer a step is one turn of its loop: the clock at its head, what the
  channel or the timer gave, the clock when that was handled. The clock never goes back; a timeout comes no earlier
  than the earlier deadline, but may come late. Time is in nanoseconds.
- An emulator is the log of the bytes it was given, so feeding it `a ++ b` is feeding it `a`, then `b`. History pages and
  recovery tokens are logged beside the bytes.
- The store's operations are atomic compare-and-set steps on the columns their SQL names. That each statement or
  transaction is atomic is the assumption behind every protocol result here.
- What comes from outside (launches, deliveries, Git, runtimes that stop or do not, process ancestry, Unicode
  lower-casing) is a parameter, so the results hold for every answer.
- A restore leaves its effects in a log; a crash, or an error that ends it early, leaves a prefix of the log.
- A release takes its lock as the code does: only if there is a record of its session's checkout, or of the path its
  worker names, and the directory is on disk; it holds it until it ends or crashes. Results that need the lock say
  where (`GuardedRun`, `ShelteredRun`); the others hold for every run.
- `transcripts` in the app's state is history only: the bytes each attachment's emulator was ever given. `reattaches` is
  too. The source has neither field.

## What turned out otherwise than documented

- The comment on `pending_briefings` (crates/ninox-core/src/fleet/plan.rs:47-48) and the module documentation
  (crates/ninox-app/src/fleet.rs:7-10) promise that a second run delivers briefings that a crashed run never sent. A
  recovery is begun only after all orchestrators are relaunched, so a crash in between leaves no row, and the next run
  does not brief an orchestrator it finds live: `RelaunchedButNotBegunIsNotRetried`. When a briefing is sent is given
  exactly by `LiveOrchestratorsAreBriefedExactly`, and `ABriefingIsLost` shows two such runs.
- A release that crashed after freeing its checkout is repaired by running it again only until someone else leases that
  checkout; after that the worker is retained under a lease it does not hold and can never be released, resumed or
  re-filed: `RerunAfterReleaseStrands`, `StrandedForGood`, and the run in `CrashAndReleaseStrands`.
- Two releases of one session can both be in flight where the first began without a lock: because the directory was
  missing, or because the session had no checkout yet. Then the second can give up, the worker can be started, and the
  first takes its checkout away. `ClaimsAreSafeExactly` gives the exact condition for a claim, `BeginningIsSafeExactly`
  the one that a caller can check as a release begins, `MissingDirectoryLosesACheckout` and
  `BeginningTooEarlyLosesACheckout` the runs.
- A release that never crashes may still end with the incarnation it claimed neither released nor retained
  (`OvertakenReleaseSettlesNothing`): a worker without a pooled checkout has no lock, so another release can adopt the
  claim (crates/ninox-app/src/main.rs:2095-2099), fail to stop the runtime and put the row back to retained, from where
  it is re-filed. `SettlesExactly`: the worker settles in all futures under the lock if and only if it is bound to a
  lease; without one it does as long as no other release of the session is in flight (`EveryUncrashedReleaseSettles`).
- Output that is held when its client is dropped never reaches the emulator, and the screen draws an emulator whether or
  not it has a client (crates/ninox-app/src/components/session_detail.rs:621). Removing an orchestrator drops its
  workers' clients but not their emulators or the view, so the screen can lack output that an app without coalescing
  would show: `AScreenLosesOutput`. `EmulatorsAgreeExactly` and `ScreensAgreeExactly` say exactly what is lost and when.
- The order of an output and any other event never shows in the app's fields or in the emulators it keeps
  (`OvertakingChangesNoField`). It shows only in what an emulator was given before it went, and there
  `must_follow_outputs` is exact but for a removed orchestrator, which costs no output and is held back all the same:
  `OvertakingLosesBytesExactly`, `MustFollowIsExact`.
- BackTab together with Alt, Ctrl or the logo key loses the Shift that it stands for, so it is written like Tab with those
  modifiers. The canonical press in `KittyDecoder` says so.
- Clients can outlive the view that shows them (Brain, Settings and a spawn do not drop them), so more than one client
  may be live. The generation results cover that.

## Model

| member | source | states |
|---|---|---|
| `Coalescer.Step` | crates/ninox-app/src/app.rs:4577-4635 | Every turn of the loop, on every outcome, leaves the fields well formed: output is held exactly while both deadlines are set (so neither `expect` fails), a pause mark implies held output, neighbouring chunks belong to different clients, and a closed channel leaves nothing held |
| `Coalescer.MergeOutput` | crates/ninox-app/src/app.rs:4501-4516 | Whatever chunk comes, neighbours keep belonging to different clients and the last one belongs to the client that just wrote |
| `Coalescer.NextReturnsEmitted` | crates/ninox-app/src/app.rs:4577-4635 | A call of `next` uses up a prefix of what the channel gives and returns exactly what the turns of that prefix emit |
| `Coalescer.NextEndsWithTheChannel` | crates/ninox-app/src/app.rs:4577-4635 | `next` waits only when there is nothing more to wait for, never returns an empty batch, reports the end exactly when the channel has closed and nothing is held, and then for good |
| `Coalescer.ClientOutputCoalescer.PushOutput` | crates/ninox-app/src/app.rs:4487-4516 | The method on the fields is the specified push: merge into the last chunk of the same client, start the hard deadline with the first chunk, restart the quiet one |
| `Coalescer.ClientOutputCoalescer.TakeOutputs` | crates/ninox-app/src/app.rs:4518-4523 | Hands back everything held and clears both deadlines and the pause mark |
| `Coalescer.ClientOutputCoalescer.ResumeAfterDispatch` | crates/ninox-app/src/app.rs:4529-4536 | The method on the fields is the specified shift of both deadlines by the paused time |
| `Coalescer.ClientOutputCoalescer.RunTurn` | crates/ninox-app/src/app.rs:4577-4635 | One pass of the loop on the fields is the specified turn and keeps them well formed |
| `Coalescer.ClientOutputCoalescer.Next` | crates/ninox-app/src/app.rs:4577-4635 | The loop on the fields is the specified call of `next` |
| `Equivalence.OvertakingChangesNoField` | crates/ninox-app/src/app.rs:4122-4299 | Whatever the order of an output and another event, the app ends with the same fields and the same emulators; so as far as they can tell every event may pass every output |
| `Equivalence.OvertakingLosesBytesExactly` | crates/ninox-app/src/app.rs:4172-4212 | What the order decides is the bytes an emulator was ever given: they differ if and only if the output is on screen, is not empty, and the event closes its client or finishes its session |
| `Equivalence.MustFollowIsExact` | crates/ninox-app/src/app.rs:4550-4575 | `must_follow_outputs` holds back exactly the events that could cost some app a held chunk before its emulator goes, and a removed orchestrator, which could not |
| `Equivalence.OvertakeHarmless` | crates/ninox-app/src/app.rs:4122-4299 | Every event that does not close this very client or finish its session commutes with its output, bytes ever given included; a close of another generation of the same session is one |
| `Equivalence.MergedOutputFeedsTheSame` | crates/ninox-app/src/app.rs:4172-4194 | A merged chunk does to the app what its parts would, one after the other |
| `Equivalence.TurnKeepsMeaning` | crates/ninox-app/src/app.rs:4577-4635 | One turn: what is emitted and then still held means to the handler what was held and then received |
| `Equivalence.CoalescingKeepsMeaning` | crates/ninox-app/src/app.rs:4577-4635 | For every legal run, lag included: folding the handler over the emitted batches and the still held chunks gives the same app (every field modelled) as folding it over what was received |
| `Equivalence.ClosedStreamMeansTheSame` | crates/ninox-app/src/app.rs:4644-4661 | Once the channel has closed, the rewritten stream alone means what the raw one did |
| `Conservation.RunConserves` | crates/ninox-app/src/app.rs:4487-4637 | At every point of every run, the bytes received of each session and generation are those emitted followed by those held; every other event except the pane tap is emitted exactly once, in receive order |
| `Conservation.NoChunkSpansAGap` | crates/ninox-app/src/app.rs:4620-4633 | Up to a lag notice exactly what came before it is emitted, and what is emitted or held later is exactly what came later |
| `Conservation.GapEmptiesBuffer` | crates/ninox-app/src/app.rs:4609-4633 | Lag, a timeout and the end of the channel leave nothing held |
| `Conservation.ClosingDrains` | crates/ninox-app/src/app.rs:4578-4583 | After the channel has closed every byte has been emitted exactly once and `next` returns the end, changing nothing, for good |
| `Delivery.ClosedExactly` | crates/ninox-app/src/app.rs:4592-4596 | From any open state and over every legal run, the coalescer is closed if and only if the channel has closed: lag, timers and events leave it open |
| `Delivery.NextEndsExactly` | crates/ninox-app/src/app.rs:4577-4635 | A call that begins with the channel open returns the end if and only if the ticks it used closed the channel and emitted nothing; if they closed it and did, the next call returns the end |
| `Delivery.ControlIsReturned` | crates/ninox-app/src/app.rs:4591-4627 | In every legal run the call that takes an event that is neither output nor the pane tap returns it, alone or right behind the held output that it must follow |
| `Delivery.LagLosesNoLaterEvent` | crates/ninox-app/src/app.rs:4592-4592 | Every legal run that ends in a lag notice can go on with any event at any later time, and `next` then returns that event |
| `Timing.DeadlinesAreExact` | crates/ninox-app/src/app.rs:4496-4499 | In every legal run the hard deadline is first arrival + 8 ms + all time paused, and the quiet one is last arrival + 3 ms + the time paused since |
| `Timing.FlushesInTime` | crates/ninox-app/src/app.rs:4601-4634 | No batch survives a loop head at active age 8 ms; a timer that flushes has seen 3 ms of active quiet or 8 ms of active age; a younger batch leaves only for an event that must follow it, lag, the timer or the end |
| `Timing.ResumingKeepsTheBudget` | crates/ninox-app/src/app.rs:4529-4536 | Resuming leaves of both deadlines what was left when the pause began |
| `Transparency.CoalescingIsTransparent` | crates/ninox-app/src/app.rs:4644-4661 | With engine events, clock, lag and all other messages interleaved in any order, the app that handles each event on arrival stays ahead of the coalesced one by exactly the held bytes, client by client; all other fields agree |
| `Transparency.AttachedEmulatorsAgree` | crates/ninox-app/src/app.rs:4477-4637 | From any state of the app, whenever nothing is held (and after handling what is held), the two apps agree in every field and in every emulator that a client draws on |
| `Transparency.FlushCatchesUp` | crates/ninox-app/src/app.rs:4518-4523 | Handling what is held closes the distance completely |
| `Visibility.EmulatorsAgreeExactly` | crates/ninox-app/src/app.rs:1605-1612 | In every run, after handling what is held, every emulator, attached or not, is the direct app's but for the bytes that were held for its client when a message last took that client away; so the two agree if and only if that was nothing |
| `Visibility.ScreensAgreeExactly` | crates/ninox-app/src/components/session_detail.rs:620-624 | The two screens show the same emulator if and only if the one on view has lost nothing so |
| `Visibility.AScreenLosesOutput` | crates/ninox-app/src/app.rs:2621-2650 | For every worker, its orchestrator and a byte, from the empty app: the byte is held, its orchestrator is removed, a poll finds both still stored, the timer runs out; nothing is held, the view still shows the worker, and its emulator lacks the byte that the direct app's has |
| `Generations.GenerationsStayDistinct` | crates/ninox-app/src/app.rs:404-409 | Over all runs of messages live generations are pairwise distinct and below `next_client_generation`, which never goes back |
| `Generations.OnlyAttachAddsClients` | crates/ninox-app/src/app.rs:1662-1712 | No message but a successful attach gives a session a client, and only with a fresh generation where there was none |
| `Generations.TranscriptIsPure` | crates/ninox-app/src/app.rs:4172-4212 | In every run from any app without clients, an emulator that client g of a session draws on holds the tail of the attach that gave the session this client, which had none before, followed by exactly the bytes, and exactly the history pages and recovery tokens, tagged with that session and g and handled since, whatever stale output, closes, navigations and other attaches came between |
| `Generations.StepFeedsExactly` | crates/ninox-app/src/app.rs:1662-1727 | A message either attaches this client or feeds its emulator exactly the bytes, page or token meant for it |
| `Generations.ReattachesAtMostOnce` | crates/ninox-app/src/app.rs:4196-4242 | However many clients die, without a navigation each session is reattached automatically at most once, and not at all if that was tried before |
| `Generations.OneReattachPerNavigation` | crates/ninox-app/src/app.rs:1609-1609 | Between two navigations each session is reattached at most once: a navigation forgives the earlier attempts and reattaches nothing itself |
| `AppEffects.UpdateMergesExactly` | crates/ninox-core/src/types.rs:422-462 | An update of a known session takes each flagged group of fields from the incoming row and leaves every other group, the rest of the row and all other rows as they were |
| `AppEffects.DisjointUpdatesCommute` | crates/ninox-core/src/types.rs:422-462 | Two updates of a session whose groups do not overlap leave the same sessions in either order |
| `AppEffects.StatusChangesExactly` | crates/ninox-app/src/app.rs:4143-4164 | The status of a session changes only by an event that replaces its row, flags its status, or ends it, and then to exactly what that event says |
| `AppEffects.EveryFieldIsTheLastWord` | crates/ninox-app/src/app.rs:4143-4258 | After every stream that removes no orchestrator each group of a session's fields is what the last event that speaks of it said, whatever stale updates of other groups come between |
| `AppEffects.SessionsAfterEvent` | crates/ninox-app/src/app.rs:4124-4266 | Which sessions an event adds and removes, and which rows it leaves alone: exactly |
| `AppEffects.UnreadCountsDeliveries` | crates/ninox-app/src/app.rs:4290-4298 | After every stream that removes no orchestrator a session's unread count is what it was plus all deliveries while it was off screen, counted anew since it was last done |
| `AppEffects.NotificationsAreTheLatest` | crates/ninox-app/src/app.rs:4306-4332 | After every stream the panel holds exactly the fifty latest notifications, in order |
| `AppEffects.LedgerIsLatest` | crates/ninox-app/src/app.rs:4244-4266 | After every stream every PR is the latest opened or detected version, with its latest CI status |
| `AppEffects.KnownOrchestratorsExactly` | crates/ninox-app/src/app.rs:4124-4141 | After every stream an orchestrator is known if and only if the last event about it brought it, or none was about it and it was known before |
| `AppEffects.ClosingTakesExactly` | crates/ninox-app/src/app.rs:4155-4212 | An event takes a client, its emulator and its diff if and only if it ends the session or closes the client on record |
| `AppEffects.OutputReachesExactly` | crates/ninox-app/src/app.rs:4172-4194 | An event changes an emulator if and only if it is output of the client on record for it, which is then appended |
| `AppEffects.ReattachesExactly` | crates/ninox-app/src/app.rs:4196-4242 | A session is reattached if and only if its client on record dies on screen and it was not reattached since the last navigation |
| `AppMessages.AttachesExactly` | crates/ninox-app/src/app.rs:1662-1712 | An attach takes effect if and only if its session is on view and has no client; then the client is on record and shown under a generation of its own, and the emulator holds the captured tail, or nothing without one; a failed spawn only uses the generation up |
| `AppMessages.OpeningASession` | crates/ninox-app/src/app.rs:1589-1612 | Opening a session shows it in the panel chosen last, marks it read, leaves no client, drops its emulator, forgives earlier reattaches and touches nothing else but a diff that cannot be had |
| `AppMessages.PanelIsRemembered` | crates/ninox-app/src/app.rs:2587-2595 | The panel chosen for a session is the one the next session opens with, whatever messages and events come between |
| `AppMessages.LeavingSessions` | crates/ninox-app/src/app.rs:1581-1588 | Board, pull requests and workers drop all clients, Brain and Settings none; no emulator goes |
| `AppMessages.ForgettingASession` | crates/ninox-app/src/app.rs:2652-2670 | Detaching, removing and discarding a session take exactly its client, emulator and diff, and its row unless only detached; a failed spawn is discarded only while it is the one on record |
| `AppMessages.RemovingTakesExactly` | crates/ninox-app/src/app.rs:2621-2650 | Removing an orchestrator takes exactly its own row and its workers', and the clients and diffs of sessions then unknown |
| `Polling.PollMirrorsStore` | crates/ninox-app/src/app.rs:3357-3420 | After a poll every stored session is in memory, everything in memory is stored or an orchestrator, and orchestrators known before stay |
| `Polling.PollAdoptsTerminalStatus` | crates/ninox-app/src/app.rs:775-777 | A tracked status becomes the stored one exactly when that is terminal and stays otherwise, so terminal never reverts to live; a session new to memory is taken over whole |
| `Polling.PollTwiceIsPollOnce` | crates/ninox-app/src/app.rs:3357-3420 | A second poll of an unchanged store changes nothing, emulators and diffs included |
| `AppMessages.SessionsAfterPoll` | crates/ninox-app/src/app.rs:3373-3424 | Memory after a poll, row by row: a stored row is taken over if and only if it is new or finished in another way than memory knows; a row goes if and only if it is neither stored nor an orchestrator's |
| `AppMessages.PollLeavesTheRest` | crates/ninox-app/src/app.rs:3382-3389 | A poll takes the emulators of exactly the sessions it drops, and changes nothing but orchestrators, sessions and diffs |
| `AppMessages.OrchestratorsAfterPoll` | crates/ninox-app/src/app.rs:3361-3365 | A poll keeps the known orchestrators in place and adds exactly the stored ones it does not know, each once |
| `Threads.InsertingKeepsThread` | crates/ninox-app/src/app.rs:4268-4283 | Inserting keeps ids distinct, adds the comment unless its id is known, and leaves the thread sorted by creation time whenever it added one |
| `Threads.ThreadAfterComments` | crates/ninox-app/src/app.rs:4268-4283 | After any arrivals the thread holds each comment once, and is sorted if anything was added |
| `Threads.ArrivalOrderDoesNotMatter` | crates/ninox-app/src/app.rs:4268-4283 | With distinct creation times the final thread depends only on which comments arrived, not on their order or repetition |
| `Threads.StartupThreadsAreTidy` | crates/ninox-app/src/app.rs:1077-1085 | The stored comments, with distinct ids in order of creation, give threads with distinct ids, sorted, and an editor buffer for every threaded comment |
| `Threads.ThreadsStayTidy` | crates/ninox-app/src/app.rs:4268-4283 | From those threads on, along every stream of events, every thread keeps distinct ids, stays sorted by creation time, and has an editor buffer for every comment |
| `Threads.ThreadsHoldExactly` | crates/ninox-app/src/app.rs:4268-4284 | After every stream of events a PR's thread holds exactly the comments it held and those that came for it, each once, in order of creation |
| `Threads.StartupLoadsExactly` | crates/ninox-app/src/app.rs:1075-1085 | A starting app's thread of a PR is exactly the stored comments about it, and each has its text in a buffer |
| `DesktopApp.App.LoadComments` | crates/ninox-app/src/app.rs:1077-1085 | The startup loop on the fields gives the specified threads and buffers |
| `DesktopApp.App.HandleEngineEvent` | crates/ninox-app/src/app.rs:4122-4299 | The handler on the fields is the specified event step |
| `DesktopApp.App.CloseClient` | crates/ninox-app/src/app.rs:4196-4242 | Only a close of the generation on record drops client, emulator and diff, and it asks for a reattach only while its session is on screen and has not been reattached yet |
| `DesktopApp.App.FeedOutput` | crates/ninox-app/src/app.rs:4172-4194 | Only output of the generation on record reaches an emulator |
| `DesktopApp.App.HandleBatch` | crates/ninox-app/src/app.rs:4644-4661 | A batch is handled event by event, in order |
| `DesktopApp.App.AttachClient` | crates/ninox-app/src/app.rs:1662-1715 | Attaching does nothing off screen or over a live client; otherwise it uses up a generation and, if the spawn works, starts a fresh emulator with the tail |
| `DesktopApp.App.Show` | crates/ninox-app/src/app.rs:1589-1616 | Navigating to a session leaves no client at all, drops its emulator, forgives every reattach and clears its unread count |
| `DesktopApp.App.PollStore` | crates/ninox-app/src/app.rs:3357-3420 | The loops on the fields are the specified poll |
| `DesktopApp.App.RemoveOrchestratorAndWorkers` | crates/ninox-app/src/app.rs:2621-2650 | Clients and diffs survive exactly for the sessions that do |
| `DesktopApp.App.ApplyMessage` | crates/ninox-app/src/app.rs:1589-1727 | The message handler on the fields is the specified message step, for every message modelled |
| `KittyDecoder.DecodesEveryKey` | crates/ninox-app/src/input.rs:125-234 | Whatever bytes follow, the decoder reads one encoded key back as its canonical press and leaves exactly those bytes |
| `KittyDecoder.DecodesEveryStream` | crates/ninox-app/src/input.rs:125-234 | For any sequence of supported keys in kitty mode, even if the cursor mode changes in the middle, decoding the concatenated encodings gives exactly the canonical presses |
| `KittyDecoder.CodeIsPrefixFree` | crates/ninox-app/src/input.rs:125-234 | No encoding begins another, and in one cursor mode two presses are written alike if and only if they are canonically the same |
| `KittyDecoder.OtherModesAreAmbiguous` | crates/ninox-app/src/input.rs:125-234 | Outside kitty mode no decoder can exist: Escape then a letter is the chord Alt and that letter, byte for byte |
| `PlainDecoder.ReadsEveryPress` | crates/ninox-app/src/input.rs:123-230 | Under tmux and without any extension, with all modifiers and in both cursor modes: what is written for a key reads back as what the press means there: Ctrl with a character as the control code of its name, Alt as one escape in front, modified Enter, Escape, Backspace and Tab as themselves under tmux and as their old spellings without |
| `PlainDecoder.WrittenAlikeExactly` | crates/ninox-app/src/input.rs:123-230 | Two presses share their bytes there if and only if they mean the same (Ctrl+I and Tab, Ctrl+2 and Ctrl+Space, and so on) |
| `PlainDecoder.TextIsWrittenExactly` | crates/ninox-app/src/input.rs:178-187 | Under every protocol the toolkit's text, behind one escape with Alt, replaces exactly the characters that no chord spells otherwise, and changes no other key |
| `PlainDecoder.CursorModeIsHonoured` | crates/ninox-app/src/input.rs:190-199 | Under every protocol an unmodified cursor key is three bytes that begin as the cursor mode says |
| `PlainDecoder.NearlyAllKeysAreWritten` | crates/ninox-app/src/input.rs:219-230 | The only keys without bytes are function keys outside F1 to F12 |
| `KittyDecoder.ModsOfParam` | crates/ninox-app/src/input.rs:49-55 | The modifier parameter gives back all four modifiers |
| `Decimal.ReadShow` | crates/ninox-app/src/input.rs:98-106 | Reading what decimal printing wrote gives the number back and stops where it ended |
| `Utf8.DecodeEncode` | crates/ninox-app/src/input.rs:125-234 | Reading the UTF-8 of a character gives it back and consumes exactly its bytes (RFC 3629, section 3) |
| `Mouse.SgrRoundTrip` | crates/ninox-app/src/input.rs:312-341 | For all 16-bit positions and whatever follows, an SGR report reads back as its button, action, Shift, Alt, Ctrl and position |
| `Mouse.X10NeverTruncates` | crates/ninox-app/src/input.rs:342-346 | The X10 form exists if and only if both 1-based coordinates are at most 223, and then each byte minus 32 is the value it stands for |
| `Mouse.ReportsExactly` | crates/ninox-app/src/input.rs:320-343 | A report is written if and only if reporting is on and, without SGR, both 1-based coordinates are at most 223 |
| `Mouse.X10PressRoundTrip` | crates/ninox-app/src/input.rs:339-346 | An X10 press or drag reads back to button, action, Shift, Alt, Ctrl and position |
| `Mouse.X10ReleaseIsButtonThree` | crates/ninox-app/src/input.rs:344-346 | An X10 release is of button three, with its modifiers and whether it is a wheel's |
| `Mouse.X10TellsPressesApart` | crates/ninox-app/src/input.rs:342-346 | Two presses or drags are written alike in X10 form if and only if they differ at most in the logo key |
| `Mouse.X10ReleaseForgetsButton` | crates/ninox-app/src/input.rs:342-346 | Two X10 releases are written alike if and only if they agree in position and Shift, Alt, Ctrl and both or neither are of a wheel |
| `ReleaseStore.Store.ClaimWorkerRelease` | crates/ninox-core/src/store.rs:3539-3611 | Claims exactly a retained worker of this incarnation that still holds its lease and has neither a runtime start nor a finalization under way, and reports the claim |
| `ReleaseStore.Store.EndWorkerClaim` | crates/ninox-core/src/store.rs:3613-3661 | Moves on exactly the claimed row of this incarnation, and reports whether it did |
| `ReleaseStore.Store.ReleasePooledCheckout` | crates/ninox-core/src/store.rs:4247-4265 | Frees exactly a leased checkout of this session, incarnation and lease |
| `ReleaseStore.Store.RemoveMissingCheckout` | crates/ninox-core/src/store.rs:4357-4373 | Removes exactly an active checkout of this session, incarnation and lease |
| `ReleaseStore.ReleaseRetainedCheckout` | crates/ninox-app/src/main.rs:2210-2282 | The method against the store is the specified return of a checkout, errors included |
| `ReleaseStore.SettleWorkerRelease` | crates/ninox-app/src/main.rs:2137-2171 | Success completes the exact claim, failure restores Retained; it reports success only if the claim was still there |
| `ReleaseStore.Release` | crates/ninox-app/src/main.rs:2081-2134 | The whole release against the store is the specified one, and reports success exactly when the worker was released |
| `ReleaseEffects.ReleaseExactly` | crates/ninox-app/src/main.rs:2086-2134 | A release alone succeeds if and only if its worker may be claimed or is, the runtime stops, and what its session holds is under exactly its lease and gone or let go by Git, or, holding nothing, its recorded checkout is free or forgotten and gone; it leaves exactly that checkout free or removed and the worker released, or else the worker retained |
| `ReleaseEffects.ClaimedExactly` | crates/ninox-core/src/store.rs:3539-3611 | In every run a worker becomes claimed if and only if a release of its session takes its claiming step while it is retained, has neither a runtime start nor a finalization under way and still holds its lease |
| `ReleaseEffects.LocksExactly` | crates/ninox-app/src/main.rs:2191-2208 | A release that begins aims at the lock of the checkout that its session holds, or else of the recorded one its row names, if and only if the directory is there |
| `ReleaseEffects.WaitsExactly` | crates/ninox-app/src/main.rs:2205-2207 | It goes on if and only if it needs no lock or nobody else has it |
| `ReleaseEffects.RefiledExactly` | crates/ninox-core/src/store.rs:2085-2170 | A session is re-filed if and only if nothing is under way for it and its lease, if it has one, is its own; it gets the new incarnation and keeps lease and path |
| `ReleaseEffects.RefilingMovesCheckouts` | crates/ninox-core/src/store.rs:2085-2170 | Re-filing hands over exactly the checkout that the session holds |
| `ReleaseEffects.ReservedExactly` | crates/ninox-core/src/store.rs:3917-3992 | A checkout is reserved if and only if it is free or unknown, for a worker being allocated that holds none, and leased once provisioned |
| `ReleaseEffects.BoundExactly` | crates/ninox-core/src/store.rs:2228-2254 | Binding makes exactly an allocated worker active, under the lease and path of the checkout that its session holds, if any |
| `ReleaseEffects.RuntimeStepsExactly` | crates/ninox-core/src/store.rs:2962-3102 | A runtime may start if and only if the worker is active or retained, nothing is under way for it and its lease is its own; started, it makes the worker active |
| `ReleaseProtocol.After` | crates/ninox-core/src/store.rs:551-553 | Every run of releases, crashes, re-leases and resumptions keeps the invariant: one active checkout per session; each owned by its session's current, unreleased incarnation and, once bound, under that incarnation's lease and path; each release in flight under a claim on an incarnation of its session |
| `ReleaseProtocol.ReleasedWorkersHoldNothing` | crates/ninox-app/src/main.rs:2137-2171 | In every reachable store a released worker holds no checkout, and every active checkout is held by exactly the session, incarnation and lease of a current worker |
| `ReleaseProtocol.OnlyItsOwnReleaseEndsALease` | crates/ninox-app/src/main.rs:2210-2282 | In every run, crashes and missing locks included, a lease that is gone was ended by re-filing its own session or by a release claimed for exactly that session, incarnation and lease |
| `ReleaseLock.LiveWorkersKeepTheirCheckouts` | crates/ninox-app/src/main.rs:2191-2208 | In every run from the start whose claims are made under the lock of the claimed checkout, no step takes the checkout of a worker that is allocating or active |
| `ReleaseLock.ClaimsAreSafeExactly` | crates/ninox-app/src/main.rs:2086-2110 | A release that claims a worker leaves every live worker its checkout, in all runs that follow under the lock, if and only if it holds the lock of that worker's checkout when it claims |
| `ReleaseRuns.BeginningOnDiskIsSafe` | crates/ninox-app/src/main.rs:2191-2208 | If every release begins while its session's checkout is on disk, or once its session can have none, then by the code's own rule every claim is made under the lock, and live workers keep their checkouts |
| `ReleaseLimits.BeginningIsSafeExactly` | crates/ninox-app/src/main.rs:2191-2208 | A release leaves live workers their checkouts, in every future in which all other claims are made under the lock, if and only if it begins while its session's checkout is on disk, or once its session can have none |
| `ReleaseRuns.MissingDirectoryLosesACheckout` | crates/ninox-app/src/main.rs:2202-2204 | From the start, for every session and path: a release begun while the directory is missing takes no lock, and a run follows in which the worker is active and its checkout gone |
| `ReleaseRuns.BeginningTooEarlyLosesACheckout` | crates/ninox-app/src/main.rs:2086-2090 | The same for a release begun before its session has a checkout, with the directory on disk: it takes no lock, and still claims |
| `ReleaseOutcomes.EveryUncrashedReleaseSettles` | crates/ninox-app/src/main.rs:2086-2134 | Every claimed release that gets its turns and does not crash ends with its claim gone, whatever interleaves; its worker is then released or retained if it is pooled and was claimed under the lock, and also, pooled or not and lock or no lock, if no other release of its session was in flight |
| `ReleaseLimits.SettlesExactly` | crates/ninox-app/src/main.rs:2137-2171 | In all guarded futures the end of a release leaves the incarnation it claimed released or retained, if and only if the claim is on a current incarnation that is bound to a lease |
| `ReleaseLimits.OvertakenReleaseSettlesNothing` | crates/ninox-app/src/main.rs:2095-2125 | From the start, for every worker without a pooled checkout, a run with all claims under the lock: a second release adopts the claim and gives up, the worker is re-filed, and the first, which never crashes, ends with its incarnation neither released nor retained |
| `ReleaseOutcomes.RerunCompletesExactly` | crates/ninox-app/src/main.rs:2215-2233 | Running the release of a claimed worker without a checkout completes it if and only if its recorded checkout is free, or forgotten and gone from disk; otherwise the worker is retained again |
| `ReleaseOutcomes.RerunAfterCrashCompletes` | crates/ninox-app/src/main.rs:2263-2281 | After a crash between freeing the checkout and completing the claim, a rerun at any later time finishes the release as long as the worker is still claimed and the checkout still free |
| `ReleaseOutcomes.RerunAfterReleaseStrands` | crates/ninox-app/src/main.rs:2215-2233 | If the freed checkout was leased again first, the rerun fails and leaves a retained worker bound to a lease it does not hold |
| `ReleaseRuns.CrashAndReleaseStrands` | crates/ninox-app/src/main.rs:2215-2233 | From the start, for every two sessions: a release frees its checkout and crashes, the other session leases it, and the release run again ends so |
| `ReleaseOutcomes.StrandedForGood` | crates/ninox-core/src/store.rs:2133-2170 | Such a worker, and a released one likewise, is never released, resumed or re-filed again in any run: its row stays as it is |
| `ReleaseOutcomes.AloneItIsTheRelease` | crates/ninox-app/src/main.rs:2086-2134 | With nothing in between, the interleaved steps of a release leave the rows the release leaves |
| `RestoreAccount.RelaunchedExactly` | crates/ninox-app/src/fleet.rs:361-388 | A complete restore relaunches exactly the sessions that were down, unblocked and selected (an orchestrator only if still known), each with its launch outcome, and records each outcome |
| `RestoreAccount.BriefedExactly` | crates/ninox-app/src/fleet.rs:372-437 | It tries a briefing for exactly the workers that came back and were resumed, and the live orchestrators that were restored, are owed one, or have a restored worker; the outcome is the delivery's |
| `RestoreAccount.MarkedExactly` | crates/ninox-app/src/fleet.rs:392-401 | It begins a recovery for exactly the orchestrators concerned that are not owed a briefing already, and marks it sent if and only if the briefing was delivered |
| `RestoreAccount.NudgedExactly` | crates/ninox-app/src/fleet.rs:403-413 | It nudges exactly the sessions that came back, have messages waiting and were not briefed |
| `RestoreAccount.RelaunchesFollowTheFleet` | crates/ninox-core/src/fleet/plan.rs:78-98 | Each stage relaunches its sessions in the order in which the fleet lists them |
| `RestoreAccount.EveryRelaunchIsRecorded` | crates/ninox-app/src/fleet.rs:365-366 | Every relaunch is followed at once by the record of its outcome |
| `FleetRestore.Restorer.Restore` | crates/ninox-app/src/fleet.rs:342-418 | The loops leave exactly the specified log, over the targets each visited once in the order of their ids, and the store as that log says |
| `FleetRestore.Restorer.RelaunchAll` | crates/ninox-app/src/fleet.rs:363-370 | Relaunches and records every planned session still in the snapshot, in plan order, and reports those that did not fail |
| `FleetRestore.Restorer.DeliverBriefing` | crates/ninox-app/src/fleet.rs:445-471 | Tries a delivery exactly when there is a briefing, and reports and logs whether it worked |
| `FleetRestore.Restorer.BriefOrchestrators` | crates/ninox-app/src/fleet.rs:392-401 | For each target: begins a recovery unless one is pending, tries the briefing, and marks it sent only after a delivery |
| `FleetRestore.BriefingTargets` | crates/ninox-app/src/fleet.rs:422-437 | Lists, each once and in the order of their ids, exactly the live orchestrators that are restored, pending, or own a restored worker |
| `RestoreGuarantees.WorkersComeFirst` | crates/ninox-app/src/fleet.rs:361-388 | In every run every worker relaunch, and the briefing attempt of every worker that came back, precedes every orchestrator relaunch |
| `RestoreGuarantees.SentMeansDelivered` | crates/ninox-app/src/fleet.rs:392-401 | After any series of restores, each cut off anywhere, a briefing marked as sent was delivered since its recovery was last begun |
| `RestoreGuarantees.CompleteRunSettlesRecoveries` | crates/ninox-core/src/store_fleet.rs:369-390 | A complete run leaves each target begun, and marked sent if and only if it had a briefing and the delivery worked; all other recoveries stay |
| `RestoreGuarantees.BegunBriefingsAreRetried` | crates/ninox-core/src/fleet/plan.rs:82-91 | Whatever restores came before: a recovery they began and did not mark as sent is tried again by the next complete run that includes it while live, and the mark then says whether it worked |
| `RestoreGuarantees.LiveOrchestratorsAreBriefedExactly` | crates/ninox-app/src/fleet.rs:422-471 | For an orchestrator that was live all along, with no restored worker, a complete run tries a briefing if and only if its recovery was begun and not marked as sent and there is a briefing for it |
| `RestoreGuarantees.RelaunchedButNotBegunIsNotRetried` | crates/ninox-core/src/fleet/plan.rs:47-49 | So a run that stops after relaunching an orchestrator and before beginning its recovery loses that briefing: the next run does not try it |
| `RestoreGuarantees.ABriefingIsLost` | crates/ninox-core/src/fleet/plan.rs:47-49 | For every orchestrator there are two such runs, the second complete while it is live: it was a target of the first, which relaunched it, and neither tries to brief it |
| `SessionGrouping.GroupSessions` | crates/ninox-app/src/main.rs:3117-3144 | The loops build exactly the specified board |
| `SessionGrouping.GroupingConserves` | crates/ninox-app/src/main.rs:3117-3144 | The groups together hold exactly the sessions, with multiplicities |
| `SessionGrouping.GroupsFollowOrchestrators` | crates/ninox-app/src/main.rs:3121-3143 | Groups follow the orchestrators; at most one more comes last, never empty, holding exactly the sessions that no orchestrator matches |
| `SessionGrouping.OnTheFirstMatchingBoard` | crates/ninox-app/src/main.rs:3126-3135 | A session is in exactly the group of the first orchestrator that matches its owner |
| `SessionGrouping.OwnRowFirst` | crates/ninox-app/src/main.rs:3136-3140 | The owner's own row leads its group; the rest follow by start time, ties in arrival order |
| `SessionGrouping.MembersKeepArrivalOrder` | crates/ninox-app/src/main.rs:3125-3135 | Before sorting, and for ownerless sessions for good, arrival order is kept |
| `BatchRestart.BatchIsTheRequest` | crates/ninox-app/src/restart.rs:200-210 | The batch holds every requested id as often as requested, except the caller once |
| `BatchRestart.WorkersThenOrchestratorsThenCaller` | crates/ninox-app/src/restart.rs:200-210 | Workers come before orchestrators, the caller last and once, and it is last if and only if it was requested |
| `BatchRestart.BatchIsStable` | crates/ninox-app/src/restart.rs:200-210 | Within each class the order of the request is kept |
| `BatchRestart.Execute` | crates/ninox-app/src/restart.rs:119-141 | Every target is acted on once, in order; the detached self-restart is the last action, and there is one if and only if the caller was requested |
| `BatchRestart.Summarize` | crates/ninox-app/src/restart.rs:150-177 | The three tallies add up to the batch, and the summary reports trouble if and only if `had_trouble` does |
| `BatchRestart.SummaryNamesExactly` | crates/ninox-app/src/restart.rs:146-177 | The summary names as no longer live exactly the sessions that had ended or vanished, as failed exactly those whose restart failed; there was trouble if and only if some session was neither restarted nor detached |
| `OrchestratorAuth.AuthorizeOrchestrator` | crates/ninox-core/src/orchestrator_auth.rs:15-64 | The method against the store is the specified authorization, each refusal included |
| `OrchestratorAuth.AuthorizedExactly` | crates/ninox-core/src/orchestrator_auth.rs:15-64 | A call is authorized if and only if an orchestrator caller names a persisted orchestrator, descends from the pane's process, and the pane is the registered runtime's (creation times at most 2000 ms apart) or, with none registered, the orchestrator's own; it then leaves exactly that runtime registered |
| `OrchestratorAuth.RefusedExactly` | crates/ninox-core/src/orchestrator_auth.rs:21-62 | Each refusal is given if and only if its reason is the first in order that applies |
| `OrchestratorAuth.EveryGrantIsEarned` | crates/ninox-core/src/orchestrator_auth.rs:32-64 | However calls, spawns and removals interleave: whoever is authorized said to be an orchestrator that was one, sat in the pane of a runtime that was registered for it, and descended from that runtime's root process |
| `OrchestratorAuth.UninterruptedCallsAuthorize` | crates/ninox-core/src/orchestrator_auth.rs:15-64 | The two steps of a call with nothing between them are the authorization |
| `OrchestratorAuth.ASpawnSplitsCallers` | crates/ninox-core/src/store.rs:1640-1651 | With a spawn in between, two authorized callers of one orchestrator need agree in nothing: why the agreement is about undisturbed stretches |
| `OrchestratorAuth.Store.RegisterMigrated` | crates/ninox-core/src/store.rs:1673-1715 | Registers exactly an orchestrator's own session process under its own name, and only if nothing is registered |
| `OrchestratorAuth.AuthorizedCallersShareOneRuntime` | crates/ninox-core/src/orchestrator_auth.rs:32-64 | From any moment with no call for an orchestrator on its way, as long as it is neither spawned nor removed and however calls interleave and the fleet changes: all callers authorized for it agree in server epoch, tmux name, pane and root process, with creation times at most 4000 ms apart, and its registration, once there, never changes |
| `OrchestratorAuth.OnlyOneCallRegisters` | crates/ninox-core/src/orchestrator_auth.rs:33-55 | Of two calls that both found nothing registered, if one is authorized the other is refused, whatever other calls come between |
| `Slug.SlugIsNormal` | crates/ninox-core/src/lib.rs:46-55 | A slug is empty or runs of letters and digits joined by single hyphens, with none at either end |
| `Slug.SlugIsOnePass` | crates/ninox-core/src/lib.rs:46-55 | Mapping, splitting, dropping and joining comes to a one-pass automaton over the lower-cased name |
| `Slug.SlugifyIsIdempotent` | crates/ninox-core/src/lib.rs:46-55 | A slug is its own slug, for every lower-casing that leaves no ASCII capital and does not touch lower-case letters, digits and hyphens |

## Left out

- What an emulator makes of its bytes, how recovery tokens and history pages are ordered against bytes, and the delayed recovery tasks: terminal emulation is not part of this model.
- `ready_events` and yielding to the scheduler: they affect fairness, not the stream.
- That a yielded batch and the messages of the user may be queued behind each other: each batch is handled in the turn that yields it.
- u64 wrap-around of generations and of unread counts: numbers are unbounded.
- Plan documents, session dependencies, the status probe, sidebar, last fleet scope, notification popups and every geometry field of the app.
- Tasks that messages return, except the automatic reattach; a diff that a task fetches arrives as the message `DiffFetched`.
- Spawning, resuming and re-filing from the app beyond what they do to views, clients and emulators (`ShowSpawned`, `DetachForRespawn`).
- Decoding key streams in the legacy and tmux-extended protocols: `OtherModesAreAmbiguous` shows it cannot be done; single presses are decoded.
- The toolkit's own text for a key: the stream results are for presses without it, printable characters being written as UTF-8.
- `encode_paste`, `encode_wheel` and the mapping from toolkit keys: easy members.
- Git work and pruning in a release, who may call it, and its ownership checks: only store, disk, lock and outcome steps are modelled. The lock is that of a path, so a directory that is deleted and made anew during a release is taken for the same one.
- The look-ups of a release's record and the check that its directory exists (crates/ninox-app/src/main.rs:2191-2204) are one step, `Begin`: what may come between them is not part of this model.
- ReleaseLock.LiveWorkersKeepTheirCheckouts: is about runs whose claims are made under the lock, since the source does not always take it; `ClaimsAreSafeExactly` shows that no weaker condition will do.
- Quarantine, failed provisioning, cleanup claims, what a finalization does beyond blocking other claims, row deletion and reservations by sessions without a worker row: the re-lease side of the machine has re-file, reserve, provision, bind, retain and the two steps of a runtime start.
- ReleaseOutcomes.StrandedForGood: holds until the worker row is deleted or cleaned up, since no step of the machine does that.
- FleetRestore.Restorer.Restore: planning is modelled down to which sessions are awaiting, blocked and selected; launch modes, notes, prompt waits and the dry run are not.
- OrchestratorAuth.AuthorizedCallersShareOneRuntime: is about stretches without a spawn or removal of that orchestrator, since a spawn overwrites the registration and a removal deletes it (crates/ninox-core/src/store.rs:1640-1651, 1899).
- Rendering of boards, plans, reports and summaries: string assembly.
- `Slug.Slugify` takes lower-casing as a parameter: Unicode tables are not part of this model; `AsciiLower` shows the assumption can be met.
- Everything else in the repository: views, themes, tmux and SSH plumbing, services, the brain, scrollback, configuration.
