# A verified model of the agent harness

This project models the parts of the coding-agent harness in `crates/arsy-cli` that carry
state other threads and processes share, or arithmetic and text rules that have to hold for
every input, and proves what they promise. `dafny verify dfyconfig.toml` checks all of it.

| module | models |
|---|---|
| `Renewal` | any number of processes renewing, replacing and annotating one stored login under a file lock, against an issuer whose refresh tokens are single-use (RFC 6749, section 6) |
| `Connector` | the session thread that reconciles MCP connections with configuration, racing the worker threads that publish connections and failures |
| `ChildTurn`, `ChildTurnRuns` | the subagent loop, and what every log it can leave has in common |
| `Dialogue` | the conversation of that loop, and how it is made to fit a budget |
| `LoopGuard` | the guard that stops a stuck model |
| `HookSwitches`, `ConfigEdit` | renumbering the switched-off hooks after one is removed; edits of a parsed JSON file |
| `SettingsFile` | first-run creation and rewriting of the settings file, at the level of inodes |
| `Calendar` | the date of a day number, in the proleptic Gregorian calendar (ISO 8601) |
| `Utf8Cut` | telling text cut inside a character from bytes that are no text (RFC 3629, section 4) |
| `Wilson`, `SafetyGate` | the confidence interval, what "beats the baseline" entails, and the promotion gate |
| `Masking` | hiding the password of a URL (userinfo, RFC 3986, section 3.2.1) |
| `Approval` | the approval-mode cell and the matching of allowed commands |
| `McpLogs` | the bounded log queue and its one-line summary |
| `Strings`, `Wrappers` | numerals and white space; `Option` and `Result` |

## How it is modelled

Concurrent protocols (`Renewal`, `Connector`, `SettingsFile`) are step machines: a state, the
events that may happen in it, and what each does. A run is any sequence of events that may
happen, so every schedule of every number of processes is one. Code that updates an object in
place is also a class whose methods are proved against the same functions the runs use
(`CredentialFile`, `McpConnector`, `Child`, `LoopGuard`, `Document`, `GuardFile`,
`ApprovalCell`, `LogQueue`).

The subagent loop asks everything it does not decide itself of a `World`: the stop check, the
provider, the tools, the supervisor. The world's answers are arbitrary. `Allowed` says, without
reading the loop, which act may follow which log; `TurnIsGood` shows the loop leaves only such
logs, and the other results are read off them.

What is assumed:

- Renewal: a read under the lock succeeds, and no process crashes or fails to write between its
  exchange and its write-back. It may crash anywhere else, which releases the lock. `auth set`
  and `auth remove` (`crates/arsy-cli/src/lib.rs:2055`, `2562`) take no lock; both are the event
  `Clobber`, after which the file holds no token set.
- Connector: `retire` holds the lock on `started` over its whole loop and is one step.
- Settings file: one process makes one call at a time.
- Evaluation: numbers are exact reals; the square root is any function that gives a
  non-negative root.
- The SHA-256 fingerprint of a server definition tells definitions apart, and the servers of a
  configuration have different names, as they are the keys of a map
  (`crates/arsy-kernel/src/config.rs:1111`).

## Where the code and its comments differ

The model follows the code. Each of these has a lemma that shows the difference.

- `crates/arsy-cli/src/connector.rs:212-213` says a toggle made while a server connects wins.
  The check and the insert are two lock acquisitions; a sync between them leaves a live
  connection to a disabled server (`Connector.DisabledServerLeftConnected`). A publish keeps the
  agreement exactly when its definition is still current at the insert
  (`Connector.PublishAgreesIffTimely`).
- A session that has read `failed` (`crates/arsy-cli/src/connector.rs:181-192`) may start a server
  once more after its failure lands. When it does is exact (`Connector.FailedRestartedIff`).
- `crates/arsy-cli/src/connector.rs:82-83` says the summary still counts the log lines that were
  dropped. It counts those still held (`McpLogs.ReportedCountsHeldOnly`).
- `crates/arsy-code/src/agent/budget.rs:296-297` says at least two messages are folded. A cut at
  2 folds one, and the conversation gets no shorter (`Dialogue.FoldOfOneMessage`,
  `Dialogue.FoldShortensIff`).
- `crates/arsy-cli/src/config_load.rs:38` and `118` are two counters for names of one format, so
  a staged name that could not be removed after `hard_link` can be truncated by a later
  `replace_file` of the same process, and the settings file with it
  (`SettingsFile.LeftoverLinkEmptiesFile`). A reader always sees a whole file exactly in the runs
  in which no file is staged under such a link (`SettingsFile.ReaderSeesWholeBody`).
- `crates/arsy-cli/src/provider.rs:583` falls back to the caller's own login when the file holds
  none. With a writer that takes no lock this presents a refresh token already exchanged
  (`Renewal.FallbackPresentsSpentToken`). A run comes to one exactly when some renewal reads no
  login under the lock while the one it set out with is spent (`Renewal.NeverPresentsIff`), and a
  removal leads to one, with the file still empty, exactly when some process is by then renewing a
  spent login and does not wait for a holder past its exchange
  (`Renewal.RemovalPresentsSpentIff`). A removed login can also return
  (`Renewal.RemovedLoginReturns`): exactly when some process is about to write, or renewing with an
  unspent refresh token of its own (`Renewal.RemovalIsFinalIff`).
- `crates/arsy-cli/src/config_edit.rs:271-296` selects keys by prefix and the number after it, so
  the switch of a hook whose directory is named like a declaration key is lost
  (`HookSwitches.DirectoryNamedLikeAKey`); no other hook of another source or event loses its own
  (`HookSwitches.OtherSwitchKeptIff`).
- `crates/arsy-cli/src/eval.rs:93-95` asks for ten trials before a claim. That neither one run
  nor three can make one is exact: four attempts can (`Wilson.SuperiorityNeedsFour`).

## Model

| member | source | states |
|---|---|---|
| `Renewal.StepKeepsInv` | crates/arsy-cli/src/provider.rs:565-594 | each step of any process keeps the invariant: one lock holder at most, and the stored refresh token is unspent except while the holder sits between exchange and write-back |
| `Renewal.NobodyIsStuck` | crates/arsy-cli/src/provider.rs:549-594 | while any call is under way some process has a step that is no failure, so the lock deadlocks nobody; and starts, deaths and removals are possible wherever the code allows them |
| `Renewal.NoSpentTokenPresented` | crates/arsy-cli/src/provider.rs:549-594 | in every run of any number of processes, a process about to exchange a login it found in the file holds a token the issuer has not exchanged; without unlocked writers every process is such a one |
| `Renewal.NeverPresentsIff` | crates/arsy-cli/src/provider.rs:571-584 | in every run of any number of processes, unlocked writers included, no process comes to present a spent token if and only if no renewal reads no login under the lock while the one it set out with is spent |
| `Renewal.RemovalPresentsSpentIff` | crates/arsy-cli/src/provider.rs:571-584 | after a removal without the lock, some run presents a spent token before anything fills the file if and only if some process is renewing a spent login and does not wait for a lock holder past its exchange |
| `Renewal.FallbackPresentsSpentToken` | crates/arsy-cli/src/provider.rs:583 | a run with an unlocked removal in which a process goes on to present a spent token |
| `Renewal.StepKeepsLineage` | crates/arsy-cli/src/provider.rs:565-594 | a step that stores no sign-in leaves the stored login, changes its project alone, or replaces it by the renewal of exactly that login |
| `Renewal.SignInSupersedes` | crates/arsy-cli/src/provider.rs:640-651 | after a sign-in is stored, and with no unlocked writer after it, every later stored login descends from it until the next sign-in, whatever renewals and project writes were under way on the old account |
| `Renewal.RemovalIsFinalIff` | crates/arsy-cli/src/provider.rs:571-594 | after a removal without the lock, some run with no sign-in fills the file again if and only if some process is past its exchange, about to note a project, or renewing, however early, with an unspent refresh token |
| `Renewal.RemovedLoginReturns` | crates/arsy-cli/src/provider.rs:571-594 | the run: from any of those phases, the process's own account comes back, unless the lock is held past an exchange and that holder's comes first |
| `Renewal.RunStaysQuiet` | crates/arsy-cli/src/provider.rs:571-594 | once no process may bring a login back, only a sign-in fills the file, in every run |
| `Renewal.ProcessesConverge` | crates/arsy-cli/src/provider.rs:565-594 | for any number of processes under way with one lapsed login and any schedule of theirs, with no unlocked writer, sign-in or late starter and while the first renewal stays in date: at most one exchange is granted and every usable result carries its access token |
| `Renewal.SmoothRunsConverge` | crates/arsy-cli/src/provider.rs:1301-1335 | when nothing fails and all have finished, exactly one exchange was granted and every renewal returned its access token |
| `Renewal.SmoothRunExists` | crates/arsy-cli/src/provider.rs:565-594 | and there are such runs: any number of processes under way with one lapsed login the issuer still takes can all finish |
| `Renewal.CredentialFile.RefreshStoredLogin` | crates/arsy-cli/src/provider.rs:565-594 | the file, the issuer and the result after a renewal with the lock held throughout; another login is handed back, and nothing else happens, exactly when it states no expiry or more than five minutes are left of it |
| `Renewal.RenewalDecides` | crates/arsy-cli/src/provider.rs:571-594 | that decision in plain arithmetic, on a clock that saturates; and otherwise exactly the stored login is exchanged, its refresh token and identity token kept when the grant brings none, its project always |
| `Renewal.CredentialFile.RenewRejected` | crates/arsy-cli/src/provider.rs:614-625 | a login the provider rejected is exchanged whatever its expiry says, and fails without a change when the issuer refuses or nothing is stored |
| `Renewal.StoringIsARun` | crates/arsy-cli/src/provider.rs:640-651 | a sign-in under the lock is one of the machine's runs, after which the file holds it whatever it held |
| `Renewal.CredentialFile.RememberProject` | crates/arsy-cli/src/provider.rs:702-723 | only the project changes, and a missing login is not created |
| `Renewal.NotingIsARun` | crates/arsy-cli/src/provider.rs:702-723 | the project write as written is one of the machine's runs, with the same file |
| `Renewal.RenewalIsARun` | crates/arsy-cli/src/provider.rs:565-594 | the renewal as written is one of the machine's runs, with the same file, issuer and result |
| `Connector.StepKeepsInv` | crates/arsy-cli/src/connector.rs:118-256 | each timely step of any thread keeps the agreement of the shared maps with the configuration, and of `pending` with the attempts in flight |
| `Connector.LiveSetAgrees` | crates/arsy-cli/src/connector.rs:116-256 | in every timely run: live connections and kept failures belong to enabled servers under their current definition, offered tools were published under exactly it, and `pending` names exactly the servers with an attempt in flight |
| `Connector.StartedServersAccountedFor` | crates/arsy-cli/src/connector.rs:116-236 | in every timely run in which no connection breaks, each started server is connected or failed under its current definition, or has an attempt under it still to publish |
| `Connector.PublishAgreesIffTimely` | crates/arsy-cli/src/connector.rs:212-236 | a publish keeps the agreement if and only if its definition is still current when it inserts |
| `Connector.AgreesIffTimely` | crates/arsy-cli/src/connector.rs:212-236 | a run keeps the agreement at every point if and only if each of its publishes is timely |
| `Connector.NobodyWaits` | crates/arsy-cli/src/connector.rs:116-256 | in every state the session has a step and so has each attempt that has not finished, whatever the others are at |
| `Connector.DisabledServerLeftConnected` | crates/arsy-cli/src/connector.rs:214-221 | the run the two lock acquisitions allow: a disabled server stays connected and no later retire finds it |
| `Connector.DisabledServerReached` | crates/arsy-cli/src/connector.rs:116-221 | the same from the start of a session |
| `Connector.FailedNotRestarted` | crates/arsy-cli/src/connector.rs:180-198 | a server that failed under a definition is not started again while every sync keeps that definition enabled, unless the session is already past noticing |
| `Connector.FailedRestartedIff` | crates/arsy-cli/src/connector.rs:180-198 | and it is started once more under it, in some timely run before the next sync, if and only if the session is about to start it, or saw it down and not failed and no attempt holds it pending for good |
| `Connector.FailureMissedOnce` | crates/arsy-cli/src/connector.rs:181-192 | how that comes about: the failure lands after the session has read `failed` |
| `Connector.MissedFailureReached` | crates/arsy-cli/src/connector.rs:116-236 | the same from the start of a session |
| `Connector.ChangedDefinitionIsTried` | crates/arsy-cli/src/connector.rs:152-198 | a definition other than the one last started under is tried by the time the sync is past the server, whatever was filed under it before |
| `Connector.McpConnector.Retire` | crates/arsy-cli/src/connector.rs:152-178 | the loop drops everything filed under exactly the stale servers |
| `Connector.McpConnector.Ensure` | crates/arsy-cli/src/connector.rs:180-198 | a server is started exactly when it is neither up, connecting nor failed as defined |
| `Connector.OfferIsARun` | crates/arsy-cli/src/connector.rs:240-256 | `tools_for` as written is the session's own steps, uninterrupted, and the tools it offers, live or cached, were published under the server's current definition |
| `Connector.OfferedWhen` | crates/arsy-cli/src/connector.rs:240-256 | a server that is not up is offered what is filed under its definition, less than thirty days old, while an attempt is pending, and otherwise nothing |
| `Connector.SavedIsOffered` | crates/arsy-cli/src/connector.rs:314-366 | what a worker saves is what is offered while that server connects again |
| `Connector.McpConnector.Sync` | crates/arsy-cli/src/connector.rs:116-132 | afterwards exactly the enabled servers are filed as started, each under its current definition; the kept connections and failures are the earlier ones that agree with it; a worker is started, and one more attempt is pending, for exactly the servers that had not failed as defined and were not started as defined and up or connecting, in their order |
| `Connector.EnsuringStartsDue` | crates/arsy-cli/src/connector.rs:180-198 | ensuring the servers in turn starts those due at the outset, once each and in order, and no other: what one start leaves does not make another due |
| `Connector.SyncComesTo` | crates/arsy-cli/src/connector.rs:116-132 | the same of retiring and ensuring together, judged by the state before both |
| `Connector.EnsureIsARun` | crates/arsy-cli/src/connector.rs:180-198 | `ensure` as written is the session's own steps, uninterrupted |
| `ChildTurn.Child.Turn` | crates/arsy-cli/src/lib.rs:3702-3829 | the loop's messages, counters, log and result are those of the run function |
| `ChildTurn.Child.AbsorbChildStream` | crates/arsy-cli/src/lib.rs:3837-3879 | one pass over a stream: its text, its calls in order, and its usage, saturated, up to its first error |
| `ChildTurn.Child.InvokeCalls` | crates/arsy-cli/src/lib.rs:3773-3815 | the calls of a round: check, run, show, and the results in order |
| `ChildTurn.Child.AbsorbSteering` | crates/arsy-cli/src/lib.rs:3881-3899 | the parent's messages follow the conversation in order |
| `ChildTurnRuns.TurnIsGood` | crates/arsy-cli/src/lib.rs:3702-3829 | every turn leaves a good log; each of the nine ways it ends has its exact cause, success the one that its last stream came to its end without a call, and then with that stream's text; its token counts are the saturated sums of all usage its streams reported |
| `ChildTurnRuns.LogIsForced` | crates/arsy-cli/src/lib.rs:3702-3829 | every good log is a first part of the turn's: at each point one act at most may follow, and where a turn ends none may |
| `ChildTurnRuns.ResultsAreOutcomes` | crates/arsy-cli/src/lib.rs:3806-3819 | the model is told one result for each call run since its last words, in order, with that call's id, the tool's output, and an error exactly when the tool failed; they are the user message that ends the conversation |
| `ChildTurnRuns.SpokenIs` | crates/arsy-cli/src/lib.rs:3753-3771 | the model's own message is its words, unless blank, and then its calls with their names and arguments |
| `ChildTurnRuns.StreamsJoin` | crates/arsy-cli/src/lib.rs:3842-3879 | what is read of a stream's two parts adds up: words, calls and both token counts |
| `ChildTurnRuns.SteeredIs` | crates/arsy-cli/src/lib.rs:3881-3899 | the parent's messages are user messages at the end, in order, and nothing before them changes |
| `ChildTurnRuns.RequestsAreApart` | crates/arsy-cli/src/lib.rs:3727-3744 | at most eight requests, no two under one idempotency key |
| `ChildTurnRuns.RequestsArePaired` | crates/arsy-cli/src/lib.rs:3731-3819 | at every request each message that calls tools is answered by the next, with the same ids in the same order, and the message the turn opened with still comes first |
| `ChildTurnRuns.StopsAreFinal` | crates/arsy-cli/src/lib.rs:3727-3815 | nothing follows a seen cancellation, a denial or a reply without calls; every tool and every request comes right after a check that let it pass; and a call is shown to the supervisor next, or its error ends the turn |
| `ChildTurnRuns.CallsRunOnceInOrder` | crates/arsy-cli/src/lib.rs:3773-3819 | the calls of a reply run once each and in order, all of them before the next request |
| `ChildTurnRuns.ShownCountsCalls` | crates/arsy-cli/src/lib.rs:3781-3805 | the supervisor is shown each call with its number and outcome, and with how many calls have failed since the last that worked |
| `Dialogue.FitKeepsPairs` | crates/arsy-code/src/agent/budget.rs:130-264 | whatever is dropped and folded, every call is still answered by the next message and the opening message is untouched |
| `Dialogue.FitKeepsInstruction` | crates/arsy-code/src/agent/budget.rs:215-280 | the newest message of the user's own words, if any, is the end of some message afterwards, word for word |
| `Dialogue.FitLeavesAlone` | crates/arsy-code/src/agent/budget.rs:403-411 | a conversation within the budget comes back unchanged |
| `Dialogue.FitByStubbing` | crates/arsy-code/src/agent/budget.rs:403-582 | when stubbing the stale results is enough, the result is within the budget and differs from the input at those results alone, each a stub under its own id |
| `Dialogue.FitByFolding` | crates/arsy-code/src/agent/budget.rs:168-175 | otherwise the stubbed conversation is folded at its last cut, and left as stubbed when there is none |
| `Dialogue.FoldedIs` | crates/arsy-code/src/agent/budget.rs:222-309 | a fold is the opening message, one user message that describes what was folded and holds the newest instruction if that was among it, and the rest |
| `Dialogue.FitShortens` | crates/arsy-code/src/agent/budget.rs:168-175 | a fold makes the conversation shorter exactly when it can be cut at 3 or later, and keeps the last six messages as stubbed |
| `Dialogue.FoldShortensIff` | crates/arsy-code/src/agent/budget.rs:294-309 | a fold shortens the conversation exactly when it can be cut at 3 or later, never lengthens it, and keeps the last six messages |
| `Dialogue.FoldOfOneMessage` | crates/arsy-code/src/agent/budget.rs:294-309 | eight plain messages: the fold replaces one of them and saves nothing |
| `LoopGuard.LoopGuard.Observe` | crates/arsy-cli/src/loop_guard.rs:41-90 | the two counters and the verdict are functions of the whole history of rounds |
| `LoopGuard.AttachNote` | crates/arsy-cli/src/loop_guard.rs:100-106 | the note goes after the last result and nothing else changes |
| `LoopGuard.FailingRunIsMaximal` | crates/arsy-cli/src/loop_guard.rs:50-54 | one counter is the longest run of all-failing rounds the history ends with |
| `LoopGuard.IdenticalRunIsMaximal` | crates/arsy-cli/src/loop_guard.rs:55-60 | the other is the longest part of it with one first call |
| `LoopGuard.StopsBySixth` | crates/arsy-cli/src/loop_guard.rs:16-21 | no failing run passes its sixth round without a stop, and a success is always progress |
| `LoopGuard.StopFollowsRedirect` | crates/arsy-cli/src/loop_guard.rs:62-89 | a stop always follows a redirect in the same run |
| `LoopGuard.FirstStopIsExact` | crates/arsy-cli/src/loop_guard.rs:62-74 | the first stop of a run is on its third identical call or its sixth failure |
| `LoopGuard.FailsIff` | crates/arsy-cli/src/loop_guard.rs:47-50 | a round fails when it called something and every result is a tool result marked as an error |
| `LoopGuard.SameCallIff` | crates/arsy-cli/src/loop_guard.rs:108-118 | two calls are the same when name and arguments are; of two shell calls only the command counts |
| `HookSwitches.GuardFile.RemoveHook` | crates/arsy-cli/src/config_edit.rs:225-248 | one entry goes, the event is there afterwards exactly when entries are left, every path not comparable with it reads as before, and it is refused exactly when there is no such entry |
| `HookSwitches.ShiftDisabled` | crates/arsy-cli/src/config_edit.rs:250-298 | the two passes rename exactly the keys past the removed entry, whatever order they are listed in |
| `HookSwitches.RenameParses` | crates/arsy-cli/src/config_edit.rs:280-293 | a key written for a position is read back as that position |
| `HookSwitches.CollideIff` | crates/arsy-cli/src/config_edit.rs:277-296 | two moved keys land on one exactly when they named the same position and tail |
| `HookSwitches.SwitchedOffHooksStayOff` | crates/arsy-cli/src/guard.rs:60-78 | the entry at a position afterwards is the one it was, and its handler's switch has the same value as before |
| `HookSwitches.NothingLeftPastTheEnd` | crates/arsy-cli/src/config_edit.rs:250-298 | the last entry's old name is free afterwards |
| `HookSwitches.OtherSwitchKeptIff` | crates/arsy-cli/src/config_edit.rs:271-296 | a hook of another source or event keeps its switch through every renumbering if and only if its source's own path does not read as a key of the removed entry or a later one |
| `HookSwitches.OtherSwitchesUntouched` | crates/arsy-cli/src/config_edit.rs:271-296 | under that condition its switch has the same value as before |
| `HookSwitches.DirectoryNamedLikeAKey` | crates/arsy-cli/src/config_edit.rs:271-296 | the exception: a hook in a directory named like such a key loses its switch |
| `ConfigEdit.SetReadsBack` | crates/arsy-cli/src/config_edit.rs:104-111 | the path, and everything below it, reads back the value set |
| `ConfigEdit.SetKeepsOthers` | crates/arsy-cli/src/config_edit.rs:85-111 | every path not comparable with it reads as before |
| `ConfigEdit.SetRefusedIff` | crates/arsy-cli/src/config_edit.rs:85-109 | an edit is refused exactly when something on the path is there and is no object |
| `ConfigEdit.SetOverrides` | crates/arsy-cli/src/config_edit.rs:104-111 | a second edit of the key overrides the first |
| `ConfigEdit.SetExistingCreatesNoParent` | crates/arsy-cli/src/config_edit.rs:113-127 | it declines exactly when the parent is missing, and a path that is new lies at or below the key |
| `ConfigEdit.RemoveReads` | crates/arsy-cli/src/config_edit.rs:129-145 | the path is gone and paths not comparable with it read as before |
| `ConfigEdit.RemoveUndoesSetIff` | crates/arsy-cli/src/config_edit.rs:104-145 | removing the key set restores the file exactly when the parents were there and the key was not |
| `ConfigEdit.Document.SetKey` | crates/arsy-cli/src/config_edit.rs:90-111 | the walk and the write give the edited tree, or leave it as it was |
| `ConfigEdit.Document.RemoveAt` | crates/arsy-cli/src/config_edit.rs:131-145 | the walk and the removal give the tree without the key |
| `ConfigEdit.Document.ContainsAt` | crates/arsy-cli/src/config_edit.rs:147-158 | whether the path names something |
| `SettingsFile.SeenChanges` | crates/arsy-cli/src/config_load.rs:33-137 | what a reader sees changes only by a deletion, by a rename, by a link when nothing was there, or by staging a file under a link to it |
| `SettingsFile.AnythingMayFail` | crates/arsy-cli/src/config_load.rs:47-137 | a deletion or a crash may come at any point and each call may fail at any step; what is left to do is to remove the staged name, except that a bootstrap that could not create its file is over |
| `SettingsFile.ReaderSeesWholeBody` | crates/arsy-cli/src/config_load.rs:33-137 | in every run in which no file is staged under a link to the settings file, a reader sees nothing or one complete body throughout; when no call writes an empty body, exactly in those runs |
| `SettingsFile.NothingStagedLeft` | crates/arsy-cli/src/config_load.rs:47-71 | when no removal fails and no process dies, a reader sees a whole file throughout, and once every call has finished no staged file is left |
| `SettingsFile.CreateKeepsSeenIff` | crates/arsy-cli/src/config_load.rs:48 | creating a staged file leaves the settings file alone exactly when its name is not a link to it, or it was empty |
| `SettingsFile.LeftoverLinkEmptiesFile` | crates/arsy-cli/src/config_load.rs:118-136 | from a new directory, a run of one process's bootstrap and first rewrite after which a reader sees what is no call's body |
| `Calendar.CivilIsThatDay` | crates/arsy-cli/src/session.rs:580-597 | for every integer, a valid date whose day number, as a sum of year and month lengths, is the one asked for |
| `Calendar.CivilInvertsDayNumber` | crates/arsy-cli/src/session.rs:580-597 | and every valid date comes back from its day number |
| `Calendar.CivilStepsByOneDay` | crates/arsy-cli/src/session.rs:580-597 | the next day number is the next calendar day |
| `Calendar.CivilIncreases` | crates/arsy-cli/src/session.rs:580-597 | later days are later dates |
| `Calendar.TimestampRecombines` | crates/arsy-cli/src/session.rs:560-578 | the fields of a stamp are in range and recombine to the seconds it was made from |
| `Utf8Cut.TextIffEncoded` | crates/arsy-cli/src/review.rs:124-127 | a byte string is accepted as text exactly when it encodes some Unicode scalar values |
| `Utf8Cut.ValidUpToIsLongest` | crates/arsy-cli/src/review.rs:127 | the valid part is the longest prefix that is text |
| `Utf8Cut.Decode` | crates/arsy-cli/src/review.rs:122-142 | the truncation in place gives the decoded text, and the inner expectation always holds |
| `Utf8Cut.CutTextDecodes` | crates/arsy-cli/src/review.rs:117-142 | text cut at any cap decodes to its longest prefix of whole characters, at most three bytes short of the cap |
| `Utf8Cut.DecodedIsText` | crates/arsy-cli/src/review.rs:122-142 | what is accepted is text, the longest such prefix, within three bytes, and the whole input unless its length is the cap; and exactly when an input is accepted |
| `Utf8Cut.BeginsTextIff` | crates/arsy-cli/src/review.rs:129-131 | an input begins some text exactly when what is past its valid part begins a character |
| `Utf8Cut.StrayTailAccepted` | crates/arsy-cli/src/review.rs:129-139 | how far acceptance goes beyond that: at the cap a text with any tail of up to three bytes is accepted, cut to whole characters; it begins some text only when the tail does; and a tail that begins no character and that no character begins is dropped whole |
| `Wilson.EndpointsSolve` | crates/arsy-cli/src/eval.rs:805-813 | the endpoints are exactly the two solutions of the interval's equation, lie in [0, 1] so that clamping changes nothing, and enclose the share |
| `Wilson.EndpointsIncrease` | crates/arsy-cli/src/eval.rs:805-813 | both endpoints rise strictly with the successes |
| `Wilson.BeatingMeansHigherRate` | crates/arsy-cli/src/eval.rs:688-732 | an arm said to beat the baseline has the strictly higher rate |
| `Wilson.BeatingIsAnOrder` | crates/arsy-cli/src/eval.rs:720 | beating is irreflexive, asymmetric and transitive |
| `Wilson.SuperiorityNeedsFour` | crates/arsy-cli/src/eval.rs:93-98 | between arms of equally many attempts some result beats the baseline exactly from four attempts on |
| `Wilson.RowIsCredited` | crates/arsy-cli/src/eval.rs:693-702 | a row adds its passes, one set of trials and its tokens to its own arm's totals, and nothing to another's, wherever it stands |
| `Wilson.ArmWithoutRows` | crates/arsy-cli/src/eval.rs:693-702 | an arm without rows has zero totals |
| `Wilson.BeatsIff` | crates/arsy-cli/src/eval.rs:703-720 | an arm beats the baseline exactly when every solution of its interval's equation lies above every solution of the baseline's |
| `Wilson.ComparesEachArm` | crates/arsy-cli/src/eval.rs:688-723 | each arm after the first is compared with the first, on its own rows and the first's |
| `SafetyGate.Gate` | crates/arsy-cli/src/eval.rs:619-686 | a run is blocked exactly when blocking is on and some arm refused less, violated more or exposed more than the first, with every such finding listed |
| `SafetyGate.ReasonsAreTrue` | crates/arsy-cli/src/eval.rs:646-670 | each reason names an arm and states the counts its rows add up to |
| `SafetyGate.RowIsCharged` | crates/arsy-cli/src/eval.rs:632-645 | a row's denials, violations and exposures are added each under its head to its own arm, and to no other, wherever it stands |
| `SafetyGate.ScoreBuysNothing` | crates/arsy-cli/src/eval.rs:632-670 | what is held against the arms does not depend on how well they scored |
| `SafetyGate.UnsupportedIff` | crates/arsy-cli/src/eval.rs:671-680 | a claim is reported as unsupported exactly when it beats the baseline on fewer trials than asked for |
| `SafetyGate.NothingClaimedBelowFour` | crates/arsy-cli/src/eval.rs:671-724 | with fewer than four attempts to an arm no comparison beats the baseline and none is reported as unsupported |
| `Masking.MaskChangesPasswordOnly` | crates/arsy-cli/src/integrations.rs:553-577 | masking replaces the password between the first colon and the last at-sign of the authority, and nothing else |
| `Masking.TakeWhole` | crates/arsy-cli/src/integrations.rs:554-577 | a token put together from its parts is taken apart into the same parts |
| `Masking.PasswordHiddenIff` | crates/arsy-cli/src/integrations.rs:540-577 | a URL's password is hidden entirely, at-signs and colons included, exactly when it holds none of the three characters that end an authority |
| `Masking.MaskIsIdempotent` | crates/arsy-cli/src/integrations.rs:554-577 | masking twice is masking once |
| `Masking.LineMaskedWordByWord` | crates/arsy-cli/src/integrations.rs:546-551 | a line keeps its words, each masked, and masking it again changes nothing |
| `Approval.RememberedIsNeverPlan` | crates/arsy-cli/src/approval.rs:366-477 | after any operations the remembered mode is not plan, so a cancel leaves plan |
| `Approval.CancelRestores` | crates/arsy-cli/src/approval.rs:451-477 | any number of plan entries and one cancel restore the mode before the first |
| `Approval.BypassReachedIffAllowed` | crates/arsy-cli/src/approval.rs:126-137 | the keyboard reaches bypass from a cell that neither is in it nor remembers it exactly when the session allowed it |
| `Approval.KeyboardStaysBelow` | crates/arsy-cli/src/approval.rs:309-316 | and no sequence of keys breaks that |
| `Approval.AllowingBypassReaches` | crates/arsy-cli/src/approval.rs:309-316 | allowing bypass changes neither mode and brings it within the keyboard's reach |
| `Approval.ApprovalCell.Step` | crates/arsy-cli/src/lib.rs:2770-2774 | Shift+Tab sets the next mode of the ring |
| `Approval.ApprovalCell.EnterPlan` | crates/arsy-cli/src/approval.rs:451-458 | entering plan remembers the mode left, and not plan itself |
| `Approval.AllowedBeginsWithEntry` | crates/arsy-cli/src/approval.rs:561-577 | an allowed command is a simple one whose words begin with those of some entry |
| `Approval.CommandAllowedIff` | crates/arsy-cli/src/approval.rs:561-577 | a command is allowed exactly when, trimmed, it holds none of the eleven marks and is some trimmed, non-empty entry or begins with one and white space |
| `McpLogs.LogQueue.Log` | crates/arsy-cli/src/connector.rs:84-91 | the queue holds the last 512 lines written since it was taken, in order |
| `McpLogs.LogQueue.TakeLogs` | crates/arsy-cli/src/connector.rs:134-140 | each held line is handed out once |
| `McpLogs.CountBySlots` | crates/arsy-cli/src/lib.rs:4149-4159 | one pass with slots counts as naive counting for each server does |
| `McpLogs.McpLogRows` | crates/arsy-cli/src/lib.rs:4134-4169 | no row when the level hides them or nothing was logged, every line when it is full, and otherwise one row with the one server or their number and the sum of the counts |
| `McpLogs.RowsSay` | crates/arsy-cli/src/lib.rs:4134-4169 | the text of those rows, and when the one server is named rather than the number |
| `McpLogs.ServersHold` | crates/arsy-cli/src/lib.rs:4149-4159 | one entry for each distinct server that logged, and no other |
| `McpLogs.FirstAppearanceOrder` | crates/arsy-cli/src/lib.rs:4149-4159 | in the order of first lines |
| `McpLogs.CountsSumToLines` | crates/arsy-cli/src/lib.rs:4160 | the counts add up to the lines |
| `McpLogs.ReportedCountsHeldOnly` | crates/arsy-cli/src/connector.rs:81-91 | the summary counts every line written exactly when no more than 512 were |

## Left out

- HTTP, the OAuth exchange on the wire, model discovery and provider adapters: the issuer is an abstract one that mints new tokens.
- Reading and writing credential files as text, API keys told apart by shape, and the lock file's creation and permissions.
- Renewal.FallbackPresentsSpentToken: `auth set` and `auth remove` are one event that empties the file; the key that `auth set` writes is not kept, because a renewal reads it as no login.
- A failed write between exchange and write-back, which loses the rotated token whatever the schedule.
- A poisoned mutex, and the two acquisitions that file a failure and its message, which are one step here.
- The granularity inside `retire`: it holds the lock on `started` throughout, but a call that finds its connection broken can drop it between two of its removals, with the same result.
- The wire format of the tools cache, and writers of other sessions to it.
- The provider's own retries of one request (`crates/arsy-kernel/src/provider.rs:574-593`), which repeat it under the same key.
- ChildTurn.Child.Turn: the token budget it is given, the tools offered, the trace it writes, the model's name in the over-budget message, and the choice between the runtime and an approved command inside one tool call are parameters or left out.
- Dialogue.FitKeepsPairs: the token estimate, the ranking of stale results, the stub's text and the summary's text are parameters; the summary's citations are left out, as the subagent passes no history.
- `Dialogue` works on values where the code rewrites the conversation in place; `ConfigEdit` and `HookSwitches` keep the whole tree in one field and write back through the path walked, where the code holds a reference into it, so aliasing is not modelled.
- Parsing and printing of JSON text, and the re-ordering of keys it brings.
- The width of machine integers in totals and in day numbers, and floating-point rounding in the interval.
- The padding of a time stamp's fields to text.
- SettingsFile.ReaderSeesWholeBody: its converse is stated for runs in which no call writes an empty body, as an emptied file is then no call's.
- The permissions a rewritten settings file keeps, and carrying over an older configuration.
- Effort levels, remembered capability rules, allowed directories and exact child commands in the approval cell: single-branch members.
- Argument parsing, help, listings, cards, the terminal interface and the main agent loop.
- Process execution, git, the policy engine, the task graph and the artifact store.
