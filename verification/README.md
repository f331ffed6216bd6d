# Verified models of EchoBird's stateful code

This project models the parts of the EchoBird desktop application whose behaviour spans many steps,
and proves what they keep over every run. `dafny verify dfyconfig.toml` checks all of it.

Code that updates state in place appears twice: as a class whose fields are the variables of the
source and whose methods follow its statements, and as functions on a value of the same fields. Each
method is proved equal to its function, and the properties are proved about the functions, mostly
over arbitrary sequences of events.

| files | what they model |
|---|---|
| `ChatModel`, `ChatWrite`, `ChatSession`, `ChatPersistence` | the conversation store over a key/value storage in which every write may fail or be the last: data and reload, `writeStored` after any number of successful writes, the operations of the hook, the hook as a class |
| `ChatCrash`, `ChatDuplication`, `ChatDelete`, `ChatWait`, `ChatRuns`, `ChatSaved`, `ChatReturn`, `ChatEffects` | its theorems: crash atomicity and refinement of one write, what a migration stores twice, the phases of a deletion and its wait for the backend, every run with crashes and reloads, what a clean session means, runs that break two promises, and what each operation does for the user |
| `SettingsModel`, `SettingsProtocol`, `SettingsFailures`, `SettingsEffects`, `SettingsClients`, `SettingsApp` | reads and saves of three settings by the settings dialog, beside the terminal's toggle, the application's first read and the opening of the account plugins: the system, its invariant and when it holds, two runs that break it, what each event does, the components as classes, and all of them together |
| `CharacterRenderer` | the wake-up scheduler of the character background with its growing pauses |
| `Downloads` | the download table with cleanup timers and start attempts |
| `FlowFrames`, `TabCanvas`, `TabGlide` | the shared animation frame, the canvases that paint through it, and the gliding highlight they paint |
| `PluginTokens` | the preview tokens of the plugin import dialog |
| `WindowPlacement` | overlap, fitting and choice of a monitor when the main window is restored |
| `FreeModels` | the add-only refresh of the free-model catalog |
| `RouterStatistics` | the aggregation of router statistics into display rows |
| `AccountProxy` | the selectors of linked accounts, printed and parsed |
| `Sorting`, `Picking`, `Common` | stable sorting, taking what is there out of a list in its order, and what several modules share |

The central device of the conversation store is `Written(st, v, k)`: the storage and the bookkeeping
that `writeStored(v)` leaves when its first `k` storage writes succeed and the next one throws. A
crash after `k` writes leaves the same storage, so a statement for every `k` covers every failure
and every crash point. `ChatPersistence.Chat.WriteStored` is the loop of the source, and its contract
says that it ends in `Written` for some `k`.

Six promises hold only under a condition, which is proved with them:

* A migration's peak storage is promised to be the old index plus one body
  (`src/hooks/useChatPersistence.ts:230-231`). An index write that failed in an earlier call can make
  a body return to the index, and then two conversations are stored twice:
  `ChatReturn.TwoDuplicatesReachable`, with the condition in `ChatDuplication.BoundedDuplication`.
* Whenever nothing is marked to be saved, a reload should give back the session. A flush can run while
  a deletion waits for the backend, by a page event (`src/hooks/useChatPersistence.ts:280-285`), and
  write the conversation back; if the deletion's first flush had failed and the cleanup succeeds, lines
  402-403 then clear the mark, and a reload shows the deleted conversation, empty once its key is gone:
  `ChatReturn.DeletedComesBack`. The condition on the end of a deletion is in
  `ChatWait.EndKeepsExactly`, that on a whole deletion in `ChatWait.DeletedReloads`, and
  `ChatSaved.SavedSinceStart` has it for every run.
* Restoring a window twice is not restoring it once when centring wraps around the i32 range onto
  another monitor: `WindowPlacement.WrappedRestoreMoves`, with the condition in
  `WindowPlacement.RestoreIsFixpoint`; `WindowPlacement.RestoreTwiceIsOnce` excludes it for areas that
  end within the i32 range.
* Every preview token is cancelled or shown only because the dialog offers no preview while it shows a
  candidate; `preview` itself does not ensure it: `PluginTokens.UnguardedLeak`, against
  `PluginTokens.NoTokenLeaks`.
* The controls of the settings agree with the backend only while two kinds of event do no harm. While
  the local-model page is off on file, every save can fail after it was stored, because the server is
  to be stopped again (`src-tauri/src/commands/settings_commands.rs:97-100`); and opening the account
  plugins writes a whole earlier snapshot of the settings back without the shared pending flag.
  `SettingsProtocol.StepKeepsExactly` has the exact condition on each such event, `SettingsFailures`
  a run for either kind, and `SettingsProtocol.ReadHeals` shows that the next read that the dialog
  takes over puts it right, if no save lands after its answer.
* A gliding highlight stays between its start and its target exactly while no frame comes with a time
  before the last change of target (`src/components/useTabCanvas.ts:62` limits the progress from above
  only): `TabGlide.PaintBetween`, with a run that overshoots in `TabGlide.EarlyFrameOvershoots`.

## Model

| member | source | states |
|---|---|---|
| ChatModel.ReadBack | src/hooks/useChatPersistence.ts:45-51 | a body written to its key reads back as the same messages |
| ChatEffects.FormPicks | src/hooks/useChatPersistence.ts:203-204 | what is stored of a message list is each message that has a stored form, unchanged and in order, and nothing else |
| ChatEffects.ReadPicks | src/hooks/useChatPersistence.ts:45-51 | what is read of a stored array is each usable message, unchanged and in order, and nothing else |
| ChatModel.DefaultCountIsDiskCount | src/hooks/useChatPersistence.ts:295-299 | with the default counter, the count kept in memory is the one a reload computes from the stored messages |
| ChatEffects.CountIsSize | src/hooks/useChatPersistence.ts:295-296 | the count kept in memory is the number of the messages that count |
| ChatEffects.ShownIsSize | src/hooks/useChatPersistence.ts:53-54 | the count of stored messages is the number of those that are neither of the system nor of a tool |
| ChatModel.NewestIsFirst | src/hooks/useChatPersistence.ts:122 | the conversation made active when the saved one is missing is the head of the stable sort: nothing is newer, and nothing before it is as new |
| ChatRuns.LoadOk | src/hooks/useChatPersistence.ts:56-172 | a reload of any disk with distinct ids starts a valid session: every listed conversation is there and shows its committed body, from the index, its own key or a legacy key |
| ChatEffects.IndexedIs | src/hooks/useChatPersistence.ts:80-119 | an index is used exactly if its version is 1 or 2 and one of its entries passes the checks |
| ChatEffects.LoadShowsIndex | src/hooks/useChatPersistence.ts:83-118 | a reload shows exactly the entries that pass the checks, in order, each with its metadata, the messages in the index or else under its own key, and its count |
| ChatEffects.LoadActivatesIndex | src/hooks/useChatPersistence.ts:119-124 | the saved conversation becomes active if it is listed, else the most recently updated one, the first in the list among equals |
| ChatEffects.LoadShowsLegacy | src/hooks/useChatPersistence.ts:131-171 | without a usable index a reload shows the legacy histories that hold a message, in order, and activates the first local one, or a new empty local conversation behind them |
| ChatPersistence.Chat.constructor | src/hooks/useChatPersistence.ts:185-193 | the initial load fills memory and the two bookkeeping sets exactly as the reload of the disk prescribes |
| ChatPersistence.Chat.LoadConversations | src/hooks/useChatPersistence.ts:77-171 | the index first, the legacy keys only without a usable index, and a local conversation at the end |
| ChatPersistence.Chat.LoadEntries | src/hooks/useChatPersistence.ts:83-118 | the loop over index entries: rejected ones are skipped, embedded bodies become pending, the others count as stored |
| ChatPersistence.Chat.LoadLegacy | src/hooks/useChatPersistence.ts:131-162 | the loop over legacy keys: empty histories are skipped, the others become pending conversations |
| ChatPersistence.Chat.CollectBodies | src/hooks/useChatPersistence.ts:198-208 | the bodies to write and the order of their keys: changed or not yet stored ones, taken from the pending set where they are unchanged |
| ChatPersistence.Chat.WriteBody | src/hooks/useChatPersistence.ts:237-247 | one turn of the write loop with its rollback: a failed index write takes the id back out of the stored set and keeps the body pending |
| ChatPersistence.Chat.WriteStored | src/hooks/useChatPersistence.ts:196-252 | whatever fails, the storage and the bookkeeping are those of the first k successful writes, and the call returns normally only when all succeeded |
| ChatWrite.ActiveFirst | src/hooks/useChatPersistence.ts:233-236 | the active conversation is written first whenever it is written at all |
| ChatWrite.WriteBooks | src/hooks/useChatPersistence.ts:237-249 | an unfinished write forgets no changed body, adds nothing to the pending set, and without a migration leaves the index alone |
| ChatWrite.WrittenIndexRecovers | src/hooks/useChatPersistence.ts:209-229 | any index the call writes reloads to the conversations of the state, in order, with their metadata, and embeds exactly the bodies not stored elsewhere |
| ChatCrash.WriteIsAtomic | src/hooks/useChatPersistence.ts:196-252 | crash atomicity: after any prefix of the storage writes a listed conversation reloads with the body it had or with its current body, never an empty or missing one |
| ChatCrash.WriteKeepsTracked | src/hooks/useChatPersistence.ts:237-249 | the pending, stored and changed sets agree with the disk after every prefix of writes, so a retry starts from a sound state |
| ChatCrash.WriteKeepsOthers | src/hooks/useChatPersistence.ts:350-388 | the same for a conversation the written state leaves out, as during a deletion |
| ChatCrash.VisibleIsCurrent | src/hooks/useChatPersistence.ts:61-76 | what the user sees of a conversation is what the next complete write stores |
| ChatCrash.WriteRefines | src/hooks/useChatPersistence.ts:196-252 | refinement: a write that returns leaves a disk that reloads to exactly the written state (conversations, order, metadata, counts, active id, bodies) with nothing left to migrate, from any mix of pending, stored and changed bodies |
| ChatEffects.MessagesComeBack | src/hooks/useChatPersistence.ts:196-316 | after messages were set and a write succeeded, a reload shows in the active conversation exactly those of them that have a stored form, unchanged and in order, under the new title, and all other conversations as they were |
| ChatCrash.DeferredReadIsStable | src/hooks/useChatPersistence.ts:61-76 | the lazy read of an unchanged conversation returns the same messages before and after any prefix of any write, including a rolled-back one |
| ChatDuplication.MigratedStaysOut | src/hooks/useChatPersistence.ts:225-226 | a body that has its own key does not come back into the index during a write |
| ChatDuplication.EmbeddedShrinks | src/hooks/useChatPersistence.ts:230-247 | once a migration has written an index, the set of embedded bodies only shrinks |
| ChatDuplication.BoundedDuplication | src/hooks/useChatPersistence.ts:230-248 | from a disk without duplicates, every moment of the call has at most one conversation both embedded and under its own key if and only if few bodies return to the index |
| ChatReturn.TwoDuplicatesReachable | src/hooks/useChatPersistence.ts:230-248 | a concrete run after which a write, from a disk without duplicates, stores two conversations twice |
| ChatReturn.DeletedComesBack | src/hooks/useChatPersistence.ts:389-412 | from every state in which no deletion waits, for every conversation, there is a run after which nothing is marked to be saved, memory is without the conversation, and a reload shows it empty |
| ChatSaved.SavedAfterFirstWrite | src/hooks/useChatPersistence.ts:254-270 | after the first successful write, and over every run that follows with failed writes, flushes and crashes while a deletion waits, and reloads, there is an index, and whenever no deletion waits and nothing is dirty, a reload gives back the session (conversations, order, metadata, active id, the bodies the user sees, and counts that are those in memory or those of the stored messages) exactly if no flush overtook a deletion since memory changed last |
| ChatSaved.SavedSinceStart | src/hooks/useChatPersistence.ts:185-270 | the same for every run from the load of any disk; an index that is there at the start stays |
| ChatSaved.CleanReloadsAll | src/hooks/useChatPersistence.ts:254-270 | a clean session with an index is what a reload gives back, message counts included |
| ChatSaved.WriteKeepsCount | src/hooks/useChatPersistence.ts:209-229 | the count on disk is the one in memory or that of the stored messages, after every prefix of every write |
| ChatSession.FlushKeeps | src/hooks/useChatPersistence.ts:254-264 | a flush that fails or succeeds keeps memory, every visible body and the invariant |
| ChatPersistence.Chat.Flush | src/hooks/useChatPersistence.ts:254-264 | nothing without a change; otherwise one write, after which the state is clean exactly if it succeeded |
| ChatPersistence.Chat.SetMessages | src/hooks/useChatPersistence.ts:289-316 | does nothing for the list on screen; otherwise marks the active body as changed and replaces messages, count, title and update time of the active conversation only |
| ChatEffects.MessagesShown | src/hooks/useChatPersistence.ts:289-316 | the active conversation alone gets the messages, their count, the title and the time, and the session is to be saved |
| ChatPersistence.Chat.SelectConversation | src/hooks/useChatPersistence.ts:318-327 | ignores the active and unknown ids; otherwise flushes, switches and flushes |
| ChatPersistence.Chat.CreateConversation | src/hooks/useChatPersistence.ts:329-337 | flushes, puts a new active conversation in front and flushes |
| ChatEffects.CreateActivates | src/hooks/useChatPersistence.ts:329-337 | the new conversation is active, in front of the others as they were, empty, untitled and on the server that was asked for |
| ChatPersistence.Chat.SelectServer | src/hooks/useChatPersistence.ts:339-348 | selects the most recently updated conversation of the server, or creates one |
| ChatSession.SelectsNewest | src/hooks/useChatPersistence.ts:339-348 | selecting a server that has conversations activates the most recently updated of them, the first in the list among equals, and changes nothing else in memory |
| ChatEffects.ServerActivates | src/hooks/useChatPersistence.ts:339-348 | whichever way a server is selected, the active conversation is on it afterwards: the most recently updated of those it has, or a new empty one if it has none |
| ChatEffects.SelectIsSaved | src/hooks/useChatPersistence.ts:323-324 | when the write after a selection succeeds, a reload shows the selection |
| ChatEffects.CreateIsSaved | src/hooks/useChatPersistence.ts:333-334 | when the write after a creation succeeds, a reload shows the new conversation active |
| ChatEffects.SelectSavesFirst | src/hooks/useChatPersistence.ts:322-324 | what was to be saved before a selection is written first: it survives even if no write after the selection succeeds |
| ChatEffects.CreateSavesFirst | src/hooks/useChatPersistence.ts:331-334 | and likewise before a creation |
| ChatPersistence.Chat.DeleteConversation | src/hooks/useChatPersistence.ts:350-415 | the deletion with all its failure exits, for any number of successful writes in each phase, any flushes while it waits and any end of the cleanup |
| ChatPersistence.Chat.BeginDelete | src/hooks/useChatPersistence.ts:352-388 | the part before the wait: nothing for an unknown id; otherwise a flush, the rest of a migration and the shortened write, and the failure of either of the last two ends the deletion |
| ChatPersistence.Chat.SaveWithout | src/hooks/useChatPersistence.ts:359-388 | the write of the next state, whose new keys are discarded when it fails |
| ChatPersistence.Chat.EndDelete | src/hooks/useChatPersistence.ts:389-412 | the part after the wait, from whatever the flushes meanwhile left: restore and discard, or take over the next state and forget the conversation |
| ChatPersistence.Chat.DiscardNewBodies | src/hooks/useChatPersistence.ts:372-382 | for each conversation that only the abandoned state has, the stored mark goes and its key goes if that removal succeeds |
| ChatDelete.StateWithoutOk | src/hooks/useChatPersistence.ts:359-371 | the next state is valid, lacks the conversation, keeps all others, and adds one only when the active one was the last of its server |
| ChatDelete.ActiveMoves | src/hooks/useChatPersistence.ts:361-369 | deleting the active conversation makes the most recently updated one of the same server active, the first in the list among equals, or a new one when none is left |
| ChatEffects.DeletedKeepsOrder | src/hooks/useChatPersistence.ts:359-371 | the other conversations stay as they were, in their order, behind a new empty one on the same server exactly if the deleted one was active and the last of it |
| ChatEffects.GivenUpDropsNew | src/hooks/useChatPersistence.ts:372-402 | a deletion that is given up, before the backend is asked or after its failure, takes back what only the abandoned state has: the mark, and the key if its removal works |
| ChatEffects.GivenUpKeepsOthers | src/hooks/useChatPersistence.ts:372-388 | what the failed write of the shortened state did to the other conversations before it failed stays done |
| ChatEffects.DeletedLeavesOthers | src/hooks/useChatPersistence.ts:404-414 | a deletion that goes through leaves nothing of the conversation but a key that could not be removed, and everything of the others |
| ChatEffects.WaitSavesOnce | src/hooks/useChatPersistence.ts:254-264 | while the backend is waited for, the first flush that succeeds saves the session and later ones leave it as it is |
| ChatWait.BeginWaits | src/hooks/useChatPersistence.ts:352-388 | a deletion that stops before its wait keeps memory, the visible messages and the invariant; one that waits has the disk at the state to come |
| ChatWait.FlushInWait | src/hooks/useChatPersistence.ts:280-285 | a flush in the wait of a deletion keeps what the end of the deletion relies on for both states, and overtakes it exactly if it has something to save and succeeds |
| ChatWait.WaitReloads | src/hooks/useChatPersistence.ts:391 | a crash while a deletion waits reloads to the state to come, or to the one in memory once a flush has overtaken the deletion |
| ChatWait.EndKeeps | src/hooks/useChatPersistence.ts:389-412 | every end of a deletion keeps the visible messages of the conversations that stay, changes memory only if the deletion goes through, and keeps the invariant unless it goes through overtaken |
| ChatWait.EndKeepsExactly | src/hooks/useChatPersistence.ts:402-403 | the end keeps the invariant exactly unless the cleanup succeeded after a flush had written the conversation back |
| ChatWait.DeleteKeeps | src/hooks/useChatPersistence.ts:350-415 | for any flushes in its wait, every outcome of a deletion keeps the visible messages of every conversation that stays and leaves memory unchanged unless it went through, and it keeps the invariant exactly unless its first flush failed, one in the wait succeeded and the cleanup did |
| ChatWait.KeyOutlivesFailure | src/hooks/useChatPersistence.ts:404-409 | the body key is removed only after the backend cleanup succeeded, for any flushes in the wait |
| ChatWait.RestoredReloads | src/hooks/useChatPersistence.ts:392-400 | after a failed cleanup and a successful restoring write the disk reloads to the previous state, for any flushes in the wait |
| ChatWait.DeletedReloads | src/hooks/useChatPersistence.ts:402-412 | after a deletion the disk reloads to the state without the conversation exactly unless a flush overtook it; then the disk lists the conversation, with no messages if its key could be removed |
| ChatWait.DeletionCanFinish | src/hooks/useChatPersistence.ts:350-415 | from every state, while storage accepts the deletion's own writes, it goes through exactly if the backend cleanup does, and is undone otherwise, for any flushes in the wait |
| ChatRuns.DeletionInRun | src/hooks/useChatPersistence.ts:350-415 | a whole deletion is, as events, its request and, exactly if it gets to wait for a cleanup, the flushes meanwhile and the end of the cleanup |
| ChatRuns.RunKeepsInv | src/hooks/useChatPersistence.ts:196-415 | over every run of operations, failed writes, flushes and crashes while deletions wait, and reloads: the list is non-empty, ids are distinct, the active id is present, the bookkeeping agrees with the disk, a clean indexed session is on disk unless an overtaken deletion left its mark, and during a wait the disk holds one of the two states |
| ChatRuns.OrderedExactly | src/hooks/useChatPersistence.ts:402-403 | outside a wait, the invariant holds exactly if no overtaken deletion left its mark |
| ChatRuns.NothingIsLost | src/hooks/useChatPersistence.ts:196-415 | over every such run a conversation that is on disk and not deleted stays in memory and, except while its own deletion waits, on disk, with its committed body, the one the user saw, or one given during the run |
| ChatRuns.UnchangedBodyIsStable | src/hooks/useChatPersistence.ts:61-76 | over every such run that never changes its body, a conversation's visible and committed messages stay the same |
| SettingsProtocol.EveryRun | src/components/SettingsDialog.tsx:152-302 | over every interleaving of opening, reading, saving, toggling and opening the account plugins, in which each late failure and each plugin save is harmless when it happens: at most one save is under way, the shared pending flag says so, and once the dialog has taken a read the controls show the backend's values whenever no save has landed unnoticed |
| SettingsProtocol.StepKeepsExactly | src/components/SettingsDialog.tsx:152-302 | an event keeps the invariant (a read that would be taken over brings what the backend has) exactly if it is harmless: only a save that fails after it was stored and the saves and endings of plugin openings can break it, each under a condition on the state before |
| SettingsProtocol.EffectDeveloper | src/components/SettingsDialog.tsx:178-183 | the same for developer mode, whose revision moves when a save begins and when it ends |
| SettingsProtocol.EffectProtection | src/components/SettingsDialog.tsx:184-190 | the same for protection, whose shared revision moves with every published value |
| SettingsProtocol.EffectOptional | src/components/SettingsDialog.tsx:191-195 | the same for the optional pages, whose revision moves only when a shown value changes |
| SettingsProtocol.TakePages | src/stores/navigationStore.ts:87-106 | taking over a full set of pages shows exactly that set and moves the revision only when something was new |
| SettingsProtocol.LateFailure | src-tauri/src/commands/settings_commands.rs:93-115 | whoever saved, if the save fails after it was stored the controls are right afterwards exactly when the saved value was on screen |
| SettingsProtocol.ChangeIsDone | src/components/SettingsDialog.tsx:221-302 | a change in the dialog begins a save of exactly the value asked for, and when that save has succeeded, whatever else happened meanwhile without harm, the setting has the value at the backend and on every control |
| SettingsProtocol.ToggleIsDone | src/pages/FreeModels/RouterTerminal.tsx:55-68 | the same for the terminal's toggle |
| SettingsProtocol.SaveCanSucceed | src/components/SettingsDialog.tsx:234-246 | a save that begins can reach the backend and succeed, without harm |
| SettingsProtocol.ReadHeals | src/components/SettingsDialog.tsx:171-196 | from any state, whatever happened before and happens while the read is under way: when the dialog takes a read over, its controls are right afterwards exactly if the backend has the settings it answered with, as it has when no save landed since |
| SettingsProtocol.ReopeningHeals | src/components/SettingsDialog.tsx:152-196 | from any state in which the dialog saves nothing, reopening it gives such a read |
| SettingsEffects.OpeningAsks | src/components/SettingsDialog.tsx:152-171 | opening begins a read that the dialog would take over, and no read of an earlier opening is listened to any more |
| SettingsEffects.StaleReadIsIgnored | src/components/SettingsDialog.tsx:174 | a read that returns to a closed or reopened dialog changes nothing |
| SettingsEffects.OpeningBlocks | src/components/SettingsDialog.tsx:159-165 | once the effect's microtask ran, no setting can be changed before a read of this opening came back; a late microtask of an earlier opening does nothing |
| SettingsEffects.ReadUnblocks | src/components/SettingsDialog.tsx:196-233 | with no save under way, a read that returns to the open dialog lets the settings be changed |
| SettingsEffects.TerminalReadReturns | src/pages/FreeModels/RouterTerminal.tsx:37-54 | the terminal's read makes its toggle usable and publishes what was on file unless something was published meanwhile; one of an earlier mounting does nothing |
| SettingsEffects.MountingAsks | src/pages/FreeModels/RouterTerminal.tsx:37-54 | mounting begins a read with the toggle unusable, and unmounting makes the terminal deaf to all of them |
| SettingsEffects.AppReadReturns | src/App.tsx:242-249 | the application's first read fills in what no one has shown yet, and nothing else |
| SettingsEffects.RestoredSettings | src/pages/AppManager/openAccountPlugins.ts:8 | a plugin opening writes developer mode on, the protection it read if there was one, and the pages it read |
| SettingsEffects.OpeningAnswered | src/pages/AppManager/openAccountPlugins.ts:7-10 | an opening shows developer mode as on when it finds it on file, and otherwise saves first and shows nothing yet |
| SettingsEffects.OpeningEnds | src/pages/AppManager/openAccountPlugins.ts:8-10 | an opening whose save came back shows developer mode as on; one that failed shows nothing |
| SettingsEffects.FailureChangesNothing | src/components/SettingsDialog.tsx:240-246 | a save that fails changes no control, and the next change can begin |
| SettingsFailures.LateFailureReachable | src-tauri/src/commands/settings_commands.rs:97-100 | a run from a fresh start that ends with nothing under way and developer mode shown wrong, because a save failed late |
| SettingsFailures.PluginsBreakIt | src/pages/AppManager/openAccountPlugins.ts:4-11 | a run without any failure that ends with developer mode shown wrong, because the account plugins opened beside a read of the dialog |
| SettingsProtocol.HarmfulRestore | src/pages/AppManager/openAccountPlugins.ts:8 | the save of a plugin opening keeps the invariant only if what it writes back changes nothing that is shown or about to be shown |
| SettingsProtocol.HarmfulOpening | src/stores/navigationStore.ts:119-130 | showing developer mode as on keeps the invariant only if it is on at the backend or a landed save settles it |
| SettingsProtocol.SavedFields | src-tauri/src/commands/settings_commands.rs:117-145 | a save changes the one setting it names and no other, as the clients decode them |
| SettingsClients.NavigationStore.OnOptionalPages | src/stores/navigationStore.ts:87-106 | keeps the store when it is ready and shows these values; otherwise merges them and moves the revision |
| SettingsClients.ProtectionStore.OnPublish | src/stores/protectionStore.ts:15 | sets the value and moves the revision, so that afterwards there is a value exactly when one was published |
| SettingsClients.SettingsDialog.OnOpen | src/components/SettingsDialog.tsx:153-158 | a read that begins carries the revisions of that moment |
| SettingsClients.SettingsDialog.OnSettings | src/components/SettingsDialog.tsx:174-196 | a read that returns to a closed or reopened dialog does nothing; otherwise each setting is taken over under its own check |
| SettingsClients.SettingsDialog.OnProtectionStore | src/components/SettingsDialog.tsx:80-91 | a published value is shown unless the dialog's own protection save is under way |
| SettingsClients.SettingsDialog.BeginChange | src/components/SettingsDialog.tsx:221-290 | the three handlers up to their save: nothing begins while any save is under way or nothing was read |
| SettingsClients.SettingsDialog.EndChange | src/components/SettingsDialog.tsx:234-301 | the three handlers after their save: the value is shown on success only, and all flags and revisions are settled |
| SettingsClients.RouterTerminal.OnSettings | src/pages/FreeModels/RouterTerminal.tsx:41-47 | the terminal publishes what it read only if nothing was published meanwhile |
| SettingsClients.RouterTerminal.BeginToggle | src/pages/FreeModels/RouterTerminal.tsx:55-57 | the toggle begins only when the terminal is ready and no save is under way |
| SettingsClients.RouterTerminal.FinishToggle | src/pages/FreeModels/RouterTerminal.tsx:59-66 | a successful toggle publishes its value, and the shared flag falls either way |
| SettingsClients.AccountPlugins.Begin | src/pages/AppManager/openAccountPlugins.ts:5-7 | asks for the settings exactly when developer mode is not shown as on |
| SettingsClients.AccountPlugins.OnSettings | src/pages/AppManager/openAccountPlugins.ts:7-10 | saves unless developer mode is on on file, and shows it as on otherwise |
| SettingsApp.App.constructor | src/stores/navigationStore.ts:68-76 | the components with empty stores, whatever the backend has, are a start of the system and satisfy its invariant |
| SettingsApp.App.OnEvent | src/components/SettingsDialog.tsx:152-302 | whatever happens to the components, they move as the system does, whose saves carry the values asked for, and from a state of the invariant they keep it exactly if the event is harmless |
| CharacterRenderer.EveryRun | src/components/desktopCharacterRenderer.ts:126-376 | over every sequence of activity, focus changes, redraws, timers, frames and release: never a frame and a timer together, exactly one while live, in front, not calm and up to date, a timer due within 83 ms or at the end of the pause, four possible delays, a pause exactly after two faults or three slow frames, no draw before the end of a pause or after the release |
| CharacterRenderer.RestsExactly | src/components/desktopCharacterRenderer.ts:336-375 | over every run the renderer is at rest exactly if it drew at least 188 seconds after the last activity, return to the front or end of a pause; until then it is about to draw while it is live and in front; and at rest the next pause is a short one again |
| CharacterRenderer.RestBegins | src/components/desktopCharacterRenderer.ts:371-374 | the rest begins at a draw that starts that late and at no other event, and every such draw begins it |
| CharacterRenderer.DrawMeasures | src/components/desktopCharacterRenderer.ts:348-370 | a draw counts exactly what it finds wrong (five of ten frames late by more than 17 ms, a second fence in a row not signalled, more than 50 ms of drawing), starts a pause exactly at two faults or three slow draws in a row, and leaves a fence every fourth time |
| CharacterRenderer.LateIsSize | src/components/desktopCharacterRenderer.ts:365 | the late frames counted are those marked late |
| CharacterRenderer.TimerIsSet | src/components/desktopCharacterRenderer.ts:236-253 | a timer is set for the end of the pause, or 40 ms later, or 83 ms later after a fault |
| CharacterRenderer.TimerDraws | src/components/desktopCharacterRenderer.ts:239-250 | a timer that comes due in front leads to a frame and ends a pause with all that was counted |
| CharacterRenderer.HiddenStops | src/components/desktopCharacterRenderer.ts:272-273 | in the background nothing stays requested once the change is handled |
| CharacterRenderer.ChangeIsHandled | src/components/desktopCharacterRenderer.ts:271-277 | a change of the visibility, once handled, stops the renderer behind and starts it in front, out of the rest as well |
| CharacterRenderer.SignWakes | src/components/desktopCharacterRenderer.ts:263-278 | activity and a return to the front end the rest and leave the renderer about to draw |
| CharacterRenderer.RedrawDraws | src/components/desktopCharacterRenderer.ts:279-284 | a redraw in front is drawn with the next frame, but never during a pause |
| CharacterRenderer.CountsFromResumed | src/components/desktopCharacterRenderer.ts:334-336 | the time a draw counts begins at the last draw, return to the front, or end of a pause or of the rest |
| CharacterRenderer.StepKeeps | src/components/desktopCharacterRenderer.ts:230-376 | each event keeps the scheduling invariant, with the log of draws, pauses and release |
| CharacterRenderer.StepCounts | src/components/desktopCharacterRenderer.ts:348-374 | each event keeps the meaning of a pause and the bounds of the lag counters |
| CharacterRenderer.DrawOutcomes | src/components/desktopCharacterRenderer.ts:348-370 | a measurement of a draw either only counts or starts a pause, and touches nothing else of the schedule |
| CharacterRenderer.BackoffDoubles | src/components/desktopCharacterRenderer.ts:254-259 | a pause lasts the present delay, doubles the next up to eight minutes, and no other starts while it is on |
| CharacterRenderer.Renderer.SetTimer | src/components/desktopCharacterRenderer.ts:236-253 | sets a timer only when a draw is due and nothing is pending, at the end of the pause or after the frame delay |
| CharacterRenderer.Renderer.ClearRequests | src/components/desktopCharacterRenderer.ts:230-235 | leaves neither a timer nor a frame pending, and keeps what holds between the scheduler's variables |
| CharacterRenderer.Renderer.Pause | src/components/desktopCharacterRenderer.ts:254-259 | starts a pause unless one is on, and clears what is pending |
| CharacterRenderer.Renderer.CountFault | src/components/desktopCharacterRenderer.ts:260-262 | the second fault starts a pause |
| CharacterRenderer.Renderer.OnActivity | src/components/desktopCharacterRenderer.ts:263-271 | activity in front ends the calm and schedules a draw |
| CharacterRenderer.Renderer.OnFocusOrVisibility | src/components/desktopCharacterRenderer.ts:272-278 | cancels in the background, wakes in front |
| CharacterRenderer.Renderer.AskRedraw | src/components/desktopCharacterRenderer.ts:279-284 | replaces a pending timer by a frame, but never during a pause, and keeps what holds between the scheduler's variables |
| CharacterRenderer.Renderer.OnTimer | src/components/desktopCharacterRenderer.ts:239-250 | a timer that fires in front asks for a frame and ends a pause with all its counters |
| CharacterRenderer.Renderer.OnFrame | src/components/desktopCharacterRenderer.ts:330-376 | the control part of a draw: measure, settle, schedule the next |
| CharacterRenderer.Renderer.MeasureLate | src/components/desktopCharacterRenderer.ts:364-368 | keeps the last ten frames and notes a fault at five late ones |
| CharacterRenderer.Renderer.MeasureFence | src/components/desktopCharacterRenderer.ts:348-359 | two unsignalled fences in a row are a fault |
| CharacterRenderer.Renderer.MeasureSlow | src/components/desktopCharacterRenderer.ts:369-370 | three slow frames in a row start a pause |
| CharacterRenderer.Renderer.Dispose | src/components/desktopCharacterRenderer.ts:126-131 | the release, once, with nothing left pending |
| CharacterRenderer.Renderer.OnEvent | src/components/desktopCharacterRenderer.ts:126-376 | whatever happens to it, the renderer keeps the scheduling invariant, the meaning of a pause and the bound on its timer |
| Downloads.EveryRun | src/components/DownloadContext.tsx:66-204 | over every run of progress events, starts, resumes, rejections and timers: a file has a cleanup timer exactly when its tracked status is completed, error or cancelled, the timeouts that are set are exactly these, every row shows its tracked status, and every row remembers the call that last started it |
| Downloads.TimerCleansFinished | src/components/DownloadContext.tsx:100-108 | a timer that fires removes a finished file, never an active or paused one, and touches no other |
| Downloads.StartsAlone | src/components/DownloadContext.tsx:135-143 | a start command is sent only by a start or a resume, and only while no status and no row is active |
| Downloads.StartShows | src/components/DownloadContext.tsx:135-173 | a start beside no running download sends its call and shows a fresh row at nothing, without a cleanup, with its repository, files and shards; otherwise nothing happens |
| Downloads.BasenameIs | src/components/DownloadContext.tsx:144-146 | the name of a row is what follows the last slash of the first file |
| Downloads.ProgressShows | src/components/DownloadContext.tsx:70-111 | a progress event shows its status and figures in the row of its file, which keeps what it was started with, and sets a cleanup exactly after completion, an error or a cancellation; other files stay as they are |
| Downloads.RejectionFails | src/components/DownloadContext.tsx:174-204 | a rejection of the newest attempt makes its file an error with a cleanup set and its row as it was otherwise, exactly unless the download was paused, cancelled or completed meanwhile; nothing else changes |
| Downloads.RejectionFrees | src/components/DownloadContext.tsx:174-204 | after it every file can be started again, if no other download is running |
| Downloads.ResumeSends | src/components/DownloadBar.tsx:220-225 | beside no running download, resuming sends a row's files again exactly if the row has a repository |
| Downloads.RejectionsAreLocal | src/components/DownloadContext.tsx:174-204 | a rejection of any but the newest attempt changes nothing, one of the newest touches its own file only and never a paused one |
| Downloads.RowSurvives | src/components/DownloadContext.tsx:66-204 | the row of an active or paused download stays as it is over any run of events about other files and any timers |
| Downloads.RowReports | src/components/DownloadContext.tsx:77-92 | as long as a row is shown, it shows the figures of the last event about its file, whatever rejections, timers and other downloads do since |
| Downloads.ProgressRemembers | src/components/DownloadContext.tsx:77-92 | progress events keep a row's repository and shard list |
| Downloads.ResumeRepeats | src/components/DownloadBar.tsx:220-225 | in every reachable state, resuming a row sends again exactly the call that last started it |
| Downloads.StartKeeps | src/components/DownloadContext.tsx:143-170 | a start clears the file's old timer before it shows the fresh row |
| Downloads.DownloadProvider.OnProgress | src/components/DownloadContext.tsx:70-111 | status, timer and row after a progress event |
| Downloads.DownloadProvider.StartDownload | src/components/DownloadContext.tsx:135-173 | returns without a call for no files or beside an active download; otherwise a new attempt under the first file's base name |
| Downloads.DownloadProvider.OnRejected | src/components/DownloadContext.tsx:174-204 | the failure path with its attempt check and its status check |
| Downloads.DownloadProvider.OnTimer | src/components/DownloadContext.tsx:100-108 | the cleanup of one file |
| Downloads.DownloadProvider.OnEvent | src/components/DownloadContext.tsx:66-204 | whatever happens to it, the provider keeps timers, statuses, rows and remembered starts in agreement |
| FlowFrames.Reachable | src/components/flowFrames.ts:3-27 | in every reachable state, also inside a dispatch, a native frame is outstanding exactly when a callback is pending, and ids run in request order without repetition |
| FlowFrames.FiredOnceInOrder | src/components/flowFrames.ts:7-27 | from the start, each id fires at most once and in request order, and a cancelled one never |
| FlowFrames.RequestQueues | src/components/flowFrames.ts:7-19 | a request queues its callback behind the others under a new id, with a native frame outstanding |
| FlowFrames.CancelRemoves | src/components/flowFrames.ts:21-27 | a cancellation takes exactly that callback out of those that wait, keeps the order of the others, and does not touch a dispatch under way |
| FlowFrames.CancelledNeverFires | src/components/flowFrames.ts:21-27 | a callback cancelled while it waits never fires, whatever happens afterwards |
| FlowFrames.DispatchCommits | src/components/flowFrames.ts:11-16 | requests and cancellations made by callbacks do not change what the dispatch under way still runs |
| FlowFrames.PendingFires | src/components/flowFrames.ts:11-16 | one native frame runs exactly the callbacks that were pending, in their order |
| FlowFrames.Multiplexer.RequestFlowFrame | src/components/flowFrames.ts:7-19 | queues the callback under a new id and asks for a native frame only if none is outstanding |
| FlowFrames.Multiplexer.CancelFlowFrame | src/components/flowFrames.ts:21-27 | removes the callback, and the native request with the last one |
| FlowFrames.Multiplexer.OnNativeFrame | src/components/flowFrames.ts:11-14 | takes the pending callbacks over before any of them runs |
| FlowFrames.Multiplexer.OnEvent | src/components/flowFrames.ts:3-27 | whatever happens to it, the multiplexer keeps the native frame and the pending callbacks in step |
| TabCanvas.DisposedNeverPaints | src/components/useTabCanvas.ts:59-188 | over every interleaving of mounts, updates, theme and visibility changes, frames and disposals, no owner paints after it was disposed |
| TabCanvas.OneRequestPerOwner | src/components/useTabCanvas.ts:59-176 | every live owner has exactly the one pending paint whose id it remembers, so its disposer cancels all it asked for |
| TabCanvas.UpdateSettles | src/components/useTabCanvas.ts:83-151 | after an update an owner with something to show has exactly one paint ahead, and one with nothing to show has none |
| TabCanvas.FramePaints | src/components/flowFrames.ts:8-19 | a native frame runs all that wait for it: every owner that asked and has something to show paints once, in the order they asked, and no other owner paints |
| TabCanvas.WaitingPaints | src/components/useTabCanvas.ts:54-61 | an owner with a paint ahead paints with the next frame exactly if it is visible by then, whatever happened to its visibility unseen |
| TabCanvas.MountWaits | src/components/useTabCanvas.ts:80-82 | a mounted owner is live and has nothing ahead before its first update |
| TabCanvas.PaintSettles | src/components/useTabCanvas.ts:59-79 | a callback that runs paints exactly if its owner has something to show, and is called again with the next frame except under reduced motion |
| TabCanvas.ThemeSettles | src/components/useTabCanvas.ts:162-165 | a change of the theme is painted if there is something to show |
| TabCanvas.DisposalSettles | src/components/useTabCanvas.ts:174-176 | after its disposal an owner has no paint ahead |
| TabCanvas.Canvas.OnPaint | src/components/useTabCanvas.ts:59-79 | paints only while live and visible, and asks for the next frame only under full motion |
| TabCanvas.Canvas.OnRequestPaint | src/components/useTabCanvas.ts:80-82 | asks only without a pending paint, while live and visible |
| TabCanvas.Canvas.OnUpdate | src/components/useTabCanvas.ts:83-151 | cancels the pending paint when there is nothing to show, asks for one otherwise |
| TabCanvas.Canvas.OnDispose | src/components/useTabCanvas.ts:174-176 | the disposal, after which the owner's paint is not pending and the shared frame is still in step with what is |
| TabGlide.NeverOvershoots | src/components/useTabCanvas.ts:59-79 | over every run of selections and frames, no painted coordinate leaves the range of the places the highlight was sent to, as long as no frame's time is before the last change of target |
| TabGlide.PaintBetween | src/components/useTabCanvas.ts:62-68 | a painted coordinate lies between start and target exactly unless the frame's time is before the change of target: the progress has no lower limit |
| TabGlide.PaintEases | src/components/useTabCanvas.ts:62-68 | on the way, the part that is left is the cube of the part of the 220 ms that is left |
| TabGlide.TargetMoves | src/components/useTabCanvas.ts:112-147 | a tab within a hundredth of a pixel of the target disturbs no glide, any other starts one now from the place painted last, and without a tab nothing is painted |
| TabGlide.EarlyFrameOvershoots | src/components/useTabCanvas.ts:62-68 | a run in which a frame with a time before the change of target paints the highlight outside the way to it |
| TabGlide.GlideIsContinuous | src/components/useTabCanvas.ts:62-147 | a change of target makes no jump, also after a remount, and the highlight is on the target after 220 ms or at once under reduced motion |
| TabGlide.TargetIsClose | src/components/useTabCanvas.ts:138-147 | the target is never further than a hundredth of a pixel from the tab seen last |
| TabGlide.ExtendCovers | src/components/useTabCanvas.ts:126-137 | a tab inside the group still covers all it covered, stays inside, and reaches exactly those edges it was within the inset of |
| TabGlide.Highlight.OnPaint | src/components/useTabCanvas.ts:59-68 | the rectangle that is painted next |
| TabGlide.Highlight.OnUpdate | src/components/useTabCanvas.ts:112-147 | a new target starts a glide from where the highlight was painted last |
| PluginTokens.NoTokenLeaks | src/pages/PluginHub.tsx:185-269 | over every interleaving of replies, effect runs, installations and unmount, each token that came back is the candidate or was cancelled, and all are cancelled once the dialog is gone |
| PluginTokens.StepKeeps | src/pages/PluginHub.tsx:192-269 | each event keeps the account of tokens and at most one preview of the present revision under way |
| PluginTokens.CandidateStays | src/pages/PluginHub.tsx:247-253 | only the effect's cleanup cancels a candidate that is on screen |
| PluginTokens.WaitingEnds | src/pages/PluginHub.tsx:193-269 | in every reachable state in which something is pending, a call is under way whose failure or end lets the dialog go on |
| PluginTokens.PreviewAsks | src/pages/PluginHub.tsx:193-199 | a preview is asked for exactly with a source and nothing pending |
| PluginTokens.ReplyShows | src/pages/PluginHub.tsx:200-219 | a token of the present sources is shown while the dialog is there, any other is cancelled at once; the waiting ends with a reply of the present sources only |
| PluginTokens.FailureEndsWaiting | src/pages/PluginHub.tsx:210-219 | a failed preview changes nothing that is shown, and ends the waiting if it was of the present sources |
| PluginTokens.SourcesChange | src/pages/PluginHub.tsx:221-253 | new sources take the old candidate back, make every preview under way stale, and preview a plugin of the catalog at once |
| PluginTokens.UnguardedLeak | src/pages/PluginHub.tsx:185-269 | without the dialog's guard on previews there is a run that leaves a token that is never cancelled |
| PluginTokens.ImportDialog.BeginPreview | src/pages/PluginHub.tsx:193-199 | nothing while a preview or an installation is under way or without a source; otherwise a preview of the present revision |
| PluginTokens.ImportDialog.OnReply | src/pages/PluginHub.tsx:201-215 | a token of an older revision or an inactive dialog is cancelled, any other becomes the candidate |
| PluginTokens.ImportDialog.RunEffect | src/pages/PluginHub.tsx:221-246 | the effect with its own preview of a catalog plugin |
| PluginTokens.ImportDialog.RunCleanup | src/pages/PluginHub.tsx:247-252 | ends the revision and cancels the candidate |
| PluginTokens.ImportDialog.BeginCommit | src/pages/PluginHub.tsx:256-258 | an installation begins only with a candidate and nothing pending |
| PluginTokens.ImportDialog.OnEvent | src/pages/PluginHub.tsx:185-269 | whatever happens to it, the dialog keeps every returned token as its candidate or cancelled, as long as previews are asked for only where they are offered |
| WindowPlacement.OverlapCountsCells | src-tauri/src/lib.rs:323-335 | the overlap is the number of pixels that lie in both rectangles |
| WindowPlacement.OverlapFits | src-tauri/src/lib.rs:334 | the product of the two lengths never exceeds a u64 |
| WindowPlacement.FittedSize | src-tauri/src/lib.rs:342-349 | the fitted size is the nearest to the saved one between the minimum (where the area has room for it) and the area, and the maximized flag stays |
| WindowPlacement.ClampBoundsOrdered | src-tauri/src/lib.rs:352-359 | the bounds of both clamps are in order exactly for a non-empty area, which a positive overlap guarantees, so the clamp does not panic |
| WindowPlacement.PreservedPosition | src-tauri/src/lib.rs:355-359 | the casts lose nothing, the window is inside, and each coordinate moves the least distance that puts it there |
| WindowPlacement.CentredPosition | src-tauri/src/lib.rs:360-372 | the window is inside, with margins that differ by at most a pixel, exactly when the centre fits an i32; otherwise it wraps out of the area |
| WindowPlacement.InsideOverlap | src-tauri/src/lib.rs:323-374 | a window inside an area overlaps it with its full size |
| WindowPlacement.FitIsIdempotent | src-tauri/src/lib.rs:337-374 | fitting a fitted window changes nothing |
| WindowPlacement.InsideIsBest | src-tauri/src/lib.rs:427-437 | a window inside one of several disjoint work areas is found on that monitor |
| WindowPlacement.Best | src-tauri/src/lib.rs:427-437 | the monitor with the largest positive overlap, the last of equals, and none only if none overlaps |
| WindowPlacement.VisibleIsKept | src-tauri/src/lib.rs:423-463 | a window of which a monitor shows anything ends up inside the one that shows most of it, the last of equals, moved and resized as little as that takes |
| WindowPlacement.FittingStays | src-tauri/src/lib.rs:423-463 | a window of an allowed size inside a work area is restored exactly where it was |
| WindowPlacement.InvisibleIsCentred | src-tauri/src/lib.rs:423-463 | a window that no monitor shows is centred on the fallback monitor if the centre fits an i32, and without one keeps its position and at least the minimum size |
| WindowPlacement.RestoreIsFixpoint | src-tauri/src/lib.rs:423-463 | on disjoint non-empty work areas with a listed fallback, restoring twice is restoring once on the same monitor, exactly unless centring wraps the window onto a monitor |
| WindowPlacement.RestoreTwiceIsOnce | src-tauri/src/lib.rs:423-463 | if the fallback area ends within the i32 range, restoring twice equals restoring once on the same monitor, for every saved window |
| WindowPlacement.WrappedRestoreMoves | src-tauri/src/lib.rs:360-372 | a desktop and a saved window for which the second restore picks another monitor |
| WindowPlacement.InitialIsInside | src-tauri/src/lib.rs:380-403 | for every scale factor the first-run window is inside the work area and centred in it exactly when the centre fits an i32, as it does in an area that ends within the range |
| WindowPlacement.InitialSize | src-tauri/src/lib.rs:380-403 | the first-run window has the allowed size nearest to 1150 by 790 logical pixels, or to what nine tenths of the work area leave of it, but not less than 960 by 600 or all the room |
| FreeModels.Validate | scripts/refresh_free_models.py:313-326 | the loop accepts exactly the valid catalogs and reports the first problem of the others |
| FreeModels.Candidates.Merge | scripts/refresh_free_models.py:303-310 | an id gains the source exactly when the source lists some spelling of it; all else stays |
| FreeModels.MergeCommutes | scripts/refresh_free_models.py:303-310 | two sources merged in either order give every id the same sources |
| FreeModels.RefreshAddsOnly | scripts/refresh_free_models.py:329-360 | the old entries stay unchanged in front, and each addition is both a candidate and official and repeats its provider's first entry but for id, model id and date |
| FreeModels.AdditionNames | scripts/refresh_free_models.py:338-354 | an addition names all sources that list it, and its template is the provider's first entry |
| FreeModels.SpellingIsLast | scripts/refresh_free_models.py:345-347 | of several spellings of an id the last one listed is used |
| FreeModels.RefreshDates | scripts/refresh_free_models.py:357-360 | the version stays, and the date moves to today exactly if something was added |
| FreeModels.AdditionsInOrder | scripts/refresh_free_models.py:356 | the additions come by provider, then by folded model id |
| FreeModels.RefreshKeepsFoldedDistinct | scripts/refresh_free_models.py:335-354 | if the old ids are distinct ignoring case, the new ones are |
| FreeModels.RefreshKeepsValid | scripts/refresh_free_models.py:313-360 | a valid catalog stays valid |
| FreeModels.NothingVerifiedIsMissed | scripts/refresh_free_models.py:341-354 | every official candidate of a provider with an entry ends up in the catalog |
| FreeModels.SecondRunAddsNothing | scripts/refresh_free_models.py:329-360 | a second run on the same candidates leaves the catalog as it is |
| FreeModels.SameListingSpellsSame | scripts/refresh_free_models.py:345 | the condition of the second run holds for the same listings |
| FreeModels.ReorderedListingSpellsSame | scripts/refresh_free_models.py:345 | and for listings in another order, if folding an entry's id depends only on folding the model's |
| FreeModels.ReviewUnchanged | scripts/refresh_free_models.py:363-375 | the models that need review are the same before and after a run |
| FreeModels.ReviewListIs | scripts/refresh_free_models.py:363-375 | the review list holds the ids of exactly the models whose provider was read and lists no spelling of them, sorted |
| FreeModels.CatalogFile.AddVerified | scripts/refresh_free_models.py:329-360 | the loops over providers and sorted candidates give exactly the additions, appended in sorted order, and the date moves only with an addition |
| RouterStatistics.StatisticsRows | src/pages/routerStatisticsData.ts:30-98 | the loop with its in-place rows gives the sorted aggregation, also without a snapshot or a catalog |
| RouterStatistics.ListsAdd | src/pages/routerStatisticsData.ts:85-90 | the two lists of counters are added place by place, and what the added one lacks counts as zero |
| RouterStatistics.CountersAreConserved | src/pages/routerStatisticsData.ts:37-90 | summed over the displayed rows, every counter equals its sum over the saved rows kept by the group filter |
| RouterStatistics.RowsAreFolds | src/pages/routerStatisticsData.ts:37-90 | there is one row for each account with a kept row, and it joins exactly that account's rows in order |
| RouterStatistics.DisplayedRow | src/pages/routerStatisticsData.ts:37-97 | a displayed row's counters are the sums over its account, its attempts the sum over its distinct models and each model's the sum over that model, its groups distinct and exactly those contributing, its name, model and provider those of the first contributing source with a name, its last use the latest, and it is archived exactly when no contributing source has a name |
| RouterStatistics.DisplayedAccounts | src/pages/routerStatisticsData.ts:37-97 | row ids are distinct, and every kept saved row is shown in some row |
| RouterStatistics.FilteredAccounts | src/pages/routerStatisticsData.ts:37-45 | without a group every saved row is shown in the row of its account; with one, those of the group are and no other |
| RouterStatistics.SourceIs | src/pages/routerStatisticsData.ts:35-46 | a saved row counts for the catalog's source with its id, the last of several, else for its own account and group without a name |
| RouterStatistics.DisplayedInOrder | src/pages/routerStatisticsData.ts:92-97 | the result is a permutation of the aggregated rows, sorted by attempts, last use and id |
| RouterStatistics.DisplayedDescending | src/pages/routerStatisticsData.ts:92-97 | of two rows the one with more attempts comes first, of equals the one used later, and of those the one whose id comes first |
| RouterStatistics.FoldExtends | src/pages/routerStatisticsData.ts:72-80 | a row's groups and models come in the order in which its contributions name them |
| RouterStatistics.FoldTitle | src/pages/routerStatisticsData.ts:47-69 | a row takes its name, model and provider from the first contributing source that has a name |
| RouterStatistics.FoldModelAttempts | src/pages/routerStatisticsData.ts:73-80 | under each model name a row has the sum of the attempts of that model |
| RouterStatistics.FoldLastUsed | src/pages/routerStatisticsData.ts:71 | a row was last used when the latest of its contributions was |
| RouterStatistics.CountModel | src/pages/routerStatisticsData.ts:73-80 | a model's attempts are added to its entry, or to a new one at the end |
| AccountProxy.JoinSplit | src/api/accountProxy.ts:48 | splitting a selector at its colons loses nothing and leaves no colon in a part |
| AccountProxy.PrintThenParse | src/api/accountProxy.ts:46-69 | for a provider other than Kilo, parsing the printed selector gives the source back exactly when its account id is a 64-digit hash, behind its mark for CodeArts |
| AccountProxy.ParseThenPrint | src/api/accountProxy.ts:46-69 | printing the source of an accepted selector gives exactly that selector, and no fixed one for Kilo |
| AccountProxy.ParseIsInjective | src/api/accountProxy.ts:46-56 | outside Kilo, two accepted selectors of one source are equal |
| AccountProxy.ParseExactly | src/api/accountProxy.ts:46-56 | a selector is accepted exactly if it has at most 512 characters and is a listed prefix with a 64-digit hash, and for Kilo alone with a model that is not blank; it gives the source of that account |
| AccountProxy.AccountPrints | src/api/accountProxy.ts:58-69 | the source of an account prints its prefix and id in one selector, and for Kilo none is fixed |
| AccountProxy.PrintedAccount | src/api/accountProxy.ts:58-69 | nothing else prints a selector: not an unlisted provider, an empty id, or a CodeArts id without its mark and something behind it |

## Left out

- Conversation ids are taken to be distinct and new ids to be unknown to memory and storage, as random UUIDs are. A disk whose index lists an id twice is not modelled.
- ChatPersistence.Chat.DeleteConversation: no other update of the state and no other deletion runs between the start and the end of the backend cleanup, as its caller runs one operation at a time (`src/pages/MotherAgent/MotherAgentProvider.tsx:358-376`, `577`, `698-701`); the source overwrites any such update. Flushes and crashes in that wait are part of the model.
- The title of a conversation is a parameter, attachments are one opaque string, and `toDisk` and `fromDisk` are data of each message, inverse on loaded messages. Timers and page events become the event of a flush at any time, also while a deletion waits.
- JSON text: the model works on what parsing yields, with damaged and absent values as cases of their own. Keys other than the hook's are not modelled.
- ChatPersistence.Chat.SetMessages: whether the list is the one on screen is a parameter.
- SettingsProtocol.EveryRun: the events are those of the dialog, the terminal's toggle, the application's first read and the opening of the account plugins; saves of other settings, which leave these three alone, are not modelled. An event that is not harmless is excluded from its runs, under the exact condition of `SettingsProtocol.StepKeepsExactly`.
- SettingsProtocol.ReadHeals: about the dialog's controls; the terminal's own value follows at its next mount.
- SettingsApp.App.OnEvent: the lists of calls under way stand for the promises of the source, and the backend is one value.
- Error messages on screen, the closing of the local server and the navigation history that changes with the pages.
- CharacterRenderer.EveryRun: a timer is never early, time does not run back, and the visibility test gives one answer within one event. The drawing, the adaption of colours and sizes, and a lost graphics context are left out; the release stands for the latter.
- Downloads.EveryRun: the unmount of the provider, which clears all timers, and the length of a cleanup timer are not modelled (a set timer may fire at any time), nor is the transport of pause and cancel commands, whose effects arrive as progress events.
- FlowFrames.Reachable: callbacks do not throw.
- TabCanvas.OneRequestPerOwner: updates come between dispatches and not from inside a paint, and a disposed owner gets none, as its observers are disconnected. `TabCanvas.DisposedNeverPaints` needs neither. The rectangles of a group of independent toggles are painted as they are and are left out; `TabGlide` takes coordinates and times as real numbers.
- PluginTokens.NoTokenLeaks: a token counts as returned when the reply arrives, a cancellation when it is asked for. What the installation does with a token is not modelled.
- The window setters at the end of the restore, the reading and writing of the saved state, and the scale-dependent minimum size; the first-run sizes are real numbers.
- WindowPlacement.RestoreIsFixpoint: the fallback monitor is one of the listed monitors and the saved window is restored by the same desktop both times.
- Fetching, scraping and the report of the catalog script; case folding and the date pattern are parameters.
- The usage figures of the statistics table and the locale's order of ids, which is a parameter and needs to be a preorder only for sortedness.
- AccountProxy.PrintThenParse: the provider table is any list with distinct ids and distinct colon-free prefixes that leave room for a hash.
- String lengths count characters, not UTF-16 units.
- Tauri commands, windows and menus, the interface itself, news, themes and animations outside the modelled schedulers: foreign calls or simple code with no property across steps.
