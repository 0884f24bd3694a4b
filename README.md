# TRNovel session core in Dafny

TRNovel is a terminal reader for text novels, local or fetched from network book
sources. This project models the three event-driven state machines that sit between
the terminal and the pages:

- **The session** (`App` in `src/app/mod.rs`). Each step takes one event off the bus and
  updates three fields: `warning`, `showExit`, and `cancelled` (the cancellation token).
  Routes see the event only while no warning is up. An error from the routes ends the
  step early. `q` and Ctrl+C quit, Esc dismisses the warning, and `Error` installs one.
  `run` turns an error into the warning and loops until the exit flag goes up.
- **The mode machine** (`Mode` in `src/app/mode.rs`). It moves between Loading, Select and
  Read. The background tasks it spawns are modelled by the events they send on the bus,
  in order.
- **The history page** (`SelectHistory` in `src/pages/select_history.rs`). It has a list of
  reading-progress records, a selection, and a confirm dialog guarding deletion. Its key
  handler changes all three in place and pushes reading or book-detail pages on the
  navigator. It also computes the footer counter, the scrollbar rule and the shortcut list.

Each stateful part is a class (`App.App`, `AppMode.Machine`, `SelectHistoryPage.SelectHistory`).
Each class method is proved equal to a pure step function (`App.Step`/`App.RunSpec`,
`AppMode.Transition`, `SelectHistoryPage.KeyStep`). The lemmas state the properties of
those functions.

Collaborators outside the core become parameters, and their answers are never
interpreted. These are: the route stack, page drawing, `terminal.draw`, the directory
scan, the novel parser, the page constructors, `History::load`/`save`, the network
book-source lookup, `Navigator::push`, and the `ConfirmState` and `ListState` operations.

Files: `wrappers.dfy` (Option, Outcome, Result), `keys.dfy` (key events), `history.dfy`
(history records and `remove_index`), `app.dfy`, `mode.dfy`, `select_history.dfy`.

The two app files use two different `Events` enums. `mod.rs` sends `PushRoute` when the
session starts (`src/app/mod.rs:36`), and its step matches on `KeyEvent`, `Render` and
`Error`, treating every other event alike. `mode.rs` matches on `CrosstermEvent`, `Init`,
`Loading`, `ReadNovel`, `SelectNovel` and `Tick`. The model keeps one event type per
module (`App.AppEvent`, `AppMode.Event`).

The spawned tasks use `unwrap`/`expect` (`src/app/mode.rs:62-88`), so a failing task
panics and stops sending at that point; the model's tasks send the events up to there.

The history page is modelled in the source's order (`KeyStep`, `HandleKeyEvent`). Its
key handler can panic on an index past the end of the records; that answer is the
`Panicked` outcome. A corrected handler (`KeyStepFixed`) sits beside it for the finding
below.

## Model

| member | source | states |
|---|---|---|
| `History.RemoveIndex` | src/pages/select_history.rs:193 | removes exactly the entry at the index; the entries before it stay in place and the ones after it move down by one |
| `History.RemoveIndexMultiset` | src/pages/select_history.rs:193 | removal loses exactly the removed entry and no other |
| `History.RemoveIndexKeepsKeysUnique` | src/pages/select_history.rs:193 | removal keeps history keys unique, and the removed key is gone afterwards |
| `App.Step` | src/app/mod.rs:63-110 | no step lowers the exit flag or un-cancels the token; a step keeps "token cancelled exactly when exit flag up" |
| `App.Absorb` | src/app/mod.rs:53-57 | `run` turns a step's error into the warning and changes neither the exit flag nor the token |
| `App.RunSpec` | src/app/mod.rs:51-61 | `run` takes events one at a time in queue order; it stops with the exit flag up or the queue drained; once the flag is up it takes nothing more; it keeps the token/flag invariant |
| `App.App.Create` | src/app/mod.rs:31-49 | a new session has no warning, is not exiting, is not cancelled, and has exactly `PushRoute(SelectNovel(path))` queued |
| `App.App.New` | src/app/mod.rs:31-49 | `App::new` fails exactly when loading the history fails, with that error; otherwise it returns the fresh session described by `Create` |
| `App.App.HandleEvents` | src/app/mod.rs:63-110 | takes the oldest event off the bus, or nothing when the bus is empty, and updates the three fields and the result as `Step` says |
| `App.App.Turn` | src/app/mod.rs:53-57 | one turn of `run`'s loop takes the oldest event, and the state afterwards is the step's, with its error shown as the warning |
| `App.App.Run` | src/app/mod.rs:51-61 | the loop's final state equals `RunSpec`'s; what is left unread is a suffix of the bus; on return the flag is up or the bus is empty |
| `App.NoEventChangesNothing` | src/app/mod.rs:64-66 | when the bus yields no event the step returns Ok and changes nothing |
| `App.RoutesGatedByWarning` | src/app/mod.rs:68-71 | while a warning is up, the routes' answer has no effect on the step |
| `App.RouteErrorShortCircuits` | src/app/mod.rs:53-57 | with no warning up, a route error is the step's result and no global rule runs; `run` then shows the error as the warning without exiting |
| `App.QuitKeys` | src/app/mod.rs:81-91 | with no warning up, a `q` press (any modifiers) and a Ctrl+C press both cancel and raise the exit flag; a plain `c` changes nothing |
| `App.WarningKeys` | src/app/mod.rs:76-79 | while a warning is up, no key press raises the exit flag or cancels; an Esc press clears exactly the warning; other keys change nothing |
| `App.NonPressChangesNothing` | src/app/mod.rs:75 | a key event that is not a press changes none of the three fields, whatever the routes answer |
| `App.ErrorInstallsWarning` | src/app/mod.rs:105 | an `Error(e)` event that gets past the routes sets the warning to `e`, replacing any earlier warning |
| `App.RenderOutcome` | src/app/mod.rs:97-104 | on `Render`, a failed page draw becomes the warning; a terminal failure is the step's error; the exit state is unchanged |
| `App.QuitEndsRun` | src/app/mod.rs:52 | a `q` press with no warning up, when the routes accept it, is the last event `run` takes |
| `App.RunStopsAtFirstExit` | src/app/mod.rs:52 | `run` ends in the state reached after the events it took; every one of those events except the last found the exit flag down |
| `App.RunLeavesSuffix` | src/app/mod.rs:52-59 | `run` reads only from the front of the queue, so the unread events are a suffix of it |
| `AppMode.Default` | src/app/mode.rs:22-26 | the initial mode is Loading with message "扫描文件中..." and a fresh animation |
| `AppMode.Machine.constructor` | src/app/mode.rs:22-26 | a new machine starts in the default mode and has sent nothing |
| `AppMode.HandleTermEvents` | src/app/mode.rs:44-53 | a loading screen answers terminal input with no action and stays as it is; input never switches the mode to another variant |
| `AppMode.Transition` | src/app/mode.rs:55-109 | only terminal input and `Init` spawn tasks; they send only loading screens, novels and file trees; a failed call sends nothing; input, `Init` and `Tick` never switch the mode's variant; only a `Loading` event brings up a loading screen |
| `AppMode.Machine.HandleEvents` | src/app/mode.rs:55-109 | updates the mode in place and appends the spawned tasks' events to the bus, in order, as `Transition` says |
| `AppMode.ReplacingEventsIgnoreMode` | src/app/mode.rs:89-100 | `Loading`, `ReadNovel` and `SelectNovel` send nothing and give the same result from any mode; when the page builds, the new mode does not depend on the old one; when it fails, the mode is kept |
| `AppMode.TickOnlyAnimatesLoading` | src/app/mode.rs:101-106 | `Tick` advances a loading screen's animation by exactly one step and leaves Select and Read unchanged |
| `AppMode.InputWhileLoadingIsInert` | src/app/mode.rs:49 | terminal input on a loading screen produces no action, sends nothing and leaves the mode unchanged |
| `AppMode.InputActions` | src/app/mode.rs:61-71 | `SelectedFile(path)` sends exactly a "正在加载小说..." loading screen, then the parsed novel; any other action or no action sends nothing; a page error is the result and nothing is sent |
| `AppMode.InitEvents` | src/app/mode.rs:72-88 | `Init` never changes the mode; a single file sends a loading screen then the novel; a tree sends exactly one `SelectNovel` with the history and no loading screen; a failed scan or history sends nothing |
| `AppMode.SingleFileGoesStraightToRead` | src/app/mode.rs:72-93 | for a single-file start path, replaying what `Init` sends shows a loading screen and then ends in Read |
| `AppMode.TreeGoesToSelect` | src/app/mode.rs:72-100 | for a directory start path, replaying what `Init` sends ends in Select, built from the scanned tree and the history, with no loading screen in between |
| `SelectHistoryPage.ConfirmEnterAsWritten` | src/pages/select_history.rs:190-199 | Enter in the dialog never pushes and never hands the key back; it panics exactly on a confirmed deletion at an index past the end; a failed save keeps the selection and the dialog but has removed one record; success hides the dialog and clears the selection if a record went |
| `SelectHistoryPage.ConfirmEnter` | src/pages/select_history.rs:190-199 | corrected Enter in the dialog: leaves the selection naming an existing record, or none |
| `SelectHistoryPage.KeyStep` | src/pages/select_history.rs:172-276 | in the source's order: a key handed back changes nothing; a panic leaves the page as it was; only a confirmed deletion in the dialog changes the records, by removing the selected one; only a consumed key with the dialog hidden pushes, exactly one page on top |
| `SelectHistoryPage.KeyStepFixed` | src/pages/select_history.rs:172-276 | the corrected handler never panics from a selection inside the list |
| `SelectHistoryPage.SelectHistory.constructor` | src/pages/select_history.rs:103-110 | a new page has no selection, a hidden dialog, the given records and no pushed pages |
| `SelectHistoryPage.RenderPlan` | src/pages/select_history.rs:144-162 | the placeholder is drawn exactly when there are no records; otherwise the footer's total is the record count and its position at least 1 |
| `SelectHistoryPage.SelectHistory.Footer` | src/pages/select_history.rs:144-162 | the footer's total is the record count and its position at least 1, and at most the total while the selection is inside the list |
| `SelectHistoryPage.SelectHistory.KeyShortcutInfo` | src/pages/select_history.rs:278-297 | five shortcuts while the dialog shows, six while it is hidden |
| `SelectHistoryPage.SelectHistory.HandleKeyEvent` | src/pages/select_history.rs:172-276 | changes selection, dialog, records and navigator in place, in the source's order, as `KeyStep` says |
| `SelectHistoryPage.NonPressIgnored` | src/pages/select_history.rs:177-179 | a key that is not a press is handed back unconsumed, and selection, dialog, records and navigator are unchanged |
| `SelectHistoryPage.DialogEnter` | src/pages/select_history.rs:190-199 | Enter in the dialog, with a selection inside the list and the choice on confirm: removes exactly the selected record and saves the rest; on success it clears the selection and hides the dialog; on a failed save it returns the error with the selection and dialog as they were. A selection past the end panics. Without a confirmed deletion it only hides the dialog. Nothing is pushed |
| `SelectHistoryPage.DialogCancel` | src/pages/select_history.rs:201-204 | `n` in the dialog hides it and changes nothing else |
| `SelectHistoryPage.DialogChoiceKeys` | src/pages/select_history.rs:181-189 | in the dialog, `y` confirms and `h`/`l`/Left/Right toggle the choice; only the choice changes and the dialog stays up; keys other than `y`, `n`, `h`, `l`, Left, Right and Enter are handed back with nothing changed |
| `SelectHistoryPage.DeleteKey` | src/pages/select_history.rs:265-272 | `d` with no selection fails with "请选择历史记录" and the dialog stays hidden; with a selection it shows the dialog and keeps the selection |
| `SelectHistoryPage.OpenKeys` | src/pages/select_history.rs:221-264 | `l`/Right/Enter never change records, selection or dialog. With no selection they fail with "请选择历史记录"; they panic exactly when the selection is past the end. A local record pushes a reading page; a network record pushes a book-detail page. A missing book source fails with "book source not found". A page is pushed exactly when the key is consumed |
| `SelectHistoryPage.NavigationKeys` | src/pages/select_history.rs:208-220 | `h`/Left clears the selection; `j`/Down and `k`/Up move only the selection; unlisted keys are handed back unchanged |
| `SelectHistoryPage.HintedKeysAreTaken` | src/pages/select_history.rs:278-297 | every key the current shortcut list advertises is taken by the handler; Tab is handed back to the enclosing page |
| `SelectHistoryPage.KeyStepKeepsWellFormedUnlessSaveFails` | src/pages/select_history.rs:172-276 | as written, if the list's moves stay in range, every key leaves the selection naming an existing record, except an Enter in the dialog whose save fails, which keeps the old index; keys stay unique |
| `SelectHistoryPage.KeyStepKeepsWellFormed` | src/pages/select_history.rs:172-276 | the corrected handler, if the list's moves stay in range, always leaves the selection naming an existing record, and keys stay unique |
| `SelectHistoryPage.FailedSaveLeavesStaleSelection` | src/pages/select_history.rs:190-199 | as written: deleting the last record and then failing the save leaves the dialog up and the selection past the end of the list |
| `SelectHistoryPage.FailedSaveThenOpenPanics` | src/pages/select_history.rs:190-225 | as written, one record, Enter with a failing save, then `n`, then `l` panics; the corrected handler answers "请选择历史记录" to the same keys |
| `SelectHistoryPage.FixedDiffersOnlyOnFailedSave` | src/pages/select_history.rs:190-199 | from a selection inside the list, the corrected handler gives the source's answer and state for every key, except that after an Enter whose save fails it clears the selection |
| `SelectHistoryPage.FooterRules` | src/pages/select_history.rs:144-162 | no records: only the placeholder; otherwise the footer shows `(selected or 0) + 1` over the count, and the scrollbar appears exactly when not every five-row record fits in the height |
| `SelectHistoryPage.ShortcutCounts` | src/pages/select_history.rs:278-297 | the shortcut list has 5 entries with the dialog showing and 6 without; both end with the Tab hint |

## Left out

- Concurrency: the tokio tasks, channels, `CancellationToken`, `event_loop` and locks are not modelled. The bus is a sequence. Events from spawned tasks are appended after the current step instead of interleaving with other producers. The cancellation token is a boolean.
- `App.App.Run`: returns when the queue is drained. The source waits in `recv` for more events instead, so the model covers only the events already queued.
- `App.App.New`: the event loop started before `History::load` is not modelled. A failed load returns its error, which is what the source does.
- Rendering: `App::draw`, `Mode::draw`, the list items, and the confirm, warning and empty widgets are not modelled. Page drawing and `terminal.draw` are collaborator answers. The draw closure is taken to run before the terminal reports failure.
- The theme configuration (`src/cache/setting.rs`): styles and JSON file I/O, with no behaviour of the core.
- History file I/O: `History::load` and `History::save` are collaborator answers, and the on-disk format is not part of this model.
- `ConfirmState` and `ListState`: their bodies live in files that are not part of this model. Their choice and selection updates are uninterpreted parameters. The model assumes the dialog's visibility changes only through `show` and `hide`.
- `History::remove_index` is not part of this model: an index past the end is taken to panic, as `Vec::remove` does.
- The network book-source lookup and `JsonSource` construction are one collaborator answer that names which step failed.
- Panics: a panic inside a spawned task stops that task's sends. A panic of the history page's key handler is the `Panicked` outcome with the page unchanged; what it does to the session afterwards is not modelled. On the source's path it is reachable: a failed save after a deletion leaves the selection past the end (`FailedSaveLeavesStaleSelection`), and `histories[index]` at `src/pages/select_history.rs:225` then panics (`FailedSaveThenOpenPanics`). A `try_lock` failure in `render` is not modelled.
- The Select and Read pages are opaque type parameters. Their key handling and construction are collaborator answers. Actions other than `SelectedFile` are one variant.
- The route stack's own behaviour, including how it handles `PushRoute`, is a collaborator answer.
- Only the CONTROL modifier and the key codes the handlers match are modelled. Every other key code is one variant.
- Progress percentages and date formatting in list items.

## Findings

| source | as written | input that shows it | evidently intended | confidence | as-written member | corrected member |
|---|---|---|---|---|---|---|
| src/pages/select_history.rs:193-195 | after `remove_index`, `save()?` returns the error before `select(None)` runs, so the selection still holds the removed index | one record, selection 0, dialog showing with choice on confirm, Enter, save fails: the records become empty and the selection stays at 0; after `n`, the next `l` indexes the empty list | clear the selection as soon as the record is removed | low; not executed | `SelectHistoryPage.FailedSaveThenOpenPanics` | `SelectHistoryPage.KeyStepFixed` |

`KeyStep` and `HandleKeyEvent` keep the source's order through `ConfirmEnterAsWritten`.
`KeyStepFixed` uses `ConfirmEnter`, and `KeyStepKeepsWellFormed` and
`FixedDiffersOnlyOnFailedSave` are proved about it.
