# Floating study panel: a Dafny model

This project models the two stateful components of a browser-extension overlay that floats over a
web page and hosts a flashcard deck selector.

- **The floating panel** (`FloatingPanel`). It holds the panel's position, size and colour theme,
  the two mode flags `isDragging`/`isResizing` and the reference point `dragStart`.
  - Pointer-down on the header arms a drag. Pointer-down on the resize handle arms a resize.
  - Each pointer move applies the delta since `dragStart`, then re-bases `dragStart`.
  - Pointer-up saves the geometry and theme to localStorage and returns to idle.
  - Showing the panel loads the three stored keys, with shape checks.
  - A colour change replaces one theme entry and saves at once.
- **The deck selector** (`DeckSetting`). It holds the deck names fetched from the flashcard service,
  a search box, and the list of target decks.
  - The search box commits its lower-cased input through a single cancellable 300 ms timer.
    This is a trailing-edge debounce, although the source calls it a throttle.
  - The deck list is filtered by a case-insensitive substring match.
  - A toggle adds a deck name to the target list or removes it.

Layout of the model:

- `panel_state.dfy` (`PanelState`): geometry and theme values, the size clamp, and the pointer
  tracker as a pure step function `Move`, with lemmas over whole drags and resizes.
- `panel_store.dfy` (`PanelStore`): the localStorage layout, the three decoders with their shape
  checks, the loader with its abort-on-throw behaviour, the saver, and the save/load round trip.
- `floating_panel.dfy` (`FloatingPanelComponent`): the `FloatingPanel` class. Its handlers are
  proved against `Move`, `Load`, `Save` and `WithColor`. Scenario methods replay the drag, resize
  and colour-preset sequences.
- `seq_facts.dfy` (`SeqFacts`): an `Option` type and the subsequence and no-duplicate predicates.
- `deck_filter.dfy` (`DeckFilter`): ASCII lower-casing, `includes`, and the `filteredDecks` filter.
- `target_decks.dfy` (`TargetDecks`): the toggle, both as written and corrected, with its lemmas.
  The `DeckSetting` class uses the toggle and the row test as written. The two differ from the
  corrected ones only for the empty deck name (see Findings).
- `search_debounce.dfy` (`SearchDebounce`): the search box as a value, with events and the commit
  log, plus the debounce lemmas.
- `deck_setting.dfy` (`DeckSettingComponent`): the `DeckSetting` class, proved against the pure
  modules, and scenario methods.

Each handler runs to completion, and the component re-renders before the next event. So every
handler sees the current state. localStorage is a field of the panel object: `store` is a map from
key to what its text parses to, and the ghost field `saves` logs every save in order. The
flashcard service's deck-name request is an input: its outcome is passed to `DeckNamesSettled`.

Points where the code does less than a reader might expect, which the model follows:

- The three stored keys are read inside one `try` block (floating-panel.tsx:71-109). A `JSON.parse`
  error at one key therefore stops the whole load, and the keys after it are not read. Reading a field
  of a stored `null` throws a TypeError and has the same effect (`PanelStore.Load`).
- The deck selector fetches deck names only: no deck statistics and no card data. A failed request is
  logged to the console and not shown to the user. The target list lives in memory only and is not
  saved.

## Model

| member | source | states |
|---|---|---|
| PanelState.ClampSize | entrypoints/content/component/floating-panel.tsx:127-128 | the result is the least size at or above both the input and MIN_SIZE (200x100); it is the input exactly when the input already respects MIN_SIZE |
| PanelState.WithColor | entrypoints/content/component/floating-panel.tsx:172 | the chosen theme key gets the new value and every other key keeps its old value |
| PanelState.PresetKeepsBody | entrypoints/content/component/color-setting-panel.tsx:72-75 | a preset click (header background, then header text) yields both new header colours and keeps both body colours |
| PanelState.Move | entrypoints/content/component/floating-panel.tsx:114-133 | a pointer move never touches the mode flags and changes position or size but never both; when idle it changes nothing; when armed it re-bases dragStart to the pointer; it keeps the MIN_SIZE invariant |
| PanelState.DragMoveTranslates | entrypoints/content/component/floating-panel.tsx:117-124 | while dragging, the position moves by exactly the pointer displacement since dragStart and the size stays the same |
| PanelState.ResizeMoveClamps | entrypoints/content/component/floating-panel.tsx:125-130 | while only resizing, each dimension becomes max(old + delta, minimum) and the position stays the same |
| PanelState.DragTelescopes | entrypoints/content/component/floating-panel.tsx:117-132 | over any non-empty sequence of moves in one drag, the final position is the start position plus (last pointer - pointer recorded at drag start); size unchanged; dragStart ends at the last pointer |
| PanelState.ResizeBounds | entrypoints/content/component/floating-panel.tsx:125-132 | over any non-empty resize, the position never changes, the size respects MIN_SIZE, and the size is at least the start size plus the total pointer displacement |
| PanelState.IdleMovesInert | entrypoints/content/component/floating-panel.tsx:115 | any number of moves while neither flag is set leaves the whole tracker unchanged |
| PanelStore.Member | entrypoints/content/component/floating-panel.tsx:76 | reading a property throws exactly when the parsed value is null |
| PanelStore.Read | entrypoints/content/component/floating-panel.tsx:73-75 | a stored key is parsed only when present and non-empty; it aborts exactly when its text is malformed JSON |
| PanelStore.DecodePosition | entrypoints/content/component/floating-panel.tsx:76-78 | a position is taken exactly when x and y are both numbers, with those values; decoding aborts exactly on null |
| PanelStore.DecodeSize | entrypoints/content/component/floating-panel.tsx:84-92 | a size is taken exactly when width and height are both numbers, and it is clamped up to MIN_SIZE; decoding aborts exactly on null |
| PanelStore.DecodeColors | entrypoints/content/component/floating-panel.tsx:98-105 | a theme is taken exactly when all four entries are non-empty strings, and then no entry is empty; decoding aborts exactly on null |
| PanelStore.Load | entrypoints/content/component/floating-panel.tsx:68-110 | loads position, then size, then colours; each is taken when its key decodes and kept otherwise; a throw at one key leaves that key and all later keys at their current values; the MIN_SIZE invariant is kept |
| PanelStore.Save | entrypoints/content/component/floating-panel.tsx:54-65 | writes exactly the three panel keys and leaves every other key alone |
| PanelStore.DecodeEncode | entrypoints/content/component/floating-panel.tsx:57-59 | each stored encoding decodes to the saved value: position as is, size clamped, theme when no entry is empty |
| PanelStore.LoadAfterSave | entrypoints/content/component/floating-panel.tsx:54-110 | save then load gives the saved position, the saved size clamped to MIN_SIZE, and the saved theme when none of its entries is empty (otherwise the current theme) |
| PanelStore.ShowRestoresSaved | entrypoints/content/component/floating-panel.tsx:68-110 | when the saved size respects MIN_SIZE and no theme entry is empty, showing the panel again restores exactly what was saved |
| PanelStore.LoadEmptyStore | entrypoints/content/component/floating-panel.tsx:73-74 | with nothing stored, loading keeps the current state |
| FloatingPanelComponent.FloatingPanel.constructor | entrypoints/content/component/floating-panel.tsx:39-48 | starts idle at the defaults (40,40), 320x200, the red theme, with dragStart (0,0); loads from storage when mounted shown; the size respects MIN_SIZE |
| FloatingPanelComponent.FloatingPanel.SetShow | entrypoints/content/component/floating-panel.tsx:68-69 | the load runs only when the prop changes to true; nothing else changes and nothing is saved |
| FloatingPanelComponent.FloatingPanel.HandleDragStart | entrypoints/content/component/floating-panel.tsx:182-188 | only while shown: arms dragging and records the pointer as dragStart; otherwise no change; the MIN_SIZE invariant is kept |
| FloatingPanelComponent.FloatingPanel.HandleResizeStart | entrypoints/content/component/floating-panel.tsx:191-197 | only while shown: arms resizing and records the pointer as dragStart; otherwise no change; the MIN_SIZE invariant is kept |
| FloatingPanelComponent.FloatingPanel.HandleMouseMove | entrypoints/content/component/floating-panel.tsx:114-133 | the new tracker state is Move of the old one; the theme, storage and save log are unchanged; the MIN_SIZE invariant is kept |
| FloatingPanelComponent.FloatingPanel.HandleMouseUp | entrypoints/content/component/floating-panel.tsx:135-151 | when a drag or resize was armed, saves the current position, size and theme exactly once; when idle, saves nothing; ends with both flags false and the geometry unchanged; the MIN_SIZE invariant is kept |
| FloatingPanelComponent.FloatingPanel.HandleColorChange | entrypoints/content/component/floating-panel.tsx:169-179 | replaces one theme entry, keeps position and size, and saves the new theme with the current geometry immediately (one save); the MIN_SIZE invariant is kept |
| FloatingPanelComponent.FloatingPanel.HandleSettingsClick | entrypoints/content/component/floating-panel.tsx:49-51 | flips the colour-settings visibility and changes nothing else; the MIN_SIZE invariant is kept |
| FloatingPanelComponent.FloatingPanel.SaveToLocalStorage | entrypoints/content/component/floating-panel.tsx:54-65 | the store becomes Save of the old store, and the snapshot is logged once; the MIN_SIZE invariant is kept |
| DeckFilter.Lower | entrypoints/content/component/anki/deck-setting.tsx:56 | same length as the input; each character is lower-cased; the result has no upper-case ASCII letter |
| DeckFilter.Includes | entrypoints/content/component/anki/deck-setting.tsx:75 | true exactly when the term occurs at some position of the name |
| DeckFilter.KeepMatching | entrypoints/content/component/anki/deck-setting.tsx:75 | the result is an in-order subsequence of the decks; every kept deck matches, every dropped deck does not; multiplicities are kept |
| DeckFilter.Filtered | entrypoints/content/component/anki/deck-setting.tsx:70-76 | with an empty term, the full list; otherwise exactly the matching decks, in order, with their multiplicities |
| DeckFilter.CaseInsensitive | entrypoints/content/component/anki/deck-setting.tsx:56 | for a committed typed term, a deck is listed exactly when its lower-cased name contains the lower-cased term |
| DeckFilter.FilterIdempotent | entrypoints/content/component/anki/deck-setting.tsx:70-76 | filtering an already filtered list by the same term changes nothing |
| TargetDecks.Without | entrypoints/content/component/anki/deck-setting.tsx:97 | the name is gone; every other name keeps its multiplicity, in order; a list without the name is unchanged |
| TargetDecks.WithoutNoDup | entrypoints/content/component/anki/deck-setting.tsx:96-98 | removal keeps a duplicate-free list duplicate-free |
| TargetDecks.Toggle | entrypoints/content/component/anki/deck-setting.tsx:95-101 | the name's membership flips; an absent name is appended at the end; a present name is removed, with the rest kept in order; other names keep their multiplicity; no duplicates are introduced |
| TargetDecks.ToggleKeepsOthers | entrypoints/content/component/anki/deck-setting.tsx:95-101 | toggling one name never changes another name's membership |
| TargetDecks.ToggleTwiceFromAbsent | entrypoints/content/component/anki/deck-setting.tsx:95-101 | toggling an absent name twice restores the original list |
| TargetDecks.ToggleParity | entrypoints/content/component/anki/deck-setting.tsx:79-104 | starting from absent, after n toggles the name is present iff n is odd; other names keep their multiplicity; a duplicate-free list stays duplicate-free |
| TargetDecks.Find | entrypoints/content/component/anki/deck-setting.tsx:90 | `find` yields the name itself exactly when the name is in the list, and `undefined` exactly when it is not |
| TargetDecks.IsStudyingAsWritten | entrypoints/content/component/anki/deck-setting.tsx:81-93 | the source's test (empty-list guard, then the truthiness of the item `find` returns) holds exactly when the name is a target and is not the empty string |
| TargetDecks.ToggleAsWritten | entrypoints/content/component/anki/deck-setting.tsx:79-104 | the toggle as written agrees with the corrected toggle for every non-empty name, and always appends the empty name |
| TargetDecks.EmptyNameDuplicates | entrypoints/content/component/anki/deck-setting.tsx:90 | as written, toggling "" in [""] yields ["", ""], which has a duplicate |
| SearchDebounce.Change | entrypoints/content/component/anki/deck-setting.tsx:44-58 | the input shows the value at once; the committed term is unchanged; the one pending commit now holds the value |
| SearchDebounce.Fire | entrypoints/content/component/anki/deck-setting.tsx:54-57 | an armed timer commits the lower-cased value it holds and disarms; with no timer, nothing changes |
| SearchDebounce.Cancel | entrypoints/content/component/anki/deck-setting.tsx:61-67 | disarms the timer and leaves input and term unchanged |
| SearchDebounce.TypingCommitsNothing | entrypoints/content/component/anki/deck-setting.tsx:44-58 | any burst of keystrokes commits nothing; afterwards the input is the last value and exactly one commit, of that value, is pending |
| SearchDebounce.BurstCommitsLast | entrypoints/content/component/anki/deck-setting.tsx:44-58 | a burst of keystrokes and one timer expiry commit exactly one term: the lower-cased last input |
| SearchDebounce.CancelledStaysPut | entrypoints/content/component/anki/deck-setting.tsx:61-67 | after the unmount cleanup, any number of timer expiries commit nothing and leave the term unchanged |
| SearchDebounce.ThreeKeystrokes | entrypoints/content/component/anki/deck-setting.tsx:44-58 | typing "a", "ab", "abc" within the window and then one expiry commits exactly ["abc"] |
| DeckSettingComponent.DeckSetting.constructor | entrypoints/content/component/anki/deck-setting.tsx:8-28 | mounts with no decks, no targets, an empty search box and no pending commit; loading is on and the deck-name request is in flight |
| DeckSettingComponent.DeckSetting.DeckNamesSettled | entrypoints/content/component/anki/deck-setting.tsx:27-41 | on success the names replace the deck list; on failure the list is unchanged; either way loading ends; after unmount nothing changes |
| DeckSettingComponent.DeckSetting.HandleSearchChange | entrypoints/content/component/anki/deck-setting.tsx:44-58 | the search state becomes Change of the old one; the filtered list does not change until the timer fires |
| DeckSettingComponent.DeckSetting.TimerFired | entrypoints/content/component/anki/deck-setting.tsx:54-57 | the search state becomes Fire of the old one: the term becomes the lower-cased pending value, or stays when none is pending |
| DeckSettingComponent.DeckSetting.Unmount | entrypoints/content/component/anki/deck-setting.tsx:61-67 | cancels the pending commit, so the term can no longer change |
| DeckSettingComponent.DeckSetting.HandleToggleStudy | entrypoints/content/component/anki/deck-setting.tsx:79-104 | with the source's own membership test, the target list becomes ToggleAsWritten of the old one; for every non-empty name the membership flips and a duplicate-free list stays duplicate-free; after unmount nothing changes |
| DeckSettingComponent.DeckSetting.IsStudyingNow | entrypoints/content/component/anki/deck-setting.tsx:163-175 | a deck row is shown as studied exactly when the name is in the target list and is not the empty string |

## Left out

- Rendering: JSX, styles, icons, the loading spinner and the "no decks"/"no results" messages. The
  whole of `floating-panel-ui.tsx` and the layout of `color-setting-panel.tsx` are left out.
- Browser plumbing: attaching and removing the document listeners, `document.body.style` and
  `stopPropagation`. A move or up event while idle is modelled as doing nothing, which is what having
  no listener means (`PanelState.Subscribed`).
- Events that arrive before React re-renders are not modelled. Such an event would run a handler that
  still holds an old `dragStart` or old flags.
- The host page: mounting into the page, `App.tsx`, `index.tsx`, and the menu button that flips `show`.
  `show` is an input to the panel (`SetShow`).
- `anki-card-parse.tsx`: parses card HTML and re-creates script elements through an outside library.
- The flashcard service client is an outside call. Its deck-name outcome is a `Result` parameter.
- Real time: the 300 ms delay of `setTimeout`. The timer is the value it will commit, and its expiry is
  the `TimerFired` step.
- Floating-point coordinates and JSON numbers are integers here.
- Only ASCII letters are lower-cased; `toLowerCase` also folds other scripts.
- `localStorage.setItem` failures (quota errors) are caught by the source and only logged. The model's
  save always succeeds.
- PanelStore.DecodeColors: the source accepts a stored theme whose four fields are all truthy and
  adopts the stored object as it is, even when a field is a number, `true` or an object. The model's
  theme holds strings. It accepts the stored theme only when all four fields are non-empty strings,
  and it keeps the current theme otherwise. A stored position object is also adopted whole
  by the source (floating-panel.tsx:77); extra fields in it are dropped by the model. The size is
  not adopted whole: the source builds a new object from the two clamped numbers
  (floating-panel.tsx:88-91), as the model does.
- React development-mode double invocation of effects and state updaters is not modelled.

## Findings

| source | as written | input that shows it | evidently intended | confidence | as-written member | corrected member |
|---|---|---|---|---|---|---|
| entrypoints/content/component/anki/deck-setting.tsx:90 | "is studying" is the truthiness of the item that `find` returns, so a target named "" never counts as studied and a toggle appends it again | target list [""], toggle "" gives ["", ""] | membership test (`includes`/`some`), so a toggle removes a present "" | low impact, since the flashcard service never names a deck ""; not executed | TargetDecks.ToggleAsWritten (TargetDecks.EmptyNameDuplicates) | TargetDecks.Toggle |
