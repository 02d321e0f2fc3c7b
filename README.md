# Tab keeper: global UI state, review prompt and toasts

This project models, in Dafny, the core of a browser extension that keeps tab
collections. The model has six modules:

- **GlobalStateSlice**: the `globalState` slice of the Redux store. It holds the
  `Global` record of UI flags and the sync status, the initial state, the
  actions the slice handles, and its reducer `Reduce`. A frame table (`Touches`)
  lists the fields each action may change.
- **GlobalStateThunks**: the slice's three thunks.
  - `saveToLocalStorageIfDirty` is the dirty-flag flush to local storage, with
    its `syncStatus` lifecycle.
  - `showToast` is the toast scheduler. Through the module-level
    `toastTimeout` it keeps one dismissal timer.
  - `openSettingsPage` is the third.

  `World` is everything these thunks read or write:
  - the slice;
  - the tab-container state;
  - the undo/redo present;
  - the selected settings category;
  - the install-time requests;
  - local storage;
  - `toastTimeout` and the timer host.

  Each thunk has a specification function on `World`. The `Store` class holds
  the same state in fields. Its methods (one per reducer and one per thunk)
  run the source's steps in order and are proved to end in the specified
  state. `Step`/`Run` replay any sequence of dispatches, thunk calls, timer
  firings and tab edits. Lemmas about `Run` prove three things:
  - at most one dismissal timer is ever pending;
  - storage changes at no key other than `tabContainerData`;
  - under the conditions listed below, a clear dirty flag means storage
    holds the tabs.
- **App**: the startup effect of the `App` component. It covers the
  rate-and-review policy `askUserToRateAndReview`, as a decision over the stored
  settings and the clock, and the hydration of the tab container and the
  undo history from local storage.
- **External**: `displayToast`, which chooses the toast's text and duration and
  dispatches `showToast`.
- **LocalStorage**: storage as a map from keys to parsed values, with the two
  keys this core reads and writes.
- **Wrappers**: the `Option` type (a None is `undefined`) and JavaScript
  truthiness of an optional string.

The model takes its inputs as parameters:
- the clock is `now`, in milliseconds;
- the outcome of a storage write is a `WriteOutcome`: written, a thrown error
  object, or a thrown `null`/`undefined`;
- a stored date is a `DateText`, whose `time` is what `isValidDate` and
  `new Date(..).getTime()` make of it (None when invalid).

Four behaviours of the code are worth stating on their own:
- **A set `isDirty` does not mean memory differs from storage.** `setIsDirty`
  sets the flag unconditionally, even when storage already holds the tabs
  (`GlobalStateThunks.DirtyDoesNotMeanDiverged`).
- **A clear `isDirty` means storage holds the tabs only under conditions that
  the slice itself does not enforce** (`GlobalStateThunks.RunKeepsDirtyFlagHonest`):
  - the run starts from a state where the flag is set or storage holds the
    tabs. A fresh store over empty storage is not such a state
    (`GlobalStateThunks.FreshStoreFlagIsNotHonest`); startup makes it one
    exactly when tab data is stored or the flag is already set
    (`App.StartupFlagHonesty`);
  - every edit of the tab-container slice is followed at once by
    `setIsDirty`. The slice gives no such guarantee: an unmarked edit leaves a
    clear flag over stale storage (`GlobalStateThunks.UnmarkedEditBreaksDirtyFlag`);
  - nothing dispatches `setIsNotDirty` or `replaceState` of this slice
    directly.
- **The first run only dispatches `setExtensionInstalledTime()`.** What that
  action stores is decided by the settings slice, which is not part of this
  model, so the model counts those dispatches.
- **A failed write normally leaves `syncStatus` at `idle`, not `error`.** The
  thunk catches the error and fulfils. It rejects, which sets `error`, only when
  the thrown value is `null` or `undefined`, because reading `.message` inside
  the catch handler then throws.

## Model

| member | source | states |
|---|---|---|
| LocalStorage.LoadTabs | src/App.tsx:71-72 | loading `tabContainerData` yields a value exactly when the key holds parsed tab data |
| LocalStorage.LoadSettings | src/App.tsx:26-31 | loading `settingsData` yields a value exactly when the key holds a parsed settings record |
| LocalStorage.SaveTabs | src/redux/slices/globalStateSlice.ts:58 | the successful `saveToLocalStorage('tabContainerData', …)`: the key then holds the tab data; its properties are `LoadAfterSave`, `SaveTabsKeepsOtherKeys` and `SaveTabsKeepsSettings` |
| LocalStorage.LoadAfterSave | src/redux/slices/globalStateSlice.ts:58 | what the flush writes under `tabContainerData` is what loading returns |
| LocalStorage.SaveTabsKeepsOtherKeys | src/redux/slices/globalStateSlice.ts:58 | writing the tab data leaves every other key present or absent as before, with the same value |
| LocalStorage.SaveTabsKeepsSettings | src/redux/slices/globalStateSlice.ts:58 | writing the tab data never changes what `settingsData` loads to |
| GlobalStateSlice.Reduce | src/redux/slices/globalStateSlice.ts:116-222 | the slice reducer: one case per action, each assigning the fields its source case assigns; its frame is `ReduceFrame` and its effects the lemmas below |
| GlobalStateSlice.ReduceFrameView | src/redux/slices/globalStateSlice.ts:117-157 | the modal, search-panel and toast reducers change only the fields they name |
| GlobalStateSlice.ReduceFrameSession | src/redux/slices/globalStateSlice.ts:159-198 | the settings-page, dirty-flag, session and user reducers change only the fields they name |
| GlobalStateSlice.ReduceFrameLifecycle | src/redux/slices/globalStateSlice.ts:200-222 | `replaceState` and the thunks' lifecycle cases change only the fields they name (`showToast.fulfilled` none) |
| GlobalStateSlice.ReduceFrame | src/redux/slices/globalStateSlice.ts:116-222 | every action changes only the fields in its frame table entry; all others keep their values |
| GlobalStateSlice.SetIsDirtyEffect | src/redux/slices/globalStateSlice.ts:167-170 | `setIsDirty` sets the flag and `syncStatus` `idle`, and changes no other field |
| GlobalStateSlice.SetIsNotDirtyEffect | src/redux/slices/globalStateSlice.ts:163-165 | `setIsNotDirty` clears the flag and changes no other field, `syncStatus` included |
| GlobalStateSlice.FlushLifecycle | src/redux/slices/globalStateSlice.ts:206-218 | pending gives `loading`; fulfilled gives `success` when clean and `idle` when dirty; rejected gives `error`; fulfilled keeps the flag |
| GlobalStateSlice.ReplaceStateIsExact | src/redux/slices/globalStateSlice.ts:200-201 | `replaceState` yields exactly its payload, merging nothing of the old state |
| GlobalStateSlice.OpenConflictModalEffect | src/redux/slices/globalStateSlice.ts:117-121 | `openConflictModal` stores both tab data payloads and opens the modal |
| GlobalStateSlice.CloseToastKeepsText | src/redux/slices/globalStateSlice.ts:151-153 | `closeToast` closes the toast and keeps its text |
| GlobalStateSlice.OnlyNamedReducersTouchDirtyFlag | src/redux/slices/globalStateSlice.ts:116-222 | only `setIsDirty`, `setIsNotDirty` and `replaceState` can change `isDirty` |
| GlobalStateThunks.ShowToastSpec | src/redux/slices/globalStateSlice.ts:91-110 | the state after `showToast`, before any timer fires; its properties are `ShowToastEmptyIsNoOp`, `ShowToastEffect` and `ShowToastKeepsOneTimer` |
| GlobalStateThunks.ShowToastDuration | src/redux/slices/globalStateSlice.ts:94 | the duration is 5000 when undefined, and the given value otherwise (zero included) |
| GlobalStateThunks.AtMostOnePendingTimer | src/redux/slices/globalStateSlice.ts:91-110 | under the timer invariant at most one timer is pending, and it is the one `toastTimeout` holds |
| GlobalStateThunks.ShowToastEmptyIsNoOp | src/redux/slices/globalStateSlice.ts:95 | an empty text changes neither the state nor the timers |
| GlobalStateThunks.ShowToastEffect | src/redux/slices/globalStateSlice.ts:95-109 | a non-empty text is set and the toast opened; the old timer is cancelled and a new one scheduled with the duration; nothing else changes |
| GlobalStateThunks.ShowToastKeepsOneTimer | src/redux/slices/globalStateSlice.ts:96-109 | `showToast` preserves the timer invariant and leaves exactly the new timer pending |
| GlobalStateThunks.FireTimerSpec | src/redux/slices/globalStateSlice.ts:106-108 | a pending timer that fires is removed and closes the toast, keeping its text; a cancelled one does nothing; the invariant is kept |
| GlobalStateThunks.FlushSpec | src/redux/slices/globalStateSlice.ts:50-65 | the state after `saveToLocalStorageIfDirty` (and its alias `saveToFirestoreIfDirty`, line 68) with the lifecycle cases of lines 206-218; its properties are `FlushFrame`, `FlushOutcomes`, `FlushCleanMeansPersisted`, `FlushIdempotent` and `FlushWriteErrorIsSwallowed` |
| GlobalStateThunks.FlushFrame | src/redux/slices/globalStateSlice.ts:50-65 | the flush changes only storage, `isDirty` and `syncStatus` |
| GlobalStateThunks.FlushOutcomes | src/redux/slices/globalStateSlice.ts:50-65 | clean: no write, ends `success`. Dirty and written: tabs stored, flag cleared, `success`. Dirty and thrown: no write, flag kept, `idle` (error object) or `error` (nullish) |
| GlobalStateThunks.FlushCleanMeansPersisted | src/redux/slices/globalStateSlice.ts:55-59 | after a flush the flag is clear only when storage holds the tabs; it stays set exactly when dirty and the write threw |
| GlobalStateThunks.FlushIdempotent | src/redux/slices/globalStateSlice.ts:55-58 | a second flush after a successful one changes nothing |
| GlobalStateThunks.FlushWriteErrorIsSwallowed | src/redux/slices/globalStateSlice.ts:55-63 | a throwing write keeps the flag set, leaves storage alone and ends `idle`, not `error` |
| GlobalStateThunks.OpenSettingsPageSpec | src/redux/slices/globalStateSlice.ts:79-84 | the category is selected only for a truthy name; the settings page opens; nothing else changes |
| GlobalStateThunks.SupersededToastLeavesOneTimer | src/redux/slices/globalStateSlice.ts:96-109 | two toasts in a row leave only the second's timer; when it fires the toast closes showing the second text |
| GlobalStateThunks.StepKeepsToastTimerInv | src/redux/slices/globalStateSlice.ts:91-110 | every dispatch, thunk call and timer firing preserves the timer invariant |
| GlobalStateThunks.RunKeepsOnePendingTimer | src/redux/slices/globalStateSlice.ts:91-110 | over any sequence of events at most one dismissal timer is pending |
| GlobalStateThunks.RunWritesOnlyTabContainerData | src/redux/slices/globalStateSlice.ts:58 | over any sequence of events storage changes at no key but `tabContainerData` |
| GlobalStateThunks.StepKeepsDirtyFlagHonest | src/redux/slices/globalStateSlice.ts:55-59 | every event other than a tab edit or a direct `setIsNotDirty`/`replaceState` keeps "flag set or storage holds the tabs" |
| GlobalStateThunks.UnmarkedEditBreaksDirtyFlag | src/redux/slices/globalStateSlice.ts:163-170 | from a clean, persisted state, a tab edit not followed by `setIsDirty` leaves a clear flag over storage that no longer holds the tabs |
| GlobalStateThunks.FreshStoreFlagIsNotHonest | src/redux/slices/globalStateSlice.ts:32-47 | a store in `initialState` over empty storage has a clear flag while storage holds no tabs |
| GlobalStateThunks.RunKeepsDirtyFlagHonest | src/redux/slices/globalStateSlice.ts:55-59 | from a state where the flag is set or storage holds the tabs, over any events where each tab edit is followed at once by `setIsDirty` and no `setIsNotDirty`/`replaceState` of the slice is dispatched directly, a clear flag means storage holds the tabs |
| GlobalStateThunks.DirtyDoesNotMeanDiverged | src/redux/slices/globalStateSlice.ts:167-170 | `setIsDirty` sets the flag even when storage already holds the tabs |
| GlobalStateThunks.EditThenFlushPersists | src/redux/slices/globalStateSlice.ts:50-65 | a tab edit, `setIsDirty`, then a flush whose write succeeds: clean, `success`, and storage holds the edited tabs |
| GlobalStateThunks.Store.constructor | src/redux/slices/globalStateSlice.ts:32-47 | a new store holds `initialState`, no pending timer, and satisfies the timer invariant |
| GlobalStateThunks.Store.OpenConflictModal | src/redux/slices/globalStateSlice.ts:117-121 | assigns both tab data fields and opens the conflict modal |
| GlobalStateThunks.Store.CloseConflictModal | src/redux/slices/globalStateSlice.ts:123-125 | closes the conflict modal |
| GlobalStateThunks.Store.OpenRateAndReviewModal | src/redux/slices/globalStateSlice.ts:127-129 | opens the rate-and-review modal |
| GlobalStateThunks.Store.CloseRateAndReviewModal | src/redux/slices/globalStateSlice.ts:131-133 | closes the rate-and-review modal |
| GlobalStateThunks.Store.OpenSearchPanel | src/redux/slices/globalStateSlice.ts:135-137 | opens the search panel |
| GlobalStateThunks.Store.CloseSearchPanel | src/redux/slices/globalStateSlice.ts:139-141 | closes the search panel |
| GlobalStateThunks.Store.SetSearchInputText | src/redux/slices/globalStateSlice.ts:143-145 | stores the search text |
| GlobalStateThunks.Store.OpenToast | src/redux/slices/globalStateSlice.ts:147-149 | opens the toast |
| GlobalStateThunks.Store.CloseToast | src/redux/slices/globalStateSlice.ts:151-153 | closes the toast |
| GlobalStateThunks.Store.SetToastText | src/redux/slices/globalStateSlice.ts:155-157 | stores the toast text |
| GlobalStateThunks.Store.CloseSettingsPage | src/redux/slices/globalStateSlice.ts:159-161 | closes the settings page |
| GlobalStateThunks.Store.SetIsNotDirty | src/redux/slices/globalStateSlice.ts:163-165 | clears the dirty flag |
| GlobalStateThunks.Store.SetIsDirty | src/redux/slices/globalStateSlice.ts:167-170 | sets the dirty flag and `syncStatus` `idle` |
| GlobalStateThunks.Store.SetSignedIn | src/redux/slices/globalStateSlice.ts:172-174 | marks the user signed in |
| GlobalStateThunks.Store.SetHasSyncedBefore | src/redux/slices/globalStateSlice.ts:176-178 | records that a sync happened |
| GlobalStateThunks.Store.SetLoggedOut | src/redux/slices/globalStateSlice.ts:180-183 | marks the user signed out and sets `syncStatus` `idle` |
| GlobalStateThunks.Store.SetSyncStatus | src/redux/slices/globalStateSlice.ts:185-190 | stores the given sync status |
| GlobalStateThunks.Store.SetUserId | src/redux/slices/globalStateSlice.ts:192-194 | stores the user id |
| GlobalStateThunks.Store.RemoveUserId | src/redux/slices/globalStateSlice.ts:196-198 | clears the user id |
| GlobalStateThunks.Store.ReplaceState | src/redux/slices/globalStateSlice.ts:200-201 | the slice becomes the payload |
| GlobalStateThunks.Store.SaveToLocalStorageIfDirtyPending | src/redux/slices/globalStateSlice.ts:206-208 | sets `syncStatus` `loading` |
| GlobalStateThunks.Store.SaveToLocalStorageIfDirtyFulfilled | src/redux/slices/globalStateSlice.ts:209-215 | sets `syncStatus` `success` when clean, `idle` when dirty |
| GlobalStateThunks.Store.SaveToLocalStorageIfDirtyRejected | src/redux/slices/globalStateSlice.ts:216-218 | sets `syncStatus` `error` |
| GlobalStateThunks.Store.OpenSettingsPageFulfilled | src/redux/slices/globalStateSlice.ts:219-221 | opens the settings page |
| GlobalStateThunks.Store.Dispatch | src/redux/slices/globalStateSlice.ts:116-222 | dispatching any action of the slice leaves the slice at `Reduce` of the old slice and the action |
| GlobalStateThunks.Store.ReplaceTabContainerState | src/App.tsx:73 | the tab-container slice becomes the loaded data |
| GlobalStateThunks.Store.SetPresentStartup | src/App.tsx:75-79 | the undo/redo present becomes the given snapshot |
| GlobalStateThunks.Store.SelectCategory | src/redux/slices/globalStateSlice.ts:82 | the selected settings category becomes the name |
| GlobalStateThunks.Store.SetExtensionInstalledTime | src/App.tsx:40 | one more `setExtensionInstalledTime` action reaches the settings slice |
| GlobalStateThunks.Store.SetTimeout | src/redux/slices/globalStateSlice.ts:105-107 | schedules a timer under a fresh id with the delay and returns that id |
| GlobalStateThunks.Store.ClearTimeout | src/redux/slices/globalStateSlice.ts:98 | removes the timer `id`, if pending |
| GlobalStateThunks.Store.CancelToastTimeout | src/redux/slices/globalStateSlice.ts:97-100 | clears the timer `toastTimeout` holds, if any, and resets `toastTimeout` |
| GlobalStateThunks.Store.ShowToast | src/redux/slices/globalStateSlice.ts:91-110 | running the thunk's steps ends in the state `ShowToastSpec` gives |
| GlobalStateThunks.Store.FireTimer | src/redux/slices/globalStateSlice.ts:105-108 | a firing timer ends in the state `FireTimerSpec` gives |
| GlobalStateThunks.Store.SaveToLocalStorageIfDirtyPayload | src/redux/slices/globalStateSlice.ts:51-64 | when dirty and written, storage gets the tabs and the flag clears; otherwise both stay; the promise rejects exactly on a nullish throw while dirty |
| GlobalStateThunks.Store.SaveToLocalStorageIfDirtySettle | src/redux/slices/globalStateSlice.ts:209-218 | the rejected or fulfilled case runs, per the payload creator's outcome |
| GlobalStateThunks.Store.SaveToLocalStorageIfDirty | src/redux/slices/globalStateSlice.ts:50-65 | pending, payload creator, settle: ends in the state `FlushSpec` gives |
| GlobalStateThunks.Store.OpenSettingsPage | src/redux/slices/globalStateSlice.ts:79-84 | selects the category for a truthy name, then opens the settings page; ends in `OpenSettingsPageSpec` |
| GlobalStateThunks.Store.Handle | src/redux/slices/globalStateSlice.ts:50-110 | running any event on the store ends in the state `Step` gives, so call sequences follow `Run` |
| App.WithDefaults | src/App.tsx:26-31 | missing settings, or a missing field, default to `''` (an invalid date) and `false`; present fields are kept |
| App.RateAndReviewDecision | src/App.tsx:24-65 | install time recorded exactly when not opted out and the install time is invalid. Prompt exactly when not opted out, installed at least a day ago, and the last request missing, invalid or at least three days old |
| App.AskUserToRateAndReview | src/App.tsx:24-65 | dispatches `openRateAndReviewModal` for a prompt and `setExtensionInstalledTime` for a first run, nothing otherwise |
| App.StartupSpec | src/App.tsx:67-81 | the state after the mount effect: the review decision, then hydration from stored tab data; its properties are `StartupHydrates`, `StartupTouchesOnlyTheModal` and `StartupFlagHonesty` |
| App.Startup | src/App.tsx:67-81 | the mount effect ends in the state `StartupSpec` gives: the decision, then hydration when tab data is stored |
| App.OptedOutIsNeverAsked | src/App.tsx:34-36 | a user who rated or asked never to be asked gets neither a prompt nor an install-time write |
| App.FirstRunRecordsInstallTime | src/App.tsx:39-42 | with no stored settings, startup records the install time and opens no modal |
| App.GracePeriodBoundary | src/App.tsx:43-50 | exactly one day after install the prompt is due; one millisecond earlier it is not |
| App.CooldownBoundary | src/App.tsx:53-61 | exactly three days after the last request the prompt is due again; one millisecond earlier it is not |
| App.InvalidLastRequestImposesNoCooldown | src/App.tsx:53-61 | an invalid last-request date skips the cooldown check |
| App.ReviewPromptExamples | src/App.tsx:24-65 | installed 12 h ago: no prompt; installed 2 days ago and asked 1 day ago: no prompt; installed 10 days ago, never asked: prompt |
| App.PromptStaysDue | src/App.tsx:43-61 | a prompt due at some time is due at every later time |
| App.RecordingIgnoresClock | src/App.tsx:39-42 | whether the install time is recorded does not depend on the clock |
| App.StartupHydrates | src/App.tsx:71-80 | stored tab data replaces the tab slice and the undo present, which are then persisted; no stored data changes neither; storage, timers and category never change |
| App.StartupFlagHonesty | src/App.tsx:67-81 | after startup "flag set or storage holds the tabs" holds exactly when tab data was stored or the flag was already set |
| App.StartupTouchesOnlyTheModal | src/App.tsx:24-65 | of the `globalState` slice startup changes only the rate-and-review flag, which ends set exactly when it was set or a prompt is due |
| External.ToastDuration | src/utils/functions/external.ts:21 | a non-zero duration is kept; an undefined or zero one becomes 3000; the result is never zero |
| External.ToastText | src/utils/functions/external.ts:17 | with no error the caller's text; with an error its message when truthy, else `An error occurred.`; never empty with an error |
| External.DisplayToastPayload | src/utils/functions/external.ts:18-23 | the payload carries the selected text and always a defined duration |
| External.DisplayToast | src/utils/functions/external.ts:11-24 | one `showToast` with the selected text and duration: the state is `ShowToastSpec` of that payload |
| External.DisplayToastOverridesShowToastDefault | src/utils/functions/external.ts:21 | the toast's duration is the caller's when non-zero, else 3000, so 5000 is never the default reached |
| External.ErrorIsAlwaysShown | src/utils/functions/external.ts:17 | with an error the toast opens with a non-empty text and a timer of the selected duration |
| External.EmptyTextWithoutErrorIsNoOp | src/utils/functions/external.ts:17-23 | an empty text without an error changes nothing |
| External.DisplayToastKeepsOneTimer | src/utils/functions/external.ts:18-23 | `displayToast` keeps the timer invariant; when it shows something, exactly its timer is pending |

## Left out

- Rendering and styling: the React component tree and its CSS are presentation only.
- The Firebase stubs are no-ops or always throw, and hold no logic. They are `firebase.ts`, `loadFromFirestore`/`saveToFirestore` and `syncStateWithFirestore`. `saveToFirestoreIfDirty` is not a stub: it is an alias of `saveToLocalStorageIfDirty` (globalStateSlice.ts:68), so `FlushSpec` and `Store.SaveToLocalStorageIfDirty` model it too.
- `vite.config.ts` is build tooling.
- Real timers and asynchrony:
  - the timer host is a map from fresh ids to delays;
  - firing is an explicit event, and elapsed time is not modelled.
- The clock is a parameter.
- RunKeepsDirtyFlagHonest: holds only from a state where the flag is set or storage holds the tabs, and only when every tab edit is followed at once by `setIsDirty`. Neither is enforced by the code this model covers: a fresh store over empty storage fails the first condition, and the callers that edit tabs live in components outside this model.
- Interleavings are not modelled: each thunk runs to completion before the next event.
- The `console.warn` in the flush's catch block is I/O with no effect on the state.
- `src/utils/functions/local.ts` is not part of this model, so `loadFromLocalStorage`, `saveToLocalStorage` and `isValidDate` are abstract:
  - storage maps keys to already-parsed values;
  - a value that is not of the expected shape loads as undefined;
  - a date is its parsed time or None when invalid, and the default `''` is taken to be invalid.
- Non-boolean values stored in the two boolean settings fields are not modelled; they are taken to be booleans.
- Redux Toolkit machinery (Immer drafts, thunk promises, store subscribers) is replaced by sequential methods that dispatch in the source's order.
- The tab-container, undo/redo, settings and settings-category slices are not part of this model:
  - `replaceState` and `setPresentStartup` assign the received value;
  - `selectCategory` records the name;
  - `setExtensionInstalledTime` is only counted.
- Durations that are `NaN` or not integers are not modelled: durations are integers. `NaN || 3000` would also give 3000.
- A truthy `error` whose `message` is a truthy non-string value is not modelled: a message is a string or undefined.
