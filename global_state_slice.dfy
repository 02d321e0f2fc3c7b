/**
 * The `globalState` slice: its record, its initial state, the actions it
 * handles and its reducer. The reducer is the pure function Redux runs on
 * every dispatch; each case assigns the fields the source's case assigns.
 */
module GlobalStateSlice {
  import opened Wrappers
  import opened LocalStorage

  /** `'idle' | 'loading' | 'success' | 'error'` */
  datatype Status = Idle | Loading | Success | Error

  /** The `Global` record. */
  datatype Global = Global(
    hasSyncedBefore: bool,
    isSignedIn: bool,
    userId: Option<string>,
    isDirty: bool,
    isSettingsPage: bool,
    isSearchPanel: bool,
    searchInputText: string,
    syncStatus: Status,
    isToastOpen: bool,
    toastText: string,
    isConflictModalOpen: bool,
    isRateAndReviewModalOpen: bool,
    tabDataLocal: Option<TabMasterContainer>,
    tabDataCloud: Option<TabMasterContainer>)

  const InitialState: Global := Global(
    hasSyncedBefore := false,
    isSignedIn := false,
    userId := None,
    isDirty := false,
    isSettingsPage := false,
    isSearchPanel := false,
    searchInputText := "",
    syncStatus := Idle,
    isToastOpen := false,
    toastText := "",
    isConflictModalOpen := false,
    isRateAndReviewModalOpen := false,
    tabDataLocal := None,
    tabDataCloud := None)

  /** The actions the slice reacts to: its own reducers, then its extra reducers. */
  datatype Action =
    | OpenConflictModal(local: TabMasterContainer, cloud: TabMasterContainer)
    | CloseConflictModal
    | OpenRateAndReviewModal
    | CloseRateAndReviewModal
    | OpenSearchPanel
    | CloseSearchPanel
    | SetSearchInputText(text: string)
    | OpenToast
    | CloseToast
    | SetToastText(text: string)
    | CloseSettingsPage
    | SetIsNotDirty
    | SetIsDirty
    | SetSignedIn
    | SetHasSyncedBefore
    | SetLoggedOut
    | SetSyncStatus(status: Status)
    | SetUserId(id: string)
    | RemoveUserId
    | ReplaceState(payload: Global)
    | SaveToLocalStorageIfDirtyPending
    | SaveToLocalStorageIfDirtyFulfilled
    | SaveToLocalStorageIfDirtyRejected
    | OpenSettingsPageFulfilled
    | ShowToastFulfilled

  /** Names of the fields of `Global`, for stating frames. */
  datatype Field =
    | HasSyncedBefore | IsSignedIn | UserId | IsDirty | IsSettingsPage
    | IsSearchPanel | SearchInputText | SyncStatus | IsToastOpen | ToastText
    | IsConflictModalOpen | IsRateAndReviewModalOpen | TabDataLocal | TabDataCloud

  const AllFields: set<Field> := {
    HasSyncedBefore, IsSignedIn, UserId, IsDirty, IsSettingsPage,
    IsSearchPanel, SearchInputText, SyncStatus, IsToastOpen, ToastText,
    IsConflictModalOpen, IsRateAndReviewModalOpen, TabDataLocal, TabDataCloud }

  /** `t` agrees with `s` on every field outside `fs`. */
  predicate Unchanged(s: Global, t: Global, fs: set<Field>) {
    (HasSyncedBefore !in fs ==> t.hasSyncedBefore == s.hasSyncedBefore) &&
    (IsSignedIn !in fs ==> t.isSignedIn == s.isSignedIn) &&
    (UserId !in fs ==> t.userId == s.userId) &&
    (IsDirty !in fs ==> t.isDirty == s.isDirty) &&
    (IsSettingsPage !in fs ==> t.isSettingsPage == s.isSettingsPage) &&
    (IsSearchPanel !in fs ==> t.isSearchPanel == s.isSearchPanel) &&
    (SearchInputText !in fs ==> t.searchInputText == s.searchInputText) &&
    (SyncStatus !in fs ==> t.syncStatus == s.syncStatus) &&
    (IsToastOpen !in fs ==> t.isToastOpen == s.isToastOpen) &&
    (ToastText !in fs ==> t.toastText == s.toastText) &&
    (IsConflictModalOpen !in fs ==> t.isConflictModalOpen == s.isConflictModalOpen) &&
    (IsRateAndReviewModalOpen !in fs ==> t.isRateAndReviewModalOpen == s.isRateAndReviewModalOpen) &&
    (TabDataLocal !in fs ==> t.tabDataLocal == s.tabDataLocal) &&
    (TabDataCloud !in fs ==> t.tabDataCloud == s.tabDataCloud)
  }

  /** The fields each action names: the only ones its reducer may change. */
  function Touches(a: Action): set<Field> {
    match a
    case OpenConflictModal(_, _) => {TabDataLocal, TabDataCloud, IsConflictModalOpen}
    case CloseConflictModal => {IsConflictModalOpen}
    case OpenRateAndReviewModal => {IsRateAndReviewModalOpen}
    case CloseRateAndReviewModal => {IsRateAndReviewModalOpen}
    case OpenSearchPanel => {IsSearchPanel}
    case CloseSearchPanel => {IsSearchPanel}
    case SetSearchInputText(_) => {SearchInputText}
    case OpenToast => {IsToastOpen}
    case CloseToast => {IsToastOpen}
    case SetToastText(_) => {ToastText}
    case CloseSettingsPage => {IsSettingsPage}
    case SetIsNotDirty => {IsDirty}
    case SetIsDirty => {IsDirty, SyncStatus}
    case SetSignedIn => {IsSignedIn}
    case SetHasSyncedBefore => {HasSyncedBefore}
    case SetLoggedOut => {IsSignedIn, SyncStatus}
    case SetSyncStatus(_) => {SyncStatus}
    case SetUserId(_) => {UserId}
    case RemoveUserId => {UserId}
    case ReplaceState(_) => AllFields
    case SaveToLocalStorageIfDirtyPending => {SyncStatus}
    case SaveToLocalStorageIfDirtyFulfilled => {SyncStatus}
    case SaveToLocalStorageIfDirtyRejected => {SyncStatus}
    case OpenSettingsPageFulfilled => {IsSettingsPage}
    case ShowToastFulfilled => {}
  }

  /** `globalStateSlice.reducer`. */
  function Reduce(s: Global, a: Action): Global {
    match a
    case OpenConflictModal(local, cloud) =>
      s.(tabDataLocal := Some(local), tabDataCloud := Some(cloud), isConflictModalOpen := true)
    case CloseConflictModal => s.(isConflictModalOpen := false)
    case OpenRateAndReviewModal => s.(isRateAndReviewModalOpen := true)
    case CloseRateAndReviewModal => s.(isRateAndReviewModalOpen := false)
    case OpenSearchPanel => s.(isSearchPanel := true)
    case CloseSearchPanel => s.(isSearchPanel := false)
    case SetSearchInputText(text) => s.(searchInputText := text)
    case OpenToast => s.(isToastOpen := true)
    case CloseToast => s.(isToastOpen := false)
    case SetToastText(text) => s.(toastText := text)
    case CloseSettingsPage => s.(isSettingsPage := false)
    case SetIsNotDirty => s.(isDirty := false)
    case SetIsDirty => s.(isDirty := true, syncStatus := Idle)
    case SetSignedIn => s.(isSignedIn := true)
    case SetHasSyncedBefore => s.(hasSyncedBefore := true)
    case SetLoggedOut => s.(isSignedIn := false, syncStatus := Idle)
    case SetSyncStatus(status) => s.(syncStatus := status)
    case SetUserId(id) => s.(userId := Some(id))
    case RemoveUserId => s.(userId := None)
    case ReplaceState(payload) => payload
    case SaveToLocalStorageIfDirtyPending => s.(syncStatus := Loading)
    case SaveToLocalStorageIfDirtyFulfilled => s.(syncStatus := if !s.isDirty then Success else Idle)
    case SaveToLocalStorageIfDirtyRejected => s.(syncStatus := Error)
    case OpenSettingsPageFulfilled => s.(isSettingsPage := true)
    case ShowToastFulfilled => s
  }

  /** The frame of the modal, search-panel and toast reducers. */
  lemma ReduceFrameView(s: Global, a: Action)
    requires a.OpenConflictModal? || a.CloseConflictModal? || a.OpenRateAndReviewModal? ||
             a.CloseRateAndReviewModal? || a.OpenSearchPanel? || a.CloseSearchPanel? ||
             a.SetSearchInputText? || a.OpenToast? || a.CloseToast? || a.SetToastText?
    ensures Unchanged(s, Reduce(s, a), Touches(a))
  {
  }

  /** The frame of the settings-page, dirty-flag, session and user reducers. */
  lemma ReduceFrameSession(s: Global, a: Action)
    requires a.CloseSettingsPage? || a.SetIsNotDirty? || a.SetIsDirty? || a.SetSignedIn? ||
             a.SetHasSyncedBefore? || a.SetLoggedOut? || a.SetSyncStatus? || a.SetUserId? ||
             a.RemoveUserId?
    ensures Unchanged(s, Reduce(s, a), Touches(a))
  {
  }

  /** The frame of `replaceState` and of the thunks' lifecycle reducers. */
  lemma ReduceFrameLifecycle(s: Global, a: Action)
    requires a.ReplaceState? || a.SaveToLocalStorageIfDirtyPending? ||
             a.SaveToLocalStorageIfDirtyFulfilled? || a.SaveToLocalStorageIfDirtyRejected? ||
             a.OpenSettingsPageFulfilled? || a.ShowToastFulfilled?
    ensures Unchanged(s, Reduce(s, a), Touches(a))
  {
  }

  /** Every reducer changes only the fields its action names. */
  lemma ReduceFrame(s: Global, a: Action)
    ensures Unchanged(s, Reduce(s, a), Touches(a))
  {
    if a.OpenConflictModal? || a.CloseConflictModal? || a.OpenRateAndReviewModal? ||
       a.CloseRateAndReviewModal? || a.OpenSearchPanel? || a.CloseSearchPanel? ||
       a.SetSearchInputText? || a.OpenToast? || a.CloseToast? || a.SetToastText? {
      ReduceFrameView(s, a);
    } else if a.CloseSettingsPage? || a.SetIsNotDirty? || a.SetIsDirty? || a.SetSignedIn? ||
            a.SetHasSyncedBefore? || a.SetLoggedOut? || a.SetSyncStatus? || a.SetUserId? ||
            a.RemoveUserId? {
      ReduceFrameSession(s, a);
    } else {
      ReduceFrameLifecycle(s, a);
    }
  }

  /** `setIsDirty` marks the state dirty and resets the sync status, and does nothing else. */
  lemma SetIsDirtyEffect(s: Global)
    ensures Reduce(s, SetIsDirty).isDirty && Reduce(s, SetIsDirty).syncStatus == Idle
    ensures Unchanged(s, Reduce(s, SetIsDirty), {IsDirty, SyncStatus})
  {
  }

  /** `setIsNotDirty` clears the flag only; the sync status is left alone. */
  lemma SetIsNotDirtyEffect(s: Global)
    ensures !Reduce(s, SetIsNotDirty).isDirty
    ensures Unchanged(s, Reduce(s, SetIsNotDirty), {IsDirty})
  {
  }

  /** The sync-status lifecycle of the flush thunk: loading, then success/idle, or error. */
  lemma FlushLifecycle(s: Global)
    ensures Reduce(s, SaveToLocalStorageIfDirtyPending).syncStatus == Loading
    ensures Reduce(s, SaveToLocalStorageIfDirtyFulfilled).syncStatus == (if s.isDirty then Idle else Success)
    ensures Reduce(s, SaveToLocalStorageIfDirtyRejected).syncStatus == Error
    ensures Reduce(s, SaveToLocalStorageIfDirtyFulfilled).isDirty == s.isDirty
  {
  }

  /** `replaceState` yields exactly its payload, without merging anything of the old state. */
  lemma ReplaceStateIsExact(s: Global, payload: Global)
    ensures Reduce(s, ReplaceState(payload)) == payload
  {
  }

  /** `openConflictModal` stores both payloads and opens the modal. */
  lemma OpenConflictModalEffect(s: Global, local: TabMasterContainer, cloud: TabMasterContainer)
    ensures Reduce(s, OpenConflictModal(local, cloud)).tabDataLocal == Some(local)
    ensures Reduce(s, OpenConflictModal(local, cloud)).tabDataCloud == Some(cloud)
    ensures Reduce(s, OpenConflictModal(local, cloud)).isConflictModalOpen
  {
  }

  /** `closeToast` hides the toast and keeps its text. */
  lemma CloseToastKeepsText(s: Global)
    ensures !Reduce(s, CloseToast).isToastOpen
    ensures Reduce(s, CloseToast).toastText == s.toastText
  {
  }

  /** Only `setIsDirty`, `setIsNotDirty` and `replaceState` ever change the dirty flag. */
  lemma OnlyNamedReducersTouchDirtyFlag(s: Global, a: Action)
    requires !a.ReplaceState? && !a.SetIsDirty? && !a.SetIsNotDirty?
    ensures Reduce(s, a).isDirty == s.isDirty
  {
    ReduceFrame(s, a);
    assert IsDirty !in Touches(a) by {
      if a.OpenConflictModal? || a.CloseConflictModal? || a.OpenRateAndReviewModal? ||
         a.CloseRateAndReviewModal? || a.OpenSearchPanel? || a.CloseSearchPanel? ||
         a.SetSearchInputText? || a.OpenToast? || a.CloseToast? || a.SetToastText? {
      } else if a.CloseSettingsPage? || a.SetSignedIn? || a.SetHasSyncedBefore? ||
                a.SetLoggedOut? || a.SetSyncStatus? || a.SetUserId? || a.RemoveUserId? {
      }
    }
  }
}
