/**
 * The thunks of the `globalState` slice (`saveToLocalStorageIfDirty`,
 * `showToast`, `openSettingsPage`), the module-level `toastTimeout` and the
 * timer host they use, and the store they run against.
 *
 * `World` is everything these operations read or write. Each thunk has a
 * specification function on `World`; the `Store` class holds the same state
 * in fields and runs the thunk step by step, dispatching as the source does,
 * and its methods are proved to end in the state the specification gives.
 */
module GlobalStateThunks {
  import opened Wrappers
  import opened LocalStorage
  import opened GlobalStateSlice

  /** The undo/redo slice's present snapshot, as `setPresentStartup` receives it. */
  datatype PresentState = PresentState(tabContainerDataState: TabMasterContainer)

  /** Identifier returned by `setTimeout`. */
  type TimerId = nat

  datatype World = World(
    global: Global,
    /** The tab-container slice. */
    tabs: TabMasterContainer,
    /** The undo/redo slice's present snapshot. */
    undoPresent: Option<PresentState>,
    /** The settings-category slice's selection, as `selectCategory` sets it. */
    selectedCategory: Option<string>,
    /** How many `setExtensionInstalledTime` actions the settings slice received. */
    installedTimeRequests: nat,
    storage: Storage,
    /** The module-level `toastTimeout` variable. */
    toastTimeout: Option<TimerId>,
    /** Pending timers of the timer host, each with its delay; every one dispatches `closeToast`. */
    timers: map<TimerId, int>,
    /** The identifier the timer host hands out next. */
    nextTimerId: TimerId)

  /** The payload of `showToast`; a None duration is `undefined`. */
  datatype ShowToastPayload = ShowToastPayload(toastText: string, duration: Option<int>)

  const ShowToastDefaultDuration: int := 5000

  /** The default parameter `duration = 5000` applies only when the duration is undefined. */
  function ShowToastDuration(p: ShowToastPayload): (d: int)
    ensures p.duration.None? ==> d == ShowToastDefaultDuration
    ensures p.duration.Some? ==> d == p.duration.value
  {
    if p.duration.Some? then p.duration.value else ShowToastDefaultDuration
  }

  /**
   * Every pending timer is the one `toastTimeout` holds, and that one was
   * handed out by the timer host (so a newly scheduled timer is distinct from it).
   */
  predicate ToastTimerInv(w: World) {
    (forall id :: id in w.timers ==> w.toastTimeout == Some(id)) &&
    (w.toastTimeout.Some? ==> w.toastTimeout.value < w.nextTimerId)
  }

  /** Under the invariant at most one dismissal timer is pending. */
  lemma AtMostOnePendingTimer(w: World)
    requires ToastTimerInv(w)
    ensures |w.timers| <= 1
    ensures w.timers != map[] ==> w.toastTimeout.Some? && w.timers.Keys == {w.toastTimeout.value}
  {
    if w.toastTimeout.Some? {
      var v := w.toastTimeout.value;
      if v in w.timers {
        assert w.timers.Keys == {v};
      } else {
        assert w.timers.Keys == {};
      }
    } else {
      assert w.timers.Keys == {};
    }
  }

  /** `showToast(p)`: the state once the thunk has run, before any timer fires. */
  function ShowToastSpec(w: World, p: ShowToastPayload): World {
    if p.toastText == "" then
      w
    else
      var cleared := if w.toastTimeout.Some? then w.timers - {w.toastTimeout.value} else w.timers;
      w.(global := w.global.(toastText := p.toastText, isToastOpen := true),
         timers := cleared[w.nextTimerId := ShowToastDuration(p)],
         toastTimeout := Some(w.nextTimerId),
         nextTimerId := w.nextTimerId + 1)
  }

  /** An empty text shows nothing: neither the state nor the timers change. */
  lemma ShowToastEmptyIsNoOp(w: World, p: ShowToastPayload)
    requires p.toastText == ""
    ensures ShowToastSpec(w, p) == w
  {
  }

  /**
   * A non-empty text is shown and the toast opened; the pending timer, if
   * any, is cancelled before the new one is scheduled with the payload's
   * duration; nothing outside the toast fields and the timers changes.
   */
  lemma ShowToastEffect(w: World, p: ShowToastPayload)
    requires p.toastText != ""
    ensures var r := ShowToastSpec(w, p);
      r.global.toastText == p.toastText && r.global.isToastOpen &&
      Unchanged(w.global, r.global, {ToastText, IsToastOpen}) &&
      r.toastTimeout == Some(w.nextTimerId) && r.nextTimerId == w.nextTimerId + 1 &&
      w.nextTimerId in r.timers && r.timers[w.nextTimerId] == ShowToastDuration(p) &&
      (w.toastTimeout.Some? && w.toastTimeout.value != w.nextTimerId ==> w.toastTimeout.value !in r.timers) &&
      r == w.(global := r.global, toastTimeout := r.toastTimeout, timers := r.timers, nextTimerId := r.nextTimerId)
  {
  }

  /** From a state where the invariant holds, the new timer is the only pending one. */
  lemma ShowToastKeepsOneTimer(w: World, p: ShowToastPayload)
    requires ToastTimerInv(w)
    ensures ToastTimerInv(ShowToastSpec(w, p))
    ensures p.toastText != "" ==> ShowToastSpec(w, p).timers == map[w.nextTimerId := ShowToastDuration(p)]
  {
    if p.toastText != "" {
      var cleared := if w.toastTimeout.Some? then w.timers - {w.toastTimeout.value} else w.timers;
      assert cleared == map[];
    }
  }

  /** The timer host runs pending timer `id`: it dispatches `closeToast`. A timer not pending never runs. */
  function FireTimerSpec(w: World, id: TimerId): (r: World)
    ensures id in w.timers ==>
      id !in r.timers && r.timers == w.timers - {id} &&
      r.global == w.global.(isToastOpen := false) && r.global.toastText == w.global.toastText
    ensures id !in w.timers ==> r == w
    ensures r == w.(global := r.global, timers := r.timers)
    ensures ToastTimerInv(w) ==> ToastTimerInv(r)
  {
    if id in w.timers then
      w.(timers := w.timers - {id}, global := w.global.(isToastOpen := false))
    else
      w
  }

  /** What `saveToLocalStorage` does: it writes, it throws an error object, or it throws `null`/`undefined`. */
  datatype WriteOutcome = Written | Threw | ThrewNullish

  /** The in-memory tab container is what storage holds under `tabContainerData`. */
  predicate Persisted(w: World) {
    LoadTabs(w.storage) == Some(w.tabs)
  }

  /**
   * `saveToLocalStorageIfDirty()`: pending, the payload creator, then
   * fulfilled (or rejected, when the catch handler itself throws because the
   * thrown value has no `message`).
   */
  function FlushSpec(w: World, outcome: WriteOutcome): World
  {
    var written := w.global.isDirty && outcome == Written;
    var status := if !w.global.isDirty || outcome == Written then Success
                  else if outcome == Threw then Idle
                  else Error;
    w.(storage := if written then SaveTabs(w.storage, w.tabs) else w.storage,
       global := w.global.(isDirty := w.global.isDirty && !written, syncStatus := status))
  }

  /** The flush touches only the global slice and storage, and of the slice only `isDirty` and `syncStatus`. */
  lemma FlushFrame(w: World, outcome: WriteOutcome)
    ensures FlushSpec(w, outcome) == w.(global := FlushSpec(w, outcome).global, storage := FlushSpec(w, outcome).storage)
    ensures Unchanged(w.global, FlushSpec(w, outcome).global, {IsDirty, SyncStatus})
  {
  }

  /**
   * The outcomes of a flush: clean, nothing is written and the status ends
   * `success`; dirty and written, the tabs are stored, the flag is cleared and
   * the status ends `success`; dirty and the write throws, storage is
   * untouched, the flag stays set and the status ends `idle` (the error is
   * caught) or `error` (the catch handler itself throws).
   */
  lemma FlushOutcomes(w: World, outcome: WriteOutcome)
    ensures var r := FlushSpec(w, outcome);
      !w.global.isDirty ==> r.storage == w.storage && !r.global.isDirty && r.global.syncStatus == Success
    ensures var r := FlushSpec(w, outcome);
      w.global.isDirty && outcome == Written ==>
        r.storage == SaveTabs(w.storage, w.tabs) && !r.global.isDirty && r.global.syncStatus == Success
    ensures var r := FlushSpec(w, outcome);
      w.global.isDirty && outcome == Threw ==> r.storage == w.storage && r.global.isDirty && r.global.syncStatus == Idle
    ensures var r := FlushSpec(w, outcome);
      w.global.isDirty && outcome == ThrewNullish ==> r.storage == w.storage && r.global.isDirty && r.global.syncStatus == Error
  {
  }

  /** `openSettingsPage(name)`: selects the category when the name is truthy, then opens the settings page. */
  function OpenSettingsPageSpec(w: World, name: Option<string>): (r: World)
    ensures r.global == w.global.(isSettingsPage := true)
    ensures r.selectedCategory == (if TruthyText(name) then name else w.selectedCategory)
    ensures r == w.(global := r.global, selectedCategory := r.selectedCategory)
  {
    w.(selectedCategory := if TruthyText(name) then name else w.selectedCategory,
       global := w.global.(isSettingsPage := true))
  }

  /** A flush that succeeds clears the flag only after storage holds the in-memory tabs. */
  lemma FlushCleanMeansPersisted(w: World, outcome: WriteOutcome)
    requires w.global.isDirty || Persisted(w)
    ensures !FlushSpec(w, outcome).global.isDirty ==> Persisted(FlushSpec(w, outcome))
    ensures FlushSpec(w, outcome).global.isDirty <==> w.global.isDirty && outcome != Written
  {
  }

  /** Flushing again after a successful flush changes nothing. */
  lemma FlushIdempotent(w: World, outcome: WriteOutcome)
    ensures FlushSpec(FlushSpec(w, Written), outcome) == FlushSpec(w, Written)
  {
  }

  /** A write error is caught: the flag stays set, the thunk fulfils and the status is `idle`, not `error`. */
  lemma FlushWriteErrorIsSwallowed(w: World)
    requires w.global.isDirty
    ensures FlushSpec(w, Threw).global.isDirty
    ensures FlushSpec(w, Threw).global.syncStatus == Idle
    ensures FlushSpec(w, Threw).storage == w.storage
  {
  }

  /** Two toasts in quick succession leave exactly one pending dismissal, the second one, of the second text. */
  lemma SupersededToastLeavesOneTimer(w: World)
    requires ToastTimerInv(w)
    ensures var w2 := ShowToastSpec(ShowToastSpec(w, ShowToastPayload("A", Some(5000))), ShowToastPayload("B", Some(1000)));
      w2.timers == map[w.nextTimerId + 1 := 1000] &&
      var w3 := FireTimerSpec(w2, w.nextTimerId + 1);
      w3.timers == map[] && !w3.global.isToastOpen && w3.global.toastText == "B"
  {
    var w1 := ShowToastSpec(w, ShowToastPayload("A", Some(5000)));
    var w2 := ShowToastSpec(w1, ShowToastPayload("B", Some(1000)));
    assert w2.timers == map[w.nextTimerId + 1 := 1000];
    assert w2.timers - {w.nextTimerId + 1} == map[];
  }

  /** Anything the store can be asked to do. */
  datatype Event =
    | Dispatched(a: Action)
    | ShowToastCalled(p: ShowToastPayload)
    | TimerFired(id: TimerId)
    | FlushCalled(outcome: WriteOutcome)
    | OpenSettingsPageCalled(name: Option<string>)
    /** A dispatch of the tab-container slice's `replaceState`: the tabs are edited. */
    | TabsReplaced(t: TabMasterContainer)

  function Step(w: World, e: Event): World {
    match e
    case Dispatched(a) => w.(global := Reduce(w.global, a))
    case ShowToastCalled(p) => ShowToastSpec(w, p)
    case TimerFired(id) => FireTimerSpec(w, id)
    case FlushCalled(outcome) => FlushSpec(w, outcome)
    case OpenSettingsPageCalled(name) => OpenSettingsPageSpec(w, name)
    case TabsReplaced(t) => w.(tabs := t)
  }

  function Run(w: World, events: seq<Event>): World
    decreases |events|
  {
    if events == [] then w else Run(Step(w, events[0]), events[1..])
  }

  lemma StepKeepsToastTimerInv(w: World, e: Event)
    requires ToastTimerInv(w)
    ensures ToastTimerInv(Step(w, e))
  {
    if e.ShowToastCalled? {
      ShowToastKeepsOneTimer(w, e.p);
    }
  }

  /** Whatever happens, at most one dismissal timer is ever pending, and it is the one `toastTimeout` holds. */
  lemma {:induction false} RunKeepsOnePendingTimer(w: World, events: seq<Event>)
    requires ToastTimerInv(w)
    ensures ToastTimerInv(Run(w, events))
    ensures |Run(w, events).timers| <= 1
    decreases |events|
  {
    if events == [] {
      AtMostOnePendingTimer(w);
    } else {
      StepKeepsToastTimerInv(w, events[0]);
      RunKeepsOnePendingTimer(Step(w, events[0]), events[1..]);
    }
  }

  /** Whatever happens, storage changes at no key other than `tabContainerData`. */
  lemma {:induction false} RunWritesOnlyTabContainerData(w: World, events: seq<Event>, k: string)
    requires k != TabContainerDataKey
    ensures k in Run(w, events).storage <==> k in w.storage
    ensures k in w.storage ==> Run(w, events).storage[k] == w.storage[k]
    decreases |events|
  {
    if events != [] {
      RunWritesOnlyTabContainerData(Step(w, events[0]), events[1..], k);
    }
  }

  /** The dirty flag is honest: either it is set or storage holds the in-memory tabs. */
  predicate DirtyFlagHonest(w: World) {
    w.global.isDirty || Persisted(w)
  }

  /**
   * Events that cannot make the flag dishonest by themselves: no `setIsNotDirty`
   * or `replaceState` of this slice, and no tab edit.
   */
  predicate KeepsFlagHonest(e: Event) {
    !(e.Dispatched? && (e.a.SetIsNotDirty? || e.a.ReplaceState?)) && !e.TabsReplaced?
  }

  /**
   * The discipline the rest of the extension has to keep, which this slice does
   * not enforce: every tab edit is immediately followed by `setIsDirty`, and
   * the other events keep the flag honest.
   */
  predicate EditsMarkedDirty(events: seq<Event>) {
    forall i :: 0 <= i < |events| ==> MarkedAt(events, i)
  }

  /** Event `i` keeps the flag honest, or it is a tab edit that `setIsDirty` follows. */
  predicate MarkedAt(events: seq<Event>, i: nat)
    requires i < |events|
  {
    KeepsFlagHonest(events[i]) ||
    (events[i].TabsReplaced? && i + 1 < |events| && events[i + 1] == Dispatched(SetIsDirty))
  }

  lemma StepKeepsDirtyFlagHonest(w: World, e: Event)
    requires DirtyFlagHonest(w) && KeepsFlagHonest(e)
    ensures DirtyFlagHonest(Step(w, e))
  {
    match e
    case Dispatched(a) =>
      if !a.SetIsDirty? {
        OnlyNamedReducersTouchDirtyFlag(w.global, a);
      }
    case ShowToastCalled(p) =>
    case TimerFired(id) =>
    case FlushCalled(outcome) =>
      FlushCleanMeansPersisted(w, outcome);
    case OpenSettingsPageCalled(name) =>
    case TabsReplaced(t) =>
  }

  /** A tab edit not followed by `setIsDirty` leaves a clear flag over stale storage. */
  lemma UnmarkedEditBreaksDirtyFlag(w: World, t: TabMasterContainer)
    requires !w.global.isDirty && Persisted(w) && t != w.tabs
    ensures DirtyFlagHonest(w)
    ensures !DirtyFlagHonest(Step(w, TabsReplaced(t)))
  {
  }

  /** A fresh store over empty storage is clean, yet storage does not hold its tabs. */
  lemma FreshStoreFlagIsNotHonest(t: TabMasterContainer)
    ensures !DirtyFlagHonest(World(InitialState, t, None, None, 0, map[], None, map[], 0))
  {
  }

  /**
   * From an honest start, and as long as every tab edit is marked with
   * `setIsDirty` and nothing dispatches `setIsNotDirty` or `replaceState` of
   * this slice directly, a clean flag means storage holds the in-memory tabs.
   */
  lemma {:induction false} RunKeepsDirtyFlagHonest(w: World, events: seq<Event>)
    requires DirtyFlagHonest(w)
    requires EditsMarkedDirty(events)
    ensures DirtyFlagHonest(Run(w, events))
    decreases |events|
  {
    if events != [] {
      assert MarkedAt(events, 0);
      if KeepsFlagHonest(events[0]) {
        StepKeepsDirtyFlagHonest(w, events[0]);
        assert EditsMarkedDirty(events[1..]) by {
          forall i | 0 <= i < |events[1..]|
            ensures MarkedAt(events[1..], i)
          {
            assert MarkedAt(events, i + 1);
          }
        }
        RunKeepsDirtyFlagHonest(Step(w, events[0]), events[1..]);
      } else {
        var w2 := Step(Step(w, events[0]), events[1]);
        assert w2.global.isDirty;
        assert Run(w, events) == Run(w2, events[2..]) by {
          assert events[1..][0] == events[1];
          assert events[1..][1..] == events[2..];
        }
        assert EditsMarkedDirty(events[2..]) by {
          forall i | 0 <= i < |events[2..]|
            ensures MarkedAt(events[2..], i)
          {
            assert MarkedAt(events, i + 2);
          }
        }
        RunKeepsDirtyFlagHonest(w2, events[2..]);
      }
    }
  }

  /** A set flag does not mean storage is behind: `setIsDirty` marks the state dirty even when storage holds the tabs. */
  lemma DirtyDoesNotMeanDiverged(w: World)
    requires Persisted(w)
    ensures var r := Step(w, Dispatched(SetIsDirty));
      r.global.isDirty && Persisted(r)
  {
  }

  /** A tab edit marked with `setIsDirty`, then a flush whose write succeeds: clean, `success`, and the new tabs stored. */
  lemma EditThenFlushPersists(w: World, t: TabMasterContainer)
    ensures var r := Run(w, [TabsReplaced(t), Dispatched(SetIsDirty), FlushCalled(Written)]);
      !r.global.isDirty && r.global.syncStatus == Success && r.tabs == t && LoadTabs(r.storage) == Some(t)
  {
    var es := [TabsReplaced(t), Dispatched(SetIsDirty), FlushCalled(Written)];
    var w1 := Step(w, es[0]);
    var w2 := Step(w1, es[1]);
    assert w2.global.isDirty && w2.tabs == t;
    var w3 := Step(w2, es[2]);
    LoadAfterSave(w2.storage, t);
    assert Run(w2, [FlushCalled(Written)]) == w3 by {
      assert [FlushCalled(Written)][1..] == [];
    }
    assert Run(w1, [Dispatched(SetIsDirty), FlushCalled(Written)]) == w3 by {
      assert [Dispatched(SetIsDirty), FlushCalled(Written)][1..] == [FlushCalled(Written)];
    }
    assert es[1..] == [Dispatched(SetIsDirty), FlushCalled(Written)];
  }

  /** The store: the slices, local storage, `toastTimeout` and the timer host, held in fields. */
  class Store {
    var global: Global
    var tabs: TabMasterContainer
    var undoPresent: Option<PresentState>
    var selectedCategory: Option<string>
    var installedTimeRequests: nat
    var storage: Storage
    var toastTimeout: Option<TimerId>
    var timers: map<TimerId, int>
    var nextTimerId: TimerId

    function State(): World
      reads this
    {
      World(global, tabs, undoPresent, selectedCategory, installedTimeRequests,
            storage, toastTimeout, timers, nextTimerId)
    }

    /** A store in the slice's `initialState`, over the given tab slice and storage, with no timer. */
    constructor (tabs0: TabMasterContainer, storage0: Storage)
      ensures State() == World(InitialState, tabs0, None, None, 0, storage0, None, map[], 0)
      ensures ToastTimerInv(State())
    {
      global := InitialState;
      tabs := tabs0;
      undoPresent := None;
      selectedCategory := None;
      installedTimeRequests := 0;
      storage := storage0;
      toastTimeout := None;
      timers := map[];
      nextTimerId := 0;
    }

    // The slice's reducers, each assigning the fields its source case assigns.

    /** `openConflictModal` */
    method OpenConflictModal(local: TabMasterContainer, cloud: TabMasterContainer)
      modifies this`global
      ensures global == old(global).(tabDataLocal := Some(local), tabDataCloud := Some(cloud), isConflictModalOpen := true)
    {
      global := global.(tabDataLocal := Some(local), tabDataCloud := Some(cloud), isConflictModalOpen := true);
    }

    /** `closeConflictModal` */
    method CloseConflictModal()
      modifies this`global
      ensures global == old(global).(isConflictModalOpen := false)
    {
      global := global.(isConflictModalOpen := false);
    }

    /** `openRateAndReviewModal` */
    method OpenRateAndReviewModal()
      modifies this`global
      ensures global == old(global).(isRateAndReviewModalOpen := true)
    {
      global := global.(isRateAndReviewModalOpen := true);
    }

    /** `closeRateAndReviewModal` */
    method CloseRateAndReviewModal()
      modifies this`global
      ensures global == old(global).(isRateAndReviewModalOpen := false)
    {
      global := global.(isRateAndReviewModalOpen := false);
    }

    /** `openSearchPanel` */
    method OpenSearchPanel()
      modifies this`global
      ensures global == old(global).(isSearchPanel := true)
    {
      global := global.(isSearchPanel := true);
    }

    /** `closeSearchPanel` */
    method CloseSearchPanel()
      modifies this`global
      ensures global == old(global).(isSearchPanel := false)
    {
      global := global.(isSearchPanel := false);
    }

    /** `setSearchInputText` */
    method SetSearchInputText(text: string)
      modifies this`global
      ensures global == old(global).(searchInputText := text)
    {
      global := global.(searchInputText := text);
    }

    /** `openToast` */
    method OpenToast()
      modifies this`global
      ensures global == old(global).(isToastOpen := true)
    {
      global := global.(isToastOpen := true);
    }

    /** `closeToast` */
    method CloseToast()
      modifies this`global
      ensures global == old(global).(isToastOpen := false)
    {
      global := global.(isToastOpen := false);
    }

    /** `setToastText` */
    method SetToastText(text: string)
      modifies this`global
      ensures global == old(global).(toastText := text)
    {
      global := global.(toastText := text);
    }

    /** `closeSettingsPage` */
    method CloseSettingsPage()
      modifies this`global
      ensures global == old(global).(isSettingsPage := false)
    {
      global := global.(isSettingsPage := false);
    }

    /** `setIsNotDirty` */
    method SetIsNotDirty()
      modifies this`global
      ensures global == old(global).(isDirty := false)
    {
      global := global.(isDirty := false);
    }

    /** `setIsDirty` */
    method SetIsDirty()
      modifies this`global
      ensures global == old(global).(isDirty := true, syncStatus := Idle)
    {
      global := global.(isDirty := true, syncStatus := Idle);
    }

    /** `setSignedIn` */
    method SetSignedIn()
      modifies this`global
      ensures global == old(global).(isSignedIn := true)
    {
      global := global.(isSignedIn := true);
    }

    /** `setHasSyncedBefore` */
    method SetHasSyncedBefore()
      modifies this`global
      ensures global == old(global).(hasSyncedBefore := true)
    {
      global := global.(hasSyncedBefore := true);
    }

    /** `setLoggedOut` */
    method SetLoggedOut()
      modifies this`global
      ensures global == old(global).(isSignedIn := false, syncStatus := Idle)
    {
      global := global.(isSignedIn := false, syncStatus := Idle);
    }

    /** `setSyncStatus` */
    method SetSyncStatus(status: Status)
      modifies this`global
      ensures global == old(global).(syncStatus := status)
    {
      global := global.(syncStatus := status);
    }

    /** `setUserId` */
    method SetUserId(id: string)
      modifies this`global
      ensures global == old(global).(userId := Some(id))
    {
      global := global.(userId := Some(id));
    }

    /** `removeUserId` */
    method RemoveUserId()
      modifies this`global
      ensures global == old(global).(userId := None)
    {
      global := global.(userId := None);
    }

    /** `saveToLocalStorageIfDirty.pending` */
    method SaveToLocalStorageIfDirtyPending()
      modifies this`global
      ensures global == old(global).(syncStatus := Loading)
    {
      global := global.(syncStatus := Loading);
    }

    /** `saveToLocalStorageIfDirty.fulfilled` */
    method SaveToLocalStorageIfDirtyFulfilled()
      modifies this`global
      ensures global == old(global).(syncStatus := if !old(global).isDirty then Success else Idle)
    {
      global := global.(syncStatus := if !global.isDirty then Success else Idle);
    }

    /** `saveToLocalStorageIfDirty.rejected` */
    method SaveToLocalStorageIfDirtyRejected()
      modifies this`global
      ensures global == old(global).(syncStatus := Error)
    {
      global := global.(syncStatus := Error);
    }

    /** `openSettingsPage.fulfilled` */
    method OpenSettingsPageFulfilled()
      modifies this`global
      ensures global == old(global).(isSettingsPage := true)
    {
      global := global.(isSettingsPage := true);
    }

    /** `replaceState`: the payload becomes the slice state. */
    method ReplaceState(payload: Global)
      modifies this`global
      ensures global == payload
    {
      global := payload;
    }

    /** `dispatch(a)` for an action of the `globalState` slice: runs the reducer `a` names. */
    method Dispatch(a: Action)
      modifies this`global
      ensures global == Reduce(old(global), a)
    {
      match a
      case OpenConflictModal(local, cloud) => OpenConflictModal(local, cloud);
      case CloseConflictModal => CloseConflictModal();
      case OpenRateAndReviewModal => OpenRateAndReviewModal();
      case CloseRateAndReviewModal => CloseRateAndReviewModal();
      case OpenSearchPanel => OpenSearchPanel();
      case CloseSearchPanel => CloseSearchPanel();
      case SetSearchInputText(text) => SetSearchInputText(text);
      case OpenToast => OpenToast();
      case CloseToast => CloseToast();
      case SetToastText(text) => SetToastText(text);
      case CloseSettingsPage => CloseSettingsPage();
      case SetIsNotDirty => SetIsNotDirty();
      case SetIsDirty => SetIsDirty();
      case SetSignedIn => SetSignedIn();
      case SetHasSyncedBefore => SetHasSyncedBefore();
      case SetLoggedOut => SetLoggedOut();
      case SetSyncStatus(status) => SetSyncStatus(status);
      case SetUserId(id) => SetUserId(id);
      case RemoveUserId => RemoveUserId();
      case SaveToLocalStorageIfDirtyPending => SaveToLocalStorageIfDirtyPending();
      case SaveToLocalStorageIfDirtyFulfilled => SaveToLocalStorageIfDirtyFulfilled();
      case SaveToLocalStorageIfDirtyRejected => SaveToLocalStorageIfDirtyRejected();
      case OpenSettingsPageFulfilled => OpenSettingsPageFulfilled();
      case ReplaceState(payload) => ReplaceState(payload);
      case ShowToastFulfilled =>
    }

    /** `replaceState` of the tab-container slice: an opaque wholesale replacement. */
    method ReplaceTabContainerState(t: TabMasterContainer)
      modifies this`tabs
      ensures tabs == t
    {
      tabs := t;
    }

    /** `setPresentStartup` of the undo/redo slice. */
    method SetPresentStartup(p: PresentState)
      modifies this`undoPresent
      ensures undoPresent == Some(p)
    {
      undoPresent := Some(p);
    }

    /** `selectCategory` of the settings-category slice. */
    method SelectCategory(name: string)
      modifies this`selectedCategory
      ensures selectedCategory == Some(name)
    {
      selectedCategory := Some(name);
    }

    /** `setExtensionInstalledTime` of the settings slice, which this model only counts. */
    method SetExtensionInstalledTime()
      modifies this`installedTimeRequests
      ensures installedTimeRequests == old(installedTimeRequests) + 1
    {
      installedTimeRequests := installedTimeRequests + 1;
    }

    /** `setTimeout(closeToast, delay)`. */
    method SetTimeout(delay: int) returns (id: TimerId)
      modifies this`timers, this`nextTimerId
      ensures id == old(nextTimerId) && nextTimerId == id + 1
      ensures timers == old(timers)[id := delay]
    {
      id := nextTimerId;
      nextTimerId := nextTimerId + 1;
      timers := timers[id := delay];
    }

    /** `clearTimeout(id)`: harmless when the timer already ran. */
    method ClearTimeout(id: TimerId)
      modifies this`timers
      ensures timers == old(timers) - {id}
    {
      timers := timers - {id};
    }

    /** Clears the pending toast timer, if `toastTimeout` holds one, and forgets it. */
    method CancelToastTimeout()
      modifies this`timers, this`toastTimeout
      ensures toastTimeout == None
      ensures timers == if old(toastTimeout).Some? then old(timers) - {old(toastTimeout).value} else old(timers)
    {
      if toastTimeout.Some? {
        ClearTimeout(toastTimeout.value);
        toastTimeout := None;
      }
    }

    /** `showToast({toastText, duration})`. */
    method ShowToast(p: ShowToastPayload)
      modifies this`global, this`timers, this`toastTimeout, this`nextTimerId
      ensures State() == ShowToastSpec(old(State()), p)
    {
      var duration := ShowToastDuration(p);
      if p.toastText != "" {
        CancelToastTimeout();
        SetToastText(p.toastText);
        OpenToast();
        var id := SetTimeout(duration);
        toastTimeout := Some(id);
      }
      // `showToast.fulfilled` has an empty case
    }

    /** The timer host runs timer `id`, if it is still pending. */
    method FireTimer(id: TimerId)
      modifies this
      ensures State() == FireTimerSpec(old(State()), id)
    {
      if id in timers {
        timers := timers - {id};
        CloseToast();
      }
    }

    /**
     * The payload creator of `saveToLocalStorageIfDirty`: when dirty, write the
     * tab container and clear the flag. A thrown error is caught; the promise
     * rejects only when the catch handler itself throws.
     */
    method SaveToLocalStorageIfDirtyPayload(outcome: WriteOutcome) returns (rejected: bool)
      modifies this`global, this`storage
      ensures rejected <==> old(global).isDirty && outcome == ThrewNullish
      ensures global == old(global).(isDirty := old(global).isDirty && outcome != Written)
      ensures storage == if old(global).isDirty && outcome == Written then SaveTabs(old(storage), tabs) else old(storage)
    {
      rejected := false;
      if global.isDirty {
        match outcome
        case Written =>
          storage := SaveTabs(storage, tabs);
          SetIsNotDirty();
        case Threw =>
          // caught and logged
        case ThrewNullish =>
          // reading `error.message` of a nullish value throws inside the handler
          rejected := true;
      }
    }

    /** The thunk settles: `rejected` when the payload creator threw, `fulfilled` otherwise. */
    method SaveToLocalStorageIfDirtySettle(rejected: bool)
      modifies this`global
      ensures global == old(global).(syncStatus :=
        if rejected then Error else if !old(global).isDirty then Success else Idle)
    {
      if rejected {
        SaveToLocalStorageIfDirtyRejected();
      } else {
        SaveToLocalStorageIfDirtyFulfilled();
      }
    }

    /** `saveToLocalStorageIfDirty()`, with the outcome of the storage write given. */
    method SaveToLocalStorageIfDirty(outcome: WriteOutcome)
      modifies this`global, this`storage
      ensures State() == FlushSpec(old(State()), outcome)
    {
      SaveToLocalStorageIfDirtyPending();
      var rejected := SaveToLocalStorageIfDirtyPayload(outcome);
      SaveToLocalStorageIfDirtySettle(rejected);
    }

    /** `openSettingsPage(name)`. */
    method OpenSettingsPage(name: Option<string>)
      modifies this
      ensures State() == OpenSettingsPageSpec(old(State()), name)
    {
      if TruthyText(name) {
        SelectCategory(name.value);
      }
      OpenSettingsPageFulfilled();
    }

    /** Runs one event against the store; a sequence of calls follows `Run`. */
    method Handle(e: Event)
      modifies this
      ensures State() == Step(old(State()), e)
    {
      match e
      case Dispatched(a) => Dispatch(a);
      case ShowToastCalled(p) => ShowToast(p);
      case TimerFired(id) => FireTimer(id);
      case FlushCalled(outcome) => SaveToLocalStorageIfDirty(outcome);
      case OpenSettingsPageCalled(name) => OpenSettingsPage(name);
      case TabsReplaced(t) => ReplaceTabContainerState(t);
    }
  }
}
