/**
 * The startup effect of the `App` component: ask the user to rate and review
 * the extension when the time has come, then hydrate the tab container and
 * the undo history from local storage.
 *
 * The clock (`new Date().getTime()`) is the parameter `now`, in milliseconds.
 */
module App {
  import opened Wrappers
  import opened LocalStorage
  import opened GlobalStateSlice
  import opened GlobalStateThunks

  const OneDayInMs: int := 24 * 60 * 60 * 1000
  const ThreeDaysInMs: int := 3 * OneDayInMs

  /** The settings record after destructuring with its defaults. */
  datatype Settings = Settings(
    extensionInstalledTime: DateText,
    isUserRatedAndReviewed: bool,
    isNeverAskAgainToRate: bool,
    lastReviewRequestTime: DateText)

  /** A destructuring default: it applies only when the field is undefined. */
  function OrElse<T>(o: Option<T>, d: T): T {
    if o.Some? then o.value else d
  }

  /** `loadFromLocalStorage('settingsData') || {}`, destructured with `''` and `false` as the defaults. */
  function WithDefaults(loaded: Option<StoredSettings>): (s: Settings)
    ensures loaded.None? ==> s == Settings(EmptyDateText, false, false, EmptyDateText)
    ensures loaded.Some? ==>
      (loaded.value.extensionInstalledTime.Some? ==> s.extensionInstalledTime == loaded.value.extensionInstalledTime.value) &&
      (loaded.value.extensionInstalledTime.None? ==> s.extensionInstalledTime == EmptyDateText) &&
      (loaded.value.isUserRatedAndReviewed.Some? ==> s.isUserRatedAndReviewed == loaded.value.isUserRatedAndReviewed.value) &&
      (loaded.value.isUserRatedAndReviewed.None? ==> !s.isUserRatedAndReviewed) &&
      (loaded.value.isNeverAskAgainToRate.Some? ==> s.isNeverAskAgainToRate == loaded.value.isNeverAskAgainToRate.value) &&
      (loaded.value.isNeverAskAgainToRate.None? ==> !s.isNeverAskAgainToRate) &&
      (loaded.value.lastReviewRequestTime.Some? ==> s.lastReviewRequestTime == loaded.value.lastReviewRequestTime.value) &&
      (loaded.value.lastReviewRequestTime.None? ==> s.lastReviewRequestTime == EmptyDateText)
  {
    if loaded.None? then
      Settings(EmptyDateText, false, false, EmptyDateText)
    else
      var v := loaded.value;
      Settings(OrElse(v.extensionInstalledTime, EmptyDateText),
               OrElse(v.isUserRatedAndReviewed, false),
               OrElse(v.isNeverAskAgainToRate, false),
               OrElse(v.lastReviewRequestTime, EmptyDateText))
  }

  /** What `askUserToRateAndReview` ends up dispatching. */
  datatype Decision =
    | NoAction
    | RecordInstallTime   // `setExtensionInstalledTime()`
    | OpenModal           // `openRateAndReviewModal()`

  // The policy stated declaratively, independently of the order of the early returns.

  /** The user rated already or asked never to be asked again. */
  predicate OptedOut(s: Settings) {
    s.isUserRatedAndReviewed || s.isNeverAskAgainToRate
  }

  /** A valid install time at least a day in the past. */
  predicate GracePeriodOver(s: Settings, now: int) {
    s.extensionInstalledTime.time.Some? && now - s.extensionInstalledTime.time.value >= OneDayInMs
  }

  /** No valid earlier request, or one at least three days in the past. */
  predicate CooldownOver(s: Settings, now: int) {
    s.lastReviewRequestTime.time.None? || now - s.lastReviewRequestTime.time.value >= ThreeDaysInMs
  }

  /** The early-return chain of `askUserToRateAndReview`, on the stored settings and the clock. */
  function RateAndReviewDecision(loaded: Option<StoredSettings>, now: int): (d: Decision)
    ensures d == RecordInstallTime <==>
      !OptedOut(WithDefaults(loaded)) && WithDefaults(loaded).extensionInstalledTime.time.None?
    ensures d == OpenModal <==>
      !OptedOut(WithDefaults(loaded)) && GracePeriodOver(WithDefaults(loaded), now) &&
      CooldownOver(WithDefaults(loaded), now)
  {
    var s := WithDefaults(loaded);
    if s.isUserRatedAndReviewed || s.isNeverAskAgainToRate then
      NoAction
    else if s.extensionInstalledTime.time.None? then
      RecordInstallTime
    else if now - s.extensionInstalledTime.time.value < OneDayInMs then
      NoAction
    else if s.lastReviewRequestTime.time.Some? && now - s.lastReviewRequestTime.time.value < ThreeDaysInMs then
      NoAction
    else
      OpenModal
  }

  /** The startup effect on the whole state: the review prompt, then hydration; storage is only read. */
  function StartupSpec(w: World, now: int): World {
    var asked :=
      match RateAndReviewDecision(LoadSettings(w.storage), now)
      case NoAction => w
      case RecordInstallTime => w.(installedTimeRequests := w.installedTimeRequests + 1)
      case OpenModal => w.(global := w.global.(isRateAndReviewModalOpen := true));
    match LoadTabs(w.storage)
    case Some(t) => asked.(tabs := t, undoPresent := Some(PresentState(t)))
    case None => asked
  }

  /** `askUserToRateAndReview()`. */
  method AskUserToRateAndReview(store: Store, now: int)
    modifies store`global, store`installedTimeRequests
    ensures var d := RateAndReviewDecision(LoadSettings(old(store.storage)), now);
      store.global == (if d == OpenModal then old(store.global).(isRateAndReviewModalOpen := true) else old(store.global)) &&
      store.installedTimeRequests == old(store.installedTimeRequests) + (if d == RecordInstallTime then 1 else 0)
  {
    var d := RateAndReviewDecision(LoadSettings(store.storage), now);
    match d
    case NoAction =>
    case RecordInstallTime => store.SetExtensionInstalledTime();
    case OpenModal => store.OpenRateAndReviewModal();
  }

  /** The `useEffect` run once on mount. */
  method Startup(store: Store, now: int)
    modifies store`global, store`installedTimeRequests, store`tabs, store`undoPresent
    ensures store.State() == StartupSpec(old(store.State()), now)
  {
    AskUserToRateAndReview(store, now);
    var loaded := LoadTabs(store.storage);
    if loaded.Some? {
      store.ReplaceTabContainerState(loaded.value);
      store.SetPresentStartup(PresentState(loaded.value));
    }
  }

  /** A user who rated, or who asked never to be asked, is never prompted and never re-registered. */
  lemma OptedOutIsNeverAsked(loaded: Option<StoredSettings>, now: int)
    requires loaded.Some?
    requires loaded.value.isUserRatedAndReviewed == Some(true) || loaded.value.isNeverAskAgainToRate == Some(true)
    ensures RateAndReviewDecision(loaded, now) == NoAction
  {
  }

  /** With no settings stored, the first run records the install time and shows no prompt. */
  lemma FirstRunRecordsInstallTime(w: World, now: int)
    requires LoadSettings(w.storage).None?
    ensures RateAndReviewDecision(LoadSettings(w.storage), now) == RecordInstallTime
    ensures StartupSpec(w, now).installedTimeRequests == w.installedTimeRequests + 1
    ensures StartupSpec(w, now).global == w.global
  {
  }

  /** The grace period ends exactly one day after installation. */
  lemma GracePeriodBoundary(inst: int)
    ensures RateAndReviewDecision(Some(StoredSettings(Some(DateText(Some(inst))), None, None, None)), inst + OneDayInMs) == OpenModal
    ensures RateAndReviewDecision(Some(StoredSettings(Some(DateText(Some(inst))), None, None, None)), inst + OneDayInMs - 1) == NoAction
  {
  }

  /** After a prompt, the next one waits exactly three days. */
  lemma CooldownBoundary(inst: int, last: int)
    requires last >= inst + OneDayInMs
    ensures RateAndReviewDecision(Some(StoredSettings(Some(DateText(Some(inst))), None, None, Some(DateText(Some(last))))), last + ThreeDaysInMs) == OpenModal
    ensures RateAndReviewDecision(Some(StoredSettings(Some(DateText(Some(inst))), None, None, Some(DateText(Some(last))))), last + ThreeDaysInMs - 1) == NoAction
  {
  }

  /** An invalid last-request date (the default `''` included) imposes no cooldown. */
  lemma InvalidLastRequestImposesNoCooldown(inst: int, now: int)
    requires now - inst >= OneDayInMs
    ensures RateAndReviewDecision(Some(StoredSettings(Some(DateText(Some(inst))), None, None, Some(EmptyDateText))), now) == OpenModal
  {
  }

  /** Installed half a day ago: inside the grace period. Installed two days ago, asked a day ago: inside the cooldown. Installed ten days ago, never asked: prompt. */
  lemma ReviewPromptExamples(now: int)
    ensures RateAndReviewDecision(Some(StoredSettings(Some(DateText(Some(now - OneDayInMs / 2))), None, None, None)), now) == NoAction
    ensures RateAndReviewDecision(Some(StoredSettings(Some(DateText(Some(now - 2 * OneDayInMs))), Some(false), Some(false),
                                                      Some(DateText(Some(now - OneDayInMs))))), now) == NoAction
    ensures RateAndReviewDecision(Some(StoredSettings(Some(DateText(Some(now - 10 * OneDayInMs))), None, None, None)), now) == OpenModal
  {
  }

  /** Once the prompt is due, it stays due as time goes on (until the settings change). */
  lemma PromptStaysDue(loaded: Option<StoredSettings>, now: int, later: int)
    requires now <= later
    requires RateAndReviewDecision(loaded, now) == OpenModal
    ensures RateAndReviewDecision(loaded, later) == OpenModal
  {
  }

  /** Whether the install time is recorded does not depend on the clock. */
  lemma RecordingIgnoresClock(loaded: Option<StoredSettings>, now: int, other: int)
    ensures (RateAndReviewDecision(loaded, now) == RecordInstallTime) == (RateAndReviewDecision(loaded, other) == RecordInstallTime)
  {
  }

  /**
   * Startup hydrates the tab container and the undo history's present from
   * the stored tab data when there is some, and leaves them alone otherwise;
   * it never writes storage and never touches the toast or its timers.
   */
  lemma StartupHydrates(w: World, now: int)
    ensures var r := StartupSpec(w, now);
      r.storage == w.storage && r.timers == w.timers && r.toastTimeout == w.toastTimeout &&
      r.nextTimerId == w.nextTimerId && r.selectedCategory == w.selectedCategory
    ensures var r := StartupSpec(w, now);
      LoadTabs(w.storage).Some? ==>
        r.tabs == LoadTabs(w.storage).value && r.undoPresent == Some(PresentState(r.tabs)) && Persisted(r)
    ensures var r := StartupSpec(w, now);
      LoadTabs(w.storage).None? ==> r.tabs == w.tabs && r.undoPresent == w.undoPresent
  {
  }

  /**
   * Startup makes the dirty flag honest exactly when it finds tab data in
   * storage (or the flag was already set): with nothing stored, a clean store
   * leaves startup with a clear flag and no stored tabs.
   */
  lemma StartupFlagHonesty(w: World, now: int)
    ensures DirtyFlagHonest(StartupSpec(w, now)) <==> LoadTabs(w.storage).Some? || w.global.isDirty
  {
    StartupHydrates(w, now);
    StartupTouchesOnlyTheModal(w, now);
  }

  /** Apart from the rate-and-review modal, startup leaves the `globalState` slice as it was. */
  lemma StartupTouchesOnlyTheModal(w: World, now: int)
    ensures Unchanged(w.global, StartupSpec(w, now).global, {IsRateAndReviewModalOpen})
    ensures StartupSpec(w, now).global.isRateAndReviewModalOpen <==>
      w.global.isRateAndReviewModalOpen || RateAndReviewDecision(LoadSettings(w.storage), now) == OpenModal
  {
    if RateAndReviewDecision(LoadSettings(w.storage), now) == OpenModal {
      assert StartupSpec(w, now).global == w.global.(isRateAndReviewModalOpen := true);
    } else {
      assert StartupSpec(w, now).global == w.global;
    }
  }
}
