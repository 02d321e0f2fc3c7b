/**
 * `displayToast`: the one helper of the external-services module that is
 * still live. It chooses the text (the error's message, a generic text, or
 * the caller's text) and the duration, and dispatches `showToast`.
 */
module External {
  import opened Wrappers
  import opened GlobalStateThunks

  /**
   * A truthy `error` argument. Only its `message` property is read; None is a
   * message that is undefined (or otherwise not a string).
   */
  datatype ErrorValue = ErrorValue(message: Option<string>)

  const GenericErrorText: string := "An error occurred."
  const DisplayToastDefaultDuration: int := 3000

  /**
   * `duration || 3000`: an undefined duration and a zero duration alike
   * become 3000, so the duration handed to `showToast` is never undefined.
   */
  function ToastDuration(duration: Option<int>): (d: int)
    ensures d != 0
    ensures duration.Some? && duration.value != 0 ==> d == duration.value
    ensures duration.None? || duration.value == 0 ==> d == DisplayToastDefaultDuration
  {
    if duration.Some? && duration.value != 0 then duration.value else DisplayToastDefaultDuration
  }

  /**
   * `error ? error.message || 'An error occurred.' : text`; a falsy `error`
   * (undefined, null) is None.
   */
  function ToastText(text: string, error: Option<ErrorValue>): (t: string)
    ensures error.None? ==> t == text
    ensures error.Some? ==> t != ""
    ensures error.Some? && TruthyText(error.value.message) ==> t == error.value.message.value
    ensures error.Some? && !TruthyText(error.value.message) ==> t == GenericErrorText
  {
    if error.Some? then
      if TruthyText(error.value.message) then error.value.message.value else GenericErrorText
    else
      text
  }

  /** The payload `displayToast` dispatches `showToast` with. */
  function DisplayToastPayload(text: string, duration: Option<int>, error: Option<ErrorValue>): (p: ShowToastPayload)
    ensures p.toastText == ToastText(text, error)
    ensures p.duration == Some(ToastDuration(duration))
  {
    ShowToastPayload(ToastText(text, error), Some(ToastDuration(duration)))
  }

  /** `displayToast(dispatch, text, duration, error)`. */
  method DisplayToast(store: Store, text: string, duration: Option<int>, error: Option<ErrorValue>)
    modifies store`global, store`timers, store`toastTimeout, store`nextTimerId
    ensures store.State() == ShowToastSpec(old(store.State()), DisplayToastPayload(text, duration, error))
  {
    store.ShowToast(DisplayToastPayload(text, duration, error));
  }

  /**
   * The `showToast` default of 5000 ms is never reached through `displayToast`:
   * the duration is the caller's when non-zero, 3000 otherwise.
   */
  lemma DisplayToastOverridesShowToastDefault(text: string, duration: Option<int>, error: Option<ErrorValue>)
    ensures ShowToastDuration(DisplayToastPayload(text, duration, error)) ==
      (if duration.Some? && duration.value != 0 then duration.value else DisplayToastDefaultDuration)
  {
  }

  /** An error is always shown: the toast opens with a non-empty text, dismissed after the chosen duration. */
  lemma ErrorIsAlwaysShown(w: World, text: string, duration: Option<int>, error: Option<ErrorValue>)
    requires error.Some?
    ensures var r := ShowToastSpec(w, DisplayToastPayload(text, duration, error));
      r.global.isToastOpen && r.global.toastText == ToastText(text, error) && r.global.toastText != "" &&
      r.toastTimeout == Some(w.nextTimerId) && r.timers[w.nextTimerId] == ToastDuration(duration)
  {
    ShowToastEffect(w, DisplayToastPayload(text, duration, error));
  }

  /** Without an error, an empty text shows nothing and schedules nothing. */
  lemma EmptyTextWithoutErrorIsNoOp(w: World, duration: Option<int>)
    ensures ShowToastSpec(w, DisplayToastPayload("", duration, None)) == w
  {
  }

  /** When the invariant on the dismissal timer holds, `displayToast` leaves exactly one timer pending or none. */
  lemma DisplayToastKeepsOneTimer(w: World, text: string, duration: Option<int>, error: Option<ErrorValue>)
    requires ToastTimerInv(w)
    ensures ToastTimerInv(ShowToastSpec(w, DisplayToastPayload(text, duration, error)))
    ensures ToastText(text, error) != "" ==>
      ShowToastSpec(w, DisplayToastPayload(text, duration, error)).timers == map[w.nextTimerId := ToastDuration(duration)]
  {
    ShowToastKeepsOneTimer(w, DisplayToastPayload(text, duration, error));
  }
}
