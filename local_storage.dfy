/**
 * The local-storage gateway as this core sees it. The gateway itself
 * (src/utils/functions/local.ts) is not part of this model: storage is a map
 * from keys to already-parsed values, and JSON (de)serialisation is the
 * identity on those values.
 */
module LocalStorage {
  import opened Wrappers

  /** The tab-container slice's state (TabMasterContainer), opaque to this core. */
  datatype TabMasterContainer = TabMasterContainer(serialized: seq<int>)

  /**
   * A stored date string together with what `isValidDate` and
   * `new Date(..).getTime()` make of it: Some(milliseconds) when it is valid.
   */
  datatype DateText = DateText(time: Option<int>)

  /** The default `''` used for a missing date field; it is not a valid date. */
  const EmptyDateText := DateText(None)

  /** The `settingsData` record as stored; a missing field is None. */
  datatype StoredSettings = StoredSettings(
    extensionInstalledTime: Option<DateText>,
    isUserRatedAndReviewed: Option<bool>,
    isNeverAskAgainToRate: Option<bool>,
    lastReviewRequestTime: Option<DateText>)

  /** What a key of local storage holds once parsed. */
  datatype StoredValue =
    | TabData(tabs: TabMasterContainer)
    | SettingsData(settings: StoredSettings)
    | Malformed

  type Storage = map<string, StoredValue>

  const TabContainerDataKey: string := "tabContainerData"
  const SettingsDataKey: string := "settingsData"

  /** `loadFromLocalStorage('tabContainerData')`: undefined when absent or malformed. */
  function LoadTabs(storage: Storage): (r: Option<TabMasterContainer>)
    ensures r.Some? <==> TabContainerDataKey in storage && storage[TabContainerDataKey].TabData?
  {
    if TabContainerDataKey in storage && storage[TabContainerDataKey].TabData? then
      Some(storage[TabContainerDataKey].tabs)
    else
      None
  }

  /** `loadFromLocalStorage('settingsData')`: undefined when absent or malformed. */
  function LoadSettings(storage: Storage): (r: Option<StoredSettings>)
    ensures r.Some? <==> SettingsDataKey in storage && storage[SettingsDataKey].SettingsData?
  {
    if SettingsDataKey in storage && storage[SettingsDataKey].SettingsData? then
      Some(storage[SettingsDataKey].settings)
    else
      None
  }

  /** `saveToLocalStorage('tabContainerData', tabs)` when the write succeeds. */
  function SaveTabs(storage: Storage, tabs: TabMasterContainer): Storage {
    storage[TabContainerDataKey := TabData(tabs)]
  }

  /** What is saved is what is loaded back. */
  lemma LoadAfterSave(storage: Storage, tabs: TabMasterContainer)
    ensures LoadTabs(SaveTabs(storage, tabs)) == Some(tabs)
  {
  }

  /** Saving the tab data leaves every other key as it was. */
  lemma SaveTabsKeepsOtherKeys(storage: Storage, tabs: TabMasterContainer, k: string)
    requires k != TabContainerDataKey
    ensures k in SaveTabs(storage, tabs) <==> k in storage
    ensures k in storage ==> SaveTabs(storage, tabs)[k] == storage[k]
  {
  }

  /** Writing the tab data never disturbs what is stored under `settingsData`. */
  lemma SaveTabsKeepsSettings(storage: Storage, tabs: TabMasterContainer)
    ensures LoadSettings(SaveTabs(storage, tabs)) == LoadSettings(storage)
  {
  }
}
