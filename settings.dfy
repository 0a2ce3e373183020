/** The settings page: saved preferences read with defaults and written
    back, the toggle and select controls that show them, the export actions
    and the clearing of every stored collection. */
module Settings {
  import opened Storage

  // ---------------------------------------------------------------- reading and writing

  /** `getSavedSetting(key, defaultValue)`: the stored value of the key when
      the settings object has one, the default otherwise. */
  function GetSavedSetting(items: map<string, Value>, key: string, default: SettingValue): (v: SettingValue)
    requires WellTyped(items)
    ensures key in SavedSettings(items) ==> v == SavedSettings(items)[key]
    ensures key !in SavedSettings(items) ==> v == default
  {
    var settings := SavedSettings(items);
    if key in settings then settings[key] else default
  }

  /** The store after `saveSetting(key, value)`: the settings object read
      back (empty when missing) with the one key set, written under
      `journalSettings`. */
  function WithSetting(items: map<string, Value>, key: string, value: SettingValue): (r: map<string, Value>)
    requires WellTyped(items)
    ensures WellTyped(r)
    ensures SettingsKey in r
    ensures forall k :: k in items && k != SettingsKey ==> k in r && r[k] == items[k]
    ensures forall k :: k in r && k != SettingsKey ==> k in items
  {
    items[SettingsKey := SettingsObject(SavedSettings(items)[key := value])]
  }

  /** `saveSetting`. */
  method SaveSetting(st: Store, key: string, value: SettingValue)
    requires st.Valid()
    modifies st
    ensures st.Valid() && st.items == WithSetting(old(st.items), key, value)
  {
    var settings := SavedSettings(st.items);
    settings := settings[key := value];
    st.SetItem(SettingsKey, SettingsObject(settings));
  }

  /** Reading a key right after saving it gives the saved value. */
  lemma GetAfterSave(items: map<string, Value>, key: string, value: SettingValue, default: SettingValue)
    requires WellTyped(items)
    ensures GetSavedSetting(WithSetting(items, key, value), key, default) == value
  {
  }

  /** Saving one key leaves every other setting as it was, present or not. */
  lemma SaveKeepsOtherSettings(items: map<string, Value>, key: string, value: SettingValue,
                               other: string, default: SettingValue)
    requires WellTyped(items) && other != key
    ensures GetSavedSetting(WithSetting(items, key, value), other, default)
            == GetSavedSetting(items, other, default)
    ensures (other in SavedSettings(WithSetting(items, key, value))) == (other in SavedSettings(items))
  {
  }

  /** The later of two saves of the same key is the one that stays. */
  lemma {:induction false} SaveTwiceLastWins(items: map<string, Value>, key: string, v1: SettingValue, v2: SettingValue)
    requires WellTyped(items)
    ensures WithSetting(WithSetting(items, key, v1), key, v2) == WithSetting(items, key, v2)
  {
    assert SavedSettings(WithSetting(items, key, v1))[key := v2] == SavedSettings(items)[key := v2];
  }

  /** Saving the value a key already has changes nothing in the store. */
  lemma {:induction false} SaveSameValueIsNoop(items: map<string, Value>, key: string)
    requires WellTyped(items) && SettingsKey in items && key in SavedSettings(items)
    ensures WithSetting(items, key, SavedSettings(items)[key]) == items
  {
    var s := SavedSettings(items);
    assert s[key := s[key]] == s;
    assert items[SettingsKey := SettingsObject(s)] == items;
  }

  // ---------------------------------------------------------------- display names

  const DisplayNames: map<string, string> := map[
    "autolock" := "Auto-lock",
    "biometric" := "Biometric login",
    "dailyreminder" := "Daily reminders",
    "remindertime" := "Reminder time",
    "darkmode" := "Dark mode",
    "textsize" := "Text size"
  ]

  /** `getSettingDisplayName`: `names[key] || key`. Every mapped name is
      non-empty, so a known key gives its name and any other key itself. */
  function SettingDisplayName(key: string): (name: string)
    ensures key in DisplayNames ==> name == DisplayNames[key]
    ensures key !in DisplayNames ==> name == key
  {
    if key in DisplayNames && DisplayNames[key] != [] then DisplayNames[key] else key
  }

  /** The notice after a toggle click: the setting's name, then whether it
      is now enabled or disabled. */
  function ToggleFeedback(key: string, on: bool): (m: string)
    ensures key in DisplayNames ==> |DisplayNames[key]| <= |m| && m[..|DisplayNames[key]|] == DisplayNames[key]
    ensures key !in DisplayNames ==> |key| <= |m| && m[..|key|] == key
    ensures on ==> |m| >= 8 && m[|m| - 8..] == " enabled"
    ensures !on ==> |m| >= 9 && m[|m| - 9..] == " disabled"
  {
    SettingDisplayName(key) + (if on then " enabled" else " disabled")
  }

  /** The notice after a select change: the setting's name, then "updated". */
  function SelectFeedback(key: string): (m: string)
    ensures key in DisplayNames ==> |DisplayNames[key]| <= |m| && m[..|DisplayNames[key]|] == DisplayNames[key]
    ensures key !in DisplayNames ==> |key| <= |m| && m[..|key|] == key
    ensures |m| >= 8 && m[|m| - 8..] == " updated"
  {
    SettingDisplayName(key) + " updated"
  }

  // ---------------------------------------------------------------- what the controls show

  /** The `loadSavedSettings` rule for a toggle: active unless the stored
      value is exactly `false`. */
  function ToggleActive(settings: map<string, SettingValue>, key: string): (on: bool)
    ensures !on <==> key in settings && settings[key] == Flag(false)
  {
    !(key in settings && settings[key] == Flag(false))
  }

  /** A toggle whose setting was never saved is shown active. */
  lemma MissingToggleIsActive(items: map<string, Value>, key: string)
    requires WellTyped(items)
    requires key !in SavedSettings(items)
    ensures ToggleActive(SavedSettings(items), key)
  {
  }

  /** A click's saved state is what the toggle shows when the page loads again. */
  lemma ToggleReloadsSavedState(items: map<string, Value>, key: string, on: bool)
    requires WellTyped(items)
    ensures ToggleActive(SavedSettings(WithSetting(items, key, Flag(on))), key) == on
  {
  }

  /** The text a select takes when a stored value is assigned to it: a
      choice is its own text, a boolean is coerced to "true" or "false". */
  function ValueText(v: SettingValue): (t: string)
    ensures v.Choice? ==> t == v.text
  {
    match v
    case Choice(t) => t
    case Flag(b) => if b then "true" else "false"
  }

  /** The `loadSavedSettings` rule for a select: only a truthy stored value
      replaces what the select shows. */
  function SelectAfterLoad(settings: map<string, SettingValue>, key: string, current: string): (t: string)
    ensures key in settings && Truthy(settings[key]) ==> t == ValueText(settings[key])
    ensures !(key in settings && Truthy(settings[key])) ==> t == current
  {
    if key in settings && Truthy(settings[key]) then ValueText(settings[key]) else current
  }

  /** The `initializeSelectInputs` rule: the stored value of the select's
      setting if there is one, its current value otherwise. */
  function SelectAfterInit(items: map<string, Value>, key: string, current: string): (t: string)
    requires WellTyped(items)
    ensures key in SavedSettings(items) ==> t == ValueText(SavedSettings(items)[key])
    ensures key !in SavedSettings(items) ==> t == current
  {
    ValueText(GetSavedSetting(items, key, Choice(current)))
  }

  /** On page load a select runs both rules; together it shows the stored
      value whenever there is one (even an empty text), and keeps its HTML
      value otherwise. */
  lemma SelectShowsStoredValue(items: map<string, Value>, key: string, current: string)
    requires WellTyped(items)
    ensures var settings := SavedSettings(items);
            SelectAfterLoad(settings, key, SelectAfterInit(items, key, current))
            == if key in settings then ValueText(settings[key]) else current
  {
  }

  // ---------------------------------------------------------------- clearing

  /** The keys `clearAllData` removes, in its order. */
  const KeysToRemove: seq<string> := [
    JournalEntriesKey, MoodHistoryKey, CbtHistoryKey, CompletedKey,
    DraftKey, TodayMoodKey, SettingsKey
  ]

  const RemovedKeys: set<string> := set k | k in KeysToRemove

  /** The removal of the listed keys, as one step. */
  function Cleared(items: map<string, Value>): (r: map<string, Value>)
    ensures forall k :: k in r <==> k in items && k !in KeysToRemove
    ensures forall k :: k in r ==> r[k] == items[k]
  {
    items - RemovedKeys
  }

  /** `clearAllData`'s storage part: `removeItem` on each listed key. */
  method ClearAllData(st: Store)
    requires st.Valid()
    modifies st
    ensures st.Valid() && st.items == Cleared(old(st.items))
  {
    var i := 0;
    while i < |KeysToRemove|
      invariant 0 <= i <= |KeysToRemove|
      invariant st.items == old(st.items) - (set j | 0 <= j < i :: KeysToRemove[j])
      invariant st.Valid()
    {
      st.RemoveItem(KeysToRemove[i]);
      assert (set j | 0 <= j < i + 1 :: KeysToRemove[j]) == (set j | 0 <= j < i :: KeysToRemove[j]) + {KeysToRemove[i]};
      i := i + 1;
    }
    assert (set j | 0 <= j < |KeysToRemove| :: KeysToRemove[j]) == RemovedKeys;
  }

  /** Clearing twice is clearing once. */
  lemma ClearIdempotent(items: map<string, Value>)
    ensures Cleared(Cleared(items)) == Cleared(items)
  {
    assert Cleared(Cleared(items)).Keys == Cleared(items).Keys;
  }

  /** After clearing, every collection reads as empty, there is no draft or
      mood of the day, and every setting reads as its default. */
  lemma ClearedReadsEmpty(items: map<string, Value>, key: string, default: SettingValue)
    ensures WellTyped(Cleared(items))
    ensures JournalEntries(Cleared(items)) == [] && CbtHistory(Cleared(items)) == []
    ensures CompletedPrompts(Cleared(items)) == [] && SavedSettings(Cleared(items)) == map[]
    ensures DraftKey !in Cleared(items) && TodayMoodKey !in Cleared(items) && MoodHistoryKey !in Cleared(items)
    ensures GetSavedSetting(Cleared(items), key, default) == default
  {
  }

  /** The toggles `clearAllData` leaves on the page, as written: all off. */
  function TogglesAfterClearAsWritten(active: map<string, bool>): (r: map<string, bool>)
    ensures r.Keys == active.Keys
    ensures forall k :: k in r ==> !r[k]
  {
    map k | k in active :: false
  }

  /** As written, after clearing, every toggle shows the opposite of what a
      reload of the page shows for the now empty settings. */
  lemma ClearAsWrittenOutOfSync(items: map<string, Value>, active: map<string, bool>, key: string)
    requires key in active
    ensures WellTyped(Cleared(items))
    ensures TogglesAfterClearAsWritten(active)[key] != ToggleActive(SavedSettings(Cleared(items)), key)
  {
    ClearedReadsEmpty(items, key, Flag(true));
  }

  /** The toggles as `loadSavedSettings` shows them for the given settings. */
  function TogglesOnLoad(active: map<string, bool>, settings: map<string, SettingValue>): (r: map<string, bool>)
    ensures r.Keys == active.Keys
    ensures forall k :: k in r ==> r[k] == ToggleActive(settings, k)
  {
    map k | k in active :: ToggleActive(settings, k)
  }

  /** With the corrected reset, after clearing every toggle is active, which
      is what a reload shows. */
  lemma ClearKeepsTogglesInSync(items: map<string, Value>, active: map<string, bool>)
    ensures WellTyped(Cleared(items))
    ensures forall k :: k in TogglesOnLoad(active, SavedSettings(Cleared(items))) ==>
              TogglesOnLoad(active, SavedSettings(Cleared(items)))[k]
  {
    ClearedReadsEmpty(items, "", Flag(true));
  }

  // ---------------------------------------------------------------- actions

  datatype FeedbackKind = Info | Success | Warning | Error

  /** What an action shows: nothing, a notice, or a download of the given
      data under a file name, followed by its success notice. */
  datatype Outcome =
    | Nothing
    | Notice(message: string, kind: FeedbackKind)
    | Download(fileName: string, data: Value, message: string)

  /** `exportJournalEntries`: a warning and no download when there are no
      entries. */
  function ExportJournalEntries(items: map<string, Value>): (o: Outcome)
    requires WellTyped(items)
    ensures o.Notice? <==> JournalEntries(items) == []
    ensures o.Notice? ==> o == Notice("No journal entries to export", Warning)
    ensures o.Download? ==>
              && o.fileName == "journal-entries.json"
              && o.data == JournalList(JournalEntries(items))
              && o.message == "Journal entries exported successfully"
    ensures !o.Nothing?
  {
    var entries := JournalEntries(items);
    if |entries| == 0 then Notice("No journal entries to export", Warning)
    else Download("journal-entries.json", JournalList(entries), "Journal entries exported successfully")
  }

  /** `exportCBTEntries`: a warning and no download when the history is empty. */
  function ExportCbtEntries(items: map<string, Value>): (o: Outcome)
    requires WellTyped(items)
    ensures o.Notice? <==> CbtHistory(items) == []
    ensures o.Notice? ==> o == Notice("No CBT entries to export", Warning)
    ensures o.Download? ==>
              && o.fileName == "cbt-entries.json"
              && o.data == CbtList(CbtHistory(items))
              && o.message == "CBT entries exported successfully"
    ensures !o.Nothing?
  {
    var entries := CbtHistory(items);
    if |entries| == 0 then Notice("No CBT entries to export", Warning)
    else Download("cbt-entries.json", CbtList(entries), "CBT entries exported successfully")
  }

  /** A download carries exactly the stored collection. */
  lemma ExportCarriesStoredData(items: map<string, Value>)
    requires WellTyped(items)
    ensures JournalEntriesKey in items && items[JournalEntriesKey].entries != [] ==>
              ExportJournalEntries(items).data == items[JournalEntriesKey]
    ensures CbtHistoryKey in items && items[CbtHistoryKey].history != [] ==>
              ExportCbtEntries(items).data == items[CbtHistoryKey]
  {
  }

  // ---------------------------------------------------------------- the page

  /** The controls of the settings page. `active` tells, per toggle setting,
      whether the toggle has the `active` class; `selected` is the value of
      each select and `firstOption` the value of its first option. */
  class SettingsPage {
    var active: map<string, bool>
    var selected: map<string, string>
    var firstOption: map<string, string>

    ghost predicate Valid()
      reads this
    {
      selected.Keys == firstOption.Keys
    }

    /** `DOMContentLoaded`: the toggles and selects are initialised from the
        store and then `loadSavedSettings` runs. The arguments are the
        controls as the page's HTML declares them. */
    constructor Open(st: Store, htmlActive: map<string, bool>, htmlSelected: map<string, string>,
                     options: map<string, string>)
      requires st.Valid() && htmlSelected.Keys == options.Keys
      ensures Valid() && firstOption == options
      ensures active == TogglesOnLoad(htmlActive, SavedSettings(st.items))
      ensures selected == map k | k in htmlSelected ::
                if k in SavedSettings(st.items) then ValueText(SavedSettings(st.items)[k])
                else htmlSelected[k]
    {
      active := htmlActive;
      selected := htmlSelected;
      firstOption := options;
      new;
      InitializeToggleSwitches(st);
      InitializeSelectInputs(st);
      LoadSavedSettings(st);
      forall k | k in htmlSelected
        ensures SelectAfterLoad(SavedSettings(st.items), k, SelectAfterInit(st.items, k, htmlSelected[k]))
                == if k in SavedSettings(st.items) then ValueText(SavedSettings(st.items)[k]) else htmlSelected[k]
      {
        SelectShowsStoredValue(st.items, k, htmlSelected[k]);
      }
    }

    /** `initializeToggleSwitches`' load step: a toggle whose saved setting
        (true when missing) is truthy gets the `active` class; the others
        keep theirs. */
    method InitializeToggleSwitches(st: Store)
      requires st.Valid()
      modifies this
      ensures active == map k | k in old(active) ::
                old(active)[k] || Truthy(GetSavedSetting(st.items, k, Flag(true)))
      ensures selected == old(selected) && firstOption == old(firstOption)
    {
      active := map k | k in active :: active[k] || Truthy(GetSavedSetting(st.items, k, Flag(true)));
    }

    /** `initializeSelectInputs`' load step. */
    method InitializeSelectInputs(st: Store)
      requires st.Valid()
      modifies this
      ensures selected == map k | k in old(selected) :: SelectAfterInit(st.items, k, old(selected)[k])
      ensures active == old(active) && firstOption == old(firstOption)
    {
      selected := map k | k in selected :: SelectAfterInit(st.items, k, selected[k]);
    }

    /** `loadSavedSettings`. */
    method LoadSavedSettings(st: Store)
      requires st.Valid()
      modifies this
      ensures active == TogglesOnLoad(old(active), SavedSettings(st.items))
      ensures selected == map k | k in old(selected) ::
                SelectAfterLoad(SavedSettings(st.items), k, old(selected)[k])
      ensures firstOption == old(firstOption)
    {
      var settings := SavedSettings(st.items);
      active := TogglesOnLoad(active, settings);
      selected := map k | k in selected :: SelectAfterLoad(settings, k, selected[k]);
    }

    /** A click on a toggle: flip its `active` class and save the new state. */
    method ToggleClick(st: Store, key: string) returns (message: string)
      requires Valid() && st.Valid() && key in active
      modifies this, st
      ensures Valid() && st.Valid()
      ensures active == old(active)[key := !old(active)[key]]
      ensures selected == old(selected) && firstOption == old(firstOption)
      ensures st.items == WithSetting(old(st.items), key, Flag(active[key]))
      ensures message == ToggleFeedback(key, active[key])
    {
      active := active[key := !active[key]];
      var newState := active[key];
      SaveSetting(st, key, Flag(newState));
      message := ToggleFeedback(key, newState);
    }

    /** A `change` of a select: save the chosen value. */
    method SelectChange(st: Store, key: string, value: string) returns (message: string)
      requires Valid() && st.Valid() && key in selected
      modifies this, st
      ensures Valid() && st.Valid()
      ensures selected == old(selected)[key := value]
      ensures active == old(active) && firstOption == old(firstOption)
      ensures st.items == WithSetting(old(st.items), key, Choice(value))
      ensures message == SelectFeedback(key)
    {
      selected := selected[key := value];
      SaveSetting(st, key, Choice(value));
      message := SelectFeedback(key);
    }

    /** `clearAllData`: the listed keys are removed, every toggle loses its
        `active` class and every select goes back to its first option. */
    method ClearAll(st: Store)
      requires Valid() && st.Valid()
      modifies this, st
      ensures Valid() && st.Valid()
      ensures st.items == Cleared(old(st.items))
      ensures active == TogglesAfterClearAsWritten(old(active))
      ensures selected == firstOption && firstOption == old(firstOption)
    {
      ClearAllData(st);
      active := TogglesAfterClearAsWritten(active);
      selected := firstOption;
    }

    /** `clearAllData` with the corrected reset: the toggles show what a
        reload shows for the cleared store, that is, all active. */
    method ClearAllCorrected(st: Store)
      requires Valid() && st.Valid()
      modifies this, st
      ensures Valid() && st.Valid()
      ensures st.items == Cleared(old(st.items))
      ensures active == TogglesOnLoad(old(active), SavedSettings(st.items))
      ensures forall k :: k in active ==> active[k]
      ensures selected == firstOption && firstOption == old(firstOption)
    {
      ClearAllData(st);
      ClearKeepsTogglesInSync(old(st.items), active);
      active := TogglesOnLoad(active, SavedSettings(st.items));
      selected := firstOption;
    }

    /** `handleAction`, with `confirmed` the user's answer to the confirmation
        dialog of "clear-all". Any other action does nothing. */
    method HandleAction(st: Store, action: string, confirmed: bool) returns (o: Outcome)
      requires Valid() && st.Valid()
      modifies this, st
      ensures Valid() && st.Valid()
      ensures action == "export-journal" ==> o == ExportJournalEntries(old(st.items))
      ensures action == "export-cbt" ==> o == ExportCbtEntries(old(st.items))
      ensures action == "clear-all" && confirmed ==>
                && o == Notice("All data cleared", Success)
                && st.items == Cleared(old(st.items))
                && active == TogglesAfterClearAsWritten(old(active))
                && selected == firstOption
      ensures !(action == "clear-all" && confirmed) ==>
                st.items == old(st.items) && active == old(active) && selected == old(selected)
      ensures action !in {"export-journal", "export-cbt", "clear-all"} ==> o == Nothing
      ensures action == "clear-all" && !confirmed ==> o == Nothing
      ensures firstOption == old(firstOption)
    {
      if action == "export-journal" {
        o := ExportJournalEntries(st.items);
      } else if action == "export-cbt" {
        o := ExportCbtEntries(st.items);
      } else if action == "clear-all" {
        if confirmed {
          ClearAll(st);
          o := Notice("All data cleared", Success);
        } else {
          o := Nothing;
        }
      } else {
        o := Nothing;
      }
    }
  }

  /** Two clicks on a toggle that shows its saved state put page and store
      back as they were. */
  lemma TwoClicksRestore(items: map<string, Value>, key: string, on: bool)
    requires WellTyped(items) && SettingsKey in items
    requires key in SavedSettings(items) && SavedSettings(items)[key] == Flag(on)
    ensures WithSetting(WithSetting(items, key, Flag(!on)), key, Flag(on)) == items
  {
    SaveTwiceLastWins(items, key, Flag(!on), Flag(on));
    SaveSameValueIsNoop(items, key);
  }
}
