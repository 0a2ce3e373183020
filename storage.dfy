/** The records the pages keep and the browser key-value store that holds
    them. Stored values are modelled already decoded: the JSON text that
    `JSON.stringify`/`JSON.parse` pass through is not part of this model. */
module Storage {

  /** A saved journal entry. `id` is the millisecond clock reading at save
      time, `date` the calendar day number of the save and `formattedDate`
      the long US-English date and time text of the save. */
  datatype JournalEntry = JournalEntry(
    id: int,
    title: string,
    content: string,
    mood: string,
    wordCount: nat,
    isDraft: bool,
    date: int,
    formattedDate: string)

  /** A saved CBT reflection. `date` is the calendar day number of the save;
      the streak compares entries by this day. */
  datatype CbtEntry = CbtEntry(
    id: int,
    date: int,
    technique: string,
    category: string,
    prompt: string,
    response: string,
    wordCount: nat)

  /** A value in the settings object: toggles store booleans, selects store
      the chosen option's text. */
  datatype SettingValue = Flag(on: bool) | Choice(text: string)

  /** JavaScript truthiness of a setting value. */
  predicate Truthy(v: SettingValue) {
    match v
    case Flag(b) => b
    case Choice(t) => t != []
  }

  /** A decoded stored value. `Raw` stands for what the core never writes or
      reads (the mood history). */
  datatype Value =
    | JournalList(entries: seq<JournalEntry>)
    | CbtList(history: seq<CbtEntry>)
    | IdList(ids: seq<string>)
    | Text(text: string)
    | SettingsObject(settings: map<string, SettingValue>)
    | Raw(raw: string)

  const JournalEntriesKey := "journalEntries"
  const MoodHistoryKey := "moodHistory"
  const CbtHistoryKey := "cbtHistory"
  const CompletedKey := "completedCBTPrompts"
  const DraftKey := "journal-draft"
  const TodayMoodKey := "todayMood"
  const SettingsKey := "journalSettings"

  /** Every key the pages write holds the kind of value they write there. */
  predicate WellTyped(items: map<string, Value>) {
    && (JournalEntriesKey in items ==> items[JournalEntriesKey].JournalList?)
    && (CbtHistoryKey in items ==> items[CbtHistoryKey].CbtList?)
    && (CompletedKey in items ==> items[CompletedKey].IdList?)
    && (DraftKey in items ==> items[DraftKey].Text?)
    && (TodayMoodKey in items ==> items[TodayMoodKey].Text?)
    && (SettingsKey in items ==> items[SettingsKey].SettingsObject?)
  }

  // `JSON.parse(localStorage.getItem(key) || '[]')` and `|| '{}'`: a missing
  // key reads as the empty collection.

  function JournalEntries(items: map<string, Value>): (r: seq<JournalEntry>)
    requires WellTyped(items)
    ensures JournalEntriesKey !in items ==> r == []
  {
    if JournalEntriesKey in items then items[JournalEntriesKey].entries else []
  }

  function CbtHistory(items: map<string, Value>): (r: seq<CbtEntry>)
    requires WellTyped(items)
    ensures CbtHistoryKey !in items ==> r == []
  {
    if CbtHistoryKey in items then items[CbtHistoryKey].history else []
  }

  function CompletedPrompts(items: map<string, Value>): (r: seq<string>)
    requires WellTyped(items)
    ensures CompletedKey !in items ==> r == []
  {
    if CompletedKey in items then items[CompletedKey].ids else []
  }

  function SavedSettings(items: map<string, Value>): (r: map<string, SettingValue>)
    requires WellTyped(items)
    ensures SettingsKey !in items ==> r == map[]
  {
    if SettingsKey in items then items[SettingsKey].settings else map[]
  }

  /** The browser's `localStorage` for the site's origin. */
  class Store {
    var items: map<string, Value>

    ghost predicate Valid()
      reads this
    {
      WellTyped(items)
    }

    constructor ()
      ensures Valid() && items == map[]
    {
      items := map[];
    }

    /** `localStorage.setItem(key, value)`. */
    method SetItem(key: string, value: Value)
      modifies this
      ensures items == old(items)[key := value]
    {
      items := items[key := value];
    }

    /** `localStorage.removeItem(key)`: a missing key is no error. */
    method RemoveItem(key: string)
      modifies this
      ensures items == old(items) - {key}
    {
      items := items - {key};
    }
  }
}
