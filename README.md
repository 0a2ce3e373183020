# Private journal site: persistence and record layer

This project is a verified Dafny model of the state logic behind three pages
of a personal journaling web site. The pages are the journal editor
(`journal.js`), the CBT (cognitive-behavioural-therapy) prompt library
(`cbt.js`) and the settings page (`settings.js`). All their data lives in the
browser's `localStorage`, one JSON value per key.

The model has seven modules:

- `Storage`: the records, the decoded stored value per key, and the store
  itself. The store is a class over a `map<string, Value>` with
  `setItem`/`removeItem`. Its validity invariant is that every key the pages
  write holds the kind of value they write there. A missing key reads as an
  empty collection, as `JSON.parse(getItem(k) || '[]')` does.
- `Text`:
  - JavaScript's `trim()` and the `\s` class, which share one white-space set;
  - `split(/\s+/)`;
  - the word count `t.trim() ? t.trim().split(/\s+/).length : 0`, proved
    equal to an independent count of maximal non-space runs;
  - preview truncation and decimal rendering of counts.
- `Lists`:
  - `slice(0, n)`;
  - occurrence counts;
  - duplicate-free lists and the bound on their length.
- `Journal`:
  - validating and saving an entry, which is prepended and clears the draft;
  - the debounced draft auto-save, as a class whose timers are handles;
  - the word-count colour band, mood colours and the recent-entries list.
- `Cbt`:
  - saving a reflection, including the idempotent completed-prompt insert;
  - the writing modal whose Save button follows the word count;
  - the 30-day streak loop, the progress label and the CSV export;
  - the entry-card previews.
- `Settings`:
  - `getSavedSetting`/`saveSetting`;
  - the toggle and select rules on page load and on user input;
  - `clearAllData`, a loop over seven keys;
  - the display names, and `handleAction` with its two JSON exports.
- `Wrappers`: `Option` and `Result`.

Calendar days are integers. An entry's `date` is the day number of its save
time, and the streak compares entries by that day. The clock reading used as
an `id` and the locale date text of the CSV export are parameters.

Some behaviours of the code that a reader might expect to be otherwise:

- `saveCBTEntry` itself does not reject an empty response. Only the modal's
  disabled Save button stops one (`Cbt.WritingModal.SaveClick`).
- The CSV export quotes only technique, prompt and response. It doubles
  quotes only in prompt and response. Date and word count are not quoted.
- The completed-prompt collection is a list, not a set, and the free-form id
  counts towards it. After all six techniques and a free-form reflection the
  progress label reads 7/6 (`Cbt.CompletedMayExceedTotal`).
- There is no `try`/`catch` around `JSON.parse`, so nothing here claims that
  corrupt stored data is read as empty.

## Model

| member | source | states |
|---|---|---|
| Storage.JournalEntries | journal.js:273 | a missing `journalEntries` key reads as the empty list |
| Storage.CbtHistory | cbt.js:646 | a missing `cbtHistory` key reads as the empty list |
| Storage.CompletedPrompts | cbt.js:651 | a missing `completedCBTPrompts` key reads as the empty list |
| Storage.SavedSettings | settings.js:169 | a missing `journalSettings` key reads as the empty object |
| Storage.Store.SetItem | cbt.js:648 | `localStorage.setItem` writes one key, and every other key stays as it was |
| Storage.Store.RemoveItem | journal.js:278 | `localStorage.removeItem` removes one key, every other key stays, and a missing key is no error |
| Lists.Take | journal.js:222 | `slice(0, n)` keeps the first min(n, length) elements in order |
| Lists.DistinctBound | cbt.js:651-655 | a duplicate-free list drawn from a finite set is no longer than the set |
| Text.Trim | journal.js:250 | `trim()` is empty exactly for all-white-space text, and otherwise starts and ends with a non-space character |
| Text.TrimSplits | journal.js:250 | the input is white space, then its trim, then white space |
| Text.TrimUnchanged | journal.js:250 | text with non-space ends is its own trim |
| Text.SplitWs | journal.js:252 | `split(/\s+/)` gives at least one piece, and no piece holds white space |
| Text.WordCount | cbt.js:589 | the word count is zero exactly for all-white-space text |
| Text.WordCountIsTokenCount | cbt.js:589 | the word count equals the number of maximal non-space runs of the text |
| Text.TokenCountTrim | cbt.js:641 | trimming does not change the number of words |
| Text.SplitCount | journal.js:252 | the split of text without leading white space has one piece per word, plus one empty piece if it ends in white space |
| Text.SplitPiecesAreWords | journal.js:252 | every piece of the split of trimmed text is non-empty |
| Text.TrimmedSplitCount | journal.js:250-252 | the stored count `content.split(/\s+/).length` of trimmed content equals the editor's word count, at least 1 |
| Text.Preview | journal.js:330 | text up to the limit is itself; longer text is its first `limit` characters plus "..." |
| Text.NatToString | cbt.js:94 | a count renders as one or more digits without a leading zero |
| Text.ParseNatToString | cbt.js:94 | the rendered count reads back as the same number |
| Journal.BuildJournalEntry | journal.js:244-270 | the entry is refused, with the warning, exactly when the content is missing or all white space; otherwise content and title are trimmed, a blank title becomes "Untitled Entry", a missing mood becomes "neutral", the word count is the content's number of words, at least 1, and id, date and `formattedDate` are the given clock readings |
| Journal.SaveJournalEntry | journal.js:237-278 | a refused save changes nothing; an accepted one puts the entry first in `journalEntries` with the older entries behind it in order, and removes `journal-draft`; no other key changes |
| Journal.HelloWorldEntry | journal.js:244-265 | "Hello world" with mood "calm" and no title is stored with 2 words, mood "calm" and the placeholder title |
| Journal.TwoWords | journal.js:252 | two non-empty words joined by one space count as 2 words and need no trimming |
| Journal.AutoSaver.constructor | journal.js:119 | no save is pending when the page opens |
| Journal.AutoSaver.Input | journal.js:122-126 | an input event cancels the pending save and schedules exactly one new one |
| Journal.AutoSaver.Fire | journal.js:125-131 | a firing timer writes the current text under `journal-draft` only if it is not all white space; nothing is pending afterwards |
| Journal.AutoSaver.LoadDraft | journal.js:136-140 | a non-empty stored draft is put back in the editor and schedules a save; otherwise nothing changes |
| Journal.SaveThenPendingAutoSave | journal.js:125-131 | a save while an auto-save is pending, followed by the timer firing, stores the entry first and writes the removed `journal-draft` back with the editor's text; the new store is exactly the old one with those two keys rewritten |
| Journal.WordCountLabel | journal.js:162 | the label starts with the word count and ends with the character count and " characters" |
| Journal.WordCountBand | journal.js:165-171 | green for more than 100 words, orange for 51 to 100, gray otherwise |
| Journal.MoodColor | journal.js:367-378 | a known mood gets its table colour, any other mood the gray fallback |
| Journal.MoodColorGray | journal.js:367-378 | the fallback gray is shown exactly for "neutral" and unknown moods |
| Journal.EntryPreview | journal.js:330 | the list preview is the content up to 120 characters, otherwise its first 120 characters and "..." |
| Journal.RecentEntries | journal.js:222 | the page lists the first five saved entries in order |
| Cbt.BuildCbtEntry | cbt.js:634-643 | the response is stored as typed, technique, category and prompt text come from the prompt, id and day are the given ones, and the stored word count is the response's number of words |
| Cbt.MarkCompleted | cbt.js:651-655 | a present id leaves the list as it was; an absent id is appended; membership becomes old ∪ {id}; duplicate-freedom is kept |
| Cbt.MarkCompletedIdempotent | cbt.js:652-653 | marking the same prompt twice equals marking it once |
| Cbt.SaveCbtEntry | cbt.js:633-656 | the reflection goes first in `cbtHistory`; `completedCBTPrompts` is rewritten with the id appended only when the id was absent; no other key changes |
| Cbt.WritingModal.constructor | cbt.js:504-548 | the modal opens with an empty text and a disabled Save button |
| Cbt.WritingModal.Input | cbt.js:588-598 | each input recounts the words and enables Save exactly when there is at least one |
| Cbt.WritingModal.SaveClick | cbt.js:606-611 | a click while Save is disabled changes nothing; otherwise the reflection, with at least one word, is saved, and the new store is exactly the old one with `cbtHistory` and, for a new prompt id, `completedCBTPrompts` rewritten |
| Cbt.HasEntryOn | cbt.js:116-118 | a day has a reflection exactly when it is one of the history's days |
| Cbt.Streak | cbt.js:106-128 | the streak is at most 30, and positive only when today has a reflection |
| Cbt.StreakIsLongestRun | cbt.js:106-128 | the streak is between 0 and 30, every day it covers has a reflection, and below 30 the day before the run has none |
| Cbt.StreakUnique | cbt.js:106-128 | those three facts determine the streak |
| Cbt.StreakDependsOnlyOnDays | cbt.js:116-118 | histories with the same set of days have the same streak, whatever their order or duplicates |
| Cbt.StreakZeroWithoutToday | cbt.js:120-124 | no reflection today means a streak of 0 |
| Cbt.StreakOfThreeDays | cbt.js:106-128 | reflections today, yesterday and the day before give 3 |
| Cbt.StreakStopsAtGap | cbt.js:120-124 | reflections today and two days ago, none yesterday, give 1 |
| Cbt.CalculateCbtStreak | cbt.js:106-128 | the loop with its early `break` returns the streak of the stored history, at most 30 |
| Cbt.ProgressLabel | cbt.js:94 | the label is the completed count in decimal followed by "/6" |
| Cbt.ProgressLabelParts | cbt.js:94 | the progress label is the completed count, "/", and 6 |
| Cbt.CompletedMayExceedTotal | cbt.js:651-655 | the six techniques and the free-form prompt give 7 completed ids against a total of 6 |
| Cbt.CompletedBound | cbt.js:651-655 | a completed list of known ids, kept free of duplicates, has at most 7 entries |
| Cbt.EscapeQuotes | cbt.js:395-396 | `replace(/"/g, '""')` grows the text by one character per quote and introduces no other character |
| Cbt.UnescapeEscape | cbt.js:395-396 | collapsing doubled quotes gives back the original text |
| Cbt.EscapeAppend | cbt.js:395-396 | escaping distributes over concatenation |
| Cbt.EscapeNoQuote | cbt.js:395-396 | text without a quote is left unchanged |
| Cbt.EscapeOneQuote | cbt.js:395-396 | one quote between quote-free parts is doubled and nothing else changes |
| Cbt.EscapeExample | cbt.js:395-396 | `Don"t` becomes the field `"Don""t"` |
| Cbt.ExportRowOf | cbt.js:372-378 | the row copies technique, prompt, response and word count, and holds the locale text of the entry's date |
| Cbt.ExportRows | cbt.js:371-377 | one row per reflection in history order, with date, technique, prompt, response and word count |
| Cbt.RowLine | cbt.js:392-399 | a line starts with the unquoted date and a comma, and ends with a comma and the unquoted word count |
| Cbt.EscapeQuoteCount | cbt.js:395-396 | doubling quotes doubles their number |
| Cbt.RowLineQuotes | cbt.js:392-399 | a line holds the date's and technique's quotes as they are, the prompt's and response's doubled, and six enclosing quotes: technique is quoted without escaping |
| Cbt.CsvRows | cbt.js:388-400 | the header line, then one line per row in order |
| Cbt.JoinLines | cbt.js:402 | the text starts with the first line, a line break follows it when there are more lines, and a single line is the text itself |
| Cbt.JoinLinesNewlines | cbt.js:402 | joining n lines that hold no line break gives n-1 line breaks |
| Cbt.RowLineHasNoNewline | cbt.js:392-399 | a row whose fields hold no line break renders as one line |
| Cbt.CsvLineCount | cbt.js:387-403 | with no line break in any field, the CSV text has exactly one line break per reflection |
| Cbt.ConvertToCsv | cbt.js:387-403 | the loop builds the header and row lines and joins them with line breaks |
| Cbt.ExportCbtEntries | cbt.js:364-384 | an empty history gives the notice and no file; otherwise `cbt-journal-entries.csv` holds the CSV of the whole history, with the "CBT entries exported successfully!" message |
| Cbt.EntryCardPreview | cbt.js:871 | the card shows the response up to 150 characters, otherwise its first 150 characters and "..." |
| Cbt.RecentCbtEntries | cbt.js:839 | the page lists the three most recent reflections |
| Settings.GetSavedSetting | settings.js:168-171 | the stored value when the key is present, the default otherwise |
| Settings.WithSetting | settings.js:173-177 | saving keeps every key of the store except `journalSettings`, which it always writes |
| Settings.SaveSetting | settings.js:173-177 | the store becomes the settings object with the one key set, written back |
| Settings.GetAfterSave | settings.js:173-177 | reading a key right after saving it gives the saved value |
| Settings.SaveKeepsOtherSettings | settings.js:173-177 | saving one key leaves every other setting, present or absent, as it was |
| Settings.SaveTwiceLastWins | settings.js:173-177 | of two saves of one key, the later one stays |
| Settings.SaveSameValueIsNoop | settings.js:173-177 | saving the value a key already holds changes nothing |
| Settings.TwoClicksRestore | settings.js:26-30 | two clicks on a toggle that shows its saved state leave the store as it was |
| Settings.SettingDisplayName | settings.js:179-189 | the mapped name for the six known keys, the key itself otherwise |
| Settings.ToggleActive | settings.js:149 | a toggle is off exactly when its stored value is `false` |
| Settings.MissingToggleIsActive | settings.js:149 | a toggle whose setting was never saved is active |
| Settings.ToggleReloadsSavedState | settings.js:26-30 | the state a click saves is the state the toggle shows on the next page load |
| Settings.ValueText | settings.js:44 | a stored choice is assigned to the select as its own text |
| Settings.SelectAfterInit | settings.js:43-44 | a select takes the text of its stored value when there is one, and keeps its own value otherwise |
| Settings.ToggleFeedback | settings.js:30 | the notice names the setting and ends in " enabled" or " disabled" as the new state is on or off |
| Settings.SelectFeedback | settings.js:49 | the notice names the setting and ends in " updated" |
| Settings.SelectAfterLoad | settings.js:159-164 | only a truthy stored value replaces the select's value |
| Settings.SelectShowsStoredValue | settings.js:43-44 | after both load steps a select shows its stored value, even an empty one, and keeps its HTML value when none is stored |
| Settings.SettingsPage.Open | settings.js:3-10 | on page load every toggle shows the `loadSavedSettings` rule and every select its stored value if any |
| Settings.SettingsPage.InitializeToggleSwitches | settings.js:19-23 | a toggle whose saved value, true when missing, is truthy gets the active class; the others keep theirs |
| Settings.SettingsPage.InitializeSelectInputs | settings.js:42-44 | each select takes its saved value, or keeps its own |
| Settings.SettingsPage.LoadSavedSettings | settings.js:143-165 | toggles follow `ToggleActive`; selects follow `SelectAfterLoad` |
| Settings.SettingsPage.ToggleClick | settings.js:26-31 | a click flips the toggle, saves the new boolean, and reports "enabled" or "disabled" |
| Settings.SettingsPage.SelectChange | settings.js:47-50 | a change saves the chosen text and reports "updated" |
| Settings.Cleared | settings.js:117-129 | exactly the seven listed keys are removed; every other key keeps its value |
| Settings.ClearAllData | settings.js:116-129 | the `removeItem` loop leaves the store as `Cleared` of the old store |
| Settings.ClearIdempotent | settings.js:117-129 | clearing twice equals clearing once |
| Settings.ClearedReadsEmpty | settings.js:117-125 | after a clear every collection reads as empty, there is no draft or mood of the day, and every setting reads as its default |
| Settings.TogglesAfterClearAsWritten | settings.js:131-134 | as written, the clear turns every toggle off |
| Settings.ClearAsWrittenOutOfSync | settings.js:131-134 | as written, after a clear every toggle shows the opposite of what a reload shows |
| Settings.TogglesOnLoad | settings.js:147-156 | each toggle shows the page-load rule for the given settings |
| Settings.ClearKeepsTogglesInSync | settings.js:131-134 | with the corrected reset, every toggle is active after a clear, matching a reload |
| Settings.SettingsPage.ClearAll | settings.js:116-140 | the seven keys are removed, every toggle loses its `active` class and each select is back at its first option |
| Settings.SettingsPage.ClearAllCorrected | settings.js:116-140 | the corrected clear: the same store, but every toggle shows what a reload shows for the cleared store, that is, active |
| Settings.ExportJournalEntries | settings.js:82-92 | no entries gives the warning and no download; otherwise `journal-entries.json` carries the stored entries |
| Settings.ExportCbtEntries | settings.js:95-105 | an empty history gives the warning and no download; otherwise `cbt-entries.json` carries the stored history |
| Settings.ExportCarriesStoredData | settings.js:83-90 | a download carries exactly the stored collection |
| Settings.SettingsPage.HandleAction | settings.js:67-79 | the two exports change nothing; "clear-all" clears store and page as `clearAllData` does, only when confirmed; any other action does nothing |

## Left out

- `home.js` and `mood.js` are not part of this model. Home is scroll and animation code. Mood uses randomly generated sample data. Only the `moodHistory` and `todayMood` keys that `clearAllData` removes appear here.
- DOM rendering, styles, animations, notifications and ripple effects are presentation. The outcome of each action is modelled. The message texts that are modelled are the journal's empty-content warning, the CBT export's notice and success message, every settings-page message and the journal's word-count label. Some texts are not modelled: the journal save messages "Entry saved as draft!" and "Entry saved successfully!" (journal.js:312), the CBT save notice (cbt.js:610), the writing modal's `${words} words` label (cbt.js:590) and the "Auto-saved" indicator (journal.js:116).
- JSON encoding is not modelled. Values are stored decoded, so corrupt stored JSON, and the fact that `JSON.parse` throws on it, are outside the model. The pretty-printed JSON text of the settings exports is not modelled either; the download carries the data itself.
- The clock is not modelled. `Date.now()`, `new Date()` and the conversion of an ISO time to a local calendar day are inputs: an id, a day number and, for journal entries, the `formattedDate` text that `toLocaleDateString` would give. Time zones and day boundaries are not modelled.
- The locale date text of the CSV export is the parameter `formatDate`.
- `timeSpent` (cbt.js:642) is not modelled. It reads the clock twice, so it is 0 or -1, never a useful measure.
- `completionPercentage` and the progress bar width (cbt.js:86) are floating point. Progress is modelled as integer counts and the label.
- The random prompt pick and the random encouraging message are not modelled.
- The form reset one second after a save (journal.js:287-300) is not modelled, nor its timing against a pending auto-save. `Journal.SaveThenPendingAutoSave` covers the case where the timer fires before any reset: after a draft save, or after a normal save made more than one second after the last keystroke. When the reset comes first, the timer reads an empty editor and writes nothing; the model does not cover that case.
- Timer delays and the 2000 ms debounce are not modelled. `Journal.AutoSaver` only models which save is pending.
- The writing-time display and the typing indicator are not modelled.
- Strings are sequences of code points. JavaScript's `length` and `substring` count UTF-16 code units, so previews and character counts differ for characters outside the Basic Multilingual Plane.
- Lookups such as `settings[key]` and `names[key]` ignore inherited object properties (for example `"constructor"`).
- Settings.ValueText: assigning a value no option matches leaves a select empty in the browser. The model keeps the assigned text.
- The browser's select option lists are not modelled. `firstOption` is each select's first option value, given by the page.
- Prompt card HTML, the prompt-selection modal, entry detail modals and navigation are presentation and are not modelled.
- A write failure, such as quota exceeded, is not modelled. A store write always succeeds.

## Findings

| source | as written | input that shows it | evidently intended | confidence | as-written member | corrected member |
|---|---|---|---|---|---|---|
| settings.js:131-134 | after `clearAllData` every toggle loses its `active` class | any store and any toggle, e.g. "darkmode": confirm "clear-all", then reload; the toggle is off after the clear but on after the reload, since a missing setting means active (settings.js:149) | the controls should stay in step with storage, so after a clear each toggle should show what loading the empty settings shows: active | not executed; medium | Settings.ClearAsWrittenOutOfSync | Settings.ClearKeepsTogglesInSync |

`Settings.SettingsPage.ClearAll` and `HandleAction` follow the code as written. `Settings.SettingsPage.ClearAllCorrected` is the corrected reset.
