/** The journal editor page: validating and saving entries, the auto-saved
    draft, the live word count and its colour, mood colours and the list of
    recent entries. */
module Journal {
  import opened Wrappers
  import opened Lists
  import opened Text
  import opened Storage

  /** What the save handler finds on the page. An input the page lacks is
      `None`; the mood is that of the selected mood option, if any. */
  datatype JournalForm = JournalForm(title: Option<string>, content: Option<string>, mood: Option<string>)

  const UntitledTitle := "Untitled Entry"
  const DefaultMood := "neutral"
  const EmptyContentWarning := "Please write something before saving!"

  /** The entry `saveJournalEntry` builds, or the warning it shows instead.
      It refuses a missing or all-white-space content; otherwise the content
      and title are stored trimmed, an empty title becomes "Untitled Entry",
      a missing mood becomes "neutral", and the word count is that of the
      content, at least one. The clock readings come in as `id`, `date` and
      `formattedDate`. */
  function BuildJournalEntry(form: JournalForm, isDraft: bool, id: int, date: int, formattedDate: string)
    : (r: Result<JournalEntry, string>)
    ensures r.Failure? <==> form.content.None? || AllSpace(form.content.value)
    ensures r.Failure? ==> r.error == EmptyContentWarning
    ensures r.Success? ==>
      var e := r.value;
      && e.content == Trim(form.content.value) && e.content != []
      && e.title == (if form.title.None? || Trim(form.title.value) == [] then UntitledTitle
                     else Trim(form.title.value))
      && e.mood == (if form.mood.None? then DefaultMood else form.mood.value)
      && e.wordCount == WordCount(form.content.value) == TokenCount(form.content.value)
      && e.wordCount >= 1
      && e.isDraft == isDraft && e.id == id && e.date == date
      && e.formattedDate == formattedDate
  {
    if form.content.None? || Trim(form.content.value) == [] then
      Failure(EmptyContentWarning)
    else
      var title := if form.title.Some? then Trim(form.title.value) else [];
      var content := Trim(form.content.value);
      var mood := if form.mood.Some? then form.mood.value else DefaultMood;
      var wordCount := |SplitWs(content)|;
      WordCountIsTokenCount(form.content.value);
      Success(JournalEntry(id, if title == [] then UntitledTitle else title, content, mood,
                           wordCount, isDraft, date, formattedDate))
  }

  /** `saveJournalEntry`: a refused save changes nothing; an accepted one puts
      the entry first in `journalEntries`, keeps the older entries in order
      behind it, and removes the `journal-draft` key. */
  method SaveJournalEntry(st: Store, form: JournalForm, isDraft: bool, id: int, date: int,
                          formattedDate: string)
    returns (r: Result<JournalEntry, string>)
    requires st.Valid()
    modifies st
    ensures st.Valid()
    ensures r == BuildJournalEntry(form, isDraft, id, date, formattedDate)
    ensures r.Failure? ==> st.items == old(st.items)
    ensures r.Success? ==>
      st.items == old(st.items)[JournalEntriesKey := JournalList([r.value] + JournalEntries(old(st.items)))] - {DraftKey}
    ensures r.Success? ==>
      && JournalEntries(st.items) == [r.value] + JournalEntries(old(st.items))
      && DraftKey !in st.items
  {
    r := BuildJournalEntry(form, isDraft, id, date, formattedDate);
    if r.Failure? {
      return;
    }
    var savedEntries := JournalEntries(st.items);
    st.SetItem(JournalEntriesKey, JournalList([r.value] + savedEntries));
    st.RemoveItem(DraftKey);
  }

  /** The scenario of a first save: "Hello world" with the calm mood and no
      title is stored with two words, that mood and the placeholder title. */
  lemma HelloWorldEntry(id: int, date: int, formattedDate: string)
    ensures var r := BuildJournalEntry(JournalForm(Some(""), Some("Hello world"), Some("calm")), false, id, date,
                                       formattedDate);
            r.Success? && r.value.wordCount == 2 && r.value.mood == "calm"
            && r.value.title == UntitledTitle && r.value.content == "Hello world"
  {
    TwoWords("Hello", "world");
    assert "Hello" + " " + "world" == "Hello world";
    assert Trim("") == [];
  }

  /** Two words separated by one space: two words, and nothing to trim. */
  lemma {:induction false} TwoWords(w1: string, w2: string)
    requires |w1| > 0 && |w2| > 0 && NoSpace(w1) && NoSpace(w2)
    ensures var text := w1 + " " + w2;
            WordCount(text) == 2 && Trim(text) == text && !AllSpace(text)
  {
    var text := w1 + " " + w2;
    assert TokenCount(text) == 2 by {
      assert text == w1 + (" " + w2);
      assert w2 == w2 + [];
      CountStartsWord(w1, " " + w2, true);
      CountStartsSpacePrefix(" ", w2, false);
      CountStartsWord(w2, [], true);
    }
    WordCountIsTokenCount(text);
    assert text[0] == w1[0] && text[|text| - 1] == w2[|w2| - 1];
    TrimUnchanged(text);
  }

  // ---------------------------------------------------------------- auto-save

  /** The draft auto-save: every `input` event clears the pending timer and
      starts a new one; when a timer fires it stores the text area's current
      value under `journal-draft` if it is not all white space. Timers are
      identified by handles; clock time is not modelled. */
  class AutoSaver {
    var text: string
    var scheduled: set<nat>
    var handle: nat
    var nextHandle: nat

    /** At most one save is pending, and it is the one the handle names. */
    ghost predicate Valid()
      reads this
    {
      scheduled <= {handle} && handle < nextHandle
    }

    constructor (initialText: string)
      ensures Valid() && text == initialText && scheduled == {}
    {
      text := initialText;
      scheduled := {};
      handle := 0;
      nextHandle := 1;
    }

    /** An `input` event: `clearTimeout(autoSaveTimer)` and a fresh timer. */
    method Input(newText: string)
      requires Valid()
      modifies this
      ensures Valid() && text == newText
      ensures scheduled == {handle} && handle == old(nextHandle)
    {
      text := newText;
      scheduled := scheduled - {handle};
      handle := nextHandle;
      nextHandle := nextHandle + 1;
      scheduled := scheduled + {handle};
    }

    /** The pending timer elapses (nothing happens when none is pending). */
    method Fire(st: Store)
      requires Valid() && st.Valid()
      modifies this, st
      ensures Valid() && st.Valid() && scheduled == {} && text == old(text)
      ensures st.items ==
                if old(scheduled) != {} && Trim(text) != [] then old(st.items)[DraftKey := Text(text)]
                else old(st.items)
    {
      if handle in scheduled {
        scheduled := scheduled - {handle};
        var content := text;
        if Trim(content) != [] {
          st.SetItem(DraftKey, Text(content));
        }
      }
    }

    /** Page load: a non-empty stored draft is put back in the text area and
      an `input` event is dispatched, which starts a timer. */
    method LoadDraft(st: Store)
      requires Valid() && st.Valid()
      modifies this
      ensures Valid()
      ensures DraftKey in st.items && st.items[DraftKey].text != [] ==>
                text == st.items[DraftKey].text && scheduled == {handle}
      ensures !(DraftKey in st.items && st.items[DraftKey].text != []) ==>
                text == old(text) && scheduled == old(scheduled)
    {
      if DraftKey in st.items && st.items[DraftKey].text != [] {
        Input(st.items[DraftKey].text);
      }
    }
  }

  /** A save while an auto-save is still pending, after which the timer
      fires with the editor's text unchanged: this happens for a draft save,
      which never clears the form, and for a normal save made more than one
      second after the last keystroke. The save removes `journal-draft`, and
      the timer writes it back. */
  method SaveThenPendingAutoSave(st: Store, saver: AutoSaver, title: Option<string>, mood: Option<string>,
                                 isDraft: bool, id: int, date: int, formattedDate: string)
    returns (r: Result<JournalEntry, string>)
    requires st.Valid() && saver.Valid() && saver.scheduled != {}
    modifies st, saver
    ensures st.Valid() && saver.Valid() && saver.scheduled == {}
    ensures r == BuildJournalEntry(JournalForm(title, Some(old(saver.text)), mood), isDraft, id, date, formattedDate)
    ensures r.Failure? ==> st.items == old(st.items)
    ensures r.Success? ==> JournalEntries(st.items) == [r.value] + JournalEntries(old(st.items))
    ensures r.Success? ==> DraftKey in st.items && st.items[DraftKey] == Text(old(saver.text))
    ensures r.Success? ==>
      st.items == old(st.items)[JournalEntriesKey := JournalList([r.value] + JournalEntries(old(st.items)))]
                               [DraftKey := Text(old(saver.text))]
  {
    r := SaveJournalEntry(st, JournalForm(title, Some(saver.text), mood), isDraft, id, date, formattedDate);
    saver.Fire(st);
  }

  // ---------------------------------------------------------------- display

  datatype Band = Green | Orange | Gray

  /** The colour of the word-count label: green above 100 words, orange
      above 50, gray otherwise. */
  function WordCountBand(words: nat): (b: Band)
    ensures b == Green <==> words > 100
    ensures b == Orange <==> 50 < words <= 100
    ensures b == Gray <==> words <= 50
  {
    if words > 100 then Green else if words > 50 then Orange else Gray
  }

  /** `${words} words • ${characters} characters`. */
  function WordCountLabel(text: string): (r: string)
    ensures var n := NatToString(WordCount(text)); |n| <= |r| && r[..|n|] == n
    ensures var c := NatToString(|text|);
            |c| + 11 <= |r| && r[|r| - 11..] == " characters" && r[|r| - 11 - |c|..|r| - 11] == c
  {
    NatToString(WordCount(text)) + " words \U{2022} " + NatToString(|text|) + " characters"
  }

  const MoodColors: map<string, string> := map[
    "happy" := "#10B981",
    "excited" := "#F59E0B",
    "calm" := "#3B82F6",
    "neutral" := "#6B7280",
    "sad" := "#EF4444",
    "anxious" := "#F59E0B",
    "stressed" := "#DC2626"
  ]

  const FallbackMoodColor := "#6B7280"

  /** `getMoodColor`: the table's colour for a known mood, gray otherwise. */
  function MoodColor(mood: string): (c: string)
    ensures mood in MoodColors ==> c == MoodColors[mood]
    ensures mood !in MoodColors ==> c == FallbackMoodColor
  {
    if mood in MoodColors then MoodColors[mood] else FallbackMoodColor
  }

  /** The gray of the fallback is also the colour of "neutral", and of no
      other known mood. */
  lemma MoodColorGray(mood: string)
    ensures MoodColor(mood) == FallbackMoodColor <==> mood == "neutral" || mood !in MoodColors
  {
  }

  /** The preview of a listed entry: the content up to 120 characters,
      otherwise its first 120 characters and an ellipsis. */
  function EntryPreview(e: JournalEntry): (r: string)
    ensures |e.content| <= 120 ==> r == e.content
    ensures |e.content| > 120 ==> r == e.content[..120] + "..."
  {
    Preview(e.content, 120)
  }

  /** The recent-entries list shows the first five saved entries. */
  function RecentEntries(entries: seq<JournalEntry>): (r: seq<JournalEntry>)
    ensures |r| == if |entries| < 5 then |entries| else 5
    ensures forall i :: 0 <= i < |r| ==> r[i] == entries[i]
  {
    Take(entries, 5)
  }
}
