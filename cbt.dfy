/** The CBT prompts page: saving reflections, the completed-prompts list,
    the day streak, the progress label, the CSV export and the entry-card
    previews. */
module Cbt {
  import opened Lists
  import opened Text
  import opened Storage

  /** A CBT technique card. Colours, icons and descriptions are presentation
      and are not modelled. */
  datatype Prompt = Prompt(id: string, title: string, category: string, text: string)

  /** The six techniques of the prompt library, in display order. */
  const CbtPrompts: seq<Prompt> := [
    Prompt("cognitive-restructuring", "Cognitive Restructuring", "Thought Challenging",
      "Write down a negative thought you had today. What evidence supports it? What evidence challenges it? How could you reframe this thought more realistically?"),
    Prompt("behavioral-activation", "Behavioral Activation", "Action Planning",
      "List one small, positive action you can take today to boost your mood. How will you make time for it? What obstacles might you face, and how can you overcome them?"),
    Prompt("thought-record", "Thought Record", "Self-Monitoring",
      "Describe a recent situation that triggered strong emotions. What automatic thoughts came up? Rate the intensity of your emotions (1-10). What would you tell a friend in this situation?"),
    Prompt("gratitude-reframe", "Gratitude Reframe", "Positive Focus",
      "Write down three things you're grateful for today. How do these positive aspects change your perspective on any current challenges?"),
    Prompt("mindful-awareness", "Mindful Awareness", "Mindfulness",
      "Take five minutes to practice mindfulness. What are 3 things you can see, 2 things you can hear, and 1 thing you can feel right now? How does this grounding exercise affect your current emotional state?"),
    Prompt("problem-solving", "Problem Solving", "Solution Focus",
      "Identify a current challenge you're facing. Break it down into smaller parts. What are 3 possible solutions? What's one small step you can take today toward solving it?")
  ]

  /** The free-form reflection offered beside the library; it is not one of
      the six. */
  const FreeFormPrompt := Prompt("free-form", "Free Form Reflection", "Free Writing",
    "Take a moment to reflect on anything that's currently on your mind. There are no rules - just let your thoughts flow naturally onto the page.")

  /** Every prompt id a reflection can be saved under. */
  const KnownPromptIds: set<string> := {
    "cognitive-restructuring", "behavioral-activation", "thought-record",
    "gratitude-reframe", "mindful-awareness", "problem-solving", "free-form"
  }

  // ---------------------------------------------------------------- saving

  /** The record `saveCBTEntry` builds; the response is stored as typed. */
  function BuildCbtEntry(p: Prompt, response: string, id: int, day: int): (e: CbtEntry)
    ensures e.response == response && e.technique == p.title && e.category == p.category
    ensures e.prompt == p.text && e.id == id && e.date == day
    ensures e.wordCount == TokenCount(response)
  {
    WordCountIsTokenCount(response);
    CbtEntry(id, day, p.title, p.category, p.text, response, WordCount(response))
  }

  /** `if (!completed.includes(id)) completed.push(id)`: the id is appended
      at the end when absent; a present id leaves the list as it was. */
  function MarkCompleted(completed: seq<string>, id: string): (r: seq<string>)
    ensures id in r
    ensures forall x :: x in r <==> x in completed || x == id
    ensures id in completed ==> r == completed
    ensures id !in completed ==> r == completed + [id]
    ensures NoDuplicates(completed) ==> NoDuplicates(r)
  {
    if id in completed then completed else completed + [id]
  }

  /** Marking the same prompt twice is the same as marking it once. */
  lemma MarkCompletedIdempotent(completed: seq<string>, id: string)
    ensures MarkCompleted(MarkCompleted(completed, id), id) == MarkCompleted(completed, id)
  {
  }

  /** `saveCBTEntry`: the new reflection goes in front of `cbtHistory`, and
      the prompt id is added to `completedCBTPrompts` unless it is already
      there, in which case that key is not written at all. */
  method SaveCbtEntry(st: Store, p: Prompt, response: string, id: int, day: int)
    returns (entry: CbtEntry)
    requires st.Valid()
    modifies st
    ensures st.Valid()
    ensures entry == BuildCbtEntry(p, response, id, day)
    ensures CbtHistory(st.items) == [entry] + CbtHistory(old(st.items))
    ensures CompletedPrompts(st.items) == MarkCompleted(CompletedPrompts(old(st.items)), p.id)
    ensures var h := old(st.items)[CbtHistoryKey := CbtList([entry] + CbtHistory(old(st.items)))];
            st.items == if p.id in CompletedPrompts(old(st.items)) then h
                        else h[CompletedKey := IdList(CompletedPrompts(old(st.items)) + [p.id])]
  {
    entry := BuildCbtEntry(p, response, id, day);
    var history := CbtHistory(st.items);
    st.SetItem(CbtHistoryKey, CbtList([entry] + history));
    var completed := CompletedPrompts(st.items);
    if p.id !in completed {
      st.SetItem(CompletedKey, IdList(completed + [p.id]));
    }
  }

  /** The writing modal: its Save button is enabled exactly when the text
      holds at least one word, and a click saves only then. */
  class WritingModal {
    const prompt: Prompt
    var text: string
    var saveEnabled: bool

    ghost predicate Valid()
      reads this
    {
      saveEnabled == (WordCount(text) > 0)
    }

    /** The modal opens with an empty text area and a disabled button. */
    constructor (p: Prompt)
      ensures Valid() && prompt == p && text == [] && !saveEnabled
    {
      prompt := p;
      text := [];
      saveEnabled := false;
    }

    /** The `input` handler: recount the words and enable or disable Save. */
    method Input(newText: string) returns (words: nat)
      modifies this
      ensures Valid() && text == newText
      ensures words == WordCount(newText) && saveEnabled == (words > 0)
    {
      text := newText;
      words := WordCount(newText);
      saveEnabled := words > 0;
    }

    /** The Save click: nothing happens while the button is disabled. */
    method SaveClick(st: Store, id: int, day: int) returns (saved: bool)
      requires Valid() && st.Valid()
      modifies st
      ensures st.Valid()
      ensures saved == saveEnabled
      ensures !saved ==> st.items == old(st.items)
      ensures saved ==> CbtHistory(st.items) == [BuildCbtEntry(prompt, text, id, day)] + CbtHistory(old(st.items))
      ensures saved ==> CbtHistory(st.items)[0].wordCount >= 1
      ensures saved ==> CompletedPrompts(st.items) == MarkCompleted(CompletedPrompts(old(st.items)), prompt.id)
      ensures saved ==>
        var h := old(st.items)[CbtHistoryKey := CbtList([BuildCbtEntry(prompt, text, id, day)] + CbtHistory(old(st.items)))];
        st.items == if prompt.id in CompletedPrompts(old(st.items)) then h
                    else h[CompletedKey := IdList(CompletedPrompts(old(st.items)) + [prompt.id])]
    {
      saved := saveEnabled;
      if saved {
        var _ := SaveCbtEntry(st, prompt, text, id, day);
      }
    }
  }

  // ---------------------------------------------------------------- streak

  const StreakWindow := 30

  /** `cbtHistory.some(entry => same calendar day as day)`: true exactly
      for the days of the history. */
  predicate HasEntryOn(history: seq<CbtEntry>, day: int)
    ensures HasEntryOn(history, day) <==> day in Days(history)
  {
    DaysHaveEntries(history, day);
    exists i :: 0 <= i < |history| && history[i].date == day
  }

  /** There is a reflection k days before today. */
  predicate HasEntryDaysAgo(history: seq<CbtEntry>, today: int, k: int) {
    HasEntryOn(history, today - k)
  }

  /** The calendar days that have at least one reflection. */
  function Days(history: seq<CbtEntry>): set<int> {
    set i | 0 <= i < |history| :: history[i].date
  }

  function StreakFrom(history: seq<CbtEntry>, today: int, i: nat): (n: nat)
    requires i <= StreakWindow
    ensures i <= n <= StreakWindow
    decreases StreakWindow - i
  {
    if i == StreakWindow || !HasEntryDaysAgo(history, today, i) then i
    else StreakFrom(history, today, i + 1)
  }

  /** The streak: the number of consecutive days, from today backwards and
      at most 30, that each have a reflection. */
  function Streak(history: seq<CbtEntry>, today: int): (n: nat)
    ensures n <= StreakWindow
    ensures n > 0 ==> today in Days(history)
  {
    StreakFrom(history, today, 0)
  }

  lemma {:induction false} StreakFromFacts(history: seq<CbtEntry>, today: int, i: nat)
    requires i <= StreakWindow
    requires forall j :: 0 <= j < i ==> HasEntryDaysAgo(history, today, j)
    ensures i <= StreakFrom(history, today, i) <= StreakWindow
    ensures forall j :: 0 <= j < StreakFrom(history, today, i) ==> HasEntryDaysAgo(history, today, j)
    ensures StreakFrom(history, today, i) < StreakWindow ==>
              !HasEntryDaysAgo(history, today, StreakFrom(history, today, i))
    decreases StreakWindow - i
  {
    if i < StreakWindow && HasEntryDaysAgo(history, today, i) {
      StreakFromFacts(history, today, i + 1);
    }
  }

  /** The streak is in 0..30, every day it covers has a reflection, and
      below the cap the day just before the run has none. */
  lemma StreakIsLongestRun(history: seq<CbtEntry>, today: int)
    ensures 0 <= Streak(history, today) <= StreakWindow
    ensures forall j :: 0 <= j < Streak(history, today) ==> HasEntryDaysAgo(history, today, j)
    ensures Streak(history, today) < StreakWindow ==>
              !HasEntryDaysAgo(history, today, Streak(history, today))
  {
    StreakFromFacts(history, today, 0);
  }

  /** Those three facts determine the streak: it is the largest k <= 30 such
      that today, today-1, ..., today-(k-1) all have a reflection. */
  lemma StreakUnique(history: seq<CbtEntry>, today: int, k: nat)
    requires k <= StreakWindow
    requires forall j :: 0 <= j < k ==> HasEntryDaysAgo(history, today, j)
    requires k < StreakWindow ==> !HasEntryDaysAgo(history, today, k)
    ensures Streak(history, today) == k
  {
    StreakIsLongestRun(history, today);
  }

  lemma DaysHaveEntries(history: seq<CbtEntry>, day: int)
    ensures (exists i :: 0 <= i < |history| && history[i].date == day) <==> day in Days(history)
  {
    if day in Days(history) {
      var i :| 0 <= i < |history| && history[i].date == day;
    }
  }

  /** Only the set of calendar days matters: reordering the history or
      adding more reflections on days already present leaves the streak as
      it was. */
  lemma StreakDependsOnlyOnDays(h1: seq<CbtEntry>, h2: seq<CbtEntry>, today: int)
    requires Days(h1) == Days(h2)
    ensures Streak(h1, today) == Streak(h2, today)
  {
    forall j | 0 <= j <= StreakWindow
      ensures HasEntryDaysAgo(h1, today, j) <==> HasEntryDaysAgo(h2, today, j)
    {
      DaysHaveEntries(h1, today - j);
      DaysHaveEntries(h2, today - j);
    }
    StreakIsLongestRun(h1, today);
    StreakUnique(h2, today, Streak(h1, today));
  }

  /** No reflection today means no streak. */
  lemma StreakZeroWithoutToday(history: seq<CbtEntry>, today: int)
    requires today !in Days(history)
    ensures Streak(history, today) == 0
  {
    DaysHaveEntries(history, today);
  }

  /** Reflections today, yesterday and the day before give a streak of 3. */
  lemma StreakOfThreeDays(history: seq<CbtEntry>, today: int)
    requires Days(history) == {today, today - 1, today - 2}
    ensures Streak(history, today) == 3
  {
    forall j | 0 <= j <= 3 ensures HasEntryDaysAgo(history, today, j) <==> j < 3 {
      DaysHaveEntries(history, today - j);
    }
    StreakUnique(history, today, 3);
  }

  /** Reflections today and two days ago, none yesterday, give 1. */
  lemma StreakStopsAtGap(history: seq<CbtEntry>, today: int)
    requires Days(history) == {today, today - 2}
    ensures Streak(history, today) == 1
  {
    DaysHaveEntries(history, today);
    DaysHaveEntries(history, today - 1);
    StreakUnique(history, today, 1);
  }

  /** `calculateCBTStreak`: walk back from today one calendar day at a time,
      at most 30 days, and stop at the first day without a reflection. */
  method CalculateCbtStreak(st: Store, today: int) returns (streak: nat)
    requires st.Valid()
    ensures streak == Streak(CbtHistory(st.items), today)
    ensures streak <= StreakWindow
  {
    var history := CbtHistory(st.items);
    streak := 0;
    var i := 0;
    while i < StreakWindow
      invariant 0 <= i <= StreakWindow && streak == i
      invariant StreakFrom(history, today, i) == Streak(history, today)
    {
      var checkDate := today - i;
      var hasEntry := HasEntryOn(history, checkDate);
      if hasEntry {
        streak := streak + 1;
      } else {
        break;
      }
      i := i + 1;
    }
  }

  // ---------------------------------------------------------------- progress

  /** `${completed.length}/${cbtPrompts.length}`. */
  function ProgressLabel(completed: seq<string>): (text: string)
    ensures var done := NatToString(|completed|);
            |done| <= |text| && text[..|done|] == done && text[|done|..] == "/6"
  {
    NatToString(|completed|) + "/" + NatToString(|CbtPrompts|)
  }

  /** The label is two decimal numbers around a slash: the completed count
      and the library size, each readable back. */
  lemma ProgressLabelParts(completed: seq<string>) returns (done: string, total: string)
    ensures ProgressLabel(completed) == done + "/" + total
    ensures AllDigits(done) && AllDigits(total)
    ensures ParseNat(done) == |completed| && ParseNat(total) == |CbtPrompts| == 6
  {
    done, total := NatToString(|completed|), NatToString(|CbtPrompts|);
    ParseNatToString(|completed|);
    ParseNatToString(|CbtPrompts|);
  }

  /** The free-form id also counts as completed, so after all six techniques
      and one free-form reflection the count is 7 of 6. */
  lemma CompletedMayExceedTotal()
    ensures var all := seq(|CbtPrompts|, i requires 0 <= i < |CbtPrompts| => CbtPrompts[i].id);
            |MarkCompleted(all, FreeFormPrompt.id)| == 7 > |CbtPrompts|
  {
    var all := seq(|CbtPrompts|, i requires 0 <= i < |CbtPrompts| => CbtPrompts[i].id);
    assert FreeFormPrompt.id !in all by {
      forall i | 0 <= i < |all| ensures all[i] != FreeFormPrompt.id {
        assert all[i] == CbtPrompts[i].id;
      }
    }
  }

  /** A duplicate-free completed list holding only known prompt ids has at
      most seven entries: the six techniques and the free-form id. */
  lemma CompletedBound(completed: seq<string>)
    requires NoDuplicates(completed)
    requires forall i :: 0 <= i < |completed| ==> completed[i] in KnownPromptIds
    ensures |completed| <= 7
  {
    DistinctBound(completed, KnownPromptIds);
  }

  // ---------------------------------------------------------------- CSV export

  /** `s.replace(/"/g, '""')`: every double quote doubled, in the manner of
      section 2 of RFC 4180. */
  function EscapeQuotes(s: string): (r: string)
    ensures |r| == |s| + Count(s, '"')
    ensures forall c :: c in r ==> c == '"' || c in s
  {
    if s == [] then []
    else (if s[0] == '"' then "\"\"" else [s[0]]) + EscapeQuotes(s[1..])
  }

  /** The reading side of RFC 4180 quoting: each doubled quote collapses to one. */
  function UnescapeQuotes(s: string): string
    decreases |s|
  {
    if |s| >= 2 && s[0] == '"' && s[1] == '"' then "\"" + UnescapeQuotes(s[2..])
    else if s == [] then []
    else [s[0]] + UnescapeQuotes(s[1..])
  }

  lemma {:induction false} UnescapeEscape(s: string)
    ensures UnescapeQuotes(EscapeQuotes(s)) == s
  {
    if s != [] {
      var e := EscapeQuotes(s);
      UnescapeEscape(s[1..]);
      if s[0] == '"' {
        assert e[2..] == EscapeQuotes(s[1..]);
      } else {
        assert e[1..] == EscapeQuotes(s[1..]);
      }
    }
  }

  function Quoted(s: string): string {
    "\"" + s + "\""
  }

  /** Escaping works character by character, so it distributes over
      concatenation. */
  lemma {:induction false} EscapeAppend(a: string, b: string)
    ensures EscapeQuotes(a + b) == EscapeQuotes(a) + EscapeQuotes(b)
  {
    if a != [] {
      assert (a + b)[0] == a[0];
      assert (a + b)[1..] == a[1..] + b;
      EscapeAppend(a[1..], b);
    } else {
      assert a + b == b;
    }
  }

  /** Text without a quote is left as it is. */
  lemma {:induction false} EscapeNoQuote(a: string)
    requires '"' !in a
    ensures EscapeQuotes(a) == a
  {
    if a != [] {
      assert '"' !in a[1..];
      EscapeNoQuote(a[1..]);
    }
  }

  lemma EscapeQuote()
    ensures EscapeQuotes("\"") == "\"\""
  {
  }

  /** A single quote between quote-free text is doubled. */
  lemma EscapeOneQuote(a: string, b: string)
    requires '"' !in a && '"' !in b
    ensures EscapeQuotes(a + ("\"" + b)) == a + ("\"\"" + b)
  {
    calc {
      EscapeQuotes(a + ("\"" + b));
    == { EscapeAppend(a, "\"" + b); }
      EscapeQuotes(a) + EscapeQuotes("\"" + b);
    == { EscapeAppend("\"", b); }
      EscapeQuotes(a) + (EscapeQuotes("\"") + EscapeQuotes(b));
    == { EscapeQuote(); }
      EscapeQuotes(a) + ("\"\"" + EscapeQuotes(b));
    == { EscapeNoQuote(a); }
      a + ("\"\"" + EscapeQuotes(b));
    == { EscapeNoQuote(b); }
      a + ("\"\"" + b);
    }
  }

  /** A quote inside a response is doubled and the field quoted. */
  lemma EscapeExample()
    ensures Quoted(EscapeQuotes("Don\"t")) == "\"Don\"\"t\""
  {
    EscapeOneQuote("Don", "t");
    assert "Don" + ("\"" + "t") == "Don\"t";
  }

  /** One row of the export: the formatted date, the technique, the prompt,
      the response and the word count. */
  datatype ExportRow = ExportRow(date: string, technique: string, prompt: string, response: string, wordCount: nat)

  /** The export row of a reflection; the locale date text is given by
      `formatDate`. */
  function ExportRowOf(e: CbtEntry, formatDate: int -> string): (row: ExportRow)
    ensures row.date == formatDate(e.date) && row.wordCount == e.wordCount
    ensures row.technique == e.technique && row.prompt == e.prompt && row.response == e.response
  {
    ExportRow(formatDate(e.date), e.technique, e.prompt, e.response, e.wordCount)
  }

  function ExportRows(history: seq<CbtEntry>, formatDate: int -> string): (rows: seq<ExportRow>)
    ensures |rows| == |history|
    ensures forall i :: 0 <= i < |history| ==> rows[i] == ExportRowOf(history[i], formatDate)
  {
    seq(|history|, i requires 0 <= i < |history| => ExportRowOf(history[i], formatDate))
  }

  const CsvHeader := "Date,Technique,Prompt,Response,Word Count"

  /** Date unquoted, technique quoted as is, prompt and response quoted with
      their quotes doubled, word count unquoted. */
  function RowLine(row: ExportRow): (line: string)
    ensures |row.date| + 1 <= |line| && line[..|row.date| + 1] == row.date + ","
    ensures var n := NatToString(row.wordCount);
            |n| < |line| && line[|line| - |n|..] == n && line[|line| - |n| - 1] == ','
  {
    row.date + "," + Quoted(row.technique) + "," + Quoted(EscapeQuotes(row.prompt)) + ","
      + Quoted(EscapeQuotes(row.response)) + "," + NatToString(row.wordCount)
  }

  /** Doubling quotes doubles their number. */
  lemma {:induction false} EscapeQuoteCount(s: string)
    ensures Count(EscapeQuotes(s), '"') == 2 * Count(s, '"')
  {
    if s != [] {
      EscapeAppend([s[0]], s[1..]);
      assert [s[0]] + s[1..] == s;
      EscapeQuoteCount(s[1..]);
      CountAppend(EscapeQuotes([s[0]]), EscapeQuotes(s[1..]), '"');
      assert Count(s, '"') == Count([s[0]], '"') + Count(s[1..], '"') by {
        CountAppend([s[0]], s[1..], '"');
      }
    }
  }

  lemma QuotedCount(x: string)
    ensures Count(Quoted(x), '"') == Count(x, '"') + 2
  {
    CountAppend("\"" + x, "\"", '"');
    CountAppend("\"", x, '"');
  }

  /** The quotes of a CSV line: the date's and the technique's as they are,
      the prompt's and the response's doubled, and the six that enclose the
      three quoted fields. A quote in a technique is therefore not escaped. */
  lemma RowLineQuotes(row: ExportRow)
    ensures Count(RowLine(row), '"') ==
              Count(row.date, '"') + Count(row.technique, '"')
              + 2 * Count(row.prompt, '"') + 2 * Count(row.response, '"') + 6
  {
    var n := NatToString(row.wordCount);
    assert '"' !in n by {
      forall i | 0 <= i < |n| ensures n[i] != '"' {
        assert '0' <= n[i] <= '9';
      }
    }
    var t, p, r := Quoted(row.technique), Quoted(EscapeQuotes(row.prompt)), Quoted(EscapeQuotes(row.response));
    QuotedCount(row.technique);
    QuotedCount(EscapeQuotes(row.prompt));
    QuotedCount(EscapeQuotes(row.response));
    EscapeQuoteCount(row.prompt);
    EscapeQuoteCount(row.response);
    var p1 := row.date + ",";
    var p2 := p1 + t;
    var p3 := p2 + ",";
    var p4 := p3 + p;
    var p5 := p4 + ",";
    var p6 := p5 + r;
    var p7 := p6 + ",";
    assert RowLine(row) == p7 + n;
    CountAppend(row.date, ",", '"');
    CountAppend(p1, t, '"');
    CountAppend(p2, ",", '"');
    CountAppend(p3, p, '"');
    CountAppend(p4, ",", '"');
    CountAppend(p5, r, '"');
    CountAppend(p6, ",", '"');
    CountAppend(p7, n, '"');
  }

  /** `csvRows`: the header line, then one line per row in order. */
  function CsvRows(data: seq<ExportRow>): (rows: seq<string>)
    ensures |rows| == |data| + 1 && rows[0] == CsvHeader
    ensures forall i :: 0 <= i < |data| ==> rows[i + 1] == RowLine(data[i])
  {
    [CsvHeader] + seq(|data|, i requires 0 <= i < |data| => RowLine(data[i]))
  }

  /** `lines.join('\n')`: the first line, then a line break before each
      further line. */
  function JoinLines(lines: seq<string>): (r: string)
    ensures lines != [] ==> |lines[0]| <= |r| && r[..|lines[0]|] == lines[0]
    ensures |lines| > 1 ==> |lines[0]| < |r| && r[|lines[0]|] == '\n'
    ensures |lines| == 1 ==> r == lines[0]
    decreases |lines|
  {
    if lines == [] then []
    else if |lines| == 1 then lines[0]
    else lines[0] + "\n" + JoinLines(lines[1..])
  }

  lemma {:induction false} JoinLinesNewlines(lines: seq<string>)
    requires |lines| >= 1
    requires forall i :: 0 <= i < |lines| ==> '\n' !in lines[i]
    ensures Count(JoinLines(lines), '\n') == |lines| - 1
    decreases |lines|
  {
    if |lines| == 1 {
      assert Count(lines[0], '\n') == 0;
    } else {
      JoinLinesNewlines(lines[1..]);
      CountAppend(lines[0], "\n", '\n');
      CountAppend(lines[0] + "\n", JoinLines(lines[1..]), '\n');
      assert Count(lines[0], '\n') == 0;
      assert Count("\n", '\n') == 1;
    }
  }

  predicate NoNewline(s: string) {
    '\n' !in s
  }

  lemma RowLineHasNoNewline(row: ExportRow)
    requires NoNewline(row.date) && NoNewline(row.technique)
    requires NoNewline(row.prompt) && NoNewline(row.response)
    ensures NoNewline(RowLine(row))
  {
    var n := NatToString(row.wordCount);
    assert '\n' !in n by {
      forall i | 0 <= i < |n| ensures n[i] != '\n' {
        assert '0' <= n[i] <= '9';
      }
    }
  }

  /** When no field holds a line break, the CSV text has exactly one line
      per row after the header: |data| line breaks in all. */
  lemma CsvLineCount(data: seq<ExportRow>)
    requires forall i :: 0 <= i < |data| ==>
      NoNewline(data[i].date) && NoNewline(data[i].technique)
      && NoNewline(data[i].prompt) && NoNewline(data[i].response)
    ensures Count(JoinLines(CsvRows(data)), '\n') == |data|
  {
    var rows := CsvRows(data);
    forall i | 0 <= i < |rows| ensures '\n' !in rows[i] {
      if i > 0 {
        RowLineHasNoNewline(data[i - 1]);
      }
    }
    JoinLinesNewlines(rows);
  }

  /** One more row adds one more line at the end. */
  lemma CsvRowsSnoc(data: seq<ExportRow>, k: nat)
    requires k < |data|
    ensures CsvRows(data[..k + 1]) == CsvRows(data[..k]) + [RowLine(data[k])]
  {
    var a, b := CsvRows(data[..k + 1]), CsvRows(data[..k]) + [RowLine(data[k])];
    assert |a| == |b|;
    forall i | 0 <= i < |a| ensures a[i] == b[i] {
      if 0 < i <= k {
        assert data[..k + 1][i - 1] == data[..k][i - 1];
      }
    }
  }

  /** `convertToCSV`: push the header, push one line per row, join with
      line breaks. */
  method ConvertToCsv(data: seq<ExportRow>) returns (csv: string)
    ensures csv == JoinLines(CsvRows(data))
  {
    var csvRows := [CsvHeader];
    var k := 0;
    assert csvRows == CsvRows(data[..0]);
    while k < |data|
      invariant 0 <= k <= |data|
      invariant csvRows == CsvRows(data[..k])
    {
      CsvRowsSnoc(data, k);
      csvRows := csvRows + [RowLine(data[k])];
      k := k + 1;
    }
    assert data[..k] == data;
    csv := JoinLines(csvRows);
  }

  datatype CsvExport = NothingToExport(notice: string) | CsvDownload(fileName: string, content: string, message: string)

  /** `exportCBTEntries` on the CBT page: an empty history gives a notice and
      no file; otherwise the CSV of every reflection, most recent first. */
  method ExportCbtEntries(st: Store, formatDate: int -> string) returns (result: CsvExport)
    requires st.Valid()
    ensures CbtHistory(st.items) == [] <==> result.NothingToExport?
    ensures result.NothingToExport? ==> result.notice == "No CBT entries to export yet!"
    ensures result.CsvDownload? ==>
              result.fileName == "cbt-journal-entries.csv"
              && result.content == JoinLines(CsvRows(ExportRows(CbtHistory(st.items), formatDate)))
              && result.message == "CBT entries exported successfully!"
  {
    var history := CbtHistory(st.items);
    if |history| == 0 {
      return NothingToExport("No CBT entries to export yet!");
    }
    var exportData := ExportRows(history, formatDate);
    var csvContent := ConvertToCsv(exportData);
    result := CsvDownload("cbt-journal-entries.csv", csvContent, "CBT entries exported successfully!");
  }

  // ---------------------------------------------------------------- entry list

  /** The entry card's preview: the response itself up to 150 characters,
      otherwise its first 150 characters and an ellipsis. */
  function EntryCardPreview(e: CbtEntry): (r: string)
    ensures |e.response| <= 150 ==> r == e.response
    ensures |e.response| > 150 ==> r == e.response[..150] + "..."
  {
    Preview(e.response, 150)
  }

  /** The page lists the three most recent reflections. */
  function RecentCbtEntries(history: seq<CbtEntry>): (r: seq<CbtEntry>)
    ensures |r| == if |history| < 3 then |history| else 3
    ensures forall i :: 0 <= i < |r| ==> r[i] == history[i]
  {
    Take(history, 3)
  }
}
