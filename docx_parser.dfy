/**
 * The plain-text résumé parser (`DocxParser` of the parser library). It takes the
 * basics from the whole text, cuts the text into sections by keyword and turns the
 * lines of each section into entries with a small line-driven state machine.
 * The three regular expressions of the source (e-mail, phone, year range) are
 * extractors passed in as `Patterns`.
 */
module DocxParser {
  import opened Wrappers
  import opened Seqs
  import opened Text

  // ---------------------------------------------------------------- validate

  /** The parser's intermediate form: the text and an optional metadata object. */
  datatype DocxData = DocxData(text: string, metadata: Option<map<string, string>>)

  const PlaceholderText: string := "DOCX parsing not yet implemented - please use JSON import for now"

  /** `validate`: the file is never read; the result is always the placeholder text with empty metadata. */
  function Validate<F>(file: F): (r: DocxData)
    ensures r.text == PlaceholderText && r.metadata == Some(map[])
  {
    DocxData(PlaceholderText, Some(map[]))
  }

  /**
   * The regular expressions, as extractors of their first match in a string:
   * the e-mail and phone patterns give the matched text, the year range gives
   * its two groups (the start year, and the end year or "present"/"current").
   */
  datatype Patterns = Patterns(
    email: string -> Option<string>,
    phone: string -> Option<string>,
    yearRange: string -> Option<(string, string)>)

  // ---------------------------------------------------------------- lines

  /** `text.split("\n")`. */
  function Lines(text: string): seq<string> {
    Split(text, {'\n'})
  }

  /** `line.trim()` is truthy. */
  predicate NonBlank(line: string) {
    Trim(line) != ""
  }

  /** `text.split("\n").filter((line) => line.trim())`. */
  function NonBlankLines(text: string): seq<string> {
    Filter(NonBlank, Lines(text))
  }

  // ---------------------------------------------------------------- basics

  datatype Basics = Basics(name: string, headline: string, email: string, phone: string, location: string)

  /** The basics of the default résumé that `convert` starts from. */
  const DefaultBasics := Basics("", "", "", "", "")

  /** `parseBasicInfo`: e-mail and phone when their patterns match, and the name from the first non-blank line. */
  function ParseBasicInfo(text: string, b: Basics, pat: Patterns): (r: Basics)
    ensures r.headline == b.headline && r.location == b.location
    ensures pat.email(text).None? ==> r.email == b.email
    ensures pat.email(text).Some? ==> r.email == pat.email(text).value
    ensures pat.phone(text).None? ==> r.phone == b.phone
    ensures pat.phone(text).Some? ==> r.phone == pat.phone(text).value
  {
    var lines := NonBlankLines(text);
    b.(email := pat.email(text).GetOr(b.email),
       phone := pat.phone(text).GetOr(b.phone),
       name := if |lines| > 0 then Trim(lines[0]) else b.name)
  }

  /** The name is the first line that is not blank, trimmed, and so it is never empty. */
  lemma NameIsFirstNonBlankLine(text: string, b: Basics, pat: Patterns, i: nat)
    requires i < |Lines(text)| && NonBlank(Lines(text)[i])
    requires forall j :: 0 <= j < i ==> !NonBlank(Lines(text)[j])
    ensures ParseBasicInfo(text, b, pat).name == Trim(Lines(text)[i])
    ensures ParseBasicInfo(text, b, pat).name != ""
  {
    FilterFirst(NonBlank, Lines(text), i);
  }

  /** A text made of blank lines leaves the name as it was. */
  lemma BlankTextKeepsName(text: string, b: Basics, pat: Patterns)
    requires forall i :: 0 <= i < |Lines(text)| ==> !NonBlank(Lines(text)[i])
    ensures ParseBasicInfo(text, b, pat).name == b.name
  {
    FilterNone(NonBlank, Lines(text));
  }

  // ---------------------------------------------------------------- sections

  const ExperienceKeywords: seq<string> := ["experience", "work", "employment", "professional"]
  const EducationKeywords: seq<string> := ["education", "academic", "university", "college", "school"]
  const SkillsKeywords: seq<string> := ["skills", "technologies", "competencies", "technical"]
  /** The words that make a lower-cased line a section heading (`isSectionHeader`). */
  const HeadingWords: seq<string> := ["experience", "education", "skills", "projects", "certifications", "awards", "languages"]

  /** `keywords.some((keyword) => line.includes(keyword))`. */
  predicate MentionsAny(line: string, keywords: seq<string>) {
    exists k :: k in keywords && Contains(line, k)
  }

  /** A line whose lower-cased form mentions one of `keywords` opens the section. */
  predicate OpensSection(line: string, keywords: seq<string>) {
    MentionsAny(ToLower(line), keywords)
  }

  /** `isSectionHeader`, applied to an already lower-cased line. */
  predicate IsSectionHeader(line: string) {
    MentionsAny(line, HeadingWords)
  }

  /** The first index at or after `from` of a line that opens the section. */
  function FindStart(lines: seq<string>, keywords: seq<string>, from: nat): (r: Option<nat>)
    requires from <= |lines|
    ensures r.Some? ==> from <= r.value < |lines| && OpensSection(lines[r.value], keywords)
    ensures r.Some? ==> forall j :: from <= j < r.value ==> !OpensSection(lines[j], keywords)
    ensures r.None? ==> forall j :: from <= j < |lines| ==> !OpensSection(lines[j], keywords)
    decreases |lines| - from
  {
    if from == |lines| then None
    else if OpensSection(lines[from], keywords) then Some(from)
    else FindStart(lines, keywords, from + 1)
  }

  /** The first index at or after `from` of a heading line, or the number of lines when there is none. */
  function FindEnd(lines: seq<string>, from: nat): (r: nat)
    requires from <= |lines|
    ensures from <= r <= |lines|
    ensures forall j :: from <= j < r ==> !IsSectionHeader(ToLower(lines[j]))
    ensures r < |lines| ==> IsSectionHeader(ToLower(lines[r]))
    decreases |lines| - from
  {
    if from == |lines| then |lines|
    else if IsSectionHeader(ToLower(lines[from])) then from
    else FindEnd(lines, from + 1)
  }

  /** `extractSection`: the block of lines from the opening line up to the next heading, joined again. */
  function ExtractSection(text: string, keywords: seq<string>): Option<string> {
    var lines := Lines(text);
    match FindStart(lines, keywords, 0)
    case None => None
    case Some(start) => Some(Join(lines[start..FindEnd(lines, start + 1)], "\n"))
  }

  /** No section is found exactly when no line mentions a keyword. */
  lemma ExtractSectionNone(text: string, keywords: seq<string>)
    ensures ExtractSection(text, keywords).None?
        <==> forall i :: 0 <= i < |Lines(text)| ==> !OpensSection(Lines(text)[i], keywords)
  {
  }

  /**
   * When `start` is the first line opening the section and `end` the first
   * heading after it (or the end of the text), the section is exactly the
   * lines `start .. end`: splitting it again gives them back, and it is not
   * empty when no keyword is empty.
   */
  lemma ExtractSectionBlock(text: string, keywords: seq<string>, start: nat, end: nat)
    requires start < end <= |Lines(text)|
    requires OpensSection(Lines(text)[start], keywords)
    requires forall j :: 0 <= j < start ==> !OpensSection(Lines(text)[j], keywords)
    requires forall j :: start < j < end ==> !IsSectionHeader(ToLower(Lines(text)[j]))
    requires end < |Lines(text)| ==> IsSectionHeader(ToLower(Lines(text)[end]))
    ensures ExtractSection(text, keywords) == Some(Join(Lines(text)[start..end], "\n"))
    ensures Split(ExtractSection(text, keywords).value, {'\n'}) == Lines(text)[start..end]
    ensures (forall k :: k in keywords ==> k != "") ==> ExtractSection(text, keywords).value != ""
  {
    var lines := Lines(text);
    var block := lines[start..end];
    assert FindStart(lines, keywords, 0) == Some(start);
    assert FindEnd(lines, start + 1) == end;
    SplitJoin(block, '\n', {'\n'});
    JoinFirst(block, "\n");
    if forall k :: k in keywords ==> k != "" {
      var k :| k in keywords && Contains(ToLower(block[0]), k);
      assert |block[0]| > 0;
    }
  }

  /** A section found with non-empty keywords is never the empty string, so `if (section)` only tests that one was found. */
  lemma SectionNotEmpty(text: string, keywords: seq<string>)
    requires forall k :: k in keywords ==> k != ""
    ensures ExtractSection(text, keywords).Some? ==> ExtractSection(text, keywords).value != ""
  {
    var lines := Lines(text);
    var s := FindStart(lines, keywords, 0);
    if s.Some? {
      ExtractSectionBlock(text, keywords, s.value, FindEnd(lines, s.value + 1));
    }
  }

  /** `extractSection` with its two scanning loops. */
  method ExtractSectionLines(text: string, keywords: seq<string>) returns (r: Option<string>)
    ensures r == ExtractSection(text, keywords)
  {
    var lines := Lines(text);
    var start := -1;
    var i := 0;
    while i < |lines| && start == -1
      invariant 0 <= i <= |lines|
      invariant start == -1 ==> FindStart(lines, keywords, 0) == FindStart(lines, keywords, i)
      invariant start != -1 ==> 0 <= start < |lines| && FindStart(lines, keywords, 0) == Some(start)
      decreases |lines| - i
    {
      if OpensSection(lines[i], keywords) {
        start := i;
      }
      i := i + 1;
    }
    if start == -1 {
      return None;
    }
    var end := -1;
    i := start + 1;
    while i < |lines| && end == -1
      invariant start + 1 <= i <= |lines|
      invariant end == -1 ==> FindEnd(lines, start + 1) == FindEnd(lines, i)
      invariant end != -1 ==> end == FindEnd(lines, start + 1)
      decreases |lines| - i
    {
      if IsSectionHeader(ToLower(lines[i])) {
        end := i;
      }
      i := i + 1;
    }
    if end == -1 {
      end := |lines|;
    }
    r := Some(Join(lines[start..end], "\n"));
  }

  // ---------------------------------------------------------------- entries

  /**
   * An entry under construction: the date from its year-range line, the first
   * and second lines after it, and the later lines joined by spaces. Experience
   * reads them as position and company, education as area and institution.
   */
  datatype Entry = Entry(date: string, first: string, second: string, summary: string)

  /** `${start} - ${end}` with "present" or "current", in any case, written "Present". */
  function DateText(start: string, end: string): string {
    start + " - " + (if ToLower(end) == "present" || ToLower(end) == "current" then "Present" else end)
  }

  /** `String(summary || "") + (summary ? " " : "") + line`. */
  function AddToSummary(summary: string, line: string): string {
    if summary == "" then line else summary + " " + line
  }

  /** The loop state: the finished entries and `currentEntry`. */
  datatype Scan = Scan(entries: seq<Entry>, current: Option<Entry>)

  /** The entries once the current one is flushed. */
  function Completed(st: Scan): seq<Entry> {
    st.entries + (if st.current.Some? then [st.current.value] else [])
  }

  /** A non-blank line without a year range fills the open entry: first field, second field, then the summary. */
  function Fill(e: Entry, t: string): Entry {
    if e.first == "" then e.(first := t)
    else if e.second == "" then e.(second := t)
    else e.(summary := AddToSummary(e.summary, t))
  }

  /** One iteration of the entry loop. */
  function Step(st: Scan, line: string, yearRange: string -> Option<(string, string)>): Scan {
    var t := Trim(line);
    if t == "" then st
    else if yearRange(t).Some? then
      Scan(Completed(st), Some(Entry(DateText(yearRange(t).value.0, yearRange(t).value.1), "", "", "")))
    else if st.current.None? then st
    else Scan(st.entries, Some(Fill(st.current.value, t)))
  }

  /** The loop state after the given lines, starting from `st`. */
  function Run(st: Scan, lines: seq<string>, yearRange: string -> Option<(string, string)>): Scan
    decreases |lines|
  {
    if lines == [] then st
    else Step(Run(st, lines[..|lines| - 1], yearRange), lines[|lines| - 1], yearRange)
  }

  /** The loop state after the given lines. */
  function ScanLines(lines: seq<string>, yearRange: string -> Option<(string, string)>): Scan {
    Run(Scan([], None), lines, yearRange)
  }

  lemma {:induction false} RunAppend(st: Scan, a: seq<string>, b: seq<string>, yearRange: string -> Option<(string, string)>)
    ensures Run(st, a + b, yearRange) == Run(Run(st, a, yearRange), b, yearRange)
    decreases |b|
  {
    if b == [] {
      assert a + b == a;
    } else {
      RunAppend(st, a, b[..|b| - 1], yearRange);
      assert (a + b)[..|a + b| - 1] == a + b[..|b| - 1];
    }
  }

  /** The entries `parseJobEntries` and `parseEducationEntries` build from a section's text. */
  function Entries(text: string, yearRange: string -> Option<(string, string)>): seq<Entry> {
    Completed(ScanLines(NonBlankLines(text), yearRange))
  }

  function DateOf(e: Entry): string {
    e.date
  }

  /** A line that starts an entry. */
  predicate IsDateLine(line: string, yearRange: string -> Option<(string, string)>) {
    Trim(line) != "" && yearRange(Trim(line)).Some?
  }

  /** The dates of the year-range lines, in order. */
  function LineDates(lines: seq<string>, yearRange: string -> Option<(string, string)>): seq<string>
    decreases |lines|
  {
    if lines == [] then []
    else
      LineDates(lines[..|lines| - 1], yearRange) + NewDates(lines[|lines| - 1], yearRange)
  }

  /** The date a line contributes: its year range's, when it has one. */
  function NewDates(line: string, yearRange: string -> Option<(string, string)>): seq<string> {
    if IsDateLine(line, yearRange)
    then [DateText(yearRange(Trim(line)).value.0, yearRange(Trim(line)).value.1)]
    else []
  }

  lemma SameDates(a: seq<Entry>, b: seq<Entry>)
    requires |a| == |b|
    requires forall i :: 0 <= i < |a| ==> a[i].date == b[i].date
    ensures Map(DateOf, a) == Map(DateOf, b)
  {
  }

  lemma StepOpens(st: Scan, line: string, yearRange: string -> Option<(string, string)>)
    requires IsDateLine(line, yearRange)
    ensures Completed(Step(st, line, yearRange)) == Completed(st) + [Step(st, line, yearRange).current.value]
  {
  }

  lemma StepKeepsDates(st: Scan, line: string, yearRange: string -> Option<(string, string)>)
    requires !IsDateLine(line, yearRange)
    ensures |Completed(Step(st, line, yearRange))| == |Completed(st)|
    ensures forall i :: 0 <= i < |Completed(st)| ==> Completed(Step(st, line, yearRange))[i].date == Completed(st)[i].date
  {
  }

  lemma StepDates(st: Scan, line: string, yearRange: string -> Option<(string, string)>)
    ensures Map(DateOf, Completed(Step(st, line, yearRange))) == Map(DateOf, Completed(st)) + NewDates(line, yearRange)
  {
    var next := Step(st, line, yearRange);
    if IsDateLine(line, yearRange) {
      StepOpens(st, line, yearRange);
      MapAppend(DateOf, Completed(st), [next.current.value]);
    } else {
      StepKeepsDates(st, line, yearRange);
      SameDates(Completed(next), Completed(st));
    }
  }

  /**
   * There is one entry per year-range line, in input order, carrying that
   * line's date; lines before the first year-range line make no entry.
   */
  lemma {:induction false} EntryDates(lines: seq<string>, yearRange: string -> Option<(string, string)>)
    ensures Map(DateOf, Completed(ScanLines(lines, yearRange))) == LineDates(lines, yearRange)
    ensures |Completed(ScanLines(lines, yearRange))| == |LineDates(lines, yearRange)|
    decreases |lines|
  {
    if lines != [] {
      var init := lines[..|lines| - 1];
      EntryDates(init, yearRange);
      StepDates(ScanLines(init, yearRange), lines[|lines| - 1], yearRange);
    }
  }

  /** A year-range line is a plain line when it is not blank and carries no year range. */
  predicate PlainLine(line: string, yearRange: string -> Option<(string, string)>) {
    Trim(line) != "" && yearRange(Trim(line)).None?
  }

  /** The entry a year-range line with date `date` makes from the trimmed lines `ts` that follow it. */
  function BlockEntry(date: string, ts: seq<string>): Entry {
    Entry(date,
          if |ts| > 0 then ts[0] else "",
          if |ts| > 1 then ts[1] else "",
          if |ts| > 2 then Join(ts[2..], " ") else "")
  }

  /** A plain line after a year-range line lands in the next empty field of the open entry. */
  lemma {:induction false} BlockEntryFill(date: string, ts: seq<string>, t: string)
    requires forall i :: 0 <= i < |ts| ==> ts[i] != ""
    requires t != ""
    ensures BlockEntry(date, ts + [t]) == Fill(BlockEntry(date, ts), t)
  {
    var us := ts + [t];
    if |ts| > 2 {
      assert us[2..] == ts[2..] + [t];
      JoinAppend(ts[2..], t, " ");
      JoinFirst(ts[2..], " ");
    } else if |ts| == 2 {
      assert us[2..] == [t];
    }
  }

  lemma StepOpensEntry(st: Scan, d: string, yearRange: string -> Option<(string, string)>)
    requires IsDateLine(d, yearRange)
    ensures Step(st, d, yearRange)
         == Scan(Completed(st), Some(BlockEntry(DateText(yearRange(Trim(d)).value.0, yearRange(Trim(d)).value.1), [])))
  {
  }

  lemma StepFills(st: Scan, line: string, yearRange: string -> Option<(string, string)>)
    requires PlainLine(line, yearRange) && st.current.Some?
    ensures Step(st, line, yearRange) == Scan(st.entries, Some(Fill(st.current.value, Trim(line))))
  {
  }

  /**
   * A year-range line followed by plain lines: the earlier entries are flushed,
   * and the open entry takes the first plain line as its first field, the
   * second as its second field, and the rest, joined by single spaces, as its summary.
   */
  /** From an open entry, plain lines fill it in order. */
  lemma {:induction false} RunBlock(st: Scan, body: seq<string>, yearRange: string -> Option<(string, string)>)
    requires st.current.Some? && st.current.value == BlockEntry(st.current.value.date, [])
    requires forall i :: 0 <= i < |body| ==> PlainLine(body[i], yearRange)
    ensures Run(st, body, yearRange) == Scan(st.entries, Some(BlockEntry(st.current.value.date, Map(Trim, body))))
    decreases |body|
  {
    if body != [] {
      var init := body[..|body| - 1];
      var last := body[|body| - 1];
      RunBlock(st, init, yearRange);
      MapSnoc(Trim, body);
      BlockStep(Run(st, init, yearRange), Map(Trim, init), last, yearRange);
    }
  }

  /**
   * A year-range line followed by plain lines: the earlier entries are flushed,
   * and the open entry takes the first plain line as its first field, the
   * second as its second field, and the rest, joined by single spaces, as its summary.
   */
  lemma EntryBlock(prefix: seq<string>, d: string, body: seq<string>, yearRange: string -> Option<(string, string)>)
    requires IsDateLine(d, yearRange)
    requires forall i :: 0 <= i < |body| ==> PlainLine(body[i], yearRange)
    ensures ScanLines(prefix + [d] + body, yearRange)
         == Scan(Completed(ScanLines(prefix, yearRange)),
                 Some(BlockEntry(DateText(yearRange(Trim(d)).value.0, yearRange(Trim(d)).value.1), Map(Trim, body))))
  {
    var st := ScanLines(prefix, yearRange);
    RunAppend(Scan([], None), prefix, [d], yearRange);
    RunAppend(Scan([], None), prefix + [d], body, yearRange);
    assert Run(st, [d], yearRange) == Step(st, d, yearRange);
    StepOpensEntry(st, d, yearRange);
    RunBlock(Step(st, d, yearRange), body, yearRange);
  }

  lemma BlockStep(st: Scan, ts: seq<string>, last: string, yearRange: string -> Option<(string, string)>)
    requires st.current.Some? && st.current.value == BlockEntry(st.current.value.date, ts)
    requires forall i :: 0 <= i < |ts| ==> ts[i] != ""
    requires PlainLine(last, yearRange)
    ensures Step(st, last, yearRange) == Scan(st.entries, Some(BlockEntry(st.current.value.date, ts + [Trim(last)])))
  {
    StepFills(st, last, yearRange);
    BlockEntryFill(st.current.value.date, ts, Trim(last));
  }

  /** The loop of `parseJobEntries` and `parseEducationEntries` over the non-blank lines. */
  method CollectEntries(lines: seq<string>, yearRange: string -> Option<(string, string)>) returns (entries: seq<Entry>)
    ensures entries == Completed(ScanLines(lines, yearRange))
  {
    entries := [];
    var current: Option<Entry> := None;
    var i := 0;
    while i < |lines|
      invariant 0 <= i <= |lines|
      invariant Scan(entries, current) == ScanLines(lines[..i], yearRange)
    {
      assert lines[..i + 1][..i] == lines[..i];
      var t := Trim(lines[i]);
      if t != "" {
        var m := yearRange(t);
        if m.Some? {
          if current.Some? {
            entries := entries + [current.value];
          }
          current := Some(Entry(DateText(m.value.0, m.value.1), "", "", ""));
        } else if current.Some? && current.value.first == "" {
          current := Some(current.value.(first := t));
        } else if current.Some? && current.value.second == "" {
          current := Some(current.value.(second := t));
        } else if current.Some? {
          current := Some(current.value.(summary := AddToSummary(current.value.summary, t)));
        }
      }
      i := i + 1;
    }
    assert lines[..i] == lines;
    if current.Some? {
      entries := entries + [current.value];
    }
  }

  datatype Experience = Experience(company: string, position: string, location: string, date: string, summary: string)
  datatype Education = Education(institution: string, studyType: string, area: string, score: string, date: string, summary: string)

  /** An experience entry: the first line after the dates is the position, the second the company. */
  function ExperienceOf(e: Entry): Experience {
    Experience(e.second, e.first, "", e.date, e.summary)
  }

  /** An education entry: the first line after the dates is the area, the second the institution. */
  function EducationOf(e: Entry): Education {
    Education(e.second, "", e.first, "", e.date, e.summary)
  }

  /** `parseJobEntries`. */
  method ParseJobEntries(text: string, yearRange: string -> Option<(string, string)>) returns (r: seq<Experience>)
    ensures r == Map(ExperienceOf, Entries(text, yearRange))
  {
    var entries := CollectEntries(NonBlankLines(text), yearRange);
    r := Map(ExperienceOf, entries);
  }

  /** `parseEducationEntries`. */
  method ParseEducationEntries(text: string, yearRange: string -> Option<(string, string)>) returns (r: seq<Education>)
    ensures r == Map(EducationOf, Entries(text, yearRange))
  {
    var entries := CollectEntries(NonBlankLines(text), yearRange);
    r := Map(EducationOf, entries);
  }

  // ---------------------------------------------------------------- skills

  /** The characters of `/[,;|]/`. */
  const SkillSeparators: set<char> := {',', ';', '|'}

  predicate NonEmpty(s: string) {
    s != ""
  }

  /** The skills one line names: none on a line mentioning "skill", else its trimmed, non-empty pieces. */
  function LineSkills(line: string): seq<string> {
    var t := Trim(line);
    if t == "" || Contains(ToLower(t), "skill") then []
    else Filter(NonEmpty, Map(Trim, Split(t, SkillSeparators)))
  }

  /** The skill names of the given lines, in order. */
  function SkillNames(lines: seq<string>): seq<string>
    decreases |lines|
  {
    if lines == [] then [] else SkillNames(lines[..|lines| - 1]) + LineSkills(lines[|lines| - 1])
  }

  /** A skill name: not empty, no surrounding white space, no separator. */
  predicate WellFormedSkill(name: string) {
    name != "" && !IsSpace(name[0]) && !IsSpace(name[|name| - 1])
    && forall c :: c in name ==> c !in SkillSeparators
  }

  lemma TrimmedPiece(piece: string)
    requires forall c :: c in piece ==> c !in SkillSeparators
    requires Trim(piece) != ""
    ensures WellFormedSkill(Trim(piece))
  {
    forall c | c in Trim(piece)
      ensures c !in SkillSeparators
    {
      TrimKeepsChars(piece, c);
    }
  }

  lemma LineSkillsWellFormed(line: string)
    ensures forall i :: 0 <= i < |LineSkills(line)| ==> WellFormedSkill(LineSkills(line)[i])
  {
    var t := Trim(line);
    if t != "" && !Contains(ToLower(t), "skill") {
      var pieces := Split(t, SkillSeparators);
      var trimmed := Map(Trim, pieces);
      var names := Filter(NonEmpty, trimmed);
      assert names == LineSkills(line);
      forall i | 0 <= i < |names|
        ensures WellFormedSkill(names[i])
      {
        assert names[i] in names;
        var j :| 0 <= j < |trimmed| && trimmed[j] == names[i];
        TrimmedPiece(pieces[j]);
      }
    }
  }

  /** Every skill name the parser produces is well formed. */
  lemma {:induction false} SkillNamesWellFormed(lines: seq<string>)
    ensures forall i :: 0 <= i < |SkillNames(lines)| ==> WellFormedSkill(SkillNames(lines)[i])
    decreases |lines|
  {
    if lines != [] {
      SkillNamesWellFormed(lines[..|lines| - 1]);
      LineSkillsWellFormed(lines[|lines| - 1]);
    }
  }

  /** Names joined by commas have no surrounding white space when the first and last name have none. */
  lemma JoinedSkillsTrimmed(names: seq<string>)
    requires |names| >= 1
    requires names[0] != "" && !IsSpace(names[0][0])
    requires names[|names| - 1] != "" && !IsSpace(names[|names| - 1][|names[|names| - 1]| - 1])
    ensures Trim(Join(names, ",")) == Join(names, ",")
  {
    var s := Join(names, ",");
    var last := names[|names| - 1];
    JoinFirst(names, ",");
    JoinLast(names, ",");
    assert s[0] == names[0][0];
    assert s[|s| - 1] == s[|s| - |last|..][|last| - 1] == last[|last| - 1];
    TrimTrimmed(s);
  }

  lemma TrimAllTrimmed(names: seq<string>)
    requires forall i :: 0 <= i < |names| ==> WellFormedSkill(names[i])
    ensures Map(Trim, names) == names
  {
    forall i | 0 <= i < |names|
      ensures Trim(names[i]) == names[i]
    {
      TrimTrimmed(names[i]);
    }
  }

  /** A line listing well-formed names separated by commas, without the word "skill", gives those names back. */
  lemma ListedSkills(names: seq<string>)
    requires |names| >= 1
    requires forall i :: 0 <= i < |names| ==> WellFormedSkill(names[i])
    requires !Contains(ToLower(Join(names, ",")), "skill")
    ensures LineSkills(Join(names, ",")) == names
  {
    assert WellFormedSkill(names[0]) && WellFormedSkill(names[|names| - 1]);
    JoinedSkillsTrimmed(names);
    SplitJoin(names, ',', SkillSeparators);
    TrimAllTrimmed(names);
    FilterAll(NonEmpty, names);
  }

  datatype Skill = Skill(name: string, description: string, level: int, keywords: seq<string>)

  function SkillOf(name: string): Skill {
    Skill(name, "", 0, [])
  }

  lemma SkillNamesPrefix(lines: seq<string>, i: nat)
    requires i < |lines|
    ensures SkillNames(lines[..i + 1]) == SkillNames(lines[..i]) + LineSkills(lines[i])
  {
    assert lines[..i + 1][..i] == lines[..i];
  }

  /** The inner loop of `parseSkillsEntries`: one skill pushed per name. */
  method PushSkills(skills: seq<Skill>, names: seq<string>) returns (r: seq<Skill>)
    ensures r == skills + Map(SkillOf, names)
  {
    r := skills;
    var j := 0;
    while j < |names|
      invariant 0 <= j <= |names|
      invariant r == skills + Map(SkillOf, names[..j])
    {
      MapSnoc(SkillOf, names[..j + 1]);
      assert names[..j + 1][..j] == names[..j];
      r := r + [SkillOf(names[j])];
      j := j + 1;
    }
    assert names[..j] == names;
  }

  /** One more line extends the skills by that line's skills. */
  lemma SkillsStep(lines: seq<string>, i: nat, before: seq<Skill>, after: seq<Skill>)
    requires i < |lines|
    requires before == Map(SkillOf, SkillNames(lines[..i]))
    requires after == before + Map(SkillOf, LineSkills(lines[i]))
    ensures after == Map(SkillOf, SkillNames(lines[..i + 1]))
  {
    MapAppend(SkillOf, SkillNames(lines[..i]), LineSkills(lines[i]));
    SkillNamesPrefix(lines, i);
  }

  /** `parseSkillsEntries`: the skills of each non-blank line, in order. */
  method ParseSkillsEntries(text: string) returns (skills: seq<Skill>)
    ensures skills == Map(SkillOf, SkillNames(NonBlankLines(text)))
  {
    var lines := NonBlankLines(text);
    skills := [];
    var i := 0;
    while i < |lines|
      invariant 0 <= i <= |lines|
      invariant skills == Map(SkillOf, SkillNames(lines[..i]))
    {
      var before := skills;
      var t := Trim(lines[i]);
      if t != "" && !Contains(ToLower(t), "skill") {
        var names := Filter(NonEmpty, Map(Trim, Split(t, SkillSeparators)));
        skills := PushSkills(skills, names);
      }
      SkillsStep(lines, i, before, skills);
      i := i + 1;
    }
    assert lines[..i] == lines;
  }

  // ---------------------------------------------------------------- convert

  /** The parts of the résumé `convert` fills in; everything else stays at its default. */
  datatype Parsed = Parsed(basics: Basics, experience: seq<Experience>, education: seq<Education>, skills: seq<Skill>)

  function SectionExperience(text: string, yearRange: string -> Option<(string, string)>): seq<Experience> {
    match ExtractSection(text, ExperienceKeywords)
    case None => []
    case Some(s) => Map(ExperienceOf, Entries(s, yearRange))
  }

  function SectionEducation(text: string, yearRange: string -> Option<(string, string)>): seq<Education> {
    match ExtractSection(text, EducationKeywords)
    case None => []
    case Some(s) => Map(EducationOf, Entries(s, yearRange))
  }

  function SectionSkills(text: string): seq<Skill> {
    match ExtractSection(text, SkillsKeywords)
    case None => []
    case Some(s) => Map(SkillOf, SkillNames(NonBlankLines(s)))
  }

  /** `parseExperience`: the experience items, when the section is found; else the default empty list. */
  method ParseExperience(text: string, yearRange: string -> Option<(string, string)>) returns (items: seq<Experience>)
    ensures items == SectionExperience(text, yearRange)
  {
    items := [];
    SectionNotEmpty(text, ExperienceKeywords);
    var section := ExtractSectionLines(text, ExperienceKeywords);
    if section.Some? && section.value != "" {
      items := ParseJobEntries(section.value, yearRange);
    }
  }

  /** `parseEducation`. */
  method ParseEducation(text: string, yearRange: string -> Option<(string, string)>) returns (items: seq<Education>)
    ensures items == SectionEducation(text, yearRange)
  {
    items := [];
    SectionNotEmpty(text, EducationKeywords);
    var section := ExtractSectionLines(text, EducationKeywords);
    if section.Some? && section.value != "" {
      items := ParseEducationEntries(section.value, yearRange);
    }
  }

  /** `parseSkills`. */
  method ParseSkills(text: string) returns (items: seq<Skill>)
    ensures items == SectionSkills(text)
  {
    items := [];
    SectionNotEmpty(text, SkillsKeywords);
    var section := ExtractSectionLines(text, SkillsKeywords);
    if section.Some? && section.value != "" {
      items := ParseSkillsEntries(section.value);
    }
  }

  /** `convert`: basics, then the experience, education and skills sections, each only when found. */
  method Convert(data: DocxData, pat: Patterns) returns (r: Parsed)
    ensures r.basics == ParseBasicInfo(data.text, DefaultBasics, pat)
    ensures r.experience == SectionExperience(data.text, pat.yearRange)
    ensures r.education == SectionEducation(data.text, pat.yearRange)
    ensures r.skills == SectionSkills(data.text)
  {
    var basics := ParseBasicInfo(data.text, DefaultBasics, pat);
    var experience := ParseExperience(data.text, pat.yearRange);
    var education := ParseEducation(data.text, pat.yearRange);
    var skills := ParseSkills(data.text);
    r := Parsed(basics, experience, education, skills);
  }
}
