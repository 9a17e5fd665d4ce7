/** The checklist completion stamper: classifying a line as a checked or unchecked
    list item, rendering the date/time stamp, appending it to one line of the document,
    and the handler that remembers, per file and per line, whether a line was last seen
    checked, so that only an unchecked-to-checked transition is stamped. */
module Checkbox {
  import opened Text
  import opened Settings

  datatype Option<T> = None | Some(value: T)

  /** The completion glyph U+2705. */
  const Checkmark: char := '\U{2705}'

  // ---------------------------------------------------------------- line classifiers

  /** Index of the first non-blank character at or after `i`. */
  function SkipWhitespace(line: string, i: nat): (j: nat)
    requires i <= |line|
    ensures i <= j <= |line|
    ensures forall k :: i <= k < j ==> IsWhitespace(line[k])
    ensures j == |line| || !IsWhitespace(line[j])
    decreases |line| - i
  {
    if i < |line| && IsWhitespace(line[i]) then SkipWhitespace(line, i + 1) else i
  }

  /** Index of the first non-digit at or after `i`. */
  function SkipDigits(line: string, i: nat): (j: nat)
    requires i <= |line|
    ensures i <= j <= |line|
    ensures forall k :: i <= k < j ==> IsDigit(line[k])
    ensures j == |line| || !IsDigit(line[j])
    decreases |line| - i
  {
    if i < |line| && IsDigit(line[i]) then SkipDigits(line, i + 1) else i
  }

  /** The end of a list marker starting at `i`: one of `-`, `*`, `+`, or digits closed
      by `.` or `)`. */
  function MarkerEnd(line: string, i: nat): (r: Option<nat>)
    requires i <= |line|
    ensures r.Some? ==> i < r.value <= |line|
  {
    if i < |line| && (line[i] == '-' || line[i] == '*' || line[i] == '+') then
      Some(i + 1)
    else if i < |line| && IsDigit(line[i]) then
      var j := SkipDigits(line, i);
      if j < |line| && (line[j] == '.' || line[j] == ')') then Some(j + 1) else None
    else
      None
  }

  /** Where the checkbox token of a list item starts: just after any indentation and
      the list marker. The scan is the only way the anchored pattern can match, since a
      marker never starts with whitespace and digits never end with `.` or `)`. */
  function BoxStart(line: string): Option<nat> {
    MarkerEnd(line, SkipWhitespace(line, 0))
  }

  /** The five characters at `j` are a space, `[`, `mark`, `]` and a space. */
  predicate BoxAt(line: string, j: nat, mark: char) {
    j + 5 <= |line| && line[j..j + 5] == [' ', '[', mark, ']', ' ']
  }

  /** The line is a list item whose checkbox holds `mark`. */
  predicate HasBox(line: string, mark: char) {
    match BoxStart(line)
    case Some(j) => BoxAt(line, j, mark)
    case None => false
  }

  /** `isCheckedCheckbox`: the pattern is case-insensitive, so `[x]` and `[X]` both count. */
  predicate IsCheckedCheckbox(line: string) {
    HasBox(line, 'x') || HasBox(line, 'X')
  }

  /** `isUncheckedCheckbox`: exactly `[ ]`. */
  predicate IsUncheckedCheckbox(line: string) {
    HasBox(line, ' ')
  }

  /** A list marker: `-`, `*` or `+`, or one or more digits followed by `.` or `)`. */
  ghost predicate IsMarker(m: string) {
    (|m| == 1 && (m[0] == '-' || m[0] == '*' || m[0] == '+'))
    || (|m| >= 2 && (m[|m| - 1] == '.' || m[|m| - 1] == ')') && AllDigits(m[..|m| - 1]))
  }

  /** The grammar of a checklist item, read off the pattern: indentation, a marker,
      then the token ` [mark] `. */
  ghost predicate ItemPrefix(line: string, mark: char) {
    exists i: nat, j: nat :: i <= j <= |line| && AllWhitespace(line[..i])
                             && IsMarker(line[i..j]) && BoxAt(line, j, mark)
  }

  /** The whitespace scan stops at the end of a blank prefix followed by a non-blank. */
  lemma IndentEnd(line: string, i: nat)
    requires i < |line| && AllWhitespace(line[..i]) && !IsWhitespace(line[i])
    ensures SkipWhitespace(line, 0) == i
  {
    assert forall k :: 0 <= k < i ==> line[k] == line[..i][k];
  }

  /** The digit scan stops at the end of a run of digits followed by a non-digit. */
  lemma DigitRunEnd(line: string, i: nat, d: nat)
    requires i <= d < |line| && !IsDigit(line[d])
    requires forall k :: i <= k < d ==> IsDigit(line[k])
    ensures SkipDigits(line, i) == d
  {
  }

  /** The scan finds every indentation-plus-marker split of the line. */
  lemma BoxStartComplete(line: string, i: nat, j: nat)
    requires i <= j <= |line|
    requires AllWhitespace(line[..i]) && IsMarker(line[i..j])
    ensures BoxStart(line) == Some(j)
  {
    var m := line[i..j];
    assert line[i] == m[0];
    if |m| >= 2 {
      var digits := m[..|m| - 1];
      assert forall k :: i <= k < j - 1 ==> line[k] == digits[k - i];
      assert line[i] == digits[0];
      IndentEnd(line, i);
      assert line[j - 1] == m[|m| - 1];
      DigitRunEnd(line, i, j - 1);
    } else {
      IndentEnd(line, i);
    }
  }

  /** What the scan finds is an indentation-plus-marker split of the line. */
  lemma BoxStartSound(line: string, j: nat)
    requires BoxStart(line) == Some(j)
    ensures var i := SkipWhitespace(line, 0);
            AllWhitespace(line[..i]) && IsMarker(line[i..j])
  {
    var i := SkipWhitespace(line, 0);
    var m := line[i..j];
    if !(line[i] == '-' || line[i] == '*' || line[i] == '+') {
      var d := SkipDigits(line, i);
      assert d == j - 1 && d > i;
      assert m[..|m| - 1] == line[i..d];
      assert m[|m| - 1] == line[d];
      assert AllDigits(line[i..d]) by {
        forall k | 0 <= k < d - i ensures IsDigit(line[i..d][k]) { assert line[i..d][k] == line[i + k]; }
      }
    }
  }

  /** Both classifiers decide exactly the item grammar, for any checkbox mark. */
  lemma {:induction false} HasBoxGrammar(line: string, mark: char)
    ensures HasBox(line, mark) <==> ItemPrefix(line, mark)
  {
    if HasBox(line, mark) {
      var i := SkipWhitespace(line, 0);
      var j := BoxStart(line).value;
      BoxStartSound(line, j);
      assert AllWhitespace(line[..i]) && IsMarker(line[i..j]) && BoxAt(line, j, mark);
    }
    if ItemPrefix(line, mark) {
      var i: nat, j: nat :| i <= j <= |line| && AllWhitespace(line[..i])
                            && IsMarker(line[i..j]) && BoxAt(line, j, mark);
      BoxStartComplete(line, i, j);
    }
  }

  /** A line is checked exactly when it is indentation, a marker and ` [x] ` or ` [X] `. */
  lemma CheckedGrammar(line: string)
    ensures IsCheckedCheckbox(line) <==> ItemPrefix(line, 'x') || ItemPrefix(line, 'X')
  {
    HasBoxGrammar(line, 'x');
    HasBoxGrammar(line, 'X');
  }

  /** A line is unchecked exactly when it is indentation, a marker and ` [ ] `. */
  lemma UncheckedGrammar(line: string)
    ensures IsUncheckedCheckbox(line) <==> ItemPrefix(line, ' ')
  {
    HasBoxGrammar(line, ' ');
  }

  /** No line is both checked and unchecked. */
  lemma CheckedUncheckedExclusive(line: string)
    ensures !(IsCheckedCheckbox(line) && IsUncheckedCheckbox(line))
  {
  }

  /** For an item with a three-character box, the box alone decides its class: `[x]` and
      `[X]` are checked, `[ ]` is unchecked, anything else is neither. */
  lemma ClassifyBox(indent: string, marker: string, box: string, text: string)
    requires AllWhitespace(indent) && IsMarker(marker) && |box| == 3
    ensures var line := indent + marker + " " + box + " " + text;
            (IsCheckedCheckbox(line) <==> box == "[x]" || box == "[X]")
            && (IsUncheckedCheckbox(line) <==> box == "[ ]")
  {
    var line := indent + marker + " " + box + " " + text;
    var i, j := |indent|, |indent| + |marker|;
    assert line[..i] == indent;
    assert line[i..j] == marker;
    BoxStartComplete(line, i, j);
    assert line[j..j + 5] == [' ', box[0], box[1], box[2], ' '];
    assert box == [box[0], box[1], box[2]];
  }

  /** A box whose inside is not one character, and holds no `]`, makes a line neither
      checked nor unchecked: the fourth character of the token is then not `]`. */
  lemma MalformedBoxNeither(indent: string, marker: string, inner: string, text: string)
    requires AllWhitespace(indent) && IsMarker(marker)
    requires |inner| != 1 && ']' !in inner
    ensures var line := indent + marker + " [" + inner + "] " + text;
            !IsCheckedCheckbox(line) && !IsUncheckedCheckbox(line)
  {
    var i, j := |indent|, |indent| + |marker|;
    var line := indent + marker + " [" + inner + "] " + text;
    assert line[..i] == indent && line[i..j] == marker;
    BoxStartComplete(line, i, j);
    if |inner| == 0 {
      assert line[j + 3] == ' ';
    } else {
      assert line[j + 3] == inner[1];
    }
  }

  /** An empty box `[]` makes a line neither checked nor unchecked. */
  lemma EmptyBoxNeither(indent: string, marker: string, text: string)
    requires AllWhitespace(indent) && IsMarker(marker)
    ensures var line := indent + marker + " [] " + text;
            !IsCheckedCheckbox(line) && !IsUncheckedCheckbox(line)
  {
    MalformedBoxNeither(indent, marker, "", text);
    assert indent + marker + " [" + "" + "] " + text == indent + marker + " [] " + text;
  }

  /** A doubled mark `[xx]` makes a line neither checked nor unchecked. */
  lemma DoubleMarkNeither(indent: string, marker: string, text: string)
    requires AllWhitespace(indent) && IsMarker(marker)
    ensures var line := indent + marker + " [xx] " + text;
            !IsCheckedCheckbox(line) && !IsUncheckedCheckbox(line)
  {
    MalformedBoxNeither(indent, marker, "xx", text);
    assert indent + marker + " [" + "xx" + "] " + text == indent + marker + " [xx] " + text;
  }

  /** Text appended to a list item leaves its class unchanged. */
  lemma {:induction false} HasBoxExtend(line: string, mark: char, t: string)
    requires HasBox(line, mark)
    ensures HasBox(line + t, mark)
  {
    HasBoxGrammar(line, mark);
    var i: nat, j: nat :| i <= j <= |line| && AllWhitespace(line[..i])
                          && IsMarker(line[i..j]) && BoxAt(line, j, mark);
    var s := line + t;
    assert s[..i] == line[..i];
    assert s[i..j] == line[i..j];
    assert s[j..j + 5] == line[j..j + 5];
    HasBoxGrammar(s, mark);
  }

  /** `shouldExcludeLine`: some pattern occurs in the line. */
  function ShouldExcludeLine(line: string, patterns: seq<string>): (r: bool)
    ensures r <==> exists k :: 0 <= k < |patterns| && Contains(line, patterns[k])
    decreases |patterns|
  {
    if |patterns| == 0 then false
    else
      var r := Contains(line, patterns[0]) || ShouldExcludeLine(line, patterns[1..]);
      assert forall k :: 1 <= k < |patterns| ==> patterns[k] == patterns[1..][k - 1];
      r
  }

  /** No pattern excludes nothing; the empty pattern excludes every line. */
  lemma ExcludeEdgeCases(line: string, patterns: seq<string>)
    ensures !ShouldExcludeLine(line, [])
    ensures "" in patterns ==> ShouldExcludeLine(line, patterns)
  {
    if "" in patterns {
      var k :| 0 <= k < |patterns| && patterns[k] == "";
      assert OccursAt(line, "", 0);
    }
  }

  /** `hasCompletionStamp`: the line contains the completion glyph. */
  function HasCompletionStamp(line: string): (r: bool)
    ensures r <==> Checkmark in line
  {
    var r := Contains(line, [Checkmark]);
    assert Checkmark in line ==> OccursAt(line, [Checkmark], 0) || r by {
      if Checkmark in line {
        var k :| 0 <= k < |line| && line[k] == Checkmark;
        assert OccursAt(line, [Checkmark], k);
      }
    }
    assert r ==> Checkmark in line by {
      if r {
        var k: nat :| OccursAt(line, [Checkmark], k);
        assert line[k] == Checkmark;
      }
    }
    r
  }

  // ---------------------------------------------------------------- stamp formatting

  /** A local date and time as the clock reports it; `month` is one-based. */
  datatype DateTime = DateTime(year: nat, month: nat, day: nat, hour: nat, minute: nat)

  predicate ValidDateTime(d: DateTime) {
    1 <= d.month <= 12 && 1 <= d.day <= 31 && d.hour < 24 && d.minute < 60
  }

  /** `formatDate`: the year, then the zero-padded month and day, separated by `-`.
      The format argument is accepted and ignored. */
  function FormatDate(date: DateTime, format: string): string {
    NatToString(date.year) + "-" + Pad2(date.month) + "-" + Pad2(date.day)
  }

  /** `formatTime`: zero-padded hours and minutes separated by `:`. */
  function FormatTime(date: DateTime): string {
    Pad2(date.hour) + ":" + Pad2(date.minute)
  }

  /** The date reads back as its three fields, whatever the format argument; with a
      four-digit year it is `YYYY-MM-DD`, ten characters. */
  lemma FormatDateFields(date: DateTime, format: string)
    requires ValidDateTime(date)
    ensures var r := FormatDate(date, format);
            var n := |r| - 6;
            n >= 1 && r[n] == '-' && r[n + 3] == '-'
            && r[..n] == NatToString(date.year)
            && AllDigits(r[..n]) && DigitsValue(r[..n]) == date.year
            && AllDigits(r[n + 1..n + 3]) && DigitsValue(r[n + 1..n + 3]) == date.month
            && AllDigits(r[n + 4..]) && DigitsValue(r[n + 4..]) == date.day
    ensures 1000 <= date.year <= 9999 ==> |FormatDate(date, format)| == 10
    ensures FormatDate(date, format) == FormatDate(date, "YYYY-MM-DD")
  {
    var y, m, d := NatToString(date.year), Pad2(date.month), Pad2(date.day);
    var r := FormatDate(date, format);
    var n := |y|;
    assert r == y + "-" + m + "-" + d;
    assert r[..n] == y;
    assert r[n + 1..n + 3] == m;
    assert r[n + 4..] == d;
    NatToStringLength(date.year);
  }

  /** Hours and minutes in range give exactly `HH:MM`, reading back as the two fields. */
  lemma FormatTimeFields(date: DateTime)
    requires ValidDateTime(date)
    ensures var r := FormatTime(date);
            |r| == 5 && r[2] == ':'
            && AllDigits(r[..2]) && DigitsValue(r[..2]) == date.hour
            && AllDigits(r[3..]) && DigitsValue(r[3..]) == date.minute
  {
    var r := FormatTime(date);
    assert r[..2] == Pad2(date.hour);
    assert r[3..] == Pad2(date.minute);
  }

  /** The stamp appended to a line: a space, the glyph, a space and the date, then a
      space and the time when the settings ask for it. */
  function StampText(now: DateTime, settings: ToolboxSettings): string {
    var timeStr := if settings.includeTime then " " + FormatTime(now) else "";
    " " + [Checkmark] + " " + FormatDate(now, settings.dateFormat) + timeStr
  }

  /** A stamp for a four-digit year is 13 characters, or 19 with the time; it carries the
      glyph at index 1 and the formatted date and time at fixed offsets. */
  lemma StampTextShape(now: DateTime, settings: ToolboxSettings)
    requires ValidDateTime(now) && 1000 <= now.year <= 9999
    ensures var s := StampText(now, settings);
            |s| == (if settings.includeTime then 19 else 13)
            && s[..3] == [' ', Checkmark, ' ']
            && s[3..13] == FormatDate(now, "YYYY-MM-DD")
            && (settings.includeTime ==> s[13] == ' ' && s[14..] == FormatTime(now))
  {
    FormatDateFields(now, settings.dateFormat);
    FormatTimeFields(now);
    var s := StampText(now, settings);
    var date := FormatDate(now, settings.dateFormat);
    assert s[3..13] == date;
    if settings.includeTime {
      assert s[14..] == FormatTime(now);
    }
  }

  /** The three guards of `applyCheckboxStamp`: a checked item, not excluded, not yet stamped. */
  predicate StampApplies(line: string, settings: ToolboxSettings) {
    IsCheckedCheckbox(line)
    && !ShouldExcludeLine(line, settings.excludePatterns)
    && !HasCompletionStamp(line)
  }

  /** A stamped line keeps the old text as its prefix and now carries the glyph. */
  function StampedLine(line: string, settings: ToolboxSettings, now: DateTime): (r: string)
    ensures |r| > |line| && r[..|line|] == line
    ensures HasCompletionStamp(r)
  {
    var stamp := StampText(now, settings);
    var r := line + stamp;
    assert stamp[1] == Checkmark;
    assert r[|line| + 1] == stamp[1];
    r
  }

  /** Stamping keeps the line a checked item and makes the guards fail from then on,
      under any settings: a second application is a no-op. */
  lemma StampIdempotent(line: string, settings: ToolboxSettings, now: DateTime, later: ToolboxSettings)
    requires StampApplies(line, settings)
    ensures IsCheckedCheckbox(StampedLine(line, settings, now))
    ensures !StampApplies(StampedLine(line, settings, now), later)
  {
    var t := StampText(now, settings);
    if HasBox(line, 'x') { HasBoxExtend(line, 'x', t); } else { HasBoxExtend(line, 'X', t); }
  }

  /** With the defaults, a line tagged `#task` is never stamped. */
  lemma DefaultsExcludeTask(line: string)
    requires Contains(line, "#task")
    ensures !StampApplies(line, DefaultSettings)
  {
    assert DefaultSettings.excludePatterns[0] == "#task";
  }

  /** `applyCheckboxStamp` on an editor abstracted as its array of lines: appends the
      stamp to line `lineNumber` exactly when the guards pass, and reports whether it did.
      No other line changes. */
  method ApplyCheckboxStamp(lines: array<string>, lineNumber: nat, settings: ToolboxSettings,
                            now: DateTime) returns (applied: bool)
    requires lineNumber < lines.Length
    modifies lines
    ensures applied == StampApplies(old(lines[lineNumber]), settings)
    ensures lines[..] == if applied then old(lines[..])[lineNumber := StampedLine(old(lines[lineNumber]), settings, now)]
                         else old(lines[..])
  {
    var lineText := lines[lineNumber];
    if !IsCheckedCheckbox(lineText) {
      return false;
    }
    if ShouldExcludeLine(lineText, settings.excludePatterns) {
      return false;
    }
    if HasCompletionStamp(lineText) {
      return false;
    }
    var dateStr := FormatDate(now, settings.dateFormat);
    var timeStr := if settings.includeTime then " " + FormatTime(now) else "";
    var stamp := " " + [Checkmark] + " " + dateStr + timeStr;
    lines[lineNumber] := lineText + stamp;
    return true;
  }

  // ---------------------------------------------------------------- change handler

  /** The recorded line states of one file; a file not seen before has none. */
  function FileStates(states: map<string, map<nat, bool>>, filePath: string): map<nat, bool> {
    if filePath in states then states[filePath] else map[]
  }

  /** The file's line states after a change on line `lineNumber`: `false` for an
      unchecked item, `true` for a checked one, untouched for any other line. */
  function RecordLine(fileStates: map<nat, bool>, lineNumber: nat, lineText: string): (r: map<nat, bool>)
    ensures IsUncheckedCheckbox(lineText) ==> lineNumber in r && !r[lineNumber]
    ensures IsCheckedCheckbox(lineText) ==> lineNumber in r && r[lineNumber]
    ensures !IsUncheckedCheckbox(lineText) && !IsCheckedCheckbox(lineText) ==> r == fileStates
    ensures forall k :: k != lineNumber ==> (k in r <==> k in fileStates)
    ensures forall k :: k != lineNumber && k in r ==> r[k] == fileStates[k]
  {
    if IsUncheckedCheckbox(lineText) then fileStates[lineNumber := false]
    else if IsCheckedCheckbox(lineText) then fileStates[lineNumber := true]
    else fileStates
  }

  /** Whether a change stamps the cursor line: the guards of `applyCheckboxStamp` pass
      and the line was not last recorded as checked (it was recorded unchecked, or not at
      all). */
  function StampsOnChange(fileStates: map<nat, bool>, lineNumber: nat, lineText: string,
                          settings: ToolboxSettings): (r: bool)
    ensures r <==> StampApplies(lineText, settings)
                   && !(lineNumber in fileStates && fileStates[lineNumber])
  {
    CheckedUncheckedExclusive(lineText);
    if IsUncheckedCheckbox(lineText) then
      false
    else if IsCheckedCheckbox(lineText) then
      var wasUnchecked := lineNumber in fileStates && !fileStates[lineNumber];
      (wasUnchecked || lineNumber !in fileStates)
      && !HasCompletionStamp(lineText) && StampApplies(lineText, settings)
    else
      false
  }

  /** A line recorded as checked is not stamped again by a later change, even if its
      stamp was deleted meanwhile; it must be seen unchecked first. */
  lemma CheckedLineNotRestamped(fileStates: map<nat, bool>, lineNumber: nat, before: string,
                                after: string, settings: ToolboxSettings)
    requires IsCheckedCheckbox(before)
    ensures !StampsOnChange(RecordLine(fileStates, lineNumber, before), lineNumber, after, settings)
  {
  }

  /** Unchecking a line and then checking it stamps it, unless excluded or already stamped. */
  lemma UncheckThenCheckStamps(fileStates: map<nat, bool>, lineNumber: nat, before: string,
                               after: string, settings: ToolboxSettings)
    requires IsUncheckedCheckbox(before)
    ensures StampsOnChange(RecordLine(fileStates, lineNumber, before), lineNumber, after, settings)
            == StampApplies(after, settings)
  {
  }

  /** A change on one line does not alter the decision for any other line. */
  lemma OtherLinesIndependent(fileStates: map<nat, bool>, changed: nat, text: string,
                              lineNumber: nat, lineText: string, settings: ToolboxSettings)
    requires changed != lineNumber
    ensures StampsOnChange(RecordLine(fileStates, changed, text), lineNumber, lineText, settings)
            == StampsOnChange(fileStates, lineNumber, lineText, settings)
  {
  }

  lemma YearExample()
    ensures NatToString(2026) == "2026"
  {
    assert NatToString(2) == "2";
    assert NatToString(20) == "20";
    assert NatToString(202) == "202";
  }

  /** 2026-02-07 renders as `2026-02-07`. */
  lemma DateExample()
    ensures FormatDate(DateTime(2026, 2, 7, 14, 30), "YYYY-MM-DD") == "2026-02-07"
  {
    YearExample();
    assert Pad2(2) == "02";
    assert Pad2(7) == "07";
  }

  /** 14:30 renders as `14:30`. */
  lemma TimeExample()
    ensures FormatTime(DateTime(2026, 2, 7, 14, 30)) == "14:30"
  {
    assert Pad2(14) == "14";
    assert Pad2(30) == "30";
  }

  /** Stamping `- [x] Buy groceries` on 2026-02-07 at 14:30 with the defaults: date only. */
  lemma StampExample()
    ensures StampedLine("- [x] Buy groceries", DefaultSettings, DateTime(2026, 2, 7, 14, 30))
            == "- [x] Buy groceries" + " \U{2705} " + "2026-02-07"
  {
    var now := DateTime(2026, 2, 7, 14, 30);
    DateExample();
    var date := FormatDate(now, "YYYY-MM-DD");
    assert " " + [Checkmark] + " " == " \U{2705} ";
    assert StampText(now, DefaultSettings) == " \U{2705} " + date + "";
    assert date + "" == date;
  }

  /** The same with the time included. */
  lemma TimedStampExample()
    ensures StampedLine("- [x] Buy groceries", ToolboxSettings(true, true, ["#task"], "YYYY-MM-DD"),
                        DateTime(2026, 2, 7, 14, 30))
            == "- [x] Buy groceries" + " \U{2705} " + "2026-02-07" + " 14:30"
  {
    var now, timed := DateTime(2026, 2, 7, 14, 30), ToolboxSettings(true, true, ["#task"], "YYYY-MM-DD");
    DateExample();
    TimeExample();
    var date := FormatDate(now, "YYYY-MM-DD");
    assert " " + [Checkmark] + " " == " \U{2705} ";
    assert " " + FormatTime(now) == " 14:30";
    assert StampText(now, timed) == " \U{2705} " + date + " 14:30";
  }

  /** `CheckboxHandler`: the current settings and, per file path, the last seen
      checked (`true`) or unchecked (`false`) state of each line number. */
  class CheckboxHandler {
    var settings: ToolboxSettings
    var previousLineStates: map<string, map<nat, bool>>

    constructor (settings: ToolboxSettings)
      ensures this.settings == settings && previousLineStates == map[]
    {
      this.settings := settings;
      previousLineStates := map[];
    }

    /** `updateSettings`: replaces the settings; the recorded states stay. */
    method UpdateSettings(settings: ToolboxSettings)
      modifies this
      ensures this.settings == settings
      ensures previousLineStates == old(previousLineStates)
    {
      this.settings := settings;
    }

    /** `handleEditorChange` for the line under the cursor of the file `filePath`,
        with the clock reading `now`: new files get an entry, the cursor line's state is
        recorded, and the line is stamped on an unchecked-to-checked transition. */
    method HandleEditorChange(lines: array<string>, cursorLine: nat, filePath: string, now: DateTime)
      requires cursorLine < lines.Length
      modifies this, lines
      ensures settings == old(settings)
      ensures previousLineStates == old(previousLineStates)[filePath :=
                RecordLine(FileStates(old(previousLineStates), filePath), cursorLine, old(lines[cursorLine]))]
      ensures lines[..] ==
                if StampsOnChange(FileStates(old(previousLineStates), filePath), cursorLine,
                                  old(lines[cursorLine]), settings)
                then old(lines[..])[cursorLine := StampedLine(old(lines[cursorLine]), settings, now)]
                else old(lines[..])
    {
      var lineNumber := cursorLine;
      var lineText := lines[lineNumber];

      var fileStates: map<nat, bool>;
      if filePath in previousLineStates {
        fileStates := previousLineStates[filePath];
      } else {
        fileStates := map[];
        previousLineStates := previousLineStates[filePath := fileStates];
      }

      assert fileStates == FileStates(old(previousLineStates), filePath);
      ghost var stamps := StampsOnChange(fileStates, lineNumber, lineText, settings);
      ghost var recorded := RecordLine(fileStates, lineNumber, lineText);

      var wasUnchecked := lineNumber in fileStates && fileStates[lineNumber] == false;
      var isNowChecked := IsCheckedCheckbox(lineText);

      if IsUncheckedCheckbox(lineText) {
        fileStates := fileStates[lineNumber := false];
      } else if IsCheckedCheckbox(lineText) {
        if wasUnchecked || lineNumber !in fileStates {
          if isNowChecked && !HasCompletionStamp(lineText) {
            var _ := ApplyCheckboxStamp(lines, lineNumber, settings, now);
          } else {
            assert !stamps;
          }
        } else {
          assert !stamps;
        }
        fileStates := fileStates[lineNumber := true];
      } else {
        assert !stamps;
      }
      assert fileStates == recorded;
      previousLineStates := previousLineStates[filePath := fileStates];
    }

    /** `clearFileState`: forgets exactly the states recorded for `filePath`. */
    method ClearFileState(filePath: string)
      modifies this
      ensures previousLineStates == old(previousLineStates) - {filePath}
      ensures settings == old(settings)
    {
      previousLineStates := previousLineStates - {filePath};
    }
  }
}
