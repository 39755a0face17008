/**
 * The checkbox widget's documented scenarios: four choices A..D carrying
 * "1".."4", at most two and at least one selection, two per page.
 */
module CheckboxScenarios {
  import opened Events
  import opened Pagination
  import opened View
  import opened CheckboxWidget

  const Hint: string := "please select something"

  function Sample(): CheckboxConfig<string> {
    CheckboxConfig(
      "hello?", Hint,
      [Choice("A", "1"), Choice("B", "2"), Choice("C", "3"), Choice("D", "4")],
      2, 1, 2, DefaultCheckboxViewOptions(NewTerminal))
  }

  /** The part of the sample's view above the rows. */
  function SampleTop(): seq<Segment> {
    Header(Styled([Bold, FgGreen], "?"), "hello?") + [Styled([FgBrightBlack], Hint), NewLine]
  }

  const InfoLine: seq<Segment> := [Styled([FgBrightBlack], InfoText), NewLine]
  const CursorGlyph: Segment := Styled([FgBrightCyan], " \U{276F} ")
  const Unchecked: Segment := Text("\U{25EF} ")

  lemma HintNotBlank()
    ensures !IsBlank(Hint)
  {
    assert !IsWhitespace(Hint[0]);
  }

  /** The sample's page always holds two rows. */
  lemma SampleRows(s: CheckboxState<string>)
    requires WellFormed(Sample(), s)
    ensures s.window.start < 3
    ensures var lo := s.window.start;
      Rows(RowOf(Sample(), s), lo, PageEnd(s.window, 4, 2))
        == CheckboxRow(Sample(), s, lo) + CheckboxRow(Sample(), s, lo + 1)
  {
    var row := RowOf(Sample(), s);
    var lo := s.window.start;
    assert PageEnd(s.window, 4, 2) == lo + 2;
    assert Rows(row, lo + 2, lo + 2) == [];
    assert Rows(row, lo + 1, lo + 2) == row(lo + 1) + Rows(row, lo + 2, lo + 2);
    assert Rows(row, lo, lo + 2) == row(lo) + Rows(row, lo + 1, lo + 2);
  }

  /** The sample's view while interacting, given its two visible rows and
      the error line, if any. */
  lemma SampleView(s: CheckboxState<string>)
    requires WellFormed(Sample(), s) && s.interacting
    ensures s.window.start < 3
    ensures RenderCheckbox(Sample(), s) ==
      SampleTop()
      + CheckboxRow(Sample(), s, s.window.start) + CheckboxRow(Sample(), s, s.window.start + 1)
      + InfoLine
      + (if !IsBlank(s.errorMessage) then [Styled([Bold, FgRed], s.errorMessage), NewLine] else [])
  {
    HintNotBlank();
    RenderCheckboxShape(Sample(), s);
    SampleRows(s);
  }

  /** Down twice shows B and C with the cursor on C. */
  lemma ScrollDownTwoSteps()
    ensures var s := CheckboxRun(Sample(), Initial(), [KeyPressDown, KeyPressDown]);
      s.window == Window(2, 1)
      && RenderCheckbox(Sample(), s) ==
        SampleTop()
        + [Text("   "), Unchecked, Text("B"), NewLine]
        + [CursorGlyph, Unchecked, Text("C"), NewLine]
        + InfoLine
  {
    var s := CheckboxRun(Sample(), Initial(), [KeyPressDown, KeyPressDown]);
    assert s.interacting && s.window == Window(2, 1);
    SampleView(s);
  }

  /** Down six times stops at D, showing C and D. */
  lemma ScrollDownToTheEnd()
    ensures var s := CheckboxRun(Sample(), Initial(), [KeyPressDown, KeyPressDown, KeyPressDown,
                                                       KeyPressDown, KeyPressDown, KeyPressDown]);
      s.window == Window(3, 2)
      && RenderCheckbox(Sample(), s) ==
        SampleTop()
        + [Text("   "), Unchecked, Text("C"), NewLine]
        + [CursorGlyph, Unchecked, Text("D"), NewLine]
        + InfoLine
  {
    var s := CheckboxRun(Sample(), Initial(), [KeyPressDown, KeyPressDown, KeyPressDown,
                                               KeyPressDown, KeyPressDown, KeyPressDown]);
    assert s.interacting && s.window == Window(3, 2);
    SampleView(s);
  }

  /** Down four times and Up five times returns to the top: A and B, the
      cursor on A. */
  lemma ScrollDownAndBackUp()
    ensures var s := CheckboxRun(Sample(), Initial(), [KeyPressDown, KeyPressDown, KeyPressDown,
                                                       KeyPressDown, KeyPressUp, KeyPressUp,
                                                       KeyPressUp, KeyPressUp, KeyPressUp]);
      s.window == Window(0, 0)
      && RenderCheckbox(Sample(), s) ==
        SampleTop()
        + [CursorGlyph, Unchecked, Text("A"), NewLine]
        + [Text("   "), Unchecked, Text("B"), NewLine]
        + InfoLine
  {
    var s := CheckboxRun(Sample(), Initial(), [KeyPressDown, KeyPressDown, KeyPressDown,
                                               KeyPressDown, KeyPressUp, KeyPressUp,
                                               KeyPressUp, KeyPressUp, KeyPressUp]);
    assert s.interacting && s.window == Window(0, 0) && s.errorMessage == "";
    SampleView(s);
  }

  const MaxLimitEvents: seq<Event> :=
    [KeyPressSpace, KeyPressDown, KeyPressSpace, KeyPressDown, KeyPressSpace]

  /** Space, Down, Space, Down, Space: the third Space is refused. */
  lemma MaxLimitState()
    ensures CheckboxRun(Sample(), Initial(), MaxLimitEvents)
      == CheckboxState(Window(2, 1), {0, 1}, true, [], "max selection: 2")
  {
    var cfg := Sample();
    var s1 := CheckboxState(Window(0, 0), {0}, true, [], "");
    var s2 := CheckboxState(Window(1, 0), {0}, true, [], "");
    var s3 := CheckboxState(Window(1, 0), {0, 1}, true, [], "");
    var s4 := CheckboxState(Window(2, 1), {0, 1}, true, [], "");
    assert CheckboxStep(cfg, Initial(), KeyPressSpace) == s1;
    assert CheckboxStep(cfg, s1, KeyPressDown) == s2;
    assert CheckboxStep(cfg, s2, KeyPressSpace) == s3;
    assert CheckboxStep(cfg, s3, KeyPressDown) == s4;
    assert IntToString(2) == "2";
    assert CheckboxStep(cfg, s4, KeyPressSpace) == s4.(errorMessage := "max selection: 2");
    var evs := MaxLimitEvents;
    assert evs[1..][1..][1..][1..][1..] == [];
  }

  /** A third selection is refused: A and B stay selected and the error
      names the maximum. */
  lemma SelectionMaxLimit()
    ensures var s := CheckboxRun(Sample(), Initial(), MaxLimitEvents);
      s.selected == {0, 1}
      && RenderCheckbox(Sample(), s) ==
        SampleTop()
        + [Text("   "), Styled([FgGreen], "\U{25C9} "), Styled([FgCyan, Bold], "B"), NewLine]
        + [CursorGlyph, Unchecked, Text("C"), NewLine]
        + InfoLine
        + [Styled([Bold, FgRed], "max selection: 2"), NewLine]
  {
    MaxLimitState();
    var s := CheckboxState(Window(2, 1), {0, 1}, true, [], "max selection: 2");
    assert !IsWhitespace(s.errorMessage[0]);
    SampleView(s);
  }

  /** Enter with nothing selected keeps the prompt open and names the
      minimum. */
  lemma SelectionMinLimit()
    ensures var s := CheckboxRun(Sample(), Initial(), [KeyPressEnter]);
      s.interacting
      && RenderCheckbox(Sample(), s) ==
        SampleTop()
        + [CursorGlyph, Unchecked, Text("A"), NewLine]
        + [Text("   "), Unchecked, Text("B"), NewLine]
        + InfoLine
        + [Styled([Bold, FgRed], "min selection: 1"), NewLine]
  {
    var s := CheckboxRun(Sample(), Initial(), [KeyPressEnter]);
    assert IntToString(1) == "1";
    assert s.interacting && s.window == Window(0, 0) && s.selected == {};
    assert s.errorMessage == "min selection: 1";
    assert !IsWhitespace(s.errorMessage[0]);
    SampleView(s);
  }

  lemma FirstTwoIndices()
    ensures SelectedIndices(4, {0, 1}, 0) == [0, 1]
  {
    assert SelectedIndices(4, {0, 1}, 4) == [];
    assert SelectedIndices(4, {0, 1}, 3) == [];
    assert SelectedIndices(4, {0, 1}, 2) == [];
    assert SelectedIndices(4, {0, 1}, 1) == [1];
  }

  /** When the selected indices are 0 and 1, the value is the data of the
      first two choices, in that order. */
  lemma FirstTwoOfFour<T>(choices: seq<Choice<T>>, selected: set<int>)
    requires |choices| >= 2 && SelectedIndices(|choices|, selected, 0) == [0, 1]
    ensures SelectedData(choices, selected) == [choices[0].data, choices[1].data]
  {
    var cs := SelectedChoices(choices, selected);
    assert |cs| == 2 && cs[0] == choices[0] && cs[1] == choices[1];
    var r := SelectedData(choices, selected);
    assert |r| == 2 && r[0] == choices[0].data && r[1] == choices[1].data;
  }

  /** A and B selected among the sample's choices give "1" and "2". */
  lemma FirstTwoData()
    ensures SelectedData(Sample().choices, {0, 1}) == ["1", "2"]
  {
    var choices := Sample().choices;
    assert |choices| == 4 && choices[0].data == "1" && choices[1].data == "2";
    FirstTwoIndices();
    FirstTwoOfFour(choices, {0, 1});
  }

  /** Space, Down, Space selects A and B and leaves the cursor on B. */
  lemma SelectFirstTwo()
    ensures CheckboxRun(Sample(), Initial(), [KeyPressSpace, KeyPressDown, KeyPressSpace])
      == CheckboxState(Window(1, 0), {0, 1}, true, [], "")
  {
    var cfg := Sample();
    var s1 := CheckboxState(Window(0, 0), {0}, true, [], "");
    var s2 := CheckboxState(Window(1, 0), {0}, true, [], "");
    assert CheckboxStep(cfg, Initial(), KeyPressSpace) == s1;
    assert CheckboxStep(cfg, s1, KeyPressDown) == s2;
    var evs := [KeyPressSpace, KeyPressDown, KeyPressSpace];
    assert evs[1..][1..][1..] == [];
  }

  /** Selecting A and B and pressing Enter completes with their data, in
      choice order. */
  lemma SelectionValue()
    ensures var s := CheckboxRun(Sample(), Initial(), [KeyPressSpace, KeyPressDown, KeyPressSpace,
                                                       KeyPressEnter]);
      !s.interacting && s.value == ["1", "2"]
  {
    var events := [KeyPressSpace, KeyPressDown, KeyPressSpace];
    var s3 := CheckboxState(Window(1, 0), {0, 1}, true, [], "");
    SelectFirstTwo();
    FirstTwoData();
    assert CheckboxStep(Sample(), s3, KeyPressEnter).value == ["1", "2"];
    CheckboxRunSnoc(Sample(), Initial(), events, KeyPressEnter);
    assert events + [KeyPressEnter] == [KeyPressSpace, KeyPressDown, KeyPressSpace, KeyPressEnter];
  }

  /** The source's default for an unbounded maximum and page size. */
  const IntMax: int := 0x7FFF_FFFF

  function Custom(): CheckboxConfig<string> {
    CheckboxConfig(
      "hello?", Hint, [Choice("A", "1"), Choice("B", "2")], IntMax, 0, IntMax,
      CheckboxViewOptions(Text("\U{2753}"), Text("\U{1F449}"), Text(" "),
                          Text(" \U{2705} "), Text(" \U{23F9} ")))
  }

  lemma CustomState()
    ensures CheckboxRun(Custom(), Initial(), [KeyPressSpace, KeyPressDown])
      == CheckboxState(Window(1, 0), {0}, true, [], "")
  {
    var s1 := CheckboxState(Window(0, 0), {0}, true, [], "");
    assert CheckboxStep(Custom(), Initial(), KeyPressSpace) == s1;
    assert CheckboxStep(Custom(), s1, KeyPressDown) == s1.(window := Window(1, 0));
  }

  /** Caller-supplied glyphs replace the defaults, and a page holding every
      choice shows no informational line. */
  lemma CustomViewOptions()
    ensures RenderCheckbox(Custom(), CheckboxRun(Custom(), Initial(), [KeyPressSpace, KeyPressDown]))
      == Header(Text("\U{2753}"), "hello?") + [Styled([FgBrightBlack], Hint), NewLine]
         + [Text(" "), Text(" \U{2705} "), Styled([FgCyan, Bold], "A"), NewLine]
         + [Text("\U{1F449}"), Text(" \U{23F9} "), Text("B"), NewLine]
  {
    CustomState();
    var s := CheckboxState(Window(1, 0), {0}, true, [], "");
    HintNotBlank();
    RenderCheckboxShape(Custom(), s);
    var row := RowOf(Custom(), s);
    assert PageEnd(s.window, 2, IntMax) == 2;
    assert Rows(row, 2, 2) == [];
    assert Rows(row, 1, 2) == row(1) + Rows(row, 2, 2);
    assert Rows(row, 0, 2) == row(0) + Rows(row, 1, 2);
  }
}
