/**
 * The checkbox widget: the list widget's cursor and window, plus a set of
 * selected choice indices bounded above on every Space and below on Enter.
 */
module CheckboxWidget {
  import opened Events
  import opened Pagination
  import opened View

  datatype CheckboxViewOptions = CheckboxViewOptions(
    questionMarkPrefix: Segment,
    cursor: Segment,
    nonCursor: Segment,
    checked: Segment,
    unchecked: Segment)

  function DefaultCheckboxViewOptions(p: Profile): CheckboxViewOptions {
    CheckboxViewOptions(
      Styled([Bold, FgGreen], "?"),
      Styled([FgBrightCyan], if p.OldTerminal? then " > " else " \U{276F} "),
      Text("   "),
      Styled([FgGreen], if p.OldTerminal? then "(*) " else "\U{25C9} "),
      Text(if p.OldTerminal? then "( ) " else "\U{25EF} "))
  }

  /** What the widget is constructed with and never changes. */
  datatype CheckboxConfig<T> = CheckboxConfig(
    message: string,
    hint: string,
    choices: seq<Choice<T>>,
    maxNumOfSelection: int,
    minNumOfSelection: int,
    pageSize: int,
    viewOptions: CheckboxViewOptions)

  /** The page size the string-choice prompt passes when none is given. */
  const PromptPageSize: int := 10

  /** What onEvent changes. */
  datatype CheckboxState<T> = CheckboxState(
    window: Window,
    selected: set<int>,
    interacting: bool,
    value: seq<T>,
    errorMessage: string)

  function Initial<T>(): CheckboxState<T> {
    CheckboxState(Origin, {}, true, [], "")
  }

  /** The window is valid and every selected index names a choice. */
  predicate WellFormed<T>(cfg: CheckboxConfig<T>, s: CheckboxState<T>) {
    Inv(s.window, |cfg.choices|, cfg.pageSize)
    && forall i :: i in s.selected ==> 0 <= i < |cfg.choices|
  }

  function MaxSelectionError(max: int): string {
    "max selection: " + IntToString(max)
  }

  function MinSelectionError(min: int): string {
    "min selection: " + IntToString(min)
  }

  /** The selected indices among i .. n - 1, in ascending order. */
  function SelectedIndices(n: int, selected: set<int>, i: int): (r: seq<int>)
    requires 0 <= i <= n
    ensures forall k :: 0 <= k < |r| ==> i <= r[k] < n && r[k] in selected
    ensures forall k, m :: 0 <= k < m < |r| ==> r[k] < r[m]
    ensures forall j :: i <= j < n && j in selected ==> j in r
    decreases n - i
  {
    if i == n then []
    else (if i in selected then [i] else []) + SelectedIndices(n, selected, i + 1)
  }

  /** The selected indices that lie in i .. n - 1. */
  function SelectedFrom(n: int, selected: set<int>, i: int): set<int> {
    set j | j in selected && i <= j < n
  }

  /** Peeling index i off the selected indices from i on. */
  lemma SelectedFromStep(n: int, selected: set<int>, i: int)
    requires 0 <= i < n
    ensures |SelectedFrom(n, selected, i)| ==
      |SelectedFrom(n, selected, i + 1)| + (if i in selected then 1 else 0)
  {
    var rest := SelectedFrom(n, selected, i + 1);
    if i in selected {
      assert i !in rest;
      assert SelectedFrom(n, selected, i) == rest + {i};
    } else {
      assert SelectedFrom(n, selected, i) == rest;
    }
  }

  /** Each selected index appears exactly once. */
  lemma {:induction false} SelectedIndicesCount(n: int, selected: set<int>, i: int)
    requires 0 <= i <= n
    ensures |SelectedIndices(n, selected, i)| == |SelectedFrom(n, selected, i)|
    decreases n - i
  {
    if i < n {
      SelectedIndicesCount(n, selected, i + 1);
      SelectedFromStep(n, selected, i);
    } else {
      assert SelectedFrom(n, selected, i) == {};
    }
  }

  /** The selected choices in ascending index order, whatever the order in
      which they were selected. */
  function SelectedChoices<T>(choices: seq<Choice<T>>, selected: set<int>): (r: seq<Choice<T>>)
    ensures var idx := SelectedIndices(|choices|, selected, 0);
      |r| == |idx| && forall k :: 0 <= k < |r| ==> r[k] == choices[idx[k]]
  {
    var idx := SelectedIndices(|choices|, selected, 0);
    seq(|idx|, k requires 0 <= k < |idx| => choices[idx[k]])
  }

  /** The data of the selected choices, in ascending index order. */
  function SelectedData<T>(choices: seq<Choice<T>>, selected: set<int>): (r: seq<T>)
    ensures var cs := SelectedChoices(choices, selected);
      |r| == |cs| && forall k :: 0 <= k < |r| ==> r[k] == cs[k].data
  {
    var cs := SelectedChoices(choices, selected);
    seq(|cs|, k requires 0 <= k < |cs| => cs[k].data)
  }

  /** The value holds one entry per selected choice. */
  lemma SelectedDataCount<T>(choices: seq<Choice<T>>, selected: set<int>)
    requires forall i :: i in selected ==> 0 <= i < |choices|
    ensures |SelectedData(choices, selected)| == |selected|
  {
    SelectedIndicesCount(|choices|, selected, 0);
    assert SelectedFrom(|choices|, selected, 0) == selected;
  }

  /** One event. The error message is cleared first; Up and Down move the
      cursor and window; Space removes the cursor index when selected and
      otherwise adds it only while the maximum allows one more; Enter
      finishes only with at least the minimum selected, fixing the value. */
  function CheckboxStep<T>(cfg: CheckboxConfig<T>, s: CheckboxState<T>, e: Event): (r: CheckboxState<T>)
    ensures WellFormed(cfg, s) ==> WellFormed(cfg, r)
    ensures |s.selected| <= cfg.maxNumOfSelection ==> |r.selected| <= cfg.maxNumOfSelection
    ensures !e.KeyPressSpace? ==> r.selected == s.selected
    ensures e.KeyPressUp? ==> r.window == Up(s.window)
    ensures e.KeyPressDown? ==> r.window == Down(s.window, |cfg.choices|, cfg.pageSize)
    ensures !(e.KeyPressUp? || e.KeyPressDown?) ==> r.window == s.window
    ensures !(e.KeyPressSpace? || e.KeyPressEnter?) ==> r.errorMessage == ""
    ensures r.interacting != s.interacting ==>
      s.interacting && e.KeyPressEnter? && |s.selected| >= cfg.minNumOfSelection
    ensures r.value != s.value ==> e.KeyPressEnter? && r.value == SelectedData(cfg.choices, s.selected)
  {
    var s := s.(errorMessage := "");
    match e
    case KeyPressUp => s.(window := Up(s.window))
    case KeyPressDown => s.(window := Down(s.window, |cfg.choices|, cfg.pageSize))
    case KeyPressSpace =>
      var c := s.window.cursor;
      if c in s.selected then s.(selected := s.selected - {c})
      else if |s.selected| + 1 <= cfg.maxNumOfSelection then s.(selected := s.selected + {c})
      else s.(errorMessage := MaxSelectionError(cfg.maxNumOfSelection))
    case KeyPressEnter =>
      if |s.selected| < cfg.minNumOfSelection then s.(errorMessage := MinSelectionError(cfg.minNumOfSelection))
      else s.(interacting := false, value := SelectedData(cfg.choices, s.selected))
    case _ => s
  }

  /** Space toggles the cursor index: a selected one is removed, an
      unselected one is added exactly when one more fits under the maximum;
      otherwise the set is unchanged and the maximum is reported. */
  lemma SpaceToggles<T>(cfg: CheckboxConfig<T>, s: CheckboxState<T>)
    ensures var r := CheckboxStep(cfg, s, KeyPressSpace);
      var c := s.window.cursor;
      && (c in s.selected ==> r.selected == s.selected - {c} && r.errorMessage == "")
      && (c !in s.selected && |s.selected| + 1 <= cfg.maxNumOfSelection ==>
            r.selected == s.selected + {c} && r.errorMessage == "")
      && (c !in s.selected && |s.selected| >= cfg.maxNumOfSelection ==>
            r.selected == s.selected && r.errorMessage == MaxSelectionError(cfg.maxNumOfSelection))
  {
  }

  /** Enter below the minimum keeps the widget interacting and reports the
      minimum; otherwise it finishes with the selected data in index order. */
  lemma EnterChecksMinimum<T>(cfg: CheckboxConfig<T>, s: CheckboxState<T>)
    ensures var r := CheckboxStep(cfg, s, KeyPressEnter);
      && (|s.selected| < cfg.minNumOfSelection ==>
            r == s.(errorMessage := MinSelectionError(cfg.minNumOfSelection)))
      && (|s.selected| >= cfg.minNumOfSelection ==>
            !r.interacting && r.errorMessage == "" && r.selected == s.selected
            && r.value == SelectedData(cfg.choices, s.selected))
  {
  }

  /** Every other event only clears the error message. */
  lemma OtherEventsOnlyClearError<T>(cfg: CheckboxConfig<T>, s: CheckboxState<T>, e: Event)
    requires !(e.KeyPressUp? || e.KeyPressDown? || e.KeyPressSpace? || e.KeyPressEnter?)
    ensures CheckboxStep(cfg, s, e) == s.(errorMessage := "")
  {
  }

  /** Events folded through the widget in order, as the test helper does. */
  function CheckboxRun<T>(cfg: CheckboxConfig<T>, s: CheckboxState<T>, events: seq<Event>): (r: CheckboxState<T>)
    ensures WellFormed(cfg, s) ==> WellFormed(cfg, r)
    ensures |s.selected| <= cfg.maxNumOfSelection ==> |r.selected| <= cfg.maxNumOfSelection
    decreases |events|
  {
    if events == [] then s else CheckboxRun(cfg, CheckboxStep(cfg, s, events[0]), events[1..])
  }

  /** Feeding one more event continues from where the fold stopped. */
  lemma {:induction false} CheckboxRunSnoc<T>(cfg: CheckboxConfig<T>, s: CheckboxState<T>, events: seq<Event>, e: Event)
    ensures CheckboxRun(cfg, s, events + [e]) == CheckboxStep(cfg, CheckboxRun(cfg, s, events), e)
    decreases |events|
  {
    if events != [] {
      assert (events + [e])[1..] == events[1..] + [e];
      CheckboxRunSnoc(cfg, CheckboxStep(cfg, s, events[0]), events[1..], e);
    }
  }

  /** The same on prefixes: the fold up to event i + 1 is one step past the
      fold up to event i. */
  lemma CheckboxRunPrefix<T>(cfg: CheckboxConfig<T>, s: CheckboxState<T>, events: seq<Event>, i: int)
    requires 0 <= i < |events|
    ensures CheckboxRun(cfg, s, events[..i + 1]) == CheckboxStep(cfg, CheckboxRun(cfg, s, events[..i]), events[i])
  {
    assert events[..i + 1] == events[..i] + [events[i]];
    CheckboxRunSnoc(cfg, s, events[..i], events[i]);
  }

  /** Until a successful Enter the value stays the empty list. */
  lemma {:induction false} ValueEmptyUntilCompletion<T>(cfg: CheckboxConfig<T>, s: CheckboxState<T>, events: seq<Event>)
    requires s.interacting && s.value == []
    requires CheckboxRun(cfg, s, events).interacting
    ensures CheckboxRun(cfg, s, events).value == []
    decreases |events|
  {
    if events != [] {
      var next := CheckboxStep(cfg, s, events[0]);
      if !next.interacting {
        NoResumeAfterCompletion(cfg, next, events[1..]);
      } else {
        ValueEmptyUntilCompletion(cfg, next, events[1..]);
      }
    }
  }

  /** Once finished, no event makes the widget interact again. */
  lemma {:induction false} NoResumeAfterCompletion<T>(cfg: CheckboxConfig<T>, s: CheckboxState<T>, events: seq<Event>)
    requires !s.interacting
    ensures !CheckboxRun(cfg, s, events).interacting
    decreases |events|
  {
    if events != [] {
      NoResumeAfterCompletion(cfg, CheckboxStep(cfg, s, events[0]), events[1..]);
    }
  }

  /** The row of a visible choice: cursor glyph or its blank, checked or
      unchecked glyph, the display name (highlighted when selected) and a
      line break. */
  function CheckboxRow<T>(cfg: CheckboxConfig<T>, s: CheckboxState<T>, i: int): seq<Segment>
    requires 0 <= i < |cfg.choices|
  {
    var opts := cfg.viewOptions;
    var name := cfg.choices[i].displayName;
    [if i == s.window.cursor then opts.cursor else opts.nonCursor,
     if i in s.selected then opts.checked else opts.unchecked,
     if i in s.selected then Styled([FgCyan, Bold], name) else Text(name),
     NewLine]
  }

  function RowOf<T>(cfg: CheckboxConfig<T>, s: CheckboxState<T>): int -> seq<Segment> {
    i => if 0 <= i < |cfg.choices| then CheckboxRow(cfg, s, i) else []
  }

  /** The display names of some choices, in their order. */
  function DisplayNames<T>(cs: seq<Choice<T>>): (r: seq<string>)
    ensures |r| == |cs| && forall k :: 0 <= k < |r| ==> r[k] == cs[k].displayName
  {
    seq(|cs|, k requires 0 <= k < |cs| => cs[k].displayName)
  }

  function SelectedNames<T>(cfg: CheckboxConfig<T>, s: CheckboxState<T>): string {
    Join(DisplayNames(SelectedChoices(cfg.choices, s.selected)), ", ")
  }

  /** The whole view. While interacting: header, hint when not blank, a
      line break, the windowed rows, the informational line and the error
      line; once done: header and the selected display names. */
  function RenderCheckbox<T>(cfg: CheckboxConfig<T>, s: CheckboxState<T>): seq<Segment> {
    var head := Header(cfg.viewOptions.questionMarkPrefix, cfg.message);
    if s.interacting then
      var info := InfoMessage(|cfg.choices|, cfg.pageSize);
      head
      + (if !IsBlank(cfg.hint) then [Styled([FgBrightBlack], cfg.hint)] else [])
      + [NewLine]
      + PageRows(RowOf(cfg, s), s.window, |cfg.choices|, cfg.pageSize, 0)
      + (if !IsBlank(info) then [Styled([FgBrightBlack], info), NewLine] else [])
      + (if !IsBlank(s.errorMessage) then [Styled([Bold, FgRed], s.errorMessage), NewLine] else [])
    else
      head + [Styled([FgCyan, Bold], SelectedNames(cfg, s)), NewLine]
  }

  /** While interacting the view shows exactly the windowed rows, the
      informational line exactly when the page is smaller than the list, and
      the error line exactly when an error is set. */
  lemma RenderCheckboxShape<T>(cfg: CheckboxConfig<T>, s: CheckboxState<T>)
    requires WellFormed(cfg, s) && s.interacting
    ensures var head := Header(cfg.viewOptions.questionMarkPrefix, cfg.message);
      RenderCheckbox(cfg, s) ==
        head
        + (if !IsBlank(cfg.hint) then [Styled([FgBrightBlack], cfg.hint)] else [])
        + [NewLine]
        + Rows(RowOf(cfg, s), s.window.start, PageEnd(s.window, |cfg.choices|, cfg.pageSize))
        + (if cfg.pageSize < |cfg.choices| then [Styled([FgBrightBlack], InfoText), NewLine] else [])
        + (if !IsBlank(s.errorMessage) then [Styled([Bold, FgRed], s.errorMessage), NewLine] else [])
  {
    PageRowsShowWindow(RowOf(cfg, s), s.window, |cfg.choices|, cfg.pageSize, 0);
  }

  /** An Enter that completes the prompt leaves a view of the selected
      display names joined by ", ", and a value holding the data of the
      same choices in the same order. */
  lemma CompletedViewMatchesValue<T>(cfg: CheckboxConfig<T>, s: CheckboxState<T>)
    requires |s.selected| >= cfg.minNumOfSelection
    ensures var r := CheckboxStep(cfg, s, KeyPressEnter);
      var cs := SelectedChoices(cfg.choices, s.selected);
      var names := DisplayNames(cs);
      && !r.interacting
      && RenderCheckbox(cfg, r) == Header(cfg.viewOptions.questionMarkPrefix, cfg.message)
                                   + [Styled([FgCyan, Bold], Join(names, ", ")), NewLine]
      && |r.value| == |names|
      && forall k :: 0 <= k < |names| ==> r.value[k] == cs[k].data && names[k] == cs[k].displayName
  {
  }

  /** The checkbox widget as an object. */
  class CheckboxComponent<T> {
    const config: CheckboxConfig<T>
    const infoMessage: string
    var selectedIndices: set<int>
    var cursorIndex: int
    var interacting: bool
    var value: seq<T>
    var windowPageStartIndex: int
    var errorMessage: string

    ghost predicate Valid()
      reads this
    {
      WellFormed(config, State()) && infoMessage == InfoMessage(|config.choices|, config.pageSize)
    }

    function State(): CheckboxState<T>
      reads this
    {
      CheckboxState(Window(cursorIndex, windowPageStartIndex), selectedIndices, interacting, value, errorMessage)
    }

    /** The widget assumes at least one choice and a page of at least one. */
    constructor (config: CheckboxConfig<T>)
      requires |config.choices| >= 1 && config.pageSize >= 1
      ensures Valid() && this.config == config
      ensures State() == Initial()
    {
      this.config := config;
      infoMessage := InfoMessage(|config.choices|, config.pageSize);
      selectedIndices := {};
      cursorIndex := 0;
      interacting := true;
      value := [];
      windowPageStartIndex := 0;
      errorMessage := "";
    }

    /** The list fixed by the last successful Enter, empty before. */
    function Value(): (v: seq<T>)
      reads this
      ensures v == State().value
    {
      value
    }

    function IsInteracting(): bool
      reads this
    {
      interacting
    }

    method OnEvent(e: Event)
      requires Valid()
      modifies this
      ensures Valid()
      ensures State() == CheckboxStep(config, old(State()), e)
    {
      ghost var before := State();
      errorMessage := "";
      match e {
        case KeyPressUp =>
          cursorIndex := Max(0, cursorIndex - 1);
          if cursorIndex < windowPageStartIndex {
            windowPageStartIndex := Max(0, windowPageStartIndex - 1);
          }
          assert State().window == Up(before.window);
        case KeyPressDown =>
          cursorIndex := Min(|config.choices| - 1, cursorIndex + 1);
          if cursorIndex > windowPageStartIndex + config.pageSize - 1 {
            windowPageStartIndex := Min(|config.choices| - 1, windowPageStartIndex + 1);
          }
          assert State().window == Down(before.window, |config.choices|, config.pageSize);
        case KeyPressSpace =>
          if cursorIndex in selectedIndices {
            selectedIndices := selectedIndices - {cursorIndex};
          } else if |selectedIndices| + 1 <= config.maxNumOfSelection {
            selectedIndices := selectedIndices + {cursorIndex};
          } else {
            errorMessage := MaxSelectionError(config.maxNumOfSelection);
          }
        case KeyPressEnter =>
          if |selectedIndices| < config.minNumOfSelection {
            errorMessage := MinSelectionError(config.minNumOfSelection);
          } else {
            interacting := false;
            value := SelectedData(config.choices, selectedIndices);
          }
        case _ =>
      }
    }

    /** Feeds the events in order, as the test helper does. */
    method OnEventSequence(events: seq<Event>)
      requires Valid()
      modifies this
      ensures Valid()
      ensures State() == CheckboxRun(config, old(State()), events)
    {
      ghost var start := State();
      var i := 0;
      while i < |events|
        invariant 0 <= i <= |events|
        invariant Valid()
        invariant State() == CheckboxRun(config, start, events[..i])
      {
        ghost var before := State();
        OnEvent(events[i]);
        CheckboxRunPrefix(config, start, events, i);
        assert State() == CheckboxStep(config, before, events[i]);
        i := i + 1;
      }
      assert events[..|events|] == events;
    }

    function Render(): seq<Segment>
      reads this
    {
      RenderCheckbox(config, State())
    }
  }
}
