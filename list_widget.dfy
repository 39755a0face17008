/**
 * The list widget: a cursor over the choices with a scrolling window; Enter
 * finishes and the value is the data of the choice under the cursor.
 */
module ListWidget {
  import opened Events
  import opened Pagination
  import opened View

  datatype ListViewOptions = ListViewOptions(questionMarkPrefix: Segment, cursor: Segment, nonCursor: Segment)

  /** The default glyphs. The modern cursor is the literal the list widget
      carries, a mis-encoded form of the arrow the checkbox widget uses. */
  function DefaultListViewOptions(p: Profile): ListViewOptions {
    ListViewOptions(
      Styled([Bold, FgGreen], "?"),
      Styled([FgBrightCyan], if p.OldTerminal? then " > " else " \U{201A}\U{F9}\U{D8} "),
      Text("   "))
  }

  /** What the widget is constructed with and never changes. */
  datatype ListConfig<T> = ListConfig(
    message: string,
    hint: string,
    choices: seq<Choice<T>>,
    pageSize: int,
    viewOptions: ListViewOptions)

  /** What onEvent changes. */
  datatype ListState = ListState(window: Window, interacting: bool)

  const Initial: ListState := ListState(Origin, true)

  /** One event. Up and Down move the cursor and window, Enter finishes
      without any check, and every other event is ignored. */
  function ListStep<T>(cfg: ListConfig<T>, s: ListState, e: Event): (r: ListState)
    ensures Inv(s.window, |cfg.choices|, cfg.pageSize) ==> Inv(r.window, |cfg.choices|, cfg.pageSize)
    ensures r.interacting == (s.interacting && !e.KeyPressEnter?)
    ensures e.KeyPressUp? ==> r.window == Up(s.window)
    ensures e.KeyPressDown? ==> r.window == Down(s.window, |cfg.choices|, cfg.pageSize)
    ensures !(e.KeyPressUp? || e.KeyPressDown?) ==> r.window == s.window
    ensures Inv(s.window, |cfg.choices|, cfg.pageSize) ==>
      -1 <= r.window.cursor - s.window.cursor <= 1 && -1 <= r.window.start - s.window.start <= 1
  {
    match e
    case KeyPressUp => s.(window := Up(s.window))
    case KeyPressDown => s.(window := Down(s.window, |cfg.choices|, cfg.pageSize))
    case KeyPressEnter => s.(interacting := false)
    case _ => s
  }

  /** The widget after a sequence of events, fed one at a time. The window
      stays valid, and the widget still interacts exactly when it did
      before and none of the events was Enter. */
  function ListRun<T>(cfg: ListConfig<T>, s: ListState, events: seq<Event>): (r: ListState)
    ensures Inv(s.window, |cfg.choices|, cfg.pageSize) ==> Inv(r.window, |cfg.choices|, cfg.pageSize)
    ensures r.interacting == (s.interacting && KeyPressEnter !in events)
    decreases |events|
  {
    if events == [] then s else ListRun(cfg, ListStep(cfg, s, events[0]), events[1..])
  }

  /** Feeding one more event continues from where the fold stopped. */
  lemma {:induction false} ListRunSnoc<T>(cfg: ListConfig<T>, s: ListState, events: seq<Event>, e: Event)
    ensures ListRun(cfg, s, events + [e]) == ListStep(cfg, ListRun(cfg, s, events), e)
    decreases |events|
  {
    if events != [] {
      assert (events + [e])[1..] == events[1..] + [e];
      ListRunSnoc(cfg, ListStep(cfg, s, events[0]), events[1..], e);
    }
  }

  /** The same on prefixes: the fold up to event i + 1 is one step past the
      fold up to event i. */
  lemma ListRunPrefix<T>(cfg: ListConfig<T>, s: ListState, events: seq<Event>, i: int)
    requires 0 <= i < |events|
    ensures ListRun(cfg, s, events[..i + 1]) == ListStep(cfg, ListRun(cfg, s, events[..i]), events[i])
  {
    assert events[..i + 1] == events[..i] + [events[i]];
    ListRunSnoc(cfg, s, events[..i], events[i]);
  }

  /** A visible row: the cursor glyph or its blank, the display name
      (highlighted on the cursor row) and a line break. */
  function CursorRow<T>(cfg: ListConfig<T>, w: Window, i: int): seq<Segment>
    requires 0 <= i < |cfg.choices|
  {
    var name := cfg.choices[i].displayName;
    if i == w.cursor then [cfg.viewOptions.cursor, Styled([FgCyan, Bold], name), NewLine]
    else [cfg.viewOptions.nonCursor, Text(name), NewLine]
  }

  /** The row function the render loop applies to each index. */
  function RowOf<T>(cfg: ListConfig<T>, w: Window): int -> seq<Segment> {
    i => if 0 <= i < |cfg.choices| then CursorRow(cfg, w, i) else []
  }

  /** The whole view. While interacting: header, hint when not blank, a line
      break, the rows and the informational line; once done: header and the
      chosen display name. */
  function RenderList<T>(cfg: ListConfig<T>, s: ListState): seq<Segment>
    requires 0 <= s.window.cursor < |cfg.choices|
  {
    var head := Header(cfg.viewOptions.questionMarkPrefix, cfg.message);
    if s.interacting then
      var info := InfoMessage(|cfg.choices|, cfg.pageSize);
      head
      + (if !IsBlank(cfg.hint) then [Styled([FgBrightBlack], cfg.hint)] else [])
      + [NewLine]
      + PageRows(RowOf(cfg, s.window), s.window, |cfg.choices|, cfg.pageSize, 0)
      + (if !IsBlank(info) then [Styled([FgBrightBlack], info), NewLine] else [])
    else
      head + [Styled([FgCyan, Bold], cfg.choices[s.window.cursor].displayName), NewLine]
  }

  /** The rendered view while interacting shows exactly the windowed rows
      (one line each, the cursor row highlighted) and the informational
      line exactly when the page is smaller than the list; once done it
      shows only the chosen display name. */
  lemma RenderListShape<T>(cfg: ListConfig<T>, s: ListState)
    requires Inv(s.window, |cfg.choices|, cfg.pageSize)
    ensures var head := Header(cfg.viewOptions.questionMarkPrefix, cfg.message);
      var top := PageEnd(s.window, |cfg.choices|, cfg.pageSize);
      RenderList(cfg, s) ==
        if s.interacting then
          head
          + (if !IsBlank(cfg.hint) then [Styled([FgBrightBlack], cfg.hint)] else [])
          + [NewLine]
          + Rows(RowOf(cfg, s.window), s.window.start, top)
          + (if cfg.pageSize < |cfg.choices| then [Styled([FgBrightBlack], InfoText), NewLine] else [])
        else head + [Styled([FgCyan, Bold], cfg.choices[s.window.cursor].displayName), NewLine]
  {
    PageRowsShowWindow(RowOf(cfg, s.window), s.window, |cfg.choices|, cfg.pageSize, 0);
  }

  /** The list widget as an object: the configuration is fixed, the cursor,
      window start and interacting flag change in place. */
  class ListComponent<T> {
    const config: ListConfig<T>
    const infoMessage: string
    var cursorIndex: int
    var interacting: bool
    var windowPageStartIndex: int

    ghost predicate Valid()
      reads this
    {
      Inv(Window(cursorIndex, windowPageStartIndex), |config.choices|, config.pageSize)
      && infoMessage == InfoMessage(|config.choices|, config.pageSize)
    }

    function State(): ListState
      reads this
    {
      ListState(Window(cursorIndex, windowPageStartIndex), interacting)
    }

    /** The widget assumes at least one choice and a page of at least one. */
    constructor (config: ListConfig<T>)
      requires |config.choices| >= 1 && config.pageSize >= 1
      ensures Valid() && this.config == config
      ensures State() == Initial
    {
      this.config := config;
      infoMessage := InfoMessage(|config.choices|, config.pageSize);
      cursorIndex := 0;
      interacting := true;
      windowPageStartIndex := 0;
    }

    /** The data of the choice under the cursor, defined before as well as
        after completion. */
    function Value(): (v: T)
      reads this
      requires Valid()
      ensures v == config.choices[State().window.cursor].data
    {
      config.choices[cursorIndex].data
    }

    function IsInteracting(): bool
      reads this
    {
      interacting
    }

    method OnEvent(e: Event)
      requires Valid()
      modifies this
      ensures Valid()
      ensures State() == ListStep(config, old(State()), e)
    {
      match e {
        case KeyPressUp =>
          cursorIndex := Max(0, cursorIndex - 1);
          if cursorIndex < windowPageStartIndex {
            windowPageStartIndex := Max(0, windowPageStartIndex - 1);
          }
        case KeyPressDown =>
          cursorIndex := Min(|config.choices| - 1, cursorIndex + 1);
          if cursorIndex > windowPageStartIndex + config.pageSize - 1 {
            windowPageStartIndex := Min(|config.choices| - 1, windowPageStartIndex + 1);
          }
        case KeyPressEnter =>
          interacting := false;
        case _ =>
      }
    }

    /** Feeds the events in order, as the tests drive the widget. */
    method OnEventSequence(events: seq<Event>)
      requires Valid()
      modifies this
      ensures Valid()
      ensures State() == ListRun(config, old(State()), events)
    {
      ghost var start := State();
      var i := 0;
      while i < |events|
        invariant 0 <= i <= |events|
        invariant Valid()
        invariant State() == ListRun(config, start, events[..i])
      {
        ghost var before := State();
        OnEvent(events[i]);
        ListRunPrefix(config, start, events, i);
        assert State() == ListStep(config, before, events[i]);
        i := i + 1;
      }
      assert events[..|events|] == events;
    }

    function Render(): seq<Segment>
      reads this
      requires Valid()
    {
      RenderList(config, State())
    }
  }
}
