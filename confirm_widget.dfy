/**
 * The yes/no widget: Left, 'y' and 'Y' say yes, Right, 'n' and 'N' say no,
 * other characters say nothing, Enter completes, and every other event
 * says no.
 */
module ConfirmWidget {
  import opened Options
  import opened Events
  import opened View

  /** What onEvent changes; the answer starts at the caller's default. */
  datatype ConfirmState = ConfirmState(confirmed: bool, interacting: bool)

  function Initial(default: bool): ConfirmState {
    ConfirmState(default, true)
  }

  /** The answer an event expresses, if any, independent of the state. */
  function Decision(e: Event): Option<bool> {
    if e.KeyPressLeft? || e == CharInput('y') || e == CharInput('Y') then Some(true)
    else if e.KeyPressEnter? || (e.CharInput? && !(e.c in {'n', 'N'})) then None
    else Some(false)
  }

  /** Arrow keys and the four letters are the only events that can say yes
      or no on purpose; the rest of the keys fall through to no. */
  lemma DecisionCases(e: Event)
    ensures Decision(e) == Some(true) <==> e in {KeyPressLeft, CharInput('y'), CharInput('Y')}
    ensures Decision(e) == None <==> e.KeyPressEnter? || (e.CharInput? && !(e.c in {'y', 'Y', 'n', 'N'}))
  {
  }

  function ConfirmStep(s: ConfirmState, e: Event): (r: ConfirmState)
    ensures r.confirmed == Decision(e).GetOr(s.confirmed)
    ensures r.interacting == (s.interacting && !e.KeyPressEnter?)
  {
    match e
    case KeyPressLeft => s.(confirmed := true)
    case KeyPressRight => s.(confirmed := false)
    case KeyPressEnter => s.(interacting := false)
    case CharInput(c) =>
      if c == 'y' || c == 'Y' then s.(confirmed := true)
      else if c == 'n' || c == 'N' then s.(confirmed := false)
      else s
    case _ => s.(confirmed := false)
  }

  /** Repeating an event changes nothing more. */
  lemma StepIdempotent(s: ConfirmState, e: Event)
    ensures ConfirmStep(ConfirmStep(s, e), e) == ConfirmStep(s, e)
  {
  }

  function ConfirmRun(s: ConfirmState, events: seq<Event>): (r: ConfirmState)
    ensures !s.interacting ==> !r.interacting
    decreases |events|
  {
    if events == [] then s else ConfirmRun(ConfirmStep(s, events[0]), events[1..])
  }

  lemma {:induction false} ConfirmRunSnoc(s: ConfirmState, events: seq<Event>, e: Event)
    ensures ConfirmRun(s, events + [e]) == ConfirmStep(ConfirmRun(s, events), e)
    decreases |events|
  {
    if events != [] {
      assert (events + [e])[1..] == events[1..] + [e];
      ConfirmRunSnoc(ConfirmStep(s, events[0]), events[1..], e);
    }
  }

  /** The answer expressed by the last deciding event, if any. */
  function LastDecision(events: seq<Event>): Option<bool>
    decreases |events|
  {
    if events == [] then None
    else
      var d := Decision(events[|events| - 1]);
      if d.Some? then d else LastDecision(events[..|events| - 1])
  }

  /** After any sequence of events the answer is the one the last deciding
      event expressed, or the starting answer when none decided, and the
      prompt is open exactly when it was and no Enter came. */
  lemma {:induction false} RunOutcome(s: ConfirmState, events: seq<Event>)
    ensures ConfirmRun(s, events).confirmed == LastDecision(events).GetOr(s.confirmed)
    ensures ConfirmRun(s, events).interacting == (s.interacting && KeyPressEnter !in events)
    decreases |events|
  {
    if events != [] {
      var init := events[..|events| - 1];
      var e := events[|events| - 1];
      assert events == init + [e];
      ConfirmRunSnoc(s, init, e);
      RunOutcome(s, init);
    }
  }

  function AnswerWord(b: bool): (w: string)
    ensures w == "Yes" <==> b
  {
    if b then "Yes" else "No"
  }

  function RenderConfirm(message: string, s: ConfirmState): seq<Segment> {
    Header(Styled([FgGreen, Bold], "?"), message)
    + if s.interacting && s.confirmed then [Text("[Yes] No ")]
      else if s.interacting then [Text(" Yes [No]")]
      else [Styled([FgCyan, Bold], AnswerWord(s.confirmed)), NewLine]
  }

  /** While open the view brackets the current answer and does not end the
      line; once done it shows only the answer, highlighted, and ends the
      line. */
  lemma RenderShowsAnswer(message: string, s: ConfirmState)
    ensures var r := RenderConfirm(message, s);
      && r[..4] == Header(Styled([FgGreen, Bold], "?"), message)
      && (s.interacting ==> |r| == 5 && r[4].Text? && (r[4].text[0] == '[' <==> s.confirmed))
      && (!s.interacting ==> |r| == 6 && r[5] == NewLine
                             && (r[4].text == "Yes" <==> s.confirmed))
  {
  }

  class ConfirmComponent {
    const message: string
    var confirmed: bool
    var interacting: bool

    function State(): ConfirmState
      reads this
    {
      ConfirmState(confirmed, interacting)
    }

    constructor (message: string, default: bool)
      ensures this.message == message && State() == Initial(default)
    {
      this.message := message;
      confirmed := default;
      interacting := true;
    }

    function Value(): (v: bool)
      reads this
      ensures v == State().confirmed
    {
      confirmed
    }

    function IsInteracting(): (b: bool)
      reads this
      ensures b == State().interacting
    {
      interacting
    }

    method OnEvent(e: Event)
      modifies this
      ensures State() == ConfirmStep(old(State()), e)
    {
      match e {
        case KeyPressLeft => confirmed := true;
        case KeyPressRight => confirmed := false;
        case KeyPressEnter => interacting := false;
        case CharInput(c) =>
          if c == 'y' || c == 'Y' {
            confirmed := true;
          } else if c == 'n' || c == 'N' {
            confirmed := false;
          }
        case _ => confirmed := false;
      }
    }

    method OnEventSequence(events: seq<Event>)
      modifies this
      ensures State() == ConfirmRun(old(State()), events)
    {
      ghost var start := State();
      var i := 0;
      while i < |events|
        invariant 0 <= i <= |events|
        invariant State() == ConfirmRun(start, events[..i])
      {
        assert events[..i + 1] == events[..i] + [events[i]];
        ConfirmRunSnoc(start, events[..i], events[i]);
        OnEvent(events[i]);
        i := i + 1;
      }
      assert events[..|events|] == events;
    }

    function Render(): seq<Segment>
      reads this
    {
      RenderConfirm(message, State())
    }
  }

  const Question: string := "are you sure?"
  const QuestionHeader: seq<Segment> := Header(Styled([FgGreen, Bold], "?"), Question)

  /** A fresh prompt brackets its default answer. */
  method DefaultViews() returns (whenNo: seq<Segment>, whenYes: seq<Segment>)
    ensures whenNo == QuestionHeader + [Text(" Yes [No]")]
    ensures whenYes == QuestionHeader + [Text("[Yes] No ")]
  {
    var no := new ConfirmComponent(Question, false);
    whenNo := no.Render();
    var yes := new ConfirmComponent(Question, true);
    whenYes := yes.Render();
  }

  /** Left then Enter on a prompt defaulting to no completes with yes. */
  method LeftThenEnter() returns (value: bool, open: bool, view: seq<Segment>)
    ensures value && !open
    ensures view == QuestionHeader + [Styled([FgCyan, Bold], "Yes"), NewLine]
  {
    var c := new ConfirmComponent(Question, false);
    c.OnEventSequence([KeyPressLeft, KeyPressEnter]);
    RunOutcome(Initial(false), [KeyPressLeft, KeyPressEnter]);
    value := c.Value();
    open := c.IsInteracting();
    view := c.Render();
  }
}
