/**
 * The free-text widget: a buffer that is absent until the first accepted
 * keystroke, grown by characters and spaces the caller's filter accepts,
 * shrunk by Backspace, and completed by Enter when the caller's validation
 * accepts the current value. The transform only changes what is shown.
 */
module InputWidget {
  import opened Options
  import opened Events
  import opened View

  const InvalidInput: string := "invalid input"

  /** What the widget is constructed with and never changes. */
  datatype InputConfig = InputConfig(
    message: string,
    default: string,
    hint: string,
    validation: string -> bool,
    filter: string -> bool,
    transform: string -> string)

  /** What onEvent changes. `buffer` is None until a keystroke creates it. */
  datatype InputState = InputState(buffer: Option<string>, interacting: bool, errorMessage: string)

  const Initial: InputState := InputState(None, true, "")

  /** The value is the buffer once it exists, even when emptied by
      Backspace, and the default only before. */
  function ValueOf(cfg: InputConfig, s: InputState): (v: string)
    ensures s.buffer.None? ==> v == cfg.default
    ensures s.buffer.Some? ==> v == s.buffer.value
  {
    s.buffer.GetOr(cfg.default)
  }

  function DropLast(b: string): (r: string)
    ensures |b| > 0 ==> b == r + [b[|b| - 1]]
    ensures b == [] ==> r == []
  {
    if b == [] then [] else b[..|b| - 1]
  }

  /** The character a Space or character key would append. */
  function Typed(e: Event): char
    requires e.KeyPressSpace? || e.CharInput?
  {
    if e.KeyPressSpace? then ' ' else e.c
  }

  /** Space is accepted when the filter accepts the buffer with the space
      appended, as for every other character. */
  function SpaceGate(cfg: InputConfig, buffer: Option<string>): bool {
    cfg.filter(buffer.GetOr("") + " ")
  }

  /** As written, Space asks the filter about a lone space, whatever the
      buffer holds. */
  function SpaceGateAsWritten(cfg: InputConfig, buffer: Option<string>): bool {
    cfg.filter(" ")
  }

  /** A buffer edit either removes the last character (Backspace) or appends
      the typed character with the filter's approval of the result. */
  predicate IsEdit(cfg: InputConfig, before: Option<string>, e: Event, after: string) {
    || (e.KeyPressBackspace? && before.Some? && |before.value| > 0
        && before.value == after + [before.value[|before.value| - 1]])
    || ((e.KeyPressSpace? || e.CharInput?)
        && after == before.GetOr("") + [Typed(e)] && cfg.filter(after))
  }

  function InputStep(cfg: InputConfig, s: InputState, e: Event): (r: InputState)
    ensures r.errorMessage == (if e.KeyPressEnter? && !cfg.validation(ValueOf(cfg, s)) then InvalidInput else "")
    ensures r.interacting == (s.interacting && !(e.KeyPressEnter? && cfg.validation(ValueOf(cfg, s))))
    ensures s.buffer.Some? ==> r.buffer.Some?
    ensures r.buffer != s.buffer ==> r.buffer.Some? && IsEdit(cfg, s.buffer, e, r.buffer.value)
  {
    var s := s.(errorMessage := "");
    match e
    case KeyPressEnter =>
      if cfg.validation(ValueOf(cfg, s)) then s.(interacting := false) else s.(errorMessage := InvalidInput)
    case KeyPressBackspace =>
      if s.buffer.Some? then s.(buffer := Some(DropLast(s.buffer.value))) else s
    case KeyPressSpace =>
      if SpaceGate(cfg, s.buffer) then s.(buffer := Some(s.buffer.GetOr("") + " ")) else s
    case CharInput(c) =>
      var t := s.buffer.GetOr("") + [c];
      if cfg.filter(t) then s.(buffer := Some(t)) else s
    case _ => s
  }

  /** What each key does to the buffer: a character or Space is appended
      exactly when the filter accepts the extended buffer, Backspace drops
      the last character of an existing buffer, and no other event touches
      it. */
  lemma KeystrokeEffects(cfg: InputConfig, s: InputState, e: Event)
    ensures var r := InputStep(cfg, s, e);
      var b := s.buffer.GetOr("");
      && (e.CharInput? ==>
            r.buffer == if cfg.filter(b + [e.c]) then Some(b + [e.c]) else s.buffer)
      && (e.KeyPressSpace? ==>
            r.buffer == if cfg.filter(b + " ") then Some(b + " ") else s.buffer)
      && (e.KeyPressBackspace? ==>
            r.buffer == if s.buffer.Some? then Some(DropLast(s.buffer.value)) else None)
      && (!(e.CharInput? || e.KeyPressSpace? || e.KeyPressBackspace?) ==> r.buffer == s.buffer)
  {
  }

  /** The step with the Space gate as written; on every other event it is
      the step above. */
  function InputStepAsWritten(cfg: InputConfig, s: InputState, e: Event): (r: InputState)
    ensures !e.KeyPressSpace? ==> r == InputStep(cfg, s, e)
    ensures e.KeyPressSpace? && SpaceGateAsWritten(cfg, s.buffer) ==>
      r.buffer == Some(s.buffer.GetOr("") + " ")
    ensures e.KeyPressSpace? && !SpaceGateAsWritten(cfg, s.buffer) ==> r.buffer == s.buffer
    ensures e.KeyPressSpace? ==> r.interacting == s.interacting && r.errorMessage == ""
  {
    if e.KeyPressSpace? && SpaceGateAsWritten(cfg, s.buffer) then
      InputState(Some(s.buffer.GetOr("") + " "), s.interacting, "")
    else if e.KeyPressSpace? then s.(errorMessage := "")
    else InputStep(cfg, s, e)
  }

  /** A filter that keeps accepting a string after its last character is
      removed, so Backspace cannot leave an unacceptable buffer. */
  ghost predicate ClosedUnderDropLast(f: string -> bool) {
    forall b: string {:trigger f(b)} :: f(b) && |b| > 0 ==> f(b[..|b| - 1])
  }

  /** The buffer, once it exists, is one the filter accepts. */
  ghost predicate Filtered(cfg: InputConfig, s: InputState) {
    s.buffer.Some? ==> cfg.filter(s.buffer.value)
  }

  /** Every step keeps the buffer within the filter when the filter is
      closed under Backspace. */
  lemma StepKeepsFilter(cfg: InputConfig, s: InputState, e: Event)
    requires ClosedUnderDropLast(cfg.filter) && Filtered(cfg, s)
    ensures Filtered(cfg, InputStep(cfg, s, e))
  {
    var r := InputStep(cfg, s, e);
    if r.buffer != s.buffer && e.KeyPressBackspace? {
      var b := s.buffer.value;
      assert cfg.filter(b);
      assert r.buffer.value == b[..|b| - 1];
    }
  }

  /** The transform never reaches the state. */
  lemma StepIgnoresTransform(cfg: InputConfig, t: string -> string, s: InputState, e: Event)
    ensures InputStep(cfg.(transform := t), s, e) == InputStep(cfg, s, e)
  {
  }

  function InputRun(cfg: InputConfig, s: InputState, events: seq<Event>): (r: InputState)
    ensures s.buffer.Some? ==> r.buffer.Some?
    ensures !s.interacting ==> !r.interacting
    decreases |events|
  {
    if events == [] then s else InputRun(cfg, InputStep(cfg, s, events[0]), events[1..])
  }

  lemma {:induction false} InputRunSnoc(cfg: InputConfig, s: InputState, events: seq<Event>, e: Event)
    ensures InputRun(cfg, s, events + [e]) == InputStep(cfg, InputRun(cfg, s, events), e)
    decreases |events|
  {
    if events != [] {
      assert (events + [e])[1..] == events[1..] + [e];
      InputRunSnoc(cfg, InputStep(cfg, s, events[0]), events[1..], e);
    }
  }

  /** Every buffer reachable from the initial state is one the filter
      accepts, whenever the filter is closed under Backspace. */
  lemma {:induction false} ReachableBuffersFiltered(cfg: InputConfig, events: seq<Event>)
    requires ClosedUnderDropLast(cfg.filter)
    ensures Filtered(cfg, InputRun(cfg, Initial, events))
    decreases |events|
  {
    if events != [] {
      var init := events[..|events| - 1];
      var e := events[|events| - 1];
      assert events == init + [e];
      ReachableBuffersFiltered(cfg, init);
      InputRunSnoc(cfg, Initial, init, e);
      StepKeepsFilter(cfg, InputRun(cfg, Initial, init), e);
    }
  }

  /** A filter accepting strings of at most one character. */
  function AtMostOneChar(b: string): bool {
    |b| <= 1
  }

  function AcceptAll(b: string): bool {
    true
  }

  function Identity(b: string): string {
    b
  }

  lemma AtMostOneCharClosed()
    ensures ClosedUnderDropLast(AtMostOneChar)
  {
    forall b: string | AtMostOneChar(b) && |b| > 0
      ensures AtMostOneChar(b[..|b| - 1])
    {
    }
  }

  /** With the gate as written, a filter closed under Backspace that refuses
      two-character strings still gets the buffer "a " after 'a' and Space. */
  lemma SpaceGateBypassesFilter()
    ensures var cfg := InputConfig("", "", "", AcceptAll, AtMostOneChar, Identity);
      var s := InputStepAsWritten(cfg, InputStep(cfg, Initial, CharInput('a')), KeyPressSpace);
      && ClosedUnderDropLast(cfg.filter)
      && s.buffer == Some("a ")
      && !cfg.filter(s.buffer.value)
  {
    var cfg := InputConfig("", "", "", AcceptAll, AtMostOneChar, Identity);
    AtMostOneCharClosed();
    assert Initial.buffer.GetOr("") + ['a'] == "a";
    assert cfg.filter("a");
    assert cfg.filter(" ");
    assert "a" + " " == "a ";
  }

  /** The hint shows while the prompt is open with no text typed; otherwise
      the transformed value, followed while open by the error, if any. */
  function RenderInput(cfg: InputConfig, s: InputState): seq<Segment> {
    var head := Header(Styled([FgGreen, Bold], "?"), cfg.message);
    if s.interacting && (s.buffer.None? || s.buffer.value == []) && !IsBlank(cfg.hint) then
      head + [Text("  "), Styled([FgBrightBlack], cfg.hint), CursorLeft(|cfg.hint| + 2)]
    else if s.interacting then
      head + [Text(cfg.transform(ValueOf(cfg, s)))]
      + (if !IsBlank(s.errorMessage)
         then [Text("  "), Styled([Bold, FgRed], s.errorMessage), CursorLeft(|s.errorMessage| + 2)]
         else [])
    else
      head + [Styled([FgCyan, Bold], cfg.transform(ValueOf(cfg, s))), NewLine]
  }

  /** A completed prompt shows the transformed value and ends the line; an
      open one never ends the line. */
  lemma RenderEndsLineOnlyWhenDone(cfg: InputConfig, s: InputState)
    ensures var r := RenderInput(cfg, s);
      (r[|r| - 1] == NewLine <==> !s.interacting)
      && (!s.interacting ==> r[|r| - 2] == Styled([FgCyan, Bold], cfg.transform(ValueOf(cfg, s))))
  {
  }

  /** The password transform: one copy of the mask per character. */
  function Mask(mask: string, b: string): (r: string)
    ensures |r| == |b| * |mask|
    ensures b != [] ==> r[..|mask|] == mask
    ensures forall k :: 0 <= k < |r| - |mask| ==> r[k + |mask|] == r[k]
  {
    if b == [] then []
    else
      var rest := Mask(mask, b[1..]);
      assert forall k :: 0 <= k < |rest| ==> (mask + rest)[k + |mask|] == rest[k];
      mask + rest
  }

  /** Two values of the same length look the same behind the mask. */
  lemma {:induction false} MaskHidesContent(mask: string, b: string, c: string)
    requires |b| == |c|
    ensures Mask(mask, b) == Mask(mask, c)
  {
    if b != [] {
      MaskHidesContent(mask, b[1..], c[1..]);
    }
  }

  function PasswordConfig(message: string, default: string, hint: string, mask: string): InputConfig {
    InputConfig(message, default, hint, b => true, b => true, b => Mask(mask, b))
  }

  /** A password prompt's view depends on the value's length, never on its
      characters. */
  lemma PasswordViewHidesValue(message: string, default: string, hint: string, mask: string,
                               s: InputState, t: InputState)
    requires s.interacting == t.interacting && s.errorMessage == t.errorMessage
    requires s.buffer.Some? == t.buffer.Some?
    requires |ValueOf(PasswordConfig(message, default, hint, mask), s)|
          == |ValueOf(PasswordConfig(message, default, hint, mask), t)|
    ensures var cfg := PasswordConfig(message, default, hint, mask);
      RenderInput(cfg, s) == RenderInput(cfg, t)
  {
    var cfg := PasswordConfig(message, default, hint, mask);
    MaskHidesContent(mask, ValueOf(cfg, s), ValueOf(cfg, t));
  }

  // The number prompt's patterns, read as whole-string matches.

  predicate IsDigit(c: char) {
    '0' <= c <= '9'
  }

  predicate AllDigits(b: string) {
    forall k :: 0 <= k < |b| ==> IsDigit(b[k])
  }

  /** The characters the any-character pattern does not match. */
  predicate IsLineTerminator(c: char) {
    c in {'\n', '\r', '\U{85}', '\U{2028}', '\U{2029}'}
  }

  /** The length of the longest all-digit prefix. */
  function LeadingDigits(b: string): (n: nat)
    ensures n <= |b| && AllDigits(b[..n])
    ensures n < |b| ==> !IsDigit(b[n])
  {
    if b == [] || !IsDigit(b[0]) then 0
    else
      var n := 1 + LeadingDigits(b[1..]);
      assert b[..n] == [b[0]] + b[1..][..n - 1];
      n
  }

  /** The longest digit prefix is the only all-digit prefix followed by a
      non-digit or the end. */
  lemma {:induction false} LeadingDigitsUnique(b: string, n: int)
    requires 0 <= n <= |b| && AllDigits(b[..n]) && (n < |b| ==> !IsDigit(b[n]))
    ensures n == LeadingDigits(b)
    decreases n
  {
    if n > 0 {
      assert IsDigit(b[..n][0]);
      var t := b[1..];
      assert t[..n - 1] == b[..n][1..];
      LeadingDigitsUnique(t, n - 1);
    }
  }

  /** The filter: digits, at most one point, digits. */
  predicate NumberPrefix(b: string) {
    var n := LeadingDigits(b);
    n == |b| || (b[n] == '.' && AllDigits(b[n + 1..]))
  }

  /** The validation as written: digits, then at most one character of any
      kind but a line terminator, then digits. */
  predicate NumberValidAsWritten(b: string) {
    var n := LeadingDigits(b);
    n >= 1 && (n == |b| || (!IsLineTerminator(b[n]) && AllDigits(b[n + 1..])))
  }

  /** The validation with the point taken literally: digits, at most one
      point, digits. */
  predicate NumberValid(b: string) {
    var n := LeadingDigits(b);
    n >= 1 && (n == |b| || (b[n] == '.' && AllDigits(b[n + 1..])))
  }

  /** Removing the last character of a string the filter accepts leaves one
      it accepts. */
  lemma NumberPrefixDropLast(b: string)
    requires NumberPrefix(b) && |b| > 0
    ensures NumberPrefix(b[..|b| - 1])
  {
    var c := b[..|b| - 1];
    var n := LeadingDigits(b);
    if n == |b| {
      assert c[..|c|] == b[..|c|];
      LeadingDigitsUnique(c, |c|);
    } else {
      assert c[..n] == b[..n];
      if n < |c| {
        LeadingDigitsUnique(c, n);
        assert c[n + 1..] == b[n + 1..|b| - 1];
      } else {
        LeadingDigitsUnique(c, n);
      }
    }
  }

  lemma NumberPrefixClosed()
    ensures ClosedUnderDropLast(NumberPrefix)
  {
    forall b: string | NumberPrefix(b) && |b| > 0
      ensures NumberPrefix(b[..|b| - 1])
    {
      NumberPrefixDropLast(b);
    }
  }

  /** The corrected validation accepts exactly the non-empty strings of the
      filter's language that start with a digit. */
  lemma NumberValidIsFilteredWithLeadingDigit(b: string)
    ensures NumberValid(b) <==> NumberPrefix(b) && |b| > 0 && IsDigit(b[0])
  {
    if |b| > 0 && IsDigit(b[0]) {
      assert LeadingDigits(b) >= 1;
    }
  }

  /** The two validations agree on every string the filter lets through, so
      only a default can tell them apart. */
  lemma ValidationsAgreeOnFilteredText(b: string)
    requires NumberPrefix(b)
    ensures NumberValidAsWritten(b) <==> NumberValid(b)
  {
  }

  /** As written, the validation accepts "1x", which the filter's language,
      and so any decimal reading of the text, excludes. */
  lemma NumberValidationAcceptsLetters()
    ensures NumberValidAsWritten("1x") && !NumberValid("1x") && !NumberPrefix("1x")
  {
    assert LeadingDigits("1x") == 1 by {
      LeadingDigitsUnique("1x", 1);
    }
  }

  /** The number prompt, with the corrected validation. */
  function NumberConfig(message: string, default: string, hint: string,
                        transform: string -> string): InputConfig {
    InputConfig(message, default, hint, NumberValid, NumberPrefix, transform)
  }

  /** Text typed into a number prompt is always digits, at most one point,
      digits. */
  lemma NumberBuffersStayNumeric(message: string, default: string, hint: string,
                                 transform: string -> string, events: seq<Event>)
    ensures var s := InputRun(NumberConfig(message, default, hint, transform), Initial, events);
      s.buffer.Some? ==> NumberPrefix(s.buffer.value)
  {
    NumberPrefixClosed();
    ReachableBuffersFiltered(NumberConfig(message, default, hint, transform), events);
  }

  /** A prompt completed with typed text holds text the validation accepts,
      so a number prompt that completes without its default holds a decimal
      number. */
  lemma {:induction false} CompletionIsValid(cfg: InputConfig, s: InputState, events: seq<Event>)
    requires s.interacting
    requires !InputRun(cfg, s, events).interacting
    ensures exists k :: 0 <= k < |events| && events[k].KeyPressEnter?
              && cfg.validation(ValueOf(cfg, InputRun(cfg, s, events[..k])))
    decreases |events|
  {
    var init := events[..|events| - 1];
    var e := events[|events| - 1];
    assert events == init + [e];
    InputRunSnoc(cfg, s, init, e);
    if InputRun(cfg, s, init).interacting {
      assert events[..|events| - 1] == init;
    } else {
      CompletionIsValid(cfg, s, init);
      var k :| 0 <= k < |init| && init[k].KeyPressEnter?
               && cfg.validation(ValueOf(cfg, InputRun(cfg, s, init[..k])));
      assert events[..k] == init[..k];
    }
  }

  /** The number prompt as written: the validation with the unescaped
      point. */
  function NumberConfigAsWritten(message: string, default: string, hint: string,
                                 transform: string -> string): InputConfig {
    InputConfig(message, default, hint, NumberValidAsWritten, NumberPrefix, transform)
  }

  /** The fold of the step as written. */
  function InputRunAsWritten(cfg: InputConfig, s: InputState, events: seq<Event>): (r: InputState)
    ensures !s.interacting ==> !r.interacting
    decreases |events|
  {
    if events == [] then s
    else InputRunAsWritten(cfg, InputStepAsWritten(cfg, s, events[0]), events[1..])
  }

  /** No string ending in a space, and not a lone space, is in the number
      filter's language, so neither Space gate lets a space into a number
      prompt's buffer. */
  lemma SpaceNeverNumeric(b: string)
    ensures !NumberPrefix(b + " ") && !NumberPrefix(" ")
  {
    var t := b + " ";
    var n := LeadingDigits(t);
    assert t[|t| - 1] == ' ';
    if n < |t| && t[n] == '.' {
      assert n < |t| - 1;
      assert t[n + 1..][|t| - n - 2] == ' ';
    }
    assert LeadingDigits(" ") == 0;
  }

  /** On a number prompt whose default is in the filter's language, the
      step as written and the corrected step agree from every state whose
      buffer is in that language. */
  lemma NumberStepsAgree(message: string, default: string, hint: string,
                         transform: string -> string, s: InputState, e: Event)
    requires NumberPrefix(default) && (s.buffer.Some? ==> NumberPrefix(s.buffer.value))
    ensures InputStepAsWritten(NumberConfigAsWritten(message, default, hint, transform), s, e)
         == InputStep(NumberConfig(message, default, hint, transform), s, e)
  {
    var c := NumberConfig(message, default, hint, transform);
    SpaceNeverNumeric(s.buffer.GetOr(""));
    ValidationsAgreeOnFilteredText(ValueOf(c, s));
  }

  /** The same agreement over every event sequence: a number prompt as
      written behaves exactly like the corrected one unless its default lies
      outside the filter's language. */
  lemma {:induction false} NumberRunsAgree(message: string, default: string, hint: string,
                                           transform: string -> string, s: InputState,
                                           events: seq<Event>)
    requires NumberPrefix(default) && (s.buffer.Some? ==> NumberPrefix(s.buffer.value))
    ensures InputRunAsWritten(NumberConfigAsWritten(message, default, hint, transform), s, events)
         == InputRun(NumberConfig(message, default, hint, transform), s, events)
    decreases |events|
  {
    if events != [] {
      var c := NumberConfig(message, default, hint, transform);
      NumberStepsAgree(message, default, hint, transform, s, events[0]);
      NumberPrefixClosed();
      StepKeepsFilter(c, s, events[0]);
      NumberRunsAgree(message, default, hint, transform, InputStep(c, s, events[0]), events[1..]);
    }
  }

  /** Typed text in a number prompt as written is digits, at most one
      point, digits, whenever the default is too. */
  lemma NumberBuffersStayNumericAsWritten(message: string, default: string, hint: string,
                                          transform: string -> string, events: seq<Event>)
    requires NumberPrefix(default)
    ensures var s := InputRunAsWritten(NumberConfigAsWritten(message, default, hint, transform),
                                       Initial, events);
      s.buffer.Some? ==> NumberPrefix(s.buffer.value)
  {
    NumberRunsAgree(message, default, hint, transform, Initial, events);
    NumberBuffersStayNumeric(message, default, hint, transform, events);
  }

  class InputComponent {
    const config: InputConfig
    var buffer: Option<string>
    var interacting: bool
    var errorMessage: string

    function State(): InputState
      reads this
    {
      InputState(buffer, interacting, errorMessage)
    }

    constructor (config: InputConfig)
      ensures this.config == config && State() == Initial
    {
      this.config := config;
      buffer := None;
      interacting := true;
      errorMessage := "";
    }

    function Value(): (v: string)
      reads this
      ensures v == ValueOf(config, State())
    {
      buffer.GetOr(config.default)
    }

    function IsInteracting(): (b: bool)
      reads this
      ensures b == State().interacting
    {
      interacting
    }

    method OnEvent(e: Event)
      modifies this
      ensures State() == InputStep(config, old(State()), e)
    {
      errorMessage := "";
      match e {
        case KeyPressEnter =>
          if config.validation(Value()) {
            interacting := false;
          } else {
            errorMessage := InvalidInput;
          }
        case KeyPressBackspace =>
          if buffer.Some? {
            buffer := Some(DropLast(buffer.value));
          }
        case KeyPressSpace =>
          if config.filter(buffer.GetOr("") + " ") {
            buffer := Some(buffer.GetOr("") + " ");
          }
        case CharInput(c) =>
          var t := buffer.GetOr("") + [c];
          if config.filter(t) {
            buffer := Some(t);
          }
        case _ =>
      }
    }

    method OnEventSequence(events: seq<Event>)
      modifies this
      ensures State() == InputRun(config, old(State()), events)
    {
      ghost var start := State();
      var i := 0;
      while i < |events|
        invariant 0 <= i <= |events|
        invariant State() == InputRun(config, start, events[..i])
      {
        ghost var before := State();
        OnEvent(events[i]);
        assert events[..i + 1] == events[..i] + [events[i]];
        InputRunSnoc(config, start, events[..i], events[i]);
        assert State() == InputStep(config, before, events[i]);
        i := i + 1;
      }
      assert events[..|events|] == events;
    }

    function Render(): seq<Segment>
      reads this
    {
      RenderInput(config, State())
    }
  }

  const HowMuch: InputConfig := NumberConfig("how much?", "", "", Identity)

  /** One accepted keystroke on a number prompt's buffer. */
  lemma NumberKey(b: string, c: char, n: nat)
    requires n <= |b| + 1 && AllDigits((b + [c])[..n])
    requires n < |b| + 1 ==> !IsDigit((b + [c])[n])
    requires n == |b| + 1 || ((b + [c])[n] == '.' && AllDigits((b + [c])[n + 1..]))
    ensures InputStep(HowMuch, InputState(Some(b), true, ""), CharInput(c))
              == InputState(Some(b + [c]), true, "")
  {
    LeadingDigitsUnique(b + [c], n);
  }

  lemma FirstDigit()
    ensures InputStep(HowMuch, Initial, CharInput('1')) == InputState(Some("1"), true, "")
  {
    assert "" + ['1'] == "1";
    LeadingDigitsUnique("1", 1);
  }

  lemma SecondDigit()
    ensures InputStep(HowMuch, InputState(Some("1"), true, ""), CharInput('2'))
              == InputState(Some("12"), true, "")
  {
    NumberKey("1", '2', 2);
    assert "1" + ['2'] == "12";
  }

  lemma DecimalPoint()
    ensures InputStep(HowMuch, InputState(Some("12"), true, ""), CharInput('.'))
              == InputState(Some("12."), true, "")
  {
    NumberKey("12", '.', 2);
    assert "12" + ['.'] == "12.";
  }

  lemma FractionDigit()
    ensures InputStep(HowMuch, InputState(Some("12."), true, ""), CharInput('5'))
              == InputState(Some("12.5"), true, "")
  {
    NumberKey("12.", '5', 2);
    assert "12." + ['5'] == "12.5";
  }

  lemma LetterDropped()
    ensures InputStep(HowMuch, InputState(Some("12"), true, ""), CharInput('x'))
              == InputState(Some("12"), true, "")
  {
    assert "12" + ['x'] == "12x";
    LeadingDigitsUnique("12x", 2);
    assert !NumberPrefix("12x");
  }

  lemma EnterAccepts()
    ensures InputStep(HowMuch, InputState(Some("12.5"), true, ""), KeyPressEnter)
              == InputState(Some("12.5"), false, "")
  {
    LeadingDigitsUnique("12.5", 2);
    assert "12.5"[3..] == "5";
    assert NumberValid("12.5");
  }

  /** The steps of typing 1, 2, x, '.', 5 and Enter on a fresh number
      prompt. */
  lemma NumberSteps()
    ensures InputStep(HowMuch, Initial, CharInput('1')) == InputState(Some("1"), true, "")
    ensures InputStep(HowMuch, InputState(Some("1"), true, ""), CharInput('2'))
              == InputState(Some("12"), true, "")
    ensures InputStep(HowMuch, InputState(Some("12"), true, ""), CharInput('x'))
              == InputState(Some("12"), true, "")
    ensures InputStep(HowMuch, InputState(Some("12"), true, ""), CharInput('.'))
              == InputState(Some("12."), true, "")
    ensures InputStep(HowMuch, InputState(Some("12."), true, ""), CharInput('5'))
              == InputState(Some("12.5"), true, "")
    ensures InputStep(HowMuch, InputState(Some("12.5"), true, ""), KeyPressEnter)
              == InputState(Some("12.5"), false, "")
  {
    FirstDigit();
    SecondDigit();
    LetterDropped();
    DecimalPoint();
    FractionDigit();
    EnterAccepts();
  }

  /** Typing 1, 2, x, '.', 5 and Enter completes with "12.5". */
  lemma TypedNumber()
    ensures InputRun(HowMuch, Initial, [CharInput('1'), CharInput('2'), CharInput('x'),
                                        CharInput('.'), CharInput('5'), KeyPressEnter])
      == InputState(Some("12.5"), false, "")
  {
    NumberSteps();
    var evs := [CharInput('1'), CharInput('2'), CharInput('x'),
                CharInput('.'), CharInput('5'), KeyPressEnter];
    assert evs[1..][1..][1..][1..][1..][1..] == [];
  }

  /** The same keystrokes on the number prompt as written, whose default
      "" is in the filter's language, give the same result. */
  lemma TypedNumberAsWritten()
    ensures InputRunAsWritten(NumberConfigAsWritten("how much?", "", "", Identity), Initial,
                              [CharInput('1'), CharInput('2'), CharInput('x'),
                               CharInput('.'), CharInput('5'), KeyPressEnter])
      == InputState(Some("12.5"), false, "")
  {
    assert LeadingDigits("") == 0;
    NumberRunsAgree("how much?", "", "", Identity, Initial,
                    [CharInput('1'), CharInput('2'), CharInput('x'),
                     CharInput('.'), CharInput('5'), KeyPressEnter]);
    TypedNumber();
  }

  /** The same keystrokes through the widget object. */
  method TypeNumber() returns (value: string, open: bool)
    ensures value == "12.5" && !open
  {
    var p := new InputComponent(HowMuch);
    p.OnEventSequence([CharInput('1'), CharInput('2'), CharInput('x'), CharInput('.'),
                       CharInput('5'), KeyPressEnter]);
    TypedNumber();
    value := p.Value();
    open := p.IsInteracting();
  }
}
