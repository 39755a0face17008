/**
 * The data model shared by the whole engine: a choice offered by a widget,
 * the closed union of logical keyboard events, and the key codes the two
 * terminal families are documented to send for them.
 */
module Events {
  import opened Options

  /** A choice shown by a list or checkbox widget. Identity is positional:
      two choices may carry the same display name. */
  datatype Choice<T> = Choice(displayName: string, data: T)

  /** The ten logical events; only CharInput carries a payload. */
  datatype Event =
    | KeyPressUp
    | KeyPressDown
    | KeyPressRight
    | KeyPressLeft
    | KeyPressEnter
    | KeyPressSpace
    | ClearScreen
    | KeyPressBackspace
    | NotSupportedChar
    | CharInput(c: char)

  /** The position of an event's variant in the union's declaration order. */
  function Variant(e: Event): (t: nat)
    ensures t < 10
    ensures t == 9 <==> e.CharInput?
  {
    match e
    case KeyPressUp => 0
    case KeyPressDown => 1
    case KeyPressRight => 2
    case KeyPressLeft => 3
    case KeyPressEnter => 4
    case KeyPressSpace => 5
    case ClearScreen => 6
    case KeyPressBackspace => 7
    case NotSupportedChar => 8
    case CharInput(_) => 9
  }

  /** The union is closed with exactly ten variants: every position below
      ten is taken by some event, and a variant other than CharInput has a
      single inhabitant (it carries no data). */
  lemma EventUnionIsClosed(t: nat, e1: Event, e2: Event)
    ensures t < 10 ==> exists e :: Variant(e) == t
    ensures !e1.CharInput? && Variant(e1) == Variant(e2) ==> e1 == e2
  {
    if t < 10 {
      var witnesses := [KeyPressUp, KeyPressDown, KeyPressRight, KeyPressLeft, KeyPressEnter,
                        KeyPressSpace, ClearScreen, KeyPressBackspace, NotSupportedChar, CharInput('a')];
      assert Variant(witnesses[t]) == t;
    }
  }

  /** A character input event is determined by its character. */
  lemma CharInputCarriesOneChar(a: char, b: char)
    ensures CharInput(a) == CharInput(b) <==> a == b
  {
  }

  /** The two terminal families: "new" (macOS-like, escape introducer '[')
      and "old" (Windows-like, escape introducer 'O'). */
  datatype Profile = NewTerminal | OldTerminal

  /** The key codes the event declarations document for each family.
      None where nothing is documented: ClearScreen on the old family is
      marked unknown, and NotSupportedChar and CharInput have no fixed code. */
  function DocumentedKeyCodes(p: Profile, e: Event): (r: Option<seq<int>>)
    ensures r.Some? ==> 1 <= |r.value| <= 3
    ensures r.Some? && |r.value| == 3 ==> e in {KeyPressUp, KeyPressDown, KeyPressRight, KeyPressLeft}
  {
    var introducer := if p.NewTerminal? then 91 else 79;
    match e
    case KeyPressUp => Some([27, introducer, 65])
    case KeyPressDown => Some([27, introducer, 66])
    case KeyPressRight => Some([27, introducer, 67])
    case KeyPressLeft => Some([27, introducer, 68])
    case KeyPressEnter => Some([13])
    case KeyPressSpace => Some([32])
    case ClearScreen => if p.NewTerminal? then Some([12]) else None
    case KeyPressBackspace => if p.NewTerminal? then Some([127]) else Some([8])
    case NotSupportedChar => None
    case CharInput(_) => None
  }
}
