/**
 * The differential repaint: before writing a new view, erase the lines the
 * previous view occupied, then remember how many lines the new view has.
 * Terminal commands are modelled as values; writing them is left to the
 * terminal.
 */
module AnsiOutput {

  /** Move to column 0, erase the whole current line, move up one line. */
  datatype Command = ToColumnZero | EraseLine | CursorUpLine

  /** What one display writes: the erase commands, then the view itself. */
  datatype Frame = Frame(prefix: seq<Command>, view: string)

  /** n pairs of erase-line then cursor-up. */
  function Pairs(n: nat): seq<Command> {
    if n == 0 then [] else Pairs(n - 1) + [EraseLine, CursorUpLine]
  }

  /** The erase prefix for a previous view of the given height: always
      column 0 and one erase; above two lines also one erase and one move up
      per line but the first, and a final erase. */
  function ErasePrefix(prevHeight: int): seq<Command> {
    [ToColumnZero, EraseLine]
    + if prevHeight > 2 then Pairs(prevHeight - 1) + [EraseLine] else []
  }

  lemma {:induction false} PairsCount(n: nat)
    ensures multiset(Pairs(n))[EraseLine] == n
    ensures multiset(Pairs(n))[CursorUpLine] == n
    ensures multiset(Pairs(n))[ToColumnZero] == 0
  {
    if n > 0 {
      PairsCount(n - 1);
    }
  }

  /** Above two lines the prefix erases prev + 1 times and moves up prev - 1
      times; otherwise it erases once and never moves up. Either way it
      starts with column 0. */
  lemma ErasePrefixCounts(prevHeight: int)
    ensures ErasePrefix(prevHeight)[0] == ToColumnZero
    ensures multiset(ErasePrefix(prevHeight))[ToColumnZero] == 1
    ensures multiset(ErasePrefix(prevHeight))[EraseLine]
              == if prevHeight > 2 then prevHeight + 1 else 1
    ensures multiset(ErasePrefix(prevHeight))[CursorUpLine]
              == if prevHeight > 2 then prevHeight - 1 else 0
  {
    if prevHeight > 2 {
      PairsCount(prevHeight - 1);
    }
  }

  /** Where the commands leave the cursor, in lines above the line it
      started on, and which of those lines they erased. */
  datatype Screen = Screen(above: int, erased: set<int>)

  function Apply(s: Screen, c: Command): Screen {
    match c
    case ToColumnZero => s
    case EraseLine => s.(erased := s.erased + {s.above})
    case CursorUpLine => s.(above := s.above + 1)
  }

  function Simulate(s: Screen, cmds: seq<Command>): Screen
    decreases |cmds|
  {
    if cmds == [] then s else Simulate(Apply(s, cmds[0]), cmds[1..])
  }

  lemma {:induction false} SimulateAppend(s: Screen, a: seq<Command>, b: seq<Command>)
    ensures Simulate(s, a + b) == Simulate(Simulate(s, a), b)
    decreases |a|
  {
    if a == [] {
      assert a + b == b;
    } else {
      assert (a + b)[1..] == a[1..] + b;
      SimulateAppend(Apply(s, a[0]), a[1..], b);
    }
  }

  /** The lines 0 .. n - 1 above the starting line, the starting line
      being 0. */
  function Lines(n: nat): (r: set<int>)
    ensures forall k :: k in r <==> 0 <= k < n
  {
    if n == 0 then {} else Lines(n - 1) + {n - 1}
  }

  /** n pairs from the starting line erase it and the n - 1 lines above it
      and leave the cursor n lines up. */
  lemma {:induction false} SimulatePairs(n: nat)
    ensures Simulate(Screen(0, {}), Pairs(n)) == Screen(n, Lines(n))
  {
    if n > 0 {
      SimulatePairs(n - 1);
      SimulateAppend(Screen(0, {}), Pairs(n - 1), [EraseLine, CursorUpLine]);
      assert Lines(n - 1) + {n - 1} == Lines(n);
    }
  }

  /** With the cursor on the last line of a previous view of more than two
      lines, the prefix erases exactly that view's lines and leaves the
      cursor on its first line; otherwise it erases only the cursor's
      line. */
  lemma ErasePrefixClearsPreviousView(prevHeight: int)
    ensures var s := Simulate(Screen(0, {}), ErasePrefix(prevHeight));
      if prevHeight > 2 then s == Screen(prevHeight - 1, Lines(prevHeight))
      else s == Screen(0, {0})
  {
    var head: seq<Command> := [ToColumnZero, EraseLine];
    assert Simulate(Screen(0, {}), head) == Screen(0, {0});
    SimulateAppend(Screen(0, {}), head, ErasePrefix(prevHeight)[2..]);
    assert ErasePrefix(prevHeight) == head + ErasePrefix(prevHeight)[2..];
    if prevHeight > 2 {
      var n := prevHeight - 1;
      assert ErasePrefix(prevHeight)[2..] == Pairs(n) + [EraseLine];
      SimulateAppend(Screen(0, {0}), Pairs(n), [EraseLine]);
      SimulatePairs(n);
      assert Simulate(Screen(0, {0}), Pairs(n)) == Simulate(Screen(0, {}), Pairs(n)) by {
        SimulateFromErased(n);
      }
      assert Lines(n) + {n} == Lines(prevHeight);
    }
  }

  /** Having already erased the starting line does not change what the
      pairs do, since they erase it first. */
  lemma {:induction false} SimulateFromErased(n: nat)
    requires n > 0
    ensures Simulate(Screen(0, {0}), Pairs(n)) == Simulate(Screen(0, {}), Pairs(n))
  {
    if n == 1 {
      assert Pairs(1) == [EraseLine, CursorUpLine];
    } else {
      SimulateFromErased(n - 1);
      SimulateAppend(Screen(0, {0}), Pairs(n - 1), [EraseLine, CursorUpLine]);
      SimulateAppend(Screen(0, {}), Pairs(n - 1), [EraseLine, CursorUpLine]);
    }
  }

  /** The number of line terminators, reading "\r\n" as one and a lone
      '\n' or '\r' as one. */
  function Terminators(s: string): nat
    decreases |s|
  {
    if s == [] then 0
    else if s[0] == '\r' && |s| >= 2 && s[1] == '\n' then 1 + Terminators(s[2..])
    else if s[0] == '\n' || s[0] == '\r' then 1 + Terminators(s[1..])
    else Terminators(s[1..])
  }

  /** The number of lines a view splits into: one more than its
      terminators, so an empty view is one line and a trailing newline
      adds an empty last line. */
  function LineCount(view: string): (n: nat)
    ensures n >= 1
  {
    Terminators(view) + 1
  }

  /** A view with no line terminator is one line. */
  lemma {:induction false} NoTerminatorIsOneLine(view: string)
    requires forall k :: 0 <= k < |view| ==> view[k] != '\n' && view[k] != '\r'
    ensures LineCount(view) == 1
    decreases |view|
  {
    if view != [] {
      NoTerminatorIsOneLine(view[1..]);
    }
  }

  /** Ending a view with a newline adds one line, unless the view already
      ends with '\r', which the newline joins. */
  lemma {:induction false} TrailingNewlineAddsLine(view: string)
    requires view == [] || view[|view| - 1] != '\r'
    ensures LineCount(view + "\n") == LineCount(view) + 1
    decreases |view|
  {
    if view == [] {
      assert view + "\n" == "\n";
    } else {
      var t := view + "\n";
      if view[0] == '\r' && |view| >= 2 && view[1] == '\n' {
        assert t[2..] == view[2..] + "\n";
        TrailingNewlineAddsLine(view[2..]);
      } else {
        assert t[1..] == view[1..] + "\n";
        TrailingNewlineAddsLine(view[1..]);
      }
    }
  }

  /** The repaint state: the height of the view last displayed. */
  class Output {
    var prevViewHeight: int

    constructor ()
      ensures prevViewHeight == 0
    {
      prevViewHeight := 0;
    }

    /** Erases the previous view and shows `view`, remembering its height. */
    method Display(view: string) returns (frame: Frame)
      modifies this
      ensures frame == Frame(ErasePrefix(old(prevViewHeight)), view)
      ensures prevViewHeight == LineCount(view)
    {
      var prefix: seq<Command> := [ToColumnZero, EraseLine];
      if prevViewHeight > 2 {
        var i := 0;
        while i < prevViewHeight - 1
          invariant 0 <= i <= prevViewHeight - 1
          invariant prefix == [ToColumnZero, EraseLine] + Pairs(i)
        {
          prefix := prefix + [EraseLine, CursorUpLine];
          i := i + 1;
        }
        prefix := prefix + [EraseLine];
      }
      frame := Frame(prefix, view);
      prevViewHeight := LineCount(view);
    }
  }

  /** The first display only clears the current line, and a one-line view
      is repainted by clearing just its line. */
  method RepaintOneLine(view: string) returns (first: Frame, second: Frame)
    requires forall k :: 0 <= k < |view| ==> view[k] != '\n' && view[k] != '\r'
    ensures first.prefix == [ToColumnZero, EraseLine]
    ensures second.prefix == [ToColumnZero, EraseLine]
  {
    var out := new Output();
    first := out.Display(view);
    NoTerminatorIsOneLine(view);
    second := out.Display(view);
  }

  /** A three-line view is repainted by erasing its three lines from the
      bottom up. */
  method RepaintThreeLines() returns (second: Frame)
    ensures second.prefix == [ToColumnZero, EraseLine, EraseLine, CursorUpLine,
                              EraseLine, CursorUpLine, EraseLine]
  {
    var out := new Output();
    var view := "a\nb\nc";
    var first := out.Display(view);
    assert LineCount(view) == 3 by {
      assert view[1..] == "\nb\nc" && view[2..] == "b\nc" && view[3..] == "\nc" && view[4..] == "c";
    }
    second := out.Display(view);
    assert Pairs(2) == [EraseLine, CursorUpLine, EraseLine, CursorUpLine] by {
      assert Pairs(1) == [EraseLine, CursorUpLine];
    }
  }
}
