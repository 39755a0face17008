/**
 * The cursor and its scrolling window, shared by the list and checkbox
 * widgets: the cursor indexes a choice, the window shows pageSize choices
 * starting at start, and Up and Down move the cursor by one and the window
 * only as far as needed to keep the cursor visible.
 */
module Pagination {
  import opened View

  datatype Window = Window(cursor: int, start: int)

  /** Both widgets start at the first choice with the window at the top. */
  const Origin: Window := Window(0, 0)

  function Max(a: int, b: int): int { if a < b then b else a }
  function Min(a: int, b: int): int { if a < b then a else b }

  /** The cursor is on a choice and inside the window, and the window never
      starts so late that the page could hold more choices than it shows.
      It implies at least one choice and a page size of at least one. */
  predicate Inv(w: Window, count: int, pageSize: int) {
    && 0 <= w.cursor < count
    && 0 <= w.start <= w.cursor <= w.start + pageSize - 1
    && (w.start == 0 || w.start + pageSize <= count)
  }

  /** The informational line both paginated widgets set once, at
      construction, when the page cannot show every choice. */
  const InfoText: string := "(move up and down to reveal more choices)"

  function InfoMessage(count: int, pageSize: int): (m: string)
    ensures !IsBlank(m) <==> pageSize < count
  {
    assert !IsWhitespace(InfoText[0]);
    if pageSize < count then InfoText else ""
  }

  /** Whether choice i is on the page the window shows. */
  predicate Visible(w: Window, pageSize: int, i: int) {
    w.start <= i < w.start + pageSize
  }

  /** The initial position is valid exactly when there is a choice and a
      page holds at least one. */
  lemma OriginValid(count: int, pageSize: int)
    ensures Inv(Origin, count, pageSize) <==> count >= 1 && pageSize >= 1
  {
  }

  /** Up: the cursor moves to the previous choice, staying at the first;
      the window follows it back by one when it leaves the top. */
  function Up(w: Window): (r: Window)
    ensures forall count, pageSize :: Inv(w, count, pageSize) ==> Inv(r, count, pageSize)
    ensures w.cursor >= 1 ==> r.cursor == w.cursor - 1
    ensures 0 <= w.start <= w.cursor == 0 ==> r == w
    ensures 0 <= w.start <= w.cursor ==> r.start == w.start || (r.start == w.start - 1 && r.cursor == r.start)
  {
    var cursor := Max(0, w.cursor - 1);
    var start := if cursor < w.start then Max(0, w.start - 1) else w.start;
    Window(cursor, start)
  }

  /** Down: the cursor moves to the next choice, staying at the last; the
      window follows it forward by one when it leaves the bottom. */
  function Down(w: Window, count: int, pageSize: int): (r: Window)
    ensures Inv(w, count, pageSize) ==> Inv(r, count, pageSize)
    ensures 0 <= w.cursor < count - 1 ==> r.cursor == w.cursor + 1
    ensures Inv(w, count, pageSize) && w.cursor == count - 1 ==> r == w
    ensures Inv(w, count, pageSize) ==>
      r.start == w.start || (r.start == w.start + 1 && r.cursor == r.start + pageSize - 1)
  {
    var cursor := Min(count - 1, w.cursor + 1);
    var start := if cursor > w.start + pageSize - 1 then Min(count - 1, w.start + 1) else w.start;
    Window(cursor, start)
  }

  /** A valid window shows the cursor and a full page: min(pageSize,
      count) choices. */
  lemma FullPage(w: Window, count: int, pageSize: int)
    requires Inv(w, count, pageSize)
    ensures Visible(w, pageSize, w.cursor)
    ensures Min(w.start + pageSize, count) - w.start == Min(pageSize, count)
  {
  }

  /** When the page holds every choice the window never scrolls, so with
      the unbounded default page size start + pageSize never exceeds
      pageSize. */
  lemma AllFitNeverScrolls(w: Window, count: int, pageSize: int)
    requires Inv(w, count, pageSize) && count <= pageSize
    ensures w.start == 0
  {
  }

  /** The render loop both widgets run: every index from i to count - 1,
      with the rows of the indices off the page left out. */
  function PageRows<S>(row: int -> seq<S>, w: Window, count: int, pageSize: int, i: int): seq<S>
    requires 0 <= i <= count
    decreases count - i
  {
    if i == count then []
    else (if Visible(w, pageSize, i) then row(i) else []) + PageRows(row, w, count, pageSize, i + 1)
  }

  /** The rows of the indices lo through hi - 1, unconditionally. */
  function Rows<S>(row: int -> seq<S>, lo: int, hi: int): seq<S>
    decreases hi - lo
  {
    if lo >= hi then [] else row(lo) + Rows(row, lo + 1, hi)
  }

  /** The first index past the page: the page end or the choice count. */
  function PageEnd(w: Window, count: int, pageSize: int): int {
    Min(w.start + pageSize, count)
  }

  /** Filtering every index by visibility yields exactly the rows of the
      window, from its start to the page end or the last choice. */
  lemma {:induction false} PageRowsShowWindow<S>(row: int -> seq<S>, w: Window, count: int, pageSize: int, i: int)
    requires Inv(w, count, pageSize) && 0 <= i <= count
    ensures var top := PageEnd(w, count, pageSize);
      PageRows(row, w, count, pageSize, i) == Rows(row, Min(Max(i, w.start), top), top)
    decreases count - i
  {
    if i < count {
      PageRowsShowWindow(row, w, count, pageSize, i + 1);
    }
  }
}
