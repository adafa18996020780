/**
 * The search tab's pager and thumbnail grid. The database is an input:
 * `rows` is the ordered list of processed images that match the current
 * keyword and emotion, and a page of size n is the slice the paged query
 * returns from it. The canvas width, the thumbnail slider and the
 * "go to page" entry are inputs too.
 */
module SearchTab {
  import opened Wrappers
  import opened PyText

  /** The page sizes the read-only selector offers. */
  const PageSizes: set<nat> := {10, 20, 50, 100}
  const ThumbPadding: int := 20
  const MinCanvasWidth: int := 20 * 10
  const CaptionLimit: nat := 40

  /** One matching image as the paged query returns it. */
  datatype Record = Record(
    filePath: Option<string>,
    text: Option<string>,
    emotion: Option<string>,
    opens: bool)  // the file exists and PIL can open and shrink it

  /** One grid cell: its place, whether a thumbnail was made, and its labels. */
  datatype Cell = Cell(row: nat, col: nat, thumb: bool, caption: string, emotion: string, path: string)

  /** Python's // : the floor of the quotient, whatever the signs. */
  function FloorDiv(a: int, b: int): (q: int)
    requires b != 0
    ensures b > 0 ==> q * b <= a < q * b + b
    ensures b < 0 ==> q * b >= a > q * b + b
  {
    if b > 0 then a / b else (-a) / (-b)
  }

  /** max(1, (total + size - 1) // size): the number of pages, never below one. */
  function TotalPages(total: nat, size: nat): (r: nat)
    requires size > 0
    ensures r >= 1
    ensures total == 0 ==> r == 1
    ensures total > 0 ==> (r - 1) * size < total <= r * size
  {
    var q := FloorDiv(total + size - 1, size);
    if q < 1 then 1 else q
  }

  /** The rows of page p: the slice the LIMIT/OFFSET query returns. */
  function PageSlice(rows: seq<Record>, page: nat, size: nat): (r: seq<Record>)
    requires page >= 1
  {
    var lo := if (page - 1) * size <= |rows| then (page - 1) * size else |rows|;
    var hi := if page * size <= |rows| then page * size else |rows|;
    rows[lo..hi]
  }

  /** Pages 1 to n laid end to end. */
  function PagesUpTo(rows: seq<Record>, size: nat, n: nat): seq<Record> {
    if n == 0 then [] else PagesUpTo(rows, size, n - 1) + PageSlice(rows, n, size)
  }

  /** The pages, read in order, give every matching image once and in order. */
  lemma {:induction false} PagesCoverRows(rows: seq<Record>, size: nat)
    requires size > 0
    ensures PagesUpTo(rows, size, TotalPages(|rows|, size)) == rows
  {
    var t := TotalPages(|rows|, size);
    PagesPrefix(rows, size, t);
    if |rows| > 0 {
      assert t * size >= |rows|;
    } else {
      assert 1 * size >= 0;
    }
  }

  lemma {:induction false} PagesPrefix(rows: seq<Record>, size: nat, n: nat)
    ensures PagesUpTo(rows, size, n) == rows[..if n * size <= |rows| then n * size else |rows|]
  {
    if n > 0 {
      PagesPrefix(rows, size, n - 1);
      assert (n - 1) * size + size == n * size;
    }
  }

  /** Every page from 1 to the last holds at least one row when anything matches, and at most a page's worth. */
  lemma PageBounds(rows: seq<Record>, page: nat, size: nat)
    requires size > 0 && 1 <= page <= TotalPages(|rows|, size)
    ensures |PageSlice(rows, page, size)| <= size
    ensures |rows| > 0 ==> |PageSlice(rows, page, size)| > 0
  {
    var t := TotalPages(|rows|, size);
    if |rows| > 0 {
      assert (page - 1) * size <= (t - 1) * size;
    }
  }

  /**
   * The number of columns: as many cells of thumbnail plus padding as fit
   * in the canvas (at least 200 wide), never fewer than one; a zero cell
   * width raises, and the except branch falls back to four.
   */
  function Columns(canvasWidth: int, thumbSide: int): (r: int)
    ensures r >= 1
    ensures var w := if canvasWidth > MinCanvasWidth then canvasWidth else MinCanvasWidth;
      var cell := thumbSide + ThumbPadding;
      0 < cell <= w ==> r * cell <= w < (r + 1) * cell
    ensures thumbSide + ThumbPadding == 0 ==> r == 4
  {
    var w := if canvasWidth > MinCanvasWidth then canvasWidth else MinCanvasWidth;
    var cell := thumbSide + ThumbPadding;
    if cell == 0 then 4
    else
      var q := FloorDiv(w, cell);
      if q < 1 then 1 else q
  }

  /** The caption: at most 40 characters and an ellipsis, or 无文本 when there is no text. */
  function Caption(text: Option<string>): (r: string)
    ensures text.None? || text.value == [] ==> r == "(无文本)"
    ensures text.Some? && |text.value| > CaptionLimit ==>
      |r| == CaptionLimit + 3 && r[..CaptionLimit] == text.value[..CaptionLimit]
    ensures text.Some? && 0 < |text.value| <= CaptionLimit ==> r == text.value
  {
    match text
    case Some(t) =>
      if |t| > CaptionLimit then t[..CaptionLimit] + "..."
      else if t != [] then t
      else "(无文本)"
    case None => "(无文本)"
  }

  function PathOf(rec: Record): string {
    match rec.filePath
    case Some(p) => p
    case None => []
  }

  /** What the loop draws for one record at (row, col). */
  function CellFor(rec: Record, row: nat, col: nat): Cell {
    var path := PathOf(rec);
    var emotion := if rec.emotion.Some? && rec.emotion.value != [] then rec.emotion.value else "未分类";
    Cell(row, col, path != [] && rec.opens, Caption(rec.text), emotion, path)
  }

  /** The k-th record goes to row k div cols and column k mod cols. */
  function GridCells(results: seq<Record>, cols: nat): (cells: seq<Cell>)
    requires cols >= 1
    ensures |cells| == |results|
  {
    seq(|results|, k requires 0 <= k < |results| => CellFor(results[k], k / cols, k % cols))
  }

  /**
   * The grid fills rows left to right, each row holding exactly `cols`
   * cells except perhaps the last, and no two cells share a place.
   */
  lemma GridPlacesDistinct(results: seq<Record>, cols: nat)
    requires cols >= 1
    ensures forall k :: 0 <= k < |results| ==> GridCells(results, cols)[k].col < cols
    ensures forall i, j :: 0 <= i < j < |results| ==>
      (GridCells(results, cols)[i].row, GridCells(results, cols)[i].col) !=
      (GridCells(results, cols)[j].row, GridCells(results, cols)[j].col)
  {
  }

  class SearchTab {
    var page: int
    var pageSize: nat
    var totalPages: int
    var thumbSide: int
    var cols: int
    var cells: seq<Cell>
    var loads: nat

    /** The page number and the page count are at least one, and the page size is one the selector offers. */
    predicate Valid()
      reads this
    {
      && 1 <= page <= totalPages
      && pageSize in PageSizes
      && cols >= 1
    }

    /**
     * What a load leaves on screen: the page count for the matching rows,
     * the columns the canvas allows, and the current page's records laid
     * out in that many columns.
     */
    predicate Shows(rows: seq<Record>, canvasWidth: int)
      reads this
    {
      && page >= 1 && pageSize > 0
      && totalPages == TotalPages(|rows|, pageSize)
      && cols == Columns(canvasWidth, thumbSide)
      && cells == GridCells(PageSlice(rows, page, pageSize), cols)
    }

    constructor (rows: seq<Record>, canvasWidth: int)
      ensures Valid()
      ensures pageSize == 20 && thumbSide == 120 && loads == 1
      ensures page == 1 && totalPages == TotalPages(|rows|, 20)
      ensures cells == GridCells(PageSlice(rows, 1, 20), cols)
    {
      page := 1;
      pageSize := 20;
      totalPages := 1;
      thumbSide := 120;
      cols := 4;
      cells := [];
      loads := 0;
      new;
      LoadPage(rows, canvasWidth);
    }

    /**
     * `load_page`: the page count is recomputed, and a page beyond the
     * last is pulled back to the last, rewriting the stored number only
     * then; the columns follow the canvas, and the page's records are
     * laid out row by row. The page number is raised to at least one
     * first, which changes nothing here because every writer of it keeps
     * it positive.
     */
    method LoadPage(rows: seq<Record>, canvasWidth: int)
      requires page >= 1 && pageSize in PageSizes
      modifies this
      ensures Valid()
      ensures totalPages == TotalPages(|rows|, pageSize)
      ensures page == (if old(page) > totalPages then totalPages else old(page))
      ensures cols == Columns(canvasWidth, thumbSide)
      ensures cells == GridCells(PageSlice(rows, page, pageSize), cols)
      ensures pageSize == old(pageSize) && thumbSide == old(thumbSide) && loads == old(loads) + 1
    {
      var p := page;
      totalPages := TotalPages(|rows|, pageSize);
      if p > totalPages {
        p := totalPages;
        page := p;
      }
      var results := PageSlice(rows, p, pageSize);
      cols := Columns(canvasWidth, thumbSide);
      cells := LayOut(results, cols);
      loads := loads + 1;
    }

    /** `prev_page`: one page back, but not before the first; reloads only when the page moved. */
    method PrevPage(rows: seq<Record>, canvasWidth: int)
      requires Valid()
      modifies this
      ensures Valid()
      ensures old(page) == 1 ==> unchanged(this)
      ensures old(page) > 1 ==>
        (loads == old(loads) + 1 && Shows(rows, canvasWidth) &&
         pageSize == old(pageSize) && thumbSide == old(thumbSide) &&
         page == (if old(page) - 1 > totalPages then totalPages else old(page) - 1))
    {
      var p := if page - 1 < 1 then 1 else page - 1;
      if p != page {
        page := p;
        LoadPage(rows, canvasWidth);
      }
    }

    /** `next_page`: one page on, but not past the last; reloads only when the page moved. */
    method NextPage(rows: seq<Record>, canvasWidth: int)
      requires Valid()
      modifies this
      ensures Valid()
      ensures old(page) == old(totalPages) ==> unchanged(this)
      ensures old(page) < old(totalPages) ==>
        (loads == old(loads) + 1 && Shows(rows, canvasWidth) &&
         pageSize == old(pageSize) && thumbSide == old(thumbSide) &&
         page == (if old(page) + 1 > totalPages then totalPages else old(page) + 1))
    {
      var p := if totalPages < page + 1 then totalPages else page + 1;
      if p != page {
        page := p;
        LoadPage(rows, canvasWidth);
      }
    }

    /**
     * `goto_page`: the entry's number (None when it does not read as one,
     * which counts as page 1) is clamped to the known pages, then the page
     * is loaded.
     */
    method GotoPage(entry: Option<int>, rows: seq<Record>, canvasWidth: int)
      requires Valid()
      modifies this
      ensures Valid()
      ensures var want := if entry.Some? then entry.value else 1;
        var clamped := if want < 1 then 1 else if want > old(totalPages) then old(totalPages) else want;
        page == (if clamped > totalPages then totalPages else clamped)
      ensures Shows(rows, canvasWidth)
      ensures pageSize == old(pageSize) && thumbSide == old(thumbSide) && loads == old(loads) + 1
    {
      var p := if entry.Some? then entry.value else 1;
      p := if p > totalPages then totalPages else p;
      p := if p < 1 then 1 else p;
      page := p;
      LoadPage(rows, canvasWidth);
    }

    /** `search_images`: back to page 1, then load. */
    method SearchImages(rows: seq<Record>, canvasWidth: int)
      requires Valid()
      modifies this
      ensures Valid() && page == 1 && loads == old(loads) + 1
      ensures Shows(rows, canvasWidth)
      ensures pageSize == old(pageSize) && thumbSide == old(thumbSide)
    {
      page := 1;
      LoadPage(rows, canvasWidth);
    }

    /** Choosing another page size reloads the current page under it. */
    method ChangePageSize(size: nat, rows: seq<Record>, canvasWidth: int)
      requires Valid() && size in PageSizes
      modifies this
      ensures Valid() && pageSize == size && loads == old(loads) + 1
      ensures page == (if old(page) > totalPages then totalPages else old(page))
      ensures Shows(rows, canvasWidth) && thumbSide == old(thumbSide)
    {
      pageSize := size;
      LoadPage(rows, canvasWidth);
    }

    /** The slider: int(float(value)) becomes the thumbnail side; a value that does not convert is ignored. */
    method ThumbChange(value: string)
      modifies this
      ensures thumbSide == (match ParseFloat(value) case Some(x) => TruncToInt(x) case None => old(thumbSide))
      ensures page == old(page) && totalPages == old(totalPages) && pageSize == old(pageSize)
      ensures cols == old(cols) && cells == old(cells) && loads == old(loads)
    {
      match ParseFloat(value)
      case Some(x) => thumbSide := TruncToInt(x);
      case None =>
    }
  }

  /**
   * The drawing loop: the row and column counters start at zero; after
   * each cell the column moves on and wraps to the next row once it
   * reaches `cols`.
   */
  method LayOut(results: seq<Record>, cols: int) returns (cells: seq<Cell>)
    requires cols >= 1
    ensures cells == GridCells(results, cols)
  {
    cells := [];
    var r: nat := 0;
    var c: nat := 0;
    var i := 0;
    while i < |results|
      invariant 0 <= i <= |results|
      invariant r == i / cols && c == i % cols
      invariant cells == GridCells(results[..i], cols)
    {
      cells := cells + [CellFor(results[i], r, c)];
      assert cells == GridCells(results[..i + 1], cols);
      c := c + 1;
      if c >= cols {
        c := 0;
        r := r + 1;
      }
      DivModStep(i, cols);
      i := i + 1;
    }
    assert results[..i] == results;
  }

  lemma DivModStep(i: nat, cols: int)
    requires cols >= 1
    ensures i % cols + 1 < cols ==> (i + 1) / cols == i / cols && (i + 1) % cols == i % cols + 1
    ensures i % cols + 1 >= cols ==> (i + 1) / cols == i / cols + 1 && (i + 1) % cols == 0
  {
    var q := i / cols;
    var m := i % cols;
    if m + 1 < cols {
      DivUnique(i + 1, cols, q, m + 1);
    } else {
      assert (q + 1) * cols == q * cols + cols;
      DivUnique(i + 1, cols, q + 1, 0);
    }
  }

  /** Quotient and remainder are the only pair that rebuilds n with a remainder below d. */
  lemma DivUnique(n: int, d: int, q: int, m: int)
    requires d >= 1 && 0 <= m < d && n == q * d + m
    ensures n / d == q && n % d == m
  {
    var r0 := n / d;
    var k := q - r0;
    assert k * d == q * d - r0 * d;
    assert k * d == n % d - m;
    if k >= 1 {
      assert false;
    } else if k <= -1 {
      assert false;
    }
  }
}
