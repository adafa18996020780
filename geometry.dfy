/**
 * Canvas padding and coordinate remapping (`_make_padded_tmp` and
 * `_shift_items_to_original`, identical in the processor, the engine
 * wrapper and the command-line tool). Before OCR an image of w x h is
 * pasted at (px, py) on a canvas of (w + 2px) x (h + 2py); afterwards
 * every box point is moved back by (-px, -py) and, when the original size
 * is known, clamped into [0, w-1] x [0, h-1]. Pixels are exact integers
 * and the ratio an exact real.
 */
module Geometry {
  import opened Wrappers
  import opened PyValue
  import opened ResultNormalizer
  import opened PyText

  // --------------------------------------------------------------- padding

  /** What `_make_padded_tmp` hands back: whether a padded copy was made, the offsets and the original size. */
  datatype Padding = Padding(padded: bool, px: int, py: int, w: nat, h: nat)

  function PadAmount(side: nat, ratio: real): int {
    var n := RoundHalfEven(side as real * ratio);
    if n < 1 then 1 else n
  }

  /**
   * The padding plan: a ratio <= 0 means no copy and zero offsets;
   * otherwise each offset is at least 1 and is the side times the ratio
   * rounded, unless that rounds below 1.
   */
  function PadPlan(w: nat, h: nat, ratio: real): (p: Padding)
    ensures p.w == w && p.h == h
    ensures ratio <= 0.0 ==> !p.padded && p.px == 0 && p.py == 0
    ensures ratio > 0.0 ==> p.padded && p.px >= 1 && p.py >= 1
    ensures ratio > 0.0 ==> w as real * ratio - 0.5 <= p.px as real && (p.px == 1 || p.px as real <= w as real * ratio + 0.5)
    ensures ratio > 0.0 ==> h as real * ratio - 0.5 <= p.py as real && (p.py == 1 || p.py as real <= h as real * ratio + 0.5)
  {
    if ratio <= 0.0 then Padding(false, 0, 0, w, h)
    else Padding(true, PadAmount(w, ratio), PadAmount(h, ratio), w, h)
  }

  /** The padded canvas size. */
  function CanvasSize(p: Padding): (int, int) {
    (p.w + 2 * p.px, p.h + 2 * p.py)
  }

  /** Where a pixel of the original lands on the canvas. */
  function Pasted(p: Padding, x: int, y: int): (int, int) {
    (x + p.px, y + p.py)
  }

  /** Every original pixel lands on the canvas, at least px (py) from each edge. */
  lemma PastedOnCanvas(w: nat, h: nat, ratio: real, x: int, y: int)
    requires 0 <= x < w && 0 <= y < h
    ensures var p := PadPlan(w, h, ratio);
            var (cx, cy) := Pasted(p, x, y);
            var (cw, ch) := CanvasSize(p);
            p.px <= cx < cw - p.px && p.py <= cy < ch - p.py
  {
  }

  // ----------------------------------------------------------- remapping

  /** p[k] - d in Python: numbers subtract (a bool counts as 0 or 1), anything else is a TypeError. */
  function Sub(v: Val, d: int): (r: Result<Val, PyError>)
    ensures r.Ok? <==> IsNum(v)
    ensures r.Ok? ==> (r.value.VInt? || r.value.VFloat?) && NumValue(r.value) == NumValue(v) - d as real
  {
    match v
    case VBool(b) => Ok(VInt((if b then 1 else 0) - d))
    case VInt(i) => Ok(VInt(i - d))
    case VFloat(f) => Ok(VFloat(f - d as real))
    case _ => Err(TypeError)
  }

  /** [p[0] - dx, p[1] - dy] */
  function ShiftPoint(p: Val, dx: int, dy: int): (r: Result<Val, PyError>)
    ensures r.Ok? ==> r.value.VList? && |r.value.elems| == 2 && IsNum(r.value.elems[0]) && IsNum(r.value.elems[1])
  {
    match Index(p, 0)
    case Err(e) => Err(e)
    case Ok(a) =>
      match Sub(a, dx)
      case Err(e) => Err(e)
      case Ok(x) =>
        match Index(p, 1)
        case Err(e) => Err(e)
        case Ok(b) =>
          match Sub(b, dy)
          case Err(e) => Err(e)
          case Ok(y) => Ok(VList([x, y]))
  }

  /** max(0, min(hi, v)): min keeps its first argument unless the second is smaller, max likewise unless larger. */
  function Clamp(v: Val, hi: int): (r: Val)
    requires IsNum(v)
    ensures IsNum(r)
    ensures hi >= 0 ==> 0.0 <= NumValue(r) <= hi as real
    ensures 0.0 <= NumValue(v) <= hi as real ==> NumValue(r) == NumValue(v)
  {
    var m := if NumValue(v) < hi as real then v else VInt(hi);
    if NumValue(m) > 0.0 then m else VInt(0)
  }

  /** The list comprehension over the box's points. */
  function ShiftPoints(pts: seq<Val>, dx: int, dy: int): (r: Result<seq<Val>, PyError>)
    ensures r.Ok? ==> |r.value| == |pts|
    ensures r.Ok? ==> forall k :: 0 <= k < |pts| ==> ShiftPoint(pts[k], dx, dy) == Ok(r.value[k])
  {
    if pts == [] then Ok([])
    else
      match ShiftPoints(pts[..|pts| - 1], dx, dy)
      case Err(e) => Err(e)
      case Ok(qs) =>
        match ShiftPoint(pts[|pts| - 1], dx, dy)
        case Err(e) => Err(e)
        case Ok(q) => Ok(qs + [q])
  }

  predicate IsNumPair(q: Val) {
    q.VList? && |q.elems| == 2 && IsNum(q.elems[0]) && IsNum(q.elems[1])
  }

  function ClampPoint(q: Val, W: int, H: int): Val
    requires IsNumPair(q)
  {
    VList([Clamp(q.elems[0], W - 1), Clamp(q.elems[1], H - 1)])
  }

  /** The new box of one detection: moved back, then clamped when the original size is given. */
  function ShiftedBox(box: Val, dx: int, dy: int, wh: Option<(int, int)>): (r: Result<Val, PyError>)
    ensures r.Ok? ==> r.value.VList? && forall q :: q in r.value.elems ==> IsNumPair(q)
  {
    match ListOf(box)
    case Err(e) => Err(e)
    case Ok(pts) =>
      match ShiftPoints(pts, dx, dy)
      case Err(e) => Err(e)
      case Ok(qs) =>
        assert forall k :: 0 <= k < |qs| ==> IsNumPair(qs[k]);
        match wh
        case None => Ok(VList(qs))
        case Some((W, H)) => Ok(VList(seq(|qs|, k requires 0 <= k < |qs| => ClampPoint(qs[k], W, H))))
  }

  /** `_shift_items_to_original` after k detections: {**it, "box": new box}, or the exception. */
  function ShiftItems(items: seq<Item>, dx: int, dy: int, wh: Option<(int, int)>): Result<seq<Item>, PyError> {
    if items == [] then Ok([])
    else
      match ShiftItems(items[..|items| - 1], dx, dy, wh)
      case Err(e) => Err(e)
      case Ok(done) =>
        var it := items[|items| - 1];
        match ShiftedBox(it.box, dx, dy, wh)
        case Err(e) => Err(e)
        case Ok(b) => Ok(done + [it.(box := b)])
  }

  /** The imperative remapping loop. */
  method ShiftItemsToOriginal(items: seq<Item>, dx: int, dy: int, wh: Option<(int, int)>)
    returns (r: Result<seq<Item>, PyError>)
    ensures r == ShiftItems(items, dx, dy, wh)
  {
    var shifted: seq<Item> := [];
    var i := 0;
    while i < |items|
      invariant 0 <= i <= |items|
      invariant ShiftItems(items[..i], dx, dy, wh) == Ok(shifted)
    {
      assert items[..i + 1][..i] == items[..i];
      var it := items[i];
      var b := ShiftedBox(it.box, dx, dy, wh);
      if b.Err? {
        ShiftErrorSticks(items, dx, dy, wh, i + 1);
        return Err(b.error);
      }
      shifted := shifted + [it.(box := b.value)];
      i := i + 1;
    }
    assert items[..i] == items;
    return Ok(shifted);
  }

  lemma {:induction false} ShiftErrorSticks(items: seq<Item>, dx: int, dy: int, wh: Option<(int, int)>, k: nat)
    requires 0 < k <= |items|
    requires ShiftItems(items[..k], dx, dy, wh).Err?
    ensures ShiftItems(items, dx, dy, wh) == ShiftItems(items[..k], dx, dy, wh)
    decreases |items| - k
  {
    if k < |items| {
      assert items[..k + 1][..k] == items[..k];
      ShiftErrorSticks(items, dx, dy, wh, k + 1);
    } else {
      assert items[..k] == items;
    }
  }

  /** Remapping keeps the number, the order, the text and the score of the detections; only boxes change. */
  lemma {:induction false} ShiftKeepsDetections(items: seq<Item>, dx: int, dy: int, wh: Option<(int, int)>)
    requires ShiftItems(items, dx, dy, wh).Ok?
    ensures var out := ShiftItems(items, dx, dy, wh).value;
            && |out| == |items|
            && forall k :: 0 <= k < |items| ==>
                 out[k].text == items[k].text && out[k].score == items[k].score
                 && ShiftedBox(items[k].box, dx, dy, wh) == Ok(out[k].box)
  {
    if items != [] {
      ShiftKeepsDetections(items[..|items| - 1], dx, dy, wh);
    }
  }

  /** With the original size given, every remapped coordinate lies in [0, W-1] x [0, H-1]. */
  lemma ShiftedBoxInBounds(box: Val, dx: int, dy: int, W: int, H: int)
    requires W >= 1 && H >= 1
    requires ShiftedBox(box, dx, dy, Some((W, H))).Ok?
    ensures forall q :: q in ShiftedBox(box, dx, dy, Some((W, H))).value.elems ==>
              0.0 <= NumValue(q.elems[0]) <= (W - 1) as real && 0.0 <= NumValue(q.elems[1]) <= (H - 1) as real
  {
  }

  /** Without the original size, remapping is a pure translation by (-dx, -dy). */
  lemma ShiftedBoxTranslates(box: Val, dx: int, dy: int)
    requires IsSeq(box) && ShiftedBox(box, dx, dy, None).Ok?
    ensures var out := ShiftedBox(box, dx, dy, None).value.elems;
            && |out| == |box.elems|
            && forall k :: 0 <= k < |out| ==>
                 NumValue(out[k].elems[0]) == NumValue(box.elems[k].elems[0]) - dx as real
                 && NumValue(out[k].elems[1]) == NumValue(box.elems[k].elems[1]) - dy as real
  {
    var qs := ShiftPoints(box.elems, dx, dy).value;
    forall k | 0 <= k < |qs|
      ensures NumValue(qs[k].elems[0]) == NumValue(box.elems[k].elems[0]) - dx as real
      ensures NumValue(qs[k].elems[1]) == NumValue(box.elems[k].elems[1]) - dy as real
    {
      assert ShiftPoint(box.elems[k], dx, dy) == Ok(qs[k]);
    }
  }

  /** An integer point as the OCR engine reports it: [x, y]. */
  function IntPoint(x: int, y: int): Val {
    VList([VInt(x), VInt(y)])
  }

  /** Moving [x + px, y + py] back by (px, py) gives [x, y]. */
  lemma ShiftIntPoint(x: int, y: int, px: int, py: int)
    ensures ShiftPoint(IntPoint(x + px, y + py), px, py) == Ok(IntPoint(x, y))
  {
  }

  /** Pad, then remap: a point inside the original comes back to itself, exactly, and clamping leaves it alone. */
  lemma RoundTripPoint(x: int, y: int, px: int, py: int, W: int, H: int)
    requires 0 <= x < W && 0 <= y < H
    ensures ShiftPoint(IntPoint(x + px, y + py), px, py) == Ok(IntPoint(x, y))
    ensures ClampPoint(IntPoint(x, y), W, H) == IntPoint(x, y)
  {
    ShiftIntPoint(x, y, px, py);
  }

  /** The corners of a box as points offset by (px, py). */
  function OffsetCorners(corners: seq<(int, int)>, px: int, py: int): (r: seq<Val>)
    ensures |r| == |corners|
    ensures forall k :: 0 <= k < |r| ==> r[k] == IntPoint(corners[k].0 + px, corners[k].1 + py)
  {
    if corners == [] then []
    else OffsetCorners(corners[..|corners| - 1], px, py) + [IntPoint(corners[|corners| - 1].0 + px, corners[|corners| - 1].1 + py)]
  }

  /**
   * Pad, then remap, is the identity on boxes inside the original image:
   * each corner (x, y) reported on the canvas as (x + px, y + py) is
   * mapped back to (x, y).
   */
  lemma RoundTripBox(corners: seq<(int, int)>, px: int, py: int, W: int, H: int)
    requires forall k :: 0 <= k < |corners| ==> 0 <= corners[k].0 < W && 0 <= corners[k].1 < H
    ensures ShiftedBox(VList(OffsetCorners(corners, px, py)), px, py, Some((W, H))) == Ok(VList(OffsetCorners(corners, 0, 0)))
  {
    var pts := OffsetCorners(corners, px, py);
    var back := OffsetCorners(corners, 0, 0);
    ShiftPointsBack(corners, px, py);
    assert ListOf(VList(pts)) == Ok(pts);
    forall k | 0 <= k < |corners| ensures IsNumPair(back[k]) && ClampPoint(back[k], W, H) == back[k] {
      RoundTripPoint(corners[k].0, corners[k].1, px, py, W, H);
    }
    var clamped := seq(|back|, k requires 0 <= k < |back| => ClampPoint(back[k], W, H));
    assert clamped == back;
  }

  lemma {:induction false} ShiftPointsBack(corners: seq<(int, int)>, px: int, py: int)
    ensures ShiftPoints(OffsetCorners(corners, px, py), px, py) == Ok(OffsetCorners(corners, 0, 0))
  {
    if corners != [] {
      var init := corners[..|corners| - 1];
      ShiftPointsBack(init, px, py);
      var pts := OffsetCorners(corners, px, py);
      assert pts[..|pts| - 1] == OffsetCorners(init, px, py);
      var last := corners[|corners| - 1];
      ShiftIntPoint(last.0, last.1, px, py);
      assert OffsetCorners(corners, 0, 0) == OffsetCorners(init, 0, 0) + [IntPoint(last.0, last.1)];
    }
  }

  // ------------------------------------------------------- temporary space

  /** A temporary directory count: each padded copy acquires one, and every exit path releases it. */
  class TempSpace {
    var live: nat

    constructor ()
      ensures live == 0
    {
      live := 0;
    }

    method Acquire()
      modifies this
      ensures live == old(live) + 1
    {
      live := live + 1;
    }

    method Cleanup()
      requires live > 0
      modifies this
      ensures live == old(live) - 1
    {
      live := live - 1;
    }
  }
}
