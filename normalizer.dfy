/**
 * The OCR result normaliser (`_parse_ocr_result` of the processor, and the
 * identical body of `ocr_single` in the command-line tool). It turns
 * whatever nested structure PaddleOCR returns into a list of detections
 * {box, text, score}, trying the known shapes in a fixed order:
 *   1. a layer found depth-first that holds rec_texts and rec_polys/dt_polys;
 *   2. legacy lines [box, (text, score)] inside one wrapper list;
 *   3. the same lines without the wrapper;
 *   4. a pair (boxes, recs) zipped to the shorter length;
 *   5. a scan of dicts with aliased keys.
 * The first shape that yields at least one detection wins. The pure
 * functions below specify each shape; ParseOcrResult is the imperative
 * procedure, proved equal to Normalize.
 */
module ResultNormalizer {
  import opened Wrappers
  import opened PyValue

  /** One detection: {"box": box, "text": text, "score": score}. */
  datatype Item = Item(box: Val, text: string, score: real)

  // ------------------------------------------------------- _find_inner_res

  /** The layer test: the dict has key rec_texts and key rec_polys or dt_polys. */
  predicate IsLayer(v: Val) {
    v.VDict? && HasKey(v.entries, "rec_texts")
    && (HasKey(v.entries, "rec_polys") || HasKey(v.entries, "dt_polys"))
  }

  /** The values the search descends into: a dict's values or a list's or tuple's elements, in order. */
  function Children(v: Val): (r: seq<Val>)
    ensures forall j :: 0 <= j < |r| ==> r[j] < v
  {
    match v
    case VDict(es) =>
      assert forall j :: 0 <= j < |es| ==> es[j].1 < v by {
        forall j | 0 <= j < |es| ensures es[j].1 < v {
          assert es[j] in es;
        }
      }
      Values(es)
    case VList(xs) => xs
    case VTuple(xs) => xs
    case _ => []
  }

  /** d["res"] when it is itself a layer (checked before d). */
  function ResChild(v: Val): Option<Val> {
    if v.VDict? && IsLayer(Get(v.entries, "res")) then Some(Get(v.entries, "res")) else None
  }

  /** The depth-first search for the first layer. */
  function FindInnerRes(d: Val): (r: Option<Val>)
    ensures r.Some? ==> IsLayer(r.value)
    decreases d, 1
  {
    if ResChild(d).Some? then ResChild(d)
    else if IsLayer(d) then Some(d)
    else FindInChildren(d, 0)
  }

  function FindInChildren(d: Val, i: nat): (r: Option<Val>)
    requires i <= |Children(d)|
    ensures r.Some? ==> IsLayer(r.value)
    decreases d, 0, |Children(d)| - i
  {
    if i == |Children(d)| then None
    else
      match FindInnerRes(Children(d)[i])
      case Some(v) => Some(v)
      case None => FindInChildren(d, i + 1)
  }

  /**
   * Every layer the search can see, in the order it looks at them: a
   * dict's qualifying res child, the dict itself, then everything under
   * its values (or a list's elements) in order.
   */
  function Layers(d: Val): seq<Val>
    decreases d, 1
  {
    (if ResChild(d).Some? then [ResChild(d).value] else [])
    + (if IsLayer(d) then [d] else [])
    + LayersFrom(d, 0)
  }

  function LayersFrom(d: Val, i: nat): seq<Val>
    requires i <= |Children(d)|
    decreases d, 0, |Children(d)| - i
  {
    if i == |Children(d)| then [] else Layers(Children(d)[i]) + LayersFrom(d, i + 1)
  }

  function Head(s: seq<Val>): Option<Val> {
    if s == [] then None else Some(s[0])
  }

  /** First match wins: the search returns the first layer of the depth-first order, and None exactly when there is none. */
  lemma {:induction false} FindInnerResIsFirstLayer(d: Val)
    ensures FindInnerRes(d) == Head(Layers(d))
    ensures FindInnerRes(d).None? <==> Layers(d) == []
    decreases d, 1
  {
    FindInChildrenIsFirstLayer(d, 0);
  }

  lemma {:induction false} FindInChildrenIsFirstLayer(d: Val, i: nat)
    requires i <= |Children(d)|
    ensures FindInChildren(d, i) == Head(LayersFrom(d, i))
    decreases d, 0, |Children(d)| - i
  {
    if i < |Children(d)| {
      FindInnerResIsFirstLayer(Children(d)[i]);
      FindInChildrenIsFirstLayer(d, i + 1);
    }
  }

  /** Everything Layers lists is a layer. */
  lemma {:induction false} LayersAreLayers(d: Val)
    ensures forall v :: v in Layers(d) ==> IsLayer(v)
    decreases d, 1
  {
    LayersFromAreLayers(d, 0);
  }

  lemma {:induction false} LayersFromAreLayers(d: Val, i: nat)
    requires i <= |Children(d)|
    ensures forall v :: v in LayersFrom(d, i) ==> IsLayer(v)
    decreases d, 0, |Children(d)| - i
  {
    if i < |Children(d)| {
      LayersAreLayers(Children(d)[i]);
      LayersFromAreLayers(d, i + 1);
    }
  }

  // ------------------------------------------------------------ layer path

  /** What the layer path reads: list(rec_texts or []), list(rec_scores or []) and rec_polys or dt_polys. */
  datatype Layer = Layer(texts: seq<Val>, scores: seq<Val>, polys: Val)

  function ReadLayer(es: seq<(string, Val)>): (r: Result<Layer, PyError>)
    ensures r.Ok? ==> r.value.polys == Or(Get(es, "rec_polys"), Get(es, "dt_polys"))
  {
    match ListOf(Or(Get(es, "rec_texts"), VList([])))
    case Err(e) => Err(e)
    case Ok(texts) =>
      match ListOf(Or(Get(es, "rec_scores"), VList([])))
      case Err(e) => Err(e)
      case Ok(scores) => Ok(Layer(texts, scores, Or(Get(es, "rec_polys"), Get(es, "dt_polys"))))
  }

  /** A list or tuple of four points, each a list or tuple of two elements (the coordinates are not inspected). */
  predicate IsQuad(b: Val) {
    IsSeq(b) && |b.elems| == 4 && forall p :: p in b.elems ==> IsSeq(p) && |p.elems| == 2
  }

  /** float(scores[i]) when there is such a score, else 0.0. */
  function ScoreAt(L: Layer, i: nat): Result<real, PyError> {
    if i < |L.scores| then ToFloat(L.scores[i]) else Ok(0.0)
  }

  /** The i-th poly when the layer has one there, read with len() and indexing, which may raise. */
  function PolyAt(L: Layer, i: nat): Result<Option<Val>, PyError> {
    if L.polys == VNone then Ok(None)
    else
      match Len(L.polys)
      case Err(e) => Err(e)
      case Ok(n) =>
        if i < n then
          match Index(L.polys, i)
          case Err(e) => Err(e)
          case Ok(b) => Ok(Some(b))
        else Ok(None)
  }

  /** One turn of the layer loop: the detection for index i, none, or the exception. */
  function LayerStep(L: Layer, i: nat): Result<Option<Item>, PyError>
    requires i < |L.texts|
  {
    match ScoreAt(L, i)
    case Err(e) => Err(e)
    case Ok(score) =>
      match PolyAt(L, i)
      case Err(e) => Err(e)
      case Ok(None) => Ok(None)
      case Ok(Some(b)) => if IsQuad(b) then Ok(Some(Item(b, StrOf(L.texts[i]), score))) else Ok(None)
  }

  /** The layer loop after k turns. */
  function LayerItemsUpTo(L: Layer, k: nat): Result<seq<Item>, PyError>
    requires k <= |L.texts|
  {
    if k == 0 then Ok([])
    else
      match LayerItemsUpTo(L, k - 1)
      case Err(e) => Err(e)
      case Ok(items) =>
        match LayerStep(L, k - 1)
        case Err(e) => Err(e)
        case Ok(None) => Ok(items)
        case Ok(Some(it)) => Ok(items + [it])
  }

  function LayerItems(es: seq<(string, Val)>): Result<seq<Item>, PyError> {
    match ReadLayer(es)
    case Err(e) => Err(e)
    case Ok(L) => LayerItemsUpTo(L, |L.texts|)
  }

  /** The indices below k whose poly is a four-point box: the ones the layer path keeps. */
  function KeptIndices(L: Layer, k: nat): (r: seq<nat>)
    requires k <= |L.texts|
    ensures forall m :: 0 <= m < |r| ==> r[m] < k
    ensures forall m, n :: 0 <= m < n < |r| ==> r[m] < r[n]
  {
    if k == 0 then []
    else
      var b := PolyAt(L, k - 1);
      KeptIndices(L, k - 1) + if b.Ok? && b.value.Some? && IsQuad(b.value.value) then [k - 1] else []
  }

  /** The detection index j yields, given that its score converts and it has a box. */
  function ItemAt(L: Layer, j: nat): Item
    requires j < |L.texts|
    requires ScoreAt(L, j).Ok? && PolyAt(L, j).Ok? && PolyAt(L, j).value.Some?
  {
    Item(PolyAt(L, j).value.value, StrOf(L.texts[j]), ScoreAt(L, j).value)
  }

  /** The layer path raises exactly when some turn raises: float() on a score, len() or indexing on the polys. */
  lemma {:induction false} LayerRaisesIff(L: Layer, k: nat)
    requires k <= |L.texts|
    ensures LayerItemsUpTo(L, k).Ok? <==> forall i :: 0 <= i < k ==> LayerStep(L, i).Ok?
  {
    if k > 0 {
      LayerRaisesIff(L, k - 1);
    }
  }

  /**
   * When it does not raise, the layer path yields, in rec_texts order, one
   * detection per index whose poly is a four-point box: text str(texts[i]),
   * score float(scores[i]) or 0.0 past the end of the scores, and that box.
   */
  lemma {:induction false} LayerItemsAreKept(L: Layer, k: nat)
    requires k <= |L.texts|
    requires LayerItemsUpTo(L, k).Ok?
    ensures var items := LayerItemsUpTo(L, k).value;
            && |items| == |KeptIndices(L, k)| <= k
            && forall m :: 0 <= m < |items| ==>
                 var j := KeptIndices(L, k)[m];
                 ScoreAt(L, j).Ok? && PolyAt(L, j).Ok? && PolyAt(L, j).value.Some? && items[m] == ItemAt(L, j)
  {
    if k > 0 {
      LayerItemsAreKept(L, k - 1);
      var prev := LayerItemsUpTo(L, k - 1).value;
      assert |KeptIndices(L, k - 1)| <= k - 1;
      var items := LayerItemsUpTo(L, k).value;
      assert forall m :: 0 <= m < |prev| ==> items[m] == prev[m];
    }
  }

  /** An index is kept exactly when its poly is a four-point box. */
  lemma {:induction false} KeptIndicesExact(L: Layer, k: nat, j: nat)
    requires k <= |L.texts|
    ensures j in KeptIndices(L, k) <==> j < k && PolyAt(L, j).Ok? && PolyAt(L, j).value.Some? && IsQuad(PolyAt(L, j).value.value)
  {
    if k > 0 {
      KeptIndicesExact(L, k - 1, j);
    }
  }

  // --------------------------------------------------------- legacy shapes

  /** _pt: a list or tuple of exactly two numbers. */
  predicate IsPoint(p: Val) {
    IsSeq(p) && |p.elems| == 2 && IsNum(p.elems[0]) && IsNum(p.elems[1])
  }

  /** _box: the value itself when it is a list or tuple of four points. */
  function BoxOf(b: Val): (r: Option<Val>)
    ensures r.Some? ==> r.value == b && IsQuad(b)
  {
    if IsSeq(b) && |b.elems| == 4 && forall p :: p in b.elems ==> IsPoint(p) then Some(b) else None
  }

  /** _ts: a list or tuple of at least two elements, a str and then a number. */
  predicate IsTextScore(v: Val) {
    IsSeq(v) && |v.elems| >= 2 && v.elems[0].VStr? && IsNum(v.elems[1])
  }

  /** The detection of a box and a (text, score); float() of a number never raises. */
  function Pair(b: Val, ts: Val): Option<Item> {
    if BoxOf(b).Some? && IsTextScore(ts) then Some(Item(b, ts.elems[0].s, NumValue(ts.elems[1]))) else None
  }

  /** One legacy line [box, (text, score), ...]. */
  function LineItem(line: Val): Option<Item> {
    if IsSeq(line) && |line.elems| >= 2 then Pair(line.elems[0], line.elems[1]) else None
  }

  function OptSeq(o: Option<Item>): seq<Item> {
    if o.Some? then [o.value] else []
  }

  /** The detections of a run of legacy lines, in order. */
  function LinesItems(lines: seq<Val>): (r: seq<Item>)
    ensures |r| <= |lines|
  {
    if lines == [] then [] else LinesItems(lines[..|lines| - 1]) + OptSeq(LineItem(lines[|lines| - 1]))
  }

  /** The zip of boxes and recs over the first k positions. */
  function PairItems(boxes: seq<Val>, recs: seq<Val>, k: nat): (r: seq<Item>)
    requires k <= |boxes| && k <= |recs|
    ensures |r| <= k
  {
    if k == 0 then [] else PairItems(boxes, recs, k - 1) + OptSeq(Pair(boxes[k - 1], recs[k - 1]))
  }

  /** The wrapped shape: res[0] is a non-empty list or tuple whose first element is a list or tuple. */
  predicate IsWrapped(res: Val) {
    IsSeq(res) && |res.elems| > 0 && IsSeq(res.elems[0]) && |res.elems[0].elems| > 0
    && IsSeq(res.elems[0].elems[0])
  }

  /** The pair shape: a list or tuple of exactly two lists or tuples. */
  predicate IsPairShape(res: Val) {
    IsSeq(res) && |res.elems| == 2 && IsSeq(res.elems[0]) && IsSeq(res.elems[1])
  }

  function WrappedItems(res: Val): seq<Item> {
    if IsWrapped(res) then LinesItems(res.elems[0].elems) else []
  }

  function UnwrappedItems(res: Val): seq<Item> {
    if IsSeq(res) && |res.elems| > 0 then LinesItems(res.elems) else []
  }

  function ZippedItems(res: Val): seq<Item> {
    if IsPairShape(res) then
      var boxes := res.elems[0].elems;
      var recs := res.elems[1].elems;
      PairItems(boxes, recs, if |boxes| <= |recs| then |boxes| else |recs|)
    else []
  }

  // ------------------------------------------------------------ dict scan

  function BoxAlias(es: seq<(string, Val)>): Val {
    Or(Or(Or(Or(Get(es, "box"), Get(es, "bbox")), Get(es, "points")), Get(es, "poly")), Get(es, "det"))
  }

  function TextAlias(es: seq<(string, Val)>): Val {
    Or(Or(Get(es, "text"), Get(es, "transcription")), Get(es, "label"))
  }

  function ScoreAlias(es: seq<(string, Val)>): Val {
    Or(Or(Get(es, "score"), Get(es, "confidence")), Get(es, "prob"))
  }

  /** One element of the dict scan: skipped, a detection, or float(score or 0.0) raising. */
  function DictEntry(d: Val): Result<Option<Item>, PyError> {
    if !d.VDict? then Ok(None)
    else
      var es := d.entries;
      var b := BoxOf(BoxAlias(es));
      var ts := Get(es, "rec");
      var useRec := Truthy(ts) && IsTextScore(ts);
      var text := if useRec then ts.elems[0] else TextAlias(es);
      var score := if useRec then ts.elems[1] else ScoreAlias(es);
      if b.Some? && text.VStr? then
        match ToFloat(Or(score, VFloat(0.0)))
        case Err(e) => Err(e)
        case Ok(f) => Ok(Some(Item(b.value, text.s, f)))
      else Ok(None)
  }

  /** The dict scan over a sequence, stopping at the first exception. */
  function DictItems(xs: seq<Val>): (r: Result<seq<Item>, PyError>)
    ensures r.Ok? ==> |r.value| <= |xs|
  {
    if xs == [] then Ok([])
    else
      match DictItems(xs[..|xs| - 1])
      case Err(e) => Err(e)
      case Ok(items) =>
        match DictEntry(xs[|xs| - 1])
        case Err(e) => Err(e)
        case Ok(o) => Ok(items + OptSeq(o))
  }

  /** The sequence the dict scan walks: res itself when a list or tuple, else [res]. */
  function DictScope(res: Val): seq<Val> {
    if IsSeq(res) then res.elems else [res]
  }

  // ------------------------------------------------------------- the whole

  /** The legacy list shapes, in the order they are tried: the first that yields detections. */
  function LegacyItems(res: Val): seq<Item> {
    if WrappedItems(res) != [] then WrappedItems(res)
    else if UnwrappedItems(res) != [] then UnwrappedItems(res)
    else ZippedItems(res)
  }

  /**
   * The normaliser: the first shape that applies and yields detections,
   * else []. It raises only on the layer path (list(), float(), len() or
   * indexing) or when float(score or 0.0) fails for a dict of the alias
   * scan; the legacy list shapes never raise.
   */
  function Normalize(res: Val): (r: Result<seq<Item>, PyError>)
    ensures r.Err? ==>
      (FindInnerRes(res).Some? ||
       exists j :: 0 <= j < |DictScope(res)| && DictScope(res)[j].VDict? && DictEntry(DictScope(res)[j]).Err?)
  {
    match FindInnerRes(res)
    case Some(layer) => LayerItems(layer.entries)
    case None =>
      if LegacyItems(res) != [] then Ok(LegacyItems(res))
      else
        var d := DictItems(DictScope(res));
        if d.Err? then
          DictRaisesOnlyAtEntry(DictScope(res));
          d
        else d
  }

  // ------------------------------------------------------------ properties

  /** Every legacy line detection has a box of four numeric points. */
  lemma {:induction false} LinesBoxes(lines: seq<Val>)
    ensures forall it :: it in LinesItems(lines) ==> BoxOf(it.box).Some?
  {
    if lines != [] {
      LinesBoxes(lines[..|lines| - 1]);
    }
  }

  lemma {:induction false} PairBoxes(boxes: seq<Val>, recs: seq<Val>, k: nat)
    requires k <= |boxes| && k <= |recs|
    ensures forall it :: it in PairItems(boxes, recs, k) ==> BoxOf(it.box).Some?
  {
    if k > 0 {
      PairBoxes(boxes, recs, k - 1);
    }
  }

  lemma {:induction false} DictBoxes(xs: seq<Val>)
    requires DictItems(xs).Ok?
    ensures forall it :: it in DictItems(xs).value ==> BoxOf(it.box).Some?
  {
    if xs != [] {
      DictBoxes(xs[..|xs| - 1]);
    }
  }

  lemma {:induction false} LayerBoxes(L: Layer, k: nat)
    requires k <= |L.texts| && LayerItemsUpTo(L, k).Ok?
    ensures forall it :: it in LayerItemsUpTo(L, k).value ==> IsQuad(it.box)
  {
    if k > 0 {
      LayerBoxes(L, k - 1);
    }
  }

  /**
   * Every detection the normaliser returns has a box of exactly four
   * points of two coordinates each; off the layer path the coordinates
   * are numbers as well.
   */
  lemma NormalizeBoxes(res: Val)
    requires Normalize(res).Ok?
    ensures forall it :: it in Normalize(res).value ==> IsQuad(it.box)
    ensures FindInnerRes(res).None? ==> forall it :: it in Normalize(res).value ==> BoxOf(it.box).Some?
  {
    match FindInnerRes(res)
    case Some(layer) =>
      var L := ReadLayer(layer.entries).value;
      LayerBoxes(L, |L.texts|);
    case None =>
      LegacyBoxes(res);
      if DictItems(DictScope(res)).Ok? { DictBoxes(DictScope(res)); }
  }

  lemma LegacyBoxes(res: Val)
    ensures forall it :: it in LegacyItems(res) ==> BoxOf(it.box).Some?
  {
    if IsWrapped(res) { LinesBoxes(res.elems[0].elems); }
    if IsSeq(res) && |res.elems| > 0 { LinesBoxes(res.elems); }
    if IsPairShape(res) {
      var boxes := res.elems[0].elems;
      var recs := res.elems[1].elems;
      PairBoxes(boxes, recs, if |boxes| <= |recs| then |boxes| else |recs|);
    }
  }

  lemma {:induction false} DictRaisesOnlyAtEntry(xs: seq<Val>)
    requires DictItems(xs).Err?
    ensures exists j :: 0 <= j < |xs| && xs[j].VDict? && DictEntry(xs[j]).Err?
  {
    var init := xs[..|xs| - 1];
    if DictItems(init).Err? {
      DictRaisesOnlyAtEntry(init);
      var j :| 0 <= j < |init| && init[j].VDict? && DictEntry(init[j]).Err?;
      assert xs[j] == init[j];
    } else {
      assert DictEntry(xs[|xs| - 1]).Err?;
    }
  }

  /** A bare scalar (None, a number, a str) normalises to no detections. */
  lemma NormalizeScalar(res: Val)
    requires !IsSeq(res) && !res.VDict?
    ensures Normalize(res) == Ok([])
  {
    assert FindInnerRes(res) == None;
    assert DictItems([res]) == Ok([]) by {
      assert [res][..0] == [];
    }
  }

  /** In the alias scan a truthy, well-formed rec pair supplies both text and score. */
  lemma DictRecOverrides(d: Val)
    requires d.VDict? && BoxOf(BoxAlias(d.entries)).Some?
    requires var ts := Get(d.entries, "rec"); Truthy(ts) && IsTextScore(ts)
    ensures var ts := Get(d.entries, "rec");
            DictEntry(d) == Ok(Some(Item(BoxAlias(d.entries), ts.elems[0].s, NumValue(ts.elems[1]))))
  {
    var ts := Get(d.entries, "rec");
    if !Truthy(ts.elems[1]) {
      assert NumValue(ts.elems[1]) == 0.0;
    }
  }

  /** In the alias scan a dict without any score key scores 0.0, and one whose text is not a str is skipped. */
  lemma DictDefaults(d: Val)
    requires d.VDict?
    requires !IsTextScore(Get(d.entries, "rec"))
    ensures !HasKey(d.entries, "score") && !HasKey(d.entries, "confidence") && !HasKey(d.entries, "prob")
            && BoxOf(BoxAlias(d.entries)).Some? && TextAlias(d.entries).VStr?
            ==> DictEntry(d) == Ok(Some(Item(BoxAlias(d.entries), TextAlias(d.entries).s, 0.0)))
    ensures !TextAlias(d.entries).VStr? ==> DictEntry(d) == Ok(None)
  {
    var es := d.entries;
    if !HasKey(es, "score") && !HasKey(es, "confidence") && !HasKey(es, "prob") {
      assert ScoreAlias(es) == VNone;
      assert ToFloat(Or(VNone, VFloat(0.0))) == Ok(0.0);
    }
  }

  function Square(a: int, b: int): Val {
    VList([VList([VInt(a), VInt(a)]), VList([VInt(b), VInt(a)]), VList([VInt(b), VInt(b)]), VList([VInt(a), VInt(b)])])
  }

  /** The layer of the example below: texts A and B, two square polys, scores 0.9 and 0.5. */
  function ExampleLayer(): seq<(string, Val)> {
    [("rec_texts", VList([VStr("A"), VStr("B")])), ("rec_polys", VList([Square(0, 1), Square(2, 3)])),
     ("rec_scores", VList([VFloat(0.9), VFloat(0.5)]))]
  }

  lemma ExampleLayerReads()
    ensures ReadLayer(ExampleLayer()) == Ok(Layer([VStr("A"), VStr("B")], [VFloat(0.9), VFloat(0.5)], VList([Square(0, 1), Square(2, 3)])))
  {
    var es := ExampleLayer();
    assert es[0].0 != "rec_polys" && es[0].0 != "rec_scores" by {
      assert es[0].0[4] == 't';
    }
    assert es[1].0 != "rec_scores" by {
      assert es[1].0[4] == 'p';
    }
    GetAt(es, "rec_texts", 0);
    GetAt(es, "rec_polys", 1);
    GetAt(es, "rec_scores", 2);
    ListsMakeLayer(es, [VStr("A"), VStr("B")], [VFloat(0.9), VFloat(0.5)]);
  }

  /** Get finds the first entry under the key. */
  lemma {:induction false} GetAt(es: seq<(string, Val)>, k: string, j: nat)
    requires j < |es| && es[j].0 == k && forall i :: 0 <= i < j ==> es[i].0 != k
    ensures Get(es, k) == es[j].1
    decreases j
  {
    if j > 0 {
      GetAt(es[1..], k, j - 1);
    }
  }

  /** Non-empty text and score lists are taken as they are. */
  lemma ListsMakeLayer(es: seq<(string, Val)>, texts: seq<Val>, scores: seq<Val>)
    requires Get(es, "rec_texts") == VList(texts) && texts != []
    requires Get(es, "rec_scores") == VList(scores) && scores != []
    ensures ReadLayer(es) == Ok(Layer(texts, scores, Or(Get(es, "rec_polys"), Get(es, "dt_polys"))))
  {
  }

  lemma SquareIsQuad(a: int, b: int)
    ensures IsQuad(Square(a, b))
  {
    var q := Square(a, b);
    forall p | p in q.elems ensures IsSeq(p) && |p.elems| == 2 {
      assert p == q.elems[0] || p == q.elems[1] || p == q.elems[2] || p == q.elems[3];
    }
  }

  lemma ExampleLayerItems()
    ensures var L := Layer([VStr("A"), VStr("B")], [VFloat(0.9), VFloat(0.5)], VList([Square(0, 1), Square(2, 3)]));
            LayerItemsUpTo(L, 2) == Ok([Item(Square(0, 1), "A", 0.9), Item(Square(2, 3), "B", 0.5)])
  {
    var L := Layer([VStr("A"), VStr("B")], [VFloat(0.9), VFloat(0.5)], VList([Square(0, 1), Square(2, 3)]));
    SquareIsQuad(0, 1);
    SquareIsQuad(2, 3);
    assert PolyAt(L, 0) == Ok(Some(Square(0, 1)));
    assert PolyAt(L, 1) == Ok(Some(Square(2, 3)));
    assert LayerStep(L, 0) == Ok(Some(Item(Square(0, 1), "A", 0.9)));
    assert LayerStep(L, 1) == Ok(Some(Item(Square(2, 3), "B", 0.5)));
    assert LayerItemsUpTo(L, 0) == Ok([]);
    assert [] + [Item(Square(0, 1), "A", 0.9)] == [Item(Square(0, 1), "A", 0.9)];
    assert LayerItemsUpTo(L, 1) == Ok([Item(Square(0, 1), "A", 0.9)]);
    assert [Item(Square(0, 1), "A", 0.9)] + [Item(Square(2, 3), "B", 0.5)]
        == [Item(Square(0, 1), "A", 0.9), Item(Square(2, 3), "B", 0.5)];
  }

  /** A PaddleOCR 3.x result {"res": layer} yields the two detections of the layer, in order. */
  lemma NormalizeExample()
    ensures Normalize(VDict([("res", VDict(ExampleLayer()))]))
            == Ok([Item(Square(0, 1), "A", 0.9), Item(Square(2, 3), "B", 0.5)])
  {
    var es := ExampleLayer();
    var top := VDict([("res", VDict(es))]);
    assert HasKey(es, "rec_texts") by { assert es[0].0 == "rec_texts"; }
    assert HasKey(es, "rec_polys") by { assert es[1].0 == "rec_polys"; }
    assert ResChild(top) == Some(VDict(es));
    assert FindInnerRes(top) == Some(VDict(es));
    ExampleLayerReads();
    ExampleLayerItems();
  }

  // ------------------------------------------------- the imperative procedure

  /** The layer loop of `_parse_ocr_result`. */
  method CollectLayer(es: seq<(string, Val)>) returns (r: Result<seq<Item>, PyError>)
    ensures r == LayerItems(es)
  {
    var layer := ReadLayer(es);
    if layer.Err? {
      return Err(layer.error);
    }
    var L := layer.value;
    var items: seq<Item> := [];
    var i := 0;
    while i < |L.texts|
      invariant 0 <= i <= |L.texts|
      invariant LayerItemsUpTo(L, i) == Ok(items)
    {
      var text := StrOf(L.texts[i]);
      var score := ScoreAt(L, i);
      if score.Err? {
        LayerFailsAt(L, i, score.error);
        return Err(score.error);
      }
      var poly := PolyAt(L, i);
      if poly.Err? {
        LayerFailsAt(L, i, poly.error);
        return Err(poly.error);
      }
      var kept := if poly.value.Some? && IsQuad(poly.value.value) then [Item(poly.value.value, text, score.value)] else [];
      LayerAdvances(L, i, items, kept);
      items := items + kept;
      i := i + 1;
    }
    return Ok(items);
  }

  /** A turn of the layer loop that raises decides the outcome of the whole loop. */
  lemma LayerFailsAt(L: Layer, i: nat, e: PyError)
    requires i < |L.texts| && LayerItemsUpTo(L, i).Ok?
    requires ScoreAt(L, i) == Err(e) || (ScoreAt(L, i).Ok? && PolyAt(L, i) == Err(e))
    ensures LayerItemsUpTo(L, |L.texts|) == Err(e)
  {
    assert LayerStep(L, i) == Err(e);
    LayerErrorSticks(L, i + 1, |L.texts|);
  }

  /** A turn of the layer loop that does not raise appends the detection it finds, if any. */
  lemma LayerAdvances(L: Layer, i: nat, items: seq<Item>, kept: seq<Item>)
    requires i < |L.texts| && LayerItemsUpTo(L, i) == Ok(items)
    requires ScoreAt(L, i).Ok? && PolyAt(L, i).Ok?
    requires var poly := PolyAt(L, i).value;
      kept == if poly.Some? && IsQuad(poly.value) then [Item(poly.value, StrOf(L.texts[i]), ScoreAt(L, i).value)] else []
    ensures LayerItemsUpTo(L, i + 1) == Ok(items + kept)
  {
    if kept == [] {
      assert LayerStep(L, i) == Ok(None);
      assert items + kept == items;
    } else {
      assert LayerStep(L, i) == Ok(Some(kept[0]));
    }
  }

  /** Once a turn of the layer loop raises, the loop's outcome is that exception. */
  lemma {:induction false} LayerErrorSticks(L: Layer, k: nat, n: nat)
    requires 0 < k <= n <= |L.texts|
    requires LayerItemsUpTo(L, k).Err?
    ensures LayerItemsUpTo(L, n) == LayerItemsUpTo(L, k)
    decreases n - k
  {
    if k < n {
      LayerErrorSticks(L, k, n - 1);
    }
  }

  /** The legacy-line loop (used for the wrapped and the unwrapped shape). */
  method CollectLines(lines: seq<Val>) returns (items: seq<Item>)
    ensures items == LinesItems(lines)
  {
    items := [];
    var i := 0;
    while i < |lines|
      invariant 0 <= i <= |lines|
      invariant items == LinesItems(lines[..i])
    {
      var line := lines[i];
      assert lines[..i + 1][..i] == lines[..i];
      if IsSeq(line) && |line.elems| >= 2 {
        var b := BoxOf(line.elems[0]);
        var ts := line.elems[1];
        if b.Some? && IsTextScore(ts) {
          items := items + [Item(b.value, ts.elems[0].s, NumValue(ts.elems[1]))];
        }
      }
      i := i + 1;
    }
    assert lines[..i] == lines;
  }

  /** The (boxes, recs) loop over the shorter length. */
  method CollectPairs(boxes: seq<Val>, recs: seq<Val>) returns (items: seq<Item>)
    ensures items == PairItems(boxes, recs, if |boxes| <= |recs| then |boxes| else |recs|)
  {
    var n := if |boxes| <= |recs| then |boxes| else |recs|;
    items := [];
    var i := 0;
    while i < n
      invariant 0 <= i <= n
      invariant items == PairItems(boxes, recs, i)
    {
      var b := BoxOf(boxes[i]);
      var ts := recs[i];
      if b.Some? && IsTextScore(ts) {
        items := items + [Item(b.value, ts.elems[0].s, NumValue(ts.elems[1]))];
      }
      i := i + 1;
    }
  }

  /** The dict-alias loop; returns the exception float() raised, if any. */
  method CollectDicts(xs: seq<Val>) returns (r: Result<seq<Item>, PyError>)
    ensures r == DictItems(xs)
  {
    var items: seq<Item> := [];
    var i := 0;
    while i < |xs|
      invariant 0 <= i <= |xs|
      invariant DictItems(xs[..i]) == Ok(items)
    {
      assert xs[..i + 1][..i] == xs[..i];
      var e := DictEntry(xs[i]);
      assert DictItems(xs[..i + 1]) == if e.Err? then Err(e.error) else Ok(items + OptSeq(e.value));
      if e.Err? {
        DictErrorSticks(xs, i + 1);
        return Err(e.error);
      }
      items := items + OptSeq(e.value);
      i := i + 1;
    }
    assert xs[..i] == xs;
    return Ok(items);
  }

  lemma {:induction false} DictErrorSticks(xs: seq<Val>, k: nat)
    requires 0 < k <= |xs|
    requires DictItems(xs[..k]).Err?
    ensures DictItems(xs) == DictItems(xs[..k])
    decreases |xs| - k
  {
    if k < |xs| {
      assert xs[..k + 1][..k] == xs[..k];
      DictErrorSticks(xs, k + 1);
    } else {
      assert xs[..k] == xs;
    }
  }

  /** `_parse_ocr_result`: the shapes in order, each accepted only when it yields a detection. */
  method ParseOcrResult(res: Val) returns (r: Result<seq<Item>, PyError>)
    ensures r == Normalize(res)
  {
    var inner := FindInnerRes(res);
    if inner.Some? {
      r := CollectLayer(inner.value.entries);
      return;
    }
    var legacy := CollectLegacy(res);
    if legacy != [] {
      return Ok(legacy);
    }
    var scope := if IsSeq(res) then res.elems else [res];
    r := CollectDicts(scope);
  }

  /** The three legacy list shapes of `_parse_ocr_result`, tried in order. */
  method CollectLegacy(res: Val) returns (items: seq<Item>)
    ensures items == LegacyItems(res)
  {
    items := CollectWrapped(res);
    if items != [] {
      return;
    }
    if IsSeq(res) && |res.elems| > 0 {
      items := CollectLines(res.elems);
      if items != [] {
        return;
      }
    }
    if IsSeq(res) && |res.elems| == 2 && IsSeq(res.elems[0]) && IsSeq(res.elems[1]) {
      items := CollectPairs(res.elems[0].elems, res.elems[1].elems);
    } else {
      items := [];
    }
  }

  /** The first legacy shape: the lines inside a non-empty first element that is itself a list of lists. */
  method CollectWrapped(res: Val) returns (items: seq<Item>)
    ensures items == WrappedItems(res)
  {
    if IsSeq(res) && |res.elems| > 0 {
      var first := res.elems[0];
      if IsSeq(first) && Truthy(first) && IsSeq(first.elems[0]) {
        items := CollectLines(first.elems);
        return;
      }
    }
    items := [];
  }
}
