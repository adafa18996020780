/**
 * Python values as the OCR engines hand them back (None, bool, int,
 * float, str, list, tuple, dict), and the Python built-ins the core
 * applies to them: truthiness, `or`, dict.get, len(), indexing, list(),
 * float() and str(). Operations that Python may refuse return a Result
 * carrying the exception class.
 */
module PyValue {
  import opened Wrappers
  import PyText

  /**
   * A Python value. Floats are exact reals (no inf or nan). A dict is its
   * entries in insertion order; its keys are strings and distinct, so
   * lookups take the first entry with the key.
   */
  datatype Val =
    | VNone
    | VBool(b: bool)
    | VInt(i: int)
    | VFloat(f: real)
    | VStr(s: string)
    | VList(elems: seq<Val>)
    | VTuple(elems: seq<Val>)
    | VDict(entries: seq<(string, Val)>)

  /** The exception classes the modelled code can raise or catch. */
  datatype PyError = TypeError | ValueError | IndexError | KeyError | Raised(msg: string)

  /** bool(v) */
  predicate Truthy(v: Val) {
    match v
    case VNone => false
    case VBool(b) => b
    case VInt(i) => i != 0
    case VFloat(f) => f != 0.0
    case VStr(s) => |s| > 0
    case VList(xs) => |xs| > 0
    case VTuple(xs) => |xs| > 0
    case VDict(es) => |es| > 0
  }

  /** `a or b`: the first operand when it is truthy, otherwise the second. */
  function Or(a: Val, b: Val): (r: Val)
    ensures Truthy(r) <==> Truthy(a) || Truthy(b)
    ensures Truthy(a) ==> r == a
  {
    if Truthy(a) then a else b
  }

  /** isinstance(v, (list, tuple)) */
  predicate IsSeq(v: Val) {
    v.VList? || v.VTuple?
  }

  /** isinstance(v, (int, float)); bool is a subclass of int in Python. */
  predicate IsNum(v: Val) {
    v.VBool? || v.VInt? || v.VFloat?
  }

  function NumValue(v: Val): real
    requires IsNum(v)
  {
    match v
    case VBool(b) => if b then 1.0 else 0.0
    case VInt(i) => i as real
    case VFloat(f) => f
  }

  /** `k in d` for a dict's entries. */
  predicate HasKey(es: seq<(string, Val)>, k: string) {
    exists j :: 0 <= j < |es| && es[j].0 == k
  }

  /** d.get(k): the value under k, or None when k is absent. */
  function Get(es: seq<(string, Val)>, k: string): (r: Val)
    ensures !HasKey(es, k) ==> r == VNone
    ensures HasKey(es, k) ==> exists j :: 0 <= j < |es| && es[j].0 == k && r == es[j].1
  {
    if |es| == 0 then VNone
    else if es[0].0 == k then es[0].1
    else
      var r := Get(es[1..], k);
      assert HasKey(es, k) ==> HasKey(es[1..], k) by {
        if HasKey(es, k) {
          var j :| 0 <= j < |es| && es[j].0 == k;
          assert es[1..][j - 1].0 == k;
        }
      }
      r
  }

  /** The dict's values in insertion order (d.values()). */
  function Values(es: seq<(string, Val)>): (r: seq<Val>)
    ensures |r| == |es| && forall j :: 0 <= j < |es| ==> r[j] == es[j].1
  {
    seq(|es|, j requires 0 <= j < |es| => es[j].1)
  }

  /** len(v) */
  function Len(v: Val): (r: Result<nat, PyError>)
    ensures r.Ok? <==> v.VStr? || IsSeq(v) || v.VDict?
  {
    match v
    case VStr(s) => Ok(|s|)
    case VList(xs) => Ok(|xs|)
    case VTuple(xs) => Ok(|xs|)
    case VDict(es) => Ok(|es|)
    case _ => Err(TypeError)
  }

  /** v[i] for a non-negative int index. Dict keys are strings, so an int key is never found. */
  function Index(v: Val, i: nat): (r: Result<Val, PyError>)
    ensures IsSeq(v) && i < |v.elems| ==> r == Ok(v.elems[i])
    ensures r.Ok? ==> Len(v).Ok? && i < Len(v).value
  {
    match v
    case VStr(s) => if i < |s| then Ok(VStr([s[i]])) else Err(IndexError)
    case VList(xs) => if i < |xs| then Ok(xs[i]) else Err(IndexError)
    case VTuple(xs) => if i < |xs| then Ok(xs[i]) else Err(IndexError)
    case VDict(_) => Err(KeyError)
    case _ => Err(TypeError)
  }

  /** list(v): the items of an iterable; a str gives its characters and a dict its keys. */
  function ListOf(v: Val): (r: Result<seq<Val>, PyError>)
    ensures r.Ok? <==> Len(v).Ok?
    ensures r.Ok? ==> |r.value| == Len(v).value
    ensures IsSeq(v) ==> r == Ok(v.elems)
  {
    match v
    case VStr(s) => Ok(seq(|s|, j requires 0 <= j < |s| => VStr([s[j]])))
    case VList(xs) => Ok(xs)
    case VTuple(xs) => Ok(xs)
    case VDict(es) => Ok(seq(|es|, j requires 0 <= j < |es| => VStr(es[j].0)))
    case _ => Err(TypeError)
  }

  /** float(v): numbers convert, a str is parsed (ValueError when it does not parse), anything else is a TypeError. */
  function ToFloat(v: Val): (r: Result<real, PyError>)
    ensures IsNum(v) ==> r == Ok(NumValue(v))
    ensures !IsNum(v) && !v.VStr? ==> r == Err(TypeError)
  {
    match v
    case VBool(_) => Ok(NumValue(v))
    case VInt(_) => Ok(NumValue(v))
    case VFloat(_) => Ok(NumValue(v))
    case VStr(s) =>
      (match PyText.ParseFloat(s)
       case Some(x) => Ok(x)
       case None => Err(ValueError))
    case _ => Err(TypeError)
  }

  /**
   * str(v). Exact for str, None, bool and int; a float, list, tuple or
   * dict is rendered by a fixed stand-in, since its Python text is not
   * modelled.
   */
  function StrOf(v: Val): (r: string)
    ensures v.VStr? ==> r == v.s
    ensures v.VInt? ==> r == PyText.IntToString(v.i)
  {
    match v
    case VNone => "None"
    case VBool(b) => if b then "True" else "False"
    case VInt(i) => PyText.IntToString(i)
    case VFloat(_) => "<float>"
    case VStr(s) => s
    case VList(_) => "<list>"
    case VTuple(_) => "<tuple>"
    case VDict(_) => "<dict>"
  }
}
