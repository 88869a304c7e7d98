/**
 * Decoded YAML and JSON documents, decoded HTTP responses, and the Python
 * operations the conformance checks apply to them.
 *
 * Every operation that Python can make raise (KeyError, IndexError,
 * TypeError, AttributeError) yields `None` here. A check whose evaluation
 * raises fails exactly as an assertion failure does, so each check is a
 * boolean verdict: "the test body runs to the end without raising".
 */
module Values {

  import Text

  datatype Option<+T> = None | Some(value: T) {
    predicate IsFailure() { None? }

    function PropagateFailure<U>(): Option<U>
      requires None?
    {
      None
    }

    function Extract(): T
      requires Some?
    {
      value
    }
  }

  /**
   * A node of a decoded document. `Bool` is kept apart from `Int` because the
   * checks use `is True` / `is False`, which an integer never satisfies.
   * Mapping keys are strings, as in every document the checks read.
   */
  datatype Value =
    | Null
    | Bool(b: bool)
    | Int(i: int)
    | Str(s: string)
    | List(items: seq<Value>)
    | Map(fields: map<string, Value>)

  /** What a `requests.get` call returned: status code, body text, and `.json()` (None when the body is not JSON). */
  datatype Response = Response(status: int, text: string, json: Option<Value>)

  /**
   * What a `requests.get` call gave: an exception (refused connection,
   * timeout), which the caller does not catch, or a response.
   */
  datatype Fetch = TransportFailure | Answer(resp: Response)

  /** `v[key]` for a string key: only a mapping that holds the key answers. */
  function Item(v: Value, key: string): Option<Value>
  {
    match v
    case Map(m) => if key in m then Some(m[key]) else None
    case _ => None
  }

  /** `v[k0][k1]...`, raising at the first step that raises. */
  function Lookup(v: Value, path: seq<string>): Option<Value>
    decreases |path|
  {
    if |path| == 0 then Some(v)
    else
      var child :- Item(v, path[0]);
      Lookup(child, path[1..])
  }

  /** `v[a][b]` answers exactly when `v` is a mapping holding `a`, whose value is a mapping holding `b`. */
  lemma LookupPair(v: Value, a: string, b: string)
    ensures Lookup(v, [a, b]).Some? <==>
              v.Map? && a in v.fields && v.fields[a].Map? && b in v.fields[a].fields
    ensures Lookup(v, [a, b]).Some? ==> Lookup(v, [a, b]).value == v.fields[a].fields[b]
  {
    assert [a, b][1..] == [b];
    assert [b][1..] == [];
    match Item(v, a)
    case None =>
    case Some(child) =>
      assert Lookup(v, [a, b]) == Lookup(child, [b]);
      assert Lookup(child, [b]) == match Item(child, b) case None => None case Some(w) => Lookup(w, []);
  }

  /** `v.get(key, default)`: only a mapping has `.get`. */
  function GetOr(v: Value, key: string, default: Value): Option<Value>
  {
    match v
    case Map(m) => Some(if key in m then m[key] else default)
    case _ => None
  }

  /** `v.get(key)`, whose default is Python's None. */
  function Get(v: Value, key: string): Option<Value>
  {
    GetOr(v, key, Null)
  }

  /** `v[i]` for an integer index, counting from the end when `i` is negative. */
  function At(v: Value, i: int): Option<Value>
  {
    match v
    case List(xs) =>
      if -|xs| <= i < |xs| then Some(xs[if i < 0 then i + |xs| else i]) else None
    case Str(s) =>
      if -|s| <= i < |s| then Some(Str([s[if i < 0 then i + |s| else i]])) else None
    // A mapping raises KeyError (its keys are strings); a scalar is not subscriptable.
    case _ => None
  }

  /** `len(v)`. */
  function Len(v: Value): Option<nat>
  {
    match v
    case List(xs) => Some(|xs|)
    case Str(s) => Some(|s|)
    case Map(m) => Some(|m|)
    case _ => None
  }

  /** Python truthiness, as `if v:` decides it. */
  predicate Truthy(v: Value)
  {
    match v
    case Null => false
    case Bool(b) => b
    case Int(i) => i != 0
    case Str(s) => s != ""
    case List(xs) => xs != []
    case Map(m) => m != map[]
  }

  /** `v == n` for an integer literal `n`: Python's bool compares equal to 0 and 1. */
  predicate EqualsInt(v: Value, n: int)
  {
    match v
    case Int(i) => i == n
    case Bool(b) => (if b then 1 else 0) == n
    case _ => false
  }

  /**
   * `item in container` for a string `item`: element equality in a list,
   * substring in a string, key membership in a mapping; other values raise.
   */
  function HasMember(container: Value, item: string): Option<bool>
  {
    match container
    case List(xs) => Some(Str(item) in xs)
    case Str(s) => Some(Text.Contains(s, item))
    case Map(m) => Some(item in m)
    case _ => None
  }

  /** The one-character strings of `s`, in order. */
  function Characters(s: string): (r: seq<Value>)
    ensures |r| == |s|
    ensures forall i :: 0 <= i < |s| ==> r[i] == Str([s[i]])
    decreases |s|
  {
    if |s| == 0 then [] else [Str([s[0]])] + Characters(s[1..])
  }

  /**
   * The elements a `for` loop over `v` visits. A string yields its characters.
   * A mapping yields its keys, which are strings; every loop of the checks
   * subscripts its element or calls `.get` on it, which raises for a string,
   * so a non-empty mapping is reported as raising at once.
   */
  function Elements(v: Value): Option<seq<Value>>
  {
    match v
    case List(xs) => Some(xs)
    case Str(s) => Some(Characters(s))
    case Map(m) => if m == map[] then Some([]) else None
    case _ => None
  }

  /** How a first-match loop with `break` ends. */
  datatype Search = Found(index: nat) | Missing | Raised

  /** Every one of the first `n` elements was tested and did not match. */
  predicate Skipped(xs: seq<Value>, test: Value -> Option<bool>, n: nat)
    requires n <= |xs|
  {
    forall j :: 0 <= j < n ==> test(xs[j]) == Some(false)
  }

  /**
   * A `for x in xs: if test(x): found = x; break` loop. It stops at the first
   * element whose test holds; a test that raises ends the loop with the
   * exception; elements after the stopping point are never looked at.
   */
  function FindFirst(xs: seq<Value>, test: Value -> Option<bool>): (r: Search)
    ensures r.Found? ==> r.index < |xs| && test(xs[r.index]) == Some(true) && Skipped(xs, test, r.index)
    ensures forall i :: 0 <= i < |xs| && test(xs[i]) == Some(true) && Skipped(xs, test, i) ==> r == Found(i)
    ensures r.Missing? <==> Skipped(xs, test, |xs|)
    ensures r.Raised? <==> exists i :: 0 <= i < |xs| && test(xs[i]).None? && Skipped(xs, test, i)
    decreases |xs|
  {
    if |xs| == 0 then Missing
    else
      match test(xs[0])
      case None => Raised
      case Some(true) => Found(0)
      case Some(false) =>
        var rest := FindFirst(xs[1..], test);
        assert forall j :: 1 <= j <= |xs| ==> (Skipped(xs, test, j) <==> Skipped(xs[1..], test, j - 1));
        match rest
        case Found(k) => Found(k + 1)
        case Missing => Missing
        case Raised => Raised
  }

  /** Once the loop has stopped inside `xs`, appending more elements changes nothing. */
  lemma FindFirstIgnoresSuffix(xs: seq<Value>, ys: seq<Value>, test: Value -> Option<bool>)
    requires !FindFirst(xs, test).Missing?
    ensures FindFirst(xs + ys, test) == FindFirst(xs, test)
  {
    var zs := xs + ys;
    assert forall k :: 0 <= k < |xs| ==> zs[k] == xs[k];
    assert forall j :: 0 <= j <= |xs| ==> (Skipped(xs, test, j) <==> Skipped(zs, test, j));
    match FindFirst(xs, test)
    case Found(i) =>
      assert zs[i] == xs[i];
    case Raised =>
      var i :| 0 <= i < |xs| && test(xs[i]).None? && Skipped(xs, test, i);
      assert zs[i] == xs[i];
  }
}
