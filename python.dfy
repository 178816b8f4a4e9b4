/**
 * Python's view of the JSON scalars a flat payload carries after `json.loads`,
 * and the few built-in operations the validators apply to them: truthiness,
 * `isinstance(_, int)`, `==`, `in` on a list, `dict.get`, `dict.pop`, `< 0`,
 * `float.is_integer`, `str.isdigit` and the regex word boundary `\b`.
 * Characters are ASCII: Unicode digits and word characters are not modelled.
 */
module Python {

  datatype Option<+T> = None | Some(value: T)

  /** A JSON scalar: int, float, str, bool or null (Python None). */
  datatype Value = Int(i: int) | Float(r: real) | Str(s: string) | Bool(b: bool) | Null

  /** `bool(v)`: `not v` holds exactly for 0, 0.0, "", False and None. */
  predicate Truthy(v: Value) {
    match v
    case Int(i) => i != 0
    case Float(r) => r != 0.0
    case Str(s) => s != ""
    case Bool(b) => b
    case Null => false
  }

  /** `isinstance(v, int)`: bool is a subclass of int. */
  predicate IsInt(v: Value) {
    v.Int? || v.Bool?
  }

  /** The integer an `int` instance stands for (True is 1, False is 0). */
  function AsInt(v: Value): (n: Option<int>)
    ensures n.Some? <==> IsInt(v)
  {
    match v
    case Int(i) => Some(i)
    case Bool(b) => Some(if b then 1 else 0)
    case _ => None
  }

  /** The number an int, bool or float stands for; None for str and None. */
  function AsNumber(v: Value): Option<real> {
    match v
    case Int(i) => Some(i as real)
    case Bool(b) => Some(if b then 1.0 else 0.0)
    case Float(r) => Some(r)
    case _ => None
  }

  /** Python `a == b` on scalars: numbers compare by value across int, bool and float. */
  predicate Equal(a: Value, b: Value) {
    if AsNumber(a).Some? || AsNumber(b).Some? then AsNumber(a) == AsNumber(b) else a == b
  }

  /** `v in xs` for a Python list: some element compares equal to v. */
  predicate Contains(xs: seq<Value>, v: Value) {
    exists i :: 0 <= i < |xs| && Equal(v, xs[i])
  }

  /** A list of Python strings. */
  function Strs(xs: seq<string>): (r: seq<Value>)
    ensures |r| == |xs| && forall i :: 0 <= i < |xs| ==> r[i] == Str(xs[i])
  {
    seq(|xs|, i requires 0 <= i < |xs| => Str(xs[i]))
  }

  /** On a list of strings, `in` holds exactly for a str equal to one of them. */
  lemma ContainsStrs(xs: seq<string>, v: Value)
    ensures Contains(Strs(xs), v) <==> v.Str? && v.s in xs
  {
    if v.Str? && v.s in xs {
      var i :| 0 <= i < |xs| && xs[i] == v.s;
      assert Equal(v, Strs(xs)[i]);
    }
  }

  /** `d.get(k)`: the value at k, or None when k is absent. */
  function Get(d: map<string, Value>, k: string): (v: Value)
    ensures k !in d ==> v == Null
    ensures k in d ==> v == d[k]
  {
    if k in d then d[k] else Null
  }

  /** `v < n`, or None where Python raises TypeError (a str or None against an int). */
  function LessThan(v: Value, n: int): (r: Option<bool>)
    ensures r.None? <==> v.Str? || v.Null?
    ensures IsInt(v) ==> r == Some(AsInt(v).value < n)
    ensures v.Float? ==> r == Some(v.r < n as real)
  {
    match AsNumber(v)
    case Some(x) => Some(x < n as real)
    case None => None
  }

  /** `float.is_integer()`. */
  predicate IsIntegral(r: real) {
    r == r.Floor as real
  }

  /** `\d` and the characters `str.isdigit` accepts. */
  predicate IsDigit(c: char) {
    '0' <= c <= '9'
  }

  /** `s.isdigit()`: non-empty and all digits. */
  predicate IsDigits(s: string) {
    |s| > 0 && forall i :: 0 <= i < |s| ==> IsDigit(s[i])
  }

  /** `\w`. */
  predicate IsWordChar(c: char) {
    IsDigit(c) || 'a' <= c <= 'z' || 'A' <= c <= 'Z' || c == '_'
  }

  /** Regex `\b` at position i: a word character on exactly one side. */
  predicate WordBoundary(s: string, i: nat)
    requires i <= |s|
  {
    (i > 0 && IsWordChar(s[i - 1])) != (i < |s| && IsWordChar(s[i]))
  }

  /** The members of a Python list, for `x in xs` tests. */
  function SetOf(xs: seq<string>): (r: set<string>)
    ensures forall x :: x in r <==> x in xs
  {
    set x | x in xs
  }

  predicate Distinct<T(==)>(xs: seq<T>) {
    forall i, j :: 0 <= i < j < |xs| ==> xs[i] != xs[j]
  }

  /** The iteration order of a dict's keys after `pop(k)`. */
  function Without(xs: seq<string>, k: string): (r: seq<string>)
    ensures forall x :: x in r <==> x in xs && x != k
    ensures k !in xs ==> r == xs
    ensures Distinct(xs) ==> Distinct(r)
  {
    if xs == [] then []
    else if xs[0] == k then Without(xs[1..], k)
    else
      var rest := Without(xs[1..], k);
      assert Distinct(xs) ==> Distinct(xs[1..]) && xs[0] !in xs[1..];
      assert Distinct(xs) ==> forall j :: 0 <= j < |rest| ==> ([xs[0]] + rest)[j + 1] == rest[j] != xs[0];
      [xs[0]] + rest
  }

  /** `pop` keeps the other keys in their insertion order. */
  lemma {:induction false} WithoutKeepsOrder(xs: seq<string>, k: string, p: nat)
    requires Distinct(xs) && p < |xs| && xs[p] == k
    ensures Without(xs, k) == xs[..p] + xs[p + 1..]
  {
    if p == 0 {
      assert k !in xs[1..];
    } else {
      assert xs[1..][p - 1] == k;
      WithoutKeepsOrder(xs[1..], k, p - 1);
      assert xs[..p] == [xs[0]] + xs[1..][..p - 1];
      assert xs[p + 1..] == xs[1..][p..];
    }
  }
}
