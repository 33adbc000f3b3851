/** Python's dynamic values as they flow between the evaluation chains:
    JSON-shaped data, dictionaries that keep insertion order, truthiness,
    `float(x)` and `str(x)`. */
module Values {
  import opened Wrappers
  import opened Text

  datatype Value =
    | VNone
    | VBool(b: bool)
    | VNum(n: real)
    | VStr(s: string)
    | VList(items: seq<Value>)
    | VMap(entries: seq<(string, Value)>)

  /** A Python `dict`: key/value pairs in insertion order. */
  type Dict = seq<(string, Value)>

  function Keys(d: Dict): (r: seq<string>)
    ensures |r| == |d|
    ensures forall i :: 0 <= i < |d| ==> r[i] == d[i].0
  {
    if |d| == 0 then [] else [d[0].0] + Keys(d[1..])
  }

  predicate HasKey(d: Dict, k: string) {
    k in Keys(d)
  }

  predicate UniqueKeys(d: Dict) {
    forall i, j :: 0 <= i < j < |d| ==> d[i].0 != d[j].0
  }

  /** `d.get(k)`, as an option. */
  function Get(d: Dict, k: string): (r: Option<Value>)
    ensures r.None? <==> !HasKey(d, k)
    ensures r.Some? ==> (k, r.value) in d
  {
    if |d| == 0 then None
    else if d[0].0 == k then Some(d[0].1)
    else Get(d[1..], k)
  }

  /** `d.get(k, default)` */
  function GetOr(d: Dict, k: string, default: Value): Value {
    Get(d, k).GetOr(default)
  }

  /** `d[k] = v`: an existing key keeps its position, a new key goes last. */
  function Put(d: Dict, k: string, v: Value): (r: Dict)
    ensures Get(r, k) == Some(v)
    ensures forall k' :: k' != k ==> Get(r, k') == Get(d, k')
  {
    if |d| == 0 then [(k, v)]
    else if d[0].0 == k then [(k, v)] + d[1..]
    else [d[0]] + Put(d[1..], k, v)
  }

  lemma {:induction false} PutKeys(d: Dict, k: string, v: Value)
    ensures HasKey(d, k) ==> Keys(Put(d, k, v)) == Keys(d)
    ensures !HasKey(d, k) ==> Keys(Put(d, k, v)) == Keys(d) + [k]
  {
    if |d| > 0 && d[0].0 != k {
      PutKeys(d[1..], k, v);
      assert Put(d, k, v) == [d[0]] + Put(d[1..], k, v);
      assert ([d[0]] + Put(d[1..], k, v))[1..] == Put(d[1..], k, v);
    }
  }

  /** The entry at position `i` is what a lookup of its key finds, when no
      earlier entry has the same key. */
  lemma {:induction false} GetIndex(d: Dict, i: int)
    requires 0 <= i < |d|
    requires forall j :: 0 <= j < i ==> d[j].0 != d[i].0
    ensures Get(d, d[i].0) == Some(d[i].1)
  {
    if i > 0 {
      GetIndex(d[1..], i - 1);
    }
  }

  lemma {:induction false} GetMissing(d: Dict, k: string)
    requires forall j :: 0 <= j < |d| ==> d[j].0 != k
    ensures Get(d, k).None? && !HasKey(d, k)
  {
    if |d| > 0 {
      GetMissing(d[1..], k);
    }
  }

  /** Looking up in a dictionary extended by one new entry at the end. */
  lemma {:induction false} GetAppend(d: Dict, k: string, v: Value, x: string)
    ensures Get(d + [(k, v)], x) ==
      if HasKey(d, x) then Get(d, x) else if x == k then Some(v) else None
  {
    if |d| > 0 {
      assert (d + [(k, v)])[1..] == d[1..] + [(k, v)];
      GetAppend(d[1..], k, v, x);
    }
  }

  /** A lookup checks the first entry, then the rest. */
  lemma ConsGet(k: string, v: Value, rest: Dict, x: string)
    ensures Get([(k, v)] + rest, x) == if k == x then Some(v) else Get(rest, x)
  {
    assert ([(k, v)] + rest)[1..] == rest;
  }

  /** Looking up in two dictionaries laid end to end: the first one wins. */
  lemma {:induction false} GetConcat(a: Dict, b: Dict, x: string)
    ensures Get(a + b, x) == if HasKey(a, x) then Get(a, x) else Get(b, x)
  {
    if |a| == 0 {
      assert a + b == b;
    } else {
      assert (a + b)[1..] == a[1..] + b;
      assert Keys(a) == [a[0].0] + Keys(a[1..]);
      GetConcat(a[1..], b, x);
    }
  }

  /** A list of strings as a list value. */
  function AsStrings(xs: seq<string>): (r: seq<Value>)
    ensures |r| == |xs|
    ensures forall i :: 0 <= i < |r| ==> r[i] == VStr(xs[i])
  {
    seq(|xs|, i requires 0 <= i < |xs| => VStr(xs[i]))
  }

  /** Python truthiness: `None`, `False`, zero and empty containers are false. */
  predicate Truthy(v: Value) {
    match v
    case VNone => false
    case VBool(b) => b
    case VNum(n) => n != 0.0
    case VStr(s) => s != ""
    case VList(items) => |items| > 0
    case VMap(entries) => |entries| > 0
  }

  /** `str(v)`: exact for strings, `None` and booleans; other values are
      rendered by a fixed placeholder, since the system only ever shows them
      to the language model. */
  function Show(v: Value): (r: string)
    ensures v.VStr? ==> r == v.s
  {
    match v
    case VNone => "None"
    case VBool(b) => if b then "True" else "False"
    case VNum(_) => "<number>"
    case VStr(s) => s
    case VList(_) => "<list>"
    case VMap(_) => "<dict>"
  }

  /** The numeric value of a Python `int`, `float` or `bool`; `None` for
      anything that cannot be compared with or added to a number. */
  function AsNumber(v: Value): (r: Option<real>)
    ensures v.VNum? ==> r == Some(v.n)
    ensures r.Some? ==> v.VNum? || v.VBool?
  {
    match v
    case VNum(n) => Some(n)
    case VBool(b) => Some(if b then 1.0 else 0.0)
    case _ => None
  }

  /** Every dictionary inside `v` has distinct keys, as Python's do. */
  predicate WellFormed(v: Value) {
    match v
    case VList(items) => forall i :: 0 <= i < |items| ==> WellFormed(items[i])
    case VMap(entries) => UniqueKeys(entries) && forall i :: 0 <= i < |entries| ==> WellFormed(entries[i].1)
    case _ => true
  }

  predicate IsDigit(c: char) { '0' <= c <= '9' }

  /** Length of the run of decimal digits at the start of `s`. */
  function DigitRun(s: string): (r: nat)
    ensures r <= |s|
    ensures forall i :: 0 <= i < r ==> IsDigit(s[i])
    ensures r < |s| ==> !IsDigit(s[r])
  {
    if |s| > 0 && IsDigit(s[0]) then 1 + DigitRun(s[1..]) else 0
  }

  /** The number a string of decimal digits denotes. */
  function DigitsValue(d: string): nat
    requires forall i :: 0 <= i < |d| ==> IsDigit(d[i])
  {
    if |d| == 0 then 0
    else 10 * DigitsValue(d[..|d| - 1]) + DigitVal(d[|d| - 1])
  }

  function DigitVal(c: char): nat
    requires IsDigit(c)
  {
    c as int - '0' as int
  }

  function Pow10(n: nat): (r: nat)
    ensures r >= 1
  {
    if n == 0 then 1 else 10 * Pow10(n - 1)
  }

  /** An unsigned decimal: digits, optionally a '.' and more digits, with
      at least one digit in all ("7", "7.", ".5", "7.25"). */
  function ParseUnsigned(t: string): (r: Option<real>)
    ensures r.Some? ==> r.value >= 0.0
  {
    var i := DigitRun(t);
    var whole := DigitsValue(t[..i]) as real;
    if i == |t| then (if i > 0 then Some(whole) else None)
    else if t[i] != '.' then None
    else
      var frac := t[i + 1..];
      var j := DigitRun(frac);
      if j == |frac| && (i > 0 || j > 0)
      then Some(whole + DigitsValue(frac) as real / Pow10(j) as real)
      else None
  }

  /** `float(s)` for a string: surrounding whitespace, an optional sign and
      a plain decimal. */
  function ParseFloat(s: string): Option<real> {
    var t := Strip(s);
    if |t| > 0 && (t[0] == '-' || t[0] == '+') then
      match ParseUnsigned(t[1..])
      case Some(x) => Some(if t[0] == '-' then -x else x)
      case None => None
    else ParseUnsigned(t)
  }

  /** `float(v)`; `None` stands for the ValueError or TypeError it raises. */
  function ToFloat(v: Value): (r: Option<real>)
    ensures v.VNum? ==> r == Some(v.n)
    ensures v.VNone? || v.VList? || v.VMap? ==> r.None?
  {
    match v
    case VNum(n) => Some(n)
    case VBool(b) => Some(if b then 1.0 else 0.0)
    case VStr(s) => ParseFloat(s)
    case _ => None
  }

  lemma {:induction false} DigitsOfNat(n: nat)
    ensures DigitsValue(NatToString(n)) == n
  {
    var s := NatToString(n);
    if n >= 10 {
      DigitsOfNat(n / 10);
      assert s[..|s| - 1] == NatToString(n / 10);
    }
  }

  lemma {:induction false} DigitRunAll(s: string)
    requires forall i :: 0 <= i < |s| ==> IsDigit(s[i])
    ensures DigitRun(s) == |s|
  {
    if |s| > 0 {
      DigitRunAll(s[1..]);
    }
  }

  lemma StripNoEdgeSpace(s: string)
    requires |s| > 0 && !IsSpace(s[0]) && !IsSpace(s[|s| - 1])
    ensures Strip(s) == s
  {
    assert TrimStart(s) == s;
  }

  lemma ParseUnsignedDigits(s: string)
    requires |s| > 0 && forall i :: 0 <= i < |s| ==> IsDigit(s[i])
    ensures ParseUnsigned(s) == Some(DigitsValue(s) as real)
  {
    DigitRunAll(s);
    assert s[..|s|] == s;
  }

  /** `float(str(n)) == n` for every natural number. */
  lemma ParseFloatOfNat(n: nat)
    ensures ParseFloat(NatToString(n)) == Some(n as real)
  {
    var s := NatToString(n);
    StripNoEdgeSpace(s);
    ParseUnsignedDigits(s);
    DigitsOfNat(n);
  }
}
