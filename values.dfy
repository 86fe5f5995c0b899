/**
 * Python values as the library handles them: what a caller puts in a request
 * dictionary and what json.loads returns for a response body. A dict is an
 * ordered list of entries, because Python dicts keep insertion order and the
 * library's output (a payload, a query string) depends on it.
 */
module Values {
  import opened Wrappers

  datatype Value =
    | VNone
    | VBool(b: bool)
    | VInt(i: int)
    | VStr(s: string)
    | VList(items: seq<Value>)
    | VDict(entries: seq<(string, Value)>)

  type Entries = seq<(string, Value)>

  /** The keys of a dict (or of any list of key/value pairs), in insertion order. */
  function Keys<V>(es: seq<(string, V)>): (ks: seq<string>)
    ensures |ks| == |es|
    ensures forall i :: 0 <= i < |es| ==> ks[i] == es[i].0
  {
    seq(|es|, i requires 0 <= i < |es| => es[i].0)
  }

  /** A dict's keys are distinct, as they are for every Python dict. */
  predicate UniqueKeys<V>(es: seq<(string, V)>)
  {
    forall i, j :: 0 <= i < j < |es| ==> es[i].0 != es[j].0
  }

  /** d.get(key): the value stored under key, if any. */
  function Find(es: Entries, key: string): (r: Option<Value>)
    ensures r.None? <==> key !in Keys(es)
    ensures r.Some? ==>
      exists i :: 0 <= i < |es| && es[i] == (key, r.value) && key !in Keys(es[..i])
  {
    if |es| == 0 then None
    else if es[0].0 == key then
      assert es[0] == (key, es[0].1) && key !in Keys(es[..0]);
      Some(es[0].1)
    else
      var r := Find(es[1..], key);
      KeysFront(es);
      if r.Some? then
        var i :| 0 <= i < |es[1..]| && es[1..][i] == (key, r.value) && key !in Keys(es[1..][..i]);
        KeysFront(es[..i + 1]);
        assert es[..i + 1][1..] == es[1..][..i];
        r
      else r
  }

  /** The keys of a non-empty list are its first key followed by the keys of the rest. */
  lemma KeysFront<V>(es: seq<(string, V)>)
    requires |es| > 0
    ensures Keys(es) == [es[0].0] + Keys(es[1..])
  {
  }

  /** In a dict with distinct keys, each entry is what a lookup of its key finds. */
  lemma FindAt(es: Entries, i: nat)
    requires UniqueKeys(es) && i < |es|
    ensures Find(es, es[i].0) == Some(es[i].1)
  {
    var key := es[i].0;
    assert Keys(es)[i] == key;
    var r := Find(es, key);
    var j :| 0 <= j < |es| && es[j] == (key, r.value) && key !in Keys(es[..j]);
  }

  /** d.get(key, default). */
  function GetOr(es: Entries, key: string, default: Value): Value
  {
    match Find(es, key)
    case Some(v) => v
    case None => default
  }

  /** Python truthiness: None, False, 0 and empty containers are false. */
  predicate Truthy(v: Value)
  {
    match v
    case VNone => false
    case VBool(b) => b
    case VInt(i) => i != 0
    case VStr(s) => s != ""
    case VList(items) => items != []
    case VDict(es) => es != []
  }

  /** type(v).__name__ */
  function TypeName(v: Value): string
  {
    match v
    case VNone => "NoneType"
    case VBool(_) => "bool"
    case VInt(_) => "int"
    case VStr(_) => "str"
    case VList(_) => "list"
    case VDict(_) => "dict"
  }

  /**
   * The number a value stands for in an ordering comparison with an int:
   * bool is a subclass of int; every other kind raises TypeError.
   */
  function AsNumber(v: Value): (r: Option<int>)
    ensures r.Some? <==> v.VInt? || v.VBool?
    ensures v.VInt? ==> r == Some(v.i)
  {
    match v
    case VInt(i) => Some(i)
    case VBool(b) => Some(if b then 1 else 0)
    case _ => None
  }

  function DigitChar(d: nat): (c: char)
    requires d < 10
    ensures '0' <= c <= '9'
  {
    "0123456789"[d]
  }

  function DigitValue(c: char): nat
    requires '0' <= c <= '9'
  {
    (c as int) - ('0' as int)
  }

  predicate AllDigits(s: string)
  {
    forall k :: 0 <= k < |s| ==> '0' <= s[k] <= '9'
  }

  /** The decimal digits of a natural number, most significant first. */
  function Digits(n: nat): (s: string)
    ensures |s| > 0 && AllDigits(s)
  {
    if n < 10 then [DigitChar(n)] else Digits(n / 10) + [DigitChar(n % 10)]
  }

  /** str(n) for an int. */
  function Decimal(n: int): string
  {
    if n < 0 then "-" + Digits(-n) else Digits(n)
  }

  function ParseDigits(s: string): nat
    requires |s| > 0 && AllDigits(s)
  {
    if |s| == 1 then DigitValue(s[0])
    else ParseDigits(s[..|s| - 1]) * 10 + DigitValue(s[|s| - 1])
  }

  /** Reads an optionally signed decimal numeral; the inverse of Decimal. */
  function ParseDecimal(s: string): Option<int>
  {
    if |s| > 1 && s[0] == '-' && AllDigits(s[1..]) then Some(0 - ParseDigits(s[1..]))
    else if |s| > 0 && AllDigits(s) then Some(ParseDigits(s))
    else None
  }

  lemma {:induction false} DigitsRoundTrip(n: nat)
    ensures ParseDigits(Digits(n)) == n
  {
    if n >= 10 {
      var s := Digits(n);
      assert s[..|s| - 1] == Digits(n / 10);
      DigitsRoundTrip(n / 10);
    }
  }

  /** str(n) reads back as n, so distinct ints never render alike. */
  lemma {:induction false} DecimalRoundTrip(n: int)
    ensures ParseDecimal(Decimal(n)) == Some(n)
  {
    var s := Decimal(n);
    if n < 0 {
      var d := Digits(-n);
      assert s == "-" + d && s[1..] == d;
      DigitsRoundTrip(-n);
    } else {
      assert s == Digits(n) && '0' <= s[0] <= '9';
      DigitsRoundTrip(n);
    }
  }

  /** "sep".join(parts) */
  function Join(sep: string, parts: seq<string>): string
  {
    if |parts| == 0 then ""
    else if |parts| == 1 then parts[0]
    else parts[0] + sep + Join(sep, parts[1..])
  }

  /**
   * repr(v): as str(v), except that a string is quoted. Python's choice of
   * quote character and its escapes are not modelled.
   */
  function Repr(v: Value): string
  {
    match v
    case VNone => "None"
    case VBool(b) => if b then "True" else "False"
    case VInt(i) => Decimal(i)
    case VStr(s) => "'" + s + "'"
    case VList(items) =>
      "[" + Join(", ", seq(|items|, i requires 0 <= i < |items| => Repr(items[i]))) + "]"
    case VDict(es) =>
      "{" + Join(", ", seq(|es|, i requires 0 <= i < |es| => "'" + es[i].0 + "': " + Repr(es[i].1))) + "}"
  }

  /** str(v), which is also what an f-string substitutes for {v}. */
  function PyStr(v: Value): string
  {
    if v.VStr? then v.s else Repr(v)
  }
}
