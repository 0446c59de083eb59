/** Decoded JSON values as the sync script sees them (Python dicts, lists, strings,
    integers, booleans and None), the operations the script applies to them, and the
    exceptions those operations raise. */
module JsonValues {

  datatype Option<+T> = None | Some(value: T)

  /** The exceptions the script can observe. `HttpError` is what `raise_for_status`
      raises; the others are the Python built-in exceptions of a failed subscript,
      attribute lookup, iteration or datetime conversion. */
  datatype Exc =
    | HttpError(status: int)
    | KeyError
    | IndexError
    | TypeError
    | AttributeError
    | ValueError

  datatype Result<+T> = Ok(value: T) | Err(exc: Exc) {
    predicate IsFailure() { Err? }
    function PropagateFailure<U>(): Result<U> requires Err? { Err(exc) }
    function Extract(): T requires Ok? { value }
  }

  /** A decoded JSON document. Objects keep their members in document order, as
      `json.loads` does; keys are taken to be distinct. */
  datatype Json =
    | JNull
    | JBool(b: bool)
    | JInt(i: int)
    | JStr(s: string)
    | JArr(items: seq<Json>)
    | JObj(members: seq<(string, Json)>)

  function Lookup(members: seq<(string, Json)>, key: string): Option<Json>
  {
    if |members| == 0 then None
    else if members[0].0 == key then Some(members[0].1)
    else Lookup(members[1..], key)
  }

  /** `j[key]`: a dict answers the member or raises KeyError; anything else raises TypeError. */
  function Sub(j: Json, key: string): Result<Json>
  {
    match j
    case JObj(ms) => (match Lookup(ms, key) case Some(v) => Ok(v) case None => Err(KeyError))
    case _ => Err(TypeError)
  }

  /** `j[i]` for a non-negative integer literal: a list or a string is indexed (IndexError
      past the end); a dict has no integer keys, so KeyError; anything else TypeError. */
  function Index(j: Json, i: nat): Result<Json>
  {
    match j
    case JArr(xs) => if i < |xs| then Ok(xs[i]) else Err(IndexError)
    case JStr(s) => if i < |s| then Ok(JStr([s[i]])) else Err(IndexError)
    case JObj(_) => Err(KeyError)
    case _ => Err(TypeError)
  }

  /** `j.get(key, default)`: only a dict has a `get` attribute. */
  function Get(j: Json, key: string, default: Json): Result<Json>
  {
    match j
    case JObj(ms) => (match Lookup(ms, key) case Some(v) => Ok(v) case None => Ok(default))
    case _ => Err(AttributeError)
  }

  function Keys(members: seq<(string, Json)>): (r: seq<Json>)
    ensures |r| == |members|
  {
    if |members| == 0 then [] else [JStr(members[0].0)] + Keys(members[1..])
  }

  function Chars(s: string): (r: seq<Json>)
    ensures |r| == |s|
  {
    if |s| == 0 then [] else [JStr([s[0]])] + Chars(s[1..])
  }

  /** `for x in j`: a list yields its items, a string its characters, a dict its keys;
      None, booleans and integers are not iterable. */
  function Iter(j: Json): Result<seq<Json>>
  {
    match j
    case JArr(xs) => Ok(xs)
    case JStr(s) => Ok(Chars(s))
    case JObj(ms) => Ok(Keys(ms))
    case _ => Err(TypeError)
  }

  /** Python truthiness: None, False, 0, "", [] and {} are false. */
  predicate Truthy(j: Json)
  {
    match j
    case JNull => false
    case JBool(b) => b
    case JInt(i) => i != 0
    case JStr(s) => s != ""
    case JArr(xs) => xs != []
    case JObj(ms) => ms != []
  }

  function Digit(d: nat): (c: char)
    requires d < 10
    ensures '0' <= c <= '9'
  {
    ('0' as int + d) as char
  }

  function DigitValue(c: char): int
  {
    c as int - '0' as int
  }

  predicate AllDigits(s: string)
  {
    forall k :: 0 <= k < |s| ==> '0' <= s[k] <= '9'
  }

  /** Value of a string of decimal digits, most significant first. */
  function DigitsValue(s: string): int
  {
    if |s| == 0 then 0 else DigitsValue(s[..|s| - 1]) * 10 + DigitValue(s[|s| - 1])
  }

  /** Decimal representation of a natural number, without leading zeros. */
  function NatToString(n: nat): (r: string)
    ensures |r| >= 1 && AllDigits(r)
    ensures |r| == 1 <==> n < 10
    ensures r[0] == '0' ==> n == 0
  {
    if n < 10 then [Digit(n)] else NatToString(n / 10) + [Digit(n % 10)]
  }

  /** `str(i)` for an integer. */
  function IntToString(i: int): string
  {
    if i < 0 then "-" + NatToString(-i) else NatToString(i)
  }

  lemma {:induction false} NatToStringValue(n: nat)
    ensures DigitsValue(NatToString(n)) == n
  {
    var r := NatToString(n);
    if n < 10 {
      assert r[..0] == [];
    } else {
      NatToStringValue(n / 10);
      assert r[..|r| - 1] == NatToString(n / 10);
    }
  }

  /** Reads back an optional minus sign followed by decimal digits. */
  function ParseInt(s: string): int
  {
    if |s| > 0 && s[0] == '-' then -DigitsValue(s[1..]) else DigitsValue(s)
  }

  lemma {:induction false} IntToStringValue(i: int)
    ensures ParseInt(IntToString(i)) == i
  {
    var r := IntToString(i);
    if i < 0 {
      var n := NatToString(-i);
      assert r == "-" + n;
      assert r[0] == '-' && r[1..] == n;
      NatToStringValue(-i);
    } else {
      var n := NatToString(i);
      assert r == n;
      assert '0' <= n[0] <= '9';
      NatToStringValue(i);
    }
  }

  /** Distinct integers have distinct decimal strings (so `str(id)` keeps ids apart). */
  lemma IntToStringInjective(a: int, b: int)
    requires IntToString(a) == IntToString(b)
    ensures a == b
  {
    IntToStringValue(a);
    IntToStringValue(b);
  }

  /** `repr` of a string, with single quotes (escaping of quotes and control
      characters is not modelled). */
  function QuoteRepr(s: string): string
  {
    "'" + s + "'"
  }

  /** `repr(j)` of a decoded value. */
  function Repr(j: Json): string
  {
    match j
    case JNull => "None"
    case JBool(b) => if b then "True" else "False"
    case JInt(i) => IntToString(i)
    case JStr(s) => QuoteRepr(s)
    case JArr(xs) => "[" + ReprItems(xs) + "]"
    case JObj(ms) => "{" + ReprMembers(ms) + "}"
  }

  function ReprItems(xs: seq<Json>): string
  {
    if |xs| == 0 then ""
    else if |xs| == 1 then Repr(xs[0])
    else Repr(xs[0]) + ", " + ReprItems(xs[1..])
  }

  function ReprMembers(ms: seq<(string, Json)>): string
  {
    if |ms| == 0 then ""
    else
      var m := ms[0];
      assert m.1 < m;
      var head := QuoteRepr(m.0) + ": " + Repr(m.1);
      if |ms| == 1 then head else head + ", " + ReprMembers(ms[1..])
  }

  /** `str(j)`: a string is itself, everything else is its `repr`. */
  function PyStr(j: Json): (r: string)
    ensures j.JInt? ==> r == IntToString(j.i)
  {
    if j.JStr? then j.s else Repr(j)
  }
}
