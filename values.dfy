/**
  The Python values the parser handles: the strings it reads, what adapters
  return, and the defaults taken from a signature.  Also the three Python
  builtins the route construction infers as adapters (`bool`, `str`, `int`).
*/
module Values {
  import opened Wrappers

  datatype Value =
    | Str(s: string)
    | Int(i: int)
    | Bool(b: bool)
    | List(items: seq<Value>)
    | Dict(entries: map<string, Value>)
    | NoneValue

  /** Python's truth value of `v` (what `not v` negates). */
  predicate Truthy(v: Value) {
    match v
    case Str(s) => s != ""
    case Int(i) => i != 0
    case Bool(b) => b
    case List(items) => items != []
    case Dict(entries) => entries != map[]
    case NoneValue => false
  }

  /**
    The integer `v` stands for when compared with an int bound; None where
    Python 3 raises TypeError (`'a' < 1`, `[] < 1`, `None < 1`).
  */
  function AsNumber(v: Value): (n: Option<int>)
    ensures n.Some? <==> v.Int? || v.Bool?
    ensures v.Int? ==> n == Some(v.i)
  {
    match v
    case Int(i) => Some(i)
    case Bool(b) => Some(if b then 1 else 0)
    case _ => None
  }

  /** The strings `ss` as a Python list of str. */
  function Strs(ss: seq<string>): (r: seq<Value>)
    ensures |r| == |ss|
    ensures forall i :: 0 <= i < |ss| ==> r[i] == Str(ss[i])
  {
    seq(|ss|, i requires 0 <= i < |ss| => Str(ss[i]))
  }

  /** The builtin types the route construction can infer as an adapter. */
  datatype Prim = BoolType | StrType | IntType

  /**
    `type(v)` when `v` is an instance of the allow-list of inferable types;
    lists, dicts and None are not in it.
  */
  function KindOf(v: Value): (k: Option<Prim>)
    ensures k == Some(BoolType) <==> v.Bool?
    ensures k == Some(StrType) <==> v.Str?
    ensures k == Some(IntType) <==> v.Int?
  {
    match v
    case Bool(_) => Some(BoolType)
    case Str(_) => Some(StrType)
    case Int(_) => Some(IntType)
    case _ => None
  }

  /** Calling the builtin `k` on `v`; None where the call raises. */
  function Convert(k: Prim, v: Value): (r: Option<Value>)
    ensures r.Some? ==> KindOf(r.value) == Some(k)
    ensures KindOf(v) == Some(k) ==> r == Some(v)
    ensures k == BoolType ==> r.Some?
  {
    match k
    case BoolType => Some(Bool(Truthy(v)))
    case StrType =>
      (match v
       case Str(s) => Some(v)
       case Int(i) => Some(Str(IntText(i)))
       case Bool(b) => Some(Str(if b then "True" else "False"))
       case NoneValue => Some(Str("None"))
       case _ => None)
    case IntType =>
      (match v
       case Str(s) => (match ParseInt(s) case Some(n) => Some(Int(n)) case None => None)
       case Int(_) => Some(v)
       case Bool(b) => Some(Int(if b then 1 else 0))
       case _ => None)
  }

  predicate IsDigit(c: char) {
    '0' <= c <= '9'
  }

  predicate AllDigits(s: string) {
    forall i :: 0 <= i < |s| ==> IsDigit(s[i])
  }

  /** The number a run of decimal digits denotes. */
  function DigitsValue(s: string): nat
    requires AllDigits(s)
    decreases |s|
  {
    if s == [] then 0
    else DigitsValue(s[..|s| - 1]) * 10 + (s[|s| - 1] as int - '0' as int)
  }

  /** `int(s)` for a string: an optional sign followed by at least one digit. */
  function ParseInt(s: string): (r: Option<int>)
    ensures r.Some? ==> s != []
    ensures r.Some? <==> (s != [] && AllDigits(s)) || (|s| > 1 && (s[0] == '-' || s[0] == '+') && AllDigits(s[1..]))
    ensures s != [] && AllDigits(s) ==> r == Some(DigitsValue(s))
  {
    if s != [] && (s[0] == '-' || s[0] == '+') then
      if |s| > 1 && AllDigits(s[1..]) then
        Some(if s[0] == '-' then -(DigitsValue(s[1..]) as int) else DigitsValue(s[1..]) as int)
      else None
    else if s != [] && AllDigits(s) then Some(DigitsValue(s))
    else None
  }

  /** The decimal digits of `n`, most significant first. */
  function NatText(n: nat): (s: string)
    decreases n
  {
    if n < 10 then ['0' + n as char] else NatText(n / 10) + ['0' + (n % 10) as char]
  }

  /** `str(n)` for an int. */
  function IntText(n: int): string {
    if n < 0 then "-" + NatText(-n) else NatText(n)
  }

  lemma {:induction false} NatTextDigits(n: nat)
    ensures NatText(n) != [] && AllDigits(NatText(n))
    ensures DigitsValue(NatText(n)) == n
    decreases n
  {
    var s := NatText(n);
    if n >= 10 {
      NatTextDigits(n / 10);
      assert s[..|s| - 1] == NatText(n / 10);
    }
  }

  /** The `int` builtin reads back what `str` writes for every int. */
  lemma IntTextRoundTrip(n: int)
    ensures ParseInt(IntText(n)) == Some(n)
    ensures Convert(IntType, Convert(StrType, Int(n)).value) == Some(Int(n))
  {
    if n < 0 {
      NatTextDigits(-n);
      assert IntText(n)[1..] == NatText(-n);
    } else {
      NatTextDigits(n);
    }
  }
}
