/**
  JavaScript values as far as the console inspects them: truthiness, `String(v)`,
  and the decimal rendering and parsing of integers that template strings,
  `URLSearchParams` and `Number(...)` perform.
 */
module Js {

  datatype Option<+T> = None | Some(value: T) {
    /** `x ?? d` and destructuring defaults: the value if present, else `d`. */
    function GetOr(d: T): T {
      if Some? then value else d
    }
  }

  /** A JavaScript value. Numbers are integers here; objects other than files are opaque. */
  datatype Val =
    | Undefined
    | Null
    | Bool(b: bool)
    | Num(n: int)
    | Str(s: string)
    | File(fileName: string)
    | Obj(tag: nat)

  /** An object's own enumerable properties in `Object.entries` order. */
  type Entries = seq<(string, Val)>

  /** JavaScript truthiness (`if (v)`, `v || d`, `v && e`). */
  predicate Truthy(v: Val) {
    match v
    case Undefined => false
    case Null => false
    case Bool(b) => b
    case Num(n) => n != 0
    case Str(s) => s != ""
    case File(_) => true
    case Obj(_) => true
  }

  function DigitChar(d: nat): (c: char)
    requires d < 10
    ensures '0' <= c <= '9'
  {
    (48 + d) as char
  }

  function DigitValue(c: char): Option<nat> {
    if '0' <= c <= '9' then Some(c as int - 48) else None
  }

  /** Decimal digits of `n`, most significant first, no leading zeros. */
  function NatToString(n: nat): (s: string)
    ensures |s| >= 1
    ensures forall i :: 0 <= i < |s| ==> '0' <= s[i] <= '9'
    decreases n
  {
    if n < 10 then [DigitChar(n)] else NatToString(n / 10) + [DigitChar(n % 10)]
  }

  /** How JavaScript prints an integer: `String(n)`, `${n}`. */
  function IntToString(n: int): string {
    if n < 0 then "-" + NatToString(-n) else NatToString(n)
  }

  /** A non-empty run of decimal digits, read as a natural number; anything else is `None`. */
  function ParseNat(s: string): Option<nat>
    decreases |s|
  {
    if |s| == 0 then None
    else
      var last := DigitValue(s[|s| - 1]);
      if last.None? then None
      else if |s| == 1 then last
      else
        match ParseNat(s[..|s| - 1])
        case None => None
        case Some(m) => Some(10 * m + last.value)
  }

  /** An optional minus sign followed by decimal digits. */
  function ParseInt(s: string): Option<int> {
    if |s| > 0 && s[0] == '-' then
      var m := ParseNat(s[1..]);
      if m.Some? then Some(0 - m.value as int) else None
    else
      var m := ParseNat(s);
      if m.Some? then Some(m.value) else None
  }

  /** `String(v)` for the values modelled here. */
  function ToJsString(v: Val): string {
    match v
    case Undefined => "undefined"
    case Null => "null"
    case Bool(b) => if b then "true" else "false"
    case Num(n) => IntToString(n)
    case Str(s) => s
    case File(_) => "[object File]"
    case Obj(_) => "[object Object]"
  }

  lemma {:induction false} ParseNatOfNatToString(n: nat)
    ensures ParseNat(NatToString(n)) == Some(n)
    decreases n
  {
    if n >= 10 {
      var p := NatToString(n / 10);
      var s := NatToString(n);
      assert s == p + [DigitChar(n % 10)];
      assert s[..|s| - 1] == p;
      ParseNatOfNatToString(n / 10);
    }
  }

  lemma {:induction false} ParseIntOfIntToString(n: int)
    ensures ParseInt(IntToString(n)) == Some(n)
  {
    var s := IntToString(n);
    if n < 0 {
      var digits := NatToString(-n);
      assert s == "-" + digits;
      assert s[1..] == digits;
      ParseNatOfNatToString(-n);
    } else {
      assert s[0] != '-';
      ParseNatOfNatToString(n);
    }
  }

  /** Printing integers loses nothing: distinct numbers print differently. */
  lemma IntToStringInjective(a: int, b: int)
    ensures IntToString(a) == IntToString(b) <==> a == b
  {
    ParseIntOfIntToString(a);
    ParseIntOfIntToString(b);
  }
}
