/** JavaScript value semantics the front end relies on: optional values,
    truthiness of strings, `Number.prototype.toString` on integer ids,
    `String(v)` on decoded JSON, JSON values themselves and the browser's
    `File` objects.  Numbers are modelled as mathematical integers. */
module Js {

  datatype Option<+T> = None | Some(value: T)

  /** A string used as a condition: only the empty string is falsy. */
  predicate Truthy(s: string) {
    s != ""
  }

  /** An optional string used as a condition: `undefined` and `""` are falsy. */
  predicate TruthyOpt(o: Option<string>) {
    o.Some? && o.value != ""
  }

  predicate IsDigit(c: char) {
    '0' <= c <= '9'
  }

  function DigitChar(d: nat): (c: char)
    requires d < 10
    ensures IsDigit(c)
    ensures c as int - '0' as int == d
  {
    (d + '0' as int) as char
  }

  /** Decimal rendering of a natural number: no sign, no leading zero. */
  function NatToString(n: nat): (s: string)
    ensures |s| >= 1
    ensures forall i :: 0 <= i < |s| ==> IsDigit(s[i])
    ensures n >= 10 ==> |s| >= 2
    decreases n
  {
    if n < 10 then [DigitChar(n)] else NatToString(n / 10) + [DigitChar(n % 10)]
  }

  /** `n.toString()` for an integer `n`. */
  function IntToString(n: int): (s: string)
    ensures |s| >= 1 && Truthy(s)
    ensures forall i :: 0 < i < |s| ==> IsDigit(s[i])
    ensures s[0] == '-' || IsDigit(s[0])
    ensures IsDigit(s[0]) <==> n >= 0
  {
    if n >= 0 then NatToString(n) else "-" + NatToString(-n)
  }

  lemma {:induction false} NatToStringInjective(a: nat, b: nat)
    requires NatToString(a) == NatToString(b)
    ensures a == b
    decreases a
  {
    var sa, sb := NatToString(a), NatToString(b);
    if a < 10 && b < 10 {
      assert sa[0] == DigitChar(a) && sb[0] == DigitChar(b);
    } else if a >= 10 && b >= 10 {
      var pa, pb := NatToString(a / 10), NatToString(b / 10);
      assert sa == pa + [DigitChar(a % 10)] && sb == pb + [DigitChar(b % 10)];
      assert |pa| == |pb|;
      assert sa[|sa| - 1] == DigitChar(a % 10) && sb[|sb| - 1] == DigitChar(b % 10);
      assert pa == sa[..|pa|] == sb[..|pb|] == pb;
      NatToStringInjective(a / 10, b / 10);
    }
  }

  /** Distinct ids render as distinct strings, so an id rendered into a URL
      names exactly one item. */
  lemma IntToStringInjective(a: int, b: int)
    requires IntToString(a) == IntToString(b)
    ensures a == b
  {
    var s := IntToString(a);
    if a >= 0 && b >= 0 {
      NatToStringInjective(a, b);
    } else if a < 0 && b < 0 {
      assert NatToString(-a) == s[1..] == NatToString(-b);
      NatToStringInjective(-a, -b);
    }
  }

  datatype Json =
    | JNull
    | JBool(b: bool)
    | JNum(n: int)
    | JStr(s: string)
    | JArr(elems: seq<Json>)
    | JObj(fields: map<string, Json>)

  /** `parts.join(",")`. */
  function JoinWithCommas(parts: seq<string>): string {
    if |parts| == 0 then ""
    else if |parts| == 1 then parts[0]
    else parts[0] + "," + JoinWithCommas(parts[1..])
  }

  /** `String(v)` for a decoded JSON value; in an array, `null` elements
      render as the empty string. */
  function JsString(j: Json): string
    decreases j
  {
    match j
    case JNull => "null"
    case JBool(b) => if b then "true" else "false"
    case JNum(n) => IntToString(n)
    case JStr(s) => s
    case JArr(es) =>
      JoinWithCommas(seq(|es|, i requires 0 <= i < |es| => if es[i] == JNull then "" else JsString(es[i])))
    case JObj(_) => "[object Object]"
  }

  /** A browser `File`: only its name and its size in bytes matter here. */
  datatype Blob = Blob(name: string, size: nat)

  /** `new File([], name)`: an empty placeholder named after a stored file. */
  function EmptyFile(name: string): (b: Blob)
    ensures b.name == name && b.size == 0
  {
    Blob(name, 0)
  }
}
