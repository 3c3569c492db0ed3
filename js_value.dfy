/** JavaScript values as the curriculum code sees them after JSON.parse, and the
    handful of JavaScript conversions the code relies on: truthiness of `||`
    chains, property reads, String(), Number(), parseInt and parseFloat. */
module JsValue {

  datatype Option<+T> = None | Some(value: T)

  /** A JavaScript value as the code handles it: what JSON.parse produces (object
      members kept in enumeration order), plus the NaN that parseInt, Number()
      and arithmetic can compute. */
  datatype Json =
    | JNull
    | JBool(b: bool)
    | JNum(n: real)
    | JNaN
    | JStr(s: string)
    | JArr(items: seq<Json>)
    | JObj(members: seq<(string, Json)>)

  /** The exceptions the normaliser can raise while walking a document. */
  datatype ParseError =
    | KeysOfNull                      // Object.keys(null)
    | ReadOfNull(property: string)    // `x.property` with x === null
    | NotAFunction(callee: string)    // `x.substring(...)` on a non-string

  datatype Result<+T> = Ok(value: T) | Err(error: ParseError) {
    predicate IsFailure() { Err? }
    function PropagateFailure<U>(): Result<U>
      requires Err?
    {
      Err(error)
    }
    function Extract(): T
      requires Ok?
    {
      value
    }
  }

  // ---------------------------------------------------------------- truthiness

  /** JavaScript truthiness: null, false, 0, NaN and "" are falsy. */
  predicate Truthy(v: Json) {
    match v
    case JNull => false
    case JBool(b) => b
    case JNum(n) => n != 0.0
    case JNaN => false
    case JStr(s) => s != ""
    case _ => true
  }

  /** Truthiness of a value that may be undefined. */
  predicate Present(o: Option<Json>) {
    o.Some? && Truthy(o.value)
  }

  /** `a || b` where `a` may be undefined: the left operand when truthy, else the right one. */
  function Or(a: Option<Json>, b: Option<Json>): (r: Option<Json>)
    ensures Present(a) ==> r == a
    ensures !Present(a) ==> r == b
  {
    if Present(a) then a else b
  }

  // ----------------------------------------------------------- property access

  /** cands[i] is the first truthy candidate. */
  predicate FirstPresent(cands: seq<Option<Json>>, i: int) {
    0 <= i < |cands| && Present(cands[i]) && forall j :: 0 <= j < i ==> !Present(cands[j])
  }

  predicate NonePresent(cands: seq<Option<Json>>) {
    forall i :: 0 <= i < |cands| ==> !Present(cands[i])
  }

  /** `c0 || c1 || … || last`: the first truthy candidate, else the last operand
      (which may itself be falsy or undefined). */
  function OrChain(cands: seq<Option<Json>>, last: Option<Json>): (r: Option<Json>)
    ensures NonePresent(cands) ==> r == last
    ensures forall i :: FirstPresent(cands, i) ==> r == cands[i]
    ensures r == last || Present(r)
  {
    if |cands| == 0 then last
    else if Present(cands[0]) then cands[0]
    else
      var r := OrChain(cands[1..], last);
      assert forall i :: FirstPresent(cands, i) ==> FirstPresent(cands[1..], i - 1);
      r
  }

  /** A chain ending in a literal default. */
  function Chain(cands: seq<Option<Json>>, fallback: Json): (r: Json)
    ensures NonePresent(cands) ==> r == fallback
    ensures forall i :: FirstPresent(cands, i) ==> r == cands[i].value
  {
    OrChain(cands, Some(fallback)).value
  }

  /** `v[key]` for a non-null value. Only objects have the keys the code reads. */
  function Lookup(v: Json, key: string): (r: Option<Json>)
    ensures r.Some? ==> v.JObj? && exists i :: 0 <= i < |v.members| && v.members[i] == (key, r.value)
  {
    if v.JObj? then Find(v.members, key) else None
  }

  /** The value of the first member named `key`. */
  function Find(ms: seq<(string, Json)>, key: string): (r: Option<Json>)
    ensures r.Some? ==> exists i :: 0 <= i < |ms| && ms[i] == (key, r.value)
    ensures r.None? ==> forall i :: 0 <= i < |ms| ==> ms[i].0 != key
  {
    if |ms| == 0 then None
    else if ms[0].0 == key then Some(ms[0].1)
    else Find(ms[1..], key)
  }

  /** The member at index i is the first one named key. */
  lemma {:induction false} FindAt(ms: seq<(string, Json)>, key: string, i: nat)
    requires i < |ms| && ms[i].0 == key
    requires forall j :: 0 <= j < i ==> ms[j].0 != key
    ensures Find(ms, key) == Some(ms[i].1)
  {
    if i > 0 {
      assert ms[0].0 != key;
      FindAt(ms[1..], key, i - 1);
    }
  }

  /** `o?.key`: undefined stays undefined. */
  function Get(o: Option<Json>, key: string): Option<Json> {
    if o.Some? then Lookup(o.value, key) else None
  }

  /** `v?.p1?.p2?...`: a dotted path of optional reads. */
  function PathGet(v: Json, path: seq<string>): (r: Option<Json>)
    decreases |path|
  {
    if |path| == 0 then Some(v)
    else
      match Lookup(v, path[0])
      case None => None
      case Some(w) => PathGet(w, path[1..])
  }

  /** `Array.isArray(o)` for a value that may be undefined. */
  predicate IsArray(o: Option<Json>) {
    o.Some? && o.value.JArr?
  }

  /** `typeof o === 'object'` (true for null, arrays and objects). */
  predicate IsObjectType(o: Option<Json>) {
    o.Some? && (o.value.JNull? || o.value.JArr? || o.value.JObj?)
  }

  /** `typeof o === 'string'`. */
  predicate IsString(o: Option<Json>) {
    o.Some? && o.value.JStr?
  }

  /** The elements of an array value, empty for anything else. */
  function Items(o: Option<Json>): seq<Json> {
    if o.Some? && o.value.JArr? then o.value.items else []
  }

  /** The (key, value) pairs a `for…in` loop visits: object members, array or
      string indices, nothing for other values. */
  function ForIn(v: Json): (r: seq<(string, Json)>)
    ensures v.JObj? ==> r == v.members
    ensures v.JArr? ==> |r| == |v.items|
    ensures !v.JObj? && !v.JArr? && !v.JStr? ==> r == []
  {
    match v
    case JObj(ms) => ms
    case JArr(xs) => seq(|xs|, i requires 0 <= i < |xs| => (NatText(i), xs[i]))
    case JStr(s) => seq(|s|, i requires 0 <= i < |s| => (NatText(i), JStr([s[i]])))
    case _ => []
  }

  /** `obj[key] = value` on a copy: an existing member keeps its position. */
  function SetMember(ms: seq<(string, Json)>, key: string, value: Json): (r: seq<(string, Json)>)
    ensures Find(r, key) == Some(value)
    ensures forall k :: k != key ==> Find(r, k) == Find(ms, k)
  {
    if |ms| == 0 then [(key, value)]
    else if ms[0].0 == key then [(key, value)] + ms[1..]
    else [ms[0]] + SetMember(ms[1..], key, value)
  }

  /** The JSON object with one member set (or appended). */
  function Assign(v: Json, key: string, value: Json): Json
    requires v.JObj?
  {
    JObj(SetMember(v.members, key, value))
  }

  // ------------------------------------------------------------------- String()

  function DigitChar(d: nat): char
    requires d < 10
  {
    "0123456789"[d]
  }

  /** Decimal notation of a natural number. */
  function NatText(n: nat): (r: string)
    ensures |r| > 0
    ensures forall i :: 0 <= i < |r| ==> IsDigit(r[i])
  {
    if n < 10 then [DigitChar(n)] else NatText(n / 10) + [DigitChar(n % 10)]
  }

  function IntText(z: int): (r: string)
    ensures |r| > 0
  {
    if z < 0 then "-" + NatText(-z) else NatText(z)
  }

  /** Up to `fuel` digits of the fractional part `f` (0 <= f < 1), stopping when nothing remains. */
  function FractionDigits(f: real, fuel: nat): string
    requires 0.0 <= f < 1.0
    decreases fuel
  {
    if f == 0.0 || fuel == 0 then ""
    else
      var t := f * 10.0;
      var d := t.Floor;
      assert 0 <= d < 10;
      [DigitChar(d)] + FractionDigits(t - d as real, fuel - 1)
  }

  /** String(n) for a finite number written in plain decimal notation. */
  function NumberText(n: real): string {
    if n == n.Floor as real then IntText(n.Floor)
    else if n < 0.0 then "-" + PositiveText(-n)
    else PositiveText(n)
  }

  function PositiveText(n: real): string
    requires n > 0.0
  {
    NatText(n.Floor) + "." + FractionDigits(n - n.Floor as real, 20)
  }

  /** String(v): what a template literal or a string context makes of the value. */
  function ToJsString(v: Json): string
    decreases v
  {
    match v
    case JNull => "null"
    case JBool(b) => if b then "true" else "false"
    case JNum(n) => NumberText(n)
    case JNaN => "NaN"
    case JStr(s) => s
    case JArr(xs) => Join(seq(|xs|, i requires 0 <= i < |xs| => if xs[i].JNull? then "" else ToJsString(xs[i])), ",")
    case JObj(_) => "[object Object]"
  }

  /** Array.prototype.join. */
  function Join(parts: seq<string>, sep: string): string {
    if |parts| == 0 then ""
    else if |parts| == 1 then parts[0]
    else parts[0] + sep + Join(parts[1..], sep)
  }

  /** `x || fallback` used where a string is expected. */
  function TextOr(o: Option<Json>, fallback: string): (r: string)
    ensures !Present(o) ==> r == fallback
    ensures Present(o) ==> r == ToJsString(o.value)
  {
    if Present(o) then ToJsString(o.value) else fallback
  }

  // ---------------------------------------------------------------- characters

  predicate IsDigit(c: char) { '0' <= c <= '9' }

  /** The characters JavaScript's `\s`, `trim` and `parseInt` treat as white space. */
  predicate IsJsSpace(c: char) {
    c == '\t' || c == '\n' || c == '\U{000B}' || c == '\U{000C}' || c == '\r' || c == ' '
    || c == '\U{00A0}' || c == '\U{1680}' || ('\U{2000}' <= c <= '\U{200A}')
    || c == '\U{2028}' || c == '\U{2029}' || c == '\U{202F}' || c == '\U{205F}'
    || c == '\U{3000}' || c == '\U{FEFF}'
  }

  /** ASCII lower-casing, which is what a case-insensitive regular expression
      without the `u` flag applies to the ASCII letters it matches. */
  function LowerAscii(c: char): char {
    if 'A' <= c <= 'Z' then (c as int + 32) as char else c
  }

  function LowerAsciiString(s: string): (r: string)
    ensures |r| == |s|
    ensures forall i :: 0 <= i < |s| ==> r[i] == LowerAscii(s[i])
  {
    seq(|s|, i requires 0 <= i < |s| => LowerAscii(s[i]))
  }

  /** Does p occur in s starting at position i? */
  predicate OccursAt(s: string, p: string, i: int) {
    0 <= i && i + |p| <= |s| && s[i..i + |p|] == p
  }

  /** `s.includes(p)` */
  predicate Includes(s: string, p: string) {
    exists i :: 0 <= i <= |s| - |p| && OccursAt(s, p, i)
  }

  /** Does `s` start with `p`, comparing ASCII letters case-insensitively? */
  predicate StartsWithCI(s: string, p: string) {
    |p| <= |s| && LowerAsciiString(s[..|p|]) == LowerAsciiString(p)
  }

  predicate AllDigits(s: string) {
    forall i :: 0 <= i < |s| ==> IsDigit(s[i])
  }

  /** Is every character of `s` white space? */
  predicate IsBlank(s: string) {
    |s| == 0 || (IsJsSpace(s[0]) && IsBlank(s[1..]))
  }

  /** A string is blank exactly when its leading white space is all of it. */
  lemma {:induction false} LeadingSpaceBlank(s: string)
    ensures LeadingSpace(s) == |s| <==> IsBlank(s)
    decreases |s|
  {
    if |s| > 0 {
      LeadingSpaceBlank(s[1..]);
    }
  }

  /** Number of leading white-space characters. */
  function LeadingSpace(s: string): (n: nat)
    ensures n <= |s|
    ensures forall i :: 0 <= i < n ==> IsJsSpace(s[i])
    ensures n < |s| ==> !IsJsSpace(s[n])
  {
    if |s| > 0 && IsJsSpace(s[0]) then 1 + LeadingSpace(s[1..]) else 0
  }

  /** Number of trailing white-space characters. */
  function TrailingSpace(s: string): (n: nat)
    ensures n <= |s|
    ensures forall i :: |s| - n <= i < |s| ==> IsJsSpace(s[i])
    ensures n < |s| ==> !IsJsSpace(s[|s| - n - 1])
  {
    if |s| > 0 && IsJsSpace(s[|s| - 1]) then 1 + TrailingSpace(s[..|s| - 1]) else 0
  }

  /** String.prototype.trim. */
  function Trim(s: string): (r: string)
    ensures |r| <= |s|
    ensures r == "" <==> IsBlank(s)
  {
    LeadingSpaceBlank(s);
    var a := LeadingSpace(s);
    if a == |s| then "" else
    var t := s[a..];
    var b := TrailingSpace(t);
    assert b < |t| by { assert !IsJsSpace(t[0]); }
    t[..|t| - b]
  }

  /** Number of leading ASCII digits. */
  function DigitPrefix(s: string): (n: nat)
    ensures n <= |s|
    ensures AllDigits(s[..n])
    ensures n < |s| ==> !IsDigit(s[n])
  {
    if |s| > 0 && IsDigit(s[0]) then 1 + DigitPrefix(s[1..]) else 0
  }

  /** The value of a string of decimal digits. */
  function DigitsValue(s: string): nat
    requires AllDigits(s)
  {
    if |s| == 0 then 0 else 10 * DigitsValue(s[..|s| - 1]) + (s[|s| - 1] as int - '0' as int)
  }

  /** Index of the first ASCII digit, |s| if there is none. */
  function FirstDigit(s: string): (i: nat)
    ensures i <= |s|
    ensures i < |s| ==> IsDigit(s[i])
    ensures forall j :: 0 <= j < i ==> !IsDigit(s[j])
  {
    if |s| == 0 || IsDigit(s[0]) then 0 else 1 + FirstDigit(s[1..])
  }

  /** The text matched by `/(\d+)/` (equally `/\d+/`): the first maximal run of digits. */
  function FirstDigitRun(s: string): (r: Option<string>)
    ensures r.None? <==> forall j :: 0 <= j < |s| ==> !IsDigit(s[j])
    ensures r.Some? ==> |r.value| > 0 && AllDigits(r.value)
  {
    var i := FirstDigit(s);
    if i == |s| then None
    else Some(s[i..][..DigitPrefix(s[i..])])
  }

  // --------------------------------------------------- parseInt, parseFloat, Number()

  /** parseInt(s, 10): optional white space and sign, then the longest digit prefix;
      NaN (None) when there is no digit. */
  function ParseIntText(s: string): (r: Option<int>)
  {
    var t := s[LeadingSpace(s)..];
    var neg := |t| > 0 && t[0] == '-';
    var u := if |t| > 0 && (t[0] == '-' || t[0] == '+') then t[1..] else t;
    var n := DigitPrefix(u);
    if n == 0 then None
    else if neg then Some(-(DigitsValue(u[..n]) as int))
    else Some(DigitsValue(u[..n]) as int)
  }

  /** parseInt(v, 10): the argument is converted to a string first. */
  function ParseInt(o: Option<Json>): Option<int> {
    if o.None? then None else ParseIntText(ToJsString(o.value))
  }

  /** A JavaScript number: finite or NaN. */
  predicate IsNumber(v: Json) {
    v.JNum? || v.JNaN?
  }

  /** parseInt(v, 10) as a JavaScript number. */
  function ParseIntValue(o: Option<Json>): (r: Json)
    ensures IsNumber(r)
    ensures r.JNum? ==> r.n == r.n.Floor as real
  {
    match ParseInt(o)
    case None => JNaN
    case Some(z) => JNum(z as real)
  }

  function Pow10(k: nat): (r: real)
    ensures r >= 1.0
  {
    if k == 0 then 1.0 else 10.0 * Pow10(k - 1)
  }

  /** The value of an unsigned decimal "ddd", "ddd.ddd" or ".ddd" at the start of `s`,
      with the number of characters it spans; None if it has no digit. */
  function DecimalPrefix(s: string): (r: Option<(real, nat)>)
    ensures r.Some? ==> 0 < r.value.1 <= |s|
  {
    var a := DigitPrefix(s);
    var intPart := DigitsValue(s[..a]) as real;
    if a < |s| && s[a] == '.' then
      var f := s[a + 1..];
      var b := DigitPrefix(f);
      var frac := DigitsValue(f[..b]) as real / Pow10(b);
      if a + b == 0 then None else Some((intPart + frac, a + 1 + b))
    else if a == 0 then None
    else Some((intPart, a))
  }

  /** parseFloat(s) for decimal notation: white space, sign, longest decimal prefix. */
  function ParseFloatText(s: string): (r: Json)
    ensures IsNumber(r)
  {
    var t := s[LeadingSpace(s)..];
    var neg := |t| > 0 && t[0] == '-';
    var u := if |t| > 0 && (t[0] == '-' || t[0] == '+') then t[1..] else t;
    match DecimalPrefix(u)
    case None => JNaN
    case Some((x, _)) => JNum(if neg then -x else x)
  }

  /** Number(s) for decimal notation: the whole trimmed text must be a number, "" is 0. */
  function StringToNumber(s: string): (r: Json)
    ensures IsNumber(r)
  {
    var t := Trim(s);
    if t == "" then JNum(0.0)
    else
      var neg := t[0] == '-';
      var u := if t[0] == '-' || t[0] == '+' then t[1..] else t;
      match DecimalPrefix(u)
      case None => JNaN
      case Some((x, n)) => if n == |u| then JNum(if neg then -x else x) else JNaN
  }

  /** Number(v). */
  function ToNumber(v: Json): (r: Json)
    ensures IsNumber(r)
    ensures IsNumber(v) ==> r == v
    ensures v.JNull? ==> r == JNum(0.0)
    ensures v.JObj? ==> r == JNaN
  {
    match v
    case JNull => JNum(0.0)
    case JBool(b) => JNum(if b then 1.0 else 0.0)
    case JNum(n) => v
    case JNaN => v
    case JStr(s) => StringToNumber(s)
    case JArr(_) => StringToNumber(ToJsString(v))
    case JObj(_) => JNaN
  }

  /** `x || 0` read as a number (as `+`, `-` and `>` read it). */
  function NumberOrZero(o: Option<Json>): (r: real)
    ensures !Present(o) ==> r == 0.0
    ensures Present(o) && ToNumber(o.value).JNum? ==> r == ToNumber(o.value).n
  {
    if Present(o) && ToNumber(o.value).JNum? then ToNumber(o.value).n else 0.0
  }

  /** `x / 5`. */
  function DivideBy5(x: Json): (r: Json)
    ensures IsNumber(r)
  {
    var y := ToNumber(x);
    if y.JNum? then JNum(y.n / 5.0) else JNaN
  }

  /** `x > b` for a number b: x is converted to a number, NaN compares false. */
  predicate Greater(x: Json, b: real) {
    var y := ToNumber(x);
    y.JNum? && y.n > b
  }

  // -------------------------------------------------------------------- lemmas

  lemma {:induction false} NatTextValue(n: nat)
    ensures DigitsValue(NatText(n)) == n
  {
    if n >= 10 {
      NatTextValue(n / 10);
      var s := NatText(n);
      assert s[..|s| - 1] == NatText(n / 10);
    }
  }

  /** A digit run found by the regular expression starts at the first digit and
      ends at the next non-digit (or the end of the text). */
  lemma FirstDigitRunPosition(s: string)
    requires FirstDigitRun(s).Some?
    ensures var i := FirstDigit(s); var r := FirstDigitRun(s).value;
      i + |r| <= |s| && s[i..i + |r|] == r && (i + |r| == |s| || !IsDigit(s[i + |r|]))
  {
    var i := FirstDigit(s);
    var n := DigitPrefix(s[i..]);
    assert s[i..][..n] == s[i..i + n];
  }

  /** parseInt of a digit string is its value. */
  lemma {:induction false} ParseIntOfDigits(s: string)
    requires |s| > 0 && AllDigits(s)
    ensures ParseIntText(s) == Some(DigitsValue(s) as int)
  {
    assert LeadingSpace(s) == 0 by { assert !IsJsSpace(s[0]); }
    assert s[0..] == s;
    DigitPrefixAll(s);
    assert s[..|s|] == s;
  }

  lemma {:induction false} DigitPrefixAll(s: string)
    requires AllDigits(s)
    ensures DigitPrefix(s) == |s|
  {
    if |s| > 0 {
      assert AllDigits(s[1..]) by {
        forall i | 0 <= i < |s[1..]| ensures IsDigit(s[1..][i]) { assert s[1..][i] == s[i + 1]; }
      }
      DigitPrefixAll(s[1..]);
    }
  }

  lemma ParseIntNatText(n: nat)
    ensures ParseIntText(NatText(n)) == Some(n)
  {
    ParseIntOfDigits(NatText(n));
    NatTextValue(n);
  }
}
