/** JavaScript primitive semantics that the page handlers rely on: dynamic values,
    truthiness, the string methods they call (trim, toLowerCase, toUpperCase, includes),
    the numeric conversions (parseFloat, parseInt, Number(), Math.round) and the
    formatting helpers (String(n), padStart). Only the decimal, ASCII subset that the
    back-office inputs produce is modelled. */
module Js {

  datatype Option<T> = None | Some(value: T)

  /** What an event handler ends in: an error toast and no request, a dismissed
      confirmation dialog, or a request sent. */
  datatype Outcome<R> = Refused(reason: string) | Cancelled | Sent(request: R)

  /** A primitive as it appears in component state: input boxes hold strings, JSON
      responses hold numbers, booleans and null, a missing property is undefined.
      Strict equality `===` on primitives is equality of these values. */
  datatype Val = Undefined | Null | Bool(b: bool) | Number(n: real) | Str(s: string)

  /** A JavaScript number: NaN or a finite value. */
  datatype Num = NaN | Fin(v: real)

  predicate Truthy(v: Val) {
    match v
    case Undefined => false
    case Null => false
    case Bool(b) => b
    case Number(n) => n != 0.0
    case Str(s) => s != ""
  }

  /** `v || d` */
  function Or(v: Val, d: Val): (r: Val)
    ensures Truthy(v) ==> r == v
    ensures !Truthy(v) ==> r == d
  {
    if Truthy(v) then v else d
  }

  /** `(v || 0) > 0` is `v > 0`: every falsy value converts to 0 or NaN. */
  lemma OrZeroPositive(v: Val)
    ensures Greater(ToNumberVal(Or(v, Number(0.0))), 0.0) <==> Greater(ToNumberVal(v), 0.0)
  {
  }

  /** `n || 0` for a number: NaN and 0 both fall back to 0. */
  function OrZero(n: Num): (r: real)
    ensures n.Fin? ==> r == n.v
    ensures n.NaN? ==> r == 0.0
  {
    if n.Fin? then n.v else 0.0
  }

  /** `a > b` on numbers: any comparison with NaN is false. */
  predicate Greater(n: Num, bound: real) {
    n.Fin? && n.v > bound
  }

  predicate AtLeast(n: Num, bound: real) {
    n.Fin? && n.v >= bound
  }

  // ---------------------------------------------------------------- strings

  /** The characters `trim`, `parseFloat` and `Number()` skip: white space
      (tab, vertical tab, form feed, the space separators, the no-break space
      and the byte order mark) and the line terminators. */
  predicate IsSpace(c: char) {
    c == '\t' || c == '\n' || c == '\U{000B}' || c == '\U{000C}' || c == '\r' || c == ' '
    || c == '\U{00A0}' || c == '\U{1680}' || '\U{2000}' <= c <= '\U{200A}'
    || c == '\U{2028}' || c == '\U{2029}' || c == '\U{202F}' || c == '\U{205F}'
    || c == '\U{3000}' || c == '\U{FEFF}'
  }

  function TrimStart(s: string): (r: string)
    ensures |r| <= |s| && r == s[|s| - |r|..]
    ensures r != [] ==> !IsSpace(r[0])
    ensures forall i :: 0 <= i < |s| - |r| ==> IsSpace(s[i])
  {
    if s != [] && IsSpace(s[0]) then
      var r := TrimStart(s[1..]);
      assert forall i :: 1 <= i < |s| - |r| ==> s[i] == s[1..][i - 1];
      r
    else s
  }

  function TrimEnd(s: string): (r: string)
    ensures |r| <= |s| && r == s[..|r|]
    ensures r != [] ==> !IsSpace(r[|r| - 1])
    ensures forall i :: |r| <= i < |s| ==> IsSpace(s[i])
  {
    if s != [] && IsSpace(s[|s| - 1]) then TrimEnd(s[..|s| - 1]) else s
  }

  /** `s.trim()` */
  function Trim(s: string): string {
    TrimEnd(TrimStart(s))
  }

  /** A trimmed string neither starts nor ends with white space. */
  lemma TrimEnds(s: string)
    ensures Trim(s) != [] ==> !IsSpace(Trim(s)[0]) && !IsSpace(Trim(s)[|Trim(s)| - 1])
  {
    var t := TrimStart(s);
    var r := TrimEnd(t);
    if r != [] {
      assert r == t[..|r|];
      assert r[0] == t[0];
    }
  }

  /** `s.trim() === ''`, i.e. `!s.trim()` */
  predicate IsBlank(s: string) {
    Trim(s) == ""
  }

  /** A string is blank exactly when every character is white space. */
  lemma BlankIffAllSpace(s: string)
    ensures IsBlank(s) <==> forall i :: 0 <= i < |s| ==> IsSpace(s[i])
  {
  }

  function LowerChar(c: char): char {
    if 'A' <= c <= 'Z' then (c as int + 32) as char else c
  }

  function UpperChar(c: char): char {
    if 'a' <= c <= 'z' then (c as int - 32) as char else c
  }

  /** `s.toLowerCase()` on ASCII letters. */
  function ToLower(s: string): (r: string)
    ensures |r| == |s|
    ensures forall i :: 0 <= i < |s| ==> r[i] == LowerChar(s[i])
  {
    seq(|s|, i requires 0 <= i < |s| => LowerChar(s[i]))
  }

  /** `s.toUpperCase()` on ASCII letters. */
  function ToUpper(s: string): (r: string)
    ensures |r| == |s|
    ensures forall i :: 0 <= i < |s| ==> r[i] == UpperChar(s[i])
  {
    seq(|s|, i requires 0 <= i < |s| => UpperChar(s[i]))
  }

  /** `s.length`: the number of UTF-16 code units, two for a character beyond
      the Basic Multilingual Plane. */
  function Utf16Length(s: string): (n: nat)
    ensures |s| <= n <= 2 * |s|
    ensures (forall i :: 0 <= i < |s| ==> (s[i] as int) < 0x1_0000) ==> n == |s|
  {
    if s == [] then 0
    else Utf16Length(s[..|s| - 1]) + (if (s[|s| - 1] as int) < 0x1_0000 then 1 else 2)
  }

  /** `s.includes(sub)` */
  predicate Includes(s: string, sub: string) {
    exists i :: 0 <= i <= |s| - |sub| && sub <= s[i..]
  }

  /** Concatenation is associative; stated on its own so that a proof about a
      filter can use it without the filter's other facts in scope. */
  lemma ConcatAssoc<T>(x: seq<T>, y: seq<T>, z: seq<T>)
    ensures x + (y + z) == (x + y) + z
  {
  }

  /** Every string includes the empty string; a string includes itself. */
  lemma IncludesTrivial(s: string)
    ensures Includes(s, "") && Includes(s, s)
  {
    assert "" <= s[0..];
    assert s <= s[0..];
  }

  /** `includes` is transitive through the parts: a string that includes `u + v`
      includes `u`. */
  lemma IncludesPrefix(s: string, u: string, v: string)
    requires Includes(s, u + v)
    ensures Includes(s, u)
  {
    var i :| 0 <= i <= |s| - |u + v| && u + v <= s[i..];
    assert u <= s[i..];
  }

  /** Inclusion is transitive: a text containing `u` contains whatever `u`
      contains. */
  lemma IncludesTransitive(s: string, u: string, v: string)
    requires Includes(s, u) && Includes(u, v)
    ensures Includes(s, v)
  {
    var i :| 0 <= i <= |s| - |u| && u <= s[i..];
    var j :| 0 <= j <= |u| - |v| && v <= u[j..];
    forall k | 0 <= k < |v| ensures v[k] == s[i + j..][k] {
      assert v[k] == u[j + k] == s[i + j + k];
    }
    assert v <= s[i + j..];
  }

  /** Lowercasing forgets the case the letters were typed in. */
  lemma LowerOfUpper(s: string)
    ensures ToLower(ToUpper(s)) == ToLower(s)
  {
  }

  // ---------------------------------------------------------------- numbers

  predicate IsDigit(c: char) {
    '0' <= c <= '9'
  }

  function DigitVal(c: char): nat
    requires IsDigit(c)
  {
    c as int - '0' as int
  }

  function Digit(d: nat): (c: char)
    requires d < 10
    ensures IsDigit(c) && DigitVal(c) == d
  {
    ('0' as int + d) as char
  }

  function Pow10(n: nat): (r: nat)
    ensures r >= 1
  {
    if n == 0 then 1 else 10 * Pow10(n - 1)
  }

  /** `10 ** k` for a signed exponent. */
  function Scale(k: int): (r: real)
    ensures r > 0.0
  {
    if k >= 0 then Pow10(k) as real else 1.0 / Pow10(-k) as real
  }

  /** Length of the run of decimal digits at the start of `s`. */
  function DigitRun(s: string): (n: nat)
    ensures n <= |s|
    ensures forall i :: 0 <= i < n ==> IsDigit(s[i])
    ensures n < |s| ==> !IsDigit(s[n])
  {
    if s != [] && IsDigit(s[0]) then 1 + DigitRun(s[1..]) else 0
  }

  predicate AllDigits(d: string) {
    forall i :: 0 <= i < |d| ==> IsDigit(d[i])
  }

  /** The value of a string of decimal digits, read most significant first. */
  function DigitsValue(d: string): nat
    requires AllDigits(d)
  {
    if d == [] then 0 else DigitsValue(d[..|d| - 1]) * 10 + DigitVal(d[|d| - 1])
  }

  /** The exponent part `e[+-]digits` at the start of `u`: its value and length. */
  function ScanExponent(u: string): Option<(int, nat)> {
    if |u| < 2 || (u[0] != 'e' && u[0] != 'E') then None
    else
      var signLen := if u[1] == '+' || u[1] == '-' then 1 else 0;
      var rest := u[1 + signLen..];
      var k := DigitRun(rest);
      if k == 0 then None
      else
        var mag: int := DigitsValue(rest[..k]);
        var len: nat := 1 + signLen + k;
        Some((if u[1] == '-' then -mag else mag, len))
  }

  /** The longest prefix of `t` that is an unsigned decimal literal
      (`digits`, `digits.`, `.digits`, `digits.digits`, each with an optional
      exponent): its value and its length; None when `t` starts with no digit. */
  function ScanUnsigned(t: string): (r: Option<(real, nat)>)
    ensures r.Some? ==> 0 < r.value.1 <= |t|
    ensures t != [] && IsDigit(t[0]) ==> r.Some?
    ensures r.Some? ==> IsDigit(t[0]) || t[0] == '.'
  {
    var a := DigitRun(t);
    var hasDot := a < |t| && t[a] == '.';
    var b := if hasDot then DigitRun(t[a + 1..]) else 0;
    if a == 0 && b == 0 then None
    else
      var mant := DigitsValue(t[..a]) as real
        + (if hasDot then DigitsValue(t[a + 1..a + 1 + b]) as real / Pow10(b) as real else 0.0);
      var m := if hasDot then a + 1 + b else a;
      match ScanExponent(t[m..])
      case None => Some((mant, m))
      case Some(e) => Some((mant * Scale(e.0), m + e.1))
  }

  /** A leading sign: its length (0 or 1) and the factor it applies. */
  function SignLen(t: string): nat {
    if t != [] && (t[0] == '+' || t[0] == '-') then 1 else 0
  }

  function SignFactor(t: string): real {
    if t != [] && t[0] == '-' then -1.0 else 1.0
  }

  /** `parseFloat(s)`: skips leading white space and reads the longest decimal
      prefix; NaN when there is none. */
  function ParseFloat(s: string): (r: Num)
    ensures s == "" ==> r == NaN
    ensures var t := TrimStart(s); var u := t[SignLen(t)..];
      (u != [] && IsDigit(u[0]) ==> r.Fin?) && (r.Fin? ==> u != [] && (IsDigit(u[0]) || u[0] == '.'))
  {
    var t := TrimStart(s);
    match ScanUnsigned(t[SignLen(t)..])
    case None => NaN
    case Some(p) => Fin(SignFactor(t) * p.0)
  }

  /** `Number(s)` (also what `s > 0` and `s * x` apply to a string): white space
      around the literal is ignored, the empty string is 0, and anything that is not
      exactly one decimal literal is NaN. */
  function ToNumber(s: string): (r: Num)
    ensures IsBlank(s) ==> r == Fin(0.0)
  {
    var t := Trim(s);
    if t == "" then Fin(0.0)
    else
      var body := t[SignLen(t)..];
      match ScanUnsigned(body)
      case None => NaN
      case Some(p) => if p.1 == |body| then Fin(SignFactor(t) * p.0) else NaN
  }

  /** `parseInt(s, 10)`: white space, an optional sign, then at least one digit. */
  function ParseInt(s: string): (r: Num)
    ensures s == "" ==> r == NaN
    ensures var t := TrimStart(s); var u := t[SignLen(t)..]; r.Fin? <==> u != [] && IsDigit(u[0])
    ensures r.Fin? ==> r.v.Floor as real == r.v
  {
    var t := TrimStart(s);
    var body := t[SignLen(t)..];
    var k := DigitRun(body);
    if k == 0 then NaN
    else
      var mag: int := DigitsValue(body[..k]);
      var n: int := if SignFactor(t) < 0.0 then -mag else mag;
      Fin(n as real)
  }

  /** parseInt applied to a state value: a number is truncated toward zero (its
      decimal text is read up to the point), a string is parsed, anything else is
      NaN. */
  function ParseIntVal(v: Val): (r: Num)
    ensures v.Number? ==> r == Fin(Trunc(v.n) as real)
  {
    match v
    case Number(n) => Fin(Trunc(n) as real)
    case Str(s) => ParseInt(s)
    case _ => NaN
  }

  /** parseFloat applied to a state value: a number is itself, a string is parsed,
      anything else is NaN. */
  function ParseFloatVal(v: Val): Num {
    match v
    case Number(n) => Fin(n)
    case Str(s) => ParseFloat(s)
    case _ => NaN
  }

  /** `Number(v)` on a state value, as `>` and `*` apply it. */
  function ToNumberVal(v: Val): Num {
    match v
    case Undefined => NaN
    case Null => Fin(0.0)
    case Bool(b) => Fin(if b then 1.0 else 0.0)
    case Number(n) => Fin(n)
    case Str(s) => ToNumber(s)
  }

  /** `Math.round(x)`: the nearest integer, halves rounded up. */
  function Round(x: real): (r: int)
    ensures x - 0.5 < r as real <= x + 0.5
  {
    (x + 0.5).Floor
  }

  /** Truncation toward zero, what `parseInt` does to an ordinary number. */
  function Trunc(x: real): (r: int)
    ensures 0.0 <= x ==> 0 <= r && r as real <= x < r as real + 1.0
    ensures x < 0.0 ==> r <= 0 && r as real - 1.0 < x <= r as real
  {
    if x >= 0.0 then x.Floor else -((-x).Floor)
  }

  // ---------------------------------------------------------------- formatting

  /** `String(n)` for a natural number. */
  function NatToString(n: nat): (r: string)
    ensures |r| >= 1 && AllDigits(r)
  {
    if n < 10 then [Digit(n)] else NatToString(n / 10) + [Digit(n % 10)]
  }

  /** `String(n)` for an integer. */
  function IntToString(i: int): string {
    if i < 0 then "-" + NatToString(-i) else NatToString(i)
  }

  /** `s.padStart(width, c)` */
  function PadStart(s: string, width: nat, c: char): (r: string)
    ensures |r| == if |s| >= width then |s| else width
    ensures r[|r| - |s|..] == s
    ensures forall i :: 0 <= i < |r| - |s| ==> r[i] == c
  {
    if |s| >= width then s else seq(width - |s|, _ => c) + s
  }

  /** The digits of `String(n)` read back give `n`. */
  lemma {:induction false} NatToStringValue(n: nat)
    ensures DigitsValue(NatToString(n)) == n
  {
    if n >= 10 {
      NatToStringValue(n / 10);
      var s := NatToString(n);
      assert s[..|s| - 1] == NatToString(n / 10);
    }
  }

  /** `parseInt(String(n))` and `parseFloat(String(n))` give back `n`. */
  lemma ParseNatToString(n: nat)
    ensures ParseInt(NatToString(n)) == Fin(n as real)
    ensures ParseFloat(NatToString(n)) == Fin(n as real)
  {
    var s := NatToString(n);
    DigitsParse(s);
    NatToStringValue(n);
  }

  /** A non-empty digit string parses to its value under both parsers. */
  lemma DigitsParse(s: string)
    requires |s| >= 1 && AllDigits(s)
    ensures ParseInt(s) == Fin(DigitsValue(s) as real)
    ensures ParseFloat(s) == Fin(DigitsValue(s) as real)
  {
    assert TrimStart(s) == s;
    assert SignLen(s) == 0 && s[0..] == s;
    DigitRunAll(s);
    assert s[..|s|] == s;
    assert ScanExponent(s[|s|..]) == None;
  }

  /** A non-empty digit string is a whole number literal for `Number`. */
  lemma DigitsToNumber(s: string)
    requires |s| >= 1 && AllDigits(s)
    ensures ToNumber(s) == Fin(DigitsValue(s) as real)
  {
    assert !IsSpace(s[0]) && !IsSpace(s[|s| - 1]);
    assert TrimStart(s) == s;
    assert TrimEnd(s) == s;
    assert Trim(s) == s;
    assert SignLen(s) == 0 && s[0..] == s;
    ScanDigits(s);
  }

  lemma ScanDigits(s: string)
    requires |s| >= 1 && AllDigits(s)
    ensures ScanUnsigned(s) == Some((DigitsValue(s) as real, |s|))
  {
    DigitRunAll(s);
    assert s[..|s|] == s;
    assert ScanExponent(s[|s|..]) == None;
  }

  lemma {:induction false} DigitRunAll(s: string)
    requires AllDigits(s)
    ensures DigitRun(s) == |s|
  {
    if s != [] {
      DigitRunAll(s[1..]);
    }
  }

  /** A digit string followed by text that does not start with a digit reads
      back, under parseInt, as the digits' value. */
  lemma ParseIntDigitsThen(d: string, rest: string)
    requires |d| >= 1 && AllDigits(d)
    requires rest == [] || !IsDigit(rest[0])
    ensures ParseInt(d + rest) == Fin(DigitsValue(d) as real)
  {
    var s := d + rest;
    DigitRunPrefix(d, rest);
    assert s[..|d|] == d;
    ParseIntOfDigitStart(s);
  }

  /** A string that starts with a digit reads as its leading digit run. */
  lemma ParseIntOfDigitStart(s: string)
    requires |s| >= 1 && IsDigit(s[0])
    ensures DigitRun(s) >= 1
    ensures ParseInt(s) == Fin(DigitsValue(s[..DigitRun(s)]) as real)
  {
    assert !IsSpace(s[0]);
    assert TrimStart(s) == s;
    assert SignLen(s) == 0;
    assert s[SignLen(s)..] == s;
    assert !(SignFactor(s) < 0.0);
  }

  lemma {:induction false} DigitRunPrefix(d: string, rest: string)
    requires AllDigits(d)
    requires rest == [] || !IsDigit(rest[0])
    ensures DigitRun(d + rest) == |d|
  {
    if d == [] {
      assert d + rest == rest;
    } else {
      assert (d + rest)[1..] == d[1..] + rest;
      DigitRunPrefix(d[1..], rest);
    }
  }

  /** `s.slice(-n)` (and `s.substr(-n)`) for n >= 1: the last `n` characters,
      or the whole string when it is shorter. */
  function SliceLast(s: string, n: nat): (r: string)
    requires n >= 1
    ensures |r| == if |s| <= n then |s| else n
    ensures s == s[..|s| - |r|] + r
  {
    if |s| <= n then s else s[|s| - n..]
  }

  /** `parts.join(sep)` */
  function Join(parts: seq<string>, sep: char): string {
    if |parts| == 0 then ""
    else if |parts| == 1 then parts[0]
    else parts[0] + [sep] + Join(parts[1..], sep)
  }

  /** The index of the first `c` in `s`, or `|s|`. */
  function IndexOf(s: string, c: char): (i: nat)
    ensures i <= |s|
    ensures i < |s| ==> s[i] == c
    ensures forall j :: 0 <= j < i ==> s[j] != c
  {
    if s == [] then 0 else if s[0] == c then 0 else 1 + IndexOf(s[1..], c)
  }

  /** `s.split(sep)` */
  function Split(s: string, sep: char): (r: seq<string>)
    ensures |r| >= 1
    decreases |s|
  {
    var i := IndexOf(s, sep);
    if i == |s| then [s] else [s[..i]] + Split(s[i + 1..], sep)
  }

  /** Joining pieces that do not contain the separator and splitting again gives
      the pieces back. */
  lemma {:induction false} SplitJoin(parts: seq<string>, sep: char)
    requires |parts| >= 1
    requires forall i, j :: 0 <= i < |parts| && 0 <= j < |parts[i]| ==> parts[i][j] != sep
    ensures Split(Join(parts, sep), sep) == parts
  {
    var p := parts[0];
    assert forall j :: 0 <= j < |p| ==> p[j] != sep;
    if |parts| == 1 {
      assert IndexOf(p, sep) == |p|;
    } else {
      var rest := Join(parts[1..], sep);
      var s := p + [sep] + rest;
      assert s[|p|] == sep;
      assert IndexOf(s, sep) == |p|;
      assert s[..|p|] == p;
      assert s[|p| + 1..] == rest;
      SplitJoin(parts[1..], sep);
      assert parts == [p] + parts[1..];
    }
  }

  // ---------------------------------------------------------------- reduce

  /** `list.reduce((sum, x) => sum + f(x), 0)` */
  function Sum<T>(s: seq<T>, f: T -> real): real {
    if s == [] then 0.0 else Sum(s[..|s| - 1], f) + f(s[|s| - 1])
  }

  lemma {:induction false} SumAppend<T>(s: seq<T>, t: seq<T>, f: T -> real)
    ensures Sum(s + t, f) == Sum(s, f) + Sum(t, f)
  {
    if t != [] {
      assert (s + t)[..|s + t| - 1] == s + t[..|t| - 1];
      SumAppend(s, t[..|t| - 1], f);
    } else {
      assert s + t == s;
    }
  }

  /** A sum of terms that are never negative is never negative. */
  lemma {:induction false} SumNonNegative<T>(s: seq<T>, f: T -> real)
    requires forall i :: 0 <= i < |s| ==> f(s[i]) >= 0.0
    ensures Sum(s, f) >= 0.0
  {
    if s != [] {
      SumNonNegative(s[..|s| - 1], f);
    }
  }

  /** Two term functions that agree on the list give the same sum. */
  lemma {:induction false} SumCongruent<T>(s: seq<T>, f: T -> real, g: T -> real)
    requires forall i :: 0 <= i < |s| ==> f(s[i]) == g(s[i])
    ensures Sum(s, f) == Sum(s, g)
  {
    if s != [] {
      SumCongruent(s[..|s| - 1], f, g);
    }
  }

  /** Multiplying every term by `c` multiplies the sum by `c`. */
  lemma {:induction false} SumScale<T>(s: seq<T>, f: T -> real, g: T -> real, c: real)
    requires forall i :: 0 <= i < |s| ==> g(s[i]) == c * f(s[i])
    ensures Sum(s, g) == c * Sum(s, f)
  {
    if s != [] {
      SumScale(s[..|s| - 1], f, g, c);
    }
  }

  /** `a + b` on numbers: NaN is absorbing. */
  function Add(a: Num, b: Num): (r: Num)
    ensures r.Fin? <==> a.Fin? && b.Fin?
    ensures r.Fin? ==> r.v == a.v + b.v
  {
    if a.Fin? && b.Fin? then Fin(a.v + b.v) else NaN
  }

  /** `a * b` on numbers: NaN is absorbing. */
  function Mul(a: Num, b: Num): (r: Num)
    ensures r.Fin? <==> a.Fin? && b.Fin?
    ensures r.Fin? ==> r.v == a.v * b.v
  {
    if a.Fin? && b.Fin? then Fin(a.v * b.v) else NaN
  }

  /** `a / b` for a divisor that is not zero (the pages never guard it, so
      callers state it). */
  function Div(a: Num, b: Num): (r: Num)
    requires b != Fin(0.0)
    ensures r.Fin? <==> a.Fin? && b.Fin?
    ensures r.Fin? ==> r.v * b.v == a.v
  {
    if a.Fin? && b.Fin? then Fin(a.v / b.v) else NaN
  }

  /** `list.reduce((sum, x) => sum + f(x), 0)` when a term may be NaN. */
  function SumNum<T>(s: seq<T>, f: T -> Num): Num {
    if s == [] then Fin(0.0) else Add(SumNum(s[..|s| - 1], f), f(s[|s| - 1]))
  }

  lemma {:induction false} SumNumAppend<T>(s: seq<T>, t: seq<T>, f: T -> Num)
    ensures SumNum(s + t, f) == Add(SumNum(s, f), SumNum(t, f))
  {
    if t != [] {
      assert (s + t)[..|s + t| - 1] == s + t[..|t| - 1];
      SumNumAppend(s, t[..|t| - 1], f);
    } else {
      assert s + t == s;
    }
  }

  /** The sum is NaN exactly when some term is; otherwise it is the real sum of
      the terms. */
  lemma {:induction false} SumNumFinite<T>(s: seq<T>, f: T -> Num)
    ensures SumNum(s, f).Fin? <==> forall i :: 0 <= i < |s| ==> f(s[i]).Fin?
    ensures SumNum(s, f).Fin? ==> SumNum(s, f).v == Sum(s, x => OrZero(f(x)))
  {
    if s != [] {
      var init := s[..|s| - 1];
      SumNumFinite(init, f);
      assert forall i :: 0 <= i < |init| ==> init[i] == s[i];
    }
  }
}
