/** Small value helpers shared by the store's server routes and client components:
    an Option type for nullable and optional fields, JavaScript truthiness for the
    `||`, `??` and `if (x)` tests the code relies on, and the string primitives
    (`includes`, `toLowerCase`, `parseInt`, `String.length`) that the components use. */
module Common {

  datatype Option<+T> = None | Some(value: T)

  /** `x ?? d`: the value when it is neither null nor undefined. */
  function OrElse<T>(o: Option<T>, d: T): T {
    match o
    case Some(v) => v
    case None => d
  }

  /** A nullable or optional number is truthy when present and not 0. */
  predicate IntTruthy(o: Option<int>) {
    o.Some? && o.value != 0
  }

  /** A nullable or optional string is truthy when present and not empty. */
  predicate StrTruthy(o: Option<string>) {
    o.Some? && o.value != ""
  }

  /** `x || null` on an optional number: a falsy id is stored as null. */
  function IntOrNull(o: Option<int>): (r: Option<int>)
    ensures r.Some? <==> IntTruthy(o)
    ensures r.Some? ==> r == o
  {
    if IntTruthy(o) then o else None
  }

  /** `s || d` on an optional string. */
  function StrOr(o: Option<string>, d: string): (r: string)
    ensures StrTruthy(o) ==> r == o.value
    ensures !StrTruthy(o) ==> r == d
  {
    if StrTruthy(o) then o.value else d
  }

  /** `a.includes(b)` / Prisma's `contains`: `b` occurs in `a` at some offset. */
  predicate Contains(a: string, b: string) {
    exists i :: 0 <= i <= |a| && b <= a[i..]
  }

  predicate IsAsciiUpper(c: char) { 'A' <= c <= 'Z' }

  /** `toLowerCase` of one character, as far as any ASCII comparison can tell:
      the ASCII capitals are lowered, KELVIN SIGN lowers to `k` and LATIN
      CAPITAL LETTER I WITH DOT ABOVE to `i` and a combining dot. These are
      the only characters whose lowercase holds an ASCII character; every
      other character is kept, and its lowercase is non-ASCII like itself. */
  function LowerOne(c: char): (r: string)
    ensures IsAsciiUpper(c) ==> r == [(c as int + 32) as char]
    ensures !IsAsciiUpper(c) && c != '\U{212A}' && c != '\U{0130}' ==> r == [c]
    ensures |r| == 1 || r == ['i', '\U{0307}']
  {
    if IsAsciiUpper(c) then [(c as int + 32) as char]
    else if c == '\U{212A}' then ['k']
    else if c == '\U{0130}' then ['i', '\U{0307}']
    else [c]
  }

  function ToLower(s: string): string {
    if s == [] then [] else LowerOne(s[0]) + ToLower(s[1..])
  }

  lemma {:induction false} ToLowerConcat(a: string, b: string)
    ensures ToLower(a + b) == ToLower(a) + ToLower(b)
  {
    if a != [] {
      assert (a + b)[1..] == a[1..] + b;
      ToLowerConcat(a[1..], b);
    } else {
      assert a + b == b;
    }
  }

  /** A string with no character that lowers to something else is kept. */
  lemma {:induction false} ToLowerKeeps(s: string)
    requires forall k :: 0 <= k < |s| ==> !IsAsciiUpper(s[k]) && s[k] != '\U{212A}' && s[k] != '\U{0130}'
    ensures ToLower(s) == s
  {
    if s != [] {
      ToLowerKeeps(s[1..]);
      assert s == [s[0]] + s[1..];
    }
  }

  /** Lowering twice is lowering once. */
  lemma {:induction false} ToLowerIdempotent(s: string)
    ensures ToLower(ToLower(s)) == ToLower(s)
  {
    if s != [] {
      var head := LowerOne(s[0]);
      ToLowerConcat(head, ToLower(s[1..]));
      ToLowerIdempotent(s[1..]);
      if |head| == 1 {
        assert ToLower(head) == LowerOne(head[0]) + ToLower([]);
      } else {
        assert head[1..] == ['\U{0307}'];
        assert ToLower(head) == LowerOne('i') + (LowerOne('\U{0307}') + ToLower([]));
      }
    }
  }

  predicate IsDigit(c: char) { '0' <= c <= '9' }

  /** The whitespace class `\s` of JavaScript regular expressions (and of
      `parseInt`'s leading-space skip): the ASCII spaces, the Unicode space
      separators, the line terminators and the byte-order mark. */
  predicate IsJsSpace(c: char) {
    var n := c as int;
    n == 0x09 || n == 0x0A || n == 0x0B || n == 0x0C || n == 0x0D || n == 0x20 ||
    n == 0xA0 || n == 0x1680 || (0x2000 <= n <= 0x200A) || n == 0x2028 || n == 0x2029 ||
    n == 0x202F || n == 0x205F || n == 0x3000 || n == 0xFEFF
  }

  /** `String.length` counts UTF-16 code units: a character outside the basic
      multilingual plane counts twice. */
  function Utf16Length(s: string): (n: nat)
    ensures n >= |s|
    ensures n <= 2 * |s|
  {
    if s == [] then 0
    else (if s[0] as int > 0xFFFF then 2 else 1) + Utf16Length(s[1..])
  }

  function DigitValue(c: char): (d: nat)
    requires IsDigit(c)
    ensures d < 10
  {
    c as int - '0' as int
  }

  /** Number of leading decimal digits of `s`. */
  function DigitRun(s: string): (n: nat)
    ensures n <= |s|
    ensures forall i :: 0 <= i < n ==> IsDigit(s[i])
    ensures n < |s| ==> !IsDigit(s[n])
  {
    if s != [] && IsDigit(s[0]) then 1 + DigitRun(s[1..]) else 0
  }

  /** The value of a string of decimal digits. */
  function DecimalValue(s: string): (v: nat)
    requires forall i :: 0 <= i < |s| ==> IsDigit(s[i])
  {
    if s == [] then 0 else 10 * DecimalValue(s[..|s| - 1]) + DigitValue(s[|s| - 1])
  }

  function SkipSpaces(s: string): (r: string)
    ensures |r| <= |s| && r == s[|s| - |r|..]
    ensures r != [] ==> !IsJsSpace(r[0])
  {
    if s != [] && IsJsSpace(s[0]) then SkipSpaces(s[1..]) else s
  }

  /** `parseInt(s)` in base 10 on what a form field delivers: leading whitespace
      is skipped, one optional sign is read, then the longest run of digits;
      with no digit the result is NaN, here `None`. */
  function ParseInt(s: string): Option<int> {
    var t := SkipSpaces(s);
    var negative := t != [] && t[0] == '-';
    var u := if t != [] && (t[0] == '-' || t[0] == '+') then t[1..] else t;
    var n := DigitRun(u);
    if n == 0 then None
    else
      var v: int := DecimalValue(u[..n]);
      Some(if negative then -v else v)
  }

  /** Decimal rendering of an integer, as template literals print one. */
  function NatToString(n: nat): (s: string)
    ensures s != []
    ensures forall i :: 0 <= i < |s| ==> IsDigit(s[i])
  {
    var d := ['0' + (n % 10) as char];
    if n < 10 then d else NatToString(n / 10) + d
  }

  function IntToString(i: int): (s: string)
    ensures s != []
  {
    if i >= 0 then NatToString(i) else "-" + NatToString(-i)
  }

  lemma {:induction false} NatToStringRoundTrip(n: nat)
    ensures DecimalValue(NatToString(n)) == n
  {
    var s := NatToString(n);
    if n >= 10 {
      NatToStringRoundTrip(n / 10);
      assert s[..|s| - 1] == NatToString(n / 10);
    }
  }

  lemma {:induction false} DigitRunOfDigits(s: string)
    requires forall i :: 0 <= i < |s| ==> IsDigit(s[i])
    ensures DigitRun(s) == |s|
  {
    if s != [] {
      DigitRunOfDigits(s[1..]);
    }
  }

  lemma SkipSpacesAtDigit(s: string)
    requires s != [] && IsDigit(s[0])
    ensures SkipSpaces(s) == s
  {
    assert !IsJsSpace(s[0]);
  }

  /** `parseInt` reads back every integer that `IntToString` renders. */
  lemma ParseIntRoundTrip(i: int)
    ensures ParseInt(IntToString(i)) == Some(i)
  {
    var n: nat := if i >= 0 then i else -i;
    var d := NatToString(n);
    DigitRunOfDigits(d);
    NatToStringRoundTrip(n);
    assert d[..|d|] == d;
    if i < 0 {
      var s := "-" + d;
      assert !IsJsSpace(s[0]);
      assert SkipSpaces(s) == s;
      assert s[1..] == d;
    } else {
      SkipSpacesAtDigit(d);
    }
  }
}
