/**
 The JavaScript string built-ins the client relies on: `trim`, the regular-expression
 class `\s`, `toUpperCase`, the relational `<`/`>` on strings, `Array.prototype.join`
 and `String(n).padStart(2, "0")`. Strings are sequences of Unicode scalar values.
 */
module Text {

  /** White space as ECMAScript defines it for `trim` and `\s`:
      the WhiteSpace and LineTerminator code points. */
  predicate IsSpace(c: char) {
    || c == '\t' || c == '\n' || c == '\U{000B}' || c == '\U{000C}' || c == '\r'
    || c == ' ' || c == '\U{00A0}' || c == '\U{1680}'
    || ('\U{2000}' <= c <= '\U{200A}')
    || c == '\U{2028}' || c == '\U{2029}' || c == '\U{202F}' || c == '\U{205F}'
    || c == '\U{3000}' || c == '\U{FEFF}'
  }

  predicate AllSpace(s: string) {
    forall i :: 0 <= i < |s| ==> IsSpace(s[i])
  }

  /** A non-empty run of characters none of which is white space. */
  predicate IsWord(s: string) {
    s != [] && forall i :: 0 <= i < |s| ==> !IsSpace(s[i])
  }

  /** `trimStart`: drops the leading white space. */
  function TrimStart(s: string): (r: string)
    ensures |r| <= |s| && r == s[|s| - |r|..]
    ensures AllSpace(s[..|s| - |r|])
    ensures r == [] || !IsSpace(r[0])
  {
    if s != [] && IsSpace(s[0]) then TrimStart(s[1..]) else s
  }

  /** `trimEnd`: drops the trailing white space. */
  function TrimEnd(s: string): (r: string)
    ensures |r| <= |s| && r == s[..|r|]
    ensures AllSpace(s[|r|..])
    ensures r == [] || !IsSpace(r[|r| - 1])
  {
    if s != [] && IsSpace(s[|s| - 1]) then TrimEnd(s[..|s| - 1]) else s
  }

  /** `String.prototype.trim`. */
  function Trim(s: string): string {
    TrimEnd(TrimStart(s))
  }

  /** `s.trim()` is empty exactly when `s` is blank. */
  lemma TrimBlank(s: string)
    ensures Trim(s) == [] <==> AllSpace(s)
  {
    var t := TrimStart(s);
    var k := |s| - |t|;
    if AllSpace(s) {
      if t != [] {
        assert t[0] == s[k];
      }
    }
    if Trim(s) == [] {
      assert t[|TrimEnd(t)|..] == t;
      assert t == [];
      assert s[..k] == s;
    }
  }

  predicate IsAsciiLower(c: char) {
    'a' <= c <= 'z'
  }

  /** The lower-case letters of ASCII and Latin-1 whose capital is 0x20 below them:
      a-z and à-þ, except the sign ÷. */
  predicate IsShiftedLower(c: char) {
    IsAsciiLower(c) || ('\U{00E0}' <= c <= '\U{00FE}' && c != '\U{00F7}')
  }

  /** `toUpperCase` on one character, for the ASCII and Latin-1 letters:
      a-z and à-þ (except ÷) move down by 0x20, ÿ becomes Ÿ; everything else is kept. */
  function UpperChar(c: char): (u: char)
    ensures !IsAsciiLower(u)
    ensures IsShiftedLower(c) ==> u as int == c as int - 0x20
    ensures c == '\U{00FF}' ==> u == '\U{0178}'
    ensures !IsShiftedLower(c) && c != '\U{00FF}' ==> u == c
    ensures IsAsciiLower(c) ==> 'A' <= u <= 'Z'
  {
    if IsShiftedLower(c) then
      (c as int - 0x20) as char
    else if c == '\U{00FF}' then
      '\U{0178}'
    else
      c
  }

  /** `String.prototype.toUpperCase`, one character at a time. */
  function ToUpper(s: string): (r: string)
    ensures |r| == |s|
    ensures forall i :: 0 <= i < |r| ==> r[i] == UpperChar(s[i])
  {
    seq(|s|, i requires 0 <= i < |s| => UpperChar(s[i]))
  }

  /** `a < b` on strings: lexicographic order of the characters, a proper prefix first. */
  predicate StrLt(a: string, b: string)
    decreases |a|
  {
    |b| > 0 && (|a| == 0 || a[0] < b[0] || (a[0] == b[0] && StrLt(a[1..], b[1..])))
  }

  lemma StrLtIrreflexive(a: string)
    ensures !StrLt(a, a)
  {
    if |a| > 0 {
      StrLtIrreflexive(a[1..]);
    }
  }

  lemma StrLtTransitive(a: string, b: string, c: string)
    requires StrLt(a, b) && StrLt(b, c)
    ensures StrLt(a, c)
  {
    if |a| > 0 && a[0] == b[0] && b[0] == c[0] {
      StrLtTransitive(a[1..], b[1..], c[1..]);
    }
  }

  /** Any two strings are equal or ordered one way or the other. */
  lemma StrLtTrichotomy(a: string, b: string)
    ensures a == b || StrLt(a, b) || StrLt(b, a)
  {
    if |a| > 0 && |b| > 0 && a[0] == b[0] {
      StrLtTrichotomy(a[1..], b[1..]);
      if a[1..] == b[1..] {
        assert a == [a[0]] + a[1..] && b == [b[0]] + b[1..];
      }
    }
  }

  lemma StrLtAsymmetric(a: string, b: string)
    requires StrLt(a, b)
    ensures !StrLt(b, a)
  {
    if StrLt(b, a) {
      StrLtTransitive(a, b, a);
      StrLtIrreflexive(a);
    }
  }

  /** `!(a > b)`: `a` sorts no later than `b`. */
  predicate StrLe(a: string, b: string) {
    !StrLt(b, a)
  }

  lemma StrLeTransitive(a: string, b: string, c: string)
    requires StrLe(a, b) && StrLe(b, c)
    ensures StrLe(a, c)
  {
    if StrLt(c, a) {
      StrLtTrichotomy(b, c);
      if StrLt(b, c) {
        StrLtTransitive(b, c, a);
      }
    }
  }

  /** `s || fallback` for a string `s`. */
  function OrElse(s: string, fallback: string): (r: string)
    ensures s != [] ==> r == s
    ensures s == [] ==> r == fallback
  {
    if s != [] then s else fallback
  }

  /** `Array.prototype.join(sep)`. */
  function Join(xs: seq<string>, sep: string): string {
    if |xs| == 0 then []
    else if |xs| == 1 then xs[0]
    else Join(xs[..|xs| - 1], sep) + sep + xs[|xs| - 1]
  }

  /** The total length of the strings in `xs`. */
  function TotalLength(xs: seq<string>): nat {
    if xs == [] then 0 else TotalLength(xs[..|xs| - 1]) + |xs[|xs| - 1]|
  }

  /** The joined string is as long as the elements together plus one separator for each
      pair of neighbours. */
  lemma {:induction false} JoinLength(xs: seq<string>, sep: string)
    requires xs != []
    ensures |Join(xs, sep)| == TotalLength(xs) + (|xs| - 1) * |sep|
  {
    if |xs| == 1 {
      assert xs[..0] == [];
    } else {
      JoinLength(xs[..|xs| - 1], sep);
    }
  }

  /** Joining two non-empty lists one after the other is joining their concatenation. */
  lemma {:induction false} JoinConcat(xs: seq<string>, ys: seq<string>, sep: string)
    requires xs != [] && ys != []
    ensures Join(xs + ys, sep) == Join(xs, sep) + sep + Join(ys, sep)
    decreases |ys|
  {
    var n := |ys| - 1;
    if n == 0 {
      assert (xs + ys)[..|xs + ys| - 1] == xs;
    } else {
      assert (xs + ys)[..|xs + ys| - 1] == xs + ys[..n];
      JoinConcat(xs, ys[..n], sep);
    }
  }

  /** Read from the front: the first element, a separator, then the rest joined. */
  lemma JoinCons(x: string, xs: seq<string>, sep: string)
    requires xs != []
    ensures Join([x] + xs, sep) == x + sep + Join(xs, sep)
  {
    JoinConcat([x], xs, sep);
  }

  /** The elements appear in order, each followed by a separator except the last. */
  lemma {:induction false} JoinSpelled(xs: seq<string>, sep: string)
    ensures |xs| == 0 ==> Join(xs, sep) == []
    ensures |xs| == 1 ==> Join(xs, sep) == xs[0]
    ensures |xs| >= 2 ==> Join(xs, sep) == xs[0] + sep + Join(xs[1..], sep)
  {
    if |xs| >= 2 {
      assert xs == [xs[0]] + xs[1..];
      JoinCons(xs[0], xs[1..], sep);
    }
  }

  /** Sequence concatenation is associative. */
  lemma ConcatAssoc<T>(a: seq<T>, b: seq<T>, c: seq<T>)
    ensures a + (b + c) == (a + b) + c
  {
  }

  predicate IsDigit(c: char) {
    '0' <= c <= '9'
  }

  function DigitValue(c: char): nat
    requires IsDigit(c)
  {
    c as int - '0' as int
  }

  function DigitChar(d: nat): (c: char)
    requires d < 10
    ensures IsDigit(c) && DigitValue(c) == d
  {
    ('0' as int + d) as char
  }

  /** `String(n)` for a natural number: its decimal digits without leading zeros. */
  function DecimalString(n: nat): (s: string)
    ensures |s| >= 1
  {
    if n < 10 then [DigitChar(n)] else DecimalString(n / 10) + [DigitChar(n % 10)]
  }

  /** `s.padStart(width, fill)` for a one-character fill: `fill` goes in front until
      the string is `width` long. */
  function PadStart(s: string, width: nat, fill: char): (r: string)
    ensures |r| == if |s| >= width then |s| else width
    decreases width - |s|
  {
    if |s| >= width then s else PadStart([fill] + s, width, fill)
  }

  /** `String(n).padStart(2, "0")`. */
  function Pad2(n: nat): string {
    PadStart(DecimalString(n), 2, '0')
  }

  /** For n below 100, the two-digit form holds the tens and the units digit. */
  lemma Pad2Digits(n: nat)
    requires n < 100
    ensures Pad2(n) == [DigitChar(n / 10), DigitChar(n % 10)]
  {
    if n >= 10 {
      assert DecimalString(n / 10) == [DigitChar(n / 10)];
    } else {
      assert PadStart([DigitChar(n)], 2, '0') == PadStart(['0'] + [DigitChar(n)], 2, '0');
    }
  }
}
