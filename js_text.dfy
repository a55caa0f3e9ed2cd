/**
 * String operations with the semantics of the JavaScript built-ins the
 * components call: the `\D` filter, `trim`, ASCII `toLowerCase`, `includes`,
 * `split`, `String(n)`, `parseInt` and the relational `<` on strings.
 * Strings are sequences of characters; the model compares code points
 * where JavaScript compares UTF-16 code units (the two agree on the BMP).
 */
module JsText {

  datatype Option<T> = None | Some(value: T)

  // ---------------------------------------------------------------------
  // Digits and the `\D` filter
  // ---------------------------------------------------------------------

  /** `\d` in a JavaScript regular expression without the `u` flag. */
  predicate IsDigit(c: char) {
    '0' <= c <= '9'
  }

  predicate AllDigits(s: string) {
    forall i | 0 <= i < |s| :: IsDigit(s[i])
  }

  /** `s.replace(/\D/g, '')`: the decimal digits of `s`, in order. */
  function DigitsOf(s: string): (r: string)
    ensures AllDigits(r)
    ensures |r| <= |s|
  {
    if s == [] then [] else (if IsDigit(s[0]) then [s[0]] else []) + DigitsOf(s[1..])
  }

  lemma {:induction false} DigitsOfAppend(a: string, b: string)
    ensures DigitsOf(a + b) == DigitsOf(a) + DigitsOf(b)
  {
    if a == [] {
      assert a + b == b;
    } else {
      assert (a + b)[1..] == a[1..] + b;
      DigitsOfAppend(a[1..], b);
    }
  }

  /** The filter removes nothing exactly when the string is all digits. */
  lemma {:induction false} DigitsOfFixpoint(s: string)
    ensures DigitsOf(s) == s <==> AllDigits(s)
  {
    if s != [] {
      DigitsOfFixpoint(s[1..]);
      if !IsDigit(s[0]) {
        assert |DigitsOf(s)| < |s| by {
          assert DigitsOf(s) == DigitsOf(s[1..]);
        }
      }
    }
  }

  // ---------------------------------------------------------------------
  // Whitespace and `trim`
  // ---------------------------------------------------------------------

  /**
   * WhiteSpace and LineTerminator of ECMAScript: what `trim`, `parseInt`
   * and `\s` skip.
   */
  predicate IsJsWhitespace(c: char) {
    c == '\t' || c == '\n' || c == '\U{000B}' || c == '\U{000C}' || c == '\r' || c == ' '
    || c == '\U{00A0}' || c == '\U{1680}' || ('\U{2000}' <= c <= '\U{200A}')
    || c == '\U{2028}' || c == '\U{2029}' || c == '\U{202F}' || c == '\U{205F}'
    || c == '\U{3000}' || c == '\U{FEFF}'
  }

  /** `s.trimStart()` */
  function TrimStart(s: string): (r: string)
    ensures |r| <= |s| && r == s[|s| - |r|..]
    ensures r != [] ==> !IsJsWhitespace(r[0])
    ensures forall i | 0 <= i < |s| - |r| :: IsJsWhitespace(s[i])
  {
    if s != [] && IsJsWhitespace(s[0]) then TrimStart(s[1..]) else s
  }

  /** `s.trimEnd()` */
  function TrimEnd(s: string): (r: string)
    ensures |r| <= |s| && r == s[..|r|]
    ensures r != [] ==> !IsJsWhitespace(r[|r| - 1])
    ensures forall i | |r| <= i < |s| :: IsJsWhitespace(s[i])
  {
    if s != [] && IsJsWhitespace(s[|s| - 1]) then TrimEnd(s[..|s| - 1]) else s
  }

  /** `s.trim()` */
  function Trim(s: string): string {
    TrimEnd(TrimStart(s))
  }

  /** `!s.trim()`: the text is empty or whitespace only. */
  predicate IsBlank(s: string) {
    Trim(s) == []
  }

  lemma BlankIffAllWhitespace(s: string)
    ensures IsBlank(s) <==> forall i | 0 <= i < |s| :: IsJsWhitespace(s[i])
  {
    var t := TrimStart(s);
    if IsBlank(s) {
      if t != [] {
        assert false;
      }
    } else {
      assert t != [];
      assert !IsJsWhitespace(s[|s| - |t|]);
    }
  }

  // ---------------------------------------------------------------------
  // `toLowerCase` (ASCII letters only) and `includes`
  // ---------------------------------------------------------------------

  function LowerChar(c: char): char {
    if 'A' <= c <= 'Z' then (c as int + 32) as char else c
  }

  function UpperChar(c: char): char {
    if 'a' <= c <= 'z' then (c as int - 32) as char else c
  }

  /** `s.toLowerCase()` restricted to ASCII letters. */
  function Lower(s: string): (r: string)
    ensures |r| == |s|
    ensures forall i | 0 <= i < |s| :: r[i] == LowerChar(s[i])
  {
    seq(|s|, i requires 0 <= i < |s| => LowerChar(s[i]))
  }

  predicate IsPrefix(p: string, s: string) {
    |p| <= |s| && s[..|p|] == p
  }

  /** `s.includes(t)` */
  predicate Includes(s: string, t: string)
    decreases |s|
  {
    IsPrefix(t, s) || (s != [] && Includes(s[1..], t))
  }

  /** `t` occurs in `s` starting at position `i`. */
  predicate OccursAt(s: string, t: string, i: int) {
    0 <= i <= |s| - |t| && s[i..i + |t|] == t
  }

  /** `includes` holds exactly when `t` occurs at some position of `s`. */
  lemma {:induction false} IncludesIff(s: string, t: string)
    ensures Includes(s, t) <==> exists i :: OccursAt(s, t, i)
  {
    if Includes(s, t) {
      if IsPrefix(t, s) {
        assert OccursAt(s, t, 0);
      } else {
        IncludesIff(s[1..], t);
        var i :| OccursAt(s[1..], t, i);
        assert s[i + 1..i + 1 + |t|] == s[1..][i..i + |t|];
        assert OccursAt(s, t, i + 1);
      }
    } else {
      if exists i :: OccursAt(s, t, i) {
        var i :| OccursAt(s, t, i);
        if i == 0 {
          assert false;
        } else {
          assert s[1..][i - 1..i - 1 + |t|] == s[i..i + |t|];
          assert OccursAt(s[1..], t, i - 1);
          IncludesIff(s[1..], t);
        }
      }
    }
  }

  /** The empty search term occurs in every string. */
  lemma IncludesEmpty(s: string)
    ensures Includes(s, [])
  {
    assert IsPrefix([], s);
  }

  /** `text.toLowerCase().includes(term.toLowerCase())`, the search used by every list page. */
  predicate MatchesSearch(text: string, term: string) {
    Includes(Lower(text), Lower(term))
  }

  lemma EmptyTermMatchesAll(text: string)
    ensures MatchesSearch(text, "")
  {
    IncludesEmpty(Lower(text));
  }

  // ---------------------------------------------------------------------
  // `String(n)` for integers
  // ---------------------------------------------------------------------

  function DigitChar(d: nat): (c: char)
    requires d < 10
    ensures IsDigit(c)
  {
    ('0' as int + d) as char
  }

  /** Decimal digits of `n` without leading zeros. */
  function NatToString(n: nat): (r: string)
    ensures r != [] && AllDigits(r)
    ensures r[0] == '0' ==> n == 0 && |r| == 1
    decreases n
  {
    if n < 10 then [DigitChar(n)] else NatToString(n / 10) + [DigitChar(n % 10)]
  }

  /** `String(n)` / `n.toString()` for an integral number. */
  function IntToString(n: int): (r: string)
    ensures r != [] && (r[0] == '-' <==> n < 0)
    ensures n >= 0 ==> AllDigits(r)
    ensures n < 0 ==> AllDigits(r[1..])
  {
    if n < 0 then "-" + NatToString(-n) else NatToString(n)
  }

  // ---------------------------------------------------------------------
  // Digit values in a radix, and `parseInt`
  // ---------------------------------------------------------------------

  /** The value of a digit character in radix up to 36; 36 for a non-digit. */
  function DigitValue(c: char): (v: nat)
    ensures v <= 36
  {
    if '0' <= c <= '9' then c as int - '0' as int
    else if 'a' <= c <= 'z' then c as int - 'a' as int + 10
    else if 'A' <= c <= 'Z' then c as int - 'A' as int + 10
    else 36
  }

  predicate IsRadixDigit(c: char, radix: nat) {
    DigitValue(c) < radix
  }

  predicate AllRadixDigits(s: string, radix: nat) {
    forall i | 0 <= i < |s| :: IsRadixDigit(s[i], radix)
  }

  /** The value of a digit string in `radix`, most significant digit first. */
  function RadixValue(s: string, radix: nat): nat
    requires AllRadixDigits(s, radix)
  {
    if s == [] then 0 else RadixValue(s[..|s| - 1], radix) * radix + DigitValue(s[|s| - 1])
  }

  /** The longest prefix of `s` made of digits of `radix`. */
  function DigitPrefix(s: string, radix: nat): (r: string)
    ensures |r| <= |s| && r == s[..|r|]
    ensures AllRadixDigits(r, radix)
    ensures |r| < |s| ==> !IsRadixDigit(s[|r|], radix)
  {
    if s != [] && IsRadixDigit(s[0], radix) then [s[0]] + DigitPrefix(s[1..], radix) else []
  }

  /**
   * The unsigned part of `parseInt`: a `0x`/`0X` prefix selects radix 16,
   * otherwise radix 10, and the longest run of digits that follows is
   * converted; `None` when there is no such digit.
   */
  function ParseUnsigned(u: string): Option<nat> {
    var hex := |u| >= 2 && u[0] == '0' && (u[1] == 'x' || u[1] == 'X');
    var radix := if hex then 16 else 10;
    var z := DigitPrefix(if hex then u[2..] else u, radix);
    if z == [] then None else Some(RadixValue(z, radix))
  }

  /**
   * `parseInt(s)` with no radix argument: leading whitespace is skipped, one
   * sign is read, and the rest is read by `ParseUnsigned`; `None` stands
   * for NaN.
   */
  function ParseInt(s: string): (r: Option<int>)
    ensures TrimStart(s) == [] ==> r.None?
    ensures r.Some? && r.value < 0 ==> TrimStart(s) != [] && TrimStart(s)[0] == '-'
  {
    var t := TrimStart(s);
    var negative := t != [] && t[0] == '-';
    var u := if t != [] && (t[0] == '-' || t[0] == '+') then t[1..] else t;
    Signed(ParseUnsigned(u), negative)
  }

  /** An unsigned result with the sign applied. */
  function Signed(o: Option<nat>, negative: bool): Option<int> {
    match o
    case None => None
    case Some(v) => Some(if negative then -(v as int) else v as int)
  }

  lemma {:induction false} RadixValueOfNatToString(n: nat)
    ensures AllRadixDigits(NatToString(n), 10)
    ensures RadixValue(NatToString(n), 10) == n
    decreases n
  {
    var r := NatToString(n);
    assert forall i | 0 <= i < |r| :: DigitValue(r[i]) < 10 by {
      forall i | 0 <= i < |r| ensures DigitValue(r[i]) < 10 {
        assert IsDigit(r[i]);
      }
    }
    if n >= 10 {
      RadixValueOfNatToString(n / 10);
      assert r[..|r| - 1] == NatToString(n / 10);
    }
  }

  lemma DigitPrefixOfDigits(u: string, radix: nat)
    requires AllRadixDigits(u, radix)
    ensures DigitPrefix(u, radix) == u
  {
    DigitPrefixStops(u, [], radix);
    assert u + [] == u;
  }

  /** The digit run ends where a character that is not a digit follows. */
  lemma DigitPrefixStops(u: string, rest: string, radix: nat)
    requires AllRadixDigits(u, radix)
    requires rest == [] || !IsRadixDigit(rest[0], radix)
    ensures DigitPrefix(u + rest, radix) == u
  {
    var s := u + rest;
    assert forall i | 0 <= i < |u| :: s[i] == u[i];
    assert rest != [] ==> s[|u|] == rest[0];
  }

  /** `parseInt` reads the decimal digits of `n` and stops at the first character that is not alphanumeric. */
  lemma ParseUnsignedOfNatToStringThen(n: nat, rest: string)
    requires rest == [] || !IsRadixDigit(rest[0], 36)
    ensures ParseUnsigned(NatToString(n) + rest) == Some(n)
  {
    var u := NatToString(n) + rest;
    RadixValueOfNatToString(n);
    assert !(|u| >= 2 && u[0] == '0' && (u[1] == 'x' || u[1] == 'X')) by {
      if |NatToString(n)| == 1 {
        assert rest != [] ==> u[1] == rest[0];
      } else {
        assert u[0] == NatToString(n)[0];
      }
    }
    DigitPrefixStops(NatToString(n), rest, 10);
  }

  lemma ParseUnsignedOfNatToString(n: nat)
    ensures ParseUnsigned(NatToString(n)) == Some(n)
  {
    ParseUnsignedOfNatToStringThen(n, []);
    assert NatToString(n) + [] == NatToString(n);
  }

  lemma ParseIntNegative(u: string)
    ensures ParseInt("-" + u) == Signed(ParseUnsigned(u), true)
  {
    var s := "-" + u;
    assert TrimStart(s) == s;
    assert s[1..] == u;
  }

  lemma ParseIntUnsigned(u: string)
    requires u != [] && !IsJsWhitespace(u[0]) && u[0] != '-' && u[0] != '+'
    ensures ParseInt(u) == Signed(ParseUnsigned(u), false)
  {
    assert TrimStart(u) == u;
  }

  /** Reading back a number written by `String(n)`, with any text after it that does not start alphanumeric, gives `n`. */
  lemma ParseIntOfIntToStringThen(n: int, rest: string)
    requires rest == [] || !IsRadixDigit(rest[0], 36)
    ensures ParseInt(IntToString(n) + rest) == Some(n)
  {
    var m: nat := if n < 0 then -n else n;
    var u := NatToString(m) + rest;
    ParseUnsignedOfNatToStringThen(m, rest);
    if n < 0 {
      assert IntToString(n) + rest == "-" + u;
      ParseIntNegative(u);
    } else {
      assert IntToString(n) + rest == u;
      assert u[0] == NatToString(m)[0];
      ParseIntUnsigned(u);
    }
  }

  /** Reading back a number written by `String(n)` gives `n`. */
  lemma ParseIntOfIntToString(n: int)
    ensures ParseInt(IntToString(n)) == Some(n)
  {
    ParseIntOfIntToStringThen(n, []);
    assert IntToString(n) + [] == IntToString(n);
  }

  // ---------------------------------------------------------------------
  // String comparison `a < b` (code-unit lexicographic order)
  // ---------------------------------------------------------------------

  predicate LexLess(a: string, b: string)
    decreases |a|
  {
    if a == [] then b != []
    else if b == [] then false
    else if a[0] != b[0] then a[0] < b[0]
    else LexLess(a[1..], b[1..])
  }

  lemma {:induction false} LexLessIrreflexive(a: string)
    ensures !LexLess(a, a)
  {
    if a != [] {
      LexLessIrreflexive(a[1..]);
    }
  }

  lemma {:induction false} LexLessAsymmetric(a: string, b: string)
    ensures LexLess(a, b) ==> !LexLess(b, a)
    decreases |a|
  {
    if a != [] && b != [] && a[0] == b[0] {
      LexLessAsymmetric(a[1..], b[1..]);
    }
  }

  lemma {:induction false} LexLessTrichotomy(a: string, b: string)
    ensures a == b || LexLess(a, b) || LexLess(b, a)
    decreases |a|
  {
    if a != [] && b != [] && a[0] == b[0] {
      LexLessTrichotomy(a[1..], b[1..]);
      if a[1..] == b[1..] {
        assert a == [a[0]] + a[1..] && b == [b[0]] + b[1..];
      }
    }
  }

  lemma {:induction false} LexLessTransitive(a: string, b: string, c: string)
    requires LexLess(a, b) && LexLess(b, c)
    ensures LexLess(a, c)
    decreases |a|
  {
    if a != [] && b != [] && c != [] && a[0] == b[0] && b[0] == c[0] {
      LexLessTransitive(a[1..], b[1..], c[1..]);
    }
  }

  /** `a.localeCompare(b)`, taken as code-unit order: negative, zero or positive. */
  function LocaleCompare(a: string, b: string): int {
    if LexLess(a, b) then -1 else if LexLess(b, a) then 1 else 0
  }

  lemma LocaleCompareAntisymmetric(a: string, b: string)
    ensures LocaleCompare(a, b) == -LocaleCompare(b, a)
    ensures LocaleCompare(a, b) == 0 <==> a == b
  {
    LexLessAsymmetric(a, b);
    LexLessAsymmetric(b, a);
    LexLessTrichotomy(a, b);
    LexLessIrreflexive(a);
  }

  // ---------------------------------------------------------------------
  // `split` on one separator character, and its inverse `join`
  // ---------------------------------------------------------------------

  /** `s.split(sep)` for a one-character separator: never empty. */
  function Split(s: string, sep: char): (parts: seq<string>)
    ensures |parts| >= 1
    decreases |s|
  {
    if s == [] then [[]]
    else
      var rest := Split(s[1..], sep);
      if s[0] == sep then [[]] + rest else [[s[0]] + rest[0]] + rest[1..]
  }

  /** `parts.join(sep)` */
  function Join(parts: seq<string>, sep: char): string
    requires |parts| >= 1
    decreases |parts|
  {
    if |parts| == 1 then parts[0] else parts[0] + [sep] + Join(parts[1..], sep)
  }

  /** Joining the pieces with the separator gives the original text back, and no piece holds the separator. */
  lemma {:induction false} SplitJoin(s: string, sep: char)
    ensures Join(Split(s, sep), sep) == s
    ensures forall k | 0 <= k < |Split(s, sep)| :: sep !in Split(s, sep)[k]
    decreases |s|
  {
    if s != [] {
      var rest := Split(s[1..], sep);
      SplitJoin(s[1..], sep);
      if s[0] == sep {
        assert Split(s, sep)[1..] == rest;
      } else {
        var parts := Split(s, sep);
        if |rest| == 1 {
          assert parts == [[s[0]] + rest[0]];
        } else {
          assert parts[1..] == rest[1..];
          assert Join(rest, sep) == rest[0] + [sep] + Join(rest[1..], sep);
        }
        assert s == [s[0]] + s[1..];
      }
    }
  }

  /** `s.split(sep)[0]`: the text before the first separator, or all of it. */
  function BeforeFirst(s: string, sep: char): (r: string)
    ensures IsPrefix(r, s) && sep !in r
    ensures |r| < |s| ==> s[|r|] == sep
  {
    SplitFirstPiece(s, sep);
    Split(s, sep)[0]
  }

  lemma {:induction false} SplitFirstPiece(s: string, sep: char)
    ensures IsPrefix(Split(s, sep)[0], s) && sep !in Split(s, sep)[0]
    ensures |Split(s, sep)[0]| < |s| ==> s[|Split(s, sep)[0]|] == sep
    decreases |s|
  {
    if s != [] {
      SplitFirstPiece(s[1..], sep);
    }
  }

  /** A text without the separator is one piece. */
  lemma {:induction false} SplitWithoutSeparator(s: string, sep: char)
    requires sep !in s
    ensures Split(s, sep) == [s]
    decreases |s|
  {
    if s != [] {
      SplitWithoutSeparator(s[1..], sep);
      assert s == [s[0]] + s[1..];
    }
  }

  /** The text before the first separator is the first piece; the rest is split on. */
  lemma {:induction false} SplitAtSeparator(x: string, sep: char, y: string)
    requires sep !in x
    ensures Split(x + [sep] + y, sep) == [x] + Split(y, sep)
    decreases |x|
  {
    var s := x + [sep] + y;
    if x == [] {
      assert s == [sep] + y;
      assert s[1..] == y;
    } else {
      assert s[1..] == x[1..] + [sep] + y;
      SplitAtSeparator(x[1..], sep, y);
      assert [x[0]] + x[1..] == x;
    }
  }
}
