/**
 * The JavaScript string operations the flow scripts rely on, stated over
 * Dafny strings (sequences of Unicode scalar values): `trim`, `split` with a
 * one-character separator, `replace(/\D/g, '')`, `parseInt`, the string to
 * number conversion behind `==` against a number, `toLowerCase`, `length`
 * (counted in UTF-16 code units) and number to string conversion.
 */
module JsText {
  import opened Wrappers

  // ---------------------------------------------------------------------
  // White space
  // ---------------------------------------------------------------------

  /** WhiteSpace and LineTerminator code points, the set `trim` and `parseInt` skip. */
  predicate IsSpace(c: char) {
    c == '\t' || c == '\n' || c == '\U{000B}' || c == '\U{000C}' || c == '\r' || c == ' '
    || c == '\U{00A0}' || c == '\U{1680}' || ('\U{2000}' <= c <= '\U{200A}')
    || c == '\U{2028}' || c == '\U{2029}' || c == '\U{202F}' || c == '\U{205F}'
    || c == '\U{3000}' || c == '\U{FEFF}'
  }

  /** `String.prototype.trimStart`: the suffix left after dropping leading white space. */
  function TrimStart(s: string): (r: string)
    ensures |r| <= |s|
    ensures forall i :: 0 <= i < |s| - |r| ==> IsSpace(s[i])
    ensures r == [] || !IsSpace(r[0])
  {
    if |s| > 0 && IsSpace(s[0]) then TrimStart(s[1..]) else s
  }

  /** What `trimStart` leaves is a suffix of its input. */
  lemma {:induction false} TrimStartSuffix(s: string)
    ensures TrimStart(s) == s[|s| - |TrimStart(s)|..]
  {
    if |s| > 0 && IsSpace(s[0]) {
      TrimStartSuffix(s[1..]);
      assert s[1..][|s| - 1 - |TrimStart(s[1..])|..] == s[|s| - |TrimStart(s)|..];
    }
  }

  /** `String.prototype.trimEnd`: the prefix left after dropping trailing white space. */
  function TrimEnd(s: string): (r: string)
    ensures |r| <= |s| && r == s[..|r|]
    ensures forall i :: |r| <= i < |s| ==> IsSpace(s[i])
    ensures r == [] || !IsSpace(r[|r| - 1])
  {
    if |s| > 0 && IsSpace(s[|s| - 1]) then TrimEnd(s[..|s| - 1]) else s
  }

  /** `String.prototype.trim`. */
  function Trim(s: string): string {
    TrimEnd(TrimStart(s))
  }

  /**
   * Trimmed text is the slice `s[i..j]` of the input where `i` is the first and
   * `j - 1` the last position not holding white space.
   */
  lemma TrimIsSlice(s: string) returns (i: nat, j: nat)
    ensures i <= j <= |s| && Trim(s) == s[i..j]
    ensures forall k :: 0 <= k < i ==> IsSpace(s[k])
    ensures forall k :: j <= k < |s| ==> IsSpace(s[k])
    ensures i < j ==> !IsSpace(s[i]) && !IsSpace(s[j - 1])
  {
    var u := TrimStart(s);
    var t := TrimEnd(u);
    TrimStartSuffix(s);
    i := |s| - |u|;
    j := i + |t|;
    assert u == s[i..];
    assert t == s[i..j];
    SpacesAfter(s, i, u, |t|);
    if i < j {
      assert s[i] == u[0];
      assert s[j - 1] == t[|t| - 1];
    }
  }

  /** White space at the end of the suffix `u` of `s` is white space at the end of `s`. */
  lemma SpacesAfter(s: string, i: nat, u: string, n: nat)
    requires i <= |s| && u == s[i..] && n <= |u|
    requires forall k :: n <= k < |u| ==> IsSpace(u[k])
    ensures forall k :: i + n <= k < |s| ==> IsSpace(s[k])
  {
    forall k | i + n <= k < |s| ensures IsSpace(s[k]) {
      assert s[k] == u[k - i];
    }
  }

  // ---------------------------------------------------------------------
  // Digits: `replace(/\D/g, '')`
  // ---------------------------------------------------------------------

  /** `\d` in a JavaScript regular expression: an ASCII decimal digit. */
  predicate IsDigit(c: char) {
    '0' <= c <= '9'
  }

  /** `s.replace(/\D/g, '')`: the digits of `s`, in order. */
  function Digits(s: string): (r: string)
    ensures |r| <= |s|
    ensures forall i :: 0 <= i < |r| ==> IsDigit(r[i])
  {
    if s == [] then [] else (if IsDigit(s[0]) then [s[0]] else []) + Digits(s[1..])
  }

  /** Number of digit characters in `s`, counted independently of `Digits`. */
  function CountDigits(s: string): nat {
    if s == [] then 0 else CountDigits(s[..|s| - 1]) + (if IsDigit(s[|s| - 1]) then 1 else 0)
  }

  lemma {:induction false} DigitsAppend(a: string, b: string)
    ensures Digits(a + b) == Digits(a) + Digits(b)
  {
    if a == [] {
      assert a + b == b;
    } else {
      assert (a + b)[0] == a[0];
      assert (a + b)[1..] == a[1..] + b;
      DigitsAppend(a[1..], b);
    }
  }

  /** `replace(/\D/g, '')` keeps exactly the digit characters. */
  lemma {:induction false} DigitsLength(s: string)
    ensures |Digits(s)| == CountDigits(s)
  {
    if s != [] {
      var init := s[..|s| - 1];
      assert s == init + [s[|s| - 1]];
      DigitsAppend(init, [s[|s| - 1]]);
      DigitsLength(init);
    }
  }

  /** A string of digits is left as it is, so removing non-digits twice changes nothing. */
  lemma {:induction false} DigitsIdempotent(s: string)
    ensures Digits(Digits(s)) == Digits(s)
  {
    if s != [] {
      var head := if IsDigit(s[0]) then [s[0]] else [];
      DigitsAppend(head, Digits(s[1..]));
      DigitsIdempotent(s[1..]);
      if IsDigit(s[0]) {
        assert Digits(head) == head by {
          assert head[1..] == [];
        }
      }
    }
  }

  /** Inserting a character that is not a digit does not change the digits. */
  lemma NonDigitIgnored(a: string, c: char, b: string)
    requires !IsDigit(c)
    ensures Digits(a + [c] + b) == Digits(a + b)
  {
    DigitsAppend(a + [c], b);
    DigitsAppend(a, [c]);
    DigitsAppend(a, b);
    assert Digits([c]) == [] by {
      assert [c][1..] == [];
    }
  }

  // ---------------------------------------------------------------------
  // split with a one-character separator, and join
  // ---------------------------------------------------------------------

  /** `s.split(sep)` for a one-character separator: the pieces between separators. */
  function Split(s: string, sep: char): (r: seq<string>)
    ensures |r| >= 1
  {
    if s == [] then [""]
    else
      var rest := Split(s[1..], sep);
      if s[0] == sep then [""] + rest else [[s[0]] + rest[0]] + rest[1..]
  }

  /** `parts.join(sep)`. */
  function Join(parts: seq<string>, sep: string): string {
    if parts == [] then ""
    else if |parts| == 1 then parts[0]
    else parts[0] + sep + Join(parts[1..], sep)
  }

  /** Number of occurrences of `c` in `s`. */
  function Count(s: string, c: char): nat {
    if s == [] then 0 else (if s[0] == c then 1 else 0) + Count(s[1..], c)
  }

  /** `split` yields one piece more than there are separators. */
  lemma {:induction false} SplitLength(s: string, sep: char)
    ensures |Split(s, sep)| == Count(s, sep) + 1
  {
    if s != [] {
      SplitLength(s[1..], sep);
    }
  }

  /** No piece of `split` contains the separator. */
  lemma {:induction false} SplitPiecesFree(s: string, sep: char)
    ensures forall i :: 0 <= i < |Split(s, sep)| ==> sep !in Split(s, sep)[i]
  {
    if s != [] {
      SplitPiecesFree(s[1..], sep);
    }
  }

  /** Joining the pieces with the separator gives back the original string. */
  lemma {:induction false} JoinSplit(s: string, sep: char)
    ensures Join(Split(s, sep), [sep]) == s
  {
    if s != [] {
      var rest := Split(s[1..], sep);
      JoinSplit(s[1..], sep);
      if s[0] == sep {
        assert Split(s, sep) == [""] + rest;
        assert ([""] + rest)[1..] == rest;
      } else {
        var r := [[s[0]] + rest[0]] + rest[1..];
        assert Split(s, sep) == r;
        if |rest| == 1 {
          assert Join(rest, [sep]) == rest[0];
        } else {
          assert r[1..] == rest[1..];
          assert Join(rest, [sep]) == rest[0] + [sep] + Join(rest[1..], [sep]);
        }
      }
    }
  }

  /** A character occurs in a string exactly when its count is positive. */
  lemma {:induction false} CountPositive(s: string, c: char)
    ensures Count(s, c) > 0 <==> c in s
  {
    if s != [] {
      CountPositive(s[1..], c);
      assert s == [s[0]] + s[1..];
    }
  }

  /** `s.split(sep).length >= 2` exactly when the separator occurs in `s`. */
  lemma SplitHasTwoPieces(s: string, sep: char)
    ensures |Split(s, sep)| >= 2 <==> sep in s
  {
    SplitLength(s, sep);
    CountPositive(s, sep);
  }

  /** A string without the separator is a single piece. */
  lemma {:induction false} SplitNoSeparator(s: string, sep: char)
    requires sep !in s
    ensures Split(s, sep) == [s]
  {
    if s != [] {
      assert sep !in s[1..] by {
        forall k | 0 <= k < |s[1..]| ensures s[1..][k] != sep {
          assert s[1..][k] == s[k + 1];
        }
      }
      SplitNoSeparator(s[1..], sep);
      assert [s[0]] + s[1..] == s;
    }
  }

  /** Splitting `a + sep + b` with no separator in `a` gives `a` followed by the pieces of `b`. */
  lemma {:induction false} SplitFirstSeparator(a: string, sep: char, b: string)
    requires sep !in a
    ensures Split(a + [sep] + b, sep) == [a] + Split(b, sep)
  {
    if a == [] {
      assert [] + [sep] + b == [sep] + b;
      assert ([sep] + b)[1..] == b;
    } else {
      var s := a + [sep] + b;
      assert s[1..] == a[1..] + [sep] + b;
      assert sep !in a[1..] by {
        forall k | 0 <= k < |a[1..]| ensures a[1..][k] != sep {
          assert a[1..][k] == a[k + 1];
        }
      }
      SplitFirstSeparator(a[1..], sep, b);
      assert [a[0]] + a[1..] == a;
    }
  }

  /** The three pieces of `a + sep + b + sep + c` when none of them holds the separator. */
  lemma SplitThree(a: string, b: string, c: string, sep: char)
    requires sep !in a && sep !in b && sep !in c
    ensures Split(a + [sep] + b + [sep] + c, sep) == [a, b, c]
  {
    assert a + [sep] + b + [sep] + c == a + [sep] + (b + [sep] + c);
    SplitFirstSeparator(a, sep, b + [sep] + c);
    SplitFirstSeparator(b, sep, c);
    SplitNoSeparator(c, sep);
  }

  // ---------------------------------------------------------------------
  // length in UTF-16 code units
  // ---------------------------------------------------------------------

  /** `s.length`: code points above U+FFFF take two UTF-16 code units. */
  function Utf16Length(s: string): (n: nat)
    ensures |s| <= n <= 2 * |s|
  {
    if s == [] then 0 else (if s[0] as int > 0xFFFF then 2 else 1) + Utf16Length(s[1..])
  }

  // ---------------------------------------------------------------------
  // toLowerCase
  // ---------------------------------------------------------------------

  /**
   * `toLowerCase` on the ASCII and Latin-1 capital letters. Every other
   * character is kept: no other character lowers to one of the letters of
   * the words the scripts compare against ("sim", "não", "nao").
   */
  function LowerChar(c: char): char {
    if 'A' <= c <= 'Z' || ('\U{00C0}' <= c <= '\U{00DE}' && c != '\U{00D7}')
    then (c as int + 32) as char
    else c
  }

  function ToLower(s: string): (r: string)
    ensures |r| == |s| && forall i :: 0 <= i < |s| ==> r[i] == LowerChar(s[i])
  {
    if s == [] then [] else [LowerChar(s[0])] + ToLower(s[1..])
  }

  // ---------------------------------------------------------------------
  // Numbers
  // ---------------------------------------------------------------------

  /** Value of a digit character in bases up to 36, or 36 if it is no digit at all. */
  function DigitValue(c: char): (v: nat)
    ensures v <= 36
  {
    if '0' <= c <= '9' then c as int - '0' as int
    else if 'a' <= c <= 'z' then c as int - 'a' as int + 10
    else if 'A' <= c <= 'Z' then c as int - 'A' as int + 10
    else 36
  }

  /** Longest prefix of `s` made of digits of the given radix. */
  function DigitPrefix(s: string, radix: nat): (r: string)
    ensures |r| <= |s| && r == s[..|r|]
    ensures forall i :: 0 <= i < |r| ==> DigitValue(r[i]) < radix
    ensures |r| < |s| ==> DigitValue(s[|r|]) >= radix
  {
    if s != [] && DigitValue(s[0]) < radix then [s[0]] + DigitPrefix(s[1..], radix) else []
  }

  /** Value of a string of digits of the given radix, most significant first. */
  function DigitsValue(ds: string, radix: nat): nat {
    if ds == [] then 0
    else DigitsValue(ds[..|ds| - 1], radix) * radix + (if DigitValue(ds[|ds| - 1]) < radix then DigitValue(ds[|ds| - 1]) else 0)
  }

  /**
   * `parseInt(s)` with no radix: skip leading white space, read an optional
   * sign, a `0x`/`0X` prefix switches to base 16, then read the longest run
   * of digits; no digit at all is `NaN` (here `None`).
   */
  function ParseInt(s: string): (r: Option<int>)
  {
    var (radix, body) := IntBody(s);
    var ds := DigitPrefix(body, radix);
    if ds == [] then None
    else
      var v: int := DigitsValue(ds, radix);
      Some(if IntNegative(s) then -v else v)
  }

  /** Whether `parseInt` reads a minus sign. */
  predicate IntNegative(s: string) {
    var t := TrimStart(s);
    |t| > 0 && t[0] == '-'
  }

  /** The radix `parseInt` uses and the text where its digits start. */
  function IntBody(s: string): (nat, string)
  {
    var t := TrimStart(s);
    var u := if |t| > 0 && (t[0] == '-' || t[0] == '+') then t[1..] else t;
    if |u| >= 2 && u[0] == '0' && (u[1] == 'x' || u[1] == 'X') then (16, u[2..]) else (10, u)
  }

  /** Whether `s` contains the character `c` (`s.includes(c)` for a one-character argument). */
  predicate Contains(s: string, c: char) {
    c in s
  }

  // ---------------------------------------------------------------------
  // Number to string
  // ---------------------------------------------------------------------

  function DigitChar(d: nat): (c: char)
    requires d < 10
    ensures IsDigit(c) && DigitValue(c) == d
  {
    ('0' as int + d) as char
  }

  /** Decimal representation of a natural number, with no leading zeros. */
  function NatToString(n: nat): (r: string)
    ensures |r| >= 1 && forall i :: 0 <= i < |r| ==> IsDigit(r[i])
    ensures r[0] == '0' ==> n == 0
  {
    if n < 10 then [DigitChar(n)] else NatToString(n / 10) + [DigitChar(n % 10)]
  }

  /** `String(i)` for an integer number. */
  function IntToString(i: int): string {
    if i < 0 then "-" + NatToString(-i) else NatToString(i)
  }

  /** Reading the decimal representation back gives the number. */
  lemma {:induction false} NatToStringValue(n: nat)
    ensures DigitsValue(NatToString(n), 10) == n
  {
    var r := NatToString(n);
    if n >= 10 {
      assert r[..|r| - 1] == NatToString(n / 10);
      NatToStringValue(n / 10);
    }
  }

  /** A string of decimal digits is its own longest digit prefix. */
  lemma {:induction false} AllDigitsPrefix(s: string)
    requires forall i :: 0 <= i < |s| ==> IsDigit(s[i])
    ensures DigitPrefix(s, 10) == s
  {
    if s != [] {
      AllDigitsPrefix(s[1..]);
    }
  }

  /** Text that does not start with white space is left alone by `trimStart`. */
  lemma TrimStartNoSpace(s: string)
    requires s == [] || !IsSpace(s[0])
    ensures TrimStart(s) == s
  {
  }

  /** Text that does not end with white space is left alone by `trimEnd`. */
  lemma TrimEndNoSpace(s: string)
    requires s == [] || !IsSpace(s[|s| - 1])
    ensures TrimEnd(s) == s
  {
  }

  /** Leading white space makes no difference to `trimStart`. */
  lemma {:induction false} TrimStartBlanks(a: string, x: string)
    requires forall i :: 0 <= i < |a| ==> IsSpace(a[i])
    ensures TrimStart(a + x) == TrimStart(x)
  {
    if |a| > 0 {
      assert (a + x)[1..] == a[1..] + x;
      TrimStartBlanks(a[1..], x);
    } else {
      assert a + x == x;
    }
  }

  /** Trailing white space makes no difference to `trimEnd`. */
  lemma {:induction false} TrimEndBlanks(x: string, b: string)
    requires forall i :: 0 <= i < |b| ==> IsSpace(b[i])
    ensures TrimEnd(x + b) == TrimEnd(x)
  {
    if |b| > 0 {
      assert (x + b)[|x + b| - 1] == b[|b| - 1];
      assert (x + b)[..|x + b| - 1] == x + b[..|b| - 1];
      TrimEndBlanks(x, b[..|b| - 1]);
    } else {
      assert x + b == x;
    }
  }

  /** `trim` gives back a word surrounded by white space, whatever that white space is. */
  lemma TrimBlanks(a: string, w: string, b: string)
    requires forall i :: 0 <= i < |a| ==> IsSpace(a[i])
    requires forall i :: 0 <= i < |b| ==> IsSpace(b[i])
    requires w == [] || (!IsSpace(w[0]) && !IsSpace(w[|w| - 1]))
    ensures Trim(a + w + b) == w
  {
    assert a + w + b == a + (w + b);
    TrimStartBlanks(a, w + b);
    if w == [] {
      assert w + b == b + [];
      TrimStartBlanks(b, []);
      assert TrimStart(w + b) == [];
    } else {
      TrimStartNoSpace(w + b);
      TrimEndBlanks(w, b);
      TrimEndNoSpace(w);
    }
  }

  /** Text starting with a digit and no `0x` prefix is read in base ten from its start. */
  lemma IntBodyDecimal(s: string)
    requires s != [] && IsDigit(s[0])
    requires |s| >= 2 ==> s[1] != 'x' && s[1] != 'X'
    ensures IntBody(s) == (10, s) && !IntNegative(s)
  {
    TrimStartNoSpace(s);
  }

  /** `parseInt(String(i)) === i`: the two conversions are inverse on integers. */
  lemma ParseIntToString(i: int)
    ensures ParseInt(IntToString(i)) == Some(i)
  {
    var n: nat := if i < 0 then -i else i;
    var ds := NatToString(n);
    var s := IntToString(i);
    assert IntBody(ds) == (10, ds) && !IntNegative(ds) by {
      assert |ds| >= 2 ==> ds[1] != 'x' && ds[1] != 'X' by {
        if |ds| >= 2 { assert IsDigit(ds[1]); }
      }
      IntBodyDecimal(ds);
    }
    assert DigitPrefix(ds, 10) == ds && DigitsValue(ds, 10) == n by {
      AllDigitsPrefix(ds);
      NatToStringValue(n);
    }
    assert IntBody(s) == (10, ds) && (IntNegative(s) <==> i < 0) by {
      if i < 0 {
        assert s == "-" + ds && s[1..] == ds;
        TrimStartNoSpace(s);
      } else {
        assert s == ds;
      }
    }
  }

  /** `parseInt` stops at the first character that is not a digit: trailing text is ignored. */
  lemma ParseIntIgnoresSuffix(ds: string, rest: string)
    requires ds != [] && forall i :: 0 <= i < |ds| ==> IsDigit(ds[i])
    requires rest == [] || (!IsDigit(rest[0]) && rest[0] != 'x' && rest[0] != 'X')
    ensures ParseInt(ds + rest) == Some(DigitsValue(ds, 10))
  {
    var s := ds + rest;
    assert s[0] == ds[0];
    assert |s| >= 2 ==> s[1] != 'x' && s[1] != 'X' by {
      if |s| >= 2 {
        if |ds| >= 2 { assert s[1] == ds[1]; } else { assert s[1] == rest[0]; }
      }
    }
    IntBodyDecimal(s);
    DigitPrefixAppend(ds, rest);
  }

  lemma {:induction false} DigitPrefixAppend(ds: string, rest: string)
    requires forall i :: 0 <= i < |ds| ==> IsDigit(ds[i])
    requires rest == [] || !IsDigit(rest[0])
    ensures DigitPrefix(ds + rest, 10) == ds
  {
    if ds == [] {
      assert ds + rest == rest;
    } else {
      assert (ds + rest)[1..] == ds[1..] + rest;
      DigitPrefixAppend(ds[1..], rest);
    }
  }

  // ---------------------------------------------------------------------
  // String to number, as used by `==` between a string and a number
  // ---------------------------------------------------------------------

  /** A JavaScript number, exact: double rounding is not represented. */
  datatype Number = NotANumber | Infinite(negative: bool) | Finite(q: real)

  function Pow10(e: nat): (p: nat)
    ensures p >= 1
  {
    if e == 0 then 1 else 10 * Pow10(e - 1)
  }

  /** `digits` scaled by ten to the power `e`. */
  function Scale(m: nat, e: int): real {
    if e >= 0 then (m * Pow10(e)) as real else m as real / Pow10(-e) as real
  }

  /** Optional sign of an exponent or a decimal literal. */
  function Sign(s: string): (r: (bool, string))
    ensures |r.1| <= |s|
  {
    if |s| > 0 && s[0] == '-' then (true, s[1..])
    else if |s| > 0 && s[0] == '+' then (false, s[1..])
    else (false, s)
  }

  /** The exponent part `e`/`E` followed by a signed run of digits, and nothing after it. */
  function Exponent(s: string): Option<int> {
    if s == [] then Some(0)
    else if s[0] != 'e' && s[0] != 'E' then None
    else
      var (neg, t) := Sign(s[1..]);
      var ds := DigitPrefix(t, 10);
      if ds == [] || |ds| != |t| then None
      else Some(if neg then -(DigitsValue(ds, 10) as int) else DigitsValue(ds, 10))
  }

  /** An unsigned StrDecimalLiteral without `Infinity`: `1`, `1.`, `.5`, `12.5e-3`. */
  function DecimalLiteral(u: string): Option<real> {
    var ip := DigitPrefix(u, 10);
    var rest := u[|ip|..];
    var hasDot := rest != [] && rest[0] == '.';
    var fp := if hasDot then DigitPrefix(rest[1..], 10) else [];
    var tail := if hasDot then rest[1 + |fp|..] else rest;
    if ip == [] && fp == [] then None
    else match Exponent(tail)
      case None => None
      case Some(e) => Some(Scale(DigitsValue(ip + fp, 10), e - |fp|))
  }

  /** `0x`, `0o` and `0b` literals: only digits of the radix may follow, at least one. */
  function RadixLiteral(ds: string, radix: nat): Number {
    if ds != [] && DigitPrefix(ds, radix) == ds then Finite(DigitsValue(ds, radix) as real) else NotANumber
  }

  /** StringToNumber: the conversion `opcao == 1` applies to the string `opcao`. */
  function StringToNumber(s: string): Number {
    var t := Trim(s);
    if t == [] then Finite(0.0)
    else if |t| >= 2 && t[0] == '0' && (t[1] == 'x' || t[1] == 'X') then RadixLiteral(t[2..], 16)
    else if |t| >= 2 && t[0] == '0' && (t[1] == 'o' || t[1] == 'O') then RadixLiteral(t[2..], 8)
    else if |t| >= 2 && t[0] == '0' && (t[1] == 'b' || t[1] == 'B') then RadixLiteral(t[2..], 2)
    else
      var (neg, u) := Sign(t);
      if u == "Infinity" then Infinite(neg)
      else match DecimalLiteral(u)
        case None => NotANumber
        case Some(q) => Finite(if neg then -q else q)
  }

  /** Loose equality `s == k` between a string and an integer number. */
  predicate LooseEquals(s: string, k: int) {
    StringToNumber(s) == Finite(k as real)
  }

  /** A run of decimal digits is loosely equal to its value, leading zeros included. */
  lemma LooseEqualsDigits(ds: string)
    requires ds != [] && forall i :: 0 <= i < |ds| ==> IsDigit(ds[i])
    ensures LooseEquals(ds, DigitsValue(ds, 10))
  {
    TrimStartNoSpace(ds);
    TrimEndNoSpace(ds);
    assert Trim(ds) == ds;
    assert |ds| >= 2 ==> IsDigit(ds[1]);
    assert Sign(ds) == (false, ds);
    assert ds != "Infinity" by { assert IsDigit(ds[0]); }
    assert !(|ds| >= 2 && ds[0] == '0' && (ds[1] == 'x' || ds[1] == 'X'));
    assert !(|ds| >= 2 && ds[0] == '0' && (ds[1] == 'o' || ds[1] == 'O'));
    assert !(|ds| >= 2 && ds[0] == '0' && (ds[1] == 'b' || ds[1] == 'B'));
    DecimalLiteralDigits(ds);
    assert StringToNumber(ds) == Finite(DigitsValue(ds, 10) as real);
  }

  /** A run of decimal digits is a decimal literal with no fraction and no exponent. */
  lemma DecimalLiteralDigits(ds: string)
    requires ds != [] && forall i :: 0 <= i < |ds| ==> IsDigit(ds[i])
    ensures DecimalLiteral(ds) == Some(DigitsValue(ds, 10) as real)
  {
    AllDigitsPrefix(ds);
    var ip := DigitPrefix(ds, 10);
    assert ip == ds;
    assert ds[|ip|..] == [];
    assert Exponent([]) == Some(0);
    assert ip + [] == ds;
    assert Scale(DigitsValue(ds, 10), 0) == DigitsValue(ds, 10) as real by {
      assert Pow10(0) == 1;
    }
  }

  /** The decimal representation of a natural number is loosely equal to it. */
  lemma LooseEqualsNumeral(n: nat)
    ensures LooseEquals(NatToString(n), n)
  {
    LooseEqualsDigits(NatToString(n));
    NatToStringValue(n);
  }

  /** A string equal to one number is equal to no other: the option branches exclude each other. */
  lemma LooseEqualsUnique(s: string, j: int, k: int)
    requires j != k
    ensures !(LooseEquals(s, j) && LooseEquals(s, k))
  {
  }
}
