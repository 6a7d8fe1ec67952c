/** The few pieces of the JavaScript runtime that the modelled code relies on,
    stated over Dafny strings: `String.prototype.split` with a one-character
    separator, `Array.prototype.join`, `parseInt` on decimal text,
    `Number.prototype.toString` on integers and `String.prototype.replace`
    with a string pattern. */
module JsBuiltins {
  import opened Wrappers

  /** No element occurs twice. */
  predicate NoDup<T(==)>(s: seq<T>) {
    forall i, j :: 0 <= i < j < |s| ==> s[i] != s[j]
  }

  /** The last element of a duplicate-free sequence is not among the others,
      which are duplicate-free too. */
  lemma LastNotInPrefix<T>(s: seq<T>)
    requires NoDup(s) && |s| > 0
    ensures s[|s| - 1] !in s[..|s| - 1]
    ensures NoDup(s[..|s| - 1])
  {
    var p := s[..|s| - 1];
    assert forall k :: 0 <= k < |p| ==> p[k] == s[k] && s[k] != s[|s| - 1];
  }

  /** `s.split(c)`: the pieces between occurrences of `c`; never empty
      (`"".split(c)` is `[""]`). */
  function Split(s: string, c: char): (r: seq<string>)
    ensures |r| >= 1
    decreases |s|
  {
    if s == [] then [""]
    else
      var rest := Split(s[1..], c);
      if s[0] == c then [""] + rest else [[s[0]] + rest[0]] + rest[1..]
  }

  /** `xs.join(sep)`. */
  function Join(xs: seq<string>, sep: string): string
    decreases |xs|
  {
    if xs == [] then ""
    else if |xs| == 1 then xs[0]
    else xs[0] + sep + Join(xs[1..], sep)
  }

  /** No piece produced by `Split` contains the separator. */
  lemma {:induction false} SplitPiecesAvoidSeparator(s: string, c: char)
    ensures forall i :: 0 <= i < |Split(s, c)| ==> c !in Split(s, c)[i]
    decreases |s|
  {
    if s != [] {
      SplitPiecesAvoidSeparator(s[1..], c);
    }
  }

  /** A prefix free of the separator is the first piece, and the text after
      the separator is split on its own. */
  lemma {:induction false} SplitAfterFirst(a: string, c: char, b: string)
    requires c !in a
    ensures Split(a + [c] + b, c) == [a] + Split(b, c)
    decreases |a|
  {
    if a == [] {
      assert a + [c] + b == [c] + b;
      assert ([c] + b)[1..] == b;
    } else {
      assert (a + [c] + b)[1..] == a[1..] + [c] + b;
      SplitAfterFirst(a[1..], c, b);
      assert [a[0]] + a[1..] == a;
    }
  }

  /** Text without the separator is a single piece. */
  lemma {:induction false} SplitWithoutSeparator(s: string, c: char)
    requires c !in s
    ensures Split(s, c) == [s]
    decreases |s|
  {
    if s != [] {
      SplitWithoutSeparator(s[1..], c);
      assert [s[0]] + s[1..] == s;
    }
  }

  /** Splitting a join on a one-character separator gives the pieces back,
      when no piece contains the separator. */
  lemma {:induction false} SplitJoin(xs: seq<string>, c: char)
    requires |xs| >= 1
    requires forall i :: 0 <= i < |xs| ==> c !in xs[i]
    ensures Split(Join(xs, [c]), c) == xs
    decreases |xs|
  {
    if |xs| == 1 {
      SplitWithoutSeparator(xs[0], c);
    } else {
      SplitJoin(xs[1..], c);
      assert xs[0] + [c] + Join(xs[1..], [c]) == Join(xs, [c]);
      SplitAfterFirst(xs[0], c, Join(xs[1..], [c]));
      assert [xs[0]] + xs[1..] == xs;
    }
  }

  /** Joining appends each further element after one separator, so the
      elements appear in the joined text in list order. */
  lemma {:induction false} JoinSnoc(xs: seq<string>, x: string, sep: string)
    requires |xs| >= 1
    ensures Join(xs + [x], sep) == Join(xs, sep) + sep + x
    decreases |xs|
  {
    if |xs| == 1 {
      assert (xs + [x])[1..] == [x];
    } else {
      assert (xs + [x])[1..] == xs[1..] + [x];
      JoinSnoc(xs[1..], x, sep);
    }
  }

  predicate IsDigit(ch: char) {
    '0' <= ch <= '9'
  }

  function DigitValue(ch: char): nat
    requires IsDigit(ch)
  {
    (ch as int) - ('0' as int)
  }

  function DigitChar(d: nat): (ch: char)
    requires d < 10
    ensures IsDigit(ch) && DigitValue(ch) == d
  {
    (('0' as int) + d) as char
  }

  /** The longest prefix of `s` made of decimal digits. */
  function DigitPrefix(s: string): (r: string)
    ensures |r| <= |s| && r == s[..|r|]
    ensures forall i :: 0 <= i < |r| ==> IsDigit(r[i])
    ensures |r| < |s| ==> !IsDigit(s[|r|])
    decreases |s|
  {
    if s == [] || !IsDigit(s[0]) then [] else [s[0]] + DigitPrefix(s[1..])
  }

  /** The value of a string of decimal digits, most significant first. */
  function DigitsValue(d: string): nat
    requires forall i :: 0 <= i < |d| ==> IsDigit(d[i])
    decreases |d|
  {
    if d == [] then 0 else DigitsValue(d[..|d| - 1]) * 10 + DigitValue(d[|d| - 1])
  }

  /** The characters `parseInt` skips before the number: the ECMAScript
      WhiteSpace (tab, vertical tab, form feed, byte order mark and every
      space separator) and LineTerminator characters. */
  predicate IsJsWhiteSpace(ch: char) {
    var c := ch as int;
    if c <= 0x20 then (0x09 <= c <= 0x0D) || c == 0x20
    else if c < 0x2000 then c == 0xA0 || c == 0x1680
    else if c <= 0x200A then true
    else if c < 0x3000 then c == 0x2028 || c == 0x2029 || c == 0x202F || c == 0x205F
    else c == 0x3000 || c == 0xFEFF
  }

  /** The first character of a rendered integer is not white space. */
  lemma SignOrDigitIsNotWhiteSpace(ch: char)
    requires ch == '-' || IsDigit(ch)
    ensures !IsJsWhiteSpace(ch)
  {
  }

  /** `s` without its leading white space. */
  function TrimStart(s: string): string
    decreases |s|
  {
    if s != [] && IsJsWhiteSpace(s[0]) then TrimStart(s[1..]) else s
  }

  predicate IsHexDigit(ch: char) {
    IsDigit(ch) || 'a' <= ch <= 'f' || 'A' <= ch <= 'F'
  }

  function HexDigitValue(ch: char): (v: nat)
    requires IsHexDigit(ch)
    ensures v < 16
  {
    if IsDigit(ch) then DigitValue(ch)
    else if 'a' <= ch <= 'f' then (ch as int) - ('a' as int) + 10
    else (ch as int) - ('A' as int) + 10
  }

  /** The longest prefix of `s` made of hexadecimal digits. */
  function HexPrefix(s: string): (r: string)
    ensures |r| <= |s| && r == s[..|r|]
    ensures forall i :: 0 <= i < |r| ==> IsHexDigit(r[i])
    ensures |r| < |s| ==> !IsHexDigit(s[|r|])
    decreases |s|
  {
    if s == [] || !IsHexDigit(s[0]) then [] else [s[0]] + HexPrefix(s[1..])
  }

  /** The value of a string of hexadecimal digits, most significant first. */
  function HexValue(d: string): nat
    requires forall i :: 0 <= i < |d| ==> IsHexDigit(d[i])
    decreases |d|
  {
    if d == [] then 0 else HexValue(d[..|d| - 1]) * 16 + HexDigitValue(d[|d| - 1])
  }

  /** Text after the white space and the sign. */
  function UnsignedPart(t: string): string {
    if |t| > 0 && (t[0] == '-' || t[0] == '+') then t[1..] else t
  }

  /** Whether the unsigned text starts with the `0x` / `0X` prefix that
      switches `parseInt` without a radix to base 16. */
  predicate HasHexPrefix(u: string) {
    |u| >= 2 && u[0] == '0' && (u[1] == 'x' || u[1] == 'X')
  }

  /** `parseInt(s)` without a radix (ECMAScript section 19.2.5): leading
      white space is skipped, then an optional sign; a `0x`/`0X` prefix
      selects base 16, otherwise base 10; then the longest run of digits of
      that base is read. `None` stands for `NaN`: no digit where the number
      should start. The value is exact (no rounding to a double). */
  function ParseInt(s: string): Option<int> {
    var t := TrimStart(s);
    var negative := |t| > 0 && t[0] == '-';
    var u := UnsignedPart(t);
    if HasHexPrefix(u) then
      var digits := HexPrefix(u[2..]);
      if digits == [] then None
      else
        var v: int := HexValue(digits);
        Some(if negative then -v else v)
    else
      var digits := DigitPrefix(u);
      if digits == [] then None
      else
        var v: int := DigitsValue(digits);
        Some(if negative then -v else v)
  }

  /** `parseInt` gives `NaN` exactly when no digit of the selected base
      follows the white space, the sign and the base prefix. */
  lemma ParseIntNaN(s: string)
    ensures var u := UnsignedPart(TrimStart(s));
      ParseInt(s).None? <==> if HasHexPrefix(u) then HexPrefix(u[2..]) == [] else DigitPrefix(u) == []
  {
  }

  /** Leading white space does not change what `parseInt` reads. */
  lemma ParseIntSkipsWhiteSpace(w: string, s: string)
    requires forall i :: 0 <= i < |w| ==> IsJsWhiteSpace(w[i])
    ensures ParseInt(w + s) == ParseInt(s)
  {
    TrimStartSkips(w, s);
  }

  lemma {:induction false} TrimStartSkips(w: string, s: string)
    requires forall i :: 0 <= i < |w| ==> IsJsWhiteSpace(w[i])
    ensures TrimStart(w + s) == TrimStart(s)
    decreases |w|
  {
    if w != [] {
      assert (w + s)[1..] == w[1..] + s;
      TrimStartSkips(w[1..], s);
    } else {
      assert w + s == s;
    }
  }

  /** Readings that pin the white space, sign and base rules down. */
  lemma ParseIntSkipsLeadingSpace()
    ensures ParseInt(" 5") == Some(5)
  {
    assert TrimStart(" 5") == TrimStart("5") == "5";
    assert DigitPrefix("5") == "5";
  }

  lemma ParseIntStopsAtNonDigit()
    ensures ParseInt("\t-12abc") == Some(-12)
  {
    assert TrimStart("\t-12abc") == TrimStart("-12abc") == "-12abc";
    assert UnsignedPart("-12abc") == "12abc";
    assert DigitPrefix("12abc") == "12";
    assert "12"[..1] == "1" && "1"[..0] == "";
    assert DigitsValue("12") == DigitsValue("1") * 10 + 2 == 12;
  }

  lemma ParseIntReadsHex()
    ensures ParseInt("0x1A") == Some(26)
  {
    assert TrimStart("0x1A") == "0x1A";
    assert "0x1A"[2..] == "1A";
    assert HexPrefix("1A") == "1A";
    assert "1A"[..1] == "1" && "1"[..0] == "";
    assert HexValue("1A") == HexValue("1") * 16 + 10 == 26;
  }

  lemma ParseIntReadsSignedHex()
    ensures ParseInt("-0X1a") == Some(-26)
  {
    assert TrimStart("-0X1a") == "-0X1a";
    assert UnsignedPart("-0X1a") == "0X1a";
    assert "0X1a"[2..] == "1a";
    assert HexPrefix("1a") == "1a";
    assert "1a"[..1] == "1";
    assert HexValue("1a") == HexValue("1") * 16 + 10 == 26;
  }

  lemma ParseIntHexNeedsDigit()
    ensures ParseInt("0x") == None && ParseInt("0xg") == None
  {
    assert TrimStart("0x") == "0x";
    assert "0x"[2..] == "";
    assert TrimStart("0xg") == "0xg";
    assert "0xg"[2..] == "g";
  }

  lemma ParseIntNaNWithoutDigits()
    ensures ParseInt("") == None && ParseInt("-") == None && ParseInt("abc") == None
  {
    assert TrimStart("-") == "-";
    assert UnsignedPart("-") == "";
    assert TrimStart("abc") == "abc";
  }

  /** `n.toString()` for a non-negative integer: decimal, no leading zero. */
  function NatToString(n: nat): (r: string)
    ensures |r| >= 1
    ensures forall i :: 0 <= i < |r| ==> IsDigit(r[i])
    ensures r[0] == '0' <==> n == 0
    decreases n
  {
    if n < 10 then [DigitChar(n)] else NatToString(n / 10) + [DigitChar(n % 10)]
  }

  /** `n.toString()` for any integer: a minus sign exactly for a negative
      number, then the decimal digits of its magnitude. */
  function IntToString(n: int): (r: string)
    ensures |r| >= 1 && (r[0] == '-' <==> n < 0)
    ensures n < 0 ==> |r| >= 2 && r[1..] == NatToString(-n)
    ensures n >= 0 ==> r == NatToString(n)
  {
    if n < 0 then "-" + NatToString(-n) else NatToString(n)
  }

  /** A rendered integer holds nothing but a sign and digits, so no space. */
  lemma IntToStringHasNoSpace(n: int)
    ensures ' ' !in IntToString(n)
  {
    var r := IntToString(n);
    if n < 0 {
      assert r == "-" + NatToString(-n);
    }
    assert forall i :: 0 <= i < |r| ==> r[i] == '-' || IsDigit(r[i]);
  }

  lemma {:induction false} DigitsValueOfNatToString(n: nat)
    ensures DigitsValue(NatToString(n)) == n
    decreases n
  {
    if n >= 10 {
      DigitsValueOfNatToString(n / 10);
      var s := NatToString(n);
      assert s[..|s| - 1] == NatToString(n / 10);
    }
  }

  lemma DigitPrefixOfDigits(s: string)
    requires forall i :: 0 <= i < |s| ==> IsDigit(s[i])
    ensures DigitPrefix(s) == s
  {
  }

  /** `parseInt` reads back what `toString` printed. */
  lemma ParseIntOfIntToString(n: int)
    ensures ParseInt(IntToString(n)) == Some(n)
  {
    var digits := NatToString(if n < 0 then -n else n);
    DigitPrefixOfDigits(digits);
    DigitsValueOfNatToString(if n < 0 then -n else n);
    var t := IntToString(n);
    assert t[0] == '-' || IsDigit(t[0]);
    SignOrDigitIsNotWhiteSpace(t[0]);
    assert TrimStart(t) == t;
    if n < 0 {
      assert UnsignedPart(t) == digits;
    } else {
      assert digits[0] != '-' && digits[0] != '+';
      assert UnsignedPart(t) == digits;
    }
    assert !HasHexPrefix(digits) by {
      if |digits| >= 2 {
        assert IsDigit(digits[1]);
      }
    }
  }

  /** Whether `pat` occurs in `s` starting at index `i`. */
  predicate OccursAt(s: string, pat: string, i: int) {
    0 <= i && i + |pat| <= |s| && s[i..i + |pat|] == pat
  }

  /** `s.replace(pat, rep)` with a string pattern: only the first occurrence
      is replaced (an empty pattern matches at the start). */
  function ReplaceFirst(s: string, pat: string, rep: string): string
    decreases |s|
  {
    if |s| < |pat| then s
    else if s[..|pat|] == pat then rep + s[|pat|..]
    else [s[0]] + ReplaceFirst(s[1..], pat, rep)
  }

  /** Without an occurrence of the pattern, `replace` returns the text
      unchanged. */
  lemma {:induction false} ReplaceFirstWithoutMatch(s: string, pat: string, rep: string)
    requires forall i :: 0 <= i <= |s| ==> !OccursAt(s, pat, i)
    ensures ReplaceFirst(s, pat, rep) == s
    decreases |s|
  {
    if |s| >= |pat| {
      assert !OccursAt(s, pat, 0);
      forall i | 0 <= i <= |s[1..]|
        ensures !OccursAt(s[1..], pat, i)
      {
        assert !OccursAt(s, pat, i + 1);
        if i + |pat| <= |s[1..]| {
          assert s[1..][i..i + |pat|] == s[i + 1..i + 1 + |pat|];
        }
      }
      ReplaceFirstWithoutMatch(s[1..], pat, rep);
    }
  }

  /** Only the first occurrence is replaced: text before it is kept, the
      pattern is replaced, and the text after it is kept as is, even where
      it holds further occurrences. */
  lemma {:induction false} ReplaceFirstAtFirstMatch(s: string, pat: string, rep: string, k: nat)
    requires OccursAt(s, pat, k)
    requires forall i :: 0 <= i < k ==> !OccursAt(s, pat, i)
    ensures ReplaceFirst(s, pat, rep) == s[..k] + rep + s[k + |pat|..]
    decreases k
  {
    if k == 0 {
      assert s[..0] + rep == rep;
    } else {
      assert !OccursAt(s, pat, 0);
      var t := s[1..];
      assert t[k - 1..k - 1 + |pat|] == s[k..k + |pat|];
      forall i | 0 <= i < k - 1
        ensures !OccursAt(t, pat, i)
      {
        assert !OccursAt(s, pat, i + 1);
        assert t[i..i + |pat|] == s[i + 1..i + 1 + |pat|];
      }
      assert OccursAt(t, pat, k - 1);
      ReplaceFirstAtFirstMatch(t, pat, rep, k - 1);
      assert ReplaceFirst(s, pat, rep) == [s[0]] + ReplaceFirst(t, pat, rep);
      assert [s[0]] + t[..k - 1] == s[..k];
      assert t[k - 1 + |pat|..] == s[k + |pat|..];
      AppendAssoc3([s[0]], t[..k - 1], rep, s[k + |pat|..]);
    }
  }

  lemma AppendAssoc3(a: string, b: string, c: string, d: string)
    ensures a + (b + c + d) == (a + b) + c + d
  {
  }
}
