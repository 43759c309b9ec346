/** The few `java.lang.String` and `Integer` operations the experiment catalogue relies on,
    defined over `seq<char>`. */
module JavaStrings {
  import opened Wrappers

  // ---------------------------------------------------------------------------------------
  // compareTo

  /** `a.compareTo(b)`: the difference of the first differing characters, or of the
      lengths when one string is a prefix of the other. */
  function CompareTo(a: string, b: string): int
  {
    if |a| == 0 || |b| == 0 then |a| - |b|
    else if a[0] != b[0] then a[0] as int - b[0] as int
    else CompareTo(a[1..], b[1..])
  }

  /** `compareTo` is antisymmetric: swapping the operands negates the result. */
  lemma {:induction false} CompareToAntisymmetric(a: string, b: string)
    ensures CompareTo(b, a) == -CompareTo(a, b)
  {
    if |a| > 0 && |b| > 0 && a[0] == b[0] {
      CompareToAntisymmetric(a[1..], b[1..]);
    }
  }

  /** `compareTo` is 0 exactly for equal strings. */
  lemma {:induction false} CompareToZeroIffEqual(a: string, b: string)
    ensures CompareTo(a, b) == 0 <==> a == b
  {
    if |a| > 0 && |b| > 0 && a[0] == b[0] {
      CompareToZeroIffEqual(a[1..], b[1..]);
      assert a == [a[0]] + a[1..] && b == [b[0]] + b[1..];
    }
  }

  /** "Not after" is transitive, so a list kept in `compareTo` order stays ordered by
      insertion. */
  lemma {:induction false} CompareToTransitive(a: string, b: string, c: string)
    requires CompareTo(a, b) <= 0 && CompareTo(b, c) <= 0
    ensures CompareTo(a, c) <= 0
  {
    if |a| > 0 && |b| > 0 && |c| > 0 && a[0] == b[0] && b[0] == c[0] {
      CompareToTransitive(a[1..], b[1..], c[1..]);
    }
  }

  // ---------------------------------------------------------------------------------------
  // trim and split

  /** Java's whitespace for `trim`: every character up to U+0020. */
  predicate IsTrimmed(c: char)
  {
    c <= ' '
  }

  function TrimStart(s: string): (r: string)
    ensures |r| <= |s| && r == s[|s| - |r|..]
    ensures forall i :: 0 <= i < |s| - |r| ==> IsTrimmed(s[i])
    ensures |r| > 0 ==> !IsTrimmed(r[0])
  {
    if |s| > 0 && IsTrimmed(s[0]) then
      var r := TrimStart(s[1..]);
      assert s[1..][|s| - 1 - |r|..] == s[|s| - |r|..];
      assert forall i :: 1 <= i < |s| - |r| ==> s[i] == s[1..][i - 1];
      r
    else s
  }

  function TrimEnd(s: string): (r: string)
    ensures |r| <= |s| && r == s[..|r|]
    ensures forall i :: |r| <= i < |s| ==> IsTrimmed(s[i])
    ensures |r| > 0 ==> !IsTrimmed(r[|r| - 1])
  {
    if |s| > 0 && IsTrimmed(s[|s| - 1]) then
      var r := TrimEnd(s[..|s| - 1]);
      assert s[..|s| - 1][..|r|] == s[..|r|];
      assert forall i :: |r| <= i < |s| - 1 ==> s[i] == s[..|s| - 1][i];
      r
    else s
  }

  /** `s[i..j]` is what remains when only characters up to U+0020 are cut off both ends. */
  predicate TrimmedAround(s: string, i: int, j: int)
  {
    && 0 <= i <= j <= |s|
    && (forall k :: 0 <= k < i ==> IsTrimmed(s[k]))
    && (forall k :: j <= k < |s| ==> IsTrimmed(s[k]))
  }

  /** `s.trim()`: `s` without its leading and trailing characters up to U+0020. */
  function Trim(s: string): (r: string)
    ensures exists i, j :: TrimmedAround(s, i, j) && r == s[i..j]
    ensures |r| > 0 ==> !IsTrimmed(r[0]) && !IsTrimmed(r[|r| - 1])
  {
    var t := TrimStart(s);
    var r := TrimEnd(t);
    SliceAround(s, |s| - |t|, t, r);
    r
  }

  /** A prefix `r` of the suffix `t == s[i..]`, with only trimmed characters cut off
      either side, is the slice `s[i..i + |r|]` with only trimmed characters around it. */
  lemma SliceAround(s: string, i: int, t: string, r: string)
    requires 0 <= i <= |s| && t == s[i..] && |r| <= |t| && r == t[..|r|]
    requires forall k :: 0 <= k < i ==> IsTrimmed(s[k])
    requires forall k :: |r| <= k < |t| ==> IsTrimmed(t[k])
    ensures TrimmedAround(s, i, i + |r|) && r == s[i..i + |r|]
  {
    forall k | i + |r| <= k < |s|
      ensures IsTrimmed(s[k])
    {
      assert s[k] == t[k - i];
    }
  }

  /** Trimming twice is trimming once. */
  lemma TrimIdempotent(s: string)
    ensures Trim(Trim(s)) == Trim(s)
  {
    var r := Trim(s);
    assert TrimStart(r) == r;
    assert TrimEnd(r) == r;
  }

  /** `s.split("\n", 2)[0]`: the text before the first line break, or all of `s`. */
  function FirstLine(s: string): (r: string)
    ensures |r| <= |s| && '\n' !in r && r == s[..|r|]
    ensures |r| < |s| ==> s[|r|] == '\n'
  {
    if |s| == 0 || s[0] == '\n' then [] else [s[0]] + FirstLine(s[1..])
  }

  // ---------------------------------------------------------------------------------------
  // replace and substring

  /** `s.replace(c, r)` for a one-character target: every `c`, left to right, becomes `r`.
      Afterwards a character occurs only where the input had it (other than `c`) or where
      the replacement has it, so the target is gone when the replacement lacks it. */
  function ReplaceChar(s: string, c: char, r: string): (t: string)
    ensures forall x :: x in t ==> (x != c && x in s) || x in r
    ensures c !in r ==> c !in t
  {
    if |s| == 0 then []
    else
      var rest := ReplaceChar(s[1..], c, r);
      assert forall y :: y in s[1..] ==> y in s;
      (if s[0] == c then r else [s[0]]) + rest
  }

  /** Replacement works character by character, so it distributes over concatenation. */
  lemma {:induction false} ReplaceCharConcat(a: string, b: string, c: char, r: string)
    ensures ReplaceChar(a + b, c, r) == ReplaceChar(a, c, r) + ReplaceChar(b, c, r)
  {
    if |a| > 0 {
      assert (a + b)[0] == a[0] && (a + b)[1..] == a[1..] + b;
      ReplaceCharConcat(a[1..], b, c, r);
      var head := if a[0] == c then r else [a[0]];
      calc {
        ReplaceChar(a + b, c, r);
        head + ReplaceChar(a[1..] + b, c, r);
        head + (ReplaceChar(a[1..], c, r) + ReplaceChar(b, c, r));
        (head + ReplaceChar(a[1..], c, r)) + ReplaceChar(b, c, r);
      }
    } else {
      assert a + b == b;
    }
  }

  /** Replacing a character that does not occur changes nothing. */
  lemma {:induction false} ReplaceCharAbsent(s: string, c: char, r: string)
    requires c !in s
    ensures ReplaceChar(s, c, r) == s
  {
    if |s| > 0 {
      ReplaceCharAbsent(s[1..], c, r);
    }
  }

  lemma ReplaceCharSingle(x: char, c: char, r: string)
    ensures ReplaceChar([x], c, r) == if x == c then r else [x]
  {
    assert [x][1..] == [];
  }

  /** `s.substring(begin, end)`, which throws `StringIndexOutOfBoundsException` unless
      0 <= begin <= end <= length. What it returns is the part of `s` between the two
      indices: the text before, the result and the text after make up `s` again. */
  function Substring(s: string, begin: int, end: int): (r: Option<string>)
    ensures r.Some? <==> 0 <= begin <= end <= |s|
    ensures r.Some? ==> |r.value| == end - begin && s[..begin] + r.value + s[end..] == s
  {
    if 0 <= begin <= end <= |s| then
      assert s[..begin] + s[begin..end] + s[end..] == s;
      Some(s[begin..end])
    else None
  }

  // ---------------------------------------------------------------------------------------
  // Integer.valueOf and String.valueOf

  const IntMin: int := -0x8000_0000
  const IntMax: int := 0x7fff_ffff

  predicate IsDigit(c: char)
  {
    '0' <= c <= '9'
  }

  predicate AllDigits(s: string)
  {
    forall i :: 0 <= i < |s| ==> IsDigit(s[i])
  }

  /** The value of a decimal digit string, most significant digit first. */
  function DigitsValue(s: string): (v: nat)
    requires AllDigits(s)
  {
    if |s| == 0 then 0 else DigitsValue(s[..|s| - 1]) * 10 + (s[|s| - 1] as int - '0' as int)
  }

  /** `Integer.valueOf(s)`: an optional sign, one or more ASCII digits, and a value that
      fits in 32 bits; anything else is a `NumberFormatException` (`None`). */
  function ParseInt(s: string): (r: Option<int>)
    ensures r.Some? ==> IntMin <= r.value <= IntMax
    // unsigned, `+` and `-` forms whose value fits
    ensures AllDigits(s) && |s| > 0 && DigitsValue(s) <= IntMax ==> r == Some(DigitsValue(s))
    ensures |s| > 1 && s[0] == '+' && AllDigits(s[1..]) && DigitsValue(s[1..]) <= IntMax
            ==> r == Some(DigitsValue(s[1..]))
    ensures |s| > 1 && s[0] == '-' && AllDigits(s[1..]) && DigitsValue(s[1..]) <= -IntMin
            ==> r == Some(-(DigitsValue(s[1..]) as int))
    // out of range
    ensures AllDigits(s) && |s| > 0 && DigitsValue(s) > IntMax ==> r.None?
    ensures |s| > 1 && s[0] == '+' && AllDigits(s[1..]) && DigitsValue(s[1..]) > IntMax ==> r.None?
    ensures |s| > 1 && s[0] == '-' && AllDigits(s[1..]) && DigitsValue(s[1..]) > -IntMin ==> r.None?
    // not a number: empty, a lone sign, or a character that is neither digit nor leading sign
    ensures |s| == 0 || s == "+" || s == "-" ==> r.None?
    ensures |s| > 0 && !IsDigit(s[0]) && s[0] != '-' && s[0] != '+' ==> r.None?
    ensures |s| > 0 && (exists i :: 0 < i < |s| && !IsDigit(s[i])) ==> r.None?
  {
    if |s| == 0 then None
    else
      var negative := s[0] == '-';
      var digits := if s[0] == '-' || s[0] == '+' then s[1..] else s;
      assert forall i :: 0 < i < |s| ==> s[i] == digits[i - (|s| - |digits|)];
      if |digits| == 0 || !AllDigits(digits) then None
      else
        var magnitude: int := DigitsValue(digits);
        var v := if negative then -magnitude else magnitude;
        if IntMin <= v <= IntMax then Some(v) else None
  }

  /** `String.valueOf(n)` for a non-negative `n`. */
  function NatToString(n: nat): (s: string)
    ensures |s| > 0 && AllDigits(s)
  {
    if n < 10 then [DigitChar(n)] else NatToString(n / 10) + [DigitChar(n % 10)]
  }

  function DigitChar(d: nat): (c: char)
    requires d < 10
    ensures IsDigit(c) && c as int - '0' as int == d
  {
    ('0' as int + d) as char
  }

  /** Printing a number and reading it back gives the number. */
  lemma {:induction false} DigitsValueOfNatToString(n: nat)
    ensures DigitsValue(NatToString(n)) == n
  {
    if n >= 10 {
      var s := NatToString(n);
      assert s[..|s| - 1] == NatToString(n / 10);
      DigitsValueOfNatToString(n / 10);
    }
  }

  /** `Integer.valueOf(String.valueOf(n)) == n` for every non-negative 32-bit `n`. */
  lemma ParseIntOfNatToString(n: nat)
    requires n <= IntMax
    ensures ParseInt(NatToString(n)) == Some(n)
  {
    DigitsValueOfNatToString(n);
  }
}
