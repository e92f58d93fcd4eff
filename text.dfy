/**
 * String helpers the host page relies on: JavaScript's `String.prototype.trim`,
 * `Number.prototype.toString` for non-negative integers, and `padStart`.
 */
module Text {

  /** The characters JavaScript's `trim` removes (WhiteSpace and LineTerminator). */
  predicate IsWhitespace(c: char) {
    c == ' ' || c == '\t' || c == '\n' || c == '\r' || c == '\U{000B}' || c == '\U{000C}'
    || c == '\U{00A0}' || c == '\U{1680}' || ('\U{2000}' <= c <= '\U{200A}')
    || c == '\U{2028}' || c == '\U{2029}' || c == '\U{202F}' || c == '\U{205F}'
    || c == '\U{3000}' || c == '\U{FEFF}'
  }

  /** Every character of `s` is whitespace (the empty string included). */
  predicate Blank(s: string) {
    forall i :: 0 <= i < |s| ==> IsWhitespace(s[i])
  }

  /** Number of whitespace characters at the start of `s`. */
  function LeadingSpace(s: string): (n: nat)
    ensures n <= |s|
  {
    if s == [] || !IsWhitespace(s[0]) then 0 else 1 + LeadingSpace(s[1..])
  }

  /** Number of whitespace characters at the end of `s`. */
  function TrailingSpace(s: string): (n: nat)
    ensures n <= |s|
  {
    if s == [] || !IsWhitespace(s[|s| - 1]) then 0 else 1 + TrailingSpace(s[..|s| - 1])
  }

  /** `LeadingSpace(s)` counts exactly the whitespace run that opens `s`. */
  lemma {:induction false} LeadingSpaceSpec(s: string)
    ensures forall i :: 0 <= i < LeadingSpace(s) ==> IsWhitespace(s[i])
    ensures LeadingSpace(s) < |s| ==> !IsWhitespace(s[LeadingSpace(s)])
    decreases |s|
  {
    if s != [] && IsWhitespace(s[0]) {
      LeadingSpaceSpec(s[1..]);
    }
  }

  /** `TrailingSpace(s)` counts exactly the whitespace run that closes `s`. */
  lemma {:induction false} TrailingSpaceSpec(s: string)
    ensures forall i :: |s| - TrailingSpace(s) <= i < |s| ==> IsWhitespace(s[i])
    ensures TrailingSpace(s) < |s| ==> !IsWhitespace(s[|s| - 1 - TrailingSpace(s)])
    decreases |s|
  {
    if s != [] && IsWhitespace(s[|s| - 1]) {
      TrailingSpaceSpec(s[..|s| - 1]);
    }
  }

  /**
   * JavaScript's `s.trim()`: the slice of `s` that starts after its leading
   * whitespace and ends before its trailing whitespace.
   */
  function Trim(s: string): string {
    var t := s[LeadingSpace(s)..];
    t[..|t| - TrailingSpace(t)]
  }

  /**
   * What `trim` promises: the result is empty exactly for a blank string,
   * otherwise it neither starts nor ends with whitespace; it is the slice of
   * `s` after the leading whitespace, and only whitespace follows it.
   */
  lemma TrimSpec(s: string)
    ensures Trim(s) == "" <==> Blank(s)
    ensures Trim(s) != "" ==> !IsWhitespace(Trim(s)[0]) && !IsWhitespace(Trim(s)[|Trim(s)| - 1])
    ensures LeadingSpace(s) + |Trim(s)| <= |s| && Trim(s) == s[LeadingSpace(s)..LeadingSpace(s) + |Trim(s)|]
    ensures Blank(s[LeadingSpace(s) + |Trim(s)|..])
  {
    TrimEmptyIffBlank(s);
    TrimEnds(s);
    TrimSlice(s);
  }

  lemma TrimEmptyIffBlank(s: string)
    ensures Trim(s) == "" <==> Blank(s)
  {
    var a := LeadingSpace(s);
    var t := s[a..];
    LeadingSpaceSpec(s);
    if a < |s| {
      TrailingSpaceSpec(t);
      assert t[0] == s[a];
      assert Trim(s)[0] == s[a];
    }
  }

  lemma TrimEnds(s: string)
    ensures Trim(s) != "" ==> !IsWhitespace(Trim(s)[0]) && !IsWhitespace(Trim(s)[|Trim(s)| - 1])
  {
    var a := LeadingSpace(s);
    var t := s[a..];
    var b := TrailingSpace(t);
    var r := t[..|t| - b];
    if r != "" {
      LeadingSpaceSpec(s);
      TrailingSpaceSpec(t);
      assert r[0] == s[a];
      assert r[|r| - 1] == t[|t| - 1 - b];
    }
  }

  lemma TrimSlice(s: string)
    ensures LeadingSpace(s) + |Trim(s)| <= |s| && Trim(s) == s[LeadingSpace(s)..LeadingSpace(s) + |Trim(s)|]
    ensures Blank(s[LeadingSpace(s) + |Trim(s)|..])
  {
    var a := LeadingSpace(s);
    var t := s[a..];
    var b := TrailingSpace(t);
    var r := t[..|t| - b];
    TrailingSpaceSpec(t);
    assert r == s[a..a + |r|];
    assert s[a + |r|..] == t[|t| - b..];
  }

  /** Trimming twice is trimming once. */
  lemma TrimIdempotent(s: string)
    ensures Trim(Trim(s)) == Trim(s)
  {
    TrimSpec(s);
    var r := Trim(s);
    if r != "" {
      LeadingSpaceSpec(r);
      TrailingSpaceSpec(r);
      assert LeadingSpace(r) == 0;
      assert TrailingSpace(r) == 0;
    }
  }

  predicate IsDigit(c: char) {
    '0' <= c <= '9'
  }

  predicate AllDigits(s: string) {
    forall i :: 0 <= i < |s| ==> IsDigit(s[i])
  }

  function DigitChar(d: nat): (c: char)
    requires d < 10
    ensures IsDigit(c) && c as int - '0' as int == d
  {
    (d + '0' as int) as char
  }

  /** The number a string of decimal digits denotes (the empty string denotes 0). */
  function DecimalValue(s: string): nat
    requires AllDigits(s)
  {
    if s == [] then 0 else 10 * DecimalValue(s[..|s| - 1]) + (s[|s| - 1] as int - '0' as int)
  }

  /** `n.toString()` for a non-negative integer `n`: its decimal digits, no leading zero. */
  function Decimal(n: nat): string {
    if n < 10 then [DigitChar(n)] else Decimal(n / 10) + [DigitChar(n % 10)]
  }

  /** `Decimal(n)` is a non-empty digit string without a leading zero that denotes `n`. */
  lemma {:induction false} DecimalSpec(n: nat)
    ensures |Decimal(n)| >= 1 && AllDigits(Decimal(n))
    ensures Decimal(n)[0] == '0' ==> n == 0
    ensures DecimalValue(Decimal(n)) == n
  {
    if n >= 10 {
      DecimalSpec(n / 10);
      var r := Decimal(n);
      assert r[..|r| - 1] == Decimal(n / 10);
    }
  }

  /** `s.padStart(width, c)`: `c` repeated in front of `s` until it is `width` long. */
  function PadStart(s: string, width: nat, c: char): (r: string)
    ensures |r| == if |s| >= width then |s| else width
    ensures r[|r| - |s|..] == s
    ensures forall i :: 0 <= i < |r| - |s| ==> r[i] == c
  {
    if |s| >= width then s else seq(width - |s|, _ => c) + s
  }

  /** Leading zeros do not change the value of a digit string. */
  lemma {:induction false} LeadingZerosValue(z: string, s: string)
    requires forall i :: 0 <= i < |z| ==> z[i] == '0'
    requires AllDigits(s)
    ensures AllDigits(z + s) && DecimalValue(z + s) == DecimalValue(s)
    decreases |s|
  {
    if s == [] {
      assert z + s == z;
      ZerosValue(z);
    } else {
      var init := s[..|s| - 1];
      LeadingZerosValue(z, init);
      assert (z + s)[..|z + s| - 1] == z + init;
    }
  }

  lemma {:induction false} ZerosValue(z: string)
    requires forall i :: 0 <= i < |z| ==> z[i] == '0'
    ensures AllDigits(z) && DecimalValue(z) == 0
  {
    if z != [] {
      ZerosValue(z[..|z| - 1]);
    }
  }

  /** A character outside the Basic Multilingual Plane, which JavaScript stores as a surrogate pair. */
  predicate Astral(c: char) {
    c as int > 0xFFFF
  }

  /** JavaScript's `s.length`: UTF-16 code units, two for an astral character. */
  function Utf16Length(s: string): (n: nat)
    ensures |s| <= n <= 2 * |s|
  {
    if s == [] then 0 else (if Astral(s[0]) then 2 else 1) + Utf16Length(s[1..])
  }

  /** The length of a concatenation is the sum of the lengths. */
  lemma {:induction false} Utf16LengthAppend(a: string, b: string)
    ensures Utf16Length(a + b) == Utf16Length(a) + Utf16Length(b)
    decreases |a|
  {
    if a != [] {
      assert (a + b)[1..] == a[1..] + b;
      Utf16LengthAppend(a[1..], b);
    } else {
      assert a + b == b;
    }
  }

  /** `length` counts characters exactly when none of them is astral. */
  lemma {:induction false} Utf16LengthBmp(s: string)
    ensures Utf16Length(s) == |s| <==> forall i :: 0 <= i < |s| ==> !Astral(s[i])
    decreases |s|
  {
    if s != [] {
      Utf16LengthBmp(s[1..]);
      if forall i :: 0 <= i < |s| ==> !Astral(s[i]) {
        forall i | 0 <= i < |s[1..]| ensures !Astral(s[1..][i]) {
          assert s[1..][i] == s[i + 1];
        }
      }
      if Utf16Length(s) == |s| {
        forall i | 0 <= i < |s| ensures !Astral(s[i]) {
          if i > 0 {
            assert s[i] == s[1..][i - 1];
          }
        }
      }
    }
  }

  /** The ideographic space an input method types, the no-break space and the byte-order mark are whitespace to `trim`. */
  lemma UnicodeSpacesTrimmed()
    ensures Blank("\U{3000}") && Trim("\U{3000}") == ""
    ensures Trim("\U{00A0}hi\U{FEFF}") == "hi"
  {
    TrimSpec("\U{3000}");
  }
}
