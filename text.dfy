/** The JavaScript string operations the modelled code relies on. */
module Text {
  import opened Wrappers

  /** JavaScript truthiness of a string that may be missing: present and not empty. */
  predicate Truthy(s: Option<string>) {
    s.Some? && s.value != ""
  }

  /** `sub` occurs in `s` starting at index `i`. */
  predicate OccursAt(s: string, sub: string, i: nat) {
    i + |sub| <= |s| && s[i..i + |sub|] == sub
  }

  lemma ShiftOccurrence(s: string, sub: string)
    requires |s| > 0
    ensures forall i: nat :: OccursAt(s[1..], sub, i) <==> OccursAt(s, sub, i + 1)
  {
    forall i: nat
      ensures OccursAt(s[1..], sub, i) <==> OccursAt(s, sub, i + 1)
    {
      if i + 1 + |sub| <= |s| {
        assert s[1..][i..i + |sub|] == s[i + 1..i + 1 + |sub|];
      }
    }
  }

  /** `s.includes(sub)`: true iff `sub` occurs somewhere in `s`. */
  function Includes(s: string, sub: string): (b: bool)
    ensures b <==> exists i: nat :: OccursAt(s, sub, i)
    decreases |s|
  {
    if |sub| > |s| then false
    else if s[..|sub|] == sub then
      assert OccursAt(s, sub, 0);
      true
    else
      ShiftOccurrence(s, sub);
      var rest := Includes(s[1..], sub);
      assert rest ==> exists i: nat :: OccursAt(s, sub, i) by {
        if rest {
          var j: nat :| OccursAt(s[1..], sub, j);
          assert OccursAt(s, sub, j + 1);
        }
      }
      assert (exists i: nat :: OccursAt(s, sub, i)) ==> rest by {
        if exists i: nat :: OccursAt(s, sub, i) {
          var j: nat :| OccursAt(s, sub, j);
          assert j != 0;
          assert OccursAt(s[1..], sub, j - 1);
        }
      }
      rest
  }

  /** `toLowerCase` on one character, for the ASCII letters and the Latin-1 capitals
      U+00C0 to U+00DE other than the multiplication sign U+00D7. */
  function LowerChar(c: char): char {
    if 'A' <= c <= 'Z' || ('\U{C0}' <= c <= '\U{DE}' && c != '\U{D7}') then (c as int + 32) as char else c
  }

  /** `toLowerCase`, character by character, as `LowerChar` defines it. */
  function ToLowerCase(s: string): (r: string)
    ensures |r| == |s| && forall i :: 0 <= i < |s| ==> r[i] == LowerChar(s[i])
  {
    seq(|s|, i requires 0 <= i < |s| => LowerChar(s[i]))
  }

  predicate IsDigit(c: char) {
    '0' <= c <= '9'
  }

  predicate AllDigits(s: string) {
    forall i :: 0 <= i < |s| ==> IsDigit(s[i])
  }

  function DigitChar(d: nat): (c: char)
    requires d < 10
    ensures IsDigit(c)
  {
    ('0' as int + d) as char
  }

  /** `n.toString()` for a non-negative integer below 10^21: its decimal digits, without
      leading zeros. */
  function NatToDecimal(n: nat): (s: string)
    ensures 1 <= |s| && AllDigits(s)
    ensures |s| > 1 ==> s[0] != '0'
    decreases n
  {
    if n < 10 then [DigitChar(n)] else NatToDecimal(n / 10) + [DigitChar(n % 10)]
  }

  /** `i.toString()` for an integer of magnitude below 10^21: a minus sign before the digits
      of a negative value. */
  function IntToDecimal(i: int): (s: string)
    ensures i >= 0 ==> s == NatToDecimal(i)
    ensures i < 0 ==> |s| >= 2 && s[0] == '-' && s[1..] == NatToDecimal(-i)
  {
    if i < 0 then "-" + NatToDecimal(-i) else NatToDecimal(i)
  }

  /** The number a string of decimal digits denotes. */
  function DecimalValue(s: string): nat
    requires AllDigits(s)
  {
    if s == [] then 0 else DecimalValue(s[..|s| - 1]) * 10 + (s[|s| - 1] as int - '0' as int)
  }

  /** Reading the decimal text of `n` gives `n` back: the text determines the number. */
  lemma {:induction false} DecimalRoundTrip(n: nat)
    ensures DecimalValue(NatToDecimal(n)) == n
  {
    if n >= 10 {
      DecimalRoundTrip(n / 10);
      var s := NatToDecimal(n);
      assert s[..|s| - 1] == NatToDecimal(n / 10);
    }
  }

  /** JavaScript's `length`: the number of UTF-16 code units, two for each character
      outside the Basic Multilingual Plane. */
  function Utf16Length(s: string): (n: nat)
    ensures |s| <= n <= 2 * |s|
  {
    if s == [] then 0 else (if s[0] as int > 0xFFFF then 2 else 1) + Utf16Length(s[1..])
  }

  /** On text made of Basic Multilingual Plane characters, `length` counts characters. */
  lemma {:induction false} Utf16LengthOfBmp(s: string)
    requires forall i :: 0 <= i < |s| ==> s[i] as int <= 0xFFFF
    ensures Utf16Length(s) == |s|
  {
    if s != [] {
      Utf16LengthOfBmp(s[1..]);
    }
  }
}
