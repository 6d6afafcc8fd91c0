/**
 * The two pieces of string handling the classifier screen relies on:
 * lower-casing a label before it is compared with the recyclability keys
 * (Swift's `String.lowercased()`), and writing an integer in decimal inside
 * the prediction label (Swift's string interpolation of an `Int`).
 *
 * Lower-casing is modelled on ASCII: 'A'..'Z' become 'a'..'z' and every other
 * character is left alone.
 */
module Text {

  predicate IsUpper(c: char) { 'A' <= c <= 'Z' }

  predicate IsLowerLetter(c: char) { 'a' <= c <= 'z' }

  predicate IsDigit(c: char) { '0' <= c <= '9' }

  /** A key that lower-casing leaves as it is: plain lower-case ASCII letters. */
  predicate IsLowerKey(key: string) {
    forall i :: 0 <= i < |key| ==> IsLowerLetter(key[i])
  }

  function LowerChar(c: char): char {
    if IsUpper(c) then (c as int + 32) as char else c
  }

  function UpperChar(c: char): char
    requires IsLowerLetter(c)
  {
    (c as int - 32) as char
  }

  /** Swift's `lowercased()`, restricted to ASCII letters. */
  function Lowercase(s: string): (r: string)
    ensures |r| == |s|
    ensures forall i :: 0 <= i < |s| ==> r[i] == LowerChar(s[i])
    ensures forall i :: 0 <= i < |r| ==> !IsUpper(r[i])
  {
    if s == [] then [] else [LowerChar(s[0])] + Lowercase(s[1..])
  }

  /** `s` spells `key` with each letter in either case. */
  predicate CaseVariantOf(s: string, key: string)
    requires IsLowerKey(key)
  {
    |s| == |key| && forall i :: 0 <= i < |s| ==> s[i] == key[i] || s[i] == UpperChar(key[i])
  }

  /** Lower-casing twice is lower-casing once. */
  lemma {:induction false} LowercaseIdempotent(s: string)
    ensures Lowercase(Lowercase(s)) == Lowercase(s)
  {
    if s != [] {
      LowercaseIdempotent(s[1..]);
      assert Lowercase(s) == [LowerChar(s[0])] + Lowercase(s[1..]);
      assert Lowercase(s)[1..] == Lowercase(s[1..]);
    }
  }

  lemma LowerCharIsKey(c: char, k: char)
    requires IsLowerLetter(k)
    ensures LowerChar(c) == k <==> c == k || c == UpperChar(k)
  {
  }

  /**
   * Lower-casing a string gives a lower-case key exactly when the string
   * spells that key in any mixture of cases: "Paper", "PAPER" and "pApEr"
   * all lower-case to "paper", and nothing else does.
   */
  lemma LowercaseIsKey(s: string, key: string)
    requires IsLowerKey(key)
    ensures Lowercase(s) == key <==> CaseVariantOf(s, key)
  {
    if Lowercase(s) == key {
      forall i | 0 <= i < |s| ensures s[i] == key[i] || s[i] == UpperChar(key[i]) {
        LowerCharIsKey(s[i], key[i]);
      }
    }
    if CaseVariantOf(s, key) {
      forall i | 0 <= i < |s| ensures Lowercase(s)[i] == key[i] {
        LowerCharIsKey(s[i], key[i]);
      }
    }
  }

  function DigitChar(d: nat): (c: char)
    requires d < 10
    ensures IsDigit(c)
  {
    ('0' as int + d) as char
  }

  function DigitValue(c: char): nat
    requires IsDigit(c)
  {
    c as int - '0' as int
  }

  /** The number a string of decimal digits denotes, most significant digit first. */
  function DigitsValue(s: string): nat
    requires forall i :: 0 <= i < |s| ==> IsDigit(s[i])
  {
    if s == [] then 0 else DigitsValue(s[..|s| - 1]) * 10 + DigitValue(s[|s| - 1])
  }

  /** The decimal form of a natural number, as Swift writes an `Int` into a string. */
  function NatText(n: nat): (r: string)
    ensures |r| >= 1
    ensures forall i :: 0 <= i < |r| ==> IsDigit(r[i])
    ensures r[0] == '0' ==> n == 0
    decreases n
  {
    if n < 10 then [DigitChar(n)] else NatText(n / 10) + [DigitChar(n % 10)]
  }

  /** Decimal form of an integer; negative numbers get a leading '-'. */
  function IntText(n: int): (r: string)
    ensures |r| >= 1
    ensures n < 0 <==> r[0] == '-'
    ensures n >= 0 ==> forall i :: 0 <= i < |r| ==> IsDigit(r[i])
    ensures n < 0 ==> forall i :: 1 <= i < |r| ==> IsDigit(r[i])
    ensures n >= 0 ==> DigitsValue(r) == n
    ensures n < 0 ==> DigitsValue(r[1..]) == -n
    ensures n >= 0 && r[0] == '0' ==> n == 0
    ensures n < 0 ==> |r| >= 2 && r[1] != '0'
  {
    if n < 0 then
      NatTextRoundTrip(-n);
      assert ("-" + NatText(-n))[1..] == NatText(-n);
      "-" + NatText(-n)
    else
      NatTextRoundTrip(n);
      NatText(n)
  }

  /** The decimal form reads back as the number it was written from. */
  lemma {:induction false} NatTextRoundTrip(n: nat)
    ensures DigitsValue(NatText(n)) == n
    decreases n
  {
    if n >= 10 {
      NatTextRoundTrip(n / 10);
      var s := NatText(n);
      assert s[..|s| - 1] == NatText(n / 10);
    }
  }
}
