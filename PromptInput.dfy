/**
 * The arithmetic of the idea text area: the height clamp applied when it
 * auto-resizes, the default length limit, and the character counter.
 */
module PromptInput {
  import opened Wrappers

  const MinHeight: int := 120
  const MaxHeight: int := 300
  /** The `maxLength` prop's default. */
  const DefaultMaxLength: nat := 2000

  /** `Math.min(Math.max(scrollHeight, 120), 300)`, in whole pixels. */
  function AdjustedHeight(scrollHeight: int): (h: int)
    ensures MinHeight <= h <= MaxHeight
    ensures MinHeight <= scrollHeight <= MaxHeight ==> h == scrollHeight
    ensures scrollHeight < MinHeight ==> h == MinHeight
    ensures scrollHeight > MaxHeight ==> h == MaxHeight
  {
    var atLeast := if scrollHeight > MinHeight then scrollHeight else MinHeight;
    if atLeast < MaxHeight then atLeast else MaxHeight
  }

  /** A taller content never gives a shorter text area. */
  lemma AdjustedHeightMonotone(a: int, b: int)
    requires a <= b
    ensures AdjustedHeight(a) <= AdjustedHeight(b)
  {
  }

  /** The counter's warning colour: more than nine tenths of the limit used. */
  predicate NearLimit(length: nat, maxLength: nat) {
    10 * length > 9 * maxLength
  }

  /** The counter's error colour: the limit reached. */
  predicate AtLimit(length: nat, maxLength: nat) {
    length >= maxLength
  }

  /** For a positive limit the error colour only appears together with the
      warning colour. */
  lemma AtLimitIsNearLimit(length: nat, maxLength: nat)
    requires maxLength > 0
    ensures AtLimit(length, maxLength) ==> NearLimit(length, maxLength)
  {
  }

  predicate IsDigit(c: char) {
    '0' <= c <= '9'
  }

  function DigitChar(d: nat): (c: char)
    requires d < 10
    ensures IsDigit(c) && c as int - '0' as int == d
  {
    ('0' as int + d) as char
  }

  function DigitValue(c: char): (d: nat)
    requires IsDigit(c)
    ensures d < 10 && DigitChar(d) == c
  {
    c as int - '0' as int
  }

  /** A number as JavaScript prints it in a template: decimal digits with no
      leading zero. */
  function Decimal(n: nat): (s: string)
    ensures |s| >= 1 && forall i :: 0 <= i < |s| ==> IsDigit(s[i])
    ensures s[0] == '0' ==> n == 0
  {
    if n < 10 then [DigitChar(n)] else Decimal(n / 10) + [DigitChar(n % 10)]
  }

  /** The number a string of decimal digits denotes. */
  function DecimalValue(s: string): nat
    requires forall i :: 0 <= i < |s| ==> IsDigit(s[i])
  {
    if s == [] then 0
    else 10 * DecimalValue(s[..|s| - 1]) + DigitValue(s[|s| - 1])
  }

  /** Reading a printed number back gives the number. */
  lemma {:induction false} DecimalRoundTrip(n: nat)
    ensures DecimalValue(Decimal(n)) == n
  {
    if n >= 10 {
      DecimalRoundTrip(n / 10);
      assert Decimal(n)[..|Decimal(n)| - 1] == Decimal(n / 10);
    }
  }

  /** The counter `{value.length}/{maxLength}`, shown only when `maxLength`
      is non-zero. */
  function CounterText(length: nat, maxLength: nat): (r: Option<string>)
    ensures r.None? <==> maxLength == 0
    ensures r.Some? ==> |r.value| == |Decimal(length)| + 1 + |Decimal(maxLength)|
    ensures r.Some? ==>
      (r.value[..|Decimal(length)|] == Decimal(length) && r.value[|Decimal(length)|] == '/'
       && r.value[|Decimal(length)| + 1..] == Decimal(maxLength))
  {
    if maxLength == 0 then None else Some(Decimal(length) + "/" + Decimal(maxLength))
  }

  /** Index of the first '/' of `t`, or `|t|` when there is none. */
  function SlashIndex(t: string): (k: nat)
    ensures k <= |t|
  {
    if t == [] || t[0] == '/' then 0 else 1 + SlashIndex(t[1..])
  }

  /** In a digit string followed by a slash, the first slash is that one. */
  lemma {:induction false} SlashAfterDigits(x: string, y: string)
    requires forall i :: 0 <= i < |x| ==> IsDigit(x[i])
    ensures SlashIndex(x + "/" + y) == |x|
  {
    if x != [] {
      assert (x + "/" + y)[1..] == x[1..] + "/" + y;
      SlashAfterDigits(x[1..], y);
    }
  }

  /** Two digit strings joined by a slash can be split back at the slash. */
  lemma SplitAtSlash(x: string, y: string, x': string, y': string)
    requires forall i :: 0 <= i < |x| ==> IsDigit(x[i])
    requires forall i :: 0 <= i < |x'| ==> IsDigit(x'[i])
    requires x + "/" + y == x' + "/" + y'
    ensures x == x' && y == y'
  {
    var t := x + "/" + y;
    SlashAfterDigits(x, y);
    SlashAfterDigits(x', y');
    assert x == t[..|x|] == x';
    assert y == t[|x| + 1..] == y';
  }

  /** With the default limit the counter reads `n/2000`, turns to the warning
      colour above 1800 characters and to the error colour from 2000. */
  lemma DefaultLimitCounter(n: nat)
    ensures CounterText(n, DefaultMaxLength) == Some(Decimal(n) + "/2000")
    ensures NearLimit(n, DefaultMaxLength) <==> n > 1800
    ensures AtLimit(n, DefaultMaxLength) <==> n >= 2000
  {
    assert Decimal(2) == "2";
    assert Decimal(20) == "20";
    assert Decimal(200) == "200";
    assert Decimal(2000) == "2000";
    assert CounterText(n, DefaultMaxLength) == Some(Decimal(n) + "/" + Decimal(DefaultMaxLength));
    assert Decimal(n) + "/" + "2000" == Decimal(n) + "/2000";
  }

  /** The counter text determines the length and the limit it reports. */
  lemma CounterTextInjective(length: nat, maxLength: nat, length': nat, maxLength': nat)
    requires CounterText(length, maxLength).Some?
    requires CounterText(length, maxLength) == CounterText(length', maxLength')
    ensures length == length' && maxLength == maxLength'
  {
    SplitAtSlash(Decimal(length), Decimal(maxLength), Decimal(length'), Decimal(maxLength'));
    DecimalRoundTrip(length);
    DecimalRoundTrip(length');
    DecimalRoundTrip(maxLength);
    DecimalRoundTrip(maxLength');
  }
}
