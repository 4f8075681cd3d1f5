/** The repeat-count accumulator: how digit keys typed in command mode build a
    pending count, and how that count reaches a command as its decimal `repeat`
    argument (written with `toString`, read back with `Number.parseInt`). */
module RepeatCount {

  /** The value of a digit key, Key_0 .. Key_9 (the key codes are consecutive). */
  type DigitValue = d: int | 0 <= d <= 9

  /** A digit extends the pending count, except a 0 that would start one:
      the key filter's test "0 with a count under way, or 1 to 9". */
  predicate DigitAccepted(count: nat, d: DigitValue)
    ensures DigitAccepted(count, d) <==> (d == 0 && count != 0) || (1 <= d <= 9)
  {
    d != 0 || count != 0
  }

  /** The pending count after one digit key in command mode: an accepted digit
      becomes the new last decimal digit of the count; a refused one (a 0 with
      no count under way) leaves it at 0. */
  function AccumulateDigit(count: nat, d: DigitValue): (r: nat)
    ensures DigitAccepted(count, d) ==> r / 10 == count && r % 10 == d
    ensures !DigitAccepted(count, d) ==> r == count == 0
  {
    if DigitAccepted(count, d) then count * 10 + d else count
  }

  /** The pending count after a run of digit keys, starting from `count`. */
  function FeedDigits(count: nat, ds: seq<DigitValue>): nat
    decreases |ds|
  {
    if ds == [] then count else FeedDigits(AccumulateDigit(count, ds[0]), ds[1..])
  }

  function Pow10(n: nat): nat {
    if n == 0 then 1 else 10 * Pow10(n - 1)
  }

  /** Positional value of a digit string, most significant digit first. */
  function DecimalValue(ds: seq<DigitValue>): nat {
    if ds == [] then 0 else ds[0] * Pow10(|ds| - 1) + DecimalValue(ds[1..])
  }

  /** Typing digits after a pending count shifts the count left by one decimal
      place per digit and adds the digits' value; refused leading zeros make no
      difference, so from an empty count the result is the decimal number typed
      ("0", "0", "5" gives 5). */
  lemma {:induction false} FeedDigitsValue(count: nat, ds: seq<DigitValue>)
    ensures FeedDigits(count, ds) == count * Pow10(|ds|) + DecimalValue(ds)
    decreases |ds|
  {
    if ds != [] {
      var d, rest := ds[0], ds[1..];
      var p := Pow10(|rest|);
      FeedDigitsValue(AccumulateDigit(count, d), rest);
      assert Pow10(|ds|) == 10 * p;
      assert DecimalValue(ds) == d * p + DecimalValue(rest);
      if DigitAccepted(count, d) {
        ShiftInDigit(count, d, p);
      } else {
        assert count == 0 && d == 0;
      }
    }
  }

  /** One more decimal place: (10c + d)·p = c·(10p) + d·p. */
  lemma ShiftInDigit(count: nat, d: DigitValue, p: nat)
    ensures (count * 10 + d) * p == count * (10 * p) + d * p
  {
  }

  predicate IsDigitChar(c: char) {
    '0' <= c <= '9'
  }

  /** What `Number.parseInt` reads in full: one or more decimal digits. */
  predicate IsDecimal(s: string) {
    |s| > 0 && forall i :: 0 <= i < |s| ==> IsDigitChar(s[i])
  }

  function DigitChar(d: DigitValue): (c: char)
    ensures IsDigitChar(c)
  {
    (48 + d) as char
  }

  function CharDigit(c: char): DigitValue
    requires IsDigitChar(c)
  {
    c as int - 48
  }

  /** `toString()` of a non-negative integer: its shortest decimal spelling. */
  function DecimalString(n: nat): (s: string)
    ensures IsDecimal(s)
    ensures |s| > 1 ==> s[0] != '0'
  {
    if n < 10 then [DigitChar(n)] else DecimalString(n / 10) + [DigitChar(n % 10)]
  }

  /** The digit values of a string of decimal digits, most significant first. */
  function Digits(s: string): (ds: seq<DigitValue>)
    requires forall i :: 0 <= i < |s| ==> IsDigitChar(s[i])
    ensures |ds| == |s|
    ensures forall i :: 0 <= i < |s| ==> ds[i] == CharDigit(s[i])
  {
    seq(|s|, i requires 0 <= i < |s| && IsDigitChar(s[i]) => CharDigit(s[i]))
  }

  /** Appending a digit shifts the value one decimal place and adds the digit. */
  lemma {:induction false} DecimalValueAppend(ds: seq<DigitValue>, d: DigitValue)
    ensures DecimalValue(ds + [d]) == DecimalValue(ds) * 10 + d
    decreases |ds|
  {
    if ds != [] {
      var a, rest, p := ds[0], ds[1..], Pow10(|ds| - 1);
      assert (ds + [d])[0] == a && (ds + [d])[1..] == rest + [d];
      DecimalValueAppend(rest, d);
      assert Pow10(|ds + [d]| - 1) == 10 * p;
      ShiftOutDigit(a, p, DecimalValue(rest), d);
    } else {
      assert ds + [d] == [d];
    }
  }

  /** Distributing one decimal place: a·(10p) + 10b + d = 10(a·p + b) + d. */
  lemma ShiftOutDigit(a: nat, p: nat, b: nat, d: nat)
    ensures a * (10 * p) + (b * 10 + d) == (a * p + b) * 10 + d
  {
  }

  /** `Number.parseInt` of a string of decimal digits: the positional value
      of its digits, leading zeros included ("007" reads as 7). It is below 10
      to the power of the string's length and ends in the string's last digit. */
  function ParseDecimal(s: string): (r: nat)
    requires forall i :: 0 <= i < |s| ==> IsDigitChar(s[i])
    ensures r == DecimalValue(Digits(s))
    ensures r < Pow10(|s|)
    ensures |s| > 0 ==> r % 10 == CharDigit(s[|s| - 1])
  {
    if s == [] then 0
    else
      var init, d := s[..|s| - 1], CharDigit(s[|s| - 1]);
      assert Digits(s) == Digits(init) + [d];
      DecimalValueAppend(Digits(init), d);
      ParseDecimal(init) * 10 + d
  }

  /** A leading zero does not change the value read. */
  lemma LeadingZeroIgnored(s: string)
    requires forall i :: 0 <= i < |s| ==> IsDigitChar(s[i])
    ensures ParseDecimal(['0'] + s) == ParseDecimal(s)
  {
    ZeroPrefixDigits(s);
    LeadingZeroValue(Digits(s));
  }

  lemma ZeroPrefixDigits(s: string)
    requires forall i :: 0 <= i < |s| ==> IsDigitChar(s[i])
    ensures Digits(['0'] + s) == [0] + Digits(s)
  {
  }

  lemma LeadingZeroValue(ds: seq<DigitValue>)
    ensures DecimalValue([0] + ds) == DecimalValue(ds)
  {
    assert ([0] + ds)[1..] == ds;
  }

  /** Typing the digit keys of a decimal spelling in command mode builds the
      same count that parsing the spelling gives: the key filter and
      `Number.parseInt` agree, refused leading zeros included. */
  lemma TypedCountIsParsed(s: string)
    requires forall i :: 0 <= i < |s| ==> IsDigitChar(s[i])
    ensures FeedDigits(0, Digits(s)) == ParseDecimal(s)
  {
    FeedDigitsValue(0, Digits(s));
  }

  /** Reading back the decimal spelling of a count gives the count. */
  lemma {:induction false} DecimalRoundTrip(n: nat)
    ensures ParseDecimal(DecimalString(n)) == n
  {
    if n >= 10 {
      var s := DecimalString(n / 10);
      DecimalRoundTrip(n / 10);
      assert (s + [DigitChar(n % 10)])[..|s|] == s;
    }
  }
}
