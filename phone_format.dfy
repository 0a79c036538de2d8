/**
 * The phone-number formatter of the partner editor
 * (src/screens/PartnerModal.tsx, `formatPhoneNumber`): keep the digits,
 * at most ten of them, grouped 3-3-4 with dashes.
 */
module PhoneFormat {
  import opened JsText

  /** `text.replace(/\D/g, '')`: the digits of `text`, in order. */
  function Digits(text: string): (r: string)
    ensures |r| <= |text|
    ensures AllDigits(r)
  {
    if text == [] then []
    else (if IsDigit(text[0]) then [text[0]] else []) + Digits(text[1..])
  }

  /** Keeping the digits distributes over concatenation. */
  lemma {:induction false} DigitsAppend(a: string, b: string)
    ensures Digits(a + b) == Digits(a) + Digits(b)
  {
    if a != [] {
      assert (a + b)[1..] == a[1..] + b;
      DigitsAppend(a[1..], b);
    } else {
      assert a + b == b;
    }
  }

  /** A string of digits is kept whole. */
  lemma {:induction false} DigitsOfDigitString(s: string)
    requires AllDigits(s)
    ensures Digits(s) == s
  {
    if s != [] {
      DigitsOfDigitString(s[1..]);
    }
  }

  /** Anything but a digit is dropped. */
  lemma DigitsOfNonDigit(c: char)
    requires !IsDigit(c)
    ensures Digits([c]) == []
  {
  }

  /** How many digits `text` holds, capped at the ten a number keeps. */
  function KeptDigits(text: string): nat {
    Kept(Digits(text))
  }

  /** The number of leading digits of `cleaned` that are kept: at most ten. */
  function Kept(cleaned: string): nat {
    if |cleaned| <= 10 then |cleaned| else 10
  }

  /**
   * The grouping step of the formatter, on the digits already extracted:
   * the first three, a dash, the next three, a dash and the next four, the
   * dashes only where digits follow them, and nothing past the tenth digit.
   */
  function GroupDigits(cleaned: string): (r: string)
    requires AllDigits(cleaned)
    ensures forall i :: 0 <= i < |r| ==> IsDigit(r[i]) || r[i] == '-'
    ensures var n := Kept(cleaned);
      && |r| == n + (if n > 6 then 2 else if n > 3 then 1 else 0)
      && forall i :: 0 <= i < |r| ==> (r[i] == '-' <==> (i == 3 && n > 3) || (i == 7 && n > 6))
  {
    if |cleaned| <= 3 then cleaned
    else if |cleaned| <= 6 then cleaned[..3] + "-" + cleaned[3..]
    else cleaned[..3] + "-" + cleaned[3..6] + "-" + cleaned[6..Kept(cleaned)]
  }

  /** Keeping the digits of two pieces joined by a dash drops the dash. */
  lemma DigitsAroundDash(a: string, b: string)
    ensures Digits(a + "-" + b) == Digits(a) + Digits(b)
  {
    DigitsAppend(a + "-", b);
    DigitsAppend(a, "-");
    DigitsOfNonDigit('-');
  }

  /** Two digit groups joined by a dash lose only the dash. */
  lemma DigitsOfTwoGroups(a: string, b: string)
    requires AllDigits(a) && AllDigits(b)
    ensures Digits(a + "-" + b) == a + b
  {
    DigitsAroundDash(a, b);
    DigitsOfDigitString(a);
    DigitsOfDigitString(b);
  }

  /** Three digit groups joined by dashes lose only the dashes. */
  lemma DigitsOfThreeGroups(a: string, b: string, d: string)
    requires AllDigits(a) && AllDigits(b) && AllDigits(d)
    ensures Digits(a + "-" + b + "-" + d) == a + b + d
  {
    DigitsAroundDash(a + "-" + b, d);
    DigitsOfTwoGroups(a, b);
    DigitsOfDigitString(d);
  }

  /** Deleting the dashes of a grouping gives back the kept digits. */
  lemma GroupKeepsDigits(c: string)
    requires AllDigits(c)
    ensures Digits(GroupDigits(c)) == c[..Kept(c)]
  {
    var m := Kept(c);
    if |c| <= 3 {
      DigitsOfDigitString(c);
      assert c[..m] == c;
    } else if |c| <= 6 {
      DigitsOfTwoGroups(c[..3], c[3..]);
      assert c[..3] + c[3..] == c[..m];
    } else {
      DigitsOfThreeGroups(c[..3], c[3..6], c[6..m]);
      assert c[..3] + c[3..6] + c[6..m] == c[..m];
    }
  }

  /**
   * `formatPhoneNumber`: the formatted text holds digits and dashes only and
   * fits the 12-character phone field. The dashes go after the third digit
   * when there are more than three, and after the sixth when there are more
   * than six.
   */
  function FormatPhoneNumber(text: string): (r: string)
    ensures forall i :: 0 <= i < |r| ==> IsDigit(r[i]) || r[i] == '-'
    ensures |r| <= 12
    ensures var n := KeptDigits(text);
      && |r| == n + (if n > 6 then 2 else if n > 3 then 1 else 0)
      && forall i :: 0 <= i < |r| ==> (r[i] == '-' <==> (i == 3 && n > 3) || (i == 7 && n > 6))
  {
    GroupDigits(Digits(text))
  }

  /** Deleting the dashes of the formatted text gives the first ten digits of the input (all of them if fewer), in order. */
  lemma FormatKeepsDigits(text: string)
    ensures Digits(FormatPhoneNumber(text)) == Digits(text)[..KeptDigits(text)]
  {
    GroupKeepsDigits(Digits(text));
  }

  /** Formatting an already formatted number changes nothing. */
  lemma FormatIdempotent(text: string)
    ensures FormatPhoneNumber(FormatPhoneNumber(text)) == FormatPhoneNumber(text)
  {
    var c := Digits(text);
    var m := Kept(c);
    GroupKeepsDigits(c);
    var c' := c[..m];
    assert Digits(FormatPhoneNumber(text)) == c';
    if m > 6 {
      assert c'[..3] == c[..3] && c'[3..6] == c[3..6] && c'[6..m] == c[6..m];
    } else {
      assert c' == c;
    }
  }
}
