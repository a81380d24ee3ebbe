/**
  The phone-number rule shared by both forms and the contact directory:
  `/^\+?[1-9]\d{1,14}$/`, applied to the input after every whitespace character
  has been removed.
 */
module Phone {
  import opened Text

  /** The part of a candidate after its optional leading `+`. */
  function DigitsPart(s: string): (d: string)
    ensures |d| <= |s|
  {
    if s != [] && s[0] == '+' then s[1..] else s
  }

  /** `/^\+?[1-9]\d{1,14}$/.test(s)` */
  predicate IsValidPhone(s: string) {
    var d := DigitsPart(s);
    2 <= |d| <= 15 && '1' <= d[0] <= '9' && AllDigits(d)
  }

  /** `phoneRegex.test(raw.replace(/\s/g, ''))` */
  predicate IsPhoneInput(raw: string) {
    IsValidPhone(RemoveWhitespace(raw))
  }

  /** A valid phone is 2 to 16 characters of digits and at most one leading `+`. */
  lemma ValidPhoneShape(s: string)
    requires IsValidPhone(s)
    ensures 2 <= |s| <= 16
    ensures forall i :: 0 <= i < |s| ==> IsDigit(s[i]) || (i == 0 && s[i] == '+')
    ensures HasNoWhitespace(s)
  {
    var d := DigitsPart(s);
    forall i | 0 <= i < |s|
      ensures IsDigit(s[i]) || (i == 0 && s[i] == '+')
    {
      if s[0] == '+' && i > 0 {
        assert s[i] == d[i - 1];
      }
    }
  }

  /** A valid phone survives whitespace removal unchanged, so validation is stable. */
  lemma ValidPhoneIsClean(s: string)
    requires IsValidPhone(s)
    ensures RemoveWhitespace(s) == s
    ensures IsPhoneInput(s)
  {
    ValidPhoneShape(s);
    RemoveWhitespaceOfClean(s);
  }

  /** Whitespace typed anywhere in a phone number does not change the verdict. */
  lemma PhoneInputIgnoresWhitespace(a: string, w: string, b: string)
    requires forall i :: 0 <= i < |w| ==> IsWhitespace(w[i])
    ensures IsPhoneInput(a + w + b) == IsPhoneInput(a + b)
  {
    RemoveWhitespaceAppend(a + w, b);
    RemoveWhitespaceAppend(a, w);
    RemoveWhitespaceAppend(a, b);
    AllWhitespaceRemoved(w);
    assert RemoveWhitespace(a + w) == RemoveWhitespace(a);
    assert RemoveWhitespace(a + w + b) == RemoveWhitespace(a + b);
  }

  lemma {:induction false} AllWhitespaceRemoved(w: string)
    requires forall i :: 0 <= i < |w| ==> IsWhitespace(w[i])
    ensures RemoveWhitespace(w) == []
  {
    if w != [] {
      AllWhitespaceRemoved(w[1..]);
    }
  }

  /** Every digit string of length 2 to 15 not starting with 0 is accepted, with or without `+`. */
  lemma DigitStringsAccepted(d: string)
    requires 2 <= |d| <= 15 && AllDigits(d) && d[0] != '0'
    ensures IsValidPhone(d) && IsValidPhone("+" + d)
  {
    assert ("+" + d)[1..] == d;
  }

  /** The empty input, a lone `+`, a leading 0 and a single digit are all refused. */
  lemma RejectedShapes(d: string)
    requires AllDigits(d) && |d| <= 15
    ensures !IsPhoneInput("")
    ensures !IsValidPhone("+")
    ensures !IsValidPhone("0" + d)
    ensures |d| == 1 ==> !IsValidPhone(d)
  {
  }
}
