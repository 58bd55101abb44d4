/**
 * The pure helpers of the socket server module: the canonical participant
 * pair of a conversation and the two phone-number normalisers.
 */
module Helpers {
  import opened Text

  /**
   * `pair(a, b)`: the two ids in ascending order, so that both members of a
   * conversation compute the same participant list.
   */
  function Pair(a: string, b: string): (r: (string, string))
    ensures r == (a, b) || r == (b, a)
    ensures r.0 == r.1 || LexLess(r.0, r.1)
  {
    LexTrichotomy(a, b);
    if LexLess(a, b) then (a, b) else (b, a)
  }

  /** The order of the arguments does not matter. */
  lemma PairSymmetric(a: string, b: string)
    ensures Pair(a, b) == Pair(b, a)
  {
    LexTrichotomy(a, b);
  }

  /**
   * `normalizePhone` of the server module: `"+"` followed by the digits of the
   * trimmed input, or the empty string when the input is empty or has no digit.
   */
  function NormalizePhone(phone: string): (r: string)
    ensures Digits(phone) == "" ==> r == ""
    ensures Digits(phone) != "" ==> |r| > 1 && r[0] == '+' && r[1..] == Digits(phone)
  {
    if phone == "" then ""
    else
      DigitsOfTrim(phone);
      var digits := Digits(Trim(phone));
      if digits == "" then "" else "+" + digits
  }

  predicate IsDigitOrPlus(c: char)
  {
    IsDigit(c) || c == '+'
  }

  /** `phone.replace(/[^\d+]/g, '')`: the digits and plus signs of `phone`, in order. */
  function NormalizePhoneNumber(phone: string): (r: string)
    ensures |r| <= |phone|
    ensures forall i :: 0 <= i < |r| ==> IsDigitOrPlus(r[i])
  {
    if |phone| == 0 then ""
    else (if IsDigitOrPlus(phone[0]) then [phone[0]] else "") + NormalizePhoneNumber(phone[1..])
  }

  /**
   * The normaliser works character by character: normalising a concatenation
   * concatenates the normalised parts, and a single character is kept exactly
   * when it is a digit or a plus sign.
   */
  lemma {:induction false} NormalizePhoneNumberAppend(a: string, b: string)
    ensures NormalizePhoneNumber(a + b) == NormalizePhoneNumber(a) + NormalizePhoneNumber(b)
    ensures |a| == 1 ==> NormalizePhoneNumber(a) == if IsDigitOrPlus(a[0]) then a else ""
  {
    if |a| == 0 {
      assert a + b == b;
    } else {
      assert (a + b)[1..] == a[1..] + b;
      NormalizePhoneNumberAppend(a[1..], b);
    }
  }

  /** The normaliser keeps every digit: its digits are the input's digits. */
  lemma {:induction false} NormalizePhoneNumberKeepsDigits(phone: string)
    ensures Digits(NormalizePhoneNumber(phone)) == Digits(phone)
  {
    if |phone| > 0 {
      var head := if IsDigitOrPlus(phone[0]) then [phone[0]] else "";
      DigitsAppend(head, NormalizePhoneNumber(phone[1..]));
      NormalizePhoneNumberKeepsDigits(phone[1..]);
    }
  }

  /** A string of digits and plus signs is left as it is. */
  lemma {:induction false} NormalizePhoneNumberFixes(s: string)
    requires forall i :: 0 <= i < |s| ==> IsDigitOrPlus(s[i])
    ensures NormalizePhoneNumber(s) == s
  {
    if |s| > 0 {
      NormalizePhoneNumberFixes(s[1..]);
      assert s == [s[0]] + s[1..];
    }
  }

  /** Looking a number up twice normalises it no further. */
  lemma NormalizePhoneNumberIdempotent(phone: string)
    ensures NormalizePhoneNumber(NormalizePhoneNumber(phone)) == NormalizePhoneNumber(phone)
  {
    NormalizePhoneNumberFixes(NormalizePhoneNumber(phone));
  }

  /**
   * A number already in the stored `"+<digits>"` form is found by the lookup
   * normaliser `uidByPhone` applies: the stored form is its fixed point.
   */
  lemma LookupFindsStoredForm(phone: string)
    ensures NormalizePhoneNumber(NormalizePhone(phone)) == NormalizePhone(phone)
  {
    NormalizePhoneNumberFixes(NormalizePhone(phone));
  }

  /**
   * A number typed without any plus sign is looked up without the leading
   * `"+"` that stored numbers carry, so the two forms differ.
   */
  lemma {:induction false} LookupWithoutPlusDiffers(phone: string)
    requires forall i :: 0 <= i < |phone| ==> phone[i] != '+'
    requires Digits(phone) != ""
    ensures NormalizePhoneNumber(phone) != NormalizePhone(phone)
  {
    NoPlusKept(phone);
  }

  lemma {:induction false} NoPlusKept(phone: string)
    requires forall i :: 0 <= i < |phone| ==> phone[i] != '+'
    ensures forall i :: 0 <= i < |NormalizePhoneNumber(phone)| ==> NormalizePhoneNumber(phone)[i] != '+'
  {
    if |phone| > 0 {
      NoPlusKept(phone[1..]);
    }
  }
}
