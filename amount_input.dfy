/** The money fields of the create forms: whatever is typed, only the digits
    are kept; the amount is their base-10 value and the field shows that value
    formatted, or nothing when no digit is left. */
module AmountInput {
  import opened Wrappers
  import opened Seqs
  import opened Text

  /** `parseInt(d)` of a digit string: NaN (None) for the empty string. */
  function ParseInt(d: string): (r: Option<nat>)
    requires AllDigits(d)
    ensures r.None? <==> d == ""
  {
    if d == "" then None else Some(DecimalValue(d))
  }

  /** `parseInt(value || '0', 10)` with `value` the typed text stripped of
      non-digits: the donation form's amount. */
  function DonationAmount(input: string): (n: nat)
    ensures DigitsOnly(input) == "" ==> n == 0
    ensures DigitsOnly(input) != "" ==> ParseInt(DigitsOnly(input)) == Some(n)
  {
    var v := DigitsOnly(input);
    if v == "" then DecimalValue("0") else ParseInt(v).value
  }

  /** What the field shows: None for the empty text, Some(n) for `n`
      formatted with `Intl.NumberFormat('id-ID')` (the formatting itself is
      not modelled). Both create forms use this rule. */
  function Display(input: string): (r: Option<nat>)
    ensures r.None? <==> DigitsOnly(input) == ""
    ensures r.Some? ==> r.value == DonationAmount(input)
  {
    var v := DigitsOnly(input);
    if v == "" then None else ParseInt(v)
  }

  /** The amount the fund-mutation form inserts: `parseInt(amountRaw)`,
      NaN (None) while nothing has been typed. */
  function MutationAmount(input: string): (r: Option<nat>)
    ensures r.None? <==> Display(input).None?
    ensures r.Some? ==> r == Display(input)
  {
    ParseInt(DigitsOnly(input))
  }

  /** Typing a number's decimal digits gives that number, shown as such. */
  lemma TypedNumberReadsBack(n: nat)
    ensures DonationAmount(DecimalString(n)) == n
    ensures Display(DecimalString(n)) == Some(n)
    ensures MutationAmount(DecimalString(n)) == Some(n)
  {
    DigitsOnlyKeepsDigits(DecimalString(n));
    DecimalRoundTrip(n);
  }

  /** Stripping works piecewise: the digits of a concatenation are the
      digits of each part. */
  lemma DigitsOnlyAppend(a: string, b: string)
    ensures DigitsOnly(a + b) == DigitsOnly(a) + DigitsOnly(b)
  {
    FilterAppend(a, b, IsDigit);
  }

  /** Separators, letters and other non-digits typed anywhere change nothing:
      "1.000" and "1000" give the same amount and the same display. */
  lemma NonDigitsIgnored(a: string, junk: string, b: string)
    requires forall i :: 0 <= i < |junk| ==> !IsDigit(junk[i])
    ensures DonationAmount(a + junk + b) == DonationAmount(a + b)
    ensures Display(a + junk + b) == Display(a + b)
  {
    FilterNone(junk, IsDigit);
    DigitsOnlyAppend(a + junk, b);
    DigitsOnlyAppend(a, junk);
    DigitsOnlyAppend(a, b);
    assert DigitsOnly(a + junk) == DigitsOnly(a);
  }

  /** A text with no digits reads as 0 and shows nothing. */
  lemma NoDigitsIsZero(input: string)
    requires forall i :: 0 <= i < |input| ==> !IsDigit(input[i])
    ensures DonationAmount(input) == 0 && Display(input).None? && MutationAmount(input).None?
  {
    FilterNone(input, IsDigit);
  }
}
