/** The fund-mutation form: a transfer of money between two of the
    foundation's accounts. It refuses a mutation whose two accounts are the
    same and otherwise inserts the row. */
module FundMutationForm {
  import opened Wrappers
  import opened Text
  import opened AmountInput

  /** The account choices, as (value, label). */
  const AccountOptions: seq<(string, string)> := [
    ("tunai", "Tunai"),
    ("BSI 7185674333", "BSI 7185674333"),
    ("BSI 7147181978", "BSI 7147181978")]

  const DefaultFrom := "tunai"
  const DefaultTo := "BSI 7185674333"
  const SameAccountMessage := "Akun asal dan tujuan tidak boleh sama"

  /** The form state; `amountText` is what was typed into the amount field and
      `date` the chosen day (its conversion to an ISO string is not modelled). */
  datatype MutationForm = MutationForm(
    eventId: string,
    date: int,
    fromAccount: string,
    toAccount: string,
    amountText: string,
    notes: string)

  /** The row sent to `fund_mutations`. */
  datatype MutationRow = MutationRow(
    eventId: string,
    date: int,
    fromAccount: string,
    toAccount: string,
    amount: Option<nat>,
    notes: string)

  /** What a submission does: the insert it attempts (if any) and the alert. */
  datatype Submission = Submission(insert: Option<MutationRow>, alert: string)

  /** The form as it opens, on the newest event (or none). */
  function InitialForm(newestEvent: string, today: int): (f: MutationForm)
    ensures f.fromAccount != f.toAccount
    ensures f.amountText == "" && f.notes == ""
  {
    MutationForm(newestEvent, today, DefaultFrom, DefaultTo, "", "")
  }

  /** `handleSubmit`; `insertError` is what the insert answers. */
  function Submit(f: MutationForm, insertError: Option<string>): (r: Submission)
    ensures f.fromAccount == f.toAccount ==> r == Submission(None, "Error: " + SameAccountMessage)
    ensures r.insert.Some? <==> f.fromAccount != f.toAccount
    ensures r.insert.Some? ==>
              && r.insert.value.fromAccount == f.fromAccount
              && r.insert.value.toAccount == f.toAccount
              && r.insert.value.fromAccount != r.insert.value.toAccount
              && r.insert.value.amount == MutationAmount(f.amountText)
              && r.insert.value.eventId == f.eventId && r.insert.value.notes == f.notes
    ensures r.alert == "Mutasi berhasil dicatat!" <==> f.fromAccount != f.toAccount && insertError.None?
  {
    if f.fromAccount == f.toAccount then
      assert ("Error: " + SameAccountMessage)[0] != "Mutasi berhasil dicatat!"[0];
      Submission(None, "Error: " + SameAccountMessage)
    else
      var row := MutationRow(f.eventId, f.date, f.fromAccount, f.toAccount, MutationAmount(f.amountText), f.notes);
      if insertError.Some? then
        assert ("Error: " + insertError.value)[0] != "Mutasi berhasil dicatat!"[0];
        Submission(Some(row), "Error: " + insertError.value)
      else Submission(Some(row), "Mutasi berhasil dicatat!")
  }

  /** The three account choices are distinct and the two defaults are among
      them, so the form as it opens is never refused for using one account
      twice. */
  lemma AccountOptionsSound(newestEvent: string, today: int, amountText: string)
    ensures forall i, j :: 0 <= i < j < |AccountOptions| ==> AccountOptions[i].0 != AccountOptions[j].0
    ensures AccountOptions[0].0 == DefaultFrom && AccountOptions[1].0 == DefaultTo
    ensures Submit(InitialForm(newestEvent, today).(amountText := amountText), None).insert.Some?
  {
    assert AccountOptions[1].0[6] != AccountOptions[2].0[6];
  }

  /** Typing a number's digits and submitting inserts exactly that amount. */
  lemma SubmittedAmount(f: MutationForm, n: nat)
    requires f.fromAccount != f.toAccount && f.amountText == DecimalString(n)
    ensures Submit(f, None).insert.value.amount == Some(n)
  {
    TypedNumberReadsBack(n);
  }
}
