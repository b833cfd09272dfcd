/** The create-donation form: the donor field with its suggestion list, the
    cash / transfer choice with the destination bank, the amount field, and
    the submission that creates a new donor when needed and then records the
    transaction. */
module DonationForm {
  import opened Wrappers
  import opened Seqs
  import opened Text
  import opened AmountInput
  import DonationList

  /** A donor as the suggestion list reads it. */
  datatype Donor = Donor(id: string, name: string)

  /** A destination account shown under "Transfer". */
  datatype BankOption = BankOption(id: string, name: string, number: string, holder: string)

  const BankOptions: seq<BankOption> := [
    BankOption("bsi1", "BSI", "7185674333", "Yayasan Al-Kahfi"),
    BankOption("bsi2", "BSI", "7147181978", "Yayasan Al-Kahfi")]

  const EmptyDonorMessage := "Nama donatur tidak boleh kosong."
  const SavedMessage := "Donasi berhasil disimpan!"

  /** The row sent to `transactions`. */
  datatype TransactionRow = TransactionRow(
    eventId: string,
    donorId: string,
    amount: nat,
    txType: string,
    date: int,
    snapshot: string)

  /** What a submission does: the donor it creates (by name), the
      transaction it inserts and the alert it shows. */
  datatype Submission = Submission(newDonor: Option<string>, insert: Option<TransactionRow>, alert: string)

  // ---------------------------------------------------------------------------
  // Suggestions

  function NameMatcher(search: string): Donor -> bool
  {
    (d: Donor) => Contains(Lower(d.name), Lower(search))
  }

  /** `donors.filter(d => d.name.toLowerCase().includes(donorSearch.toLowerCase()))`. */
  function Suggestions(donors: seq<Donor>, search: string): seq<Donor>
  {
    Filter(donors, NameMatcher(search))
  }

  /** A donor is suggested iff its name contains the typed text, ignoring
      case; suggestions keep the order of the donor list. */
  lemma SuggestionsSpec(donors: seq<Donor>, search: string)
    ensures var r := Suggestions(donors, search);
            && (forall i :: 0 <= i < |r| ==> r[i] in donors && Contains(Lower(r[i].name), Lower(search)))
            && (forall i :: 0 <= i < |donors| ==> (donors[i] in r <==> Contains(Lower(donors[i].name), Lower(search))))
            && Subsequence(r, donors)
  {
    FilterIsSubsequence(donors, NameMatcher(search));
  }

  // ---------------------------------------------------------------------------
  // The transaction type

  /** The type stored with the transaction: `Transfer (<bank>)` when the type
      is 'Transfer' and a bank was chosen, the type as chosen otherwise. */
  function StoredType(txType: string, bankName: string): (r: string)
    ensures txType != "Transfer" || bankName == "" ==> r == txType
    ensures txType == "Transfer" && bankName != "" ==>
              StartsWith(r, "Transfer (") && Contains(r, bankName) && |r| == |bankName| + 11
  {
    if txType == "Transfer" && bankName != "" then
      var r := "Transfer (" + bankName + ")";
      assert OccursAt(r, bankName, 10) by {
        assert r[10..10 + |bankName|] == bankName;
      }
      r
    else txType
  }

  /** The bank value a radio button carries, as written: the bank's name. */
  function RadioValueAsWritten(b: BankOption): string
  {
    b.name
  }

  /** The bank value a radio button evidently should carry: name and account
      number, the text the summary cards look for. */
  function RadioValue(b: BankOption): (r: string)
    ensures Contains(r, b.number)
  {
    var r := b.name + " " + b.number;
    assert OccursAt(r, b.number, |b.name| + 1) by {
      assert r[|b.name| + 1..|r|] == b.number;
    }
    r
  }

  /** The summary-card bucket of a transaction saved with type `ty`. */
  function BucketOfType(ty: string): DonationList.Bucket
  {
    DonationList.BucketOf(DonationList.DonationRow("", None, None, None, Some(ty), None, 0))
  }

  /** Cash donations land on the cash card. */
  lemma CashBucket()
    ensures BucketOfType(StoredType("Tunai", "")) == DonationList.Tunai
  {
    var ty := Lower("Tunai");
    assert ty[0..5] == "tunai";
    assert OccursAt(ty, "tunai", 0);
  }

  /** As written, both radio buttons carry "BSI": choosing either one checks
      both, and the saved type "Transfer (BSI)" names no account, so the
      donation counts under neither account's card. */
  lemma BankChoiceAsWritten(k: nat)
    requires k < |BankOptions|
    ensures RadioValueAsWritten(BankOptions[0]) == RadioValueAsWritten(BankOptions[1])
    ensures StoredType("Transfer", RadioValueAsWritten(BankOptions[k])) == "Transfer (BSI)"
    ensures BucketOfType("Transfer (BSI)") == DonationList.OtherTransfer
  {
    var ty := Lower("Transfer (BSI)");
    assert ty == "transfer (bsi)";
    NoAccountNumber(ty);
    TransferBucket("Transfer (BSI)");
  }

  /** "transfer (bsi)" names a transfer, but neither cash nor an account number. */
  lemma NoAccountNumber(ty: string)
    requires ty == "transfer (bsi)"
    ensures Contains(ty, "transfer") && !Contains(ty, "tunai")
    ensures !Contains(ty, DonationList.Bsi1Number) && !Contains(ty, DonationList.Bsi2Number)
  {
    assert OccursAt(ty, "transfer", 0);
    MissingCharNotContained(ty, "tunai", 1);
    MissingCharNotContained(ty, DonationList.Bsi1Number, 0);
    MissingCharNotContained(ty, DonationList.Bsi2Number, 0);
  }

  /** With the account number in the radio value, the two choices differ and
      each donation counts under its own account's card. */
  lemma BankChoiceCorrected()
    ensures RadioValue(BankOptions[0]) != RadioValue(BankOptions[1])
    ensures BucketOfType(StoredType("Transfer", RadioValue(BankOptions[0]))) == DonationList.Bsi1
    ensures BucketOfType(StoredType("Transfer", RadioValue(BankOptions[1]))) == DonationList.Bsi2
  {
    assert RadioValue(BankOptions[0])[6] != RadioValue(BankOptions[1])[6];
    FirstAccountBucket();
    SecondAccountBucket();
  }

  lemma FirstAccountBucket()
    ensures BucketOfType(StoredType("Transfer", RadioValue(BankOptions[0]))) == DonationList.Bsi1
  {
    var t := "transfer (bsi " + DonationList.Bsi1Number + ")";
    LowerStoredType(0);
    TransferText(t, DonationList.Bsi1Number);
    TransferBucket(StoredType("Transfer", RadioValue(BankOptions[0])));
  }

  lemma SecondAccountBucket()
    ensures BucketOfType(StoredType("Transfer", RadioValue(BankOptions[1]))) == DonationList.Bsi2
  {
    var t := "transfer (bsi " + DonationList.Bsi2Number + ")";
    LowerStoredType(1);
    TransferText(t, DonationList.Bsi2Number);
    SecondIsNotFirst(t);
    TransferBucket(StoredType("Transfer", RadioValue(BankOptions[1])));
  }

  /** The second account's text has no '5', so it never names the first account. */
  lemma SecondIsNotFirst(t: string)
    requires t == "transfer (bsi " + DonationList.Bsi2Number + ")"
    ensures !Contains(t, DonationList.Bsi1Number)
  {
    MissingCharNotContained(t, DonationList.Bsi1Number, 3);
  }

  /** The saved type of account `k`, lower-cased. */
  lemma LowerStoredType(k: nat)
    requires k < |BankOptions|
    ensures Lower(StoredType("Transfer", RadioValue(BankOptions[k]))) == "transfer (bsi " + BankOptions[k].number + ")"
  {
    var n := BankOptions[k].number;
    assert RadioValue(BankOptions[k]) == "BSI" + " " + n;
    LowerTransferType(n);
  }

  /** "Transfer (BSI <n>)" lower-cased, for a number `n` without letters. */
  lemma LowerTransferType(n: string)
    requires n != [] && forall i :: 0 <= i < |n| ==> IsDigit(n[i])
    ensures Lower(StoredType("Transfer", "BSI" + " " + n)) == "transfer (bsi " + n + ")"
  {
    var head := "Transfer (" + "BSI" + " ";
    assert "Transfer (" + ("BSI" + " " + n) + ")" == head + n + ")";
    LowerConcat(head + n, ")");
    LowerConcat(head, n);
    LowerNoUpper(n);
    LowerHead();
  }

  lemma LowerHead()
    ensures Lower("Transfer (" + "BSI" + " ") == "transfer (bsi "
  {
  }

  /** `transfer (bsi <number>)` names a transfer to that account and not cash. */
  lemma TransferText(t: string, number: string)
    requires |number| == 10 && t == "transfer (bsi " + number + ")"
    requires forall i :: 0 <= i < |number| ==> IsDigit(number[i])
    ensures Contains(t, "transfer") && Contains(t, number) && !Contains(t, "tunai")
  {
    assert OccursAt(t, "transfer", 0);
    assert OccursAt(t, number, 14);
    MissingCharNotContained(t, "tunai", 1);
  }

  /** The summary card of a transfer that is not cash, by the account number
      its lower-cased type contains. */
  lemma TransferBucket(ty: string)
    requires Contains(Lower(ty), "transfer") && !Contains(Lower(ty), "tunai")
    ensures Contains(Lower(ty), DonationList.Bsi1Number) ==> BucketOfType(ty) == DonationList.Bsi1
    ensures !Contains(Lower(ty), DonationList.Bsi1Number) && Contains(Lower(ty), DonationList.Bsi2Number)
            ==> BucketOfType(ty) == DonationList.Bsi2
    ensures !Contains(Lower(ty), DonationList.Bsi1Number) && !Contains(Lower(ty), DonationList.Bsi2Number)
            ==> BucketOfType(ty) == DonationList.OtherTransfer
  {
  }

  // ---------------------------------------------------------------------------
  // The form

  class DonationFormState {
    var transactionDate: int
    var donorId: string
    var donorNameSnapshot: string
    var eventId: string
    var txType: string
    var bankName: string
    var amount: nat
    var donorSearch: string
    var showDonorList: bool
    var displayAmount: Option<nat>

    /** The form as it opens: today, no donor, cash, amount 0, on the newest
        event when there is one. */
    constructor (today: int, newestEvent: Option<string>)
      ensures transactionDate == today
      ensures donorId == "" && donorNameSnapshot == "" && donorSearch == "" && !showDonorList
      ensures eventId == (if newestEvent.Some? then newestEvent.value else "")
      ensures txType == "Tunai" && bankName == ""
      ensures amount == 0 && displayAmount.None?
    {
      transactionDate := today;
      donorId := "";
      donorNameSnapshot := "";
      eventId := if newestEvent.Some? then newestEvent.value else "";
      txType := "Tunai";
      bankName := "";
      amount := 0;
      donorSearch := "";
      showDonorList := false;
      displayAmount := None;
    }

    /** The suggestions on screen: shown only while the list is open and
        something has been typed. */
    function Shown(donors: seq<Donor>): (r: seq<Donor>)
      reads this
      ensures !showDonorList || donorSearch == "" ==> r == []
      ensures showDonorList && donorSearch != "" ==> r == Suggestions(donors, donorSearch)
    {
      if showDonorList && donorSearch != "" then Suggestions(donors, donorSearch) else []
    }

    /** Typing in the donor field: the text becomes the name snapshot and any
        previously picked donor is forgotten. */
    method TypeDonorName(v: string)
      modifies this
      ensures donorSearch == v && donorNameSnapshot == v && donorId == "" && showDonorList
      ensures transactionDate == old(transactionDate) && eventId == old(eventId)
      ensures txType == old(txType) && bankName == old(bankName)
      ensures amount == old(amount) && displayAmount == old(displayAmount)
    {
      donorSearch := v;
      donorId := "";
      donorNameSnapshot := v;
      showDonorList := true;
    }

    /** Picking a suggestion: the donor's id and name are taken over and the
        list closes. */
    method PickSuggestion(d: Donor)
      modifies this
      ensures donorId == d.id && donorNameSnapshot == d.name && donorSearch == d.name && !showDonorList
      ensures transactionDate == old(transactionDate) && eventId == old(eventId)
      ensures txType == old(txType) && bankName == old(bankName)
      ensures amount == old(amount) && displayAmount == old(displayAmount)
    {
      donorId := d.id;
      donorNameSnapshot := d.name;
      donorSearch := d.name;
      showDonorList := false;
    }

    /** The cash button: the type becomes 'Tunai' and the bank is cleared. */
    method ChooseTunai()
      modifies this
      ensures txType == "Tunai" && bankName == ""
      ensures transactionDate == old(transactionDate) && eventId == old(eventId)
      ensures donorId == old(donorId) && donorNameSnapshot == old(donorNameSnapshot)
      ensures donorSearch == old(donorSearch) && showDonorList == old(showDonorList)
      ensures amount == old(amount) && displayAmount == old(displayAmount)
    {
      txType := "Tunai";
      bankName := "";
    }

    /** The transfer button: the type becomes 'Transfer'; the bank stays. */
    method ChooseTransfer()
      modifies this
      ensures txType == "Transfer" && bankName == old(bankName)
      ensures transactionDate == old(transactionDate) && eventId == old(eventId)
      ensures donorId == old(donorId) && donorNameSnapshot == old(donorNameSnapshot)
      ensures donorSearch == old(donorSearch) && showDonorList == old(showDonorList)
      ensures amount == old(amount) && displayAmount == old(displayAmount)
    {
      txType := "Transfer";
    }

    /** A bank radio button: its value becomes the bank name. */
    method ChooseBank(value: string)
      modifies this
      ensures bankName == value && txType == old(txType)
      ensures transactionDate == old(transactionDate) && eventId == old(eventId)
      ensures donorId == old(donorId) && donorNameSnapshot == old(donorNameSnapshot)
      ensures donorSearch == old(donorSearch) && showDonorList == old(showDonorList)
      ensures amount == old(amount) && displayAmount == old(displayAmount)
    {
      bankName := value;
    }

    /** Is the radio button of `b` shown as checked (`bank_name === bank.name`)? */
    predicate Checked(b: BankOption)
      reads this
    {
      bankName == b.name
    }

    /** The amount field: the digits of the typed text become the amount (0
        when none) and the display. */
    method ChangeAmount(input: string)
      modifies this
      ensures amount == DonationAmount(input) && displayAmount == Display(input)
      ensures displayAmount.None? <==> DigitsOnly(input) == ""
      ensures transactionDate == old(transactionDate) && eventId == old(eventId)
      ensures donorId == old(donorId) && donorNameSnapshot == old(donorNameSnapshot)
      ensures donorSearch == old(donorSearch) && showDonorList == old(showDonorList)
      ensures txType == old(txType) && bankName == old(bankName)
    {
      amount := DonationAmount(input);
      displayAmount := Display(input);
    }

    /** `handleSubmit`. `newDonorId` and `donorError` are what the donor insert
        answers, `transError` what the transaction insert answers. The donor
        id and the type are settled step by step before the insert. */
    method Submit(newDonorId: string, donorError: Option<string>, transError: Option<string>)
      returns (r: Submission)
      ensures donorId == "" && donorNameSnapshot == "" ==>
                r == Submission(None, None, "Error: " + EmptyDonorMessage)
      ensures r.newDonor.Some? <==> donorId == "" && donorNameSnapshot != ""
      ensures r.newDonor.Some? ==> r.newDonor.value == donorNameSnapshot
      ensures r.insert.Some? <==> donorId != "" || (donorNameSnapshot != "" && donorError.None?)
      ensures r.insert.Some? ==>
                && r.insert.value.donorId == (if donorId != "" then donorId else newDonorId)
                && r.insert.value.txType == StoredType(txType, bankName)
                && r.insert.value.amount == amount
                && r.insert.value.eventId == eventId
                && r.insert.value.snapshot == donorNameSnapshot
                && r.insert.value.date == transactionDate
      ensures r.alert == SavedMessage <==> r.insert.Some? && transError.None?
    {
      var finalDonorId := donorId;
      var newDonor: Option<string> := None;
      if finalDonorId == "" && donorNameSnapshot != "" {
        newDonor := Some(donorNameSnapshot);
        if donorError.Some? {
          assert ("Error: " + donorError.value)[0] != SavedMessage[0];
          return Submission(newDonor, None, "Error: " + donorError.value);
        }
        finalDonorId := newDonorId;
      } else if finalDonorId == "" && donorNameSnapshot == "" {
        assert ("Error: " + EmptyDonorMessage)[0] != SavedMessage[0];
        return Submission(None, None, "Error: " + EmptyDonorMessage);
      }

      var transactionType := txType;
      if txType == "Transfer" && bankName != "" {
        transactionType := "Transfer (" + bankName + ")";
      }

      var row := TransactionRow(eventId, finalDonorId, amount, transactionType, transactionDate, donorNameSnapshot);
      if transError.Some? {
        assert ("Error: " + transError.value)[0] != SavedMessage[0];
        r := Submission(newDonor, Some(row), "Error: " + transError.value);
      } else {
        r := Submission(newDonor, Some(row), SavedMessage);
      }
    }
  }

  /** As written, once either bank is chosen both radio buttons show as
      checked. */
  lemma BothRadiosChecked(f: DonationFormState, k: nat)
    requires k < |BankOptions| && f.bankName == RadioValueAsWritten(BankOptions[k])
    ensures f.Checked(BankOptions[0]) && f.Checked(BankOptions[1])
  {
  }
}
