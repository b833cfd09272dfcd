/** The admin disbursement list: the recipient / description search, the
    running balance of the selected event (donations in minus disbursements
    out), the total of the listed disbursements and their CSV export. Paging
    goes through `ListPaging`. */
module DisbursementList {
  import opened Wrappers
  import opened Seqs
  import opened Text
  import opened CsvExport

  /** A disbursement with the joined event name; nullable columns are Options. */
  datatype Disbursement = Disbursement(
    id: string,
    eventName: Option<string>,
    recipient: Option<string>,
    description: Option<string>,
    category: Option<string>,
    payMethod: Option<string>,
    amount: Option<int>,
    notes: Option<string>,
    date: int)

  /** A row of the donation query, which selects only the amount. */
  datatype DonationAmount = DonationAmount(amount: Option<int>)

  // ---------------------------------------------------------------------------
  // Search

  /** `(d.recipient || '').toLowerCase().includes(q) || (d.description || '').toLowerCase().includes(q)`
      with `q = search.toLowerCase()`. */
  predicate MatchesSearch(d: Disbursement, search: string)
  {
    var q := Lower(search);
    Contains(Lower(Or(d.recipient, "")), q) || Contains(Lower(Or(d.description, "")), q)
  }

  function Matcher(search: string): Disbursement -> bool
  {
    d => MatchesSearch(d, search)
  }

  /** `filteredDisbursements`: a row is listed iff its recipient or its
      description (null as '') contains the search, ignoring case; the listed
      rows keep their order. */
  function SearchRows(rows: seq<Disbursement>, search: string): (r: seq<Disbursement>)
    ensures forall i :: 0 <= i < |r| ==> r[i] in rows && MatchesSearch(r[i], search)
    ensures forall i :: 0 <= i < |rows| ==> (rows[i] in r <==> MatchesSearch(rows[i], search))
    ensures Subsequence(r, rows)
  {
    FilterIsSubsequence(rows, Matcher(search));
    Filter(rows, Matcher(search))
  }

  /** An empty search lists every row, in order. */
  lemma EmptySearchKeepsAll(rows: seq<Disbursement>)
    ensures SearchRows(rows, "") == rows
  {
    assert Lower("") == "";
    forall i | 0 <= i < |rows| ensures Matcher("")(rows[i]) {
      ContainsEmpty(Lower(Or(rows[i].recipient, "")));
    }
    FilterKeepsAll(rows, Matcher(""));
  }

  // ---------------------------------------------------------------------------
  // Totals

  function DisbursedAmount(d: Disbursement): Option<int> { d.amount }

  function DonatedAmount(t: DonationAmount): Option<int> { t.amount }

  /** `rows?.reduce((sum, x) => sum + (x.amount || 0), 0) || 0`. */
  function TotalDonations(rows: Option<seq<DonationAmount>>): int
  {
    if rows.Some? then SumBy(rows.value, DonatedAmount) else 0
  }

  function TotalExpenses(rows: Option<seq<Disbursement>>): int
  {
    if rows.Some? then SumBy(rows.value, DisbursedAmount) else 0
  }

  /** The balance card: what the donation query returned minus what the
      disbursement query returned, both for the selected event. */
  function Balance(donations: Option<seq<DonationAmount>>, disbursed: Option<seq<Disbursement>>): (r: int)
    ensures (donations.None? || donations == Some([])) && (disbursed.None? || disbursed == Some([])) ==> r == 0
  {
    TotalDonations(donations) - TotalExpenses(disbursed)
  }

  /** `totalExpense`: the sum over the listed (searched) rows only, null as 0.
      Together with the rows the search leaves out it makes up the event's
      expenses; with no negative amounts it never exceeds them, and an empty
      search makes them equal. Its steps are stated by `TotalExpenseMoves`. */
  function TotalExpense(rows: seq<Disbursement>, search: string): (r: int)
    ensures rows == [] ==> r == 0
    ensures r + SumBy(Filter(rows, Not(Matcher(search))), DisbursedAmount) == TotalExpenses(Some(rows))
    ensures search == "" ==> r == TotalExpenses(Some(rows))
    ensures (forall i :: 0 <= i < |rows| ==> OrZero(rows[i].amount) >= 0) ==> r <= TotalExpenses(Some(rows))
  {
    SumBySplit(rows, Matcher(search), DisbursedAmount);
    if search == "" then
      EmptySearchKeepsAll(rows);
      SumBy(SearchRows(rows, search), DisbursedAmount)
    else if forall i :: 0 <= i < |rows| ==> OrZero(rows[i].amount) >= 0 then
      SumByFilterAtMost(rows, Matcher(search), DisbursedAmount);
      SumBy(SearchRows(rows, search), DisbursedAmount)
    else
      SumBy(SearchRows(rows, search), DisbursedAmount)
  }

  /** One more row raises the card by its amount (null as 0) iff the search
      matches it, and leaves it as it is otherwise. */
  lemma TotalExpenseMoves(rows: seq<Disbursement>, d: Disbursement, search: string)
    ensures TotalExpense(rows + [d], search)
         == TotalExpense(rows, search) + (if MatchesSearch(d, search) then OrZero(d.amount) else 0)
  {
    var kept := Filter(rows, Matcher(search));
    assert TotalExpense(rows, search) == SumBy(kept, DisbursedAmount);
    assert TotalExpense(rows + [d], search) == SumBy(Filter(rows + [d], Matcher(search)), DisbursedAmount);
    FilterSnoc(rows, d, Matcher(search));
    if MatchesSearch(d, search) {
      SumBySnoc(kept, d, DisbursedAmount);
    } else {
      assert kept + [] == kept;
    }
  }

  /** A null query result counts as no rows, on either side of the balance. */
  lemma BalanceNullAsEmpty(donations: Option<seq<DonationAmount>>, disbursed: Option<seq<Disbursement>>)
    ensures Balance(None, disbursed) == Balance(Some([]), disbursed)
    ensures Balance(donations, None) == Balance(donations, Some([]))
  {
  }

  /** The balance may be negative: spending more than was donated shows a
      deficit (the card turns red). */
  lemma BalanceCanBeNegative(d: Disbursement)
    requires d.amount == Some(1)
    ensures Balance(Some([]), Some([d])) == -1
  {
    SumBySingle(d, DisbursedAmount);
  }

  /** Each new donation raises the balance by its amount, each new
      disbursement lowers it by its amount. */
  lemma BalanceMoves(donations: seq<DonationAmount>, disbursed: seq<Disbursement>,
                     t: DonationAmount, d: Disbursement)
    ensures Balance(Some(donations + [t]), Some(disbursed)) == Balance(Some(donations), Some(disbursed)) + OrZero(t.amount)
    ensures Balance(Some(donations), Some(disbursed + [d])) == Balance(Some(donations), Some(disbursed)) - OrZero(d.amount)
  {
    assert (donations + [t])[..|donations|] == donations;
    assert (disbursed + [d])[..|disbursed|] == disbursed;
  }

  // ---------------------------------------------------------------------------
  // Export

  const ExportHeaders: seq<string> := ["Tanggal", "Event", "Penerima", "Deskripsi", "Kategori", "Metode", "Jumlah", "Catatan"]

  /** The object exported for one row; `formatDate` stands for
      `toLocaleDateString('id-ID')`. */
  function ExportRow(d: Disbursement, formatDate: int -> string): (r: Row)
    ensures Keys(r) == ExportHeaders
  {
    [ ("Tanggal", Str(formatDate(d.date))),
      ("Event", Str(Or(d.eventName, "-"))),
      ("Penerima", Str(Or(d.recipient, "-"))),
      ("Deskripsi", Str(Or(d.description, "-"))),
      ("Kategori", Str(Or(d.category, "-"))),
      ("Metode", NullableText(d.payMethod)),
      ("Jumlah", NullableNumber(d.amount)),
      ("Catatan", Str(Or(d.notes, "-"))) ]
  }

  /** `handleExport`: None when the listed rows are empty (the alert), else the
      CSV text of the exported objects. */
  function ExportDisbursements(rows: seq<Disbursement>, formatDate: int -> string): (r: Option<string>)
    ensures r.None? <==> rows == []
  {
    if |rows| == 0 then None else Encode(Some(ExportData(rows, formatDate)))
  }

  /** `filtered.map(...)`: the exported objects. */
  function ExportData(rows: seq<Disbursement>, formatDate: int -> string): (r: seq<Row>)
    ensures |r| == |rows| && forall i :: 0 <= i < |rows| ==> r[i] == ExportRow(rows[i], formatDate)
  {
    seq(|rows|, i requires 0 <= i < |rows| => ExportRow(rows[i], formatDate))
  }

  lemma ExportHeadersPlain()
    ensures forall k :: 0 <= k < |ExportHeaders| ==> PlainHeader(ExportHeaders[k])
  {
  }

  /** Each exported object is read back at the header names as its eight columns. */
  lemma ExportRowValues(d: Disbursement, formatDate: int -> string)
    ensures ValuesAt(ExportHeaders, ExportRow(d, formatDate))
         == [ Str(formatDate(d.date)), Str(Or(d.eventName, "-")), Str(Or(d.recipient, "-")),
              Str(Or(d.description, "-")), Str(Or(d.category, "-")), NullableText(d.payMethod),
              NullableNumber(d.amount), Str(Or(d.notes, "-")) ]
  {
    ValuesAtOwnKeys(ExportRow(d, formatDate));
  }

  /** Reading the export back gives the column names and then, for each
      listed row in order, its columns as text. */
  lemma ExportDisbursementsRoundTrip(rows: seq<Disbursement>, formatDate: int -> string)
    requires rows != []
    ensures ExportDisbursements(rows, formatDate).Some?
    ensures var doc := ParseDocument(ExportDisbursements(rows, formatDate).value);
            && |doc| == |rows| + 1
            && doc[0] == ExportHeaders
            && forall i :: 0 <= i < |rows| ==> doc[i + 1] == Texts(ValuesAt(ExportHeaders, ExportRow(rows[i], formatDate)))
  {
    var data := ExportData(rows, formatDate);
    ExportHeadersPlain();
    ExportRoundTrip(data);
  }
}
