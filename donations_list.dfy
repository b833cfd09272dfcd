/** The admin donation list: the donor-name search, the cash / transfer /
    per-account summary cards computed over the filtered rows, and the CSV
    export of the filtered rows. Paging goes through `ListPaging`. */
module DonationList {
  import opened Wrappers
  import opened Seqs
  import opened Text
  import opened CsvExport

  const AnonymousName := "Hamba Allah"
  /** The two BSI account numbers the summary cards break transfers down by. */
  const Bsi1Number := "7185674333"
  const Bsi2Number := "7147181978"

  /** A transaction with the joined donor and event names; nullable columns are
      Options and the date is a timestamp. */
  datatype DonationRow = DonationRow(
    id: string,
    donorName: Option<string>,
    snapshot: Option<string>,
    eventName: Option<string>,
    txType: Option<string>,
    amount: Option<int>,
    date: int)

  // ---------------------------------------------------------------------------
  // Search

  /** `t.donors?.name || t.donor_name_snapshot || 'Hamba Allah'`. */
  function ListedName(t: DonationRow): (r: string)
    ensures r != ""
    ensures t.donorName.Some? && t.donorName.value != "" ==> r == t.donorName.value
  {
    Or(t.donorName, Or(t.snapshot, AnonymousName))
  }

  predicate MatchesSearch(t: DonationRow, search: string)
  {
    Contains(Lower(ListedName(t)), Lower(search))
  }

  function Matcher(search: string): DonationRow -> bool
  {
    t => MatchesSearch(t, search)
  }

  /** `filteredTransactions`: a row is listed iff its listed name,
      lower-cased, contains the lower-cased search; the listed rows keep
      their order. */
  function SearchRows(rows: seq<DonationRow>, search: string): (r: seq<DonationRow>)
    ensures forall i :: 0 <= i < |r| ==> r[i] in rows && MatchesSearch(r[i], search)
    ensures forall i :: 0 <= i < |rows| ==> (rows[i] in r <==> MatchesSearch(rows[i], search))
    ensures Subsequence(r, rows)
  {
    FilterIsSubsequence(rows, Matcher(search));
    Filter(rows, Matcher(search))
  }

  /** An empty search lists every row, in order. */
  lemma EmptySearchKeepsAll(rows: seq<DonationRow>)
    ensures SearchRows(rows, "") == rows
  {
    forall i | 0 <= i < |rows| ensures Matcher("")(rows[i]) {
      ContainsEmpty(Lower(ListedName(rows[i])));
    }
    FilterKeepsAll(rows, Matcher(""));
  }

  // ---------------------------------------------------------------------------
  // Summary cards

  /** The card a row's amount goes to. */
  datatype Bucket = Tunai | Bsi1 | Bsi2 | OtherTransfer | Unclassified

  /** `(t.type || '').toLowerCase()`. */
  function TypeText(t: DonationRow): string
  {
    Lower(Or(t.txType, ""))
  }

  /** The branches of the reducer: 'tunai' wins over 'transfer', and among
      transfers the first account number wins over the second. */
  function BucketOf(t: DonationRow): (b: Bucket)
    ensures b == Tunai <==> Contains(TypeText(t), "tunai")
    ensures b == Unclassified <==> !Contains(TypeText(t), "tunai") && !Contains(TypeText(t), "transfer")
    ensures b in {Bsi1, Bsi2, OtherTransfer} ==> Contains(TypeText(t), "transfer")
    ensures b == Bsi1 <==> !Contains(TypeText(t), "tunai") && Contains(TypeText(t), "transfer") && Contains(TypeText(t), Bsi1Number)
    ensures b == Bsi2 <==> !Contains(TypeText(t), "tunai") && Contains(TypeText(t), "transfer")
                           && !Contains(TypeText(t), Bsi1Number) && Contains(TypeText(t), Bsi2Number)
    ensures b == OtherTransfer <==> !Contains(TypeText(t), "tunai") && Contains(TypeText(t), "transfer")
                                    && !Contains(TypeText(t), Bsi1Number) && !Contains(TypeText(t), Bsi2Number)
  {
    var ty := TypeText(t);
    if Contains(ty, "tunai") then Tunai
    else if Contains(ty, "transfer") then
      if Contains(ty, Bsi1Number) then Bsi1
      else if Contains(ty, Bsi2Number) then Bsi2
      else OtherTransfer
    else Unclassified
  }

  function Amount(t: DonationRow): Option<int> { t.amount }

  function InBucket(b: Bucket): DonationRow -> bool
  {
    t => BucketOf(t) == b
  }

  /** The sum of the amounts (null as 0) of the rows in one bucket. */
  function BucketSum(rows: seq<DonationRow>, b: Bucket): int
  {
    SumBy(Filter(rows, InBucket(b)), Amount)
  }

  /** The six summary cards. */
  datatype Stats = Stats(total: int, tunai: int, transfer: int, bsi1: int, bsi2: int, otherTransfer: int)

  /** What the cards show for `rows`: every amount counted once in the total
      and once in its own bucket; the transfer card covers the three transfer
      buckets. */
  function StatsOf(rows: seq<DonationRow>): (r: Stats)
    ensures rows == [] ==> r == Stats(0, 0, 0, 0, 0, 0)
    ensures r.tunai + r.transfer + BucketSum(rows, Unclassified) == r.total
  {
    BucketsPartition(rows);
    Stats(
      SumBy(rows, Amount),
      BucketSum(rows, Tunai),
      BucketSum(rows, Bsi1) + BucketSum(rows, Bsi2) + BucketSum(rows, OtherTransfer),
      BucketSum(rows, Bsi1),
      BucketSum(rows, Bsi2),
      BucketSum(rows, OtherTransfer))
  }

  /** Adding one row at the end adds its amount to its own bucket only. */
  lemma BucketStep(p: seq<DonationRow>, x: DonationRow, b: Bucket)
    ensures BucketSum(p + [x], b) == BucketSum(p, b) + (if BucketOf(x) == b then OrZero(x.amount) else 0)
  {
    var keep := InBucket(b);
    FilterAppend(p, [x], keep);
    assert Filter([x], keep) == (if keep(x) then [x] else []) by {
      assert [x][1..] == [];
    }
    SumByAppend(Filter(p, keep), Filter([x], keep), Amount);
    SumBySingle(x, Amount);
  }

  /** One reducer step on the cards: the amount `a` of a row in bucket `b`
      goes to the total and to that bucket; a transfer also goes to the
      transfer card. */
  function StatsAdd(acc: Stats, b: Bucket, a: int): Stats
  {
    Stats(
      acc.total + a,
      acc.tunai + (if b == Tunai then a else 0),
      acc.transfer + (if b in {Bsi1, Bsi2, OtherTransfer} then a else 0),
      acc.bsi1 + (if b == Bsi1 then a else 0),
      acc.bsi2 + (if b == Bsi2 then a else 0),
      acc.otherTransfer + (if b == OtherTransfer then a else 0))
  }

  /** The cards for `rows` are the reducer steps over `rows` from all zeros:
      one more row is one more step. */
  lemma StatsStep(p: seq<DonationRow>, x: DonationRow)
    ensures StatsOf(p + [x]) == StatsAdd(StatsOf(p), BucketOf(x), OrZero(x.amount))
  {
    SumBySnoc(p, x, Amount);
    BucketStep(p, x, Tunai);
    BucketStep(p, x, Bsi1);
    BucketStep(p, x, Bsi2);
    BucketStep(p, x, OtherTransfer);
    AssembleStats(StatsOf(p), StatsOf(p + [x]), BucketOf(x), OrZero(x.amount));
  }

  lemma AssembleStats(before: Stats, after: Stats, b: Bucket, a: int)
    requires after.total == before.total + a
    requires after.tunai == before.tunai + (if b == Tunai then a else 0)
    requires after.bsi1 == before.bsi1 + (if b == Bsi1 then a else 0)
    requires after.bsi2 == before.bsi2 + (if b == Bsi2 then a else 0)
    requires after.otherTransfer == before.otherTransfer + (if b == OtherTransfer then a else 0)
    requires before.transfer == before.bsi1 + before.bsi2 + before.otherTransfer
    requires after.transfer == after.bsi1 + after.bsi2 + after.otherTransfer
    ensures after == StatsAdd(before, b, a)
  {
  }

  /** The reducer's callback, which classifies the row by its type text. */
  method AddRow(acc: Stats, t: DonationRow) returns (next: Stats)
    ensures next == StatsAdd(acc, BucketOf(t), OrZero(t.amount))
  {
    var amount := OrZero(t.amount);
    var ty := TypeText(t);
    next := acc.(total := acc.total + amount);
    if Contains(ty, "tunai") {
      next := next.(tunai := next.tunai + amount);
    } else if Contains(ty, "transfer") {
      next := next.(transfer := next.transfer + amount);
      if Contains(ty, Bsi1Number) {
        next := next.(bsi1 := next.bsi1 + amount);
      } else if Contains(ty, Bsi2Number) {
        assert BucketOf(t) == Bsi2;
        next := next.(bsi2 := next.bsi2 + amount);
      } else {
        assert BucketOf(t) == OtherTransfer;
        next := next.(otherTransfer := next.otherTransfer + amount);
      }
    }
  }

  /** The `stats` reducer: a loop of `AddRow` over the filtered rows. */
  method ComputeStats(rows: seq<DonationRow>) returns (acc: Stats)
    ensures acc == StatsOf(rows)
    ensures acc.transfer == acc.bsi1 + acc.bsi2 + acc.otherTransfer
  {
    acc := Stats(0, 0, 0, 0, 0, 0);
    var i := 0;
    while i < |rows|
      invariant 0 <= i <= |rows|
      invariant acc == StatsOf(rows[..i])
    {
      StatsPrefixStep(rows, i);
      acc := AddRow(acc, rows[i]);
      i := i + 1;
    }
    assert rows[..i] == rows;
  }

  lemma StatsPrefixStep(rows: seq<DonationRow>, i: int)
    requires 0 <= i < |rows|
    ensures StatsOf(rows[..i + 1]) == StatsAdd(StatsOf(rows[..i]), BucketOf(rows[i]), OrZero(rows[i].amount))
  {
    assert rows[..i + 1] == rows[..i] + [rows[i]];
    StatsStep(rows[..i], rows[i]);
  }

  /** Every amount lands in exactly one bucket: the five bucket sums add up
      to the sum of all amounts. */
  lemma {:induction false} BucketsPartition(rows: seq<DonationRow>)
    ensures BucketSum(rows, Tunai) + BucketSum(rows, Bsi1) + BucketSum(rows, Bsi2)
          + BucketSum(rows, OtherTransfer) + BucketSum(rows, Unclassified) == SumBy(rows, Amount)
    decreases |rows|
  {
    if rows != [] {
      var p := rows[..|rows| - 1];
      var x := rows[|rows| - 1];
      assert rows == p + [x];
      BucketsPartition(p);
      SumBySnoc(p, x, Amount);
      BucketStep(p, x, Tunai);
      BucketStep(p, x, Bsi1);
      BucketStep(p, x, Bsi2);
      BucketStep(p, x, OtherTransfer);
      BucketStep(p, x, Unclassified);
    }
  }

  /** With no negative amounts, cash plus transfers never exceed the total, and
      they equal it when every type names 'tunai' or 'transfer'. */
  lemma StatsBound(rows: seq<DonationRow>)
    requires forall i :: 0 <= i < |rows| ==> OrZero(rows[i].amount) >= 0
    ensures StatsOf(rows).tunai + StatsOf(rows).transfer <= StatsOf(rows).total
    ensures (forall i :: 0 <= i < |rows| ==> BucketOf(rows[i]) != Unclassified)
            ==> StatsOf(rows).tunai + StatsOf(rows).transfer == StatsOf(rows).total
  {
    var u := Filter(rows, InBucket(Unclassified));
    forall i | 0 <= i < |u| ensures OrZero(Amount(u[i])) >= 0 {
      var j :| 0 <= j < |rows| && rows[j] == u[i];
    }
    SumByNonnegative(u, Amount);
    if forall i :: 0 <= i < |rows| ==> BucketOf(rows[i]) != Unclassified {
      FilterNone(rows, InBucket(Unclassified));
    }
  }

  // ---------------------------------------------------------------------------
  // Export

  const ExportHeaders: seq<string> := ["Tanggal", "Donatur", "Event", "Tipe", "Jumlah", "Catatan"]

  /** The object exported for one row; `formatDate` stands for
      `toLocaleDateString('id-ID')`. */
  function ExportRow(t: DonationRow, formatDate: int -> string): (r: Row)
    ensures Keys(r) == ExportHeaders
  {
    [ ("Tanggal", Str(formatDate(t.date))),
      ("Donatur", Str(Or(t.donorName, Or(t.snapshot, "-")))),
      ("Event", Str(Or(t.eventName, "-"))),
      ("Tipe", NullableText(t.txType)),
      ("Jumlah", NullableNumber(t.amount)),
      ("Catatan", Str("-")) ]
  }

  /** `handleExport`: None when the filtered list is empty (the alert), else
      the CSV text of the exported objects. */
  function ExportDonations(rows: seq<DonationRow>, formatDate: int -> string): (r: Option<string>)
    ensures r.None? <==> rows == []
  {
    if |rows| == 0 then None else Encode(Some(ExportData(rows, formatDate)))
  }

  /** `filtered.map(...)`: the exported objects. */
  function ExportData(rows: seq<DonationRow>, formatDate: int -> string): (r: seq<Row>)
    ensures |r| == |rows| && forall i :: 0 <= i < |rows| ==> r[i] == ExportRow(rows[i], formatDate)
  {
    seq(|rows|, i requires 0 <= i < |rows| => ExportRow(rows[i], formatDate))
  }

  /** The header names need no quoting. */
  lemma ExportHeadersPlain()
    ensures forall k :: 0 <= k < |ExportHeaders| ==> PlainHeader(ExportHeaders[k])
  {
  }

  /** Each exported object is read back at the header names as its six columns. */
  lemma ExportRowValues(t: DonationRow, formatDate: int -> string)
    ensures ValuesAt(ExportHeaders, ExportRow(t, formatDate))
         == [ Str(formatDate(t.date)), Str(Or(t.donorName, Or(t.snapshot, "-"))), Str(Or(t.eventName, "-")),
              NullableText(t.txType), NullableNumber(t.amount), Str("-") ]
  {
    var row := ExportRow(t, formatDate);
    ValuesAtOwnKeys(row);
  }

  /** Reading the export back gives the column names and then, for each
      listed row in order, its columns as text. */
  lemma ExportDonationsRoundTrip(rows: seq<DonationRow>, formatDate: int -> string)
    requires rows != []
    ensures ExportDonations(rows, formatDate).Some?
    ensures var doc := ParseDocument(ExportDonations(rows, formatDate).value);
            && |doc| == |rows| + 1
            && doc[0] == ExportHeaders
            && forall i :: 0 <= i < |rows| ==> doc[i + 1] == Texts(ValuesAt(ExportHeaders, ExportRow(rows[i], formatDate)))
  {
    var data := ExportData(rows, formatDate);
    ExportHeadersPlain();
    ExportRoundTrip(data);
  }
}
