/** The public donation feed of the home page: `fetchHistory` merges the
    "pinned" rows (donor snapshot mentioning SDIT Albashiirah) with the most
    recent rows, removes duplicate ids through a `Map`, sorts pinned rows
    first and each group by transaction date, newest first, and shows one
    window of at most 20 rows out of the first 50. Beside it sit the redaction
    of donor names, the event totals and the Prev/Next page buttons. */
module DonationFeed {
  import opened Wrappers
  import opened Seqs
  import opened Text
  import opened ListPaging

  /** `ITEMS_PER_PAGE` and `MAX_ITEMS`. */
  const ItemsPerPage: nat := 20
  const MaxItems: nat := 50
  /** The last index shown by the summary view on first load. */
  const SummaryEnd: nat := 9
  /** The highest page the Next button leads to. */
  const MaxPage: nat := 20
  const PinnedName := "sdit albashiirah"
  const AnonymousName := "Hamba Alloh"

  /** A transaction row as the feed reads it; the date is a timestamp and a
      missing amount or snapshot is None. */
  datatype Tx = Tx(id: string, snapshot: Option<string>, amount: Option<int>, date: int, txType: string)

  /** `donor_name_snapshot?.toLowerCase().includes('sdit albashiirah')`. */
  predicate Pinned(t: Tx)
    ensures Pinned(t) ==> t.snapshot.Some?
  {
    t.snapshot.Some? && Contains(Lower(t.snapshot.value), PinnedName)
  }

  // ---------------------------------------------------------------------------
  // Ordering

  /** The comparator returns a negative number: `a` goes strictly before `b`. */
  predicate Before(a: Tx, b: Tx)
    ensures Pinned(a) && !Pinned(b) ==> Before(a, b)
    ensures Before(a, b) ==> Pinned(a) || !Pinned(b)
    ensures Pinned(a) == Pinned(b) ==> (Before(a, b) <==> a.date > b.date)
  {
    (Pinned(a) && !Pinned(b)) || (Pinned(a) == Pinned(b) && a.date > b.date)
  }

  /** A snapshot that mentions the school's name anywhere, in any mix of
      upper and lower case, is pinned. */
  lemma PinnedByName(t: Tx, front: string, name: string, back: string)
    requires t.snapshot == Some(front + name + back) && Lower(name) == PinnedName
    ensures Pinned(t)
  {
    LowerConcat(front + name, back);
    LowerConcat(front, name);
    ContainsSelf(PinnedName);
    ContainsInfix(Lower(front), Lower(name), Lower(back), PinnedName);
  }

  /** Of two rows either exactly one goes first or they tie, so the
      comparator orders any two rows consistently. */
  lemma BeforeTrichotomy(a: Tx, b: Tx)
    ensures Before(a, b) || Before(b, a) || SameRank(a, b)
    ensures !(Before(a, b) && Before(b, a))
    ensures !(Before(a, b) && SameRank(a, b)) && !(Before(b, a) && SameRank(a, b))
  {
  }

  /** The comparator returns 0: neither goes before the other. */
  predicate SameRank(a: Tx, b: Tx)
  {
    Pinned(a) == Pinned(b) && a.date == b.date
  }

  function SameRankAs(k: Tx): Tx -> bool
  {
    y => SameRank(y, k)
  }

  /** No row is placed after a row the comparator puts after it. */
  predicate Ranked(s: seq<Tx>)
  {
    forall i, j :: 0 <= i < j < |s| ==> !Before(s[j], s[i])
  }

  /** Places `x` after every row that does not come strictly after it. */
  function Insert(s: seq<Tx>, x: Tx): seq<Tx>
    decreases |s|
  {
    if s == [] then [x]
    else if Before(x, s[0]) then [x] + s
    else [s[0]] + Insert(s[1..], x)
  }

  /** The stable sort by the comparator: the order `Array.prototype.sort`
      produces, since that sort is stable and the comparator is a total preorder. */
  function SortByRank(s: seq<Tx>): (r: seq<Tx>)
    ensures Ranked(r)
    ensures multiset(r) == multiset(s)
    decreases |s|
  {
    if s == [] then []
    else
      var init, x := s[..|s| - 1], s[|s| - 1];
      InsertRanked(SortByRank(init), x);
      InsertPermutes(SortByRank(init), x);
      LastSplit(s);
      Insert(SortByRank(init), x)
  }

  lemma LastSplit(s: seq<Tx>)
    requires s != []
    ensures multiset(s) == multiset(s[..|s| - 1]) + multiset{s[|s| - 1]}
  {
    assert s == s[..|s| - 1] + [s[|s| - 1]];
  }

  lemma BeforeTransitive(a: Tx, b: Tx, c: Tx)
    ensures Before(a, b) && !Before(c, b) ==> Before(a, c)
  {
  }

  /** In a ranked list, everything after a row that `x` precedes also comes after `x`. */
  lemma RankedSuffix(s: seq<Tx>, x: Tx)
    requires Ranked(s) && s != [] && Before(x, s[0])
    ensures forall k :: 0 <= k < |s| ==> Before(x, s[k])
  {
    forall k | 0 <= k < |s| ensures Before(x, s[k]) {
      if k > 0 {
        BeforeTransitive(x, s[0], s[k]);
      }
    }
  }

  lemma {:induction false} InsertPermutes(s: seq<Tx>, x: Tx)
    ensures multiset(Insert(s, x)) == multiset(s) + multiset{x}
    decreases |s|
  {
    if s != [] && !Before(x, s[0]) {
      InsertPermutes(s[1..], x);
      assert s == [s[0]] + s[1..];
    }
  }

  lemma {:induction false} InsertRanked(s: seq<Tx>, x: Tx)
    requires Ranked(s)
    ensures Ranked(Insert(s, x))
    decreases |s|
  {
    if s != [] {
      if Before(x, s[0]) {
        RankedSuffix(s, x);
      } else {
        var tail := s[1..];
        InsertRanked(tail, x);
        InsertPermutes(tail, x);
        InsertHeadRanked(s[0], tail, x);
      }
    }
  }

  lemma InsertHeadRanked(h: Tx, tail: seq<Tx>, x: Tx)
    requires Ranked([h] + tail) && !Before(x, h)
    requires Ranked(Insert(tail, x))
    requires multiset(Insert(tail, x)) == multiset(tail) + multiset{x}
    ensures Ranked([h] + Insert(tail, x))
  {
    var r := Insert(tail, x);
    forall j | 0 <= j < |r| ensures !Before(r[j], h) {
      assert r[j] in multiset(r);
      if r[j] != x {
        HeadNotAfterTail(h, tail, r[j]);
      }
    }
    RankedCons(h, r);
  }

  /** In a ranked list no row of the tail comes strictly before the head. */
  lemma HeadNotAfterTail(h: Tx, tail: seq<Tx>, y: Tx)
    requires Ranked([h] + tail) && y in multiset(tail)
    ensures !Before(y, h)
  {
    var k :| 0 <= k < |tail| && tail[k] == y;
    assert ([h] + tail)[0] == h && ([h] + tail)[k + 1] == y;
  }

  /** A ranked list stays ranked under a head that no row of it precedes. */
  lemma RankedCons(h: Tx, r: seq<Tx>)
    requires Ranked(r)
    requires forall j :: 0 <= j < |r| ==> !Before(r[j], h)
    ensures Ranked([h] + r)
  {
    forall i, j | 0 <= i < j < |r| + 1 ensures !Before(([h] + r)[j], ([h] + r)[i]) {
      if i > 0 {
        assert ([h] + r)[j] == r[j - 1] && ([h] + r)[i] == r[i - 1];
      }
    }
  }

  /** The pinned-first and newest-first promise of the comparator, read off a
      ranked list. */
  lemma RankedOrder(s: seq<Tx>, i: int, j: int)
    requires Ranked(s) && 0 <= i < j < |s|
    ensures Pinned(s[j]) ==> Pinned(s[i])
    ensures Pinned(s[i]) == Pinned(s[j]) ==> s[i].date >= s[j].date
  {
    assert !Before(s[j], s[i]);
  }

  lemma FilterCons(a: Tx, t: seq<Tx>, keep: Tx -> bool)
    ensures Filter([a] + t, keep) == (if keep(a) then [a] else []) + Filter(t, keep)
  {
    assert ([a] + t)[1..] == t;
  }

  /** Inserting `x` adds it after the rows of its own rank and moves no other
      row of any rank. */
  lemma {:induction false} InsertStable(s: seq<Tx>, x: Tx, k: Tx)
    requires Ranked(s)
    ensures Filter(Insert(s, x), SameRankAs(k))
         == Filter(s, SameRankAs(k)) + (if SameRank(x, k) then [x] else [])
    decreases |s|
  {
    if s == [] {
      FilterCons(x, [], SameRankAs(k));
    } else if Before(x, s[0]) {
      InsertStableFront(s, x, k);
    } else {
      assert Ranked(s[1..]);
      InsertStable(s[1..], x, k);
      InsertStableSkip(s, x, k);
    }
  }

  /** `x` goes in front: every row of its rank already came after it. */
  lemma InsertStableFront(s: seq<Tx>, x: Tx, k: Tx)
    requires Ranked(s) && s != [] && Before(x, s[0])
    ensures Filter(Insert(s, x), SameRankAs(k))
         == Filter(s, SameRankAs(k)) + (if SameRank(x, k) then [x] else [])
  {
    var keep := SameRankAs(k);
    FilterCons(x, s, keep);
    if SameRank(x, k) {
      RankedSuffix(s, x);
      FilterNone(s, keep);
    }
  }

  /** `x` goes past the head, which keeps its place. */
  lemma InsertStableSkip(s: seq<Tx>, x: Tx, k: Tx)
    requires s != [] && !Before(x, s[0])
    requires Filter(Insert(s[1..], x), SameRankAs(k))
          == Filter(s[1..], SameRankAs(k)) + (if SameRank(x, k) then [x] else [])
    ensures Filter(Insert(s, x), SameRankAs(k))
         == Filter(s, SameRankAs(k)) + (if SameRank(x, k) then [x] else [])
  {
    var keep := SameRankAs(k);
    var h, tail := s[0], s[1..];
    var extra := if SameRank(x, k) then [x] else [];
    assert s == [h] + tail;
    assert Insert(s, x) == [h] + Insert(tail, x);
    FilterCons(h, Insert(tail, x), keep);
    FilterCons(h, tail, keep);
    SeqAssoc(if keep(h) then [h] else [], Filter(tail, keep), extra);
  }

  /** Stability: the rows of each rank keep their input order. */
  lemma {:induction false} SortByRankStable(s: seq<Tx>, k: Tx)
    ensures Filter(SortByRank(s), SameRankAs(k)) == Filter(s, SameRankAs(k))
    decreases |s|
  {
    if s != [] {
      SortedLastStep(s, k);
      SortByRankStable(s[..|s| - 1], k);
      FilterLastStep(s, k);
    }
  }

  lemma SortedLastStep(s: seq<Tx>, k: Tx)
    requires s != []
    ensures var x := s[|s| - 1];
      Filter(SortByRank(s), SameRankAs(k))
      == Filter(SortByRank(s[..|s| - 1]), SameRankAs(k)) + (if SameRank(x, k) then [x] else [])
  {
    InsertStable(SortByRank(s[..|s| - 1]), s[|s| - 1], k);
  }

  lemma FilterLastStep(s: seq<Tx>, k: Tx)
    requires s != []
    ensures var x := s[|s| - 1];
      Filter(s, SameRankAs(k)) == Filter(s[..|s| - 1], SameRankAs(k)) + (if SameRank(x, k) then [x] else [])
  {
    var p, x := s[..|s| - 1], s[|s| - 1];
    assert s == p + [x];
    FilterSnoc(p, x, SameRankAs(k));
  }

  /** `unique.sort(...)`: an insertion sort over the merged rows. */
  method SortFeed(unique: seq<Tx>) returns (sorted: seq<Tx>)
    ensures sorted == SortByRank(unique)
    ensures Ranked(sorted) && multiset(sorted) == multiset(unique)
  {
    sorted := [];
    var i := 0;
    while i < |unique|
      invariant 0 <= i <= |unique|
      invariant sorted == SortByRank(unique[..i])
    {
      SortByRankStep(unique, i);
      sorted := InsertRow(sorted, unique[i]);
      i := i + 1;
    }
    assert unique[..i] == unique;
  }

  /** One pass of the insertion sort: `x` goes before the first row it
      precedes, after all the others. */
  method InsertRow(sorted: seq<Tx>, x: Tx) returns (r: seq<Tx>)
    ensures r == Insert(sorted, x)
    ensures |r| == |sorted| + 1
  {
    var j := 0;
    while j < |sorted| && !Before(x, sorted[j])
      invariant 0 <= j <= |sorted|
      invariant Insert(sorted, x) == sorted[..j] + Insert(sorted[j..], x)
    {
      InsertSkip(sorted, x, j);
      j := j + 1;
    }
    InsertStop(sorted, x, j);
    r := sorted[..j] + [x] + sorted[j..];
  }

  lemma InsertSkip(s: seq<Tx>, x: Tx, j: int)
    requires 0 <= j < |s| && !Before(x, s[j])
    requires Insert(s, x) == s[..j] + Insert(s[j..], x)
    ensures Insert(s, x) == s[..j + 1] + Insert(s[j + 1..], x)
  {
    var t := s[j..];
    assert t[0] == s[j] && t[1..] == s[j + 1..];
    assert Insert(t, x) == [s[j]] + Insert(s[j + 1..], x);
    SeqAssoc(s[..j], [s[j]], Insert(s[j + 1..], x));
    assert s[..j] + [s[j]] == s[..j + 1];
  }

  lemma InsertStop(s: seq<Tx>, x: Tx, j: int)
    requires 0 <= j <= |s| && (j == |s| || Before(x, s[j]))
    requires Insert(s, x) == s[..j] + Insert(s[j..], x)
    ensures Insert(s, x) == s[..j] + [x] + s[j..]
  {
    if j == |s| {
      assert s[j..] == [];
    }
  }

  lemma SortByRankStep(s: seq<Tx>, i: int)
    requires 0 <= i < |s|
    ensures SortByRank(s[..i + 1]) == Insert(SortByRank(s[..i]), s[i])
  {
    assert s[..i + 1][..i] == s[..i];
  }

  // ---------------------------------------------------------------------------
  // Deduplication through a Map

  /** The position of the first row with `id`, if any. */
  function FindId(m: seq<Tx>, id: string): (r: Option<nat>)
    ensures r.Some? ==> r.value < |m| && m[r.value].id == id
    ensures r.Some? ==> forall k :: 0 <= k < r.value ==> m[k].id != id
    ensures r.None? ==> forall k :: 0 <= k < |m| ==> m[k].id != id
    decreases |m|
  {
    if m == [] then None
    else if m[0].id == id then Some(0)
    else match FindId(m[1..], id)
      case None => None
      case Some(i) => Some(i + 1)
  }

  /** The position of the last row with `id`, if any. */
  function LastId(m: seq<Tx>, id: string): (r: Option<nat>)
    ensures r.Some? ==> r.value < |m| && m[r.value].id == id
    ensures r.Some? ==> forall k :: r.value < k < |m| ==> m[k].id != id
    ensures r.None? ==> forall k :: 0 <= k < |m| ==> m[k].id != id
    decreases |m|
  {
    if m == [] then None
    else if m[|m| - 1].id == id then Some(|m| - 1)
    else LastId(m[..|m| - 1], id)
  }

  /** `map.set(item.id, item)` on a Map kept as its entries in insertion order:
      an existing key keeps its place and takes the new value, a new key goes last. */
  function Upsert(m: seq<Tx>, x: Tx): (r: seq<Tx>)
    ensures FindId(r, x.id) == if FindId(m, x.id).Some? then FindId(m, x.id) else Some(|m|)
    ensures r[FindId(r, x.id).value] == x
    ensures forall id :: id != x.id ==> FindId(r, id) == FindId(m, id)
    ensures |r| == if FindId(m, x.id).Some? then |m| else |m| + 1
    ensures forall k :: 0 <= k < |m| && m[k].id != x.id ==> r[k] == m[k]
    ensures DistinctIds(m) ==> DistinctIds(r)
  {
    match FindId(m, x.id)
    case Some(i) => UpsertExisting(m, x, i); m[i := x]
    case None => UpsertNew(m, x); m + [x]
  }

  lemma UpsertExisting(m: seq<Tx>, x: Tx, i: nat)
    requires FindId(m, x.id) == Some(i)
    ensures FindId(m[i := x], x.id) == Some(i)
    ensures forall id :: id != x.id ==> FindId(m[i := x], id) == FindId(m, id)
  {
    FindIdUnique(m[i := x], x.id, i);
    forall id | id != x.id ensures FindId(m[i := x], id) == FindId(m, id) {
      FindIdSameIds(m, m[i := x], id);
    }
  }

  lemma UpsertNew(m: seq<Tx>, x: Tx)
    requires FindId(m, x.id).None?
    ensures FindId(m + [x], x.id) == Some(|m|)
    ensures forall id :: id != x.id ==> FindId(m + [x], id) == FindId(m, id)
  {
    FindIdAppend(m, x, x.id);
    forall id | id != x.id ensures FindId(m + [x], id) == FindId(m, id) {
      FindIdAppend(m, x, id);
    }
  }

  /** `Array.from(new Map(all.map(item => [item.id, item])).values())`: the
      ids are distinct and there are no more entries than rows. */
  function Dedupe(all: seq<Tx>): (r: seq<Tx>)
    ensures DistinctIds(r)
    ensures |r| <= |all|
    decreases |all|
  {
    if all == [] then [] else Upsert(Dedupe(all[..|all| - 1]), all[|all| - 1])
  }

  /** Some entry carries `id`. */
  predicate HasId(m: seq<Tx>, id: string)
  {
    exists j :: 0 <= j < |m| && m[j].id == id
  }

  predicate DistinctIds(m: seq<Tx>)
  {
    forall i, j :: 0 <= i < j < |m| ==> m[i].id != m[j].id
  }

  /** Every id of `all` has an entry. */
  predicate Covers(r: seq<Tx>, all: seq<Tx>)
  {
    forall k :: 0 <= k < |all| ==> FindId(r, all[k].id).Some?
  }

  /** Every entry is the last row of `all` with its id. */
  predicate Latest(r: seq<Tx>, all: seq<Tx>)
  {
    forall i :: 0 <= i < |r| ==> LastId(all, r[i].id).Some? && r[i] == all[LastId(all, r[i].id).value]
  }

  /** `a`'s id first occurs in `all` before `b`'s. */
  predicate FirstBefore(all: seq<Tx>, a: Tx, b: Tx)
  {
    FindId(all, a.id).Some? && FindId(all, b.id).Some? && FindId(all, a.id).value < FindId(all, b.id).value
  }

  /** Entries follow the order in which their ids first occur in `all`. */
  predicate FirstOrder(r: seq<Tx>, all: seq<Tx>)
  {
    forall i, j :: 0 <= i < j < |r| ==> FirstBefore(all, r[i], r[j])
  }

  /** What the Map keeps of `all`: every id once, each with the last row seen
      under that id, in the order of the ids' first occurrences. */
  predicate DedupeOf(r: seq<Tx>, all: seq<Tx>)
  {
    DistinctIds(r) && Covers(r, all) && Latest(r, all) && FirstOrder(r, all)
  }

  lemma FindIdAppend(p: seq<Tx>, x: Tx, id: string)
    ensures FindId(p + [x], id) == if FindId(p, id).Some? then FindId(p, id) else if x.id == id then Some(|p|) else None
  {
    var q := p + [x];
    match FindId(p, id)
    case Some(i) =>
      assert q[i] == p[i];
      FindIdUnique(q, id, i);
    case None =>
      if x.id == id {
        FindIdUnique(q, id, |p|);
      } else {
        forall k | 0 <= k < |q| ensures q[k].id != id {
          if k < |p| { assert q[k] == p[k]; }
        }
      }
  }

  /** The first position is determined by the ids. */
  lemma FindIdUnique(m: seq<Tx>, id: string, i: nat)
    requires i < |m| && m[i].id == id && forall k :: 0 <= k < i ==> m[k].id != id
    ensures FindId(m, id) == Some(i)
  {
  }

  lemma LastIdAppend(p: seq<Tx>, x: Tx, id: string)
    ensures LastId(p + [x], id) == if x.id == id then Some(|p|) else LastId(p, id)
  {
    assert (p + [x])[..|p|] == p;
  }

  lemma FindIdSameIds(a: seq<Tx>, b: seq<Tx>, id: string)
    requires |a| == |b| && forall j :: 0 <= j < |a| ==> a[j].id == b[j].id
    ensures FindId(a, id) == FindId(b, id)
  {
    match FindId(a, id)
    case Some(i) => FindIdUnique(b, id, i);
    case None =>
  }

  /** An id with a last occurrence has a first one. */
  lemma LastGivesFirst(p: seq<Tx>, id: string)
    requires LastId(p, id).Some?
    ensures FindId(p, id).Some?
  {
    var k := LastId(p, id).value;
    assert p[k].id == id;
  }

  /** Each id once, in the order of its first occurrence, with the last row
      seen under it. */
  lemma {:induction false} DedupeCorrect(all: seq<Tx>)
    ensures DedupeOf(Dedupe(all), all)
    decreases |all|
  {
    if all != [] {
      var p, x := all[..|all| - 1], all[|all| - 1];
      assert all == p + [x];
      DedupeCorrect(p);
      var r := Dedupe(p);
      match FindId(r, x.id)
      case Some(i) =>
        ExistingCovers(r, p, x, i);
        ExistingLatest(r, p, x, i);
        ExistingFirstOrder(r, p, x, i);
      case None =>
        NewCovers(r, p, x);
        NewLatest(r, p, x);
        NewFirstOrder(r, p, x);
    }
  }

  lemma ExistingCovers(r: seq<Tx>, p: seq<Tx>, x: Tx, i: nat)
    requires Covers(r, p) && FindId(r, x.id) == Some(i)
    ensures Covers(r[i := x], p + [x])
  {
    var q := p + [x];
    forall k | 0 <= k < |q| ensures FindId(r[i := x], q[k].id).Some? {
      FindIdSameIds(r, r[i := x], q[k].id);
      if k < |p| { assert q[k] == p[k]; }
    }
  }

  lemma ExistingLatest(r: seq<Tx>, p: seq<Tx>, x: Tx, i: nat)
    requires DistinctIds(r) && Latest(r, p) && FindId(r, x.id) == Some(i)
    ensures Latest(r[i := x], p + [x])
  {
    var q := p + [x];
    var r' := r[i := x];
    forall j | 0 <= j < |r'| ensures LastId(q, r'[j].id).Some? && r'[j] == q[LastId(q, r'[j].id).value] {
      LastIdAppend(p, x, r'[j].id);
      if j != i {
        assert r'[j] == r[j] && r[j].id != x.id;
        assert q[LastId(p, r[j].id).value] == p[LastId(p, r[j].id).value];
      }
    }
  }

  /** An entry's first position does not move when a row is appended. */
  lemma KeptPosition(r: seq<Tx>, p: seq<Tx>, x: Tx, i: nat)
    requires Latest(r, p) && i < |r|
    ensures FindId(p + [x], r[i].id) == FindId(p, r[i].id) && FindId(p, r[i].id).Some?
  {
    LastGivesFirst(p, r[i].id);
    FindIdAppend(p, x, r[i].id);
  }

  lemma ExistingFirstOrder(r: seq<Tx>, p: seq<Tx>, x: Tx, i: nat)
    requires Latest(r, p) && FirstOrder(r, p) && FindId(r, x.id) == Some(i)
    ensures FirstOrder(r[i := x], p + [x])
  {
    var r' := r[i := x];
    forall j | 0 <= j < |r'| ensures r'[j].id == r[j].id && FindId(p + [x], r[j].id) == FindId(p, r[j].id) {
      KeptPosition(r, p, x, j);
    }
  }

  /** A new id does not occur among the rows already merged. */
  lemma NewIdUnseen(r: seq<Tx>, p: seq<Tx>, x: Tx)
    requires Covers(r, p) && FindId(r, x.id).None?
    ensures FindId(p, x.id).None?
  {
    forall k | 0 <= k < |p| ensures p[k].id != x.id {
      assert FindId(r, p[k].id).Some?;
    }
  }

  lemma NewCovers(r: seq<Tx>, p: seq<Tx>, x: Tx)
    requires Covers(r, p) && FindId(r, x.id).None?
    ensures Covers(r + [x], p + [x])
  {
    var q := p + [x];
    forall k | 0 <= k < |q| ensures FindId(r + [x], q[k].id).Some? {
      FindIdAppend(r, x, q[k].id);
      if k < |p| { assert q[k] == p[k]; }
    }
  }

  lemma NewLatest(r: seq<Tx>, p: seq<Tx>, x: Tx)
    requires Latest(r, p) && FindId(r, x.id).None?
    ensures Latest(r + [x], p + [x])
  {
    var q := p + [x];
    var r' := r + [x];
    forall j | 0 <= j < |r'| ensures LastId(q, r'[j].id).Some? && r'[j] == q[LastId(q, r'[j].id).value] {
      LastIdAppend(p, x, r'[j].id);
      if j < |r| {
        assert r'[j] == r[j] && r[j].id != x.id;
        assert q[LastId(p, r[j].id).value] == p[LastId(p, r[j].id).value];
      }
    }
  }

  lemma NewFirstOrder(r: seq<Tx>, p: seq<Tx>, x: Tx)
    requires Covers(r, p) && Latest(r, p) && FirstOrder(r, p) && FindId(r, x.id).None?
    ensures FirstOrder(r + [x], p + [x])
  {
    NewIdUnseen(r, p, x);
    var r' := r + [x];
    forall i, j | 0 <= i < j < |r'| ensures FirstBefore(p + [x], r'[i], r'[j]) {
      NewPair(r, p, x, i, j);
    }
  }

  /** One pair of entries after a new id is appended: old entries keep their
      order, and the new entry comes after every old one. */
  lemma NewPair(r: seq<Tx>, p: seq<Tx>, x: Tx, i: nat, j: nat)
    requires Latest(r, p) && FirstOrder(r, p) && FindId(p, x.id).None?
    requires i < j <= |r|
    ensures FirstBefore(p + [x], (r + [x])[i], (r + [x])[j])
  {
    var r' := r + [x];
    assert r'[i] == r[i];
    KeptPosition(r, p, x, i);
    if j < |r| {
      assert r'[j] == r[j];
      KeptPosition(r, p, x, j);
      assert FirstBefore(p, r[i], r[j]);
    } else {
      assert r'[j] == x;
      FindIdAppend(p, x, x.id);
    }
  }

  // ---------------------------------------------------------------------------
  // The page window

  /** `eventId || activeEvent?.id`: None when neither is a non-empty id. */
  function ResolveId(eventId: Option<string>, activeId: Option<string>): (r: Option<string>)
    ensures r.Some? ==> r.value != "" && (r == eventId || r == activeId)
    ensures r.None? <==> (eventId.None? || eventId.value == "") && (activeId.None? || activeId.value == "")
    ensures eventId.Some? && eventId.value != "" ==> r == eventId
  {
    if eventId.Some? && eventId.value != "" then eventId
    else if activeId.Some? && activeId.value != "" then activeId
    else None
  }

  function WindowStart(page: int): int
  {
    (page - 1) * ItemsPerPage
  }

  /** `effectiveEnd`: the last index the request may show. */
  function WindowEnd(page: int, isInitial: bool): int
  {
    if isInitial then SummaryEnd else Min(WindowStart(page) + ItemsPerPage - 1, MaxItems - 1)
  }

  function OrEmpty(rows: Option<seq<Tx>>): seq<Tx>
  {
    if rows.Some? then rows.value else []
  }

  /** The merged, deduplicated and sorted rows of both fetches. */
  function Merged(pinned: Option<seq<Tx>>, recent: Option<seq<Tx>>): (r: seq<Tx>)
    ensures Ranked(r) && DistinctIds(r)
    ensures |r| <= |OrEmpty(pinned) + OrEmpty(recent)|
  {
    var all := OrEmpty(pinned) + OrEmpty(recent);
    SortedDistinct(Dedupe(all));
    SortedLength(Dedupe(all));
    SortByRank(Dedupe(all))
  }

  lemma SortedLength(u: seq<Tx>)
    ensures |SortByRank(u)| == |u|
  {
    assert |SortByRank(u)| == |multiset(SortByRank(u))|;
  }

  /** Every merged row is one of the fetched rows, and every fetched id has
      a merged row. */
  lemma MergedRows(pinned: Option<seq<Tx>>, recent: Option<seq<Tx>>)
    ensures var all, r := OrEmpty(pinned) + OrEmpty(recent), Merged(pinned, recent);
            && (forall i :: 0 <= i < |r| ==> r[i] in all)
            && (forall k :: 0 <= k < |all| ==> HasId(r, all[k].id))
  {
    var all := OrEmpty(pinned) + OrEmpty(recent);
    var u := Dedupe(all);
    DedupeCorrect(all);
    SortedRowsFetched(u, all);
    SortedIdsKept(u, all);
    assert Merged(pinned, recent) == SortByRank(u);
  }

  lemma SortedRowsFetched(u: seq<Tx>, all: seq<Tx>)
    requires Latest(u, all)
    ensures forall i :: 0 <= i < |SortByRank(u)| ==> SortByRank(u)[i] in all
  {
    var r := SortByRank(u);
    forall i | 0 <= i < |r| ensures r[i] in all {
      MultisetIndex(u, r, i);
      var a :| 0 <= a < |u| && u[a] == r[i];
      assert u[a] == all[LastId(all, u[a].id).value];
    }
  }

  lemma SortedIdsKept(u: seq<Tx>, all: seq<Tx>)
    requires Covers(u, all)
    ensures forall k :: 0 <= k < |all| ==> HasId(SortByRank(u), all[k].id)
  {
    var r := SortByRank(u);
    forall k | 0 <= k < |all| ensures HasId(r, all[k].id) {
      var a := FindId(u, all[k].id).value;
      assert u[a] in multiset(u);
      assert u[a] in r;
      var j :| 0 <= j < |r| && r[j] == u[a];
      assert r[j].id == all[k].id;
    }
  }

  /** What `fetchHistory` passes to `setRecentDonations`, or None when it
      returns early (no event id, a window past `MAX_ITEMS`, or both fetches
      null) and the feed keeps what it showed. `pinned` and `recent` are the
      rows the two queries returned. */
  function FetchHistory(eventId: Option<string>, activeId: Option<string>, page: int, isInitial: bool,
                        pinned: Option<seq<Tx>>, recent: Option<seq<Tx>>): (r: Option<seq<Tx>>)
    ensures r.None? <==> ResolveId(eventId, activeId).None? || WindowStart(page) >= MaxItems
                         || (pinned.None? && recent.None?)
  {
    if ResolveId(eventId, activeId).None? then None
    else if WindowStart(page) >= MaxItems then None
    else if pinned.None? && recent.None? then None
    else Some(JsSlice(Merged(pinned, recent), WindowStart(page), WindowEnd(page, isInitial) + 1))
  }

  /** The window of a request that goes ahead: at most 20 rows (10 on the
      first load), all of them within the first 50 sorted rows, taken in order
      from index `(page - 1) * 20` of the merged list. */
  lemma FetchHistoryWindow(eventId: Option<string>, activeId: Option<string>, page: int, isInitial: bool,
                           pinned: Option<seq<Tx>>, recent: Option<seq<Tx>>)
    requires page >= 1
    requires FetchHistory(eventId, activeId, page, isInitial, pinned, recent).Some?
    ensures var r := FetchHistory(eventId, activeId, page, isInitial, pinned, recent).value;
            var m := Merged(pinned, recent);
            var start := (page - 1) * ItemsPerPage;
            && |r| <= ItemsPerPage
            && (isInitial ==> |r| <= SummaryEnd + 1)
            && (forall k :: 0 <= k < |r| ==> start + k < |m| && start + k < MaxItems && r[k] == m[start + k])
            && |r| == Min(|m|, WindowEnd(page, isInitial) + 1) - Min(start, Min(|m|, WindowEnd(page, isInitial) + 1))
  {
    FeedWindow(Merged(pinned, recent), page, isInitial);
  }

  /** The slice a request takes of any merged list. */
  lemma FeedWindow(m: seq<Tx>, page: int, isInitial: bool)
    requires page >= 1 && WindowStart(page) < MaxItems
    ensures var r := JsSlice(m, WindowStart(page), WindowEnd(page, isInitial) + 1);
            var start := (page - 1) * ItemsPerPage;
            && |r| <= ItemsPerPage
            && (isInitial ==> |r| <= SummaryEnd + 1)
            && (forall k :: 0 <= k < |r| ==> start + k < |m| && start + k < MaxItems && r[k] == m[start + k])
            && |r| == Min(|m|, WindowEnd(page, isInitial) + 1) - Min(start, Min(|m|, WindowEnd(page, isInitial) + 1))
  {
    assert WindowStart(page) >= 0 by { assert page - 1 >= 0; }
  }

  /** The rows shown are distinct, pinned rows first and newest first within
      each group. */
  lemma FetchHistoryOrdered(eventId: Option<string>, activeId: Option<string>, page: int, isInitial: bool,
                            pinned: Option<seq<Tx>>, recent: Option<seq<Tx>>)
    requires page >= 1
    requires FetchHistory(eventId, activeId, page, isInitial, pinned, recent).Some?
    ensures var r := FetchHistory(eventId, activeId, page, isInitial, pinned, recent).value;
            DistinctIds(r) && Ranked(r)
  {
    var all := OrEmpty(pinned) + OrEmpty(recent);
    var m := Merged(pinned, recent);
    SortedDistinct(Dedupe(all));
    FetchHistoryWindow(eventId, activeId, page, isInitial, pinned, recent);
  }

  /** Sorting rearranges the rows, so their ids stay distinct. */
  lemma SortedDistinct(u: seq<Tx>)
    requires DistinctIds(u)
    ensures DistinctIds(SortByRank(u))
  {
    var m := SortByRank(u);
    forall i, j | 0 <= i < j < |m| ensures m[i].id != m[j].id {
      MultisetIndex(u, m, i);
      MultisetIndex(u, m, j);
      var a :| 0 <= a < |u| && u[a] == m[i];
      var b :| 0 <= b < |u| && u[b] == m[j];
      CountAtMostOne(u, m[i]);
      TwoPositions(m, i, j);
      assert a != b;
    }
  }

  lemma MultisetIndex(u: seq<Tx>, m: seq<Tx>, i: int)
    requires multiset(m) == multiset(u) && 0 <= i < |m|
    ensures exists a :: 0 <= a < |u| && u[a] == m[i]
  {
    assert m[i] in multiset(m);
    assert m[i] in u;
  }

  /** A row at two positions occurs at least twice. */
  lemma TwoPositions(m: seq<Tx>, i: int, j: int)
    requires 0 <= i < j < |m|
    ensures m[i] == m[j] ==> multiset(m)[m[i]] >= 2
  {
    var front, back := m[..j], m[j..];
    assert m == front + back;
    assert front[i] == m[i] && back[0] == m[j];
    assert m[i] in multiset(front) && m[j] in multiset(back);
  }

  lemma {:induction false} CountAtMostOne(u: seq<Tx>, x: Tx)
    requires DistinctIds(u)
    ensures multiset(u)[x] <= 1
    decreases |u|
  {
    if u != [] {
      var p := u[..|u| - 1];
      assert u == p + [u[|u| - 1]];
      CountAtMostOne(p, x);
      if u[|u| - 1] == x {
        forall k | 0 <= k < |p| ensures p[k] != x {
          assert p[k].id != u[|u| - 1].id;
        }
        assert x !in p;
      }
    }
  }

  /** Only pages 1 to 3 reach the queries: from page 4 on the request returns
      at once and the feed is left unchanged. */
  lemma OnlyFirstThreePages(eventId: Option<string>, activeId: Option<string>, page: int, isInitial: bool,
                            pinned: Option<seq<Tx>>, recent: Option<seq<Tx>>)
    ensures page >= 4 ==> FetchHistory(eventId, activeId, page, isInitial, pinned, recent).None?
    ensures 1 <= page <= 3 && ResolveId(eventId, activeId).Some? && (pinned.Some? || recent.Some?)
            ==> FetchHistory(eventId, activeId, page, isInitial, pinned, recent).Some?
  {
    if page >= 4 {
      assert (page - 1) * ItemsPerPage >= 3 * ItemsPerPage;
    }
  }

  /** The feed changes only when at least one query returned data, even an
      empty list, and then shows exactly the window of the merged rows. */
  lemma FeedUnchangedOnlyWhenBothNull(eventId: Option<string>, activeId: Option<string>, page: int,
                                      isInitial: bool, pinned: Option<seq<Tx>>, recent: Option<seq<Tx>>)
    requires ResolveId(eventId, activeId).Some? && WindowStart(page) < MaxItems
    ensures FetchHistory(eventId, activeId, page, isInitial, pinned, recent).None? <==> pinned.None? && recent.None?
    ensures pinned == Some([]) && recent == Some([])
            ==> FetchHistory(eventId, activeId, page, isInitial, pinned, recent) == Some([])
  {
    if pinned == Some([]) && recent == Some([]) {
      assert OrEmpty(pinned) + OrEmpty(recent) == [];
    }
  }

  /** The third page shows at most 10 rows, so once its rows are shown its
      Next button is disabled. */
  lemma ThirdPageIsShort(eventId: Option<string>, activeId: Option<string>,
                         pinned: Option<seq<Tx>>, recent: Option<seq<Tx>>)
    requires FetchHistory(eventId, activeId, 3, false, pinned, recent).Some?
    ensures |FetchHistory(eventId, activeId, 3, false, pinned, recent).value| <= MaxItems - 2 * ItemsPerPage
  {
    FetchHistoryWindow(eventId, activeId, 3, false, pinned, recent);
  }

  // ---------------------------------------------------------------------------
  // What a visitor sees of a row, and the event totals

  /** The donor name shown for a row: the snapshot for the school's own
      donations, 'Hamba Alloh' for everybody else. */
  function DisplayName(t: Tx): (r: string)
    ensures r == AnonymousName <==> !Pinned(t)
    ensures r != AnonymousName ==> t.snapshot == Some(r) && Contains(Lower(r), PinnedName)
  {
    ShorterNotContains(Lower(AnonymousName), PinnedName);
    if t.snapshot.Some? && t.snapshot.value != "" && Contains(Lower(t.snapshot.value), PinnedName)
    then t.snapshot.value
    else AnonymousName
  }

  /** Redaction hides everything: two rows that are not the school's show the
      same name whatever their snapshots. */
  lemma RedactionHidesSnapshot(a: Tx, b: Tx)
    requires !Pinned(a) && !Pinned(b)
    ensures DisplayName(a) == DisplayName(b)
  {
  }

  /** The two columns the totals query selects. */
  datatype StatRow = StatRow(amount: Option<int>, donorId: Option<string>)

  datatype Stats = Stats(totalAmount: int, totalDonors: nat)

  function RowAmount(t: StatRow): Option<int> { t.amount }

  /** `stats` after the totals query: the sum of the amounts with a missing
      amount counted as 0, and the number of rows. None (the query returned
      null) leaves the previous stats. */
  function EventStats(rows: Option<seq<StatRow>>): (r: Option<Stats>)
    ensures r.Some? <==> rows.Some?
    ensures r.Some? ==> r.value.totalAmount == SumBy(rows.value, RowAmount)
    ensures r.Some? ==> r.value.totalDonors == |rows.value|
  {
    if rows.None? then None else Some(Stats(SumBy(rows.value, RowAmount), |rows.value|))
  }

  /** The donor ids that occur among the rows. */
  function DonorIds(rows: seq<StatRow>): set<string>
    decreases |rows|
  {
    if rows == [] then {}
    else
      var last := rows[|rows| - 1];
      DonorIds(rows[..|rows| - 1]) + (if last.donorId.Some? then {last.donorId.value} else {})
  }

  /** `totalDonors` counts transactions, not donors: it is never below the
      number of distinct donors. */
  lemma {:induction false} DonorsCountTransactions(rows: seq<StatRow>)
    ensures |DonorIds(rows)| <= |rows|
    decreases |rows|
  {
    if rows != [] {
      DonorsCountTransactions(rows[..|rows| - 1]);
    }
  }

  /** Both totals add up over consecutive batches of rows, starting from zero
      for no rows and from the row's amount (null as 0) for one row. */
  lemma EventTotalsAdd(a: seq<StatRow>, b: seq<StatRow>)
    ensures EventStats(Some([])).value == Stats(0, 0)
    ensures forall x :: EventStats(Some([x])).value == Stats(OrZero(x.amount), 1)
    ensures EventStats(Some(a + b)).value.totalAmount
         == EventStats(Some(a)).value.totalAmount + EventStats(Some(b)).value.totalAmount
    ensures EventStats(Some(a + b)).value.totalDonors
         == EventStats(Some(a)).value.totalDonors + EventStats(Some(b)).value.totalDonors
  {
    forall x: StatRow ensures EventStats(Some([x])).value == Stats(OrZero(x.amount), 1) {
      SumBySingle(x, RowAmount);
    }
    SumByAppend(a, b, RowAmount);
  }

  // ---------------------------------------------------------------------------
  // The home page state

  datatype ViewMode = Summary | Paginated

  /** The feed part of the home page: the active event, the totals, the rows
      shown, the view mode and the page counter. */
  class HomePage {
    var activeId: Option<string>
    var stats: Stats
    var recentDonations: seq<Tx>
    var viewMode: ViewMode
    var currentPage: int

    /** The page counter stays within the pages the buttons allow. */
    predicate Valid()
      reads this
    {
      1 <= currentPage <= MaxPage
    }

    constructor ()
      ensures Valid()
      ensures activeId == None && stats == Stats(0, 0) && recentDonations == []
      ensures viewMode == Summary && currentPage == 1
    {
      activeId := None;
      stats := Stats(0, 0);
      recentDonations := [];
      viewMode := Summary;
      currentPage := 1;
    }

    /** Prev is disabled exactly when pressing it would leave the page as it is. */
    predicate PrevDisabled()
      reads this
      ensures Valid() ==> (PrevDisabled() <==> Max(1, currentPage - 1) == currentPage)
    {
      currentPage == 1
    }

    /** Next is offered only below page 20 and under a full page of rows, and
        then it moves one page on. */
    predicate NextDisabled()
      reads this
      ensures !NextDisabled() ==> |recentDonations| >= ItemsPerPage
      ensures Valid() && !NextDisabled() ==> Min(MaxPage, currentPage + 1) == currentPage + 1
    {
      currentPage == MaxPage || |recentDonations| < ItemsPerPage
    }

    /** Prev: `Math.max(1, p - 1)`. */
    method PrevPage()
      requires Valid()
      modifies this
      ensures Valid()
      ensures currentPage == if old(currentPage) > 1 then old(currentPage) - 1 else 1
      ensures currentPage >= 1
      ensures recentDonations == old(recentDonations) && viewMode == old(viewMode)
      ensures activeId == old(activeId) && stats == old(stats)
    {
      currentPage := Max(1, currentPage - 1);
    }

    /** Next: `Math.min(20, p + 1)`. */
    method NextPage()
      requires Valid()
      modifies this
      ensures Valid()
      ensures currentPage == if old(currentPage) < MaxPage then old(currentPage) + 1 else MaxPage
      ensures recentDonations == old(recentDonations) && viewMode == old(viewMode)
      ensures activeId == old(activeId) && stats == old(stats)
    {
      currentPage := Min(MaxPage, currentPage + 1);
    }

    /** "Lihat Lebih Banyak" switches to the paginated view. */
    method ShowMore()
      modifies this
      ensures viewMode == Paginated
      ensures currentPage == old(currentPage) && recentDonations == old(recentDonations)
      ensures activeId == old(activeId) && stats == old(stats)
    {
      viewMode := Paginated;
    }

    /** `fetchData` once the active event is known: it records the event, the
        totals from `rows` and the first summary window from `pinned` and `recent`. */
    method LoadEvent(id: string, rows: Option<seq<StatRow>>, pinned: Option<seq<Tx>>, recent: Option<seq<Tx>>)
      modifies this
      ensures activeId == Some(id)
      ensures stats == (if rows.Some? then EventStats(rows).value else old(stats))
      ensures var f := FetchHistory(Some(id), Some(id), 1, true, pinned, recent);
              recentDonations == (if f.Some? then f.value else old(recentDonations))
      ensures viewMode == old(viewMode) && currentPage == old(currentPage)
    {
      activeId := Some(id);
      var s := EventStats(rows);
      if s.Some? {
        stats := s.value;
      }
      ApplyHistory(Some(id), 1, true, pinned, recent);
    }

    /** One `fetchHistory` call: the window it computes replaces the feed, or
        the feed stays as it was. */
    method ApplyHistory(eventId: Option<string>, page: int, isInitial: bool,
                        pinned: Option<seq<Tx>>, recent: Option<seq<Tx>>)
      modifies this
      ensures var f := FetchHistory(eventId, old(activeId), page, isInitial, pinned, recent);
              recentDonations == (if f.Some? then f.value else old(recentDonations))
      ensures activeId == old(activeId) && stats == old(stats)
      ensures viewMode == old(viewMode) && currentPage == old(currentPage)
    {
      var f := FetchHistory(eventId, activeId, page, isInitial, pinned, recent);
      if f.Some? {
        recentDonations := f.value;
      }
    }

    /** The effect on `currentPage` and `viewMode`: in the paginated view the
        current page is fetched. */
    method Refresh(pinned: Option<seq<Tx>>, recent: Option<seq<Tx>>)
      modifies this
      ensures viewMode == Paginated && old(activeId).Some?
              ==> var f := FetchHistory(None, old(activeId), old(currentPage), false, pinned, recent);
                  recentDonations == (if f.Some? then f.value else old(recentDonations))
      ensures !(viewMode == Paginated && old(activeId).Some?) ==> recentDonations == old(recentDonations)
      ensures activeId == old(activeId) && stats == old(stats)
      ensures viewMode == old(viewMode) && currentPage == old(currentPage)
    {
      if activeId.Some? && viewMode == Paginated {
        ApplyHistory(None, currentPage, false, pinned, recent);
      }
    }
  }

  function Max(a: int, b: int): int { if a >= b then a else b }

  /** Once page 3's rows are shown, Next is disabled (the window holds fewer
      than 20 rows). While they are still loading, Next can be pressed. */
  lemma NextDisabledOnThirdPage(id: string, pinned: Option<seq<Tx>>, recent: Option<seq<Tx>>)
    requires id != "" && (pinned.Some? || recent.Some?)
    ensures var f := FetchHistory(None, Some(id), 3, false, pinned, recent);
            f.Some? && |f.value| < ItemsPerPage
  {
    OnlyFirstThreePages(None, Some(id), 3, false, pinned, recent);
    ThirdPageIsShort(None, Some(id), pinned, recent);
  }
}
