/** The admin event list: the collected balance of every event, built in a
    dictionary from all transactions, and the open / close toggle of an event.
    Paging goes through `ListPaging`. */
module EventList {
  import opened Wrappers
  import opened Seqs

  /** The two columns the balance query selects. */
  datatype EventTx = EventTx(eventId: string, amount: Option<int>)

  /** An event row as the list reads it. */
  datatype Event = Event(
    id: string,
    name: string,
    description: Option<string>,
    startDate: Option<string>,
    endDate: Option<string>,
    isActive: bool)

  function TxAmount(t: EventTx): Option<int> { t.amount }

  function ForEvent(e: string): EventTx -> bool
  {
    (t: EventTx) => t.eventId == e
  }

  /** The amounts (null as 0) collected for event `e`. */
  function EventTotal(txs: seq<EventTx>, e: string): int
  {
    SumBy(Filter(txs, ForEvent(e)), TxAmount)
  }

  /** The events that occur among the transactions. */
  function EventIds(txs: seq<EventTx>): set<string>
  {
    set i | 0 <= i < |txs| :: txs[i].eventId
  }

  lemma EventTotalStep(p: seq<EventTx>, x: EventTx, e: string)
    ensures EventTotal(p + [x], e) == EventTotal(p, e) + (if x.eventId == e then OrZero(x.amount) else 0)
  {
    var keep := ForEvent(e);
    FilterAppend(p, [x], keep);
    assert Filter([x], keep) == (if keep(x) then [x] else []) by {
      assert [x][1..] == [];
    }
    SumByAppend(Filter(p, keep), Filter([x], keep), TxAmount);
    SumBySingle(x, TxAmount);
  }

  lemma EventIdsStep(p: seq<EventTx>, x: EventTx)
    ensures EventIds(p + [x]) == EventIds(p) + {x.eventId}
  {
    var q := p + [x];
    assert q[|p|] == x;
    forall e | e in EventIds(q) ensures e in EventIds(p) + {x.eventId} {
      var i :| 0 <= i < |q| && q[i].eventId == e;
      if i < |p| { assert q[i] == p[i]; }
    }
    forall e | e in EventIds(p) ensures e in EventIds(q) {
      var i :| 0 <= i < |p| && p[i].eventId == e;
      assert q[i] == p[i];
    }
  }

  /** The body of the `forEach`: the event's entry is set to 0 when it is
      missing (or 0), then the amount (null as 0) is added to it. */
  method AddToEntry(b: map<string, int>, t: EventTx) returns (b': map<string, int>)
    ensures b'.Keys == b.Keys + {t.eventId}
    ensures b'[t.eventId] == (if t.eventId in b then b[t.eventId] else 0) + OrZero(t.amount)
    ensures forall e :: e in b && e != t.eventId ==> b'[e] == b[e]
  {
    b' := b;
    if t.eventId !in b' || b'[t.eventId] == 0 {
      b' := b'[t.eventId := 0];
    }
    b' := b'[t.eventId := b'[t.eventId] + OrZero(t.amount)];
  }

  /** `newBalances`: `transactions.forEach` creates the entry of an event at 0
      the first time it is seen and adds each amount to it. */
  method ComputeBalances(txs: seq<EventTx>) returns (balances: map<string, int>)
    ensures balances.Keys == EventIds(txs)
    ensures forall e :: e in balances ==> balances[e] == EventTotal(txs, e)
  {
    balances := map[];
    var i := 0;
    assert txs[..0] == [] && EventIds([]) == {};
    while i < |txs|
      invariant 0 <= i <= |txs|
      invariant balances.Keys == EventIds(txs[..i])
      invariant forall e :: e in balances ==> balances[e] == EventTotal(txs[..i], e)
    {
      var t := txs[i];
      ghost var before := balances;
      balances := AddToEntry(balances, t);
      assert txs[..i + 1] == txs[..i] + [t];
      BalancesStep(before, balances, txs[..i], t);
      i := i + 1;
    }
    assert txs[..i] == txs;
  }

  /** Adding one transaction to its event's entry, created at 0 when missing,
      keeps every entry equal to its event's total. */
  lemma BalancesStep(b: map<string, int>, b': map<string, int>, p: seq<EventTx>, x: EventTx)
    requires b.Keys == EventIds(p)
    requires forall e :: e in b ==> b[e] == EventTotal(p, e)
    requires b'.Keys == b.Keys + {x.eventId}
    requires b'[x.eventId] == (if x.eventId in b then b[x.eventId] else 0) + OrZero(x.amount)
    requires forall e :: e in b && e != x.eventId ==> b'[e] == b[e]
    ensures b'.Keys == EventIds(p + [x])
    ensures forall e :: e in b' ==> b'[e] == EventTotal(p + [x], e)
  {
    EventIdsStep(p, x);
    forall e | e in b' ensures b'[e] == EventTotal(p + [x], e) {
      BalanceEntryStep(b, b', p, x, e);
    }
  }

  lemma BalanceEntryStep(b: map<string, int>, b': map<string, int>, p: seq<EventTx>, x: EventTx, e: string)
    requires b.Keys == EventIds(p)
    requires e in b ==> b[e] == EventTotal(p, e)
    requires e in b'
    requires e == x.eventId ==> b'[e] == (if e in b then b[e] else 0) + OrZero(x.amount)
    requires e != x.eventId ==> e in b && b'[e] == b[e]
    ensures b'[e] == EventTotal(p + [x], e)
  {
    EventTotalStep(p, x, e);
    if e !in b {
      NoTransactionsNoTotal(p, e);
    }
  }

  /** An event without transactions has collected nothing. */
  lemma NoTransactionsNoTotal(txs: seq<EventTx>, e: string)
    requires e !in EventIds(txs)
    ensures EventTotal(txs, e) == 0
  {
    forall i | 0 <= i < |txs| ensures !ForEvent(e)(txs[i]) {
      assert txs[i].eventId in EventIds(txs);
    }
    FilterNone(txs, ForEvent(e));
  }

  /** `balances[event.id] || 0`: the entry when there is one (a 0 entry and
      the fallback agree), 0 for an id without an entry. */
  function DisplayedBalance(balances: map<string, int>, id: string): (r: int)
    ensures id in balances ==> r == balances[id]
    ensures id !in balances ==> r == 0
  {
    if id in balances && balances[id] != 0 then balances[id] else 0
  }

  /** Every event shows exactly what was collected for it, 0 when it has no
      transactions. */
  lemma DisplayedBalanceIsTotal(txs: seq<EventTx>, balances: map<string, int>, id: string)
    requires balances.Keys == EventIds(txs)
    requires forall e :: e in balances ==> balances[e] == EventTotal(txs, e)
    ensures DisplayedBalance(balances, id) == EventTotal(txs, id)
    ensures id !in EventIds(txs) ==> DisplayedBalance(balances, id) == 0
  {
    if id !in balances {
      NoTransactionsNoTotal(txs, id);
    }
  }

  /** The totals of the events in `es` added up. */
  function TotalOver(es: seq<string>, txs: seq<EventTx>): int
    decreases |es|
  {
    if es == [] then 0 else TotalOver(es[..|es| - 1], txs) + EventTotal(txs, es[|es| - 1])
  }

  lemma {:induction false} TotalOverStep(es: seq<string>, p: seq<EventTx>, x: EventTx)
    requires forall i, j :: 0 <= i < j < |es| ==> es[i] != es[j]
    ensures TotalOver(es, p + [x]) == TotalOver(es, p) + (if x.eventId in es then OrZero(x.amount) else 0)
    decreases |es|
  {
    if es != [] {
      var init := es[..|es| - 1];
      var last := es[|es| - 1];
      TotalOverStep(init, p, x);
      EventTotalStep(p, x, last);
      assert es == init + [last];
      assert x.eventId == last ==> x.eventId !in init;
    }
  }

  /** The balances split the grand total: over any list of distinct events
      that covers every transaction, the event totals add up to the sum of all
      amounts. */
  lemma {:induction false} BalancesPartitionTotal(es: seq<string>, txs: seq<EventTx>)
    requires forall i, j :: 0 <= i < j < |es| ==> es[i] != es[j]
    requires forall k :: 0 <= k < |txs| ==> txs[k].eventId in es
    ensures TotalOver(es, txs) == SumBy(txs, TxAmount)
    decreases |txs|
  {
    if txs == [] {
      EmptyTotals(es);
    } else {
      var p := txs[..|txs| - 1];
      var x := txs[|txs| - 1];
      assert txs == p + [x];
      BalancesPartitionTotal(es, p);
      TotalOverStep(es, p, x);
    }
  }

  lemma {:induction false} EmptyTotals(es: seq<string>)
    ensures TotalOver(es, []) == 0
    decreases |es|
  {
    if es != [] {
      EmptyTotals(es[..|es| - 1]);
    }
  }

  // ---------------------------------------------------------------------------
  // Open / close

  /** The event after `update({ is_active: !event.is_active })`: only the
      flag flips, so toggling twice gives the event back. */
  function Toggled(e: Event): (r: Event)
    ensures r.isActive != e.isActive
    ensures r.id == e.id && r.name == e.name && r.description == e.description
    ensures r.startDate == e.startDate && r.endDate == e.endDate
  {
    e.(isActive := !e.isActive)
  }

  /** The verb of the confirmation question: 'mengaktifkan' when the event is
      about to open, 'menutup' when it is about to close. */
  function ConfirmAction(e: Event): (r: string)
    ensures !e.isActive ==> r == "mengaktifkan"
    ensures e.isActive ==> r == "menutup"
  {
    if Toggled(e).isActive then "mengaktifkan" else "menutup"
  }

  /** `events.find(e => e.id === eventId)`. */
  function FindEvent(events: seq<Event>, id: string): (r: Option<Event>)
    ensures r.None? <==> forall k :: 0 <= k < |events| ==> events[k].id != id
    ensures r.Some? ==> exists k :: 0 <= k < |events| && events[k] == r.value && r.value.id == id
                                  && forall j :: 0 <= j < k ==> events[j].id != id
    decreases |events|
  {
    if events == [] then None
    else if events[0].id == id then Some(events[0])
    else
      var r := FindEvent(events[1..], id);
      if r.Some? then
        ghost var k :| 0 <= k < |events[1..]| && events[1..][k] == r.value && r.value.id == id
                       && forall j :: 0 <= j < k ==> events[1..][j].id != id;
        assert events[k + 1] == r.value;
        r
      else r
  }
}
