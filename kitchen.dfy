/** The kitchen board: orders move from new to preparing to ready and are then
    served (removed); a preparing order can be sent back to new. Two counters
    shown on the board follow the transitions. A summary counts the pending
    items by name, most frequent first. */
module Kitchen {
  import opened Common

  datatype Status = New | Preparing | Ready

  datatype KitchenItem = KitchenItem(id: int, name: string, note: Option<string>)

  datatype KitchenOrder = KitchenOrder(id: int, tableNumber: int, status: Status, time: Option<string>,
                                       completedAgo: bool, items: seq<KitchenItem>)

  datatype Stats = Stats(newOrders: int, inProgress: int, avgWaitTime: string)

  /** The whole state of the board. */
  datatype Board = Board(orders: seq<KitchenOrder>, stats: Stats)

  /** The counters the board starts with. */
  const InitialStats := Stats(12, 5, "14:20")

  const ReadyTime := "00:00"

  // ---------------------------------------------------------------------------
  // Transitions on the order list.

  /** handleStartPreparing: every order with the id becomes preparing; nothing
      else about any order changes; newOrders goes down and inProgress up by one
      whether or not an order matched. */
  function StartPreparing(b: Board, orderId: int): (r: Board)
    ensures |r.orders| == |b.orders|
    ensures forall k :: 0 <= k < |b.orders| ==>
      r.orders[k] == (if b.orders[k].id == orderId then b.orders[k].(status := Preparing) else b.orders[k])
    ensures r.stats == b.stats.(newOrders := b.stats.newOrders - 1, inProgress := b.stats.inProgress + 1)
  {
    var orders := seq(|b.orders|, k requires 0 <= k < |b.orders| =>
      if b.orders[k].id == orderId then b.orders[k].(status := Preparing) else b.orders[k]);
    Board(orders, b.stats.(newOrders := b.stats.newOrders - 1, inProgress := b.stats.inProgress + 1))
  }

  /** handleMarkReady: every order with the id becomes ready, completed just now
      at time 00:00; inProgress goes down by one. */
  function MarkReady(b: Board, orderId: int): (r: Board)
    ensures |r.orders| == |b.orders|
    ensures forall k :: 0 <= k < |b.orders| ==>
      r.orders[k] == (if b.orders[k].id == orderId
                      then b.orders[k].(status := Ready, completedAgo := true, time := Some(ReadyTime))
                      else b.orders[k])
    ensures r.stats == b.stats.(inProgress := b.stats.inProgress - 1)
  {
    var orders := seq(|b.orders|, k requires 0 <= k < |b.orders| =>
      if b.orders[k].id == orderId
      then b.orders[k].(status := Ready, completedAgo := true, time := Some(ReadyTime))
      else b.orders[k]);
    Board(orders, b.stats.(inProgress := b.stats.inProgress - 1))
  }

  /** handleMarkServed: exactly the orders with the id leave the board; the
      others stay, in their order; the counters do not move. */
  function MarkServed(b: Board, orderId: int): (r: Board)
    ensures IsSubsequence(r.orders, b.orders)
    ensures forall o :: o in r.orders <==> o in b.orders && o.id != orderId
    ensures forall o :: multiset(r.orders)[o] == (if o.id != orderId then multiset(b.orders)[o] else 0)
    ensures r.stats == b.stats
  {
    FilterCounts(b.orders, (o: KitchenOrder) => o.id != orderId);
    Board(Filter(b.orders, (o: KitchenOrder) => o.id != orderId), b.stats)
  }

  /** Position of the first order with the id, |orders| when there is none
      (Array.prototype.find). */
  function FirstIndex(orders: seq<KitchenOrder>, orderId: int): (k: nat)
    ensures k <= |orders|
    ensures k < |orders| ==> orders[k].id == orderId
    ensures forall j :: 0 <= j < k ==> orders[j].id != orderId
  {
    FindIndex(orders, (o: KitchenOrder) => o.id == orderId)
  }

  /** handleUndoStatus: None when no order has the id (the handler then reads a
      field of undefined and throws). When the first order with the id is
      preparing, every order with the id goes back to new and both counters are
      restored; in any other case nothing changes. */
  function UndoStatus(b: Board, orderId: int): (r: Option<Board>)
    ensures r.None? <==> forall o :: o in b.orders ==> o.id != orderId
    ensures r.Some? && b.orders[FirstIndex(b.orders, orderId)].status != Preparing ==> r == Some(b)
    ensures r.Some? && b.orders[FirstIndex(b.orders, orderId)].status == Preparing ==>
      |r.value.orders| == |b.orders| &&
      (forall k :: 0 <= k < |b.orders| ==>
        r.value.orders[k] == (if b.orders[k].id == orderId then b.orders[k].(status := New) else b.orders[k])) &&
      r.value.stats == b.stats.(newOrders := b.stats.newOrders + 1, inProgress := b.stats.inProgress - 1)
  {
    var i := FirstIndex(b.orders, orderId);
    if i == |b.orders| then None
    else if b.orders[i].status == Preparing then
      var orders := seq(|b.orders|, k requires 0 <= k < |b.orders| =>
        if b.orders[k].id == orderId then b.orders[k].(status := New) else b.orders[k]);
      Some(Board(orders, b.stats.(newOrders := b.stats.newOrders + 1, inProgress := b.stats.inProgress - 1)))
    else Some(b)
  }

  /** Starting to prepare a new order and undoing it gives back the board as it
      was, counters included. */
  lemma StartThenUndo(b: Board, orderId: int)
    requires exists o :: o in b.orders && o.id == orderId
    requires forall o :: o in b.orders && o.id == orderId ==> o.status == New
    ensures UndoStatus(StartPreparing(b, orderId), orderId) == Some(b)
  {
    var s := StartPreparing(b, orderId);
    var i := FirstIndex(b.orders, orderId);
    assert i < |b.orders| by {
      var o :| o in b.orders && o.id == orderId;
      var j :| 0 <= j < |b.orders| && b.orders[j] == o;
    }
    assert FirstIndex(s.orders, orderId) == i by {
      FirstIndexSameIds(b.orders, s.orders, orderId);
    }
    assert s.orders[i].status == Preparing;
    var u := UndoStatus(s, orderId);
    assert u.Some?;
    assert u.value.orders == b.orders by {
      forall k | 0 <= k < |b.orders| ensures u.value.orders[k] == b.orders[k] {
        if b.orders[k].id == orderId {
          assert b.orders[k] in b.orders;
        }
      }
    }
  }

  lemma FirstIndexSameIds(a: seq<KitchenOrder>, b: seq<KitchenOrder>, orderId: int)
    requires |a| == |b|
    requires forall k :: 0 <= k < |a| ==> a[k].id == b[k].id
    ensures FirstIndex(a, orderId) == FirstIndex(b, orderId)
  {
    var i := FirstIndex(a, orderId);
    var j := FirstIndex(b, orderId);
    if i < |a| { assert b[i].id == orderId; }
    if j < |b| { assert a[j].id == orderId; }
  }

  // ---------------------------------------------------------------------------
  // getOrdersByStatus.

  function OrdersByStatus(orders: seq<KitchenOrder>, status: Status): (r: seq<KitchenOrder>)
    ensures IsSubsequence(r, orders)
    ensures forall o :: o in r <==> o in orders && o.status == status
  {
    Filter(orders, (o: KitchenOrder) => o.status == status)
  }

  /** The three columns of the board show every order exactly once. */
  lemma {:induction false} ColumnsPartition(orders: seq<KitchenOrder>)
    ensures multiset(OrdersByStatus(orders, New)) + multiset(OrdersByStatus(orders, Preparing))
            + multiset(OrdersByStatus(orders, Ready)) == multiset(orders)
  {
    if orders != [] {
      ColumnsPartition(orders[1..]);
      assert orders == [orders[0]] + orders[1..];
      var o := orders[0];
      var n := OrdersByStatus(orders[1..], New);
      var p := OrdersByStatus(orders[1..], Preparing);
      var d := OrdersByStatus(orders[1..], Ready);
      assert OrdersByStatus(orders, New) == (if o.status == New then [o] else []) + n;
      assert OrdersByStatus(orders, Preparing) == (if o.status == Preparing then [o] else []) + p;
      assert OrdersByStatus(orders, Ready) == (if o.status == Ready then [o] else []) + d;
    }
  }

  // ---------------------------------------------------------------------------
  // The pending products summary.

  datatype Entry = Entry(name: string, count: nat)

  function ItemNames(items: seq<KitchenItem>): (r: seq<string>)
    ensures |r| == |items|
  {
    if items == [] then [] else ItemNames(items[..|items| - 1]) + [items[|items| - 1].name]
  }

  /** The names of all items of orders that are not ready, order by order. */
  function PendingNames(orders: seq<KitchenOrder>): seq<string> {
    if orders == [] then []
    else
      var last := orders[|orders| - 1];
      PendingNames(orders[..|orders| - 1]) + (if last.status != Ready then ItemNames(last.items) else [])
  }

  /** Number of items over the orders that are not ready. */
  function PendingItemCount(orders: seq<KitchenOrder>): nat {
    if orders == [] then 0
    else (if orders[0].status != Ready then |orders[0].items| else 0) + PendingItemCount(orders[1..])
  }

  function Occurrences(names: seq<string>, n: string): nat {
    if names == [] then 0
    else Occurrences(names[..|names| - 1], n) + (if names[|names| - 1] == n then 1 else 0)
  }

  function EntryNames(es: seq<Entry>): (r: seq<string>)
    ensures |r| == |es|
    ensures forall k :: 0 <= k < |es| ==> r[k] == es[k].name
  {
    if es == [] then [] else EntryNames(es[..|es| - 1]) + [es[|es| - 1].name]
  }

  function SumCounts(es: seq<Entry>): nat {
    if es == [] then 0 else SumCounts(es[..|es| - 1]) + es[|es| - 1].count
  }

  predicate DistinctNames(es: seq<Entry>) {
    forall i, j :: 0 <= i < j < |es| ==> es[i].name != es[j].name
  }

  predicate CountDesc(es: seq<Entry>) {
    forall i, j :: 0 <= i < j < |es| ==> es[i].count >= es[j].count
  }

  /** `es` counts `names`: one entry per distinct name, holding the number of
      its occurrences. */
  ghost predicate TallyOf(names: seq<string>, es: seq<Entry>) {
    DistinctNames(es) &&
    (forall n :: n in names <==> n in EntryNames(es)) &&
    (forall k :: 0 <= k < |es| ==> es[k].count == Occurrences(names, es[k].name)) &&
    SumCounts(es) == |names|
  }

  lemma {:induction false} OccurrencesAbsent(names: seq<string>, n: string)
    requires n !in names
    ensures Occurrences(names, n) == 0
  {
    if names != [] {
      assert names[..|names| - 1] + [names[|names| - 1]] == names;
      OccurrencesAbsent(names[..|names| - 1], n);
    }
  }

  lemma {:induction false} SumCountsUpdate(a: seq<Entry>, b: seq<Entry>, k: nat)
    requires |a| == |b| && k < |a|
    requires forall j :: 0 <= j < |a| && j != k ==> a[j] == b[j]
    ensures SumCounts(b) == SumCounts(a) - a[k].count + b[k].count
  {
    var n := |a| - 1;
    if k < n {
      SumCountsUpdate(a[..n], b[..n], k);
    } else {
      assert a[..n] == b[..n];
    }
  }

  lemma CountExisting(names: seq<string>, es: seq<Entry>, k: nat)
    requires TallyOf(names, es)
    requires k < |es|
    ensures TallyOf(names + [es[k].name], es[k := es[k].(count := es[k].count + 1)])
  {
    var n := es[k].name;
    var names' := names + [n];
    var es' := es[k := es[k].(count := es[k].count + 1)];
    assert names'[..|names|] == names;
    assert EntryNames(es') == EntryNames(es);
    SumCountsUpdate(es, es', k);
  }

  lemma CountNew(names: seq<string>, es: seq<Entry>, n: string)
    requires TallyOf(names, es)
    requires n !in EntryNames(es)
    ensures TallyOf(names + [n], es + [Entry(n, 1)])
  {
    var names' := names + [n];
    var es' := es + [Entry(n, 1)];
    assert names'[..|names|] == names;
    assert es'[..|es|] == es;
    OccurrencesAbsent(names, n);
    forall k | 0 <= k < |es| ensures es[k].name != n {
      assert EntryNames(es)[k] == es[k].name;
    }
    assert EntryNames(es') == EntryNames(es) + [n];
    assert DistinctNames(es');
    assert SumCounts(es') == SumCounts(es) + 1;
    forall k | 0 <= k < |es'| ensures es'[k].count == Occurrences(names', es'[k].name) {
      if k < |es| {
        assert es'[k] == es[k];
      }
    }
  }

  /** Counts one more name into the tally (summary[item.name]++ or = 1). */
  method CountName(ghost names: seq<string>, es: seq<Entry>, n: string) returns (es': seq<Entry>)
    requires TallyOf(names, es)
    ensures TallyOf(names + [n], es')
  {
    var k := 0;
    while k < |es| && es[k].name != n
      invariant k <= |es|
      invariant forall j :: 0 <= j < k ==> es[j].name != n
    {
      k := k + 1;
    }
    if k < |es| {
      CountExisting(names, es, k);
      es' := es[k := es[k].(count := es[k].count + 1)];
    } else {
      CountNew(names, es, n);
      es' := es + [Entry(n, 1)];
    }
  }

  /** Inserts `e` after every entry whose count is at least its own. */
  function InsertByCount(sorted: seq<Entry>, e: Entry): (r: seq<Entry>)
    requires CountDesc(sorted)
    ensures CountDesc(r)
    ensures forall x :: x in r <==> x in sorted || x == e
  {
    if sorted == [] then [e]
    else if sorted[0].count >= e.count then
      var rest := InsertByCount(sorted[1..], e);
      assert sorted == [sorted[0]] + sorted[1..];
      DescCons(sorted[0], rest);
      [sorted[0]] + rest
    else
      DescCons(e, sorted);
      [e] + sorted
  }

  lemma DescCons(x: Entry, rest: seq<Entry>)
    requires CountDesc(rest)
    requires forall y :: y in rest ==> x.count >= y.count
    ensures CountDesc([x] + rest)
  {
    forall i, j | 0 <= i < j < |[x] + rest| ensures ([x] + rest)[i].count >= ([x] + rest)[j].count {
      if i == 0 {
        assert ([x] + rest)[j] == rest[j - 1];
        assert rest[j - 1] in rest;
      }
    }
  }

  lemma {:induction false} InsertByCountMultiset(sorted: seq<Entry>, e: Entry)
    requires CountDesc(sorted)
    ensures multiset(InsertByCount(sorted, e)) == multiset(sorted) + multiset{e}
  {
    if sorted != [] && sorted[0].count >= e.count {
      InsertByCountMultiset(sorted[1..], e);
      assert sorted == [sorted[0]] + sorted[1..];
    }
  }

  lemma {:induction false} InsertByCountSum(sorted: seq<Entry>, e: Entry)
    requires CountDesc(sorted)
    ensures SumCounts(InsertByCount(sorted, e)) == SumCounts(sorted) + e.count
  {
    if sorted == [] {
      assert InsertByCount(sorted, e) == [e];
      assert [e][..0] == [];
    } else if sorted[0].count >= e.count {
      InsertByCountSum(sorted[1..], e);
      assert sorted == [sorted[0]] + sorted[1..];
      SumCountsCons(sorted[0], sorted[1..]);
      SumCountsCons(sorted[0], InsertByCount(sorted[1..], e));
    } else {
      SumCountsCons(e, sorted);
    }
  }

  lemma {:induction false} InsertByCountNames(sorted: seq<Entry>, e: Entry)
    requires CountDesc(sorted)
    ensures forall n :: n in EntryNames(InsertByCount(sorted, e)) <==> n == e.name || n in EntryNames(sorted)
  {
    if sorted == [] {
      assert InsertByCount(sorted, e) == [e];
      assert EntryNames([e]) == [e.name];
    } else if sorted[0].count >= e.count {
      InsertByCountNames(sorted[1..], e);
      assert sorted == [sorted[0]] + sorted[1..];
      NamesCons(sorted[0], sorted[1..]);
      NamesCons(sorted[0], InsertByCount(sorted[1..], e));
    } else {
      NamesCons(e, sorted);
    }
  }

  lemma {:induction false} InsertByCountDistinct(sorted: seq<Entry>, e: Entry)
    requires CountDesc(sorted)
    requires DistinctNames(sorted) && e.name !in EntryNames(sorted)
    ensures DistinctNames(InsertByCount(sorted, e))
  {
    if sorted == [] {
    } else if sorted[0].count >= e.count {
      var rest := InsertByCount(sorted[1..], e);
      assert sorted == [sorted[0]] + sorted[1..];
      NamesCons(sorted[0], sorted[1..]);
      DistinctCons(sorted[0], sorted[1..]);
      InsertByCountDistinct(sorted[1..], e);
      InsertByCountNames(sorted[1..], e);
      DistinctCons(sorted[0], rest);
    } else {
      DistinctCons(e, sorted);
    }
  }

  lemma DistinctCons(x: Entry, rest: seq<Entry>)
    ensures DistinctNames([x] + rest) <==> x.name !in EntryNames(rest) && DistinctNames(rest)
  {
    var l := [x] + rest;
    if x.name !in EntryNames(rest) && DistinctNames(rest) {
      forall i, j | 0 <= i < j < |l| ensures l[i].name != l[j].name {
        assert l[j] == rest[j - 1];
        if i == 0 {
          assert EntryNames(rest)[j - 1] == rest[j - 1].name;
        } else {
          assert l[i] == rest[i - 1];
        }
      }
    }
    if DistinctNames(l) {
      forall i, j | 0 <= i < j < |rest| ensures rest[i].name != rest[j].name {
        assert l[i + 1] == rest[i] && l[j + 1] == rest[j];
      }
      forall k | 0 <= k < |rest| ensures EntryNames(rest)[k] != x.name {
        assert l[k + 1] == rest[k];
        assert l[0].name != l[k + 1].name;
      }
    }
  }

  lemma {:induction false} SumCountsCons(e: Entry, es: seq<Entry>)
    ensures SumCounts([e] + es) == e.count + SumCounts(es)
  {
    if es != [] {
      var n := |es| - 1;
      assert ([e] + es)[..n + 1] == [e] + es[..n];
      SumCountsCons(e, es[..n]);
    }
  }

  lemma {:induction false} NamesCons(e: Entry, es: seq<Entry>)
    ensures EntryNames([e] + es) == [e.name] + EntryNames(es)
  {
    var l := EntryNames([e] + es);
    assert |l| == |[e.name] + EntryNames(es)|;
    forall k | 0 <= k < |l| ensures l[k] == ([e.name] + EntryNames(es))[k] {
      if k > 0 {
        assert ([e] + es)[k] == es[k - 1];
      }
    }
  }

  /** Object.entries(summary).sort((a, b) => b[1] - a[1]). */
  function SortByCount(es: seq<Entry>): (r: seq<Entry>)
    ensures CountDesc(r)
  {
    if es == [] then [] else InsertByCount(SortByCount(es[..|es| - 1]), es[|es| - 1])
  }

  /** Sorting keeps the entries, the total count and the names. */
  lemma {:induction false} SortByCountMultiset(es: seq<Entry>)
    ensures multiset(SortByCount(es)) == multiset(es)
  {
    if es != [] {
      var init := es[..|es| - 1];
      SortByCountMultiset(init);
      InsertByCountMultiset(SortByCount(init), es[|es| - 1]);
      assert es == init + [es[|es| - 1]];
    }
  }

  lemma {:induction false} SortByCountSum(es: seq<Entry>)
    ensures SumCounts(SortByCount(es)) == SumCounts(es)
  {
    if es != [] {
      var init := es[..|es| - 1];
      SortByCountSum(init);
      InsertByCountSum(SortByCount(init), es[|es| - 1]);
    }
  }

  lemma {:induction false} SortByCountNames(es: seq<Entry>)
    ensures forall n :: n in EntryNames(SortByCount(es)) <==> n in EntryNames(es)
    ensures DistinctNames(es) ==> DistinctNames(SortByCount(es))
  {
    if es != [] {
      var init := es[..|es| - 1];
      var last := es[|es| - 1];
      SortByCountNames(init);
      InsertByCountNames(SortByCount(init), last);
      assert EntryNames(es) == EntryNames(init) + [last.name];
      if DistinctNames(es) {
        forall j | 0 <= j < |init| ensures EntryNames(init)[j] != last.name {
          assert init[j] == es[j];
        }
        assert DistinctNames(init);
        InsertByCountDistinct(SortByCount(init), last);
      }
    }
  }

  lemma {:induction false} PendingNamesCount(orders: seq<KitchenOrder>)
    ensures |PendingNames(orders)| == PendingItemCount(orders)
  {
    if orders != [] {
      PendingNamesCount(orders[..|orders| - 1]);
      PendingItemCountSnoc(orders[..|orders| - 1], orders[|orders| - 1]);
      assert orders[..|orders| - 1] + [orders[|orders| - 1]] == orders;
    }
  }

  lemma {:induction false} PendingItemCountSnoc(orders: seq<KitchenOrder>, o: KitchenOrder)
    ensures PendingItemCount(orders + [o]) == PendingItemCount(orders) + (if o.status != Ready then |o.items| else 0)
  {
    if orders != [] {
      assert (orders + [o])[1..] == orders[1..] + [o];
      PendingItemCountSnoc(orders[1..], o);
    }
  }

  /** The inner forEach: counts the names of one order's items. */
  method CountItems(ghost before: seq<string>, tally: seq<Entry>, items: seq<KitchenItem>)
    returns (tally': seq<Entry>)
    requires TallyOf(before, tally)
    ensures TallyOf(before + ItemNames(items), tally')
  {
    tally' := tally;
    assert before + ItemNames(items[..0]) == before;
    for j := 0 to |items|
      invariant TallyOf(before + ItemNames(items[..j]), tally')
    {
      assert items[..j + 1][..j] == items[..j];
      assert before + ItemNames(items[..j + 1]) == before + ItemNames(items[..j]) + [items[j].name];
      tally' := CountName(before + ItemNames(items[..j]), tally', items[j].name);
    }
    assert items[..|items|] == items;
  }

  /** Sorting a tally leaves it a tally of the same names. */
  lemma SortedTally(names: seq<string>, es: seq<Entry>)
    requires TallyOf(names, es)
    ensures TallyOf(names, SortByCount(es))
  {
    var r := SortByCount(es);
    SortByCountMultiset(es);
    SortByCountSum(es);
    SortByCountNames(es);
    forall k | 0 <= k < |r| ensures r[k].count == Occurrences(names, r[k].name) {
      assert r[k] in multiset(es);
      var j :| 0 <= j < |es| && es[j] == r[k];
    }
  }

  /** getPendingProductsSummary: one entry per item name over the orders that
      are not ready, counting its occurrences, most frequent first. */
  method PendingProductsSummary(orders: seq<KitchenOrder>) returns (summary: seq<Entry>)
    ensures TallyOf(PendingNames(orders), summary)
    ensures CountDesc(summary)
  {
    var tally: seq<Entry> := [];
    for i := 0 to |orders|
      invariant TallyOf(PendingNames(orders[..i]), tally)
    {
      assert orders[..i + 1][..i] == orders[..i];
      ghost var before := PendingNames(orders[..i]);
      if orders[i].status != Ready {
        assert PendingNames(orders[..i + 1]) == before + ItemNames(orders[i].items);
        tally := CountItems(before, tally, orders[i].items);
      } else {
        assert PendingNames(orders[..i + 1]) == before + [];
        assert before + [] == before;
      }
    }
    assert orders[..|orders|] == orders;
    SortedTally(PendingNames(orders), tally);
    summary := SortByCount(tally);
  }

  /** totalPendingProducts: the counts add up to the number of items on the
      orders that are not ready. */
  method TotalPendingProducts(orders: seq<KitchenOrder>) returns (total: nat)
    ensures total == PendingItemCount(orders)
  {
    var summary := PendingProductsSummary(orders);
    PendingNamesCount(orders);
    total := 0;
    for k := 0 to |summary|
      invariant total == SumCounts(summary[..k])
    {
      assert summary[..k + 1][..k] == summary[..k];
      total := total + summary[k].count;
    }
    assert summary[..|summary|] == summary;
  }

  // ---------------------------------------------------------------------------
  // The page state.

  class KitchenPage {
    var orders: seq<KitchenOrder>
    var stats: Stats

    constructor(orders: seq<KitchenOrder>)
      ensures this.orders == orders && stats == InitialStats
    {
      this.orders := orders;
      stats := InitialStats;
    }

    method HandleStartPreparing(orderId: int)
      modifies this
      ensures Board(orders, stats) == StartPreparing(Board(old(orders), old(stats)), orderId)
    {
      var b := StartPreparing(Board(orders, stats), orderId);
      orders, stats := b.orders, b.stats;
    }

    method HandleMarkReady(orderId: int)
      modifies this
      ensures Board(orders, stats) == MarkReady(Board(old(orders), old(stats)), orderId)
    {
      var b := MarkReady(Board(orders, stats), orderId);
      orders, stats := b.orders, b.stats;
    }

    method HandleMarkServed(orderId: int)
      modifies this
      ensures Board(orders, stats) == MarkServed(Board(old(orders), old(stats)), orderId)
    {
      var b := MarkServed(Board(orders, stats), orderId);
      orders, stats := b.orders, b.stats;
    }

    /** `thrown` when no order has the id: the handler fails and the state is
        left as it was. */
    method HandleUndoStatus(orderId: int) returns (thrown: bool)
      modifies this
      ensures thrown <==> UndoStatus(Board(old(orders), old(stats)), orderId).None?
      ensures thrown ==> orders == old(orders) && stats == old(stats)
      ensures !thrown ==> Some(Board(orders, stats)) == UndoStatus(Board(old(orders), old(stats)), orderId)
    {
      var r := UndoStatus(Board(orders, stats), orderId);
      if r.None? {
        thrown := true;
      } else {
        thrown := false;
        orders, stats := r.value.orders, r.value.stats;
      }
    }
  }
}
