/** The cart view of one table: the cart items mapped from the backend, the
    total / paid / remaining amounts, the paid-remaining-all filter, and the
    grouped view that merges the units of one product with the same paid flag.
    Prices are integer minor units. */
module ShopCart {
  import opened Common

  /** A cart item as the table endpoint returns it. */
  datatype BackendItem = BackendItem(id: int, productId: int, price: int, note: Option<string>,
                                     kitchenStatus: Option<string>, isPaid: bool)

  /** A cart item as the page keeps it. */
  datatype OrderItem = OrderItem(id: int, productId: int, quantity: nat, price: int, total: int,
                                 note: string, status: string, isPaid: bool)

  /** One line of the grouped view; `first` is the first member, whose fields
      the line shows. */
  datatype GroupRow = GroupRow(first: OrderItem, quantity: nat, total: int,
                               notes: seq<string>, originalIds: seq<int>)

  datatype Display = Individual(items: seq<OrderItem>) | Grouped(rows: seq<GroupRow>)

  // ---------------------------------------------------------------------------
  // Mapping the fetched items.

  function ToOrderItem(b: BackendItem): OrderItem {
    OrderItem(b.id, b.productId, 1, b.price, b.price,
              if Truthy(b.note) then b.note.value else "",
              if Truthy(b.kitchenStatus) then b.kitchenStatus.value else "waiting",
              b.isPaid)
  }

  /** Every mapped item is one unit whose total is its price; a missing or
      empty note becomes "", and an item without a kitchen status is
      'waiting' while a given one is kept. */
  function MapItems(bs: seq<BackendItem>): (r: seq<OrderItem>)
    ensures |r| == |bs|
    ensures forall k :: 0 <= k < |bs| ==>
      r[k].id == bs[k].id && r[k].productId == bs[k].productId && r[k].isPaid == bs[k].isPaid &&
      r[k].quantity == 1 && r[k].total == r[k].price == bs[k].price &&
      (!Truthy(bs[k].kitchenStatus) ==> r[k].status == "waiting")
    ensures forall k :: 0 <= k < |bs| ==>
      (Truthy(bs[k].kitchenStatus) ==> r[k].status == bs[k].kitchenStatus.value) &&
      r[k].note == (if Truthy(bs[k].note) then bs[k].note.value else "")
  {
    seq(|bs|, k requires 0 <= k < |bs| => ToOrderItem(bs[k]))
  }

  // ---------------------------------------------------------------------------
  // Amounts.

  function SumTotals(items: seq<OrderItem>): int {
    if items == [] then 0 else items[0].total + SumTotals(items[1..])
  }

  function TotalAmount(items: seq<OrderItem>): int {
    SumTotals(items)
  }

  function PaidAmount(items: seq<OrderItem>): int {
    SumTotals(Filter(items, (o: OrderItem) => o.isPaid))
  }

  function RemainingAmount(items: seq<OrderItem>): int {
    TotalAmount(items) - PaidAmount(items)
  }

  /** What remains to be paid is the sum over the unpaid items. */
  lemma {:induction false} RemainingIsUnpaidSum(items: seq<OrderItem>)
    ensures RemainingAmount(items) == SumTotals(Filter(items, (o: OrderItem) => !o.isPaid))
  {
    if items != [] {
      RemainingIsUnpaidSum(items[1..]);
      var paid := Filter(items[1..], (o: OrderItem) => o.isPaid);
      var unpaid := Filter(items[1..], (o: OrderItem) => !o.isPaid);
      if items[0].isPaid {
        assert Filter(items, (o: OrderItem) => o.isPaid) == [items[0]] + paid;
        assert ([items[0]] + paid)[1..] == paid;
      } else {
        assert Filter(items, (o: OrderItem) => !o.isPaid) == [items[0]] + unpaid;
        assert ([items[0]] + unpaid)[1..] == unpaid;
      }
    }
  }

  // ---------------------------------------------------------------------------
  // The order filter.

  /** filteredOrders: 'paid' keeps the paid items, 'remaining' the unpaid ones,
      any other value keeps everything. */
  function FilterOrders(items: seq<OrderItem>, orderFilter: string): (r: seq<OrderItem>)
    ensures IsSubsequence(r, items)
    ensures orderFilter == "paid" ==> forall o :: o in r <==> o in items && o.isPaid
    ensures orderFilter == "remaining" ==> forall o :: o in r <==> o in items && !o.isPaid
    ensures orderFilter != "paid" && orderFilter != "remaining" ==> r == items
  {
    if orderFilter == "paid" then Filter(items, (o: OrderItem) => o.isPaid)
    else if orderFilter == "remaining" then Filter(items, (o: OrderItem) => !o.isPaid)
    else SubsequenceOfItself(items); items
  }

  /** The 'paid' and 'remaining' views split the item list between them. */
  lemma {:induction false} PaidRemainingPartition(items: seq<OrderItem>)
    ensures multiset(FilterOrders(items, "paid")) + multiset(FilterOrders(items, "remaining")) == multiset(items)
  {
    if items != [] {
      PaidRemainingPartition(items[1..]);
      var paid := Filter(items[1..], (o: OrderItem) => o.isPaid);
      var unpaid := Filter(items[1..], (o: OrderItem) => !o.isPaid);
      assert items == [items[0]] + items[1..];
      if items[0].isPaid {
        assert FilterOrders(items, "paid") == [items[0]] + paid;
        assert FilterOrders(items, "remaining") == unpaid;
      } else {
        assert FilterOrders(items, "paid") == paid;
        assert FilterOrders(items, "remaining") == [items[0]] + unpaid;
      }
    }
  }

  // ---------------------------------------------------------------------------
  // What the grouped view is meant to show, stated on prefixes.

  /** Group key: product and paid flag (the source's `${productId}-${isPaid}`). */
  function Key(o: OrderItem): (int, bool) {
    (o.productId, o.isPaid)
  }

  function RowKey(r: GroupRow): (int, bool) {
    Key(r.first)
  }

  /** The items of one group, in list order. */
  function Members(items: seq<OrderItem>, key: (int, bool)): seq<OrderItem> {
    if items == [] then []
    else
      var last := items[|items| - 1];
      Members(items[..|items| - 1], key) + (if Key(last) == key then [last] else [])
  }

  function MemberIds(ms: seq<OrderItem>): seq<int> {
    if ms == [] then [] else MemberIds(ms[..|ms| - 1]) + [ms[|ms| - 1].id]
  }

  function SumPrices(ms: seq<OrderItem>): int {
    if ms == [] then 0 else SumPrices(ms[..|ms| - 1]) + ms[|ms| - 1].price
  }

  function MemberNotes(ms: seq<OrderItem>): seq<string> {
    if ms == [] then []
    else
      var last := ms[|ms| - 1];
      MemberNotes(ms[..|ms| - 1]) + (if last.note != "" then [last.note] else [])
  }

  function ItemKeys(items: seq<OrderItem>): set<(int, bool)> {
    if items == [] then {} else ItemKeys(items[..|items| - 1]) + {Key(items[|items| - 1])}
  }

  function RowKeys(rows: seq<GroupRow>): set<(int, bool)> {
    set r | r in rows :: RowKey(r)
  }

  function SumQuantity(rows: seq<GroupRow>): nat {
    if rows == [] then 0 else SumQuantity(rows[..|rows| - 1]) + rows[|rows| - 1].quantity
  }

  /** `row` is the group of its key in `items`: its quantity is the member
      count, its total the sum of member prices, its ids all member ids. */
  ghost predicate RowOf(items: seq<OrderItem>, row: GroupRow) {
    var ms := Members(items, RowKey(row));
    ms != [] && row == GroupRow(ms[0], |ms|, SumPrices(ms), MemberNotes(ms), MemberIds(ms))
  }

  predicate DistinctRowKeys(rows: seq<GroupRow>) {
    forall i, j :: 0 <= i < j < |rows| ==> RowKey(rows[i]) != RowKey(rows[j])
  }

  ghost predicate RowsCorrect(items: seq<OrderItem>, rows: seq<GroupRow>) {
    forall k :: 0 <= k < |rows| ==> RowOf(items, rows[k])
  }

  /** `rows` is the grouping of `items`: one row per key, each row correct,
      and the quantities add up to the item count. */
  ghost predicate RowsOf(items: seq<OrderItem>, rows: seq<GroupRow>) {
    DistinctRowKeys(rows) &&
    RowKeys(rows) == ItemKeys(items) &&
    RowsCorrect(items, rows) &&
    SumQuantity(rows) == |items|
  }

  lemma {:induction false} MembersNonEmpty(items: seq<OrderItem>, key: (int, bool))
    ensures Members(items, key) != [] <==> key in ItemKeys(items)
  {
    if items != [] {
      MembersNonEmpty(items[..|items| - 1], key);
    }
  }

  lemma {:induction false} MembersSound(items: seq<OrderItem>, key: (int, bool))
    ensures forall o :: o in Members(items, key) ==> o in items && Key(o) == key
  {
    if items != [] {
      var init := items[..|items| - 1];
      MembersSound(init, key);
      assert forall o :: o in init ==> o in items;
    }
  }

  lemma {:induction false} MemberIdsShape(ms: seq<OrderItem>)
    ensures |MemberIds(ms)| == |ms|
    ensures forall k :: 0 <= k < |ms| ==> MemberIds(ms)[k] == ms[k].id
  {
    if ms != [] {
      MemberIdsShape(ms[..|ms| - 1]);
    }
  }

  /** A group never mixes paid and unpaid items or products, and lists the id
      of every one of its members. */
  lemma RowMembers(items: seq<OrderItem>, row: GroupRow)
    requires RowOf(items, row)
    ensures forall o :: o in Members(items, RowKey(row)) ==>
      o in items && o.productId == row.first.productId && o.isPaid == row.first.isPaid
    ensures |row.originalIds| == row.quantity
    ensures forall k :: 0 <= k < row.quantity ==> row.originalIds[k] == Members(items, RowKey(row))[k].id
  {
    MembersSound(items, RowKey(row));
    MemberIdsShape(Members(items, RowKey(row)));
  }

  // ---------------------------------------------------------------------------
  // One step of the grouping loop.

  function NewRow(item: OrderItem): GroupRow {
    GroupRow(item, 1, item.price, if item.note != "" then [item.note] else [], [item.id])
  }

  function AddToRow(row: GroupRow, item: OrderItem): GroupRow {
    row.(quantity := row.quantity + 1, total := row.total + item.price,
         notes := row.notes + (if item.note != "" then [item.note] else []),
         originalIds := row.originalIds + [item.id])
  }

  lemma OtherKeysUnchanged(before: seq<OrderItem>, item: OrderItem, key: (int, bool))
    requires Key(item) != key
    ensures Members(before + [item], key) == Members(before, key)
  {
    assert (before + [item])[..|before|] == before;
  }

  lemma {:induction false} SumQuantityUpdate(a: seq<GroupRow>, b: seq<GroupRow>, k: nat)
    requires |a| == |b| && k < |a|
    requires forall j :: 0 <= j < |a| && j != k ==> a[j] == b[j]
    ensures SumQuantity(b) == SumQuantity(a) - a[k].quantity + b[k].quantity
  {
    var n := |a| - 1;
    if k < n {
      SumQuantityUpdate(a[..n], b[..n], k);
    } else {
      assert a[..n] == b[..n];
    }
  }

  lemma ExistingRowGrows(before: seq<OrderItem>, item: OrderItem, row: GroupRow)
    requires RowOf(before, row) && RowKey(row) == Key(item)
    ensures RowOf(before + [item], AddToRow(row, item))
  {
    var after := before + [item];
    assert after[..|before|] == before;
    var ms := Members(before, Key(item));
    assert Members(after, Key(item)) == ms + [item];
    assert (ms + [item])[..|ms|] == ms;
  }

  lemma SameRowKeys(a: seq<GroupRow>, b: seq<GroupRow>)
    requires |a| == |b|
    requires forall j :: 0 <= j < |a| ==> RowKey(a[j]) == RowKey(b[j])
    ensures RowKeys(a) == RowKeys(b)
  {
    forall q | q in RowKeys(a) ensures q in RowKeys(b) {
      var j :| 0 <= j < |a| && RowKey(a[j]) == q;
      assert b[j] in b;
    }
    forall q | q in RowKeys(b) ensures q in RowKeys(a) {
      var j :| 0 <= j < |b| && RowKey(b[j]) == q;
      assert a[j] in a;
    }
  }

  lemma ExistingRowsCorrect(before: seq<OrderItem>, item: OrderItem, rows: seq<GroupRow>, k: nat)
    requires RowsCorrect(before, rows) && DistinctRowKeys(rows)
    requires k < |rows| && RowKey(rows[k]) == Key(item)
    ensures RowsCorrect(before + [item], rows[k := AddToRow(rows[k], item)])
  {
    var rows' := rows[k := AddToRow(rows[k], item)];
    ExistingRowGrows(before, item, rows[k]);
    forall j | 0 <= j < |rows'| && j != k ensures RowOf(before + [item], rows'[j]) {
      OtherKeysUnchanged(before, item, RowKey(rows'[j]));
    }
  }

  lemma ExistingKeys(before: seq<OrderItem>, item: OrderItem, rows: seq<GroupRow>, k: nat)
    requires RowKeys(rows) == ItemKeys(before)
    requires k < |rows| && RowKey(rows[k]) == Key(item)
    ensures var rows' := rows[k := AddToRow(rows[k], item)];
      (forall j :: 0 <= j < |rows| ==> RowKey(rows'[j]) == RowKey(rows[j])) &&
      RowKeys(rows') == ItemKeys(before + [item])
  {
    var after := before + [item];
    var rows' := rows[k := AddToRow(rows[k], item)];
    assert forall j :: 0 <= j < |rows| ==> RowKey(rows'[j]) == RowKey(rows[j]);
    SameRowKeys(rows, rows');
    assert ItemKeys(after) == ItemKeys(before) + {Key(item)} by {
      assert after[..|before|] == before;
    }
    assert Key(item) in RowKeys(rows) by {
      assert rows[k] in rows;
    }
  }

  lemma {:induction false} StepExisting(before: seq<OrderItem>, item: OrderItem, rows: seq<GroupRow>, k: nat)
    requires RowsOf(before, rows)
    requires k < |rows| && RowKey(rows[k]) == Key(item)
    ensures RowsOf(before + [item], rows[k := AddToRow(rows[k], item)])
  {
    var rows' := rows[k := AddToRow(rows[k], item)];
    ExistingRowsCorrect(before, item, rows, k);
    ExistingKeys(before, item, rows, k);
    SumQuantityUpdate(rows, rows', k);
  }

  lemma NewRowsCorrect(before: seq<OrderItem>, item: OrderItem, rows: seq<GroupRow>)
    requires RowsCorrect(before, rows)
    requires Key(item) !in ItemKeys(before)
    ensures RowsCorrect(before + [item], rows + [NewRow(item)])
  {
    var after := before + [item];
    assert after[..|before|] == before;
    var key := Key(item);
    MembersNonEmpty(before, key);
    assert Members(after, key) == [item];
    assert [item][..0] == [];
    assert RowOf(after, NewRow(item));
    var rows' := rows + [NewRow(item)];
    forall j | 0 <= j < |rows| ensures RowOf(after, rows'[j]) {
      assert RowKey(rows[j]) != key by {
        MembersNonEmpty(before, RowKey(rows[j]));
      }
      OtherKeysUnchanged(before, item, RowKey(rows[j]));
    }
  }

  lemma {:induction false} StepNew(before: seq<OrderItem>, item: OrderItem, rows: seq<GroupRow>)
    requires RowsOf(before, rows)
    requires forall j :: 0 <= j < |rows| ==> RowKey(rows[j]) != Key(item)
    ensures RowsOf(before + [item], rows + [NewRow(item)])
  {
    var after := before + [item];
    assert after[..|before|] == before;
    var key := Key(item);
    assert key !in RowKeys(rows);
    NewRowsCorrect(before, item, rows);
    var rows' := rows + [NewRow(item)];
    assert rows'[..|rows|] == rows;
    forall q | q in RowKeys(rows) ensures q in RowKeys(rows') {
      var j :| 0 <= j < |rows| && RowKey(rows[j]) == q;
      assert rows'[j] in rows';
    }
    assert rows'[|rows|] in rows';
  }

  // ---------------------------------------------------------------------------
  // displayOrders.

  /** Groups the shown items by (product, paid flag): one row per key, each
      row's quantity, total and ids those of its members; the quantities add
      up to the number of items shown. */
  method GroupOrders(items: seq<OrderItem>) returns (rows: seq<GroupRow>)
    ensures RowsOf(items, rows)
  {
    rows := [];
    for i := 0 to |items|
      invariant RowsOf(items[..i], rows)
    {
      var item := items[i];
      assert items[..i + 1] == items[..i] + [item];
      var k := 0;
      while k < |rows| && RowKey(rows[k]) != Key(item)
        invariant k <= |rows|
        invariant forall j :: 0 <= j < k ==> RowKey(rows[j]) != Key(item)
      {
        k := k + 1;
      }
      if k < |rows| {
        StepExisting(items[..i], item, rows, k);
        rows := rows[k := AddToRow(rows[k], item)];
      } else {
        StepNew(items[..i], item, rows);
        rows := rows + [NewRow(item)];
      }
    }
    assert items[..|items|] == items;
  }

  /** The individual view shows the filtered list as it is; the grouped view
      shows its groups. */
  method DisplayOrders(filtered: seq<OrderItem>, viewMode: string) returns (d: Display)
    ensures viewMode == "individual" ==> d == Individual(filtered)
    ensures viewMode != "individual" ==> d.Grouped? && RowsOf(filtered, d.rows)
  {
    if viewMode == "individual" {
      d := Individual(filtered);
    } else {
      var rows := GroupOrders(filtered);
      d := Grouped(rows);
    }
  }
}
