/** The payment page of one table: the unpaid cart items are grouped by product,
    staff choose how many units of each product to charge, and the chosen
    units are submitted as a flat list of cart-item ids. Prices are integer
    minor units. */
module Payment {
  import opened Common

  /** A cart item as the shop-cart endpoint returns it; one physical unit. */
  datatype CartItem = CartItem(id: int, productId: nat, price: int, note: Option<string>, isPaid: bool)

  /** One row of the payment page: all unpaid units of one product. */
  datatype Group = Group(productId: nat, maxQuantity: nat, selectedQuantity: nat,
                         unitPrice: int, itemIds: seq<int>, notes: seq<string>)

  datatype PaymentType = Cash | CreditCard

  /** What pressing a payment button leads to. */
  datatype Submission =
    | NothingSelected                                    // alert, no request
    | NoItemIds                                          // alert, no request
    | Charge(itemIds: seq<int>, paymentType: PaymentType) // the pay-product request

  // ---------------------------------------------------------------------------
  // What grouping is meant to produce, stated on prefixes of the item list.

  /** The unpaid items of product `p`, in cart order. */
  function UnpaidOf(items: seq<CartItem>, p: nat): seq<CartItem> {
    if items == [] then []
    else
      var last := items[|items| - 1];
      UnpaidOf(items[..|items| - 1], p) + (if !last.isPaid && last.productId == p then [last] else [])
  }

  function Ids(us: seq<CartItem>): seq<int> {
    if us == [] then [] else Ids(us[..|us| - 1]) + [us[|us| - 1].id]
  }

  /** The non-empty notes of `us` in order of first appearance, each once. */
  function DistinctNotes(us: seq<CartItem>): seq<string> {
    if us == [] then []
    else
      var prev := DistinctNotes(us[..|us| - 1]);
      var last := us[|us| - 1];
      if Truthy(last.note) && last.note.value !in prev then prev + [last.note.value] else prev
  }

  /** Product ids that have at least one unpaid item. */
  function UnpaidProducts(items: seq<CartItem>): set<nat> {
    if items == [] then {}
    else
      var last := items[|items| - 1];
      UnpaidProducts(items[..|items| - 1]) + (if !last.isPaid then {last.productId} else {})
  }

  function UnpaidIdSet(items: seq<CartItem>): set<int> {
    set it | it in items && !it.isPaid :: it.id
  }

  /** The group the page shows for product `p` right after loading. */
  function FreshGroup(items: seq<CartItem>, p: nat): Group
    requires UnpaidOf(items, p) != []
  {
    var us := UnpaidOf(items, p);
    Group(p, |us|, 0, us[0].price, Ids(us), DistinctNotes(us))
  }

  function GroupKeys(gs: seq<Group>): set<nat> {
    set g | g in gs :: g.productId
  }

  /** Object.values lists integer keys in ascending order, so the groups come
      out sorted by product id. */
  ghost predicate Ascending(gs: seq<Group>) {
    forall i, j :: 0 <= i < j < |gs| ==> gs[i].productId < gs[j].productId
  }

  /** `g` is the group of its product in `items`, with some selection. */
  ghost predicate GroupOf(items: seq<CartItem>, g: Group) {
    UnpaidOf(items, g.productId) != [] &&
    g == FreshGroup(items, g.productId).(selectedQuantity := g.selectedQuantity)
  }

  /** The grouping of `items`, with the selection still free. */
  ghost predicate GroupsOf(items: seq<CartItem>, gs: seq<Group>) {
    Ascending(gs) &&
    GroupKeys(gs) == UnpaidProducts(items) &&
    forall k :: 0 <= k < |gs| ==> GroupOf(items, gs[k])
  }

  // ---------------------------------------------------------------------------
  // Facts about the specification functions.

  lemma {:induction false} UnpaidOfSound(items: seq<CartItem>, p: nat)
    ensures forall it :: it in UnpaidOf(items, p) ==> it in items && !it.isPaid && it.productId == p
  {
    if items != [] {
      var init := items[..|items| - 1];
      UnpaidOfSound(init, p);
      assert forall it :: it in init ==> it in items;
    }
  }

  lemma {:induction false} UnpaidOfNonEmpty(items: seq<CartItem>, p: nat)
    ensures UnpaidOf(items, p) != [] <==> p in UnpaidProducts(items)
  {
    if items != [] {
      UnpaidOfNonEmpty(items[..|items| - 1], p);
    }
  }

  lemma {:induction false} IdsLength(us: seq<CartItem>)
    ensures |Ids(us)| == |us|
    ensures forall k :: 0 <= k < |us| ==> Ids(us)[k] == us[k].id
  {
    if us != [] {
      IdsLength(us[..|us| - 1]);
    }
  }

  /** Notes within a group carry no duplicates. */
  lemma {:induction false} DistinctNotesUnique(us: seq<CartItem>)
    ensures forall i, j :: 0 <= i < j < |DistinctNotes(us)| ==> DistinctNotes(us)[i] != DistinctNotes(us)[j]
    ensures forall n :: n in DistinctNotes(us) ==> n != ""
  {
    if us != [] {
      DistinctNotesUnique(us[..|us| - 1]);
    }
  }

  /** Each freshly loaded group: nothing selected, as many units as unpaid
      items of its product, one id per unit, each the id of an unpaid item of
      that product. */
  lemma FreshGroupShape(items: seq<CartItem>, p: nat)
    requires UnpaidOf(items, p) != []
    ensures FreshGroup(items, p).selectedQuantity == 0
    ensures FreshGroup(items, p).maxQuantity == |FreshGroup(items, p).itemIds| == |UnpaidOf(items, p)| > 0
    ensures forall x :: x in FreshGroup(items, p).itemIds ==> x in UnpaidIdSet(items)
  {
    var us := UnpaidOf(items, p);
    IdsLength(us);
    UnpaidOfSound(items, p);
    forall x | x in Ids(us) ensures x in UnpaidIdSet(items) {
      var k :| 0 <= k < |us| && Ids(us)[k] == x;
      assert us[k] in us;
    }
  }

  lemma SameKeys(a: seq<Group>, b: seq<Group>)
    requires |a| == |b|
    requires forall j :: 0 <= j < |a| ==> a[j].productId == b[j].productId
    ensures GroupKeys(a) == GroupKeys(b)
  {
    forall q | q in GroupKeys(a) ensures q in GroupKeys(b) {
      var j :| 0 <= j < |a| && a[j].productId == q;
      assert b[j] in b;
    }
    forall q | q in GroupKeys(b) ensures q in GroupKeys(a) {
      var j :| 0 <= j < |b| && b[j].productId == q;
      assert a[j] in a;
    }
  }

  // ---------------------------------------------------------------------------
  // Grouping, as fetchPaymentData does it.

  /** The group fetchPaymentData creates for the first unpaid unit of a product. */
  function NewGroup(item: CartItem): Group {
    Group(item.productId, 1, 0, item.price, [item.id], if Truthy(item.note) then [item.note.value] else [])
  }

  /** The group after fetchPaymentData adds one more unpaid unit of its product. */
  function AddUnit(g: Group, item: CartItem): Group {
    var notes := if Truthy(item.note) && item.note.value !in g.notes then g.notes + [item.note.value] else g.notes;
    g.(maxQuantity := g.maxQuantity + 1, itemIds := g.itemIds + [item.id], notes := notes)
  }

  lemma OtherProductsUnchanged(before: seq<CartItem>, item: CartItem, q: nat)
    requires item.isPaid || item.productId != q
    ensures UnpaidOf(before + [item], q) == UnpaidOf(before, q)
  {
    assert (before + [item])[..|before|] == before;
  }

  lemma {:induction false} StepPaid(before: seq<CartItem>, item: CartItem, groups: seq<Group>)
    requires item.isPaid && GroupsOf(before, groups)
    ensures GroupsOf(before + [item], groups)
  {
    var after := before + [item];
    assert after[..|before|] == before;
    forall k | 0 <= k < |groups| ensures GroupOf(after, groups[k]) {
      OtherProductsUnchanged(before, item, groups[k].productId);
    }
  }

  lemma {:induction false} StepExisting(before: seq<CartItem>, item: CartItem, groups: seq<Group>, k: nat)
    requires !item.isPaid && GroupsOf(before, groups)
    requires k < |groups| && groups[k].productId == item.productId
    ensures GroupsOf(before + [item], groups[k := AddUnit(groups[k], item)])
  {
    var after := before + [item];
    var p := item.productId;
    assert after[..|before|] == before;
    var us := UnpaidOf(before, p);
    assert UnpaidOf(after, p) == us + [item];
    assert (us + [item])[..|us|] == us;
    var g' := AddUnit(groups[k], item);
    assert g' == FreshGroup(after, p).(selectedQuantity := g'.selectedQuantity);
    var gs' := groups[k := g'];
    forall j | 0 <= j < |gs'| ensures GroupOf(after, gs'[j]) {
      if j != k {
        OtherProductsUnchanged(before, item, gs'[j].productId);
      }
    }
    SameKeys(groups, gs');
  }

  lemma InsertAt(gs: seq<Group>, k: nat, g: Group)
    requires k <= |gs|
    ensures var r := gs[..k] + [g] + gs[k..];
      && |r| == |gs| + 1 && r[k] == g
      && (forall j :: 0 <= j < k ==> r[j] == gs[j])
      && (forall j :: k < j < |r| ==> r[j] == gs[j - 1])
      && GroupKeys(r) == GroupKeys(gs) + {g.productId}
  {
    var r := gs[..k] + [g] + gs[k..];
    assert r[k] in r;
    forall q | q in GroupKeys(gs) ensures q in GroupKeys(r) {
      var j :| 0 <= j < |gs| && gs[j].productId == q;
      if j < k { assert r[j] in r; } else { assert r[j + 1] in r; }
    }
  }

  lemma NewGroupIsFresh(before: seq<CartItem>, item: CartItem)
    requires !item.isPaid && UnpaidOf(before, item.productId) == []
    ensures GroupOf(before + [item], NewGroup(item))
  {
    var after := before + [item];
    assert after[..|before|] == before;
    assert UnpaidOf(after, item.productId) == [item];
    assert [item][..0] == [];
    assert Ids([item]) == [item.id];
    assert DistinctNotes([item]) == NewGroup(item).notes;
  }

  lemma {:induction false} StepNew(before: seq<CartItem>, item: CartItem, groups: seq<Group>, k: nat)
    requires !item.isPaid && GroupsOf(before, groups)
    requires k <= |groups|
    requires forall j :: 0 <= j < k ==> groups[j].productId < item.productId
    requires k < |groups| ==> groups[k].productId > item.productId
    ensures GroupsOf(before + [item], groups[..k] + [NewGroup(item)] + groups[k..])
  {
    var after := before + [item];
    var p := item.productId;
    assert p !in GroupKeys(groups);
    UnpaidOfNonEmpty(before, p);
    NewGroupIsFresh(before, item);
    var gs' := groups[..k] + [NewGroup(item)] + groups[k..];
    InsertAt(groups, k, NewGroup(item));
    forall j | 0 <= j < |gs'| && j != k ensures GroupOf(after, gs'[j]) {
      OtherProductsUnchanged(before, item, gs'[j].productId);
    }
    assert after[..|before|] == before;
  }

  /** Position of product `p` among ascending groups: every group before it has
      a smaller product id. */
  method Locate(gs: seq<Group>, p: nat) returns (k: nat)
    requires Ascending(gs)
    ensures k <= |gs|
    ensures forall j :: 0 <= j < k ==> gs[j].productId < p
    ensures k < |gs| ==> gs[k].productId >= p
  {
    k := 0;
    while k < |gs| && gs[k].productId < p
      invariant k <= |gs|
      invariant forall j :: 0 <= j < k ==> gs[j].productId < p
    {
      k := k + 1;
    }
  }

  /** One pass of the grouping loop: an unpaid item joins its product's group
      or opens a new one in its place; a paid item changes nothing. */
  method AddItem(before: seq<CartItem>, item: CartItem, groups: seq<Group>) returns (r: seq<Group>)
    requires GroupsOf(before, groups)
    requires forall k :: 0 <= k < |groups| ==> groups[k].selectedQuantity == 0
    ensures GroupsOf(before + [item], r)
    ensures forall k :: 0 <= k < |r| ==> r[k].selectedQuantity == 0
  {
    if !item.isPaid {
      var k := Locate(groups, item.productId);
      if k < |groups| && groups[k].productId == item.productId {
        StepExisting(before, item, groups, k);
        r := groups[k := AddUnit(groups[k], item)];
      } else {
        StepNew(before, item, groups, k);
        InsertAt(groups, k, NewGroup(item));
        r := groups[..k] + [NewGroup(item)] + groups[k..];
      }
    } else {
      StepPaid(before, item, groups);
      r := groups;
    }
  }

  /** Groups the unpaid items by product, one group per product, in ascending
      product id; each group starts with nothing selected. */
  method GroupUnpaidItems(items: seq<CartItem>) returns (groups: seq<Group>)
    ensures GroupsOf(items, groups)
    ensures forall k :: 0 <= k < |groups| ==> groups[k].selectedQuantity == 0
  {
    groups := [];
    var i := 0;
    while i < |items|
      invariant 0 <= i <= |items|
      invariant GroupsOf(items[..i], groups)
      invariant forall k :: 0 <= k < |groups| ==> groups[k].selectedQuantity == 0
    {
      assert items[..i + 1] == items[..i] + [items[i]];
      groups := AddItem(items[..i], items[i], groups);
      i := i + 1;
    }
    assert items[..|items|] == items;
  }

  // ---------------------------------------------------------------------------
  // Selection handlers. Each replaces the group list by a mapped copy.

  /** Every selection lies within [0, maxQuantity]. */
  predicate Bounded(gs: seq<Group>) {
    forall k :: 0 <= k < |gs| ==> gs[k].selectedQuantity <= gs[k].maxQuantity
  }

  predicate AllSelected(gs: seq<Group>) {
    forall k :: 0 <= k < |gs| ==> gs[k].selectedQuantity == gs[k].maxQuantity
  }

  predicate NoneSelected(gs: seq<Group>) {
    forall k :: 0 <= k < |gs| ==> gs[k].selectedQuantity == 0
  }

  /** `a` and `b` hold the same rows, except perhaps for the selected quantities. */
  predicate SameRows(a: seq<Group>, b: seq<Group>) {
    |a| == |b| && forall k :: 0 <= k < |a| ==> a[k] == b[k].(selectedQuantity := a[k].selectedQuantity)
  }

  /** increaseQuantity: one more unit of product `p`, unless all are selected. */
  function Increase(gs: seq<Group>, p: nat): (r: seq<Group>)
    ensures SameRows(r, gs)
    ensures forall k :: 0 <= k < |gs| && gs[k].productId != p ==> r[k] == gs[k]
    ensures forall k :: 0 <= k < |gs| && gs[k].productId == p ==>
      r[k].selectedQuantity == gs[k].selectedQuantity + (if gs[k].selectedQuantity < gs[k].maxQuantity then 1 else 0)
    ensures Bounded(gs) ==> Bounded(r)
  {
    seq(|gs|, k requires 0 <= k < |gs| =>
      if gs[k].productId == p && gs[k].selectedQuantity < gs[k].maxQuantity
      then gs[k].(selectedQuantity := gs[k].selectedQuantity + 1) else gs[k])
  }

  /** decreaseQuantity: one unit of product `p` fewer, unless none is selected. */
  function Decrease(gs: seq<Group>, p: nat): (r: seq<Group>)
    ensures SameRows(r, gs)
    ensures forall k :: 0 <= k < |gs| && gs[k].productId != p ==> r[k] == gs[k]
    ensures forall k :: 0 <= k < |gs| && gs[k].productId == p ==>
      r[k].selectedQuantity + (if gs[k].selectedQuantity > 0 then 1 else 0) == gs[k].selectedQuantity
    ensures Bounded(gs) ==> Bounded(r)
  {
    seq(|gs|, k requires 0 <= k < |gs| =>
      if gs[k].productId == p && gs[k].selectedQuantity > 0
      then gs[k].(selectedQuantity := gs[k].selectedQuantity - 1) else gs[k])
  }

  /** toggleSelectAll: clear everything when everything is selected, otherwise
      select every unit of every product. */
  function ToggleAll(gs: seq<Group>): (r: seq<Group>)
    ensures SameRows(r, gs)
    ensures AllSelected(gs) ==> NoneSelected(r)
    ensures !AllSelected(gs) ==> AllSelected(r)
    ensures Bounded(r)
  {
    if AllSelected(gs) then seq(|gs|, k requires 0 <= k < |gs| => gs[k].(selectedQuantity := 0))
    else seq(|gs|, k requires 0 <= k < |gs| => gs[k].(selectedQuantity := gs[k].maxQuantity))
  }

  /** toggleItemSelection: product `p` goes to none when all its units are
      selected, otherwise to all of them. */
  function ToggleItem(gs: seq<Group>, p: nat): (r: seq<Group>)
    ensures SameRows(r, gs)
    ensures forall k :: 0 <= k < |gs| && gs[k].productId != p ==> r[k] == gs[k]
    ensures forall k :: 0 <= k < |gs| && gs[k].productId == p && gs[k].selectedQuantity == gs[k].maxQuantity ==>
      r[k].selectedQuantity == 0
    ensures forall k :: 0 <= k < |gs| && gs[k].productId == p && gs[k].selectedQuantity != gs[k].maxQuantity ==>
      r[k].selectedQuantity == gs[k].maxQuantity
    ensures Bounded(gs) ==> Bounded(r)
  {
    seq(|gs|, k requires 0 <= k < |gs| =>
      if gs[k].productId == p
      then gs[k].(selectedQuantity := if gs[k].selectedQuantity == gs[k].maxQuantity then 0 else gs[k].maxQuantity)
      else gs[k])
  }

  /** Decreasing undoes an increase of a product that was not fully selected. */
  lemma DecreaseUndoesIncrease(gs: seq<Group>, p: nat)
    requires forall k :: 0 <= k < |gs| && gs[k].productId == p ==> gs[k].selectedQuantity < gs[k].maxQuantity
    ensures Decrease(Increase(gs, p), p) == gs
  {
    var r := Decrease(Increase(gs, p), p);
    assert forall k :: 0 <= k < |gs| ==> r[k] == gs[k];
  }

  /** Increasing undoes a decrease of a product that had a unit selected. */
  lemma IncreaseUndoesDecrease(gs: seq<Group>, p: nat)
    requires Bounded(gs)
    requires forall k :: 0 <= k < |gs| && gs[k].productId == p ==> gs[k].selectedQuantity > 0
    ensures Increase(Decrease(gs, p), p) == gs
  {
    var r := Increase(Decrease(gs, p), p);
    assert forall k :: 0 <= k < |gs| ==> r[k] == gs[k];
  }

  /** Select-all pressed twice from a partial selection clears every product;
      pressed twice from a full selection selects everything again. */
  lemma ToggleAllTwice(gs: seq<Group>)
    ensures !AllSelected(gs) ==> NoneSelected(ToggleAll(ToggleAll(gs)))
    ensures AllSelected(gs) && gs != [] && (exists k :: 0 <= k < |gs| && gs[k].maxQuantity > 0) ==>
      AllSelected(ToggleAll(ToggleAll(gs)))
  {
    if AllSelected(gs) && exists k :: 0 <= k < |gs| && gs[k].maxQuantity > 0 {
      var k :| 0 <= k < |gs| && gs[k].maxQuantity > 0;
      var once := ToggleAll(gs);
      assert once[k].selectedQuantity != once[k].maxQuantity;
    }
  }

  // ---------------------------------------------------------------------------
  // The running total and the submitted id list.

  function SelectedGroups(gs: seq<Group>): seq<Group> {
    Filter(gs, (g: Group) => g.selectedQuantity > 0)
  }

  function LineTotal(g: Group): int {
    g.selectedQuantity * g.unitPrice
  }

  function SumLines(gs: seq<Group>): int {
    if gs == [] then 0 else LineTotal(gs[0]) + SumLines(gs[1..])
  }

  function SumSelected(gs: seq<Group>): nat {
    if gs == [] then 0 else gs[0].selectedQuantity + SumSelected(gs[1..])
  }

  /** The total shown: the reduce over the selected groups. */
  function Total(gs: seq<Group>): int {
    SumLines(SelectedGroups(gs))
  }

  /** Groups with nothing selected add nothing: the total and the unit count
      over the selected groups equal those over all groups. */
  lemma {:induction false} SelectedCarryEverything(gs: seq<Group>)
    ensures Total(gs) == SumLines(gs)
    ensures SumSelected(SelectedGroups(gs)) == SumSelected(gs)
  {
    if gs != [] {
      SelectedCarryEverything(gs[1..]);
      var rest := SelectedGroups(gs[1..]);
      if gs[0].selectedQuantity > 0 {
        assert SelectedGroups(gs) == [gs[0]] + rest;
        assert ([gs[0]] + rest)[1..] == rest;
      } else {
        assert SelectedGroups(gs) == rest;
      }
    }
  }

  lemma {:induction false} SumLinesUpdate(a: seq<Group>, b: seq<Group>, k: nat)
    requires |a| == |b| && k < |a|
    requires forall j :: 0 <= j < |a| && j != k ==> a[j] == b[j]
    ensures SumLines(b) == SumLines(a) - LineTotal(a[k]) + LineTotal(b[k])
  {
    if k > 0 {
      SumLinesUpdate(a[1..], b[1..], k - 1);
    } else {
      assert a[1..] == b[1..];
    }
  }

  /** One more unit of a product raises the total by that product's unit price,
      unless all its units were already selected. */
  lemma IncreaseAddsUnitPrice(gs: seq<Group>, p: nat, k: nat)
    requires k < |gs| && gs[k].productId == p
    requires forall j :: 0 <= j < |gs| && j != k ==> gs[j].productId != p
    ensures Total(Increase(gs, p)) ==
      Total(gs) + (if gs[k].selectedQuantity < gs[k].maxQuantity then gs[k].unitPrice else 0)
  {
    var r := Increase(gs, p);
    SelectedCarryEverything(gs);
    SelectedCarryEverything(r);
    SumLinesUpdate(gs, r, k);
    if gs[k].selectedQuantity < gs[k].maxQuantity {
      OneMoreUnit(gs[k], r[k]);
    } else {
      assert r[k] == gs[k];
    }
  }

  lemma OneMoreUnit(g: Group, h: Group)
    requires h == g.(selectedQuantity := g.selectedQuantity + 1)
    ensures LineTotal(h) == LineTotal(g) + g.unitPrice
  {
    assert (g.selectedQuantity + 1) * g.unitPrice == g.selectedQuantity * g.unitPrice + g.unitPrice;
  }

  /** The worked example: five units of A at 10 and three of B at 20, with two
      A and one B selected, total 40. */
  lemma ExampleTotal()
    ensures Total([Group(1, 5, 2, 10, [1, 2, 3, 4, 5], []), Group(2, 3, 1, 20, [6, 7, 8], [])]) == 40
  {
    var gs := [Group(1, 5, 2, 10, [1, 2, 3, 4, 5], []), Group(2, 3, 1, 20, [6, 7, 8], [])];
    SelectedCarryEverything(gs);
  }

  /** The first `selectedQuantity` ids of each group, concatenated in order. */
  function Flatten(gs: seq<Group>): seq<int> {
    if gs == [] then [] else JsSlice(gs[0].itemIds, 0, gs[0].selectedQuantity) + Flatten(gs[1..])
  }

  /** Every id of every group, in group order. */
  function AllItemIds(gs: seq<Group>): seq<int> {
    if gs == [] then [] else gs[0].itemIds + AllItemIds(gs[1..])
  }

  lemma {:induction false} FlattenSnoc(gs: seq<Group>, g: Group)
    ensures Flatten(gs + [g]) == Flatten(gs) + JsSlice(g.itemIds, 0, g.selectedQuantity)
  {
    if gs != [] {
      assert (gs + [g])[1..] == gs[1..] + [g];
      FlattenSnoc(gs[1..], g);
    } else {
      assert Flatten([g]) == JsSlice(g.itemIds, 0, g.selectedQuantity) + Flatten([]);
    }
  }

  /** When no group selects more units than it has ids, the list holds exactly
      as many ids as units selected, all taken from the groups. */
  lemma {:induction false} FlattenShape(gs: seq<Group>)
    requires forall k :: 0 <= k < |gs| ==> gs[k].selectedQuantity <= |gs[k].itemIds|
    ensures |Flatten(gs)| == SumSelected(gs)
    ensures forall x :: x in Flatten(gs) ==> x in AllItemIds(gs)
  {
    if gs != [] {
      FlattenShape(gs[1..]);
      var head := JsSlice(gs[0].itemIds, 0, gs[0].selectedQuantity);
      assert forall x :: x in head ==> x in gs[0].itemIds;
    }
  }

  lemma {:induction false} AllItemIdsOf(gs: seq<Group>, g: Group)
    requires g in gs
    ensures forall x :: x in g.itemIds ==> x in AllItemIds(gs)
  {
    if gs[0] != g {
      AllItemIdsOf(gs[1..], g);
    }
  }

  lemma {:induction false} AllItemIdsWithin(gs: seq<Group>, sub: seq<Group>)
    requires forall g :: g in sub ==> g in gs
    ensures forall x :: x in AllItemIds(sub) ==> x in AllItemIds(gs)
  {
    if sub != [] {
      assert forall g :: g in sub[1..] ==> g in sub;
      AllItemIdsWithin(gs, sub[1..]);
      assert sub[0] in sub;
      AllItemIdsOf(gs, sub[0]);
    }
  }

  /** On a page loaded from `items`, every id in any group belongs to an unpaid
      item of the cart. */
  lemma {:induction false} GroupIdsUnpaid(items: seq<CartItem>, gs: seq<Group>)
    requires forall k :: 0 <= k < |gs| ==> GroupOf(items, gs[k])
    ensures forall x :: x in AllItemIds(gs) ==> x in UnpaidIdSet(items)
  {
    if gs != [] {
      GroupIdsUnpaid(items, gs[1..]);
      assert GroupOf(items, gs[0]);
      FreshGroupShape(items, gs[0].productId);
      assert gs[0].itemIds == FreshGroup(items, gs[0].productId).itemIds;
    }
  }

  // ---------------------------------------------------------------------------
  // The page state.

  class PaymentPage {
    /** The cart items of the last successful fetch. */
    ghost const items: seq<CartItem>
    var groups: seq<Group>

    ghost predicate Valid()
      reads this
    {
      GroupsOf(items, groups) && Bounded(groups)
    }

    /** The state right after fetchPaymentData succeeded with `items`. */
    constructor (items: seq<CartItem>)
      ensures this.items == items && Valid() && NoneSelected(groups)
    {
      this.items := items;
      var gs := GroupUnpaidItems(items);
      groups := gs;
    }

    method IncreaseQuantity(p: nat)
      requires Valid()
      modifies this
      ensures Valid() && groups == Increase(old(groups), p)
    {
      groups := Increase(groups, p);
    }

    method DecreaseQuantity(p: nat)
      requires Valid()
      modifies this
      ensures Valid() && groups == Decrease(old(groups), p)
    {
      groups := Decrease(groups, p);
    }

    method ToggleSelectAll()
      requires Valid()
      modifies this
      ensures Valid() && groups == ToggleAll(old(groups))
    {
      groups := ToggleAll(groups);
    }

    method ToggleItemSelection(p: nat)
      requires Valid()
      modifies this
      ensures Valid() && groups == ToggleItem(old(groups), p)
    {
      groups := ToggleItem(groups, p);
    }

    /** handlePayment up to the request: refuses an empty selection, and
        otherwise charges the first selectedQuantity ids of every selected
        group, in group order; these are unpaid items of the cart, as many as
        the units selected. */
    method HandlePayment(paymentType: PaymentType) returns (r: Submission)
      requires Valid()
      ensures SelectedGroups(groups) == [] <==> r == NothingSelected
      ensures r != NothingSelected ==> r == Charge(Flatten(SelectedGroups(groups)), paymentType)
      ensures r.Charge? ==> |r.itemIds| == SumSelected(groups) > 0
      ensures r.Charge? ==> forall x :: x in r.itemIds ==> x in UnpaidIdSet(items)
    {
      var selected := SelectedGroups(groups);
      if |selected| == 0 {
        return NothingSelected;
      }
      var ids := CollectIds(selected);
      PaymentProperties(items, groups);
      if |ids| == 0 {
        r := NoItemIds;
      } else {
        r := Charge(ids, paymentType);
      }
    }
  }

  /** The ids charged: each group's first selectedQuantity ids, group after
      group. */
  method CollectIds(selected: seq<Group>) returns (ids: seq<int>)
    ensures ids == Flatten(selected)
  {
    ids := [];
    var i := 0;
    while i < |selected|
      invariant 0 <= i <= |selected|
      invariant ids == Flatten(selected[..i])
    {
      var g := selected[i];
      FlattenSnoc(selected[..i], g);
      assert selected[..i + 1] == selected[..i] + [g];
      ids := ids + JsSlice(g.itemIds, 0, g.selectedQuantity);
      i := i + 1;
    }
    assert selected[..i] == selected;
  }

  lemma PaymentProperties(items: seq<CartItem>, gs: seq<Group>)
    requires GroupsOf(items, gs) && Bounded(gs)
    ensures SelectedGroups(gs) != [] ==> SumSelected(gs) > 0
    ensures |Flatten(SelectedGroups(gs))| == SumSelected(gs)
    ensures forall x :: x in Flatten(SelectedGroups(gs)) ==> x in UnpaidIdSet(items)
  {
    var sel := SelectedGroups(gs);
    forall k | 0 <= k < |gs| ensures gs[k].selectedQuantity <= |gs[k].itemIds| {
      FreshGroupShape(items, gs[k].productId);
    }
    forall k | 0 <= k < |sel| ensures sel[k].selectedQuantity <= |sel[k].itemIds| {
      assert sel[k] in sel;
    }
    FlattenShape(sel);
    SelectedCarryEverything(gs);
    AllItemIdsWithin(gs, sel);
    GroupIdsUnpaid(items, gs);
    if sel != [] {
      assert sel[0] in sel;
      SumSelectedPositive(sel, 0);
    }
  }

  lemma {:induction false} SumSelectedPositive(gs: seq<Group>, k: nat)
    requires k < |gs| && gs[k].selectedQuantity > 0
    ensures SumSelected(gs) > 0
  {
    if k > 0 {
      SumSelectedPositive(gs[1..], k - 1);
    }
  }
}
