/** The product picker used to add items to a table's cart: a filtered product
    list, a selection toggled by product id with a note per entry, a guarded
    submit that builds the request payload, and a guarded close. */
module AddProductModal {
  import opened Common

  datatype Product = Product(id: int, name: string, categoryId: int, status: string)

  /** One selected product with its note. */
  datatype Selection = Selection(productId: int, note: string, product: Product)

  /** One line of the request; an empty note is sent as undefined (None). */
  datatype PayloadItem = PayloadItem(productId: int, note: Option<string>)

  datatype AddRequest = AddRequest(tableId: int, items: seq<PayloadItem>)

  // ---------------------------------------------------------------------------
  // filteredProducts.

  predicate MatchesCategory(p: Product, category: IdChoice) {
    category.All? || p.categoryId == category.id
  }

  predicate Shown(p: Product, category: IdChoice, searchTerm: string) {
    MatchesCategory(p, category) && Contains(Lower(p.name), Lower(searchTerm)) && p.status == "active"
  }

  /** The products shown: active, in the chosen category, and whose lower-cased
      name contains the lower-cased search term; in list order. */
  function FilteredProducts(products: seq<Product>, category: IdChoice, searchTerm: string): (r: seq<Product>)
    ensures IsSubsequence(r, products)
    ensures forall p :: p in r <==>
      (p in products && p.status == "active" && MatchesCategory(p, category) &&
       Contains(Lower(p.name), Lower(searchTerm)))
    ensures forall p :: multiset(r)[p] == (if Shown(p, category, searchTerm) then multiset(products)[p] else 0)
  {
    FilterCounts(products, (p: Product) => Shown(p, category, searchTerm));
    Filter(products, (p: Product) => Shown(p, category, searchTerm))
  }

  /** With no category and no search term, exactly the active products show. */
  lemma UnfilteredShowsActive(products: seq<Product>)
    ensures forall p :: p in FilteredProducts(products, All, "") <==> p in products && p.status == "active"
  {
    forall p | p in products {
      ContainsEmpty(Lower(p.name));
    }
  }

  // ---------------------------------------------------------------------------
  // The selection list.

  function SelectedIds(sel: seq<Selection>): (r: seq<int>)
    ensures |r| == |sel|
    ensures forall k :: 0 <= k < |sel| ==> r[k] == sel[k].productId
  {
    if sel == [] then [] else [sel[0].productId] + SelectedIds(sel[1..])
  }

  predicate UniqueIds(sel: seq<Selection>) {
    forall i, j :: 0 <= i < j < |sel| ==> sel[i].productId != sel[j].productId
  }

  /** toggleProduct: a selected product leaves the list, any other one is
      appended with an empty note. */
  function Toggled(sel: seq<Selection>, p: Product): (r: seq<Selection>)
    ensures p.id in SelectedIds(sel) ==>
      IsSubsequence(r, sel) && forall s :: s in r <==> s in sel && s.productId != p.id
    ensures p.id !in SelectedIds(sel) ==> r == sel + [Selection(p.id, "", p)]
    ensures p.id in SelectedIds(r) <==> p.id !in SelectedIds(sel)
  {
    if p.id in SelectedIds(sel) then
      var r := Filter(sel, (s: Selection) => s.productId != p.id);
      assert p.id !in SelectedIds(r) by {
        forall k | 0 <= k < |r| ensures SelectedIds(r)[k] != p.id {
          assert r[k] in r;
        }
      }
      r
    else
      var r := sel + [Selection(p.id, "", p)];
      assert SelectedIds(r)[|sel|] == p.id;
      r
  }

  lemma {:induction false} FilterKeepsUnique(sel: seq<Selection>, id: int)
    requires UniqueIds(sel)
    ensures UniqueIds(Filter(sel, (s: Selection) => s.productId != id))
  {
    if sel != [] {
      var rest := Filter(sel[1..], (s: Selection) => s.productId != id);
      FilterKeepsUnique(sel[1..], id);
      if sel[0].productId != id {
        var r := [sel[0]] + rest;
        forall i, j | 0 <= i < j < |r| ensures r[i].productId != r[j].productId {
          assert r[j] == rest[j - 1] && rest[j - 1] in rest;
          if i == 0 {
            var m :| 0 <= m < |sel[1..]| && sel[1..][m] == rest[j - 1];
            assert sel[0].productId != sel[m + 1].productId;
          } else {
            assert r[i] == rest[i - 1];
          }
        }
      }
    }
  }

  /** Toggling keeps product ids unique in the selection. */
  lemma ToggleKeepsUnique(sel: seq<Selection>, p: Product)
    requires UniqueIds(sel)
    ensures UniqueIds(Toggled(sel, p))
  {
    if p.id in SelectedIds(sel) {
      FilterKeepsUnique(sel, p.id);
    } else {
      forall k | 0 <= k < |sel| ensures sel[k].productId != p.id {
        assert SelectedIds(sel)[k] == sel[k].productId;
      }
    }
  }

  lemma {:induction false} FilterKeepsAll(sel: seq<Selection>, id: int)
    requires forall s :: s in sel ==> s.productId != id
    ensures Filter(sel, (s: Selection) => s.productId != id) == sel
  {
    if sel != [] {
      FilterKeepsAll(sel[1..], id);
      assert sel[0] in sel;
      assert sel == [sel[0]] + sel[1..];
    }
  }

  lemma {:induction false} FilterDropsLast(sel: seq<Selection>, x: Selection, id: int)
    requires x.productId == id
    ensures Filter(sel + [x], (s: Selection) => s.productId != id) == Filter(sel, (s: Selection) => s.productId != id)
  {
    if sel == [] {
      assert [] + [x] == [x];
    } else {
      assert (sel + [x])[1..] == sel[1..] + [x];
      FilterDropsLast(sel[1..], x, id);
    }
  }

  /** Toggling a product that is not selected, twice, gives back the list. */
  lemma ToggleTwice(sel: seq<Selection>, p: Product)
    requires p.id !in SelectedIds(sel)
    ensures Toggled(Toggled(sel, p), p) == sel
  {
    forall s | s in sel ensures s.productId != p.id {
      var k :| 0 <= k < |sel| && sel[k] == s;
      assert SelectedIds(sel)[k] == s.productId;
    }
    FilterDropsLast(sel, Selection(p.id, "", p), p.id);
    FilterKeepsAll(sel, p.id);
  }

  /** updateNote: the entries for the product get the new note; the length,
      the order and every other entry stay as they were. */
  function NoteUpdated(sel: seq<Selection>, productId: int, note: string): (r: seq<Selection>)
    ensures |r| == |sel|
    ensures SelectedIds(r) == SelectedIds(sel)
    ensures forall k :: 0 <= k < |sel| && sel[k].productId != productId ==> r[k] == sel[k]
    ensures forall k :: 0 <= k < |sel| && sel[k].productId == productId ==> r[k] == sel[k].(note := note)
  {
    seq(|sel|, k requires 0 <= k < |sel| => if sel[k].productId == productId then sel[k].(note := note) else sel[k])
  }

  // ---------------------------------------------------------------------------
  // Submitting.

  function PayloadOf(s: Selection): PayloadItem {
    PayloadItem(s.productId, if s.note != "" then Some(s.note) else None)
  }

  /** handleSubmit: an empty selection is refused (an error toast, no request);
      otherwise the request carries one line per selection, in order, with
      empty notes left undefined. */
  function SubmitRequest(tableId: int, sel: seq<Selection>): (r: Option<AddRequest>)
    ensures r.None? <==> sel == []
    ensures r.Some? ==> r.value.tableId == tableId && |r.value.items| == |sel|
    ensures r.Some? ==> forall k :: 0 <= k < |sel| ==>
      r.value.items[k].productId == sel[k].productId &&
      (r.value.items[k].note.None? <==> sel[k].note == "") &&
      (r.value.items[k].note.Some? ==> r.value.items[k].note.value == sel[k].note)
  {
    if sel == [] then None
    else Some(AddRequest(tableId, seq(|sel|, k requires 0 <= k < |sel| => PayloadOf(sel[k]))))
  }

  // ---------------------------------------------------------------------------
  // The modal state.

  class ProductPicker {
    var selected: seq<Selection>
    var searchTerm: string
    var category: IdChoice
    var loading: bool

    ghost predicate Valid()
      reads this
    {
      UniqueIds(selected)
    }

    constructor()
      ensures Valid() && selected == [] && searchTerm == "" && category == All && !loading
    {
      selected := [];
      searchTerm := "";
      category := All;
      loading := false;
    }

    method ToggleProduct(p: Product)
      requires Valid()
      modifies this
      ensures Valid() && selected == Toggled(old(selected), p)
      ensures searchTerm == old(searchTerm) && category == old(category) && loading == old(loading)
    {
      ToggleKeepsUnique(selected, p);
      selected := Toggled(selected, p);
    }

    method UpdateNote(productId: int, note: string)
      requires Valid()
      modifies this
      ensures Valid() && selected == NoteUpdated(old(selected), productId, note)
      ensures searchTerm == old(searchTerm) && category == old(category) && loading == old(loading)
    {
      selected := NoteUpdated(selected, productId, note);
    }

    /** handleClose: ignored while a submit is in flight; otherwise the picker
        is reset and `closed` reports that the modal closes. */
    method HandleClose() returns (closed: bool)
      requires Valid()
      modifies this
      ensures Valid() && closed == !old(loading) && loading == old(loading)
      ensures old(loading) ==> selected == old(selected) && searchTerm == old(searchTerm) && category == old(category)
      ensures !old(loading) ==> selected == [] && searchTerm == "" && category == All
    {
      if !loading {
        selected := [];
        searchTerm := "";
        category := All;
        closed := true;
      } else {
        closed := false;
      }
    }

    /** The first half of handleSubmit: the request to send, if any; sending
        sets `loading`. */
    method HandleSubmit(tableId: int) returns (r: Option<AddRequest>)
      requires Valid()
      modifies this
      ensures Valid() && r == SubmitRequest(tableId, old(selected))
      ensures selected == old(selected) && searchTerm == old(searchTerm) && category == old(category)
      ensures loading == (old(loading) || r.Some?)
    {
      r := SubmitRequest(tableId, selected);
      if r.Some? {
        loading := true;
      }
    }

    /** The second half of handleSubmit, once the request has settled. On
        success the picker closes through the handleClose captured before the
        submit, when loading was still false, so it resets; in every case
        loading ends. */
    method FinishSubmit(success: bool)
      requires Valid()
      modifies this
      ensures Valid() && !loading
      ensures success ==> selected == [] && searchTerm == "" && category == All
      ensures !success ==> selected == old(selected) && searchTerm == old(searchTerm) && category == old(category)
    {
      if success {
        selected := [];
        searchTerm := "";
        category := All;
      }
      loading := false;
    }
  }
}
