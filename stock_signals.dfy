/**
 * Stock bookkeeping for invoice lines (backend/inventory/stock_signals.py):
 * before a line is saved its stored state is captured, after the save the
 * product stock moves by a case analysis over the old and new state, and a
 * physical deletion of an active line gives its quantity back. Stock lives
 * in a map from product id to quantity; an update of a product id that is
 * not in the map changes nothing, as a filtered update of no rows does.
 */
module StockSignals {
  import opened Common

  /** What the handlers read of a line: its product (if any), quantity and deletion mark. */
  datatype ItemState = ItemState(product: Option<nat>, quantity: real, isDeleted: bool)

  /** The state recorded for a line with no stored row: quantity 0, no product, not deleted. */
  const Fresh := ItemState(None, 0.0, false)

  /** How much of product `p` a line holds: its quantity when it is active and on `p`. */
  function Contribution(x: ItemState, p: nat): real
  {
    if x.product == Some(p) && !x.isDeleted then x.quantity else 0.0
  }

  /** The stock held by all stored lines for product `p`; `None` is a physically deleted row. */
  function Committed(items: seq<Option<ItemState>>, p: nat): real
  {
    if |items| == 0 then 0.0
    else Committed(items[..|items| - 1], p) +
         (if items[|items| - 1].Some? then Contribution(items[|items| - 1].value, p) else 0.0)
  }

  /** `Product.objects.filter(pk=p).update(stock_quantity=F('stock_quantity') + delta)`. */
  function Adjust(stock: map<nat, real>, p: Option<nat>, delta: real): (r: map<nat, real>)
    ensures r.Keys == stock.Keys
    ensures forall q :: q in stock ==> r[q] == if p == Some(q) then stock[q] + delta else stock[q]
  {
    if p.Some? && p.value in stock then stock[p.value := stock[p.value] + delta] else stock
  }

  /**
   * `capture_old_state`: the stored row's state when the line has a key and
   * a stored row, the fresh state otherwise.
   */
  function CapturedOld(stored: seq<Option<ItemState>>, pk: Option<nat>): (o: ItemState)
    ensures pk.Some? && pk.value < |stored| && stored[pk.value].Some? ==> o == stored[pk.value].value
    ensures !(pk.Some? && pk.value < |stored| && stored[pk.value].Some?) ==> o == Fresh
  {
    if pk.Some? && pk.value < |stored| && stored[pk.value].Some? then stored[pk.value].value else Fresh
  }

  /**
   * `update_stock_on_save`: creation, soft deletion, restoration and a plain
   * update (product swap, or a quantity change on the same product). Every
   * case moves each product's stock by what the line held before minus what
   * it holds now.
   */
  function StockAfterSave(stock: map<nat, real>, o: ItemState, n: ItemState, created: bool): (r: map<nat, real>)
    ensures r.Keys == stock.Keys
    ensures created ==> forall p :: p in stock ==> r[p] == stock[p] - Contribution(n, p)
    ensures !created ==> forall p :: p in stock ==> r[p] == stock[p] + Contribution(o, p) - Contribution(n, p)
  {
    if created then
      if !n.isDeleted then Adjust(stock, n.product, -n.quantity) else stock
    else if n.isDeleted && !o.isDeleted then
      Adjust(stock, o.product, o.quantity)
    else if !n.isDeleted && o.isDeleted then
      Adjust(stock, n.product, -n.quantity)
    else if !n.isDeleted && !o.isDeleted then
      if o.product != n.product then Adjust(Adjust(stock, o.product, o.quantity), n.product, -n.quantity)
      else if n.product.Some? && o.quantity != n.quantity then Adjust(stock, n.product, -(n.quantity - o.quantity))
      else stock
    else stock
  }

  /** `restore_stock_on_hard_delete`: an active line with a product gives its quantity back. */
  function StockAfterHardDelete(stock: map<nat, real>, x: ItemState): (r: map<nat, real>)
    ensures r.Keys == stock.Keys
    ensures forall p :: p in stock ==> r[p] == stock[p] + Contribution(x, p)
  {
    if !x.isDeleted && x.product.Some? then Adjust(stock, x.product, x.quantity) else stock
  }

  lemma CommittedAppend(items: seq<Option<ItemState>>, x: Option<ItemState>, p: nat)
    ensures Committed(items + [x], p) ==
            Committed(items, p) + (if x.Some? then Contribution(x.value, p) else 0.0)
  {
    assert (items + [x])[..|items|] == items;
  }

  /** Replacing one stored line changes the committed total by the difference of the two lines. */
  lemma {:induction false} CommittedUpdate(items: seq<Option<ItemState>>, k: nat, x: Option<ItemState>, p: nat)
    requires k < |items|
    ensures Committed(items[k := x], p) ==
            Committed(items, p) - (if items[k].Some? then Contribution(items[k].value, p) else 0.0)
                                + (if x.Some? then Contribution(x.value, p) else 0.0)
  {
    var n := |items|;
    if k == n - 1 {
      assert items[k := x][..n - 1] == items[..n - 1];
    } else {
      assert items[k := x][..n - 1] == items[..n - 1][k := x];
      CommittedUpdate(items[..n - 1], k, x, p);
    }
  }

  /**
   * Products and stored lines together. The conservation invariant: for
   * every product, current stock plus what the active lines hold equals the
   * stock it started with.
   */
  class Inventory {
    var stock: map<nat, real>
    var items: seq<Option<ItemState>>
    ghost var initial: map<nat, real>

    ghost predicate Valid()
      reads this
    {
      stock.Keys == initial.Keys &&
      forall p :: p in stock ==> stock[p] + Committed(items, p) == initial[p]
    }

    constructor (stock: map<nat, real>)
      ensures Valid()
      ensures this.stock == stock && items == [] && initial == stock
    {
      this.stock := stock;
      items := [];
      initial := stock;
    }

    /** A new line is created: it had no stored row, so its old state is fresh. */
    method Create(st: ItemState) returns (pk: nat)
      requires Valid()
      modifies this`stock, this`items
      ensures Valid()
      ensures pk == |old(items)| && items == old(items) + [Some(st)]
      ensures stock == StockAfterSave(old(stock), CapturedOld(old(items), None), st, true)
    {
      pk := |items|;
      var o := CapturedOld(items, None);
      forall p | p in stock
        ensures Committed(items + [Some(st)], p) == Committed(items, p) + Contribution(st, p)
      {
        CommittedAppend(items, Some(st), p);
      }
      stock := StockAfterSave(stock, o, st, true);
      items := items + [Some(st)];
    }

    /** A stored line is saved with new state `st`. */
    method Save(pk: nat, st: ItemState)
      requires Valid() && pk < |items| && items[pk].Some?
      modifies this`stock, this`items
      ensures Valid()
      ensures items == old(items)[pk := Some(st)]
      ensures stock == StockAfterSave(old(stock), CapturedOld(old(items), Some(pk)), st, false)
    {
      var o := CapturedOld(items, Some(pk));
      forall p | p in stock
        ensures Committed(items[pk := Some(st)], p) == Committed(items, p) - Contribution(o, p) + Contribution(st, p)
      {
        CommittedUpdate(items, pk, Some(st), p);
      }
      stock := StockAfterSave(stock, o, st, false);
      items := items[pk := Some(st)];
    }

    /** A stored line is physically deleted. */
    method HardDelete(pk: nat)
      requires Valid() && pk < |items| && items[pk].Some?
      modifies this`stock, this`items
      ensures Valid()
      ensures items == old(items)[pk := None]
      ensures stock == StockAfterHardDelete(old(stock), old(items[pk].value))
    {
      var x := items[pk].value;
      forall p | p in stock
        ensures Committed(items[pk := None], p) == Committed(items, p) - Contribution(x, p)
      {
        CommittedUpdate(items, pk, None, p);
      }
      stock := StockAfterHardDelete(stock, x);
      items := items[pk := None];
    }
  }

  // ---------------------------------------------------------------------------
  // The scenarios of backend/invoices/tests.py, product 1 starting at 10

  /** Creating a line of 3 leaves 7. */
  lemma CreateReducesStock()
    ensures StockAfterSave(map[1 := 10.0], Fresh, ItemState(Some(1), 3.0, false), true) == map[1 := 7.0]
  {
  }

  /** A line of 2 leaves 8; raising it to 5 leaves 5; lowering it to 1 leaves 9. */
  lemma UpdateAdjustsStock()
    ensures StockAfterSave(map[1 := 10.0], Fresh, ItemState(Some(1), 2.0, false), true) == map[1 := 8.0]
    ensures StockAfterSave(map[1 := 8.0], ItemState(Some(1), 2.0, false), ItemState(Some(1), 5.0, false), false) == map[1 := 5.0]
    ensures StockAfterSave(map[1 := 5.0], ItemState(Some(1), 5.0, false), ItemState(Some(1), 1.0, false), false) == map[1 := 9.0]
  {
  }

  /** A line of 4 leaves 6, and deleting it brings the stock back to 10. */
  lemma DeleteRestoresStock()
    ensures StockAfterSave(map[1 := 10.0], Fresh, ItemState(Some(1), 4.0, false), true) == map[1 := 6.0]
    ensures StockAfterHardDelete(map[1 := 6.0], ItemState(Some(1), 4.0, false)) == map[1 := 10.0]
  {
  }

  /** Soft deleting then restoring an unchanged line is net zero for every product. */
  lemma SoftDeleteThenRestoreIsNeutral(stock: map<nat, real>, x: ItemState)
    requires !x.isDeleted
    ensures StockAfterSave(StockAfterSave(stock, x, x.(isDeleted := true), false), x.(isDeleted := true), x, false) == stock
  {
    var mid := StockAfterSave(stock, x, x.(isDeleted := true), false);
    var r := StockAfterSave(mid, x.(isDeleted := true), x, false);
    assert forall p :: p in stock ==> r[p] == stock[p];
  }
}
