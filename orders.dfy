/**
 * Order aggregation: resolving the payload's (item id, qty) entries
 * against the catalogue, the totals of a list of lines, and how adding the
 * lines to an order skips an item that is already linked.
 */
module Orders {
  import opened Wrappers
  import opened Models
  import opened Tax

  /** One entry of a payload's 'items' list: its 'id' key (if present) and its 'qty' entry. */
  datatype LineEntry = LineEntry(id: Option<ItemId>, qty: QtyField)

  /** The JSON body of create_order / update_order: 'buyer_id' and 'items', each possibly absent. */
  datatype OrderPayload = OrderPayload(buyerId: Option<UserId>, items: Option<seq<LineEntry>>)

  /** Lines together with the totals accumulated over them. */
  datatype Priced<L> = Priced(lines: seq<L>, totalAmount: real, totalTax: real, grandTotal: real)

  // ---------------------------------------------------------------------------
  // Resolving payload entries
  // ---------------------------------------------------------------------------

  /** The entry names an existing item and carries a 'qty' key. */
  predicate EntryResolves(items: map<ItemId, Item>, e: LineEntry) {
    e.id.Some? && e.id.value in items && !e.qty.Absent?
  }

  /** One loop iteration: index 'id', look the item up, then read the quantity. */
  function ResolveEntry(items: map<ItemId, Item>, e: LineEntry): (r: Result<OrderLine, Failure>)
    ensures r.Ok? <==> EntryResolves(items, e)
    ensures r.Ok? ==> r.value == OrderLine(e.id.value, GetQty(e.qty).value)
    ensures e.id.None? ==> r == Err(KeyError)
    ensures e.id.Some? && e.id.value !in items ==> r == Err(DoesNotExist)
    ensures e.id.Some? && e.id.value in items && e.qty.Absent? ==> r == Err(KeyError)
  {
    if e.id.None? then Err(KeyError)
    else if e.id.value !in items then Err(DoesNotExist)
    else
      match GetQty(e.qty)
      case Err(f) => Err(f)
      case Ok(q) => Ok(OrderLine(e.id.value, q))
  }

  /**
   * The entries resolved in order; the first entry that fails decides the
   * error, and a successful run yields one line per entry.
   */
  function Resolve(items: map<ItemId, Item>, entries: seq<LineEntry>): (r: Result<seq<OrderLine>, Failure>)
    ensures r.Ok? <==> forall k :: 0 <= k < |entries| ==> EntryResolves(items, entries[k])
    ensures r.Ok? ==> |r.value| == |entries|
    ensures r.Ok? ==> forall k :: 0 <= k < |entries| ==> ResolveEntry(items, entries[k]) == Ok(r.value[k])
    decreases |entries|
  {
    if entries == [] then Ok([])
    else
      var prefix := entries[..|entries| - 1];
      match Resolve(items, prefix)
      case Err(f) => Err(f)
      case Ok(lines) =>
        match ResolveEntry(items, entries[|entries| - 1])
        case Err(f) => Err(f)
        case Ok(l) =>
          assert forall k :: 0 <= k < |prefix| ==> entries[k] == prefix[k];
          Ok(lines + [l])
  }

  /** Resolving fails with the error of the first entry that does not resolve. */
  lemma {:induction false} ResolveFailsAtFirstBadEntry(items: map<ItemId, Item>, entries: seq<LineEntry>, k: int)
    requires 0 <= k < |entries|
    requires forall j :: 0 <= j < k ==> EntryResolves(items, entries[j])
    requires !EntryResolves(items, entries[k])
    ensures Resolve(items, entries) == Err(ResolveEntry(items, entries[k]).error)
    decreases |entries|
  {
    var prefix := entries[..|entries| - 1];
    if k == |entries| - 1 {
      assert forall j :: 0 <= j < |prefix| ==> prefix[j] == entries[j];
      assert Resolve(items, prefix).Ok?;
    } else {
      assert forall j :: 0 <= j <= k ==> prefix[j] == entries[j];
      ResolveFailsAtFirstBadEntry(items, prefix, k);
    }
  }

  // ---------------------------------------------------------------------------
  // Totals
  // ---------------------------------------------------------------------------

  /** Every line names a catalogue item. */
  predicate InCatalog(items: map<ItemId, Item>, lines: seq<OrderLine>) {
    forall k :: 0 <= k < |lines| ==> lines[k].item in items
  }

  /** The tax-exclusive total: the sum of price times quantity over the lines. */
  function Subtotal(items: map<ItemId, Item>, lines: seq<OrderLine>): real
    requires InCatalog(items, lines)
    decreases |lines|
  {
    if lines == [] then 0.0
    else
      var last := lines[|lines| - 1];
      Subtotal(items, lines[..|lines| - 1]) + LineAmount(items[last.item].price, last.qty)
  }

  /** The total tax: the sum of each line's tax percentage of its amount. */
  function TaxTotal(items: map<ItemId, Item>, lines: seq<OrderLine>): real
    requires InCatalog(items, lines)
    decreases |lines|
  {
    if lines == [] then 0.0
    else
      var last := lines[|lines| - 1];
      var it := items[last.item];
      TaxTotal(items, lines[..|lines| - 1]) + LineTax(it.taxPercentage, it.price, last.qty)
  }

  /** Totals of a concatenation are the sums of the parts' totals. */
  lemma {:induction false} TotalsAppend(items: map<ItemId, Item>, a: seq<OrderLine>, b: seq<OrderLine>)
    requires InCatalog(items, a) && InCatalog(items, b)
    ensures InCatalog(items, a + b)
    ensures Subtotal(items, a + b) == Subtotal(items, a) + Subtotal(items, b)
    ensures TaxTotal(items, a + b) == TaxTotal(items, a) + TaxTotal(items, b)
    decreases |b|
  {
    if b == [] {
      assert a + b == a;
    } else {
      var b' := b[..|b| - 1];
      assert (a + b)[..|a + b| - 1] == a + b';
      assert (a + b)[|a + b| - 1] == b[|b| - 1];
      TotalsAppend(items, a, b');
    }
  }

  /** A single line's totals. */
  lemma SingleLineTotals(items: map<ItemId, Item>, l: OrderLine)
    requires l.item in items
    ensures InCatalog(items, [l])
    ensures Subtotal(items, [l]) == LineAmount(items[l.item].price, l.qty)
    ensures TaxTotal(items, [l]) == LineTax(items[l.item].taxPercentage, items[l.item].price, l.qty)
  {
    assert [l][..0] == [];
  }

  /** With non-negative prices, quantities and tax rates, no total is negative. */
  lemma {:induction false} TotalsNonNegative(items: map<ItemId, Item>, lines: seq<OrderLine>)
    requires InCatalog(items, lines)
    requires forall k :: 0 <= k < |lines| ==> lines[k].qty >= 0
    requires forall i :: i in items ==> items[i].price >= 0.0 && items[i].taxPercentage >= 0.0
    ensures Subtotal(items, lines) >= 0.0 && TaxTotal(items, lines) >= 0.0
    decreases |lines|
  {
    if lines != [] {
      var last := lines[|lines| - 1];
      var it := items[last.item];
      TotalsNonNegative(items, lines[..|lines| - 1]);
      assert LineAmount(it.price, last.qty) >= 0.0 by {
        assert it.price >= 0.0 && last.qty as real >= 0.0;
      }
      assert LineTax(it.taxPercentage, it.price, last.qty) >= 0.0 by {
        assert it.taxPercentage / 100.0 >= 0.0;
        assert (it.taxPercentage / 100.0) * it.price >= 0.0;
      }
    }
  }

  /**
   * The loop of create_order and update_order: look up every entry, fix its
   * quantity, and accumulate the amount and the tax; the grand total is
   * their sum.
   */
  method ResolveItems(items: map<ItemId, Item>, entries: seq<LineEntry>) returns (r: Result<Priced<OrderLine>, Failure>)
    ensures Resolve(items, entries).Err? ==> r == Err(Resolve(items, entries).error)
    ensures Resolve(items, entries).Ok? ==>
              && r.Ok? && r.value.lines == Resolve(items, entries).value
              && InCatalog(items, r.value.lines)
              && r.value.totalAmount == Subtotal(items, r.value.lines)
              && r.value.totalTax == TaxTotal(items, r.value.lines)
              && r.value.grandTotal == r.value.totalAmount + r.value.totalTax
  {
    var lines: seq<OrderLine> := [];
    var totalAmount := 0.0;
    var totalTax := 0.0;
    var i := 0;
    while i < |entries|
      invariant 0 <= i <= |entries|
      invariant Resolve(items, entries[..i]) == Ok(lines)
      invariant forall j :: 0 <= j < i ==> EntryResolves(items, entries[j])
      invariant InCatalog(items, lines)
      invariant totalAmount == Subtotal(items, lines)
      invariant totalTax == TaxTotal(items, lines)
    {
      var e := entries[i];
      assert entries[..i + 1][..i] == entries[..i];
      if e.id.None? {
        ResolveFailsAtFirstBadEntry(items, entries, i);
        return Err(KeyError);
      }
      if e.id.value !in items {
        ResolveFailsAtFirstBadEntry(items, entries, i);
        return Err(DoesNotExist);
      }
      var item := items[e.id.value];
      var q := GetQty(e.qty);
      if q.Err? {
        ResolveFailsAtFirstBadEntry(items, entries, i);
        return Err(q.error);
      }
      var qty := q.value;
      totalAmount := totalAmount + LineAmount(item.price, qty);
      totalTax := totalTax + LineTax(item.taxPercentage, item.price, qty);
      assert (lines + [OrderLine(e.id.value, qty)])[..|lines|] == lines;
      lines := lines + [OrderLine(e.id.value, qty)];
      i := i + 1;
    }
    assert entries[..i] == entries;
    r := Ok(Priced(lines, totalAmount, totalTax, totalAmount + totalTax));
  }

  // ---------------------------------------------------------------------------
  // Linking lines to an order
  // ---------------------------------------------------------------------------

  /** Some line already links the item. */
  predicate HasItem(lines: seq<OrderLine>, id: ItemId) {
    exists k :: 0 <= k < |lines| && lines[k].item == id
  }

  /** No item is linked twice. */
  predicate DistinctItems(lines: seq<OrderLine>) {
    forall j, k :: 0 <= j < k < |lines| ==> lines[j].item != lines[k].item
  }

  /**
   * Adding one item to an order's item set: an item that is already linked
   * is skipped, so its first quantity stays.
   */
  function AddLine(lines: seq<OrderLine>, l: OrderLine): seq<OrderLine> {
    if HasItem(lines, l.item) then lines else lines + [l]
  }

  /**
   * The lines an order ends up with when the given lines are added one by
   * one to an empty item set: the first line of every item, in order.
   */
  function Linked(lines: seq<OrderLine>): (r: seq<OrderLine>)
    ensures DistinctItems(r)
    ensures forall k :: 0 <= k < |r| ==> r[k] in lines
    decreases |lines|
  {
    if lines == [] then []
    else
      var prefix := lines[..|lines| - 1];
      var l := lines[|lines| - 1];
      var acc := Linked(prefix);
      assert forall k :: 0 <= k < |acc| ==> acc[k] in lines by {
        forall k | 0 <= k < |acc| ensures acc[k] in lines {
          var j :| 0 <= j < |prefix| && prefix[j] == acc[k];
          assert lines[j] == acc[k];
        }
      }
      AddLine(acc, l)
  }

  /** Linked lines name catalogue items when the given lines do. */
  lemma LinkedInCatalog(items: map<ItemId, Item>, lines: seq<OrderLine>)
    requires InCatalog(items, lines)
    ensures InCatalog(items, Linked(lines))
  {
    var r := Linked(lines);
    forall k | 0 <= k < |r| ensures r[k].item in items {
      var j :| 0 <= j < |lines| && lines[j] == r[k];
    }
  }

  /** Every item of the given lines is linked. */
  lemma {:induction false} LinkedCovers(lines: seq<OrderLine>)
    ensures forall k :: 0 <= k < |lines| ==> HasItem(Linked(lines), lines[k].item)
    decreases |lines|
  {
    if lines != [] {
      var prefix := lines[..|lines| - 1];
      var l := lines[|lines| - 1];
      var acc := Linked(prefix);
      LinkedCovers(prefix);
      forall k | 0 <= k < |lines| ensures HasItem(Linked(lines), lines[k].item) {
        if k < |prefix| {
          assert lines[k] == prefix[k];
          var j :| 0 <= j < |acc| && acc[j].item == lines[k].item;
          assert AddLine(acc, l)[j] == acc[j];
        } else if !HasItem(acc, l.item) {
          assert AddLine(acc, l)[|acc|] == l;
        }
      }
    }
  }

  /** Lines whose items are distinct are linked exactly as given. */
  lemma {:induction false} LinkedDistinct(lines: seq<OrderLine>)
    requires DistinctItems(lines)
    ensures Linked(lines) == lines
    decreases |lines|
  {
    if lines != [] {
      var prefix := lines[..|lines| - 1];
      var l := lines[|lines| - 1];
      assert DistinctItems(prefix) by {
        forall j, k | 0 <= j < k < |prefix| ensures prefix[j].item != prefix[k].item {
          assert prefix[j] == lines[j] && prefix[k] == lines[k];
        }
      }
      LinkedDistinct(prefix);
      assert !HasItem(prefix, l.item) by {
        forall j | 0 <= j < |prefix| ensures prefix[j].item != l.item {
          assert prefix[j] == lines[j];
        }
      }
      calc {
        Linked(lines);
        AddLine(Linked(prefix), l);
        AddLine(prefix, l);
        prefix + [l];
        lines;
      }
    }
  }

  /** Lines with distinct items keep both totals when linked. */
  lemma LinkedPreservesTotalsWhenDistinct(items: map<ItemId, Item>, lines: seq<OrderLine>)
    requires InCatalog(items, lines) && DistinctItems(lines)
    ensures InCatalog(items, Linked(lines))
    ensures Subtotal(items, Linked(lines)) == Subtotal(items, lines)
    ensures TaxTotal(items, Linked(lines)) == TaxTotal(items, lines)
  {
    LinkedDistinct(lines);
  }

  /** The first line of every item is linked, whatever lines repeat that item later. */
  lemma {:induction false} LinkedKeepsFirst(lines: seq<OrderLine>, k: int)
    requires 0 <= k < |lines|
    requires forall j :: 0 <= j < k ==> lines[j].item != lines[k].item
    ensures lines[k] in Linked(lines)
    decreases |lines|
  {
    var prefix := lines[..|lines| - 1];
    var l := lines[|lines| - 1];
    var acc := Linked(prefix);
    if k < |prefix| {
      assert prefix[k] == lines[k];
      assert forall j :: 0 <= j < k ==> prefix[j] == lines[j];
      LinkedKeepsFirst(prefix, k);
      var i :| 0 <= i < |acc| && acc[i] == lines[k];
      assert AddLine(acc, l)[i] == acc[i];
    } else {
      assert l == lines[k];
      forall i | 0 <= i < |acc| ensures acc[i].item != l.item {
        var j :| 0 <= j < |prefix| && prefix[j] == acc[i];
        assert prefix[j] == lines[j];
      }
      assert AddLine(acc, l) == acc + [l];
      assert AddLine(acc, l)[|acc|] == l;
    }
  }

  /**
   * A payload naming the same item twice: both entries are counted in the
   * order's totals, but only the first becomes a line.
   */
  lemma RepeatedItemCountedOnceAsLine()
    ensures var items := map[7 := Item("pen", 10.0, 0.0, None)];
            var lines := [OrderLine(7, 1), OrderLine(7, 2)];
            && InCatalog(items, lines)
            && Linked(lines) == [OrderLine(7, 1)]
            && Subtotal(items, lines) == 30.0
            && Subtotal(items, Linked(lines)) == 10.0
  {
    var items := map[7 := Item("pen", 10.0, 0.0, None)];
    var lines := [OrderLine(7, 1), OrderLine(7, 2)];
    assert lines[..1] == [OrderLine(7, 1)];
    assert [OrderLine(7, 1)][..0] == [];
    assert Linked([OrderLine(7, 1)]) == [OrderLine(7, 1)] by {
      assert Linked([]) == [];
      assert !HasItem([], 7);
    }
    assert HasItem([OrderLine(7, 1)], 7) by {
      assert [OrderLine(7, 1)][0].item == 7;
    }
    SingleLineTotals(items, OrderLine(7, 1));
  }
}
