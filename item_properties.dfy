/**
 * What the item-level edit and delete guarantee, and what they do not: the
 * owning quotation's stored grand total is left as it was, so it agrees with
 * its items afterwards only when the line total did not change.
 */
module QuotationItemProperties {
  import opened Wrappers
  import opened Http
  import opened Money
  import opened Seqs
  import opened Models
  import opened Requests
  import opened QuotationItemController

  /** An edited item satisfies the line-total rule whenever it did before. */
  lemma PatchedKeepsWellFormed(it: Item, p: ItemFields)
    requires WellFormedItem(it) && PatchRulesOk(p)
    ensures WellFormedItem(Patched(it, p))
  {
  }

  /**
   * The edit's rules set against the rules a line meets when it is created.
   * A line that `store` accepts passes the edit's rules exactly when its
   * description is not null: creating takes `nullable|string`, editing only
   * `sometimes|string`. An edit that sends name, quantity and price passes
   * the create rules exactly when the name is not blank: creating takes
   * `required`, editing only `string`.
   */
  lemma PatchRulesAgainstLineRules(f: ItemFields)
    ensures LineRulesOk(f) ==> (PatchRulesOk(f) <==> !f.description.Null?)
    ensures PatchRulesOk(f) && f.productName.Given? && f.quantity.Given? && f.unitPrice.Given?
        ==> (LineRulesOk(f) <==> !Blank(f.productName.value))
  {
  }

  /**
   * `update` answers 404 for a missing item and 422 for a patch that breaks
   * a rule (among them a quantity below 1 or a negative unit price); in both
   * cases nothing changes.
   */
  lemma ItemUpdateRejects(t: Tables, iid: nat, p: ItemFields)
    ensures UpdateEffect(t, iid, p).0 == NotFound <==> forall i :: 0 <= i < |t.items| ==> t.items[i].id != iid
    ensures UpdateEffect(t, iid, p).0 == Unprocessable
        <==> (exists i :: 0 <= i < |t.items| && t.items[i].id == iid) && !PatchRulesOk(p)
    ensures (p.quantity.Given? && p.quantity.value < 1) || (p.unitPrice.Given? && p.unitPrice.value < 0)
        ==> UpdateEffect(t, iid, p).0 != Ok
    ensures UpdateEffect(t, iid, p).0 != Ok ==> UpdateEffect(t, iid, p).1 == t
  {
    if IndexOf(t.items, ItemKey, iid).Some? {
      var k := Found(t.items, ItemKey, iid);
    }
  }

  /**
   * A committed `update` rewrites that one item as the patch says and leaves
   * every other row of every table, the quotations' grand totals included,
   * as it was.
   */
  lemma ItemUpdateTouchesOneRow(t: Tables, iid: nat, p: ItemFields) returns (k: nat)
    requires UpdateEffect(t, iid, p).0 == Ok
    ensures var t' := UpdateEffect(t, iid, p).1;
      && k < |t.items| && t.items[k].id == iid
      && |t'.items| == |t.items|
      && t'.items[k] == Patched(t.items[k], p)
      && (forall j :: 0 <= j < |t.items| && j != k ==> t'.items[j] == t.items[j])
      && t'.quotations == t.quotations && t'.customers == t.customers
  {
    k := Found(t.items, ItemKey, iid);
  }

  /** `update` keeps the tables' integrity. */
  lemma ItemUpdatePreservesValid(t: Tables, iid: nat, p: ItemFields)
    requires Valid(t)
    ensures Valid(UpdateEffect(t, iid, p).1)
  {
    if UpdateEffect(t, iid, p).0 == Ok {
      var t' := UpdateEffect(t, iid, p).1;
      var k := ItemUpdateTouchesOneRow(t, iid, p);
      KeysBelowUpdate(t.items, k, t'.items[k], ItemKey, t.nextItemId);
      PatchedKeepsWellFormed(t.items[k], p);
      forall i | 0 <= i < |t'.items|
        ensures WellFormedItem(t'.items[i]) && t'.items[i].quotationId in QuotationIds(t'.quotations)
      {
        if i != k {
          assert t'.items[i] == t.items[i];
        }
      }
    }
  }

  /**
   * After a committed `update` the sum of the owning quotation's item totals
   * moves by the change in the line total, while its stored grand total
   * stays; every other quotation's sum stays. So, starting from consistent
   * tables, they are still consistent exactly when the line total did not
   * change.
   */
  lemma ItemUpdateLeavesGrandTotal(t: Tables, iid: nat, p: ItemFields)
    requires Valid(t) && UpdateEffect(t, iid, p).0 == Ok
    ensures var t' := UpdateEffect(t, iid, p).1;
      var k := IndexOf(t.items, ItemKey, iid).value;
      var before := t.items[k];
      var after := t'.items[k];
      && TotalOf(ItemsOf(t'.items, before.quotationId))
         == TotalOf(ItemsOf(t.items, before.quotationId)) - before.totalPrice + after.totalPrice
      && (forall q :: q != before.quotationId ==> TotalOf(ItemsOf(t'.items, q)) == TotalOf(ItemsOf(t.items, q)))
      && (TotalsConsistent(t) ==> (TotalsConsistent(t') <==> after.totalPrice == before.totalPrice))
  {
    match IndexOf(t.items, ItemKey, iid)
    case Some(k) =>
      var before := t.items[k];
      var after := Patched(before, p);
      ReplacedItemSums(t.items, k, after);
      if TotalsConsistent(t) {
        ConsistentAfterOneOwnerMoves(t, UpdateEffect(t, iid, p).1, before.quotationId,
                                     after.totalPrice - before.totalPrice);
      }
  }

  /**
   * Replacing one item by one with the same owner moves that owner's item sum
   * by the change in line total and leaves every other quotation's sum.
   */
  lemma ReplacedItemSums(items: seq<Item>, k: nat, x: Item)
    requires k < |items| && x.quotationId == items[k].quotationId
    ensures forall q :: (TotalOf(ItemsOf(items[k := x], q))
        == TotalOf(ItemsOf(items, q)) + (if q == x.quotationId then x.totalPrice - items[k].totalPrice else 0))
  {
    forall q ensures TotalOf(ItemsOf(items[k := x], q))
        == TotalOf(ItemsOf(items, q)) + (if q == x.quotationId then x.totalPrice - items[k].totalPrice else 0)
    {
      SumByFilterUpdate(items, k, x, OwnedBy(q), ItemTotal);
    }
  }

  /** Removing one item takes its line total out of its owner's item sum and leaves every other sum. */
  lemma RemovedItemSums(items: seq<Item>, k: nat)
    requires k < |items|
    ensures forall q :: (TotalOf(ItemsOf(items[..k] + items[k + 1..], q))
        == TotalOf(ItemsOf(items, q)) - (if q == items[k].quotationId then items[k].totalPrice else 0))
  {
    forall q ensures TotalOf(ItemsOf(items[..k] + items[k + 1..], q))
        == TotalOf(ItemsOf(items, q)) - (if q == items[k].quotationId then items[k].totalPrice else 0)
    {
      SumByFilterRemove(items, k, OwnedBy(q), ItemTotal);
    }
  }

  /**
   * When only the item table changed and only the sum of one existing
   * quotation moved, by `d`, consistent tables stay consistent exactly when
   * `d` is 0: that quotation's stored grand total was not touched.
   */
  lemma ConsistentAfterOneOwnerMoves(t: Tables, t': Tables, owner: nat, d: int)
    requires TotalsConsistent(t) && t'.quotations == t.quotations && owner in QuotationIds(t.quotations)
    requires TotalOf(ItemsOf(t'.items, owner)) == TotalOf(ItemsOf(t.items, owner)) + d
    requires forall q :: q != owner ==> TotalOf(ItemsOf(t'.items, q)) == TotalOf(ItemsOf(t.items, q))
    ensures TotalsConsistent(t') <==> d == 0
  {
    var m :| 0 <= m < |t.quotations| && t.quotations[m].id == owner;
    if TotalsConsistent(t') {
      assert t'.quotations[m].grandTotal == TotalOf(ItemsOf(t'.items, owner));
    }
    if d == 0 {
      forall j | 0 <= j < |t'.quotations|
        ensures t'.quotations[j].grandTotal == TotalOf(ItemsOf(t'.items, t'.quotations[j].id))
      {
        assert t'.quotations[j] == t.quotations[j];
      }
    }
  }

  /** A committed `destroy`: the position of the item it removed. */
  lemma ItemDestroyCommitted(t: Tables, iid: nat) returns (k: nat)
    requires DestroyEffect(t, iid).0 == Ok
    ensures k < |t.items| && t.items[k].id == iid
    ensures DestroyEffect(t, iid).1 == t.(items := t.items[..k] + t.items[k + 1..])
  {
    k := Found(t.items, ItemKey, iid);
  }

  /**
   * `destroy` answers 404 for a missing item, changing nothing; otherwise it
   * removes exactly that one item and leaves every other row of every table.
   */
  lemma ItemDestroyRemovesOne(t: Tables, iid: nat)
    requires Valid(t)
    ensures DestroyEffect(t, iid).0 == NotFound <==> forall i :: 0 <= i < |t.items| ==> t.items[i].id != iid
    ensures DestroyEffect(t, iid).0 == NotFound ==> DestroyEffect(t, iid).1 == t
    ensures DestroyEffect(t, iid).0 == Ok ==>
      var t' := DestroyEffect(t, iid).1;
      && |t'.items| == |t.items| - 1
      && (forall x :: x in t.items ==> (x in t'.items <==> x.id != iid))
      && (forall x :: x in t'.items ==> x in t.items)
      && t'.quotations == t.quotations && t'.customers == t.customers
  {
    if DestroyEffect(t, iid).0 == Ok {
      var t' := DestroyEffect(t, iid).1;
      var k := ItemDestroyCommitted(t, iid);
      forall x | x in t.items || x in t'.items
        ensures x in t'.items ==> x in t.items
        ensures x in t.items ==> (x in t'.items <==> x.id != iid)
      {
        RemoveKeepsOthers(t.items, k, ItemKey, t.nextItemId, x);
      }
    } else {
      if IndexOf(t.items, ItemKey, iid).Some? {
        var k := Found(t.items, ItemKey, iid);
      }
    }
  }

  /** `destroy` keeps the tables' integrity. */
  lemma ItemDestroyPreservesValid(t: Tables, iid: nat)
    requires Valid(t)
    ensures Valid(DestroyEffect(t, iid).1)
  {
    match IndexOf(t.items, ItemKey, iid)
    case None =>
    case Some(k) => RemovedItemValid(t, k);
  }

  /** Removing one item row keeps the tables' integrity. */
  lemma RemovedItemValid(t: Tables, k: nat)
    requires Valid(t) && k < |t.items|
    ensures Valid(t.(items := t.items[..k] + t.items[k + 1..]))
  {
    var items := t.items[..k] + t.items[k + 1..];
    KeysBelowRemove(t.items, k, ItemKey, t.nextItemId);
    forall i | 0 <= i < |items|
      ensures WellFormedItem(items[i]) && items[i].quotationId in QuotationIds(t.quotations)
    {
      var i0 := if i < k then i else i + 1;
      assert items[i] == t.items[i0];
    }
  }

  /**
   * After a committed `destroy` the owning quotation's item sum drops by the
   * removed line total while its stored grand total stays. Starting from
   * consistent tables, they are still consistent exactly when that line total
   * was 0.
   */
  lemma ItemDestroyLeavesGrandTotal(t: Tables, iid: nat)
    requires Valid(t) && DestroyEffect(t, iid).0 == Ok
    ensures var t' := DestroyEffect(t, iid).1;
      var gone := t.items[IndexOf(t.items, ItemKey, iid).value];
      && TotalOf(ItemsOf(t'.items, gone.quotationId)) == TotalOf(ItemsOf(t.items, gone.quotationId)) - gone.totalPrice
      && (forall q :: q != gone.quotationId ==> TotalOf(ItemsOf(t'.items, q)) == TotalOf(ItemsOf(t.items, q)))
      && (TotalsConsistent(t) ==> (TotalsConsistent(t') <==> gone.totalPrice == 0))
  {
    var k := ItemDestroyCommitted(t, iid);
    RemovedItemGrandTotals(t, k);
  }

  /** `ItemDestroyLeavesGrandTotal` for the item at position `k`. */
  lemma RemovedItemGrandTotals(t: Tables, k: nat)
    requires k < |t.items| && t.items[k].quotationId in QuotationIds(t.quotations)
    ensures var t' := t.(items := t.items[..k] + t.items[k + 1..]);
      var gone := t.items[k];
      && TotalOf(ItemsOf(t'.items, gone.quotationId)) == TotalOf(ItemsOf(t.items, gone.quotationId)) - gone.totalPrice
      && (forall q :: q != gone.quotationId ==> TotalOf(ItemsOf(t'.items, q)) == TotalOf(ItemsOf(t.items, q)))
      && (TotalsConsistent(t) ==> (TotalsConsistent(t') <==> gone.totalPrice == 0))
  {
    var gone := t.items[k];
    RemovedItemSums(t.items, k);
    if TotalsConsistent(t) {
      ConsistentAfterOneOwnerMoves(t, t.(items := t.items[..k] + t.items[k + 1..]), gone.quotationId, -gone.totalPrice);
    }
  }

  /** One quotation holding two units at 10.00, with a grand total of 20.00. */
  const DeskQuote := Tables([], [Quotation(1, 1, 0, 2000)], [Item(1, 1, "Desk", None, 2, 100000, 2000)], 1, 2, 2)

  /** The edit that changes the desk's quantity to 3. */
  const ThreeDesks := ItemFields(Missing, Missing, Given(3), Missing)

  lemma DeskQuoteValid()
    ensures Valid(DeskQuote)
  {
    var t := DeskQuote;
    assert WellFormedItem(t.items[0]) by {
      assert LineTotal(2, 100000) == 2000;
    }
    assert 1 in QuotationIds(t.quotations) by {
      assert t.quotations[0].id == 1;
    }
  }

  lemma DeskQuoteConsistent()
    ensures TotalsConsistent(DeskQuote)
  {
    var it := DeskQuote.items[0];
    OneRow(it, OwnedBy(1), ItemTotal);
    assert DeskQuote.items == [it];
  }

  lemma ThreeDesksOutcome()
    ensures UpdateEffect(DeskQuote, 1, ThreeDesks)
      == (Ok, DeskQuote.(items := [Item(1, 1, "Desk", None, 3, 100000, 3000)]))
  {
    var it := DeskQuote.items[0];
    assert IndexOf(DeskQuote.items, ItemKey, 1) == Some(0);
    assert PatchRulesOk(ThreeDesks);
    assert Reprices(ThreeDesks);
    assert LineTotal(3, 100000) == 3000;
    var it' := Patched(it, ThreeDesks);
    assert it' == Item(1, 1, "Desk", None, 3, 100000, 3000);
    assert DeskQuote.items[0 := it'] == [it'];
  }

  /**
   * A concrete drift: changing the desk's quantity to 3 makes its line total
   * 30.00 while the quotation's grand total stays 20.00.
   */
  lemma ItemEditDriftExample()
    ensures Valid(DeskQuote) && TotalsConsistent(DeskQuote)
    ensures UpdateEffect(DeskQuote, 1, ThreeDesks).0 == Ok
    ensures UpdateEffect(DeskQuote, 1, ThreeDesks).1.items[0].totalPrice == 3000
    ensures UpdateEffect(DeskQuote, 1, ThreeDesks).1.quotations[0].grandTotal == 2000
    ensures !TotalsConsistent(UpdateEffect(DeskQuote, 1, ThreeDesks).1)
  {
    DeskQuoteValid();
    DeskQuoteConsistent();
    ThreeDesksOutcome();
    var it' := Item(1, 1, "Desk", None, 3, 100000, 3000);
    OneRow(it', OwnedBy(1), ItemTotal);
    assert TotalOf(ItemsOf([it'], 1)) == 3000;
  }
}
