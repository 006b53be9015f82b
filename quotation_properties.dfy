/**
 * What QuotationController promises: line totals, one row per submitted item
 * in order, the grand total, all-or-nothing writes, full replace on update,
 * the cascade on delete, and that these keep the tables' integrity and the
 * aggregate invariant.
 */
module QuotationProperties {
  import opened Wrappers
  import opened Http
  import opened Money
  import opened Seqs
  import opened Models
  import opened Requests
  import opened QuotationController

  /** `row` is what the controller writes for the request item `f`. */
  predicate Written(row: Item, f: ItemFields) {
    && f.productName == Given(row.productName)
    && f.quantity == Given(row.quantity)
    && f.unitPrice == Given(row.unitPrice)
    && row.description == f.description.ToOption()
    && row.totalPrice == LineTotal(row.quantity, row.unitPrice)
  }

  // ---------------------------------------------------------------------------
  // Facts about the rows written for a list of request items

  lemma NewItemsRows(qid: nat, firstId: nat, inputs: seq<ItemFields>)
    ensures forall i :: 0 <= i < |inputs| ==> NewItems(qid, firstId, inputs)[i] == ItemRow(firstId + i, qid, inputs[i])
  {
    forall i | 0 <= i < |inputs| ensures NewItems(qid, firstId, inputs)[i] == ItemRow(firstId + i, qid, inputs[i]) {
      NewItemsAt(qid, firstId, inputs, i);
    }
  }

  /** Every row written for a valid request item is well formed and is that item. */
  lemma NewItemsWritten(qid: nat, firstId: nat, inputs: seq<ItemFields>)
    requires forall i :: 0 <= i < |inputs| ==> LineRulesOk(inputs[i])
    ensures forall i :: 0 <= i < |inputs| ==>
      && WellFormedItem(NewItems(qid, firstId, inputs)[i])
      && Written(NewItems(qid, firstId, inputs)[i], inputs[i])
  {
    NewItemsRows(qid, firstId, inputs);
  }

  /** The written rows belong to quotation `qid` and to no other. */
  lemma ItemsOfNewItems(qid: nat, firstId: nat, inputs: seq<ItemFields>, q: nat)
    ensures ItemsOf(NewItems(qid, firstId, inputs), q) == if q == qid then NewItems(qid, firstId, inputs) else []
  {
    NewItemsRows(qid, firstId, inputs);
    if q == qid {
      FilterKeepsAll(NewItems(qid, firstId, inputs), OwnedBy(q));
    } else {
      FilterKeepsNone(NewItems(qid, firstId, inputs), OwnedBy(q));
    }
  }

  /** Appending the written rows keeps the item keys increasing and below the counter. */
  lemma AppendNewItemsKeys(prefix: seq<Item>, qid: nat, firstId: nat, inputs: seq<ItemFields>)
    requires KeysBelow(prefix, ItemKey, firstId)
    ensures KeysBelow(prefix + NewItems(qid, firstId, inputs), ItemKey, firstId + |inputs|)
  {
    NewItemsRows(qid, firstId, inputs);
    var s := prefix + NewItems(qid, firstId, inputs);
    forall i, j | 0 <= i < j < |s| ensures ItemKey(s[i]) < ItemKey(s[j]) {
      if j >= |prefix| && i >= |prefix| {
        assert s[i].id == firstId + (i - |prefix|);
      }
    }
  }

  lemma QuotationIdsAppend(qs: seq<Quotation>, q: Quotation)
    ensures QuotationIds(qs + [q]) == QuotationIds(qs) + {q.id}
  {
    var s := qs + [q];
    forall id | id in QuotationIds(qs) ensures id in QuotationIds(s) {
      var k :| 0 <= k < |qs| && qs[k].id == id;
      assert s[k].id == id;
    }
    assert s[|qs|].id == q.id;
  }

  lemma QuotationIdsUpdate(qs: seq<Quotation>, k: nat, q: Quotation)
    requires k < |qs| && q.id == qs[k].id
    ensures QuotationIds(qs[k := q]) == QuotationIds(qs)
  {
    var s := qs[k := q];
    forall id | id in QuotationIds(qs) ensures id in QuotationIds(s) {
      var j :| 0 <= j < |qs| && qs[j].id == id;
      assert s[j].id == id;
    }
    forall id | id in QuotationIds(s) ensures id in QuotationIds(qs) {
      var j :| 0 <= j < |s| && s[j].id == id;
      assert qs[j].id == id;
    }
  }

  lemma QuotationIdsRemove(qs: seq<Quotation>, k: nat, bound: nat)
    requires k < |qs| && KeysBelow(qs, QuotationKey, bound)
    ensures QuotationIds(qs[..k] + qs[k + 1..]) == QuotationIds(qs) - {qs[k].id}
  {
    RemoveKeepsOtherIds(qs, k);
    RemoveDropsOwnId(qs, k, bound);
  }

  /** Every other quotation's key is still there after removing row `k`. */
  lemma RemoveKeepsOtherIds(qs: seq<Quotation>, k: nat)
    requires k < |qs|
    ensures forall id :: id in QuotationIds(qs) && id != qs[k].id ==> id in QuotationIds(qs[..k] + qs[k + 1..])
  {
    var s := qs[..k] + qs[k + 1..];
    forall id | id in QuotationIds(qs) && id != qs[k].id ensures id in QuotationIds(s) {
      var j :| 0 <= j < |qs| && qs[j].id == id;
      if j < k {
        assert s[j] == qs[j];
      } else {
        assert s[j - 1] == qs[j];
      }
    }
  }

  /** Under unique keys, removing row `k` leaves only the other keys. */
  lemma RemoveDropsOwnId(qs: seq<Quotation>, k: nat, bound: nat)
    requires k < |qs| && KeysBelow(qs, QuotationKey, bound)
    ensures forall id :: id in QuotationIds(qs[..k] + qs[k + 1..]) ==> id in QuotationIds(qs) && id != qs[k].id
  {
    var s := qs[..k] + qs[k + 1..];
    forall id | id in QuotationIds(s) ensures id in QuotationIds(qs) && id != qs[k].id {
      var j :| 0 <= j < |s| && s[j].id == id;
      var j0 := if j < k then j else j + 1;
      assert s[j] == qs[j0];
      if j0 < k {
        assert QuotationKey(qs[j0]) < QuotationKey(qs[k]);
      } else {
        assert QuotationKey(qs[k]) < QuotationKey(qs[j0]);
      }
    }
  }

  /** A quotation's items after its items are deleted and `rows` are appended. */
  lemma ItemsOfAfterReplace(items: seq<Item>, qid: nat, rows: seq<Item>, q: nat)
    ensures ItemsOf(Filter(items, NotOwnedBy(qid)) + rows, q)
         == (if q == qid then [] else ItemsOf(items, q)) + ItemsOf(rows, q)
  {
    FilterAppend(Filter(items, NotOwnedBy(qid)), rows, OwnedBy(q));
    ItemsOfAfterDelete(items, qid, q);
  }

  /** A quotation's items after the items of quotation `qid` are deleted. */
  lemma ItemsOfAfterDelete(items: seq<Item>, qid: nat, q: nat)
    ensures ItemsOf(Filter(items, NotOwnedBy(qid)), q) == if q == qid then [] else ItemsOf(items, q)
  {
    if q == qid {
      FilterMembers(items, NotOwnedBy(qid));
      FilterKeepsNone(Filter(items, NotOwnedBy(qid)), OwnedBy(q));
    } else {
      FilterOfFilter(items, NotOwnedBy(qid), OwnedBy(q));
    }
  }

  // ---------------------------------------------------------------------------
  // store

  /**
   * `store` writes nothing and answers 422 when the customer does not exist,
   * the items are missing or empty, or an item has a quantity below 1 or a
   * negative unit price.
   */
  lemma StoreRejectsInvalid(t: Tables, req: QuotationCreate, failingWrite: Option<nat>)
    requires
      || (req.customerId.Given? && forall c :: 0 <= c < |t.customers| ==> t.customers[c].id != req.customerId.value)
      || !req.items.Given?
      || req.items.value == []
      || (exists i :: 0 <= i < |req.items.value| && req.items.value[i].quantity.Given? && req.items.value[i].quantity.value < 1)
      || (exists i :: 0 <= i < |req.items.value| && req.items.value[i].unitPrice.Given? && req.items.value[i].unitPrice.value < 0)
    ensures StoreEffect(t, req, failingWrite) == (Unprocessable, t)
  {
  }

  /**
   * `store` is all or nothing: it creates the quotation exactly when the
   * request passes validation and no write throws; otherwise the tables are
   * as they were.
   */
  lemma StoreIsAtomic(t: Tables, req: QuotationCreate, failingWrite: Option<nat>)
    ensures StoreEffect(t, req, failingWrite).0 == Created
        <==> StoreRulesOk(req, t.customers) && !FailsWithin(failingWrite, 0, StoreWrites(req))
    ensures StoreEffect(t, req, failingWrite).0 == ServerError
        <==> StoreRulesOk(req, t.customers) && FailsWithin(failingWrite, 0, StoreWrites(req))
    ensures StoreEffect(t, req, failingWrite).0 != Created ==> StoreEffect(t, req, failingWrite).1 == t
  {
  }

  /**
   * A successful `store` adds one quotation with a fresh key, the submitted
   * customer and date, exactly one item per submitted item in submission
   * order, each with its line total, and a grand total equal to the sum of
   * those line totals.
   */
  lemma StoreCreatesQuotation(t: Tables, req: QuotationCreate, failingWrite: Option<nat>)
    requires Valid(t)
    requires StoreEffect(t, req, failingWrite).0 == Created
    ensures var t' := StoreEffect(t, req, failingWrite).1;
      var qid := t.nextQuotationId;
      var items := ItemsOf(t'.items, qid);
      && qid !in QuotationIds(t.quotations)
      && t'.customers == t.customers
      && t'.quotations == t.quotations + [Quotation(qid, req.customerId.value, req.date.value, TotalOf(items))]
      && |items| == |req.items.value|
      && (forall i :: 0 <= i < |items| ==> Written(items[i], req.items.value[i]))
  {
    var t' := StoreEffect(t, req, failingWrite).1;
    var inputs := req.items.value;
    var qid := t.nextQuotationId;
    var rows := NewItems(qid, t.nextItemId, inputs);
    assert t' == WithNewQuotation(t, req.customerId.value, req.date.value, inputs);
    QuotationIdsBelow(t);
    forall i | 0 <= i < |t.items| ensures !OwnedBy(qid)(t.items[i]) {
      assert t.items[i].quotationId in QuotationIds(t.quotations);
    }
    FilterKeepsNone(t.items, OwnedBy(qid));
    FilterAppend(t.items, rows, OwnedBy(qid));
    ItemsOfNewItems(qid, t.nextItemId, inputs, qid);
    assert ItemsOf(t'.items, qid) == rows;
    NewItemsWritten(qid, t.nextItemId, inputs);
  }

  /** `store` leaves every other quotation's items as they were. */
  lemma StoreKeepsOtherItems(t: Tables, req: QuotationCreate, failingWrite: Option<nat>)
    requires StoreEffect(t, req, failingWrite).0 == Created
    ensures forall q :: q != t.nextQuotationId ==>
      ItemsOf(StoreEffect(t, req, failingWrite).1.items, q) == ItemsOf(t.items, q)
  {
    var rows := NewItems(t.nextQuotationId, t.nextItemId, req.items.value);
    forall q | q != t.nextQuotationId
      ensures ItemsOf(StoreEffect(t, req, failingWrite).1.items, q) == ItemsOf(t.items, q)
    {
      FilterAppend(t.items, rows, OwnedBy(q));
      ItemsOfNewItems(t.nextQuotationId, t.nextItemId, req.items.value, q);
    }
  }

  /** `store` keeps the tables' integrity. */
  lemma StorePreservesValid(t: Tables, req: QuotationCreate, failingWrite: Option<nat>)
    requires Valid(t)
    ensures Valid(StoreEffect(t, req, failingWrite).1)
  {
    if StoreEffect(t, req, failingWrite).0 == Created {
      var inputs := req.items.value;
      var qid := t.nextQuotationId;
      var rows := NewItems(qid, t.nextItemId, inputs);
      AppendNewItemsKeys(t.items, qid, t.nextItemId, inputs);
      NewItemsWritten(qid, t.nextItemId, inputs);
      NewItemsRows(qid, t.nextItemId, inputs);
      AppendedQuotationValid(t, Quotation(qid, req.customerId.value, req.date.value, RoundTotal(TotalOf(rows))), rows);
    }
  }

  /** Appending a quotation under the next key, with rows of its own, keeps the tables' integrity. */
  lemma AppendedQuotationValid(t: Tables, q: Quotation, rows: seq<Item>)
    requires Valid(t) && q.id == t.nextQuotationId
    requires KeysBelow(t.items + rows, ItemKey, t.nextItemId + |rows|)
    requires forall i :: 0 <= i < |rows| ==> WellFormedItem(rows[i]) && rows[i].quotationId == q.id
    ensures Valid(t.(quotations := t.quotations + [q], items := t.items + rows,
                     nextQuotationId := q.id + 1, nextItemId := t.nextItemId + |rows|))
  {
    KeysBelowAppend(t.quotations, q, QuotationKey, q.id + 1);
    QuotationIdsAppend(t.quotations, q);
    var items := t.items + rows;
    forall i | 0 <= i < |items|
      ensures WellFormedItem(items[i]) && items[i].quotationId in QuotationIds(t.quotations + [q])
    {
      if i >= |t.items| {
        assert items[i] == rows[i - |t.items|];
      } else {
        assert items[i] == t.items[i];
      }
    }
  }

  /** `store` keeps every quotation's grand total equal to the sum of its items. */
  lemma StorePreservesTotals(t: Tables, req: QuotationCreate, failingWrite: Option<nat>)
    requires Valid(t) && TotalsConsistent(t)
    ensures TotalsConsistent(StoreEffect(t, req, failingWrite).1)
  {
    if StoreEffect(t, req, failingWrite).0 == Created {
      var t' := StoreEffect(t, req, failingWrite).1;
      StoreCreatesQuotation(t, req, failingWrite);
      StoreKeepsOtherItems(t, req, failingWrite);
      QuotationIdsBelow(t);
      forall k | 0 <= k < |t'.quotations|
        ensures t'.quotations[k].grandTotal == TotalOf(ItemsOf(t'.items, t'.quotations[k].id))
      {
        if k < |t.quotations| {
          assert t'.quotations[k] == t.quotations[k];
          assert t.quotations[k].id in QuotationIds(t.quotations);
        }
      }
    }
  }

  /** The form request's rules are the inline rules plus `before_or_equal:today` on the date. */
  lemma StoreRequestAddsDateBound(req: QuotationCreate, customers: seq<Customer>, today: Date)
    ensures StoreQuotationRequestOk(req, customers, today)
        <==> StoreRulesOk(req, customers) && req.date.value <= today
  {
  }

  // ---------------------------------------------------------------------------
  // update

  /** Changing a date touches nothing but that date. */
  lemma RedatedKeeps(t: Tables, k: nat, date: Field<Date>)
    requires k < |t.quotations|
    ensures var t1 := Redated(t, k, date);
      && t1.items == t.items && t1.customers == t.customers
      && t1.nextItemId == t.nextItemId && t1.nextQuotationId == t.nextQuotationId
      && t1.nextCustomerId == t.nextCustomerId
      && |t1.quotations| == |t.quotations|
      && (forall j :: 0 <= j < |t.quotations| && j != k ==> t1.quotations[j] == t.quotations[j])
      && t1.quotations[k] == t.quotations[k].(date := date.Or(t.quotations[k].date))
      && QuotationIds(t1.quotations) == QuotationIds(t.quotations)
  {
    if date.Given? {
      QuotationIdsUpdate(t.quotations, k, t.quotations[k].(date := date.value));
    }
  }

  /**
   * Replacing the items of the quotation at `k`: it owns exactly the new
   * rows, its grand total is their sum, and every other quotation is
   * untouched along with its items.
   */
  lemma ReplacedItems(t: Tables, k: nat, inputs: seq<ItemFields>)
    requires k < |t.quotations|
    ensures var t' := Replaced(t, k, Given(inputs));
      var qid := t.quotations[k].id;
      var rows := NewItems(qid, t.nextItemId, inputs);
      && ItemsOf(t'.items, qid) == rows
      && (forall q :: q != qid ==> ItemsOf(t'.items, q) == ItemsOf(t.items, q))
      && t'.customers == t.customers
      && |t'.quotations| == |t.quotations|
      && (forall j :: 0 <= j < |t.quotations| && j != k ==> t'.quotations[j] == t.quotations[j])
      && t'.quotations[k] == t.quotations[k].(grandTotal := TotalOf(rows))
      && QuotationIds(t'.quotations) == QuotationIds(t.quotations)
  {
    var qid := t.quotations[k].id;
    var rows := NewItems(qid, t.nextItemId, inputs);
    var t' := Replaced(t, k, Given(inputs));
    assert t'.items == Filter(t.items, NotOwnedBy(qid)) + rows;
    QuotationIdsUpdate(t.quotations, k, t'.quotations[k]);
    forall q ensures ItemsOf(t'.items, q) == if q == qid then rows else ItemsOf(t.items, q) {
      ItemsOfAfterReplace(t.items, qid, rows, q);
      ItemsOfNewItems(qid, t.nextItemId, inputs, q);
    }
  }

  /**
   * The quotations after a committed `update` of the one at `k`: only that
   * row changes, in its date when one was sent and in its grand total when
   * items were sent.
   */
  lemma CommittedQuotations(t: Tables, k: nat, req: QuotationPatch)
    requires k < |t.quotations|
    ensures var t' := Replaced(Redated(t, k, req.date), k, req.items);
      var q := t.quotations[k];
      && t'.customers == t.customers
      && (!req.items.Given? ==> t'.items == t.items)
      && |t'.quotations| == |t.quotations|
      && (forall j :: 0 <= j < |t.quotations| && j != k ==> t'.quotations[j] == t.quotations[j])
      && t'.quotations[k].id == q.id && t'.quotations[k].customerId == q.customerId
      && t'.quotations[k].date == req.date.Or(q.date)
      && t'.quotations[k].grandTotal
         == (if req.items.Given? then TotalOf(NewItems(q.id, t.nextItemId, req.items.value)) else q.grandTotal)
      && QuotationIds(t'.quotations) == QuotationIds(t.quotations)
  {
    var t1 := Redated(t, k, req.date);
    RedatedKeeps(t, k, req.date);
    if req.items.Given? {
      ReplacedItems(t1, k, req.items.value);
    }
  }

  /** The items after a committed `update` of the quotation at `k` that sent items. */
  lemma CommittedItems(t: Tables, k: nat, req: QuotationPatch)
    requires k < |t.quotations| && req.items.Given?
    ensures var t' := Replaced(Redated(t, k, req.date), k, req.items);
      var qid := t.quotations[k].id;
      && ItemsOf(t'.items, qid) == NewItems(qid, t.nextItemId, req.items.value)
      && (forall q :: q != qid ==> ItemsOf(t'.items, q) == ItemsOf(t.items, q))
  {
    var t1 := Redated(t, k, req.date);
    RedatedKeeps(t, k, req.date);
    ReplacedItems(t1, k, req.items.value);
  }

  /**
   * `update` is all or nothing: when the quotation is missing, validation
   * fails or a write throws, the date, the items and the grand total are as
   * they were.
   */
  lemma UpdateIsAtomic(t: Tables, qid: nat, req: QuotationPatch, failingWrite: Option<nat>)
    ensures UpdateEffect(t, qid, req, failingWrite).0 != Ok ==> UpdateEffect(t, qid, req, failingWrite).1 == t
    ensures UpdateEffect(t, qid, req, failingWrite).0 == NotFound <==> qid !in QuotationIds(t.quotations)
    ensures UpdateEffect(t, qid, req, failingWrite).0 == ServerError
        <==> qid in QuotationIds(t.quotations) && UpdateRulesOk(req)
             && FailsWithin(failingWrite, 0, UpdateWrites(req))
  {
    if IndexOf(t.quotations, QuotationKey, qid).None? {
      assert qid !in QuotationIds(t.quotations);
    } else {
      var k := Found(t.quotations, QuotationKey, qid);
    }
  }

  /**
   * An `update` with items is a full replace: afterwards the quotation's
   * items are exactly the submitted ones, in order, each a new row; its
   * grand total is their sum; every other quotation keeps its items.
   */
  lemma UpdateReplacesItems(t: Tables, qid: nat, req: QuotationPatch, failingWrite: Option<nat>)
    requires Valid(t)
    requires UpdateEffect(t, qid, req, failingWrite).0 == Ok && req.items.Given?
    ensures var t' := UpdateEffect(t, qid, req, failingWrite).1;
      var items := ItemsOf(t'.items, qid);
      && |items| == |req.items.value|
      && (forall i :: 0 <= i < |items| ==> Written(items[i], req.items.value[i]))
      && (forall i :: 0 <= i < |items| ==> items[i].id >= t.nextItemId)
      && (forall q :: q != qid ==> ItemsOf(t'.items, q) == ItemsOf(t.items, q))
  {
    match IndexOf(t.quotations, QuotationKey, qid)
    case Some(k) =>
      CommittedItems(t, k, req);
      NewItemsWritten(qid, t.nextItemId, req.items.value);
      NewItemsRows(qid, t.nextItemId, req.items.value);
  }


  /** After an `update` with items the quotation's grand total is the sum of its new items. */
  lemma UpdateRecomputesTotal(t: Tables, qid: nat, req: QuotationPatch, failingWrite: Option<nat>)
    requires Valid(t)
    requires UpdateEffect(t, qid, req, failingWrite).0 == Ok && req.items.Given?
    ensures var t' := UpdateEffect(t, qid, req, failingWrite).1;
      forall j :: 0 <= j < |t'.quotations| && t'.quotations[j].id == qid ==>
        t'.quotations[j].grandTotal == TotalOf(ItemsOf(t'.items, qid))
  {
    var t' := UpdateEffect(t, qid, req, failingWrite).1;
    match IndexOf(t.quotations, QuotationKey, qid)
    case Some(k) =>
      CommittedQuotations(t, k, req);
      CommittedItems(t, k, req);
      forall j | 0 <= j < |t'.quotations| && t'.quotations[j].id == qid
        ensures t'.quotations[j].grandTotal == TotalOf(ItemsOf(t'.items, qid))
      {
        assert t.quotations[j].id == qid;
        KeyNamesOneRow(t.quotations, QuotationKey, t.nextQuotationId, j, k);
      }
  }


  /** An `update` without items leaves every item and every grand total as it was. */
  lemma UpdateWithoutItemsKeepsItems(t: Tables, qid: nat, req: QuotationPatch, failingWrite: Option<nat>)
    requires req.items.Missing?
    ensures var t' := UpdateEffect(t, qid, req, failingWrite).1;
      && t'.items == t.items
      && |t'.quotations| == |t.quotations|
      && forall k :: 0 <= k < |t.quotations| ==> t'.quotations[k].grandTotal == t.quotations[k].grandTotal
  {
    match IndexOf(t.quotations, QuotationKey, qid)
    case None =>
    case Some(k) =>
      CommittedQuotations(t, k, req);
  }


  /** An `update` without a date leaves every quotation's date as it was. */
  lemma UpdateWithoutDateKeepsDate(t: Tables, qid: nat, req: QuotationPatch, failingWrite: Option<nat>)
    requires req.date.Missing?
    ensures var t' := UpdateEffect(t, qid, req, failingWrite).1;
      && |t'.quotations| == |t.quotations|
      && forall k :: 0 <= k < |t.quotations| ==> t'.quotations[k].date == t.quotations[k].date
  {
    match IndexOf(t.quotations, QuotationKey, qid)
    case None =>
    case Some(k) =>
      CommittedQuotations(t, k, req);
  }


  /**
   * An `update` never changes which customer a quotation belongs to, nor any
   * quotation's key, nor the customers, nor any other quotation.
   */
  lemma UpdateKeepsCustomer(t: Tables, qid: nat, req: QuotationPatch, failingWrite: Option<nat>)
    ensures var t' := UpdateEffect(t, qid, req, failingWrite).1;
      && t'.customers == t.customers
      && |t'.quotations| == |t.quotations|
      && (forall k :: 0 <= k < |t.quotations| ==>
            t'.quotations[k].id == t.quotations[k].id && t'.quotations[k].customerId == t.quotations[k].customerId)
      && (forall k :: 0 <= k < |t.quotations| && t.quotations[k].id != qid ==> t'.quotations[k] == t.quotations[k])
  {
    match IndexOf(t.quotations, QuotationKey, qid)
    case None =>
    case Some(k) =>
      CommittedQuotations(t, k, req);
  }


  /** When the date is sent and the update commits, the quotation has that date. */
  lemma UpdateSetsDate(t: Tables, qid: nat, req: QuotationPatch, failingWrite: Option<nat>)
    requires Valid(t)
    requires UpdateEffect(t, qid, req, failingWrite).0 == Ok && req.date.Given?
    ensures var t' := UpdateEffect(t, qid, req, failingWrite).1;
      forall j :: 0 <= j < |t'.quotations| && t'.quotations[j].id == qid ==> t'.quotations[j].date == req.date.value
  {
    var t' := UpdateEffect(t, qid, req, failingWrite).1;
    match IndexOf(t.quotations, QuotationKey, qid)
    case Some(k) =>
      CommittedQuotations(t, k, req);
      forall j | 0 <= j < |t'.quotations| && t'.quotations[j].id == qid ensures t'.quotations[j].date == req.date.value {
        assert t.quotations[j].id == qid;
        KeyNamesOneRow(t.quotations, QuotationKey, t.nextQuotationId, j, k);
      }
  }


  /** Replacing one quotation's items with validated rows keeps the tables' integrity. */
  lemma ReplacedPreservesValid(t: Tables, k: nat, inputs: seq<ItemFields>)
    requires Valid(t) && k < |t.quotations|
    requires forall i :: 0 <= i < |inputs| ==> LineRulesOk(inputs[i])
    ensures Valid(Replaced(t, k, Given(inputs)))
  {
    var qid := t.quotations[k].id;
    var t' := Replaced(t, k, Given(inputs));
    var kept := Filter(t.items, NotOwnedBy(qid));
    var rows := NewItems(qid, t.nextItemId, inputs);
    assert t'.items == kept + rows;
    QuotationIdsUpdate(t.quotations, k, t'.quotations[k]);
    FilterKeepsKeysBelow(t.items, NotOwnedBy(qid), ItemKey, t.nextItemId);
    AppendNewItemsKeys(kept, qid, t.nextItemId, inputs);
    NewItemsWritten(qid, t.nextItemId, inputs);
    NewItemsRows(qid, t.nextItemId, inputs);
    assert qid in QuotationIds(t.quotations);
    forall i | 0 <= i < |t'.items|
      ensures WellFormedItem(t'.items[i]) && t'.items[i].quotationId in QuotationIds(t'.quotations)
    {
      if i < |kept| {
        FilterMembers(t.items, NotOwnedBy(qid));
        assert kept[i] in t.items;
      } else {
        assert t'.items[i] == rows[i - |kept|];
      }
    }
  }

  /** `update` keeps the tables' integrity. */
  lemma UpdatePreservesValid(t: Tables, qid: nat, req: QuotationPatch, failingWrite: Option<nat>)
    requires Valid(t)
    ensures Valid(UpdateEffect(t, qid, req, failingWrite).1)
  {
    match IndexOf(t.quotations, QuotationKey, qid)
    case None =>
    case Some(k) =>
      if UpdateEffect(t, qid, req, failingWrite).0 == Ok {
        var t1 := Redated(t, k, req.date);
        RedatedKeeps(t, k, req.date);
        assert Valid(t1);
        if req.items.Given? {
          ReplacedPreservesValid(t1, k, req.items.value);
        }
      }
  }

  /** `update` keeps every quotation's grand total equal to the sum of its items. */
  lemma UpdatePreservesTotals(t: Tables, qid: nat, req: QuotationPatch, failingWrite: Option<nat>)
    requires Valid(t) && TotalsConsistent(t)
    ensures TotalsConsistent(UpdateEffect(t, qid, req, failingWrite).1)
  {
    match IndexOf(t.quotations, QuotationKey, qid)
    case None =>
    case Some(k) =>
      CommittedKeepsTotals(t, k, req);
  }

  /** `UpdatePreservesTotals` for the quotation at position `k`. */
  lemma CommittedKeepsTotals(t: Tables, k: nat, req: QuotationPatch)
    requires Valid(t) && TotalsConsistent(t) && k < |t.quotations|
    ensures TotalsConsistent(Replaced(Redated(t, k, req.date), k, req.items))
  {
    var t' := Replaced(Redated(t, k, req.date), k, req.items);
    CommittedQuotations(t, k, req);
    if req.items.Given? {
      CommittedItems(t, k, req);
      forall j | 0 <= j < |t'.quotations|
        ensures t'.quotations[j].grandTotal == TotalOf(ItemsOf(t'.items, t'.quotations[j].id))
      {
        if j != k {
          KeysDiffer(t.quotations, QuotationKey, t.nextQuotationId, j, k);
        }
      }
    } else {
      forall j | 0 <= j < |t'.quotations|
        ensures t'.quotations[j].grandTotal == TotalOf(ItemsOf(t'.items, t'.quotations[j].id))
      {
        assert t'.quotations[j].grandTotal == t.quotations[j].grandTotal && t'.quotations[j].id == t.quotations[j].id;
      }
    }
  }



  /** The form request's rules are the inline rules plus `before_or_equal:today` on a sent date. */
  lemma UpdateRequestAddsDateBound(req: QuotationPatch, today: Date)
    ensures UpdateQuotationRequestOk(req, today)
        <==> UpdateRulesOk(req) && (req.date.Given? ==> req.date.value <= today)
  {
  }

  // ---------------------------------------------------------------------------
  // destroy, show, sendEmail

  /** A committed `destroy`: the position of the quotation it removed. */
  lemma DestroyCommitted(t: Tables, qid: nat) returns (k: nat)
    requires DestroyEffect(t, qid).0 == Ok
    ensures k < |t.quotations| && t.quotations[k].id == qid
    ensures DestroyEffect(t, qid).1
      == t.(quotations := t.quotations[..k] + t.quotations[k + 1..], items := Filter(t.items, NotOwnedBy(qid)))
  {
    k := Found(t.quotations, QuotationKey, qid);
  }

  /** `destroy` answers 404 exactly for a missing key, and then changes nothing. */
  lemma DestroyMissing(t: Tables, qid: nat)
    ensures DestroyEffect(t, qid).0 == NotFound <==> qid !in QuotationIds(t.quotations)
    ensures DestroyEffect(t, qid).0 != NotFound ==> DestroyEffect(t, qid).0 == Ok
    ensures DestroyEffect(t, qid).0 == NotFound ==> DestroyEffect(t, qid).1 == t
  {
    if IndexOf(t.quotations, QuotationKey, qid).None? {
      assert qid !in QuotationIds(t.quotations);
    } else {
      var k := Found(t.quotations, QuotationKey, qid);
    }
  }

  /**
   * `destroy` removes the quotation and, by the cascade, all of its items,
   * and nothing else: every other quotation and every other item stays.
   */
  lemma DestroyCascades(t: Tables, qid: nat)
    requires Valid(t) && DestroyEffect(t, qid).0 == Ok
    ensures var t' := DestroyEffect(t, qid).1;
      && t'.customers == t.customers
      && QuotationIds(t'.quotations) == QuotationIds(t.quotations) - {qid}
      && |t'.quotations| == |t.quotations| - 1
      && ItemsOf(t'.items, qid) == []
      && (forall q :: q != qid ==> ItemsOf(t'.items, q) == ItemsOf(t.items, q))
      && (forall q :: q in t.quotations && q.id != qid ==> q in t'.quotations)
  {
    match IndexOf(t.quotations, QuotationKey, qid)
    case Some(k) =>
      var qs := t.quotations;
      QuotationIdsRemove(qs, k, t.nextQuotationId);
      forall q ensures ItemsOf(Filter(t.items, NotOwnedBy(qid)), q) == if q == qid then [] else ItemsOf(t.items, q) {
        ItemsOfAfterDelete(t.items, qid, q);
      }
      forall q | q in qs && q.id != qid ensures q in qs[..k] + qs[k + 1..] {
        RemoveKeepsOthers(qs, k, QuotationKey, t.nextQuotationId, q);
      }
  }


  /** `destroy` keeps the tables' integrity. */
  lemma DestroyPreservesValid(t: Tables, qid: nat)
    requires Valid(t)
    ensures Valid(DestroyEffect(t, qid).1)
  {
    match IndexOf(t.quotations, QuotationKey, qid)
    case None =>
    case Some(k) =>
      KeysBelowRemove(t.quotations, k, QuotationKey, t.nextQuotationId);
      QuotationIdsRemove(t.quotations, k, t.nextQuotationId);
      FilterKeepsKeysBelow(t.items, NotOwnedBy(qid), ItemKey, t.nextItemId);
      KeptItemsValid(t, qid);
  }

  /** The items that survive deleting quotation `qid`'s items are well formed and owned by another quotation. */
  lemma KeptItemsValid(t: Tables, qid: nat)
    requires Valid(t)
    ensures forall i :: 0 <= i < |Filter(t.items, NotOwnedBy(qid))| ==>
      && WellFormedItem(Filter(t.items, NotOwnedBy(qid))[i])
      && Filter(t.items, NotOwnedBy(qid))[i].quotationId in QuotationIds(t.quotations) - {qid}
  {
    var kept := Filter(t.items, NotOwnedBy(qid));
    FilterMembers(t.items, NotOwnedBy(qid));
    forall i | 0 <= i < |kept|
      ensures WellFormedItem(kept[i]) && kept[i].quotationId in QuotationIds(t.quotations) - {qid}
    {
      assert kept[i] in t.items;
    }
  }


  /** Row `j` after removing row `k` is row `j` or `j + 1` before, never row `k`. */
  lemma RemovedAt(qs: seq<Quotation>, k: nat, j: nat) returns (j0: nat)
    requires k < |qs| && j < |qs| - 1
    ensures j0 < |qs| && j0 != k && (qs[..k] + qs[k + 1..])[j] == qs[j0]
  {
    j0 := if j < k then j else j + 1;
  }

  /** `destroy` keeps every remaining quotation's grand total equal to the sum of its items. */
  lemma DestroyPreservesTotals(t: Tables, qid: nat)
    requires Valid(t) && TotalsConsistent(t)
    ensures TotalsConsistent(DestroyEffect(t, qid).1)
  {
    match IndexOf(t.quotations, QuotationKey, qid)
    case None =>
    case Some(k) =>
      var qs := t.quotations[..k] + t.quotations[k + 1..];
      forall j | 0 <= j < |qs|
        ensures qs[j].grandTotal == TotalOf(ItemsOf(Filter(t.items, NotOwnedBy(qid)), qs[j].id))
      {
        var j0 := RemovedAt(t.quotations, k, j);
        KeysDiffer(t.quotations, QuotationKey, t.nextQuotationId, j0, k);
        ItemsOfAfterDelete(t.items, qid, t.quotations[j0].id);
      }
  }


  /**
   * `show` reports the stored grand total and, as `total_items`, the sum of
   * the items' quantities, which is at least the number of items. When the
   * aggregate invariant holds the stored total is the items' sum.
   */
  lemma ShowReportsStoredTotal(t: Tables, qid: nat)
    requires Valid(t)
    ensures Show(t, qid).None? <==> qid !in QuotationIds(t.quotations)
    ensures Show(t, qid).Some? ==>
      var s := Show(t, qid).value;
      && s.quotation in t.quotations && s.quotation.id == qid
      && s.grandTotal == s.quotation.grandTotal
      && s.items == ItemsOf(t.items, qid)
      && s.totalItems == QuantityOf(s.items)
      && s.totalItems >= |s.items|
      && (TotalsConsistent(t) ==> s.grandTotal == TotalOf(s.items))
  {
    if IndexOf(t.quotations, QuotationKey, qid).None? {
      assert qid !in QuotationIds(t.quotations);
    } else {
      var k := Found(t.quotations, QuotationKey, qid);
      var items := ItemsOf(t.items, qid);
      FilterMembers(t.items, OwnedBy(qid));
      forall i | 0 <= i < |items| ensures ItemQuantity(items[i]) >= 1 {
        assert items[i] in t.items;
      }
      SumByAtLeastLength(items, ItemQuantity);
    }
  }

  /**
   * `sendEmail` answers 404 for a missing quotation, 422 exactly when the
   * quotation exists but no customer row with a usable email has its
   * `customer_id`, and otherwise reports what the mailer did.
   */
  lemma SendEmailGuard(t: Tables, qid: nat, delivered: bool)
    requires Valid(t)
    ensures SendEmail(t, qid, delivered) == NotFound <==> qid !in QuotationIds(t.quotations)
    ensures SendEmail(t, qid, delivered) == Unprocessable <==>
      exists k :: 0 <= k < |t.quotations| && t.quotations[k].id == qid
        && forall c :: 0 <= c < |t.customers| && t.customers[c].id == t.quotations[k].customerId ==> Falsy(t.customers[c].email)
    ensures SendEmail(t, qid, delivered) in {NotFound, Unprocessable} || (SendEmail(t, qid, delivered) == Ok <==> delivered)
  {
    if IndexOf(t.quotations, QuotationKey, qid).None? {
      assert qid !in QuotationIds(t.quotations);
    } else {
      var k := Found(t.quotations, QuotationKey, qid);
      var cid := t.quotations[k].customerId;
      forall k' | 0 <= k' < |t.quotations| && t.quotations[k'].id == qid ensures k' == k {
        KeyNamesOneRow(t.quotations, QuotationKey, t.nextQuotationId, k, k');
      }
      match IndexOf(t.customers, CustomerKey, cid)
      case None =>
      case Some(c) =>
        forall c' | 0 <= c' < |t.customers| && t.customers[c'].id == cid ensures c' == c {
          KeyNamesOneRow(t.customers, CustomerKey, t.nextCustomerId, c, c');
        }
    }
  }
}
