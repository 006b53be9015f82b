/**
 * The three tables (customers, quotations, quotation_items), their integrity
 * rules, and the database object the controllers write to.
 */
module Models {
  import opened Wrappers
  import opened Money
  import opened Seqs

  /** A calendar date, as a day number. */
  type Date = int

  datatype Customer = Customer(
    id: nat,
    name: string,
    dateOfBirth: Date,
    address: Option<string>,
    email: string,
    contact: string)

  /** `grandTotal` is stored (denormalised), in cents. */
  datatype Quotation = Quotation(id: nat, customerId: nat, date: Date, grandTotal: int)

  /** `unitPrice` is in fine units, `totalPrice` in cents. */
  datatype Item = Item(
    id: nat,
    quotationId: nat,
    productName: string,
    description: Option<string>,
    quantity: int,
    unitPrice: int,
    totalPrice: int)

  /**
   * The whole database: each table in primary-key order, and the next value of
   * each table's auto-increment key.
   */
  datatype Tables = Tables(
    customers: seq<Customer>,
    quotations: seq<Quotation>,
    items: seq<Item>,
    nextCustomerId: nat,
    nextQuotationId: nat,
    nextItemId: nat)

  function CustomerKey(c: Customer): nat { c.id }
  function QuotationKey(q: Quotation): nat { q.id }
  function ItemKey(i: Item): nat { i.id }
  function ItemTotal(i: Item): int { i.totalPrice }
  function ItemQuantity(i: Item): int { i.quantity }

  /** `where quotation_id = qid`. */
  function OwnedBy(qid: nat): Item -> bool {
    (i: Item) => i.quotationId == qid
  }

  /** `where quotation_id <> qid`. */
  function NotOwnedBy(qid: nat): Item -> bool {
    (i: Item) => i.quotationId != qid
  }

  /** `where customer_id = cid`. */
  function PlacedBy(cid: nat): Quotation -> bool {
    (q: Quotation) => q.customerId == cid
  }

  /** A quotation's items (`$quotation->items`), in insertion order. */
  function ItemsOf(items: seq<Item>, qid: nat): seq<Item> {
    Filter(items, OwnedBy(qid))
  }

  /** A customer's quotations (`$customer->quotations`), in insertion order. */
  function QuotationsOf(quotations: seq<Quotation>, cid: nat): seq<Quotation> {
    Filter(quotations, PlacedBy(cid))
  }

  /** `sum('total_price')` over some items. */
  function TotalOf(items: seq<Item>): int {
    SumBy(items, ItemTotal)
  }

  /** `sum('quantity')` over some items. */
  function QuantityOf(items: seq<Item>): int {
    SumBy(items, ItemQuantity)
  }

  /** The keys of the quotations table. */
  function QuotationIds(quotations: seq<Quotation>): set<nat> {
    set k | 0 <= k < |quotations| :: quotations[k].id
  }

  /** What every write of an item guarantees: a valid quantity and price, and the line total. */
  ghost predicate WellFormedItem(i: Item) {
    && i.quantity >= 1
    && i.unitPrice >= 0
    && i.totalPrice == LineTotal(i.quantity, i.unitPrice)
  }

  /** The unique index on `customers.email`. */
  ghost predicate EmailsUnique(customers: seq<Customer>) {
    forall i, j :: 0 <= i < j < |customers| ==> customers[i].email != customers[j].email
  }

  /**
   * The database's integrity: keys unique and below the auto-increment
   * counters, emails unique, every item well formed and owned by an existing
   * quotation (the foreign key on `quotation_items.quotation_id`).
   */
  ghost predicate Valid(t: Tables) {
    && KeysBelow(t.customers, CustomerKey, t.nextCustomerId)
    && KeysBelow(t.quotations, QuotationKey, t.nextQuotationId)
    && KeysBelow(t.items, ItemKey, t.nextItemId)
    && EmailsUnique(t.customers)
    && (forall i :: 0 <= i < |t.items| ==> WellFormedItem(t.items[i]))
    && (forall i :: 0 <= i < |t.items| ==> t.items[i].quotationId in QuotationIds(t.quotations))
  }

  /**
   * The aggregate invariant: every quotation's stored grand total is the sum
   * of its items' line totals.
   */
  ghost predicate TotalsConsistent(t: Tables) {
    forall k :: 0 <= k < |t.quotations| ==>
      t.quotations[k].grandTotal == TotalOf(ItemsOf(t.items, t.quotations[k].id))
  }

  /** Every key of the quotations table is below the counter. */
  lemma QuotationIdsBelow(t: Tables)
    requires KeysBelow(t.quotations, QuotationKey, t.nextQuotationId)
    ensures forall id :: id in QuotationIds(t.quotations) ==> id < t.nextQuotationId
  {
  }

  /**
   * The database. The controllers change it only through these methods, each
   * one a single statement the ORM sends to the database.
   */
  class Database {
    var customers: seq<Customer>
    var quotations: seq<Quotation>
    var items: seq<Item>
    var nextCustomerId: nat
    var nextQuotationId: nat
    var nextItemId: nat

    /** The current contents, as a value. */
    function State(): Tables
      reads this
    {
      Tables(customers, quotations, items, nextCustomerId, nextQuotationId, nextItemId)
    }

    /** A freshly migrated database: empty tables, keys starting at 1. */
    constructor ()
      ensures State() == Tables([], [], [], 1, 1, 1)
      ensures Valid(State()) && TotalsConsistent(State())
    {
      customers, quotations, items := [], [], [];
      nextCustomerId, nextQuotationId, nextItemId := 1, 1, 1;
    }

    /** `DB::rollBack()`: back to the contents saved at `DB::beginTransaction()`. */
    method Restore(saved: Tables)
      modifies this
      ensures State() == saved
    {
      customers, quotations, items := saved.customers, saved.quotations, saved.items;
      nextCustomerId, nextQuotationId, nextItemId := saved.nextCustomerId, saved.nextQuotationId, saved.nextItemId;
    }

    /** `Customer::create(...)`. */
    method InsertCustomer(name: string, dateOfBirth: Date, address: Option<string>, email: string, contact: string)
      returns (id: nat)
      modifies this
      ensures id == old(nextCustomerId)
      ensures State() == old(State()).(
        customers := old(customers) + [Customer(id, name, dateOfBirth, address, email, contact)],
        nextCustomerId := id + 1)
    {
      id := nextCustomerId;
      customers := customers + [Customer(id, name, dateOfBirth, address, email, contact)];
      nextCustomerId := nextCustomerId + 1;
    }

    /** `$customer->update(...)` on the row at position `k`. */
    method SetCustomerAt(k: nat, c: Customer)
      requires k < |customers|
      modifies this
      ensures State() == old(State()).(customers := old(customers)[k := c])
    {
      customers := customers[k := c];
    }

    /** `$customer->delete()` on the row at position `k`. */
    method DeleteCustomerAt(k: nat)
      requires k < |customers|
      modifies this
      ensures State() == old(State()).(customers := old(customers)[..k] + old(customers)[k + 1..])
    {
      customers := customers[..k] + customers[k + 1..];
    }

    /** `Quotation::create(...)`. */
    method InsertQuotation(customerId: nat, date: Date, grandTotal: int) returns (id: nat)
      modifies this
      ensures id == old(nextQuotationId)
      ensures State() == old(State()).(
        quotations := old(quotations) + [Quotation(id, customerId, date, grandTotal)],
        nextQuotationId := id + 1)
    {
      id := nextQuotationId;
      quotations := quotations + [Quotation(id, customerId, date, grandTotal)];
      nextQuotationId := nextQuotationId + 1;
    }

    /** `$quotation->save()` of the row at position `k`. */
    method SetQuotationAt(k: nat, q: Quotation)
      requires k < |quotations|
      modifies this
      ensures State() == old(State()).(quotations := old(quotations)[k := q])
    {
      quotations := quotations[k := q];
    }

    /**
     * `$quotation->delete()` on the row at position `k`; the foreign key's
     * `onDelete('cascade')` removes the quotation's items with it.
     */
    method DeleteQuotationAt(k: nat)
      requires k < |quotations|
      modifies this
      ensures State() == old(State()).(
        quotations := old(quotations)[..k] + old(quotations)[k + 1..],
        items := Filter(old(items), NotOwnedBy(old(quotations)[k].id)))
    {
      var qid := quotations[k].id;
      quotations := quotations[..k] + quotations[k + 1..];
      items := Filter(items, NotOwnedBy(qid));
    }

    /** `$quotation->items()->create(...)`. */
    method InsertItem(quotationId: nat, productName: string, description: Option<string>,
                      quantity: int, unitPrice: int, totalPrice: int)
      returns (id: nat)
      modifies this
      ensures id == old(nextItemId)
      ensures State() == old(State()).(
        items := old(items) + [Item(id, quotationId, productName, description, quantity, unitPrice, totalPrice)],
        nextItemId := id + 1)
    {
      id := nextItemId;
      items := items + [Item(id, quotationId, productName, description, quantity, unitPrice, totalPrice)];
      nextItemId := nextItemId + 1;
    }

    /** `$quotation->items()->delete()`. */
    method DeleteItemsOf(qid: nat)
      modifies this
      ensures State() == old(State()).(items := Filter(old(items), NotOwnedBy(qid)))
    {
      items := Filter(items, NotOwnedBy(qid));
    }

    /** `$quotationItem->update(...)` on the row at position `k`. */
    method SetItemAt(k: nat, it: Item)
      requires k < |items|
      modifies this
      ensures State() == old(State()).(items := old(items)[k := it])
    {
      items := items[k := it];
    }

    /** `$quotationItem->delete()` on the row at position `k`. */
    method DeleteItemAt(k: nat)
      requires k < |items|
      modifies this
      ensures State() == old(State()).(items := old(items)[..k] + old(items)[k + 1..])
    {
      items := items[..k] + items[k + 1..];
    }
  }
}
