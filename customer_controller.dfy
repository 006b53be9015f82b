/**
 * CustomerController: the read side (`show` with per-quotation totals
 * recomputed from the items, `search` by substring) and the writes of one
 * customer row (`store`, `update`, `destroy`), each behind its form request.
 */
module CustomerController {
  import opened Wrappers
  import opened Http
  import opened Seqs
  import opened Models
  import opened Requests

  /** `term` occurs in `text` starting at position `k`. */
  ghost predicate OccursAt(text: string, term: string, k: int) {
    0 <= k && k + |term| <= |text| && text[k..k + |term|] == term
  }

  /** An occurrence in `text[1..]` is one in `text` shifted by one, and back. */
  lemma OccursShifted(text: string, term: string)
    requires |text| >= 1 && !OccursAt(text, term, 0)
    ensures (exists k :: OccursAt(text[1..], term, k)) <==> (exists k :: OccursAt(text, term, k))
  {
    if k :| OccursAt(text[1..], term, k) {
      assert text[k + 1..k + 1 + |term|] == text[1..][k..k + |term|];
      assert OccursAt(text, term, k + 1);
    }
    if k :| OccursAt(text, term, k) {
      assert k >= 1;
      assert text[1..][k - 1..k - 1 + |term|] == text[k..k + |term|];
      assert OccursAt(text[1..], term, k - 1);
    }
  }

  /**
   * SQL `like '%term%'` on one column: `term` occurs somewhere in `text`.
   * Neither case folding nor the `%` and `_` wildcards inside `term` are
   * modelled.
   */
  function Contains(text: string, term: string): (r: bool)
    ensures r <==> exists k :: OccursAt(text, term, k)
    decreases |text|
  {
    if |term| > |text| then false
    else if text[..|term|] == term then assert OccursAt(text, term, 0); true
    else OccursShifted(text, term); Contains(text[1..], term)
  }

  /** The `where` of `search`: the term occurs in the name, the email or the contact. */
  predicate Matches(c: Customer, term: string) {
    Contains(c.name, term) || Contains(c.email, term) || Contains(c.contact, term)
  }

  /** `Matches` as the condition `Filter` takes. */
  function MatchesTerm(term: string): Customer -> bool {
    (c: Customer) => Matches(c, term)
  }

  /**
   * `search`: the customers, in key order, that the term matches. A missing
   * `term` is interpolated as the empty string.
   */
  function Search(customers: seq<Customer>, term: Option<string>): (r: seq<Customer>)
    ensures forall i :: 0 <= i < |r| ==> r[i] in customers && Matches(r[i], term.GetOr(""))
    ensures forall i :: 0 <= i < |customers| && Matches(customers[i], term.GetOr("")) ==> customers[i] in r
  {
    FilterMembers(customers, MatchesTerm(term.GetOr("")));
    Filter(customers, MatchesTerm(term.GetOr("")))
  }

  /** One quotation as `show` reports it: its items, their count and their sum. */
  datatype QuotationLine = QuotationLine(quotation: Quotation, items: seq<Item>, totalItems: nat, grandTotal: int)

  /** The body of `show`. */
  datatype CustomerSummary = CustomerSummary(customer: Customer, quotations: seq<QuotationLine>)

  /**
   * The `map` of `show` over the customer's quotations: `withCount` gives the
   * number of items, and the grand total is summed from the items, not read
   * from the stored column.
   */
  function Lines(quotations: seq<Quotation>, items: seq<Item>): (r: seq<QuotationLine>)
    ensures |r| == |quotations|
    ensures forall i :: 0 <= i < |r| ==> r[i].quotation == quotations[i] && r[i].items == ItemsOf(items, quotations[i].id)
    ensures forall i :: 0 <= i < |r| ==> r[i].totalItems == |r[i].items| && r[i].grandTotal == TotalOf(r[i].items)
    decreases |quotations|
  {
    if quotations == [] then []
    else
      var n := |quotations| - 1;
      var own := ItemsOf(items, quotations[n].id);
      Lines(quotations[..n], items) + [QuotationLine(quotations[n], own, |own|, TotalOf(own))]
  }

  /** `show`: None stands for the 404 of route model binding. */
  function Show(t: Tables, cid: nat): Option<CustomerSummary> {
    match IndexOf(t.customers, CustomerKey, cid)
    case None => None
    case Some(k) => Some(CustomerSummary(t.customers[k], Lines(QuotationsOf(t.quotations, cid), t.items)))
  }

  /** The row `store` inserts; an address that is missing or null is stored as null. */
  function NewCustomer(id: nat, f: CustomerFields): Customer {
    Customer(id, f.name.Or(""), f.dateOfBirth.Or(0), f.address.ToOption(), f.email.Or(""), f.contact.Or(""))
  }

  /** What `store` answers and what the tables become. */
  function StoreEffect(t: Tables, f: CustomerFields, today: Date, emailOk: string -> bool): (Status, Tables) {
    if !StoreCustomerRequestOk(f, t.customers, today, emailOk) then (Unprocessable, t)
    else (Created, t.(customers := t.customers + [NewCustomer(t.nextCustomerId, f)],
                      nextCustomerId := t.nextCustomerId + 1))
  }

  /**
   * `$customer->update($request->validated())`: the fields that were sent
   * replace the stored ones; an address sent as null clears it.
   */
  function Updated(c: Customer, f: CustomerFields): Customer {
    c.(name := f.name.Or(c.name),
       dateOfBirth := f.dateOfBirth.Or(c.dateOfBirth),
       address := if f.address.Missing? then c.address else f.address.ToOption(),
       email := f.email.Or(c.email),
       contact := f.contact.Or(c.contact))
  }

  /** What `update` answers and what the tables become. */
  function UpdateEffect(t: Tables, cid: nat, f: CustomerFields, today: Date, emailOk: string -> bool): (Status, Tables) {
    match IndexOf(t.customers, CustomerKey, cid)
    case None => (NotFound, t)
    case Some(k) =>
      if !UpdateCustomerRequestOk(f, t.customers, cid, today, emailOk) then (Unprocessable, t)
      else (Ok, t.(customers := t.customers[k := Updated(t.customers[k], f)]))
  }

  /** What `destroy` answers and what the tables become. */
  function DestroyEffect(t: Tables, cid: nat): (Status, Tables) {
    match IndexOf(t.customers, CustomerKey, cid)
    case None => (NotFound, t)
    case Some(k) => (Ok, t.(customers := t.customers[..k] + t.customers[k + 1..]))
  }

  /** `store`. */
  method Store(db: Database, f: CustomerFields, today: Date, emailOk: string -> bool) returns (status: Status)
    modifies db
    ensures (status, db.State()) == StoreEffect(old(db.State()), f, today, emailOk)
  {
    if !StoreCustomerRequestOk(f, db.customers, today, emailOk) {
      return Unprocessable;
    }
    var id := db.InsertCustomer(f.name.value, f.dateOfBirth.value, f.address.ToOption(), f.email.value, f.contact.value);
    status := Created;
  }

  /** `update`. */
  method Update(db: Database, cid: nat, f: CustomerFields, today: Date, emailOk: string -> bool) returns (status: Status)
    modifies db
    ensures (status, db.State()) == UpdateEffect(old(db.State()), cid, f, today, emailOk)
  {
    var found := IndexOf(db.customers, CustomerKey, cid);
    if found.None? {
      return NotFound;
    }
    var k := found.value;
    if !UpdateCustomerRequestOk(f, db.customers, cid, today, emailOk) {
      return Unprocessable;
    }
    var c := db.customers[k];
    if f.name.Given? {
      c := c.(name := f.name.value);
    }
    if f.dateOfBirth.Given? {
      c := c.(dateOfBirth := f.dateOfBirth.value);
    }
    if !f.address.Missing? {
      c := c.(address := f.address.ToOption());
    }
    if f.email.Given? {
      c := c.(email := f.email.value);
    }
    c := c.(contact := f.contact.value);
    db.SetCustomerAt(k, c);
    status := Ok;
  }

  /** `destroy`. */
  method Destroy(db: Database, cid: nat) returns (status: Status)
    modifies db
    ensures (status, db.State()) == DestroyEffect(old(db.State()), cid)
  {
    var found := IndexOf(db.customers, CustomerKey, cid);
    if found.None? {
      return NotFound;
    }
    db.DeleteCustomerAt(found.value);
    status := Ok;
  }
}
