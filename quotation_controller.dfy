/**
 * QuotationController: create, update, delete and show a quotation together
 * with its items. Each write inside `DB::beginTransaction()` ...
 * `DB::commit()` may throw; the parameter `failingWrite` names the write that
 * throws (counting from 0 in the order the controller issues them), or None
 * when every write succeeds. A throw rolls the transaction back.
 */
module QuotationController {
  import opened Wrappers
  import opened Http
  import opened Money
  import opened Seqs
  import opened Models
  import opened Requests

  /** Write number `n` throws. */
  predicate Throws(failingWrite: Option<nat>, n: nat) {
    failingWrite == Some(n)
  }

  /** One of the `count` writes numbered from `first` on throws. */
  predicate FailsWithin(failingWrite: Option<nat>, first: nat, count: nat) {
    failingWrite.Some? && first <= failingWrite.value < first + count
  }

  /** The inline rules of `store` (no `before_or_equal:today` on the date). */
  predicate StoreRulesOk(req: QuotationCreate, customers: seq<Customer>) {
    && req.customerId.Given? && CustomerExists(customers, req.customerId.value)
    && req.date.Given?
    && ItemsRulesOk(req.items)
  }

  /** The inline rules of `update`: `sometimes` on the date and on the items. */
  predicate UpdateRulesOk(req: QuotationPatch) {
    && !req.date.Null?
    && (!req.items.Missing? ==> ItemsRulesOk(req.items))
  }

  /** The row `store` or `update` writes for one validated request item. */
  function ItemRow(id: nat, qid: nat, f: ItemFields): Item {
    var quantity := f.quantity.Or(0);
    var unitPrice := f.unitPrice.Or(0);
    Item(id, qid, f.productName.Or(""), f.description.ToOption(), quantity, unitPrice, LineTotal(quantity, unitPrice))
  }

  /** The rows written for `inputs`, keys counting up from `firstId`. */
  function NewItems(qid: nat, firstId: nat, inputs: seq<ItemFields>): (rows: seq<Item>)
    ensures |rows| == |inputs|
    decreases |inputs|
  {
    if inputs == [] then []
    else
      var n := |inputs| - 1;
      NewItems(qid, firstId, inputs[..n]) + [ItemRow(firstId + n, qid, inputs[n])]
  }

  /** Row `i` of the written rows is the row for input `i`. */
  lemma {:induction false} NewItemsAt(qid: nat, firstId: nat, inputs: seq<ItemFields>, i: nat)
    requires i < |inputs|
    ensures NewItems(qid, firstId, inputs)[i] == ItemRow(firstId + i, qid, inputs[i])
    decreases |inputs|
  {
    var n := |inputs| - 1;
    if i < n {
      NewItemsAt(qid, firstId, inputs[..n], i);
    }
  }

  /** The number of writes `store` issues: the header, one per item, the grand total. */
  function StoreWrites(req: QuotationCreate): nat {
    if req.items.Given? then |req.items.value| + 2 else 2
  }

  /** The tables after a committed `store`. */
  function WithNewQuotation(t: Tables, customerId: nat, date: Date, inputs: seq<ItemFields>): Tables {
    var qid := t.nextQuotationId;
    var rows := NewItems(qid, t.nextItemId, inputs);
    t.(quotations := t.quotations + [Quotation(qid, customerId, date, RoundTotal(TotalOf(rows)))],
       items := t.items + rows,
       nextQuotationId := qid + 1,
       nextItemId := t.nextItemId + |inputs|)
  }

  /** What `store` answers and what the tables become. */
  function StoreEffect(t: Tables, req: QuotationCreate, failingWrite: Option<nat>): (Status, Tables) {
    if !StoreRulesOk(req, t.customers) then (Unprocessable, t)
    else if FailsWithin(failingWrite, 0, StoreWrites(req)) then (ServerError, t)
    else (Created, WithNewQuotation(t, req.customerId.value, req.date.value, req.items.value))
  }

  /** The number of writes `update` issues. */
  function UpdateWrites(req: QuotationPatch): nat {
    (if req.date.Given? then 1 else 0) + (if req.items.Given? then |req.items.value| + 2 else 0)
  }

  /** The quotation at position `k` with its date changed, when one was sent. */
  function Redated(t: Tables, k: nat, date: Field<Date>): Tables
    requires k < |t.quotations|
  {
    if date.Given? then t.(quotations := t.quotations[k := t.quotations[k].(date := date.value)]) else t
  }

  /**
   * The quotation at position `k` with its items replaced, when items were
   * sent: every old item deleted, the new ones inserted, the grand total
   * recomputed.
   */
  function Replaced(t: Tables, k: nat, items: Field<seq<ItemFields>>): Tables
    requires k < |t.quotations|
  {
    if items.Given? then
      var q := t.quotations[k];
      var rows := NewItems(q.id, t.nextItemId, items.value);
      t.(quotations := t.quotations[k := q.(grandTotal := RoundTotal(TotalOf(rows)))],
         items := Filter(t.items, NotOwnedBy(q.id)) + rows,
         nextItemId := t.nextItemId + |items.value|)
    else t
  }

  /** What `update` answers and what the tables become. */
  function UpdateEffect(t: Tables, qid: nat, req: QuotationPatch, failingWrite: Option<nat>): (Status, Tables) {
    match IndexOf(t.quotations, QuotationKey, qid)
    case None => (NotFound, t)
    case Some(k) =>
      if !UpdateRulesOk(req) then (Unprocessable, t)
      else if FailsWithin(failingWrite, 0, UpdateWrites(req)) then (ServerError, t)
      else (Ok, Replaced(Redated(t, k, req.date), k, req.items))
  }

  /** What `destroy` answers and what the tables become. */
  function DestroyEffect(t: Tables, qid: nat): (Status, Tables) {
    match IndexOf(t.quotations, QuotationKey, qid)
    case None => (NotFound, t)
    case Some(k) =>
      (Ok, t.(quotations := t.quotations[..k] + t.quotations[k + 1..],
              items := Filter(t.items, NotOwnedBy(qid))))
  }

  /** The body of `show`: the stored total and the number of units ordered. */
  datatype Summary = Summary(quotation: Quotation, items: seq<Item>, grandTotal: int, totalItems: int, date: Date)

  /** `show`: None stands for the 404 of route model binding. */
  function Show(t: Tables, qid: nat): Option<Summary> {
    match IndexOf(t.quotations, QuotationKey, qid)
    case None => None
    case Some(k) =>
      var q := t.quotations[k];
      var items := ItemsOf(t.items, qid);
      Some(Summary(q, items, q.grandTotal, QuantityOf(items), q.date))
  }

  /** PHP's `!$email`: the empty string and "0" are false. */
  predicate Falsy(s: string) {
    s == "" || s == "0"
  }

  /**
   * `sendEmail`: its guard, then the outcome of the mailer, which is the
   * parameter `delivered`. The tables are not changed.
   */
  function SendEmail(t: Tables, qid: nat, delivered: bool): Status {
    match IndexOf(t.quotations, QuotationKey, qid)
    case None => NotFound
    case Some(k) =>
      match IndexOf(t.customers, CustomerKey, t.quotations[k].customerId)
      case None => Unprocessable
      case Some(c) =>
        if Falsy(t.customers[c].email) then Unprocessable
        else if delivered then Ok
        else ServerError
  }

  /** `rows` are the rows for the first `i` inputs, keys counting up from `firstId`. */
  ghost predicate RowsSoFar(rows: seq<Item>, qid: nat, firstId: nat, inputs: seq<ItemFields>, i: nat) {
    && |rows| == i <= |inputs|
    && forall j :: 0 <= j < i ==> rows[j] == ItemRow(firstId + j, qid, inputs[j])
  }

  /** The row for input `i` extends the rows so far and their sum. */
  lemma RowsStep(rows: seq<Item>, qid: nat, firstId: nat, inputs: seq<ItemFields>, i: nat, row: Item)
    requires i < |inputs| && RowsSoFar(rows, qid, firstId, inputs, i)
    requires row == ItemRow(firstId + i, qid, inputs[i])
    ensures RowsSoFar(rows + [row], qid, firstId, inputs, i + 1)
    ensures TotalOf(rows + [row]) == TotalOf(rows) + row.totalPrice
  {
    SumBySnoc(rows, row, ItemTotal);
  }

  /** The rows for all inputs are the rows `NewItems` describes. */
  lemma RowsDone(rows: seq<Item>, qid: nat, firstId: nat, inputs: seq<ItemFields>)
    requires RowsSoFar(rows, qid, firstId, inputs, |inputs|)
    ensures rows == NewItems(qid, firstId, inputs)
  {
    forall j | 0 <= j < |inputs| ensures rows[j] == NewItems(qid, firstId, inputs)[j] {
      NewItemsAt(qid, firstId, inputs, j);
    }
  }

  /** One pass of the `foreach`: `QuotationItem::create` with the line total computed. */
  method InsertRow(db: Database, qid: nat, f: ItemFields) returns (row: Item)
    modifies db
    ensures row == ItemRow(old(db.nextItemId), qid, f)
    ensures db.items == old(db.items) + [row] && db.nextItemId == old(db.nextItemId) + 1
    ensures db.customers == old(db.customers) && db.quotations == old(db.quotations)
    ensures db.nextCustomerId == old(db.nextCustomerId) && db.nextQuotationId == old(db.nextQuotationId)
  {
    var quantity := f.quantity.Or(0);
    var unitPrice := f.unitPrice.Or(0);
    var total := LineTotal(quantity, unitPrice);
    var id := db.InsertItem(qid, f.productName.Or(""), f.description.ToOption(), quantity, unitPrice, total);
    row := Item(id, qid, f.productName.Or(""), f.description.ToOption(), quantity, unitPrice, total);
  }

  /**
   * The `foreach` shared by `store` and `update`: insert one row per input
   * item, adding up the line totals. Its writes are numbered from
   * `firstWrite`; when one throws it stops and reports failure, leaving the
   * rollback to its caller.
   */
  method CreateItems(db: Database, qid: nat, inputs: seq<ItemFields>, failingWrite: Option<nat>, firstWrite: nat)
    returns (ok: bool, grandTotal: int)
    modifies db
    ensures ok <==> !FailsWithin(failingWrite, firstWrite, |inputs|)
    ensures ok ==> db.State() == old(db.State()).(
      items := old(db.items) + NewItems(qid, old(db.nextItemId), inputs),
      nextItemId := old(db.nextItemId) + |inputs|)
    ensures ok ==> grandTotal == TotalOf(NewItems(qid, old(db.nextItemId), inputs))
  {
    ghost var start := db.State();
    var firstId := db.nextItemId;
    ghost var rows: seq<Item> := [];
    grandTotal := 0;
    var i := 0;
    while i < |inputs|
      invariant 0 <= i <= |inputs| && RowsSoFar(rows, qid, firstId, inputs, i)
      invariant !FailsWithin(failingWrite, firstWrite, i)
      invariant db.items == start.items + rows && db.nextItemId == firstId + i
      invariant db.customers == start.customers && db.quotations == start.quotations
      invariant db.nextCustomerId == start.nextCustomerId && db.nextQuotationId == start.nextQuotationId
      invariant grandTotal == TotalOf(rows)
    {
      if Throws(failingWrite, firstWrite + i) {
        return false, grandTotal;
      }
      var row := InsertRow(db, qid, inputs[i]);
      RowsStep(rows, qid, firstId, inputs, i, row);
      rows := rows + [row];
      grandTotal := grandTotal + row.totalPrice;
      i := i + 1;
    }
    RowsDone(rows, qid, firstId, inputs);
    ok := true;
  }

  /** `store`. */
  method Store(db: Database, req: QuotationCreate, failingWrite: Option<nat>) returns (status: Status)
    modifies db
    ensures (status, db.State()) == StoreEffect(old(db.State()), req, failingWrite)
  {
    if !StoreRulesOk(req, db.customers) {
      return Unprocessable;
    }
    var inputs := req.items.value;
    var saved := db.State();
    if Throws(failingWrite, 0) {
      db.Restore(saved);
      return ServerError;
    }
    var qid := db.InsertQuotation(req.customerId.value, req.date.value, 0);
    assert qid == saved.nextQuotationId;
    var ok, grandTotal := CreateItems(db, qid, inputs, failingWrite, 1);
    if !ok {
      db.Restore(saved);
      return ServerError;
    }
    if Throws(failingWrite, |inputs| + 1) {
      db.Restore(saved);
      return ServerError;
    }
    var k := |db.quotations| - 1;
    assert k == |saved.quotations|;
    db.SetQuotationAt(k, db.quotations[k].(grandTotal := RoundTotal(grandTotal)));
    assert db.quotations == saved.quotations + [Quotation(qid, req.customerId.value, req.date.value, RoundTotal(grandTotal))];
    assert db.State() == WithNewQuotation(saved, req.customerId.value, req.date.value, inputs);
    status := Created;
  }

  /**
   * The item part of `update`: delete the quotation's items, insert the new
   * ones, save the recomputed grand total. Its writes are numbered from
   * `firstWrite`; when one throws it stops and reports failure, leaving the
   * rollback to its caller.
   */
  method ReplaceItems(db: Database, k: nat, qid: nat, inputs: seq<ItemFields>, failingWrite: Option<nat>, firstWrite: nat)
    returns (ok: bool)
    requires k < |db.quotations| && db.quotations[k].id == qid
    modifies db
    ensures ok <==> !FailsWithin(failingWrite, firstWrite, |inputs| + 2)
    ensures ok ==> db.State() == Replaced(old(db.State()), k, Given(inputs))
  {
    if Throws(failingWrite, firstWrite) {
      return false;
    }
    db.DeleteItemsOf(qid);
    var created, grandTotal := CreateItems(db, qid, inputs, failingWrite, firstWrite + 1);
    if !created {
      return false;
    }
    if Throws(failingWrite, firstWrite + 1 + |inputs|) {
      return false;
    }
    db.SetQuotationAt(k, db.quotations[k].(grandTotal := RoundTotal(grandTotal)));
    ok := true;
  }

  /** `update`. */
  method Update(db: Database, qid: nat, req: QuotationPatch, failingWrite: Option<nat>) returns (status: Status)
    modifies db
    ensures (status, db.State()) == UpdateEffect(old(db.State()), qid, req, failingWrite)
  {
    var found := IndexOf(db.quotations, QuotationKey, qid);
    if found.None? {
      return NotFound;
    }
    var k := found.value;
    if !UpdateRulesOk(req) {
      return Unprocessable;
    }
    var saved := db.State();
    var write := 0;
    if req.date.Given? {
      if Throws(failingWrite, write) {
        db.Restore(saved);
        return ServerError;
      }
      db.SetQuotationAt(k, db.quotations[k].(date := req.date.value));
      write := write + 1;
    }
    ghost var mid := db.State();
    assert mid == Redated(saved, k, req.date);
    assert mid.quotations[k].id == qid;
    if req.items.Given? {
      var ok := ReplaceItems(db, k, qid, req.items.value, failingWrite, write);
      if !ok {
        db.Restore(saved);
        return ServerError;
      }
    }
    status := Ok;
  }

  /** `destroy`. */
  method Destroy(db: Database, qid: nat) returns (status: Status)
    modifies db
    ensures (status, db.State()) == DestroyEffect(old(db.State()), qid)
  {
    var found := IndexOf(db.quotations, QuotationKey, qid);
    if found.None? {
      return NotFound;
    }
    db.DeleteQuotationAt(found.value);
    status := Ok;
  }
}
