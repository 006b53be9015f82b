/**
 * QuotationItemController: edit or delete one quotation item on its own.
 * Neither operation touches the owning quotation, so its stored grand total
 * can drift away from the sum of its items.
 */
module QuotationItemController {
  import opened Wrappers
  import opened Http
  import opened Money
  import opened Seqs
  import opened Models
  import opened Requests

  /**
   * The inline rules of `update`: every field may be left out (`sometimes`),
   * and one that is sent must not be null and must meet its bound. No rule
   * here is implicit, so a blank name skips `max:255`.
   */
  predicate PatchRulesOk(p: ItemFields) {
    && !p.productName.Null?
    && (p.productName.Given? ==> Blank(p.productName.value) || |p.productName.value| <= 255)
    && !p.description.Null?
    && !p.quantity.Null? && (p.quantity.Given? ==> p.quantity.value >= 1)
    && !p.unitPrice.Null? && (p.unitPrice.Given? ==> p.unitPrice.value >= 0)
  }

  /** Quantity or unit price was sent, so the line total is recomputed. */
  predicate Reprices(p: ItemFields) {
    p.quantity.Given? || p.unitPrice.Given?
  }

  /**
   * The item after `update($data)`: every sent field replaced, and the line
   * total recomputed from the new-or-old quantity and unit price when either
   * of them was sent.
   */
  function Patched(it: Item, p: ItemFields): (r: Item)
    ensures r.id == it.id && r.quotationId == it.quotationId
    ensures r.productName == p.productName.Or(it.productName)
    ensures r.description == (if p.description.Given? then Some(p.description.value) else it.description)
    ensures r.quantity == p.quantity.Or(it.quantity) && r.unitPrice == p.unitPrice.Or(it.unitPrice)
    ensures Reprices(p) ==> r.totalPrice == LineTotal(r.quantity, r.unitPrice)
    ensures !Reprices(p) ==> r.totalPrice == it.totalPrice && r == it.(
      productName := r.productName, description := r.description)
  {
    var data := it.(productName := p.productName.Or(it.productName),
                    description := if p.description.Given? then Some(p.description.value) else it.description,
                    quantity := p.quantity.Or(it.quantity),
                    unitPrice := p.unitPrice.Or(it.unitPrice));
    if Reprices(p) then data.(totalPrice := LineTotal(data.quantity, data.unitPrice)) else data
  }

  /** What `update` answers and what the tables become. */
  function UpdateEffect(t: Tables, iid: nat, p: ItemFields): (Status, Tables) {
    match IndexOf(t.items, ItemKey, iid)
    case None => (NotFound, t)
    case Some(k) =>
      if !PatchRulesOk(p) then (Unprocessable, t)
      else (Ok, t.(items := t.items[k := Patched(t.items[k], p)]))
  }

  /** What `destroy` answers and what the tables become. */
  function DestroyEffect(t: Tables, iid: nat): (Status, Tables) {
    match IndexOf(t.items, ItemKey, iid)
    case None => (NotFound, t)
    case Some(k) => (Ok, t.(items := t.items[..k] + t.items[k + 1..]))
  }

  /** `update`. */
  method Update(db: Database, iid: nat, p: ItemFields) returns (status: Status)
    modifies db
    ensures (status, db.State()) == UpdateEffect(old(db.State()), iid, p)
  {
    var found := IndexOf(db.items, ItemKey, iid);
    if found.None? {
      return NotFound;
    }
    var k := found.value;
    if !PatchRulesOk(p) {
      return Unprocessable;
    }
    var it := db.items[k];
    var data := it;
    if p.productName.Given? {
      data := data.(productName := p.productName.value);
    }
    if p.description.Given? {
      data := data.(description := Some(p.description.value));
    }
    if p.quantity.Given? {
      data := data.(quantity := p.quantity.value);
    }
    if p.unitPrice.Given? {
      data := data.(unitPrice := p.unitPrice.value);
    }
    if p.quantity.Given? || p.unitPrice.Given? {
      data := data.(totalPrice := LineTotal(data.quantity, data.unitPrice));
    }
    db.SetItemAt(k, data);
    status := Ok;
  }

  /** `destroy`. */
  method Destroy(db: Database, iid: nat) returns (status: Status)
    modifies db
    ensures (status, db.State()) == DestroyEffect(old(db.State()), iid)
  {
    var found := IndexOf(db.items, ItemKey, iid);
    if found.None? {
      return NotFound;
    }
    db.DeleteItemAt(found.value);
    status := Ok;
  }
}
