/**
 * What the customer endpoints guarantee: search finds exactly the matching
 * customers, `show` recomputes each quotation's total and counts its items,
 * and the writes keep keys and emails unique.
 */
module CustomerProperties {
  import opened Wrappers
  import opened Http
  import opened Seqs
  import opened Models
  import opened Requests
  import opened CustomerController

  // ---------------------------------------------------------------------------
  // search

  /** The empty string occurs in every string. */
  lemma ContainsEmpty(text: string)
    ensures Contains(text, "")
  {
    assert OccursAt(text, "", 0);
  }

  /** A missing or empty term matches every customer, so `search` returns them all, in order. */
  lemma SearchWithoutTermReturnsAll(customers: seq<Customer>, term: Option<string>)
    requires term == None || term == Some("")
    ensures Search(customers, term) == customers
  {
    forall i | 0 <= i < |customers| ensures MatchesTerm("")(customers[i]) {
      ContainsEmpty(customers[i].name);
    }
    FilterKeepsAll(customers, MatchesTerm(""));
  }

  /**
   * `search` returns a customer exactly when the term occurs in its name,
   * its email or its contact.
   */
  lemma SearchIsSubstringMatch(customers: seq<Customer>, term: string, c: Customer)
    requires c in customers
    ensures c in Search(customers, Some(term)) <==>
      (exists k :: OccursAt(c.name, term, k)) || (exists k :: OccursAt(c.email, term, k))
      || (exists k :: OccursAt(c.contact, term, k))
  {
    var r := Search(customers, Some(term));
    if c in r {
      var i :| 0 <= i < |r| && r[i] == c;
      assert Matches(r[i], term);
    }
  }

  // ---------------------------------------------------------------------------
  // show

  /**
   * `show` finds the customer by key and lists its quotations in order, each
   * with its own items, their count as `total_items`, and their sum as the
   * grand total: 0 for a quotation without items.
   */
  lemma CustomerShowRecomputes(t: Tables, cid: nat)
    ensures Show(t, cid).None? <==> forall i :: 0 <= i < |t.customers| ==> t.customers[i].id != cid
    ensures Show(t, cid).Some? ==>
      var s := Show(t, cid).value;
      && s.customer in t.customers && s.customer.id == cid
      && |s.quotations| == |QuotationsOf(t.quotations, cid)|
      && forall i :: 0 <= i < |s.quotations| ==>
           var line := s.quotations[i];
           && line.quotation in t.quotations && line.quotation.customerId == cid
           && line.items == ItemsOf(t.items, line.quotation.id)
           && line.totalItems == |line.items|
           && line.grandTotal == TotalOf(line.items)
           && (line.items == [] ==> line.grandTotal == 0)
  {
    FilterMembers(t.quotations, PlacedBy(cid));
  }

  /**
   * When every stored grand total agrees with its items, the recomputed
   * totals of `show` are the stored ones.
   */
  lemma CustomerShowAgreesWhenConsistent(t: Tables, cid: nat)
    requires TotalsConsistent(t) && Show(t, cid).Some?
    ensures forall i :: 0 <= i < |Show(t, cid).value.quotations| ==>
      Show(t, cid).value.quotations[i].grandTotal == Show(t, cid).value.quotations[i].quotation.grandTotal
  {
    var lines := Show(t, cid).value.quotations;
    forall i | 0 <= i < |lines| ensures lines[i].grandTotal == lines[i].quotation.grandTotal {
      CustomerShowRecomputes(t, cid);
      var q := lines[i].quotation;
      var k :| 0 <= k < |t.quotations| && t.quotations[k] == q;
    }
  }

  /**
   * The customer view counts items, the quotation view sums quantities: in
   * valid tables the count is at most the sum, and the two agree exactly when
   * every item of the quotation has quantity 1.
   */
  lemma CustomerShowCountsItems(t: Tables, cid: nat)
    requires Valid(t) && Show(t, cid).Some?
    ensures forall i :: 0 <= i < |Show(t, cid).value.quotations| ==>
      var line := Show(t, cid).value.quotations[i];
      && line.totalItems <= QuantityOf(line.items)
      && (line.totalItems == QuantityOf(line.items) <==> forall j :: 0 <= j < |line.items| ==> line.items[j].quantity == 1)
  {
    match IndexOf(t.customers, CustomerKey, cid)
    case Some(k) =>
      var lines := Lines(QuotationsOf(t.quotations, cid), t.items);
      forall i | 0 <= i < |lines|
        ensures lines[i].totalItems <= QuantityOf(lines[i].items)
        ensures lines[i].totalItems == QuantityOf(lines[i].items)
            <==> forall j :: 0 <= j < |lines[i].items| ==> lines[i].items[j].quantity == 1
      {
        CountAtMostQuantity(t, lines[i].quotation.id);
      }
  }

  /** In valid tables every item has quantity at least 1, so a quotation has at most as many items as units. */
  lemma CountAtMostQuantity(t: Tables, qid: nat)
    requires Valid(t)
    ensures |ItemsOf(t.items, qid)| <= QuantityOf(ItemsOf(t.items, qid))
    ensures |ItemsOf(t.items, qid)| == QuantityOf(ItemsOf(t.items, qid))
        <==> forall j :: 0 <= j < |ItemsOf(t.items, qid)| ==> ItemsOf(t.items, qid)[j].quantity == 1
  {
    var items := ItemsOf(t.items, qid);
    FilterMembers(t.items, OwnedBy(qid));
    forall j | 0 <= j < |items| ensures ItemQuantity(items[j]) >= 1 {
      assert items[j] in t.items;
    }
    SumByAtLeastLength(items, ItemQuantity);
  }

  // ---------------------------------------------------------------------------
  // store

  /**
   * `store` answers 422 and writes nothing exactly when the form request
   * rejects the input; otherwise it appends one customer under the next key
   * with the submitted fields.
   */
  lemma CustomerStoreOutcome(t: Tables, f: CustomerFields, today: Date, emailOk: string -> bool)
    ensures StoreEffect(t, f, today, emailOk).0 == Unprocessable <==> !StoreCustomerRequestOk(f, t.customers, today, emailOk)
    ensures StoreEffect(t, f, today, emailOk).0 == Unprocessable ==> StoreEffect(t, f, today, emailOk).1 == t
    ensures StoreEffect(t, f, today, emailOk).0 == Created ==>
      var t' := StoreEffect(t, f, today, emailOk).1;
      && |t'.customers| == |t.customers| + 1
      && t'.customers[..|t.customers|] == t.customers
      && t'.nextCustomerId == t.nextCustomerId + 1
      && t'.quotations == t.quotations && t'.items == t.items
    ensures StoreEffect(t, f, today, emailOk).0 == Created ==>
      var c := StoreEffect(t, f, today, emailOk).1.customers[|t.customers|];
      && c.id == t.nextCustomerId
      && c.name == f.name.value && c.dateOfBirth == f.dateOfBirth.value && c.dateOfBirth < today
      && c.email == f.email.value && c.contact == f.contact.value && Digits(c.contact, 11)
      && c.address == f.address.ToOption()
  {
    if StoreEffect(t, f, today, emailOk).0 == Created {
      var t' := StoreEffect(t, f, today, emailOk).1;
      assert t'.customers[..|t.customers|] == t.customers;
    }
  }

  /** `store` keeps keys ordered and emails unique. */
  lemma CustomerStorePreservesValid(t: Tables, f: CustomerFields, today: Date, emailOk: string -> bool)
    requires Valid(t)
    ensures Valid(StoreEffect(t, f, today, emailOk).1)
  {
    if StoreEffect(t, f, today, emailOk).0 == Created {
      var t' := StoreEffect(t, f, today, emailOk).1;
      var n := |t.customers|;
      forall i, j | 0 <= i < j < |t'.customers| ensures t'.customers[i].email != t'.customers[j].email {
        if j == n {
          assert t'.customers[i] == t.customers[i];
        } else {
          assert t'.customers[i] == t.customers[i] && t'.customers[j] == t.customers[j];
        }
      }
      forall i, j | 0 <= i < j < |t'.customers| ensures CustomerKey(t'.customers[i]) < CustomerKey(t'.customers[j]) {
        assert t'.customers[i] == t.customers[i];
      }
    }
  }

  // ---------------------------------------------------------------------------
  // update

  /**
   * A committed `update` changes only that customer, and of it only the
   * fields that were sent: a missing name, date of birth, email or address
   * keeps its stored value; the contact, which is always required, is
   * replaced. Its key, the other customers, the quotations and the items
   * stay as they were.
   */
  lemma CustomerUpdateChangesSentFields(t: Tables, cid: nat, f: CustomerFields, today: Date, emailOk: string -> bool)
    returns (k: nat)
    requires UpdateEffect(t, cid, f, today, emailOk).0 == Ok
    ensures k < |t.customers| && t.customers[k].id == cid
    ensures var t' := UpdateEffect(t, cid, f, today, emailOk).1;
      && |t'.customers| == |t.customers|
      && (forall j :: 0 <= j < |t.customers| && j != k ==> t'.customers[j] == t.customers[j])
      && t'.quotations == t.quotations && t'.items == t.items
    ensures var (c, c') := (t.customers[k], UpdateEffect(t, cid, f, today, emailOk).1.customers[k]);
      && c'.id == c.id
      && (if f.name.Missing? then c'.name == c.name else c'.name == f.name.value)
      && (if f.dateOfBirth.Missing? then c'.dateOfBirth == c.dateOfBirth
          else c'.dateOfBirth == f.dateOfBirth.value && c'.dateOfBirth < today)
      && (if f.email.Missing? then c'.email == c.email else c'.email == f.email.value)
      && (if f.address.Missing? then c'.address == c.address else c'.address == f.address.ToOption())
      && c'.contact == f.contact.value && |c'.contact| == 11
  {
    k := Found(t.customers, CustomerKey, cid);
  }

  /** Updates that fail change nothing. */
  lemma CustomerUpdateRejects(t: Tables, cid: nat, f: CustomerFields, today: Date, emailOk: string -> bool)
    ensures UpdateEffect(t, cid, f, today, emailOk).0 == NotFound
        <==> forall i :: 0 <= i < |t.customers| ==> t.customers[i].id != cid
    ensures UpdateEffect(t, cid, f, today, emailOk).0 != Ok ==> UpdateEffect(t, cid, f, today, emailOk).1 == t
    ensures f.contact.Missing? || f.contact.Null? ==> UpdateEffect(t, cid, f, today, emailOk).0 != Ok
  {
    if IndexOf(t.customers, CustomerKey, cid).Some? {
      var k := Found(t.customers, CustomerKey, cid);
    }
  }

  /** Under the unique index an email names at most one customer. */
  lemma EmailNamesOneRow(customers: seq<Customer>, a: nat, b: nat)
    requires EmailsUnique(customers)
    requires a < |customers| && b < |customers| && customers[a].email == customers[b].email
    ensures a == b
  {
  }

  /**
   * The uniqueness rule of an update ignores the customer's own row: in valid
   * tables an email passes it exactly when no other customer has it, so the
   * customer's current email always passes.
   */
  lemma UpdateEmailIgnoresSelf(t: Tables, cid: nat, email: string)
    requires Valid(t)
    ensures EmailFree(t.customers, email, Some(cid))
        <==> forall i :: 0 <= i < |t.customers| && t.customers[i].id != cid ==> t.customers[i].email != email
    ensures forall i :: 0 <= i < |t.customers| && t.customers[i].id == cid ==> EmailFree(t.customers, t.customers[i].email, Some(cid))
  {
    forall i | 0 <= i < |t.customers| && t.customers[i].id == cid
      ensures EmailFree(t.customers, t.customers[i].email, Some(cid))
    {
      forall j | 0 <= j < |t.customers| && t.customers[j].email == t.customers[i].email
        ensures Some(t.customers[j].id) == Some(cid)
      {
        EmailNamesOneRow(t.customers, i, j);
      }
    }
  }

  /** `update` keeps keys ordered and emails unique. */
  lemma CustomerUpdatePreservesValid(t: Tables, cid: nat, f: CustomerFields, today: Date, emailOk: string -> bool)
    requires Valid(t)
    ensures Valid(UpdateEffect(t, cid, f, today, emailOk).1)
  {
    if UpdateEffect(t, cid, f, today, emailOk).0 == Ok {
      var t' := UpdateEffect(t, cid, f, today, emailOk).1;
      var k := CustomerUpdateChangesSentFields(t, cid, f, today, emailOk);
      assert t'.customers == t.customers[k := t'.customers[k]];
      KeysBelowUpdate(t.customers, k, t'.customers[k], CustomerKey, t.nextCustomerId);
      forall i, j | 0 <= i < j < |t'.customers| ensures t'.customers[i].email != t'.customers[j].email {
        if i == k {
          assert t.customers[j].id != cid by {
            assert CustomerKey(t.customers[k]) < CustomerKey(t.customers[j]);
          }
        } else if j == k {
          assert t.customers[i].id != cid by {
            assert CustomerKey(t.customers[i]) < CustomerKey(t.customers[k]);
          }
        }
      }
    }
  }

  // ---------------------------------------------------------------------------
  // destroy

  /**
   * `destroy` answers 404 for a missing key and changes nothing; otherwise it
   * removes exactly that customer and leaves the other customers, the
   * quotations and the items as they were.
   */
  lemma CustomerDestroyRemovesOne(t: Tables, cid: nat)
    requires Valid(t)
    ensures DestroyEffect(t, cid).0 == NotFound <==> forall i :: 0 <= i < |t.customers| ==> t.customers[i].id != cid
    ensures DestroyEffect(t, cid).0 == NotFound ==> DestroyEffect(t, cid).1 == t
    ensures DestroyEffect(t, cid).0 == Ok ==>
      var t' := DestroyEffect(t, cid).1;
      && |t'.customers| == |t.customers| - 1
      && (forall c :: c in t.customers ==> (c in t'.customers <==> c.id != cid))
      && (forall c :: c in t'.customers ==> c in t.customers)
      && t'.quotations == t.quotations && t'.items == t.items
  {
    if IndexOf(t.customers, CustomerKey, cid).Some? {
      var t' := DestroyEffect(t, cid).1;
      var k := Found(t.customers, CustomerKey, cid);
      forall c | c in t.customers || c in t'.customers
        ensures c in t'.customers ==> c in t.customers
        ensures c in t.customers ==> (c in t'.customers <==> c.id != cid)
      {
        RemoveKeepsOthers(t.customers, k, CustomerKey, t.nextCustomerId, c);
      }
    }
  }

  /** `destroy` keeps keys ordered and emails unique. */
  lemma CustomerDestroyPreservesValid(t: Tables, cid: nat)
    requires Valid(t)
    ensures Valid(DestroyEffect(t, cid).1)
  {
    match IndexOf(t.customers, CustomerKey, cid)
    case None =>
    case Some(k) =>
      var rest := t.customers[..k] + t.customers[k + 1..];
      KeysBelowRemove(t.customers, k, CustomerKey, t.nextCustomerId);
      EmailsUniqueRemove(t.customers, k);
      NewCustomersKeepValid(t, rest);
  }

  /** Valid tables stay valid when only the customer table changes and it keeps keys and emails unique. */
  lemma NewCustomersKeepValid(t: Tables, customers: seq<Customer>)
    requires Valid(t)
    requires KeysBelow(customers, CustomerKey, t.nextCustomerId) && EmailsUnique(customers)
    ensures Valid(t.(customers := customers))
  {
  }

  /** Removing a customer keeps the other emails unique. */
  lemma EmailsUniqueRemove(customers: seq<Customer>, k: nat)
    requires EmailsUnique(customers) && k < |customers|
    ensures EmailsUnique(customers[..k] + customers[k + 1..])
  {
    var rest := customers[..k] + customers[k + 1..];
    forall i, j | 0 <= i < j < |rest| ensures rest[i].email != rest[j].email {
      var i0 := if i < k then i else i + 1;
      var j0 := if j < k then j else j + 1;
      assert rest[i] == customers[i0] && rest[j] == customers[j0];
    }
  }
}
