/**
 * What the four form requests accept and reject, stated case by case, and
 * where the create and update rules of a customer differ.
 */
module RequestProperties {
  import opened Wrappers
  import opened Http
  import opened Seqs
  import opened Models
  import opened Requests

  /**
   * StoreQuotationRequest rejects a request without items or with an empty
   * list, with any bad line, with a date after today, or naming a customer
   * that does not exist.
   */
  lemma StoreQuotationRequestRejects(req: QuotationCreate, customers: seq<Customer>, today: Date)
    ensures !req.items.Given? ==> !StoreQuotationRequestOk(req, customers, today)
    ensures req.items == Given([]) ==> !StoreQuotationRequestOk(req, customers, today)
    ensures req.items.Given? && (exists i :: 0 <= i < |req.items.value| && !LineRulesOk(req.items.value[i]))
        ==> !StoreQuotationRequestOk(req, customers, today)
    ensures req.date.Given? && req.date.value > today ==> !StoreQuotationRequestOk(req, customers, today)
    ensures req.customerId.Given? && (forall i :: 0 <= i < |customers| ==> customers[i].id != req.customerId.value)
        ==> !StoreQuotationRequestOk(req, customers, today)
  {
  }

  /** UpdateQuotationRequest accepts a request that sends neither field. */
  lemma UpdateQuotationRequestAcceptsEmpty(today: Date)
    ensures UpdateQuotationRequestOk(QuotationPatch(Missing, Missing), today)
  {
  }

  /**
   * UpdateQuotationRequest rejects items sent as an empty list or with a bad
   * line, and a date after today; a date sent alone passes when it is not
   * after today.
   */
  lemma UpdateQuotationRequestRejects(req: QuotationPatch, today: Date)
    ensures req.items == Given([]) ==> !UpdateQuotationRequestOk(req, today)
    ensures req.items.Given? && (exists i :: 0 <= i < |req.items.value| && !LineRulesOk(req.items.value[i]))
        ==> !UpdateQuotationRequestOk(req, today)
    ensures req.date.Given? && req.date.value > today ==> !UpdateQuotationRequestOk(req, today)
    ensures req.items.Missing? && req.date.Given? ==> (UpdateQuotationRequestOk(req, today) <==> req.date.value <= today)
  {
  }

  /**
   * StoreCustomerRequest rejects a blank or overlong name, a date of birth
   * that is not before today, a non-blank address over 1000 characters, an email some
   * customer already has, and a contact that is not 11 digits.
   */
  lemma StoreCustomerRequestRejects(f: CustomerFields, customers: seq<Customer>, today: Date, emailOk: string -> bool)
    ensures !Required(f.name) || |f.name.value| > 255 ==> !StoreCustomerRequestOk(f, customers, today, emailOk)
    ensures !f.dateOfBirth.Given? || f.dateOfBirth.value >= today ==> !StoreCustomerRequestOk(f, customers, today, emailOk)
    ensures f.address.Given? && !Blank(f.address.value) && |f.address.value| > 1000
        ==> !StoreCustomerRequestOk(f, customers, today, emailOk)
    ensures f.email.Given? && (exists i :: 0 <= i < |customers| && customers[i].email == f.email.value)
        ==> !StoreCustomerRequestOk(f, customers, today, emailOk)
    ensures f.contact.Given? && !Digits(f.contact.value, 11) ==> !StoreCustomerRequestOk(f, customers, today, emailOk)
    ensures StoreCustomerRequestOk(f, customers, today, emailOk)
        ==> f.address.Missing? || f.address.Null? || Blank(f.address.value) || |f.address.value| <= 1000
  {
  }

  /**
   * The address rules `nullable|string|max:1000` are not implicit, so the
   * validator skips them for a blank address: both customer requests treat
   * a blank address, whatever its length, as they treat a null one.
   */
  lemma BlankAddressSkipsMax(f: CustomerFields, customers: seq<Customer>, self: nat, today: Date,
                             emailOk: string -> bool)
    requires f.address.Given? && Blank(f.address.value)
    ensures StoreCustomerRequestOk(f, customers, today, emailOk)
        <==> StoreCustomerRequestOk(f.(address := Null), customers, today, emailOk)
    ensures UpdateCustomerRequestOk(f, customers, self, today, emailOk)
        <==> UpdateCustomerRequestOk(f.(address := Null), customers, self, today, emailOk)
  {
  }

  /**
   * UpdateCustomerRequest lets name, date of birth and email be left out:
   * with all three missing it only checks the address and the contact. The
   * contact may never be left out.
   */
  lemma UpdateCustomerRequestOptionalFields(f: CustomerFields, customers: seq<Customer>, self: nat, today: Date,
                                            emailOk: string -> bool)
    ensures f.name.Missing? && f.dateOfBirth.Missing? && f.email.Missing? ==>
      (UpdateCustomerRequestOk(f, customers, self, today, emailOk)
       <==> AddressOk(f.address) && Required(f.contact) && |f.contact.value| == 11)
    ensures !f.contact.Given? ==> !UpdateCustomerRequestOk(f, customers, self, today, emailOk)
    ensures f.name.Null? || f.dateOfBirth.Null? || f.email.Null? ==> !UpdateCustomerRequestOk(f, customers, self, today, emailOk)
    ensures f.dateOfBirth.Given? && f.dateOfBirth.value >= today ==> !UpdateCustomerRequestOk(f, customers, self, today, emailOk)
  {
  }

  /**
   * The update rule only counts a contact's characters, so it accepts an
   * 11-character contact with a dash, sent alone, that the create rule
   * rejects whatever else the request carries.
   */
  lemma UpdateContactNeedNotBeDigits(f: CustomerFields, customers: seq<Customer>, self: nat, today: Date,
                                     emailOk: string -> bool)
    requires f.contact == Given("0912-345678")
    ensures UpdateCustomerRequestOk(CustomerFields(Missing, Missing, Missing, Missing, f.contact),
                                    customers, self, today, emailOk)
    ensures !StoreCustomerRequestOk(f, customers, today, emailOk)
  {
    var contact := "0912-345678";
    assert contact[4] == '-';
    assert !Blank(contact) by {
      assert contact[0] !in TrimmedChars;
    }
  }
}
