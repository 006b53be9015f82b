/**
 * The form requests' validation rules (`rules()` of StoreQuotationRequest,
 * UpdateQuotationRequest, StoreCustomerRequest and UpdateCustomerRequest) as
 * predicates over a request's fields. "Today" is a parameter; whether an
 * address passes `email:rfc,dns` is the parameter `emailOk`.
 */
module Requests {
  import opened Wrappers
  import opened Http
  import opened Seqs
  import opened Models

  /** The fields of one quotation item in a request (`items.*`), or of an item edit. */
  datatype ItemFields = ItemFields(
    productName: Field<string>,
    description: Field<string>,
    quantity: Field<int>,
    unitPrice: Field<int>)

  /** The input of a quotation create request. */
  datatype QuotationCreate = QuotationCreate(
    customerId: Field<nat>,
    date: Field<Date>,
    items: Field<seq<ItemFields>>)

  /** The input of a quotation update request. It has no rule for `customer_id`. */
  datatype QuotationPatch = QuotationPatch(date: Field<Date>, items: Field<seq<ItemFields>>)

  /** The input of a customer create or update request. */
  datatype CustomerFields = CustomerFields(
    name: Field<string>,
    dateOfBirth: Field<Date>,
    address: Field<string>,
    email: Field<string>,
    contact: Field<string>)

  /** The characters PHP's `trim` removes. */
  const TrimmedChars: set<char> := {' ', '\t', '\n', '\r', '\0', '\U{000B}'}

  /** A string that is empty after `trim`. */
  predicate Blank(s: string) {
    forall i :: 0 <= i < |s| ==> s[i] in TrimmedChars
  }

  /** Laravel's `required` on a string: present, not null, not blank. */
  predicate Required(f: Field<string>) {
    f.Given? && !Blank(f.value)
  }

  /** `digits:n`: exactly `n` characters, each a decimal digit. */
  predicate Digits(s: string, n: nat) {
    |s| == n && forall i :: 0 <= i < |s| ==> '0' <= s[i] <= '9'
  }

  /** `exists:customers,id`. */
  predicate CustomerExists(customers: seq<Customer>, id: nat) {
    IndexOf(customers, CustomerKey, id).Some?
  }

  /**
   * `unique:customers,email`, optionally ignoring the row whose key is
   * `ignore` (`Rule::unique(...)->ignore($id)`).
   */
  predicate EmailFree(customers: seq<Customer>, email: string, ignore: Option<nat>) {
    forall i :: 0 <= i < |customers| && customers[i].email == email ==> Some(customers[i].id) == ignore
  }

  /**
   * The rules of one element of `items`: `product_name` required, a string of
   * at most 255 characters; `item_description` nullable; `quantity` a
   * required integer of at least 1; `unit_price` a required number of at
   * least 0.
   */
  predicate LineRulesOk(f: ItemFields) {
    && Required(f.productName) && |f.productName.value| <= 255
    && f.quantity.Given? && f.quantity.value >= 1
    && f.unitPrice.Given? && f.unitPrice.value >= 0
  }

  /** `items` present as an array with at least one element, each one valid. */
  predicate ItemsRulesOk(items: Field<seq<ItemFields>>) {
    && items.Given?
    && |items.value| >= 1
    && forall i :: 0 <= i < |items.value| ==> LineRulesOk(items.value[i])
  }

  /** StoreQuotationRequest::rules(). */
  predicate StoreQuotationRequestOk(req: QuotationCreate, customers: seq<Customer>, today: Date) {
    && req.customerId.Given? && CustomerExists(customers, req.customerId.value)
    && req.date.Given? && req.date.value <= today
    && ItemsRulesOk(req.items)
  }

  /**
   * UpdateQuotationRequest::rules(): each field may be left out, but one that
   * is sent must be valid (`sometimes`).
   */
  predicate UpdateQuotationRequestOk(req: QuotationPatch, today: Date) {
    && !req.date.Null?
    && (req.date.Given? ==> req.date.value <= today)
    && (!req.items.Missing? ==> ItemsRulesOk(req.items))
  }

  /**
   * `address`: nullable, a string of at most 1000 characters. Rules that are
   * not implicit are skipped for a string that is blank after `trim`, so a
   * blank address passes whatever its length.
   */
  predicate AddressOk(f: Field<string>) {
    f.Given? ==> Blank(f.value) || |f.value| <= 1000
  }

  /** StoreCustomerRequest::rules(). */
  predicate StoreCustomerRequestOk(f: CustomerFields, customers: seq<Customer>, today: Date,
                                   emailOk: string -> bool) {
    && Required(f.name) && |f.name.value| <= 255
    && f.dateOfBirth.Given? && f.dateOfBirth.value < today
    && AddressOk(f.address)
    && Required(f.email) && emailOk(f.email.value) && EmailFree(customers, f.email.value, None)
    && Required(f.contact) && Digits(f.contact.value, 11)
  }

  /**
   * UpdateCustomerRequest::rules() for the customer whose key is `self`.
   * Name, date of birth and email may be left out; the contact may not.
   */
  predicate UpdateCustomerRequestOk(f: CustomerFields, customers: seq<Customer>, self: nat, today: Date,
                                    emailOk: string -> bool) {
    && (!f.name.Missing? ==> Required(f.name) && |f.name.value| <= 255)
    && (!f.dateOfBirth.Missing? ==> f.dateOfBirth.Given? && f.dateOfBirth.value < today)
    && AddressOk(f.address)
    && (!f.email.Missing? ==>
          Required(f.email) && emailOk(f.email.value) && EmailFree(customers, f.email.value, Some(self)))
    && Required(f.contact) && |f.contact.value| == 11
  }
}
