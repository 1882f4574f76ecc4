/** The form schemas: each schema is a function from a filled-in form to
    the list of issues the validation library reports, in field order and,
    within a field, in check order. A form is accepted iff that list is
    empty. String minimums count raw characters (nothing is trimmed), and
    the e-mail format check is a parameter `isEmail`. */
module Schemas {
  import opened Wrappers
  import opened Text
  import opened JsValues

  /** One reported problem: the field and the schema's message; `None`
      stands for the library's own default message. */
  datatype Issue = Issue(path: string, message: Option<string>)

  /** `.min(n, message)` on a string. */
  function MinLength(path: string, value: string, n: nat, message: string): (r: seq<Issue>)
    ensures r == [] <==> |value| >= n
    ensures forall i :: 0 <= i < |r| ==> r[i].path == path
  {
    if |value| < n then [Issue(path, Some(message))] else []
  }

  /** A character of the phone pattern's class: a decimal digit, white
      space, `-`, `+`, `(` or `)`. */
  predicate PhoneChar(c: char) {
    ('0' <= c <= '9') || IsWhitespace(c) || c == '-' || c == '+' || c == '(' || c == ')'
  }

  /** The whole string matches the anchored pattern of one or more phone
      characters. */
  predicate PhonePattern(s: string) {
    |s| >= 1 && forall i :: 0 <= i < |s| ==> PhoneChar(s[i])
  }

  /** `.regex(pattern, message)` with the phone pattern. */
  function PhoneCheck(path: string, value: string): (r: seq<Issue>)
    ensures r == [] <==> PhonePattern(value)
  {
    if PhonePattern(value) then [] else [Issue(path, Some("Please enter a valid phone number"))]
  }

  /** A contact-number field: required, then the phone pattern. */
  function ContactIssues(path: string, value: string): (r: seq<Issue>)
    ensures r == [] <==> PhonePattern(value)
    ensures forall i :: 0 <= i < |r| ==> r[i].path == path
  {
    MinLength(path, value, 1, "Contact number is required") + PhoneCheck(path, value)
  }

  /** `.email(message)`. */
  function EmailCheck(path: string, value: string, isEmail: string -> bool): (r: seq<Issue>)
    ensures r == [] <==> isEmail(value)
    ensures forall i :: 0 <= i < |r| ==> r[i].path == path
  {
    if isEmail(value) then [] else [Issue(path, Some("Please enter a valid email address"))]
  }

  /** `z.number()` with optional `.min` / `.max` bounds: `NaN` is a type
      issue (default message) that stops the field's later checks. */
  function NumberIssues(path: string, n: Num, lo: Option<(real, Option<string>)>, hi: Option<(real, Option<string>)>): (r: seq<Issue>)
    ensures r == [] <==> n.Fin? && (lo.Some? ==> n.v >= lo.value.0) && (hi.Some? ==> n.v <= hi.value.0)
    ensures forall i :: 0 <= i < |r| ==> r[i].path == path
  {
    match n
    case NaN => [Issue(path, None)]
    case Fin(x) =>
      (if lo.Some? && x < lo.value.0 then [Issue(path, lo.value.1)] else [])
      + (if hi.Some? && x > hi.value.0 then [Issue(path, hi.value.1)] else [])
  }

  /** `z.number().optional()`: an absent value passes. */
  function OptionalNumberIssues(path: string, n: Option<Num>): (r: seq<Issue>)
    ensures r == [] <==> (n.Some? ==> n.value.Fin?)
  {
    if n.Some? then NumberIssues(path, n.value, None, None) else []
  }

  // ---------------------------------------------------------------------
  // The schemas
  // ---------------------------------------------------------------------

  datatype LoginForm = LoginForm(email: string, password: string)

  function LoginIssues(f: LoginForm, isEmail: string -> bool): (r: seq<Issue>)
    ensures r == [] <==> isEmail(f.email) && f.password != []
  {
    EmailCheck("email", f.email, isEmail) + MinLength("password", f.password, 1, "Password is required")
  }

  datatype CustomerForm = CustomerForm(
    clientFirstName: string, clientLastName: string, email: string, contactNumber: string,
    address: string, companyName: Option<string>, clientType: Option<string>, nic: Option<string>)

  function CustomerIssues(f: CustomerForm, isEmail: string -> bool): (r: seq<Issue>)
    ensures r == [] <==>
      f.clientFirstName != [] && f.clientLastName != [] && isEmail(f.email)
      && PhonePattern(f.contactNumber) && f.address != []
  {
    MinLength("clientFirstName", f.clientFirstName, 1, "First name is required")
    + MinLength("clientLastName", f.clientLastName, 1, "Last name is required")
    + EmailCheck("email", f.email, isEmail)
    + ContactIssues("contactNumber", f.contactNumber)
    + MinLength("address", f.address, 1, "Address is required")
  }

  datatype ProductForm = ProductForm(
    productName: string, productLocation: string, productDetails: Option<string>,
    productType: string, productCost: string, productSelling: string, productQty: string,
    brandId: Option<Num>, categoryId: Option<Num>)

  function ProductIssues(f: ProductForm): (r: seq<Issue>)
    ensures r == [] <==>
      f.productName != [] && f.productLocation != [] && f.productType != []
      && f.productCost != [] && f.productSelling != [] && f.productQty != []
      && (f.brandId.Some? ==> f.brandId.value.Fin?) && (f.categoryId.Some? ==> f.categoryId.value.Fin?)
  {
    MinLength("productName", f.productName, 1, "Product name is required")
    + MinLength("productLocation", f.productLocation, 1, "Product location is required")
    + MinLength("productType", f.productType, 1, "Product type is required")
    + MinLength("productCost", f.productCost, 1, "Cost is required")
    + MinLength("productSelling", f.productSelling, 1, "Selling price is required")
    + MinLength("productQty", f.productQty, 1, "Quantity is required")
    + OptionalNumberIssues("brandId", f.brandId)
    + OptionalNumberIssues("categoryId", f.categoryId)
  }

  datatype SupplierForm = SupplierForm(supplierName: string, supplierContactNumber: string, supplierAddress: string)

  function SupplierIssues(f: SupplierForm): (r: seq<Issue>)
    ensures r == [] <==> f.supplierName != [] && PhonePattern(f.supplierContactNumber) && f.supplierAddress != []
  {
    MinLength("supplier_name", f.supplierName, 1, "Supplier name is required")
    + ContactIssues("supplier_contact_number", f.supplierContactNumber)
    + MinLength("supplier_address", f.supplierAddress, 1, "Address is required")
  }

  datatype GrnForm = GrnForm(supplierName: string, invoiceNumber: string, grnNumber: string, grnNote: Option<string>, grnDate: string)

  function GrnIssues(f: GrnForm): (r: seq<Issue>)
    ensures r == [] <==> f.supplierName != [] && f.invoiceNumber != [] && f.grnNumber != [] && f.grnDate != []
  {
    MinLength("supplierName", f.supplierName, 1, "Supplier name is required")
    + MinLength("invoiceNumber", f.invoiceNumber, 1, "Invoice number is required")
    + MinLength("grnNumber", f.grnNumber, 1, "GRN number is required")
    + MinLength("grnDate", f.grnDate, 1, "GRN date is required")
  }

  datatype InvoiceForm = InvoiceForm(clientId: Num, vat: Num, discount: Num)

  predicate Percentage(n: Num) {
    n.Fin? && 0.0 <= n.v <= 100.0
  }

  function InvoiceIssues(f: InvoiceForm): (r: seq<Issue>)
    ensures r == [] <==> f.clientId.Fin? && f.clientId.v >= 1.0 && Percentage(f.vat) && Percentage(f.discount)
  {
    NumberIssues("clientId", f.clientId, Some((1.0, Some("Customer is required"))), None)
    + NumberIssues("vat", f.vat, Some((0.0, None)), Some((100.0, Some("VAT must be between 0 and 100"))))
    + NumberIssues("discount", f.discount, Some((0.0, None)), Some((100.0, Some("Discount must be between 0 and 100"))))
  }

  datatype SearchForm = SearchForm(query: string)

  function SearchIssues(f: SearchForm): (r: seq<Issue>)
    ensures r == [] <==> f.query != []
  {
    MinLength("query", f.query, 1, "Search term is required")
  }

  datatype SettingsForm = SettingsForm(name: string, email: string, role: string)

  function SettingsIssues(f: SettingsForm, isEmail: string -> bool): (r: seq<Issue>)
    ensures r == [] <==> |f.name| >= 2 && isEmail(f.email) && f.role != []
  {
    MinLength("name", f.name, 1, "Name is required")
    + MinLength("name", f.name, 2, "Name must be at least 2 characters")
    + EmailCheck("email", f.email, isEmail)
    + MinLength("role", f.role, 1, "Role is required")
  }

  // ---------------------------------------------------------------------
  // Properties
  // ---------------------------------------------------------------------

  /** Minimum lengths count raw characters: a name of white space only is
      accepted, so is a phone number of spaces. */
  lemma BlankNamesPass(isEmail: string -> bool)
    requires isEmail("a@b.c")
    ensures CustomerIssues(CustomerForm(" ", " ", "a@b.c", " ", " ", None, None, None), isEmail) == []
    ensures SupplierIssues(SupplierForm(" ", " ", " ")) == []
  {
    assert PhoneChar(" "[0]);
  }

  /** An empty contact number draws two issues: required, then the
      pattern. */
  lemma EmptyContactTwoIssues()
    ensures ContactIssues("contactNumber", "") == [
      Issue("contactNumber", Some("Contact number is required")),
      Issue("contactNumber", Some("Please enter a valid phone number"))]
  {
  }

  /** Letters are refused in a contact number whatever else it holds. */
  lemma LetterInContactRefused(s: string, i: nat)
    requires i < |s| && 'a' <= s[i] <= 'z'
    ensures ContactIssues("contactNumber", s) != []
  {
    assert !PhoneChar(s[i]);
  }

  /** Product prices and quantity are only required to be non-empty: text
      that is not a number passes. */
  lemma ProductNumbersNotChecked()
    ensures ProductIssues(ProductForm("n", "l", None, "unit", "abc", "-", "x", None, None)) == []
  {
  }

  /** The percentage bounds are inclusive at both ends. */
  lemma InvoiceBoundsInclusive()
    ensures InvoiceIssues(InvoiceForm(Fin(1.0), Fin(0.0), Fin(100.0))) == []
    ensures InvoiceIssues(InvoiceForm(Fin(1.0), Fin(100.5), Fin(0.0)))
      == [Issue("vat", Some("VAT must be between 0 and 100"))]
    ensures InvoiceIssues(InvoiceForm(Fin(0.0), Fin(0.0), Fin(-1.0)))
      == [Issue("clientId", Some("Customer is required")), Issue("discount", None)]
  {
  }

  /** A one-character settings name fails only the two-character minimum;
      an empty one fails both minimums. */
  lemma SettingsNameMinimums(isEmail: string -> bool)
    requires isEmail("a@b.c")
    ensures SettingsIssues(SettingsForm("A", "a@b.c", "admin"), isEmail)
      == [Issue("name", Some("Name must be at least 2 characters"))]
    ensures SettingsIssues(SettingsForm("", "a@b.c", "admin"), isEmail)
      == [Issue("name", Some("Name is required")), Issue("name", Some("Name must be at least 2 characters"))]
  {
  }

  /** The optional fields never cause an issue. */
  lemma OptionalFieldsFree(f: CustomerForm, g: GrnForm, isEmail: string -> bool)
    ensures CustomerIssues(f, isEmail) == CustomerIssues(f.(companyName := None, clientType := None, nic := None), isEmail)
    ensures GrnIssues(g) == GrnIssues(g.(grnNote := None))
  {
  }
}
