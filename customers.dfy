/** The customers page: `customerSchema`, `onSubmit` (a new id on insert, a merge
    that keeps id and creation day on edit) and `filteredCustomers`. The email-format
    test is a parameter. */
module Customers {
  import opened Lists
  import opened Text
  import opened Ids
  import opened Validation
  import opened Store

  /** The customer form as `customerSchema` reads it. `None` is a key the form sends
      as `undefined`: the add dialog sends every key, but an edit loads the stored
      customer, and the seed customers have no billing address, district, pincode or
      profession. */
  datatype CustomerForm = CustomerForm(
    customerName: Option<string>,
    mobileNumber: Option<string>,
    email: Option<string>,
    billingAddress: Option<string>,
    city: Option<string>,
    state: Option<string>,
    district: Option<string>,
    pincode: Option<string>,
    panNumber: Option<string>,
    gstNumber: Option<string>,
    occupation: Option<string>,
    profession: Option<string>)

  /** The keys of `customerSchema` that carry a check. */
  datatype CustomerField =
    | NameField | MobileField | EmailField | AddressField | CityField | StateField
    | DistrictField | PincodeField | OccupationField | ProfessionField

  /** A stored customer. */
  datatype Customer = Customer(id: string, data: CustomerForm, createdAt: string)

  function CustomerKey(c: Customer): string { c.id }

  /** The minimum length `customerSchema` sets for each field but the email. */
  function MinimumOf(field: CustomerField): nat
  {
    match field
    case MobileField => 10
    case AddressField => 5
    case PincodeField => 6
    case EmailField => 0
    case NameField | CityField | StateField | DistrictField | OccupationField | ProfessionField => 2
  }

  function TextOf(f: CustomerForm, field: CustomerField): Option<string>
  {
    match field
    case NameField => f.customerName
    case MobileField => f.mobileNumber
    case EmailField => f.email
    case AddressField => f.billingAddress
    case CityField => f.city
    case StateField => f.state
    case DistrictField => f.district
    case PincodeField => f.pincode
    case OccupationField => f.occupation
    case ProfessionField => f.profession
  }

  /** `z.string().email().optional().or(z.literal(""))`: no email, the empty string,
      or an address the email test accepts. */
  predicate EmailAccepted(email: Option<string>, isEmail: string -> bool)
  {
    email.None? || email.value == "" || isEmail(email.value)
  }

  /** When `customerSchema` reports `field`: the email is not accepted, or another key
      is missing or shorter than its minimum. */
  predicate Fails(f: CustomerForm, field: CustomerField, isEmail: string -> bool)
  {
    if field.EmailField? then !EmailAccepted(f.email, isEmail)
    else TextOf(f, field).None? || |TextOf(f, field).value| < MinimumOf(field)
  }

  /** Every key `customerSchema` checks. */
  const Fields: set<CustomerField> := {NameField, MobileField, EmailField, AddressField, CityField, StateField, DistrictField, PincodeField, OccupationField, ProfessionField}

  lemma InFields(field: CustomerField)
    ensures field in Fields
  {
    match field
    case NameField =>
    case MobileField =>
    case EmailField =>
    case AddressField =>
    case CityField =>
    case StateField =>
    case DistrictField =>
    case PincodeField =>
    case OccupationField =>
    case ProfessionField =>
  }

  /** The message `customerSchema` gives each field when its value is present. */
  function MinMessage(field: CustomerField): string
  {
    match field
    case NameField => "Customer name must be at least 2 characters"
    case MobileField => "Mobile number must be at least 10 digits"
    case EmailField => "Invalid email address"
    case AddressField => "Address must be at least 5 characters"
    case CityField => "City is required"
    case StateField => "State is required"
    case DistrictField => "District is required"
    case PincodeField => "Pincode must be 6 digits"
    case OccupationField => "Occupation is required"
    case ProfessionField => "Profession is required"
  }

  /** The message of a failing field: zod's "Required" when a required key is missing,
      the schema's own message otherwise. */
  function Message(f: CustomerForm, field: CustomerField): string
  {
    if !field.EmailField? && TextOf(f, field).None? then Required else MinMessage(field)
  }

  /** Every error `customerSchema` reports: exactly the failing fields, each with its
      message. */
  function Errors(f: CustomerForm, isEmail: string -> bool): (r: Errors<CustomerField>)
    ensures forall field :: field in r <==> Fails(f, field, isEmail)
    ensures forall field :: field in r ==> r[field] == Message(f, field)
    ensures r == map[] <==> forall field :: !Fails(f, field, isEmail)
  {
    assert forall field :: field in Fields by {
      forall field ensures field in Fields { InFields(field); }
    }
    Report(Fields, (field: CustomerField) => Fails(f, field, isEmail), (field: CustomerField) => Message(f, field))
  }

  /** `customerSchema.safeParse`: accepted, unchanged, exactly when every required key
      is present and long enough and the email is absent, empty or well-formed. */
  function Validate(f: CustomerForm, isEmail: string -> bool): (r: Checked<CustomerField, CustomerForm>)
    ensures r.Accepted? <==>
      (forall field: CustomerField :: !field.EmailField? ==>
        TextOf(f, field).Some? && |TextOf(f, field).value| >= MinimumOf(field)) &&
      (f.email.None? || f.email == Some("") || isEmail(f.email.value))
    ensures r.Accepted? ==> r.value == f
    ensures r.Rejected? ==> r.errors == Errors(f, isEmail) && r.errors != map[]
  {
    Decide(Errors(f, isEmail), f)
  }

  /** A missing or empty email is accepted whatever the email test says, and a
      non-empty one exactly when the test accepts it. */
  lemma EmailOptional(f: CustomerForm, isEmail: string -> bool)
    ensures f.email.None? || f.email == Some("") ==> EmailField !in Errors(f, isEmail)
    ensures f.email.Some? && f.email.value != "" ==>
      (EmailField in Errors(f, isEmail) <==> !isEmail(f.email.value))
  {
    if f.email.None? || f.email == Some("") {
      assert !Fails(f, EmailField, isEmail);
    }
  }

  /** A required key the form sends as `undefined` is reported with "Required"; a
      present value keeps the schema's own message. */
  lemma MissingKeyRequired(f: CustomerForm, field: CustomerField, isEmail: string -> bool)
    requires !field.EmailField?
    ensures TextOf(f, field).None? ==> field in Errors(f, isEmail) && Errors(f, isEmail)[field] == Required
    ensures TextOf(f, field).Some? && field in Errors(f, isEmail) ==> Errors(f, isEmail)[field] == MinMessage(field)
  {
    if TextOf(f, field).None? {
      assert Fails(f, field, isEmail);
    }
  }

  /** The first seed customer, as `handleEdit` loads it into the form. */
  const SeedJohn := CustomerForm(Some("John Doe"), Some("9876543210"), Some("john.doe@email.com"),
    None, Some("Mumbai"), Some("Maharashtra"), None, None, None, None, Some("Engineer"), None)

  /** Saving that seed customer unchanged is rejected, with "Required" on exactly the
      four keys it lacks, whatever the email test says of its address. */
  lemma SeedEditReportsRequired(isEmail: string -> bool)
    requires isEmail("john.doe@email.com")
    ensures var e := Errors(SeedJohn, isEmail);
      e.Keys == {AddressField, DistrictField, PincodeField, ProfessionField} &&
      forall field :: field in e ==> e[field] == Required
  {
    var e := Errors(SeedJohn, isEmail);
    forall field ensures field in e.Keys <==> field in {AddressField, DistrictField, PincodeField, ProfessionField}
    {
      match field
      case NameField =>
      case MobileField =>
      case EmailField =>
      case AddressField =>
      case CityField =>
      case StateField =>
      case DistrictField =>
      case PincodeField =>
      case OccupationField =>
      case ProfessionField =>
    }
  }

  /** The record `onSubmit` appends when the list holds `count` customers. The
      contract only lists the fields; what the id promises is stated on `NextId`,
      `NextIdInjective` and `NextIdFresh`. */
  function NewCustomer(d: CustomerForm, count: nat, today: Date): (c: Customer)
    requires ValidDate(today)
    ensures c.id == NextId("CUST-", count) && c.data == d && c.createdAt == IsoDate(today)
  {
    Customer(NextId("CUST-", count), d, IsoDate(today))
  }

  /** `{ ...c, ...data }`: the form data replaces the customer's, its id and creation
      day stay. */
  function MergeForm(d: CustomerForm): Customer -> Customer
  {
    (c: Customer) => c.(data := d)
  }

  /** `form.handleSubmit(onSubmit)`: a rejected form leaves the list alone; an
      accepted one is appended as a new customer, or, when editing, merged into every
      customer under the edited id. */
  method Submit(customers: EntityStore<Customer>, f: CustomerForm, editing: Option<string>,
                today: Date, isEmail: string -> bool) returns (errors: Errors<CustomerField>)
    requires customers.key == CustomerKey
    requires ValidDate(today)
    modifies customers
    ensures errors == map[] <==> Validate(f, isEmail).Accepted?
    ensures errors != map[] ==> customers.items == old(customers.items)
    ensures errors == map[] ==>
      customers.items == match editing
        case None => old(customers.items) + [NewCustomer(f, |old(customers.items)|, today)]
        case Some(id) => MapWhere(old(customers.items), CustomerKey, id, MergeForm(f))
  {
    var checked := Validate(f, isEmail);
    if checked.Rejected? {
      return checked.errors;
    }
    errors := map[];
    match editing {
      case None =>
        var rec := NewCustomer(f, |customers.items|, today);
        customers.Append(rec);
      case Some(id) =>
        customers.UpdateById(id, MergeForm(f));
    }
  }

  /** Unlike the other pages, an edit keeps every customer's id and creation day: only
      the form data of the customers under the edited id changes. */
  lemma EditKeepsIdentity(s: seq<Customer>, id: string, d: CustomerForm)
    ensures var r := MapWhere(s, CustomerKey, id, MergeForm(d));
      |r| == |s| &&
      (forall i :: 0 <= i < |s| ==> r[i].id == s[i].id && r[i].createdAt == s[i].createdAt) &&
      (forall i :: 0 <= i < |s| && s[i].id == id ==> r[i].data == d) &&
      (forall i :: 0 <= i < |s| && s[i].id != id ==> r[i] == s[i])
  {
  }

  /** Saving the same edit twice is saving it once. */
  lemma EditIdempotent(s: seq<Customer>, id: string, d: CustomerForm)
    ensures MapWhere(MapWhere(s, CustomerKey, id, MergeForm(d)), CustomerKey, id, MergeForm(d))
            == MapWhere(s, CustomerKey, id, MergeForm(d))
  {
    MapWhereTwice(s, CustomerKey, id, MergeForm(d), MergeForm(d), MergeForm(d));
  }

  /** `filteredCustomers`' test: name and email ignoring case, the mobile number as
      typed. Every stored customer has a name, a mobile number
      and an email (the seeds carry them, and the form sends them), so the `""` put
      for a missing one is never read. */
  predicate Matches(c: Customer, term: string)
  {
    MatchesFolded(Default(c.data.customerName, ""), term) ||
    Includes(Default(c.data.mobileNumber, ""), term) ||
    MatchesFolded(Default(c.data.email, ""), term)
  }

  /** `filteredCustomers`: the customers whose name or email contains the term ignoring
      case, or whose mobile number contains it as typed, in list order. */
  function Search(customers: seq<Customer>, term: string): (r: seq<Customer>)
    ensures forall c :: c in r <==> c in customers && Matches(c, term)
  {
    Filter(customers, c => Matches(c, term))
  }

  /** The empty search term shows every customer, in order. */
  lemma SearchEmptyTerm(customers: seq<Customer>)
    ensures Search(customers, "") == customers
  {
    forall c | c in customers ensures Matches(c, "") {
      IncludesEmpty(Lower(Default(c.data.customerName, "")));
    }
    FilterAll(customers, c => Matches(c, ""));
  }

  /** Searching by a digit string finds every customer whose mobile number holds it. */
  lemma SearchFindsMobile(customers: seq<Customer>, term: string, c: Customer, i: int)
    requires c in customers && c.data.mobileNumber.Some? && OccursAt(c.data.mobileNumber.value, term, i)
    ensures c in Search(customers, term)
  {
    IncludesIff(c.data.mobileNumber.value, term);
  }
}
