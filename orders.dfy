/** The orders page: `orderSchema` with its loan refinement, `onSubmit` (id with
    the creation day, the "none" enquiry, the customer-name lookup), `handleEdit`'s
    enquiry mapping, `handleDelete`, `filteredOrders`, the status counts and
    `isDateWarning`. */
module Orders {
  import opened Lists
  import opened Text
  import opened Ids
  import opened Validation
  import opened Store

  /** The order form as `orderSchema` reads it. `None` is a key the form sends as
      `undefined`: the dialog opens with the customer, the three enums, the location
      and both dates undefined, and they stay so until the user sets them. */
  datatype OrderForm = OrderForm(
    customerId: Option<string>,
    enquiryId: Option<string>,
    orderType: Option<string>,
    paymentType: Option<string>,
    financierName: Option<string>,
    financeAmount: Option<int>,
    emiAmount: Option<int>,
    tenureMonths: Option<int>,
    downPayment: int,
    preferredDeliveryLocation: Option<string>,
    saleType: Option<string>,
    tentativeDeliveryDate: Option<string>,
    expectedDeliveryDate: Option<string>,
    reasonForDelay: Option<string>)

  /** What an accepted parse yields, and what the page stores: every required key
      present. */
  datatype OrderData = OrderData(
    customerId: string,
    enquiryId: Option<string>,
    orderType: string,
    paymentType: string,
    financierName: Option<string>,
    financeAmount: Option<int>,
    emiAmount: Option<int>,
    tenureMonths: Option<int>,
    downPayment: int,
    preferredDeliveryLocation: string,
    saleType: string,
    tentativeDeliveryDate: string,
    expectedDeliveryDate: string,
    reasonForDelay: Option<string>)

  /** A stored order: the form data plus the generated and copied fields. */
  datatype Order = Order(id: string, data: OrderData, customerName: string, status: string, createdAt: string)

  /** A row of the page's fixed customer list. */
  datatype CustomerRef = CustomerRef(id: string, customerName: string, mobileNumber: string)

  /** The keys of `orderSchema`, as the error object names them. */
  datatype OrderField =
    | CustomerIdField | OrderTypeField | PaymentTypeField | DownPaymentField
    | DeliveryLocationField | SaleTypeField | TentativeDateField | ExpectedDateField
    | FinancierNameField

  function OrderKey(o: Order): string { o.id }
  function CustomerKey(c: CustomerRef): string { c.id }
  function CustomerName(c: CustomerRef): string { c.customerName }

  const OrderTypes: set<string> := {"NEW", "EXCHANGE"}
  const PaymentTypes: set<string> := {"CASH", "LOAN"}
  const SaleTypes: set<string> := {"INDIVIDUAL", "CORPORATE"}
  const FinanceMessage := "Finance details are required for loan payment type"

  /** The form `handleEdit` loads for a stored order (before the enquiry choice is
      mapped): every required key present. */
  function AsForm(d: OrderData): OrderForm
  {
    OrderForm(Some(d.customerId), d.enquiryId, Some(d.orderType), Some(d.paymentType),
      d.financierName, d.financeAmount, d.emiAmount, d.tenureMonths, d.downPayment,
      Some(d.preferredDeliveryLocation), Some(d.saleType), Some(d.tentativeDeliveryDate),
      Some(d.expectedDeliveryDate), d.reasonForDelay)
  }

  /** The parsed value of a form; only used once every required key is present. */
  function Parsed(f: OrderForm): OrderData
  {
    OrderData(Default(f.customerId, ""), f.enquiryId, Default(f.orderType, ""),
      Default(f.paymentType, ""), f.financierName, f.financeAmount, f.emiAmount,
      f.tenureMonths, f.downPayment, Default(f.preferredDeliveryLocation, ""),
      Default(f.saleType, ""), Default(f.tentativeDeliveryDate, ""),
      Default(f.expectedDeliveryDate, ""), f.reasonForDelay)
  }

  /** A present, non-empty string: it passes `.min(1)`, and it is truthy. */
  predicate Filled(v: Option<string>) { v.Some? && v.value != "" }

  /** A present value among an enum's options. */
  predicate InEnum(v: Option<string>, options: set<string>) { v.Some? && v.value in options }

  /** JavaScript truthiness of an optional number. */
  predicate TruthyNumber(v: Option<int>) { v.Some? && v.value != 0 }

  /** The `refine` callback: a LOAN order needs a financier, a finance amount, an EMI
      and a tenure, each truthy; any other payment type passes. */
  predicate FinanceComplete(f: OrderForm)
  {
    f.paymentType == Some("LOAN") ==>
      Filled(f.financierName) && TruthyNumber(f.financeAmount) &&
      TruthyNumber(f.emiAmount) && TruthyNumber(f.tenureMonths)
  }

  /** A missing required key or a value outside an enum makes the object check abort,
      and the refinement is then not run; a failed minimum only marks the result
      dirty. */
  predicate Aborted(f: OrderForm)
  {
    f.customerId.None? || f.preferredDeliveryLocation.None? ||
    f.tentativeDeliveryDate.None? || f.expectedDeliveryDate.None? ||
    !InEnum(f.orderType, OrderTypes) || !InEnum(f.paymentType, PaymentTypes) ||
    !InEnum(f.saleType, SaleTypes)
  }

  /** When `orderSchema` reports `field`: its key is missing or its own check fails,
      or, for the financier, the refinement runs and fails. */
  predicate Fails(f: OrderForm, field: OrderField)
  {
    match field
    case CustomerIdField => !Filled(f.customerId)
    case OrderTypeField => !InEnum(f.orderType, OrderTypes)
    case PaymentTypeField => !InEnum(f.paymentType, PaymentTypes)
    case DownPaymentField => f.downPayment < 0
    case DeliveryLocationField => !Filled(f.preferredDeliveryLocation)
    case SaleTypeField => !InEnum(f.saleType, SaleTypes)
    case TentativeDateField => !Filled(f.tentativeDeliveryDate)
    case ExpectedDateField => !Filled(f.expectedDeliveryDate)
    case FinancierNameField => !Aborted(f) && !FinanceComplete(f)
  }

  /** Every key `orderSchema` checks. */
  const Fields: set<OrderField> := {
    CustomerIdField, OrderTypeField, PaymentTypeField, DownPaymentField, DeliveryLocationField,
    SaleTypeField, TentativeDateField, ExpectedDateField, FinancierNameField}

  /** The message `orderSchema` gives a failing field: zod's "Required" for a missing
      string, an enum's `required_error` when it is missing and zod's invalid-enum
      message otherwise, the schema's own message for a failed minimum. */
  function Message(f: OrderForm, field: OrderField): string
  {
    match field
    case CustomerIdField => if f.customerId.None? then Required else "Customer is required"
    case OrderTypeField => if f.orderType.None? then "Order type is required" else InvalidEnum
    case PaymentTypeField => if f.paymentType.None? then "Payment type is required" else InvalidEnum
    case SaleTypeField => if f.saleType.None? then "Sale type is required" else InvalidEnum
    case DownPaymentField => "Down payment must be positive"
    case DeliveryLocationField =>
      if f.preferredDeliveryLocation.None? then Required else "Delivery location is required"
    case TentativeDateField =>
      if f.tentativeDeliveryDate.None? then Required else "Tentative delivery date is required"
    case ExpectedDateField =>
      if f.expectedDeliveryDate.None? then Required else "Expected delivery date is required"
    case FinancierNameField => FinanceMessage
  }

  /** Every error `orderSchema` reports: exactly the failing fields, each with its
      message, the financier's being the refinement's. */
  function Errors(f: OrderForm): (r: Errors<OrderField>)
    ensures forall field :: field in r <==> Fails(f, field)
    ensures forall field :: field in r ==> r[field] == Message(f, field)
    ensures r == map[] <==> forall field :: !Fails(f, field)
  {
    assert forall field :: field in Fields by {
      forall field ensures field in Fields { InFields(field); }
    }
    Report(Fields, (field: OrderField) => Fails(f, field), (field: OrderField) => Message(f, field))
  }

  lemma InFields(field: OrderField)
    ensures field in Fields
  {
    match field
    case CustomerIdField =>
    case OrderTypeField =>
    case PaymentTypeField =>
    case DownPaymentField =>
    case DeliveryLocationField =>
    case SaleTypeField =>
    case TentativeDateField =>
    case ExpectedDateField =>
    case FinancierNameField =>
  }

  /** Every check of the schema and the refinement pass. */
  predicate Passes(f: OrderForm)
  {
    Filled(f.customerId) && InEnum(f.orderType, OrderTypes) && InEnum(f.paymentType, PaymentTypes) &&
    f.downPayment >= 0 && Filled(f.preferredDeliveryLocation) && InEnum(f.saleType, SaleTypes) &&
    Filled(f.tentativeDeliveryDate) && Filled(f.expectedDeliveryDate) && FinanceComplete(f)
  }

  /** `orderSchema.safeParse`: accepted exactly when every key is present, every field
      check and the finance refinement pass; the accepted value is the form itself. */
  function Validate(f: OrderForm): (r: Checked<OrderField, OrderData>)
    ensures r.Accepted? <==>
      Filled(f.customerId) && InEnum(f.orderType, OrderTypes) && InEnum(f.paymentType, PaymentTypes) &&
      f.downPayment >= 0 && Filled(f.preferredDeliveryLocation) && InEnum(f.saleType, SaleTypes) &&
      Filled(f.tentativeDeliveryDate) && Filled(f.expectedDeliveryDate) && FinanceComplete(f)
    ensures r.Accepted? ==> AsForm(r.value) == f && r.value == Parsed(f)
    ensures r.Rejected? ==> r.errors == Errors(f) && r.errors != map[]
  {
    PassesIff(f);
    Decide(Errors(f), Parsed(f))
  }

  /** No field fails exactly when every check of the schema passes. */
  lemma PassesIff(f: OrderForm)
    ensures (forall field :: !Fails(f, field)) <==> Passes(f)
  {
    if forall field :: !Fails(f, field) {
      assert !Fails(f, CustomerIdField) && !Fails(f, OrderTypeField) && !Fails(f, PaymentTypeField);
      assert !Fails(f, DownPaymentField) && !Fails(f, DeliveryLocationField) && !Fails(f, SaleTypeField);
      assert !Fails(f, TentativeDateField) && !Fails(f, ExpectedDateField) && !Fails(f, FinancierNameField);
    }
  }

  /** A stored order loaded back into the form passes exactly the checks its values
      pass; no key is missing. */
  lemma StoredOrderHasEveryKey(d: OrderData)
    ensures !Aborted(AsForm(d)) <==>
      d.orderType in OrderTypes && d.paymentType in PaymentTypes && d.saleType in SaleTypes
    ensures Parsed(AsForm(d)) == d
  {
  }

  /** A form whose location or either date was never touched: zod reports "Required"
      on that key, and, the object check having aborted, the finance refinement is not
      run, so a LOAN order without a financier gets no financier error. */
  lemma UntouchedKeySkipsRefinement(f: OrderForm)
    requires f.preferredDeliveryLocation.None? || f.tentativeDeliveryDate.None? || f.expectedDeliveryDate.None?
    ensures FinancierNameField !in Errors(f)
    ensures f.preferredDeliveryLocation.None? ==> Errors(f)[DeliveryLocationField] == Required
    ensures f.tentativeDeliveryDate.None? ==> Errors(f)[TentativeDateField] == Required
    ensures f.expectedDeliveryDate.None? ==> Errors(f)[ExpectedDateField] == Required
  {
    assert Aborted(f);
    if f.preferredDeliveryLocation.None? {
      assert Fails(f, DeliveryLocationField);
    }
    if f.tentativeDeliveryDate.None? {
      assert Fails(f, TentativeDateField);
    }
    if f.expectedDeliveryDate.None? {
      assert Fails(f, ExpectedDateField);
    }
  }

  /** The form `defaultValues` opens with (customer, enums, location and dates
      undefined; the finance numbers and the down payment 0): rejected, with the
      required errors of those seven keys and neither a down-payment nor a finance
      error. */
  lemma DefaultFormErrors()
    ensures var f := OrderForm(None, None, None, None, None, Some(0), Some(0), Some(0), 0,
                               None, None, None, None, None);
      var e := Errors(f);
      e.Keys == {CustomerIdField, OrderTypeField, PaymentTypeField, DeliveryLocationField,
                 SaleTypeField, TentativeDateField, ExpectedDateField} &&
      e[CustomerIdField] == Required && e[DeliveryLocationField] == Required &&
      e[TentativeDateField] == Required && e[ExpectedDateField] == Required &&
      e[OrderTypeField] == "Order type is required" &&
      e[PaymentTypeField] == "Payment type is required" &&
      e[SaleTypeField] == "Sale type is required"
  {
    var f := OrderForm(None, None, None, None, None, Some(0), Some(0), Some(0), 0,
                       None, None, None, None, None);
    var e := Errors(f);
    assert !Fails(f, DownPaymentField) && !Fails(f, FinancierNameField);
    assert Fails(f, CustomerIdField) && Fails(f, OrderTypeField) && Fails(f, PaymentTypeField);
    assert Fails(f, DeliveryLocationField) && Fails(f, SaleTypeField);
    assert Fails(f, TentativeDateField) && Fails(f, ExpectedDateField);
    forall field ensures field in e.Keys <==> field in {CustomerIdField, OrderTypeField,
      PaymentTypeField, DeliveryLocationField, SaleTypeField, TentativeDateField, ExpectedDateField}
    {
      InFields(field);
    }
  }

  /** A CASH order passes the refinement whatever its finance fields hold. */
  lemma CashNeedsNoFinance(f: OrderForm)
    requires f.paymentType == Some("CASH")
    ensures FinanceComplete(f)
    ensures FinancierNameField !in Errors(f)
  {
  }

  /** A LOAN order with no financier fails, on `financierName`, while the same order
      paid in CASH passes. */
  lemma LoanWithoutFinancier(f: OrderForm)
    requires Validate(f.(paymentType := Some("CASH"))).Accepted?
    ensures FinancierNameField in Errors(f.(paymentType := Some("LOAN"), financierName := None))
    ensures Validate(f.(paymentType := Some("LOAN"), financierName := None)).Rejected?
  {
  }

  /** `data.enquiryId === "none" ? undefined : data.enquiryId`: the "none" choice is
      stored as no enquiry. */
  function StoredEnquiry(choice: Option<string>): (r: Option<string>)
    ensures r != Some("none")
  {
    if choice == Some("none") then None else choice
  }

  /** `order.enquiryId || "none"` in `handleEdit`: no enquiry shows as the "none" choice. */
  function FormEnquiry(stored: Option<string>): (r: Option<string>)
    ensures r.Some? && r.value != ""
  {
    if stored.None? || stored.value == "" then Some("none") else stored
  }

  /** Editing an order and saving it again keeps its enquiry link, absent or present. */
  lemma EnquiryRoundTrip(stored: Option<string>)
    requires stored != Some("")
    requires stored != Some("none")
    ensures StoredEnquiry(FormEnquiry(stored)) == stored
  {
  }

  /** Every choice the select offers ("none" or an enquiry id) comes back from
      storing and re-editing unchanged. */
  lemma EnquiryChoiceRoundTrip(choice: Option<string>)
    requires choice.Some? && choice.value != ""
    ensures FormEnquiry(StoredEnquiry(choice)) == choice
  {
  }

  /** The record `onSubmit` builds when the list holds `count` orders: id from the day
      and the count, enquiry "none" dropped, the name of the first customer with the
      chosen id or "" when none has it, status "pending", created today. */
  function NewOrder(d: OrderData, count: nat, today: Date, customers: seq<CustomerRef>): (o: Order)
    requires ValidDate(today)
    ensures o.id == OrderId(today, count)
    ensures o.data == d.(enquiryId := StoredEnquiry(d.enquiryId))
    ensures o.status == "pending" && o.createdAt == IsoDate(today)
    ensures Shows(customers, CustomerKey, d.customerId, CustomerName, o.customerName)
  {
    Order(
      OrderId(today, count),
      d.(enquiryId := StoredEnquiry(d.enquiryId)),
      Lookup(customers, CustomerKey, d.customerId, CustomerName),
      "pending",
      IsoDate(today))
  }

  /** `form.handleSubmit(onSubmit)`: a rejected form leaves the list alone; an
      accepted one is appended, or, when editing, overwrites every order under the
      edited id with the fresh record (new id, status and creation day included). */
  method Submit(orders: EntityStore<Order>, f: OrderForm, editing: Option<string>,
                today: Date, customers: seq<CustomerRef>) returns (errors: Errors<OrderField>)
    requires orders.key == OrderKey
    requires ValidDate(today)
    modifies orders
    ensures errors == map[] <==> Validate(f).Accepted?
    ensures errors != map[] ==> orders.items == old(orders.items)
    ensures errors == map[] ==>
      var rec := NewOrder(Parsed(f), |old(orders.items)|, today, customers);
      orders.items == match editing
        case None => old(orders.items) + [rec]
        case Some(id) => MapWhere(old(orders.items), OrderKey, id, Overwrite(rec))
  {
    var checked := Validate(f);
    if checked.Rejected? {
      return checked.errors;
    }
    errors := map[];
    var rec := NewOrder(checked.value, |orders.items|, today, customers);
    match editing {
      case None => orders.Append(rec);
      case Some(id) => orders.UpdateById(id, Overwrite(rec));
    }
  }

  /** Editing keeps the length and every other order, and the edited order comes back
      with a new id, status "pending" and today's creation day. */
  lemma EditOverwritesGeneratedFields(s: seq<Order>, id: string, rec: Order, i: nat)
    requires i < |s|
    ensures var r := MapWhere(s, OrderKey, id, Overwrite(rec));
            |r| == |s| &&
            (s[i].id == id ==> r[i] == rec) &&
            (s[i].id != id ==> r[i] == s[i])
  {
  }

  predicate Matches(o: Order, term: string)
  {
    MatchesFolded(o.customerName, term) || MatchesFolded(o.id, term) ||
    MatchesFolded(o.data.preferredDeliveryLocation, term)
  }

  /** `filteredOrders`: the orders whose customer name, id or delivery location contains
      the term, ignoring case, in list order. */
  function Search(orders: seq<Order>, term: string): (r: seq<Order>)
    ensures forall o :: o in r <==> o in orders && Matches(o, term)
  {
    Filter(orders, o => Matches(o, term))
  }

  /** The empty search term shows every order, in order. */
  lemma SearchEmptyTerm(orders: seq<Order>)
    ensures Search(orders, "") == orders
  {
    forall o | o in orders ensures Matches(o, "") {
      IncludesEmpty(Lower(o.customerName));
    }
    FilterAll(orders, o => Matches(o, ""));
  }

  predicate IsPending(o: Order) { o.status == "pending" }
  predicate IsConfirmed(o: Order) { o.status == "confirmed" }
  predicate IsPendingOrConfirmed(o: Order) { IsPending(o) || IsConfirmed(o) }

  /** `pendingOrders` and `confirmedOrders`. */
  function PendingCount(orders: seq<Order>): nat { Count(orders, IsPending) }
  function ConfirmedCount(orders: seq<Order>): nat { Count(orders, IsConfirmed) }

  /** No order is counted as both pending and confirmed. */
  lemma StatusCountsBounded(orders: seq<Order>)
    ensures PendingCount(orders) + ConfirmedCount(orders) <= |orders|
  {
    CountDisjoint(orders, IsPending, IsConfirmed, IsPendingOrConfirmed);
  }

  /** `isDateWarning`: the expected delivery day is earlier than the tentative one. */
  function IsDateWarning(tentative: Date, expected: Date): (r: bool)
    ensures r ==> expected != tentative && !Before(tentative, expected)
  {
    Before(expected, tentative)
  }

  /** The warning is the numeric comparison of the two days written as YYYYMMDD; a day
      never warns against itself, and two days never warn against each other. */
  lemma DateWarningOrder(tentative: Date, expected: Date)
    requires ValidDate(tentative) && ValidDate(expected)
    ensures IsDateWarning(tentative, expected) <==> Value(CompactDate(expected)) < Value(CompactDate(tentative))
    ensures !IsDateWarning(tentative, tentative)
    ensures IsDateWarning(tentative, expected) ==> !IsDateWarning(expected, tentative)
  {
    CompactDateOrder(expected, tentative);
  }
}
