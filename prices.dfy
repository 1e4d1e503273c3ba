/** The prices page: `priceSchema` with its defaults, `calculateBalance`, `onSubmit`
    (id, order lookup, computed total and balance), `filteredPrices` and the three
    summary figures. Amounts are whole rupees. */
module Prices {
  import opened Lists
  import opened Text
  import opened Ids
  import opened Validation
  import opened Store

  /** The price form as `priceSchema` reads it; the six defaulted amounts may be absent. */
  datatype PriceForm = PriceForm(
    orderId: string,
    bookingAmount: int,
    sellingPrice: int,
    discountAmount: Option<int>,
    receivedAmount: Option<int>,
    additionalCharges: Option<int>,
    gstAmount: Option<int>,
    insuranceAmount: Option<int>,
    registrationAmount: Option<int>,
    notes: Option<string>)

  /** The parsed form: every amount present. */
  datatype PriceData = PriceData(
    orderId: string,
    bookingAmount: int,
    sellingPrice: int,
    discountAmount: int,
    receivedAmount: int,
    additionalCharges: int,
    gstAmount: int,
    insuranceAmount: int,
    registrationAmount: int,
    notes: Option<string>)

  /** The keys of `priceSchema` that carry a check. */
  datatype PriceField =
    | OrderIdField | BookingField | SellingField | DiscountField | ReceivedField
    | AdditionalField | GstField | InsuranceField | RegistrationField

  /** `calculateBalance`'s result. */
  datatype Amounts = Amounts(totalAmount: int, balanceAmount: int)

  /** A stored price record. */
  datatype Price = Price(
    id: string, data: PriceData, customerName: string, modelName: string,
    balanceAmount: int, totalAmount: int, createdAt: string)

  /** A row of the page's fixed order list. */
  datatype OrderRef = OrderRef(id: string, customerName: string, modelName: string, downPayment: int, status: string)

  function PriceKey(p: Price): string { p.id }
  function OrderRefKey(o: OrderRef): string { o.id }
  function OrderCustomer(o: OrderRef): string { o.customerName }
  function OrderModel(o: OrderRef): string { o.modelName }

  /** The form with `.default(0)` applied to the absent amounts. */
  function WithDefaults(f: PriceForm): PriceData
  {
    PriceData(
      f.orderId, f.bookingAmount, f.sellingPrice,
      Default(f.discountAmount, 0), Default(f.receivedAmount, 0), Default(f.additionalCharges, 0),
      Default(f.gstAmount, 0), Default(f.insuranceAmount, 0), Default(f.registrationAmount, 0),
      f.notes)
  }

  /** When `priceSchema` reports `field`. An absent defaulted amount reads as 0 and passes. */
  predicate Fails(f: PriceForm, field: PriceField)
  {
    var d := WithDefaults(f);
    match field
    case OrderIdField => d.orderId == ""
    case BookingField => d.bookingAmount < 0
    case SellingField => d.sellingPrice < 0
    case DiscountField => d.discountAmount < 0
    case ReceivedField => d.receivedAmount < 0
    case AdditionalField => d.additionalCharges < 0
    case GstField => d.gstAmount < 0
    case InsuranceField => d.insuranceAmount < 0
    case RegistrationField => d.registrationAmount < 0
  }

  /** Every key `priceSchema` checks. */
  const Fields: set<PriceField> := {
    OrderIdField, BookingField, SellingField, DiscountField, ReceivedField,
    AdditionalField, GstField, InsuranceField, RegistrationField}

  lemma InFields(field: PriceField)
    ensures field in Fields
  {
    match field
    case OrderIdField =>
    case BookingField =>
    case SellingField =>
    case DiscountField =>
    case ReceivedField =>
    case AdditionalField =>
    case GstField =>
    case InsuranceField =>
    case RegistrationField =>
  }

  /** The message `priceSchema` gives each field. */
  function Message(field: PriceField): string
  {
    match field
    case OrderIdField => "Order is required"
    case BookingField => "Booking amount must be positive"
    case SellingField => "Selling price must be positive"
    case DiscountField => "Discount amount must be positive"
    case ReceivedField => "Received amount must be positive"
    case AdditionalField => "Additional charges must be positive"
    case GstField => "GST amount must be positive"
    case InsuranceField => "Insurance amount must be positive"
    case RegistrationField => "Registration amount must be positive"
  }

  /** Every error `priceSchema` reports, on the form with its defaults applied:
      exactly the failing fields, each with its message. */
  function Errors(f: PriceForm): (r: Errors<PriceField>)
    ensures forall field :: field in r <==> Fails(f, field)
    ensures forall field :: field in r ==> r[field] == Message(field)
    ensures r == map[] <==> forall field :: !Fails(f, field)
  {
    assert forall field :: field in Fields by {
      forall field ensures field in Fields { InFields(field); }
    }
    Report(Fields, (field: PriceField) => Fails(f, field), Message)
  }

  /** No field fails exactly when an order is chosen and every amount, after
      defaulting, is at least 0. */
  lemma PassesIff(f: PriceForm)
    ensures (forall field :: !Fails(f, field)) <==>
      f.orderId != "" && f.bookingAmount >= 0 && f.sellingPrice >= 0 &&
      Default(f.discountAmount, 0) >= 0 && Default(f.receivedAmount, 0) >= 0 &&
      Default(f.additionalCharges, 0) >= 0 && Default(f.gstAmount, 0) >= 0 &&
      Default(f.insuranceAmount, 0) >= 0 && Default(f.registrationAmount, 0) >= 0
  {
    if forall field :: !Fails(f, field) {
      assert !Fails(f, OrderIdField) && !Fails(f, BookingField) && !Fails(f, SellingField);
      assert !Fails(f, DiscountField) && !Fails(f, ReceivedField) && !Fails(f, AdditionalField);
      assert !Fails(f, GstField) && !Fails(f, InsuranceField) && !Fails(f, RegistrationField);
    }
  }

  /** `priceSchema.safeParse`: accepted exactly when the order is chosen and every
      amount, after defaulting, is at least 0; the accepted value is the defaulted form. */
  function Validate(f: PriceForm): (r: Checked<PriceField, PriceData>)
    ensures r.Accepted? <==>
      f.orderId != "" && f.bookingAmount >= 0 && f.sellingPrice >= 0 &&
      Default(f.discountAmount, 0) >= 0 && Default(f.receivedAmount, 0) >= 0 &&
      Default(f.additionalCharges, 0) >= 0 && Default(f.gstAmount, 0) >= 0 &&
      Default(f.insuranceAmount, 0) >= 0 && Default(f.registrationAmount, 0) >= 0
    ensures r.Accepted? ==> r.value == WithDefaults(f)
    ensures r.Rejected? ==> r.errors == Errors(f) && r.errors != map[]
  {
    PassesIff(f);
    Decide(Errors(f), WithDefaults(f))
  }

  /** Leaving every optional amount out is the same as entering 0 for each. */
  lemma AbsentAmountsAreZero(f: PriceForm)
    requires f.discountAmount.None? && f.receivedAmount.None? && f.additionalCharges.None?
    requires f.gstAmount.None? && f.insuranceAmount.None? && f.registrationAmount.None?
    ensures Validate(f) == Validate(f.(discountAmount := Some(0), receivedAmount := Some(0),
      additionalCharges := Some(0), gstAmount := Some(0), insuranceAmount := Some(0),
      registrationAmount := Some(0)))
  {
    var g := f.(discountAmount := Some(0), receivedAmount := Some(0), additionalCharges := Some(0),
      gstAmount := Some(0), insuranceAmount := Some(0), registrationAmount := Some(0));
    assert WithDefaults(f) == WithDefaults(g);
    assert forall field :: Fails(f, field) == Fails(g, field);
    assert Errors(f) == Errors(g);
  }

  /** `calculateBalance`: the total is the selling price plus every charge less the
      discount, and the balance is what remains of it after the booking amount and the
      amount received. */
  function CalculateBalance(d: PriceData): (a: Amounts)
    ensures a.totalAmount + d.discountAmount ==
      d.sellingPrice + d.additionalCharges + d.gstAmount + d.insuranceAmount + d.registrationAmount
    ensures a.balanceAmount + d.bookingAmount + d.receivedAmount == a.totalAmount
  {
    var total := d.sellingPrice + d.additionalCharges + d.gstAmount + d.insuranceAmount
      + d.registrationAmount - d.discountAmount;
    Amounts(total, total - d.bookingAmount - d.receivedAmount)
  }

  /** The worked example: 1200000 selling price, 15000 extra, 180000 GST, 45000
      insurance, 25000 registration, 50000 discount, 25000 booked and 50000 received
      give a total of 1415000 and a balance of 1340000. */
  lemma CalculateBalanceExample()
    ensures CalculateBalance(PriceData("ORD-20240115-001", 25000, 1200000, 50000, 50000,
      15000, 180000, 45000, 25000, None)) == Amounts(1415000, 1340000)
  {
  }

  /** With nothing paid yet the balance is the whole total, and every payment lowers
      the balance by its amount. */
  lemma BalanceFollowsPayments(d: PriceData, paid: int)
    ensures CalculateBalance(d.(bookingAmount := 0, receivedAmount := 0)).balanceAmount
      == CalculateBalance(d).totalAmount
    ensures CalculateBalance(d.(receivedAmount := d.receivedAmount + paid)).balanceAmount
      == CalculateBalance(d).balanceAmount - paid
  {
  }

  /** A stored price whose total and balance are those its own data gives. */
  predicate Consistent(p: Price)
  {
    Amounts(p.totalAmount, p.balanceAmount) == CalculateBalance(p.data)
  }

  /** The record `onSubmit` builds when the list holds `count` prices. */
  function NewPrice(d: PriceData, count: nat, today: Date, orders: seq<OrderRef>): (p: Price)
    requires ValidDate(today)
    ensures Consistent(p)
    ensures p.id == NextId("PRICE-", count) && p.data == d && p.createdAt == IsoDate(today)
    ensures Shows(orders, OrderRefKey, d.orderId, OrderCustomer, p.customerName)
    ensures Shows(orders, OrderRefKey, d.orderId, OrderModel, p.modelName)
  {
    var a := CalculateBalance(d);
    Price(
      NextId("PRICE-", count), d,
      Lookup(orders, OrderRefKey, d.orderId, OrderCustomer),
      Lookup(orders, OrderRefKey, d.orderId, OrderModel),
      a.balanceAmount, a.totalAmount, IsoDate(today))
  }

  /** `form.handleSubmit(onSubmit)`: a rejected form leaves the list alone; an
      accepted one is appended, or, when editing, overwrites every price under the
      edited id with the fresh record. */
  method Submit(prices: EntityStore<Price>, f: PriceForm, editing: Option<string>,
                today: Date, orders: seq<OrderRef>) returns (errors: Errors<PriceField>)
    requires prices.key == PriceKey
    requires ValidDate(today)
    modifies prices
    ensures errors == map[] <==> Validate(f).Accepted?
    ensures errors != map[] ==> prices.items == old(prices.items)
    ensures errors == map[] ==>
      var rec := NewPrice(WithDefaults(f), |old(prices.items)|, today, orders);
      prices.items == match editing
        case None => old(prices.items) + [rec]
        case Some(id) => MapWhere(old(prices.items), PriceKey, id, Overwrite(rec))
  {
    var checked := Validate(f);
    if checked.Rejected? {
      return checked.errors;
    }
    errors := map[];
    var rec := NewPrice(checked.value, |prices.items|, today, orders);
    match editing {
      case None => prices.Append(rec);
      case Some(id) => prices.UpdateById(id, Overwrite(rec));
    }
  }

  predicate AllConsistent(s: seq<Price>)
  {
    forall p :: p in s ==> Consistent(p)
  }

  /** Submitting and deleting keep every record's total and balance in step with its
      data: the new record is consistent, and the others are kept or dropped whole. */
  lemma ConsistencyPreserved(s: seq<Price>, rec: Price, id: string)
    requires AllConsistent(s) && Consistent(rec)
    ensures AllConsistent(s + [rec])
    ensures AllConsistent(MapWhere(s, PriceKey, id, Overwrite(rec)))
    ensures AllConsistent(RemoveId(s, PriceKey, id))
  {
    var m := MapWhere(s, PriceKey, id, Overwrite(rec));
    forall p | p in m ensures Consistent(p) {
      var i :| 0 <= i < |m| && m[i] == p;
      assert s[i] in s;
    }
  }

  /** The two seed records as the page ships them. */
  const SeedPrices: seq<Price> := [
    Price("PRICE-001",
      PriceData("ORD-20240115-001", 25000, 1200000, 50000, 50000, 15000, 180000, 45000, 25000, None),
      "John Doe", "Honda City", 1045000, 1200000, "2024-01-15"),
    Price("PRICE-002",
      PriceData("ORD-20240114-002", 50000, 2500000, 100000, 100000, 30000, 375000, 75000, 50000, None),
      "Jane Smith", "Toyota Camry", 2200000, 2500000, "2024-01-14")]

  /** Neither seed record carries the total and balance its amounts give, so the
      consistency of stored records holds only for records `onSubmit` made. */
  lemma SeedPricesInconsistent()
    ensures !Consistent(SeedPrices[0]) && !Consistent(SeedPrices[1])
    ensures CalculateBalance(SeedPrices[0].data) == Amounts(1415000, 1340000)
    ensures CalculateBalance(SeedPrices[1].data) == Amounts(2930000, 2780000)
  {
  }

  predicate Matches(p: Price, term: string)
  {
    MatchesFolded(p.customerName, term) || MatchesFolded(p.data.orderId, term) ||
    MatchesFolded(p.modelName, term)
  }

  /** `filteredPrices`: the prices whose customer name, order id or model name
      contains the term, ignoring case, in list order. */
  function Search(prices: seq<Price>, term: string): (r: seq<Price>)
    ensures forall p :: p in r <==> p in prices && Matches(p, term)
  {
    Filter(prices, p => Matches(p, term))
  }

  /** The empty search term shows every price, in order. */
  lemma SearchEmptyTerm(prices: seq<Price>)
    ensures Search(prices, "") == prices
  {
    forall p | p in prices ensures Matches(p, "") {
      IncludesEmpty(Lower(p.customerName));
    }
    FilterAll(prices, p => Matches(p, ""));
  }

  function Received(p: Price): int { p.data.receivedAmount }
  function Booked(p: Price): int { p.data.bookingAmount }
  function Balance(p: Price): int { p.balanceAmount }
  function Total(p: Price): int { p.totalAmount }

  /** `totalRevenue`: the amounts received, never negative when none is. */
  function TotalRevenue(prices: seq<Price>): (r: int)
    ensures (forall p :: p in prices ==> Received(p) >= 0) ==> r >= 0
  {
    Sum(prices, Received)
  }

  /** `totalPending`: the balances, never negative when nothing is overpaid. */
  function TotalPending(prices: seq<Price>): (r: int)
    ensures (forall p :: p in prices ==> Balance(p) >= 0) ==> r >= 0
  {
    Sum(prices, Balance)
  }

  /** `averageOrderValue`: 0 for an empty list, otherwise the mean total, so that the
      average times the count is the sum of the totals. */
  function AverageOrderValue(prices: seq<Price>): (r: real)
    ensures |prices| == 0 ==> r == 0.0
    ensures |prices| > 0 ==> r * (|prices| as real) == Sum(prices, Total) as real
  {
    if |prices| > 0 then Sum(prices, Total) as real / |prices| as real else 0.0
  }

  /** Over consistent records the pending figure is everything billed less everything
      booked and received. */
  lemma PendingIsOutstanding(prices: seq<Price>)
    requires AllConsistent(prices)
    ensures TotalPending(prices) == Sum(prices, Total) - Sum(prices, Booked) - TotalRevenue(prices)
  {
    SumLinear(prices, Balance, Total, Booked, Received);
  }
}
