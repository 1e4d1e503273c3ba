/** The shipping page: `shippingSchema`, `onSubmit` (id, model lookup, status reset to
    "scheduled"), the form state the order select and the "same as billing" checkbox
    write into, `filteredShipping` and the three status counts. */
module Shipping {
  import opened Lists
  import opened Text
  import opened Ids
  import opened Validation
  import opened Store

  /** The shipping form as `shippingSchema` reads it. */
  datatype ShippingForm = ShippingForm(
    orderId: string,
    customerName: string,
    shippingAddress: string,
    city: string,
    state: string,
    district: string,
    pincode: string,
    contactPerson: string,
    contactNumber: string,
    deliveryDate: string,
    deliveryTimeSlot: string,
    specialInstructions: Option<string>,
    isSameAsBilling: Option<bool>)

  /** The parsed form: the checkbox flag defaulted to false. */
  datatype ShippingData = ShippingData(
    orderId: string,
    customerName: string,
    shippingAddress: string,
    city: string,
    state: string,
    district: string,
    pincode: string,
    contactPerson: string,
    contactNumber: string,
    deliveryDate: string,
    deliveryTimeSlot: string,
    specialInstructions: Option<string>,
    isSameAsBilling: bool)

  /** The keys of `shippingSchema` that carry a check. */
  datatype ShippingField =
    | OrderIdField | CustomerNameField | AddressField | CityField | StateField | DistrictField
    | PincodeField | ContactPersonField | ContactNumberField | DeliveryDateField | TimeSlotField

  /** A stored shipment: the form data plus the generated and copied fields. */
  datatype Shipment = Shipment(id: string, data: ShippingData, modelName: string, status: string, createdAt: string)

  /** A row of the page's fixed order list, with its billing address. */
  datatype BillingOrder = BillingOrder(
    id: string, customerName: string, modelName: string,
    billingAddress: string, billingCity: string, billingState: string,
    billingDistrict: string, billingPincode: string, status: string)

  function ShipmentKey(s: Shipment): string { s.id }
  function BillingKey(o: BillingOrder): string { o.id }
  function BillingModel(o: BillingOrder): string { o.modelName }

  /** The form with `isSameAsBilling` defaulted to false. */
  function WithDefaults(f: ShippingForm): ShippingData
  {
    ShippingData(
      f.orderId, f.customerName, f.shippingAddress, f.city, f.state, f.district, f.pincode,
      f.contactPerson, f.contactNumber, f.deliveryDate, f.deliveryTimeSlot,
      f.specialInstructions, Default(f.isSameAsBilling, false))
  }

  /** The minimum length `shippingSchema` sets for each checked field. */
  function MinimumOf(field: ShippingField): nat
  {
    match field
    case AddressField => 5
    case PincodeField => 6
    case ContactNumberField => 10
    case CityField | StateField | DistrictField | ContactPersonField => 2
    case OrderIdField | CustomerNameField | DeliveryDateField | TimeSlotField => 1
  }

  /** The form's text in each checked field. */
  function TextOf(f: ShippingForm, field: ShippingField): string
  {
    match field
    case OrderIdField => f.orderId
    case CustomerNameField => f.customerName
    case AddressField => f.shippingAddress
    case CityField => f.city
    case StateField => f.state
    case DistrictField => f.district
    case PincodeField => f.pincode
    case ContactPersonField => f.contactPerson
    case ContactNumberField => f.contactNumber
    case DeliveryDateField => f.deliveryDate
    case TimeSlotField => f.deliveryTimeSlot
  }

  /** When `shippingSchema` reports `field`: its text is shorter than its minimum. */
  predicate Fails(f: ShippingForm, field: ShippingField)
  {
    |TextOf(f, field)| < MinimumOf(field)
  }

  /** Every key `shippingSchema` checks. */
  const Fields: set<ShippingField> := {
    OrderIdField, CustomerNameField, AddressField, CityField, StateField, DistrictField,
    PincodeField, ContactPersonField, ContactNumberField, DeliveryDateField, TimeSlotField}

  lemma InFields(field: ShippingField)
    ensures field in Fields
  {
    match field
    case OrderIdField =>
    case CustomerNameField =>
    case AddressField =>
    case CityField =>
    case StateField =>
    case DistrictField =>
    case PincodeField =>
    case ContactPersonField =>
    case ContactNumberField =>
    case DeliveryDateField =>
    case TimeSlotField =>
  }

  /** The message `shippingSchema` gives each field. */
  function Message(field: ShippingField): string
  {
    match field
    case OrderIdField => "Order is required"
    case CustomerNameField => "Customer name is required"
    case AddressField => "Shipping address must be at least 5 characters"
    case CityField => "City is required"
    case StateField => "State is required"
    case DistrictField => "District is required"
    case PincodeField => "Pincode must be 6 digits"
    case ContactPersonField => "Contact person is required"
    case ContactNumberField => "Contact number must be at least 10 digits"
    case DeliveryDateField => "Delivery date is required"
    case TimeSlotField => "Delivery time slot is required"
  }

  /** Every error `shippingSchema` reports: exactly the fields shorter than their
      minimum, each with its message. */
  function Errors(f: ShippingForm): (r: Errors<ShippingField>)
    ensures forall field :: field in r <==> Fails(f, field)
    ensures forall field :: field in r ==> r[field] == Message(field)
    ensures r == map[] <==> forall field :: !Fails(f, field)
  {
    assert forall field :: field in Fields by {
      forall field ensures field in Fields { InFields(field); }
    }
    Report(Fields, (field: ShippingField) => Fails(f, field), Message)
  }

  /** The order, the customer and the four address lines. */
  predicate IsAddressField(field: ShippingField)
  {
    field.OrderIdField? || field.CustomerNameField? || field.AddressField? ||
    field.CityField? || field.StateField? || field.DistrictField?
  }

  /** `shippingSchema.safeParse`: accepted exactly when every checked field reaches its
      minimum length; the accepted value carries the defaulted checkbox flag. */
  function Validate(f: ShippingForm): (r: Checked<ShippingField, ShippingData>)
    ensures r.Accepted? <==> forall field :: |TextOf(f, field)| >= MinimumOf(field)
    ensures r.Accepted? ==> r.value == WithDefaults(f)
    ensures r.Rejected? ==> r.errors == Errors(f) && r.errors != map[]
  {
    Decide(Errors(f), WithDefaults(f))
  }

  /** A six-digit pincode and a ten-digit number pass, one digit fewer fails. */
  lemma PincodeAndContactBounds(f: ShippingForm)
    requires |f.pincode| == 6 && |f.contactNumber| == 10
    ensures PincodeField !in Errors(f) && ContactNumberField !in Errors(f)
    ensures PincodeField in Errors(f.(pincode := f.pincode[1..]))
    ensures ContactNumberField in Errors(f.(contactNumber := f.contactNumber[1..]))
  {
  }

  /** The pincode check is a length test only: seven letters pass it, although its
      message speaks of six digits. */
  lemma PincodeCheckIsLengthOnly(f: ShippingForm)
    ensures PincodeField !in Errors(f.(pincode := "ABCDEFG"))
  {
  }

  /** The record `onSubmit` builds when the list holds `count` shipments: the form's own
      customer name, the model of the first order with the chosen id or "", status
      "scheduled", created today. */
  function NewShipment(d: ShippingData, count: nat, today: Date, orders: seq<BillingOrder>): (s: Shipment)
    requires ValidDate(today)
    ensures s.id == NextId("SHIP-", count) && s.data == d
    ensures s.status == "scheduled" && s.createdAt == IsoDate(today)
    ensures Shows(orders, BillingKey, d.orderId, BillingModel, s.modelName)
  {
    Shipment(NextId("SHIP-", count), d, Lookup(orders, BillingKey, d.orderId, BillingModel),
      "scheduled", IsoDate(today))
  }

  /** `form.handleSubmit(onSubmit)`: a rejected form leaves the list alone; an
      accepted one is appended, or, when editing, overwrites every shipment under the
      edited id with the fresh record. */
  method Submit(shipping: EntityStore<Shipment>, f: ShippingForm, editing: Option<string>,
                today: Date, orders: seq<BillingOrder>) returns (errors: Errors<ShippingField>)
    requires shipping.key == ShipmentKey
    requires ValidDate(today)
    modifies shipping
    ensures errors == map[] <==> Validate(f).Accepted?
    ensures errors != map[] ==> shipping.items == old(shipping.items)
    ensures errors == map[] ==>
      var rec := NewShipment(WithDefaults(f), |old(shipping.items)|, today, orders);
      shipping.items == match editing
        case None => old(shipping.items) + [rec]
        case Some(id) => MapWhere(old(shipping.items), ShipmentKey, id, Overwrite(rec))
  {
    var checked := Validate(f);
    if checked.Rejected? {
      return checked.errors;
    }
    errors := map[];
    var rec := NewShipment(checked.value, |shipping.items|, today, orders);
    match editing {
      case None => shipping.Append(rec);
      case Some(id) => shipping.UpdateById(id, Overwrite(rec));
    }
  }

  /** Saving an edit puts the shipment back to "scheduled", whatever its status was. */
  lemma EditResetsStatus(s: seq<Shipment>, id: string, d: ShippingData, today: Date,
                         orders: seq<BillingOrder>, i: nat)
    requires ValidDate(today) && i < |s| && s[i].id == id
    ensures MapWhere(s, ShipmentKey, id, Overwrite(NewShipment(d, |s|, today, orders)))[i].status == "scheduled"
  {
  }

  /** The form values the select writes when the user picks `value`: the order id, and
      the customer name of the first order with that id when there is one. */
  function Selected(v: ShippingForm, value: string, orders: seq<BillingOrder>): ShippingForm
  {
    match FindIndex(orders, BillingKey, value)
    case Some(i) => v.(orderId := value, customerName := orders[i].customerName)
    case None => v.(orderId := value)
  }

  /** The five address fields copied from an order's billing address. */
  function FillBilling(v: ShippingForm, o: BillingOrder): (r: ShippingForm)
    ensures r.shippingAddress == o.billingAddress && r.city == o.billingCity && r.state == o.billingState
    ensures r.district == o.billingDistrict && r.pincode == o.billingPincode
    ensures r.(shippingAddress := v.shippingAddress, city := v.city, state := v.state,
               district := v.district, pincode := v.pincode) == v
  {
    v.(shippingAddress := o.billingAddress, city := o.billingCity, state := o.billingState,
       district := o.billingDistrict, pincode := o.billingPincode)
  }

  /** The form values after the checkbox is set to `checked`: the flag, and, when it is
      ticked with a selected order that is in the list, that order's billing address. */
  function AfterSameAsBilling(v: ShippingForm, checked: bool, selected: string,
                              orders: seq<BillingOrder>): (r: ShippingForm)
    ensures r.isSameAsBilling == Some(checked)
    ensures !checked ==> r == v.(isSameAsBilling := Some(false))
    ensures r.orderId == v.orderId && r.customerName == v.customerName
  {
    var v' := v.(isSameAsBilling := Some(checked));
    if checked && selected != "" then
      match FindIndex(orders, BillingKey, selected)
      case Some(i) => FillBilling(v', orders[i])
      case None => v'
    else v'
  }

  /** The values the form holds, and `selectedOrder`, which the checkbox reads. */
  class ShippingFormState {
    var values: ShippingForm
    var selectedOrder: string

    /** `defaultValues`: every text empty, no instructions, the box unticked, no order. */
    constructor ()
      ensures values == ShippingForm("", "", "", "", "", "", "", "", "", "", "", Some(""), Some(false))
      ensures selectedOrder == ""
    {
      values := ShippingForm("", "", "", "", "", "", "", "", "", "", "", Some(""), Some(false));
      selectedOrder := "";
    }

    /** The order select's `onValueChange`. */
    method SelectOrder(value: string, orders: seq<BillingOrder>)
      modifies this
      ensures selectedOrder == value
      ensures values == Selected(old(values), value, orders)
    {
      values := values.(orderId := value);
      selectedOrder := value;
      var found := FindIndex(orders, BillingKey, value);
      if found.Some? {
        values := values.(customerName := orders[found.value].customerName);
      }
    }

    /** The checkbox's `onCheckedChange`: record the flag, then `handleSameAsBilling`. */
    method CheckSameAsBilling(checked: bool, orders: seq<BillingOrder>)
      modifies this
      ensures selectedOrder == old(selectedOrder)
      ensures values == AfterSameAsBilling(old(values), checked, old(selectedOrder), orders)
    {
      values := values.(isSameAsBilling := Some(checked));
      if checked && selectedOrder != "" {
        var found := FindIndex(orders, BillingKey, selectedOrder);
        if found.Some? {
          var o := orders[found.value];
          values := values.(shippingAddress := o.billingAddress);
          values := values.(city := o.billingCity);
          values := values.(state := o.billingState);
          values := values.(district := o.billingDistrict);
          values := values.(pincode := o.billingPincode);
        }
      }
    }
  }

  /** Ticking the box with a listed order selected copies that order's billing address
      into the five address fields and changes nothing else; unticking it, or ticking it
      with no order or an unknown one, only records the flag. */
  lemma SameAsBillingEffect(v: ShippingForm, checked: bool, selected: string,
                            orders: seq<BillingOrder>, i: nat)
    ensures var r := AfterSameAsBilling(v, checked, selected, orders);
      r.orderId == v.orderId && r.customerName == v.customerName &&
      r.contactPerson == v.contactPerson && r.contactNumber == v.contactNumber &&
      r.deliveryDate == v.deliveryDate && r.deliveryTimeSlot == v.deliveryTimeSlot &&
      r.specialInstructions == v.specialInstructions && r.isSameAsBilling == Some(checked)
    ensures !checked || selected == "" || (forall j :: 0 <= j < |orders| ==> orders[j].id != selected) ==>
      AfterSameAsBilling(v, checked, selected, orders) == v.(isSameAsBilling := Some(checked))
    ensures checked && selected != "" && i < |orders| && orders[i].id == selected &&
            (forall j :: 0 <= j < i ==> orders[j].id != selected) ==>
      var r := AfterSameAsBilling(v, checked, selected, orders);
      r.shippingAddress == orders[i].billingAddress && r.city == orders[i].billingCity &&
      r.state == orders[i].billingState && r.district == orders[i].billingDistrict &&
      r.pincode == orders[i].billingPincode
  {
    if checked && selected != "" && i < |orders| && orders[i].id == selected &&
       (forall j :: 0 <= j < i ==> orders[j].id != selected) {
      assert FindIndex(orders, BillingKey, selected) == Some(i);
    }
  }

  /** Ticking the box twice in a row gives the same values as ticking it once. */
  lemma SameAsBillingIdempotent(v: ShippingForm, selected: string, orders: seq<BillingOrder>)
    ensures AfterSameAsBilling(AfterSameAsBilling(v, true, selected, orders), true, selected, orders)
            == AfterSameAsBilling(v, true, selected, orders)
  {
  }

  /** The page's two orders. */
  const SeedOrders: seq<BillingOrder> := [
    BillingOrder("ORD-20240115-001", "John Doe", "Maruti Suzuki Fronx", "123 Main Street, Mumbai",
      "Mumbai", "Maharashtra", "Mumbai", "400001", "pending"),
    BillingOrder("ORD-20240114-002", "Jane Smith", "Maruti Suzuki Baleno", "456 Park Avenue, Delhi",
      "Delhi", "Delhi", "New Delhi", "110001", "confirmed")]

  /** Picking a seed order and ticking the box leaves no error on the order, the
      customer or any of the five address fields. */
  lemma SeedBillingPassesAddressChecks(v: ShippingForm, k: nat)
    requires k < |SeedOrders|
    ensures var picked := Selected(v, SeedOrders[k].id, SeedOrders);
      var r := AfterSameAsBilling(picked, true, SeedOrders[k].id, SeedOrders);
      forall field :: IsAddressField(field) || field.PincodeField? ==> field !in Errors(r)
  {
    var picked := Selected(v, SeedOrders[k].id, SeedOrders);
    var r := AfterSameAsBilling(picked, true, SeedOrders[k].id, SeedOrders);
    var o := SeedOrders[k];
    assert FindIndex(SeedOrders, BillingKey, o.id) == Some(k);
    assert picked.orderId == o.id && picked.customerName == o.customerName;
    assert r == FillBilling(picked.(isSameAsBilling := Some(true)), o);
    assert |o.id| >= 1 && |o.customerName| >= 1 && |o.billingAddress| >= 5 && |o.billingPincode| >= 6;
    assert |o.billingCity| >= 2 && |o.billingState| >= 2 && |o.billingDistrict| >= 2;
    AddressChecksPass(r);
  }

  /** A form whose order, customer, address lines and pincode are long enough has no
      error on any of them. */
  lemma AddressChecksPass(r: ShippingForm)
    requires |r.orderId| >= 1 && |r.customerName| >= 1 && |r.shippingAddress| >= 5 && |r.pincode| >= 6
    requires |r.city| >= 2 && |r.state| >= 2 && |r.district| >= 2
    ensures forall field :: IsAddressField(field) || field.PincodeField? ==> field !in Errors(r)
  {
  }

  predicate Matches(s: Shipment, term: string)
  {
    MatchesFolded(s.data.customerName, term) || MatchesFolded(s.data.orderId, term) ||
    MatchesFolded(s.data.city, term) || MatchesFolded(s.data.state, term)
  }

  /** `filteredShipping`: the shipments whose customer name, order id, city or state
      contains the term, ignoring case, in list order. */
  function Search(shipping: seq<Shipment>, term: string): (r: seq<Shipment>)
    ensures forall s :: s in r <==> s in shipping && Matches(s, term)
  {
    Filter(shipping, s => Matches(s, term))
  }

  /** The empty search term shows every shipment, in order. */
  lemma SearchEmptyTerm(shipping: seq<Shipment>)
    ensures Search(shipping, "") == shipping
  {
    forall s | s in shipping ensures Matches(s, "") {
      IncludesEmpty(Lower(s.data.customerName));
    }
    FilterAll(shipping, s => Matches(s, ""));
  }

  predicate IsScheduled(s: Shipment) { s.status == "scheduled" }
  predicate IsDelivered(s: Shipment) { s.status == "delivered" }
  predicate IsPending(s: Shipment) { s.status == "pending" }
  predicate IsScheduledOrDelivered(s: Shipment) { IsScheduled(s) || IsDelivered(s) }
  predicate IsCounted(s: Shipment) { IsScheduledOrDelivered(s) || IsPending(s) }

  /** `scheduledDeliveries`, `deliveredOrders` and `pendingDeliveries`. */
  function ScheduledCount(shipping: seq<Shipment>): nat { Count(shipping, IsScheduled) }
  function DeliveredCount(shipping: seq<Shipment>): nat { Count(shipping, IsDelivered) }
  function PendingCount(shipping: seq<Shipment>): nat { Count(shipping, IsPending) }

  /** No shipment is counted twice, so the three figures add up to at most the list
      length, and to exactly the number of shipments with one of the three statuses. */
  lemma StatusCountsBounded(shipping: seq<Shipment>)
    ensures ScheduledCount(shipping) + DeliveredCount(shipping) + PendingCount(shipping)
            == Count(shipping, IsCounted)
    ensures ScheduledCount(shipping) + DeliveredCount(shipping) + PendingCount(shipping) <= |shipping|
  {
    CountDisjoint(shipping, IsScheduled, IsDelivered, IsScheduledOrDelivered);
    CountDisjoint(shipping, IsScheduledOrDelivered, IsPending, IsCounted);
  }
}
