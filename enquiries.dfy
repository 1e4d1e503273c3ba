/** The enquiries page: `enquirySchema`, `onSubmit` (id and the customer, model and
    colour lookups), `filteredEnquiries`, the colours offered for the selected model
    and the pending / converted counts. */
module Enquiries {
  import opened Lists
  import opened Text
  import opened Ids
  import opened Validation
  import opened Store

  /** The enquiry form as `enquirySchema` reads it. */
  datatype EnquiryForm = EnquiryForm(
    customerId: string,
    modelId: string,
    variant: string,
    colorId: string,
    additionalNotes: Option<string>)

  /** The keys of `enquirySchema` that carry a check. */
  datatype EnquiryField = CustomerIdField | ModelIdField | VariantField | ColorIdField

  /** A stored enquiry: the form data plus the generated and copied fields. */
  datatype Enquiry = Enquiry(
    id: string, data: EnquiryForm, customerName: string, modelName: string,
    colorName: string, approxAvailableDate: string, status: string, createdAt: string)

  /** Rows of the page's fixed customer, model and colour lists. */
  datatype CustomerRef = CustomerRef(id: string, customerName: string, mobileNumber: string)
  datatype ModelRef = ModelRef(id: string, modelName: string, variant: string, fuelType: string)
  datatype ColorRef = ColorRef(id: string, colorName: string, modelId: string, approxAvailableDate: string)

  function EnquiryKey(e: Enquiry): string { e.id }
  function CustomerKey(c: CustomerRef): string { c.id }
  function CustomerName(c: CustomerRef): string { c.customerName }
  function ModelKey(m: ModelRef): string { m.id }
  function ModelName(m: ModelRef): string { m.modelName }
  function ColorKey(c: ColorRef): string { c.id }
  function ColorName(c: ColorRef): string { c.colorName }
  function ColorDate(c: ColorRef): string { c.approxAvailableDate }

  /** When `enquirySchema` reports `field`: the field is empty. */
  predicate Fails(f: EnquiryForm, field: EnquiryField)
  {
    match field
    case CustomerIdField => f.customerId == ""
    case ModelIdField => f.modelId == ""
    case VariantField => f.variant == ""
    case ColorIdField => f.colorId == ""
  }

  /** Every key `enquirySchema` checks. */
  const Fields: set<EnquiryField> := {CustomerIdField, ModelIdField, VariantField, ColorIdField}

  lemma InFields(field: EnquiryField)
    ensures field in Fields
  {
    match field
    case CustomerIdField =>
    case ModelIdField =>
    case VariantField =>
    case ColorIdField =>
  }

  /** The message `enquirySchema` gives each field. */
  function Message(field: EnquiryField): string
  {
    match field
    case CustomerIdField => "Customer is required"
    case ModelIdField => "Model is required"
    case VariantField => "Variant is required"
    case ColorIdField => "Color preference is required"
  }

  /** Every error `enquirySchema` reports: exactly the empty fields, each with its
      message. */
  function Errors(f: EnquiryForm): (r: Errors<EnquiryField>)
    ensures forall field :: field in r <==> Fails(f, field)
    ensures forall field :: field in r ==> r[field] == Message(field)
    ensures r == map[] <==> forall field :: !Fails(f, field)
  {
    assert forall field :: field in Fields by {
      forall field ensures field in Fields { InFields(field); }
    }
    Report(Fields, (field: EnquiryField) => Fails(f, field), Message)
  }

  /** No field fails exactly when the customer, the model, the variant and the colour
      are all filled in. */
  lemma PassesIff(f: EnquiryForm)
    ensures (forall field :: !Fails(f, field)) <==>
      f.customerId != "" && f.modelId != "" && f.variant != "" && f.colorId != ""
  {
    if forall field :: !Fails(f, field) {
      assert !Fails(f, CustomerIdField) && !Fails(f, ModelIdField);
      assert !Fails(f, VariantField) && !Fails(f, ColorIdField);
    }
  }

  /** `enquirySchema.safeParse`: accepted, unchanged, exactly when the customer, the
      model, the variant and the colour are all filled in. */
  function Validate(f: EnquiryForm): (r: Checked<EnquiryField, EnquiryForm>)
    ensures r.Accepted? <==> f.customerId != "" && f.modelId != "" && f.variant != "" && f.colorId != ""
    ensures r.Accepted? ==> r.value == f
    ensures r.Rejected? ==> r.errors == Errors(f) && r.errors != map[]
  {
    PassesIff(f);
    Decide(Errors(f), f)
  }

  /** The record `onSubmit` builds when the list holds `count` enquiries: names and the
      availability date copied from the first matching customer, model and colour, ""
      where the lookup misses, status "pending", created today. */
  function NewEnquiry(f: EnquiryForm, count: nat, today: Date, customers: seq<CustomerRef>,
                      models: seq<ModelRef>, colors: seq<ColorRef>): (e: Enquiry)
    requires ValidDate(today)
    ensures e.id == NextId("ENQ-", count) && e.data == f
    ensures e.status == "pending" && e.createdAt == IsoDate(today)
    ensures Shows(customers, CustomerKey, f.customerId, CustomerName, e.customerName)
    ensures Shows(models, ModelKey, f.modelId, ModelName, e.modelName)
    ensures Shows(colors, ColorKey, f.colorId, ColorName, e.colorName)
    ensures Shows(colors, ColorKey, f.colorId, ColorDate, e.approxAvailableDate)
  {
    Enquiry(
      NextId("ENQ-", count), f,
      Lookup(customers, CustomerKey, f.customerId, CustomerName),
      Lookup(models, ModelKey, f.modelId, ModelName),
      Lookup(colors, ColorKey, f.colorId, ColorName),
      Lookup(colors, ColorKey, f.colorId, ColorDate),
      "pending", IsoDate(today))
  }

  /** `form.handleSubmit(onSubmit)`: a rejected form leaves the list alone; an
      accepted one is appended, or, when editing, overwrites every enquiry under the
      edited id with the fresh record (so a converted enquiry returns to "pending"). */
  method Submit(enquiries: EntityStore<Enquiry>, f: EnquiryForm, editing: Option<string>, today: Date,
                customers: seq<CustomerRef>, models: seq<ModelRef>, colors: seq<ColorRef>)
    returns (errors: Errors<EnquiryField>)
    requires enquiries.key == EnquiryKey
    requires ValidDate(today)
    modifies enquiries
    ensures errors == map[] <==> Validate(f).Accepted?
    ensures errors != map[] ==> enquiries.items == old(enquiries.items)
    ensures errors == map[] ==>
      var rec := NewEnquiry(f, |old(enquiries.items)|, today, customers, models, colors);
      enquiries.items == match editing
        case None => old(enquiries.items) + [rec]
        case Some(id) => MapWhere(old(enquiries.items), EnquiryKey, id, Overwrite(rec))
  {
    var checked := Validate(f);
    if checked.Rejected? {
      return checked.errors;
    }
    errors := map[];
    var rec := NewEnquiry(f, |enquiries.items|, today, customers, models, colors);
    match editing {
      case None => enquiries.Append(rec);
      case Some(id) => enquiries.UpdateById(id, Overwrite(rec));
    }
  }

  function ForModel(model: string): ColorRef -> bool
  {
    (c: ColorRef) => c.modelId == model
  }

  /** `availableColors`: every colour while no model is selected, otherwise the colours
      of the selected model, in list order. */
  function AvailableColors(selectedModel: string, colors: seq<ColorRef>): (r: seq<ColorRef>)
    ensures selectedModel == "" ==> r == colors
    ensures selectedModel != "" ==> forall c :: c in r <==> c in colors && c.modelId == selectedModel
  {
    if selectedModel == "" then colors else Filter(colors, ForModel(selectedModel))
  }

  /** Colours A and B of model M1 and C of model M2: with M1 selected the select offers
      A then B. */
  lemma AvailableColorsExample()
    ensures var a, b, c := ColorRef("A", "A", "M1", ""), ColorRef("B", "B", "M1", ""), ColorRef("C", "C", "M2", "");
      AvailableColors("M1", [a, b, c]) == [a, b] && AvailableColors("", [a, b, c]) == [a, b, c]
  {
    var a, b, c := ColorRef("A", "A", "M1", ""), ColorRef("B", "B", "M1", ""), ColorRef("C", "C", "M2", "");
    var p := ForModel("M1");
    assert [a, b, c][..2] == [a, b] && [a, b][..1] == [a] && [a][..0] == [];
    assert Filter([a], p) == [a];
    assert Filter([a, b], p) == [a, b];
    assert Filter([a, b, c], p) == [a, b];
  }

  predicate Matches(e: Enquiry, term: string)
  {
    MatchesFolded(e.customerName, term) || MatchesFolded(e.modelName, term) || MatchesFolded(e.id, term)
  }

  /** `filteredEnquiries`: the enquiries whose customer name, model name or id contains
      the term, ignoring case, in list order. */
  function Search(enquiries: seq<Enquiry>, term: string): (r: seq<Enquiry>)
    ensures forall e :: e in r <==> e in enquiries && Matches(e, term)
  {
    Filter(enquiries, e => Matches(e, term))
  }

  /** The empty search term shows every enquiry, in order. */
  lemma SearchEmptyTerm(enquiries: seq<Enquiry>)
    ensures Search(enquiries, "") == enquiries
  {
    forall e | e in enquiries ensures Matches(e, "") {
      IncludesEmpty(Lower(e.customerName));
    }
    FilterAll(enquiries, e => Matches(e, ""));
  }

  predicate IsPending(e: Enquiry) { e.status == "pending" }
  predicate IsConverted(e: Enquiry) { e.status == "converted" }
  predicate IsPendingOrConverted(e: Enquiry) { IsPending(e) || IsConverted(e) }

  /** `pendingEnquiries` and `convertedEnquiries`. */
  function PendingCount(enquiries: seq<Enquiry>): nat { Count(enquiries, IsPending) }
  function ConvertedCount(enquiries: seq<Enquiry>): nat { Count(enquiries, IsConverted) }

  /** No enquiry is counted as both pending and converted. */
  lemma StatusCountsBounded(enquiries: seq<Enquiry>)
    ensures PendingCount(enquiries) + ConvertedCount(enquiries) == Count(enquiries, IsPendingOrConverted)
    ensures PendingCount(enquiries) + ConvertedCount(enquiries) <= |enquiries|
  {
    CountDisjoint(enquiries, IsPending, IsConverted, IsPendingOrConverted);
  }
}
