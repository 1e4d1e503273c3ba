/** The colours page: `colorSchema` with its defaults, `onSubmit` (id and model-name
    lookup), `toggleAvailability`, `filteredColors` and the available / unavailable
    counts. */
module Colors {
  import opened Lists
  import opened Text
  import opened Ids
  import opened Validation
  import opened Store

  /** The colour form as `colorSchema` reads it; the flag and the cost may be absent. */
  datatype ColorForm = ColorForm(
    colorName: string,
    modelId: string,
    colorCode: string,
    approxAvailableDate: string,
    isAvailable: Option<bool>,
    additionalCost: Option<int>,
    description: Option<string>)

  /** The parsed form: available unless said otherwise, no extra cost unless given. */
  datatype ColorData = ColorData(
    colorName: string,
    modelId: string,
    colorCode: string,
    approxAvailableDate: string,
    isAvailable: bool,
    additionalCost: int,
    description: Option<string>)

  /** The keys of `colorSchema` that carry a check. */
  datatype ColorField = ColorNameField | ModelIdField | ColorCodeField | AvailableDateField | CostField

  /** A stored colour. */
  datatype Color = Color(id: string, data: ColorData, modelName: string, createdAt: string)

  /** A row of the page's fixed model list. */
  datatype ModelRef = ModelRef(id: string, modelName: string, variant: string)

  function ColorKey(c: Color): string { c.id }
  function ModelRefKey(m: ModelRef): string { m.id }
  function ModelRefName(m: ModelRef): string { m.modelName }

  /** The form with `.default(true)` and `.default(0)` applied. */
  function WithDefaults(f: ColorForm): ColorData
  {
    ColorData(f.colorName, f.modelId, f.colorCode, f.approxAvailableDate,
      Default(f.isAvailable, true), Default(f.additionalCost, 0), f.description)
  }

  /** When `colorSchema` reports `field`. */
  predicate Fails(f: ColorForm, field: ColorField)
  {
    match field
    case ColorNameField => |f.colorName| < 2
    case ModelIdField => f.modelId == ""
    case ColorCodeField => f.colorCode == ""
    case AvailableDateField => f.approxAvailableDate == ""
    case CostField => Default(f.additionalCost, 0) < 0
  }

  /** Every key `colorSchema` checks. */
  const Fields: set<ColorField> := {ColorNameField, ModelIdField, ColorCodeField, AvailableDateField, CostField}

  lemma InFields(field: ColorField)
    ensures field in Fields
  {
    match field
    case ColorNameField =>
    case ModelIdField =>
    case ColorCodeField =>
    case AvailableDateField =>
    case CostField =>
  }

  /** The message `colorSchema` gives each field. */
  function Message(field: ColorField): string
  {
    match field
    case ColorNameField => "Color name must be at least 2 characters"
    case ModelIdField => "Model is required"
    case ColorCodeField => "Color code is required"
    case AvailableDateField => "Available date is required"
    case CostField => "Additional cost must be positive"
  }

  /** Every error `colorSchema` reports: exactly the failing fields, each with its
      message. */
  function Errors(f: ColorForm): (r: Errors<ColorField>)
    ensures forall field :: field in r <==> Fails(f, field)
    ensures forall field :: field in r ==> r[field] == Message(field)
    ensures r == map[] <==> forall field :: !Fails(f, field)
  {
    assert forall field :: field in Fields by {
      forall field ensures field in Fields { InFields(field); }
    }
    Report(Fields, (field: ColorField) => Fails(f, field), Message)
  }

  /** No field fails exactly when the four texts reach their minimum lengths and the
      cost, 0 when absent, is not negative. */
  lemma PassesIff(f: ColorForm)
    ensures (forall field :: !Fails(f, field)) <==>
      |f.colorName| >= 2 && f.modelId != "" && f.colorCode != "" && f.approxAvailableDate != "" &&
      Default(f.additionalCost, 0) >= 0
  {
    if forall field :: !Fails(f, field) {
      assert !Fails(f, ColorNameField) && !Fails(f, ModelIdField) && !Fails(f, ColorCodeField);
      assert !Fails(f, AvailableDateField) && !Fails(f, CostField);
    }
  }

  /** `colorSchema.safeParse`: accepted exactly when the four texts reach their minimum
      lengths and the cost, 0 when absent, is not negative; the accepted value carries
      the defaults. */
  function Validate(f: ColorForm): (r: Checked<ColorField, ColorData>)
    ensures r.Accepted? <==>
      |f.colorName| >= 2 && f.modelId != "" && f.colorCode != "" && f.approxAvailableDate != "" &&
      Default(f.additionalCost, 0) >= 0
    ensures r.Accepted? ==> r.value == WithDefaults(f)
    ensures r.Accepted? && f.isAvailable.None? ==> r.value.isAvailable
    ensures r.Accepted? && f.additionalCost.None? ==> r.value.additionalCost == 0
    ensures r.Rejected? ==> r.errors == Errors(f) && r.errors != map[]
  {
    PassesIff(f);
    Decide(Errors(f), WithDefaults(f))
  }

  /** The record `onSubmit` builds when the list holds `count` colours: the model name
      of the first model with the chosen id, or "" when none has it. */
  function NewColor(d: ColorData, count: nat, today: Date, models: seq<ModelRef>): (c: Color)
    requires ValidDate(today)
    ensures c.id == NextId("COLOR-", count) && c.data == d && c.createdAt == IsoDate(today)
    ensures Shows(models, ModelRefKey, d.modelId, ModelRefName, c.modelName)
  {
    Color(NextId("COLOR-", count), d, Lookup(models, ModelRefKey, d.modelId, ModelRefName), IsoDate(today))
  }

  /** `form.handleSubmit(onSubmit)`: a rejected form leaves the list alone; an
      accepted one is appended, or, when editing, overwrites every colour under the
      edited id with the fresh record. */
  method Submit(colors: EntityStore<Color>, f: ColorForm, editing: Option<string>,
                today: Date, models: seq<ModelRef>) returns (errors: Errors<ColorField>)
    requires colors.key == ColorKey
    requires ValidDate(today)
    modifies colors
    ensures errors == map[] <==> Validate(f).Accepted?
    ensures errors != map[] ==> colors.items == old(colors.items)
    ensures errors == map[] ==>
      var rec := NewColor(WithDefaults(f), |old(colors.items)|, today, models);
      colors.items == match editing
        case None => old(colors.items) + [rec]
        case Some(id) => MapWhere(old(colors.items), ColorKey, id, Overwrite(rec))
  {
    var checked := Validate(f);
    if checked.Rejected? {
      return checked.errors;
    }
    errors := map[];
    var rec := NewColor(checked.value, |colors.items|, today, models);
    match editing {
      case None => colors.Append(rec);
      case Some(id) => colors.UpdateById(id, Overwrite(rec));
    }
  }

  /** `{ ...c, isAvailable: !c.isAvailable }`. */
  function Flip(c: Color): (r: Color)
    ensures r.id == c.id && r.modelName == c.modelName && r.createdAt == c.createdAt
    ensures r.data.isAvailable == !c.data.isAvailable
    ensures r.data.(isAvailable := c.data.isAvailable) == c.data
  {
    c.(data := c.data.(isAvailable := !c.data.isAvailable))
  }

  /** `toggleAvailability`: flip the flag of every colour under `id`. */
  method ToggleAvailability(colors: EntityStore<Color>, id: string)
    requires colors.key == ColorKey
    modifies colors
    ensures colors.items == MapWhere(old(colors.items), ColorKey, id, Flip)
  {
    colors.UpdateById(id, Flip);
  }

  /** Toggling flips the flag of the colours under `id`, and leaves every other colour,
      and every other field, as it was. */
  lemma ToggleEffect(s: seq<Color>, id: string, i: nat)
    requires i < |s|
    ensures var r := MapWhere(s, ColorKey, id, Flip);
      |r| == |s| && r[i].id == s[i].id &&
      (s[i].id == id ==> r[i].data.isAvailable == !s[i].data.isAvailable) &&
      (s[i].id != id ==> r[i] == s[i]) &&
      r[i].data.(isAvailable := s[i].data.isAvailable) == s[i].data
  {
  }

  /** Toggling the same colour twice restores the list. */
  lemma ToggleTwice(s: seq<Color>, id: string)
    ensures MapWhere(MapWhere(s, ColorKey, id, Flip), ColorKey, id, Flip) == s
  {
    var r := MapWhere(MapWhere(s, ColorKey, id, Flip), ColorKey, id, Flip);
    assert forall i :: 0 <= i < |s| ==> r[i] == s[i];
  }

  predicate Matches(c: Color, term: string)
  {
    MatchesFolded(c.data.colorName, term) || MatchesFolded(c.modelName, term) ||
    MatchesFolded(c.data.colorCode, term)
  }

  /** `filteredColors`: the colours whose name, model name or colour code contains the
      term, ignoring case, in list order. */
  function Search(colors: seq<Color>, term: string): (r: seq<Color>)
    ensures forall c :: c in r <==> c in colors && Matches(c, term)
  {
    Filter(colors, c => Matches(c, term))
  }

  /** The empty search term shows every colour, in order. */
  lemma SearchEmptyTerm(colors: seq<Color>)
    ensures Search(colors, "") == colors
  {
    forall c | c in colors ensures Matches(c, "") {
      IncludesEmpty(Lower(c.data.colorName));
    }
    FilterAll(colors, c => Matches(c, ""));
  }

  predicate IsAvailable(c: Color) { c.data.isAvailable }
  predicate IsUnavailable(c: Color) { !c.data.isAvailable }

  /** `availableColors` and `unavailableColors`. */
  function AvailableCount(colors: seq<Color>): nat { Count(colors, IsAvailable) }
  function UnavailableCount(colors: seq<Color>): nat { Count(colors, IsUnavailable) }

  /** Every colour is counted once: the two figures add up to the list length. */
  lemma AvailabilityCountsPartition(colors: seq<Color>)
    ensures AvailableCount(colors) + UnavailableCount(colors) == |colors|
  {
    CountComplement(colors, IsAvailable, IsUnavailable);
  }
}
