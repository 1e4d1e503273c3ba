/** The vehicle models page: `modelSchema`, `onSubmit`, `filteredModels` and the
    `fuelTypeCounts` tally. */
module Models {
  import opened Lists
  import opened Text
  import opened Ids
  import opened Validation
  import opened Store

  /** The model form as `modelSchema` reads it. Mileage is a decimal figure. */
  datatype ModelForm = ModelForm(
    modelName: string,
    variant: string,
    fuelType: string,
    mileage: real,
    transmission: string,
    engineCapacity: string,
    powerOutput: string,
    torque: string,
    seatingCapacity: int,
    bootSpace: int,
    groundClearance: int,
    features: Option<string>)

  /** The keys of `modelSchema` that carry a check. */
  datatype ModelField =
    | ModelNameField | VariantField | FuelTypeField | MileageField | TransmissionField
    | EngineField | PowerField | TorqueField | SeatingField | BootSpaceField | ClearanceField

  /** A stored model. */
  datatype Model = Model(id: string, data: ModelForm, createdAt: string)

  function ModelKey(m: Model): string { m.id }

  const FuelTypes: set<string> := {"Petrol", "Diesel", "Electric", "Hybrid", "CNG"}
  const Transmissions: set<string> := {"Manual", "Automatic", "CVT", "AMT"}

  /** When `modelSchema` reports `field`. */
  predicate Fails(f: ModelForm, field: ModelField)
  {
    match field
    case ModelNameField => |f.modelName| < 2
    case VariantField => f.variant == ""
    case FuelTypeField => f.fuelType !in FuelTypes
    case MileageField => f.mileage < 0.0
    case TransmissionField => f.transmission !in Transmissions
    case EngineField => f.engineCapacity == ""
    case PowerField => f.powerOutput == ""
    case TorqueField => f.torque == ""
    case SeatingField => f.seatingCapacity < 1
    case BootSpaceField => f.bootSpace < 0
    case ClearanceField => f.groundClearance < 0
  }

  /** Every key `modelSchema` checks. */
  const Fields: set<ModelField> := {
    ModelNameField, VariantField, FuelTypeField, MileageField, TransmissionField,
    EngineField, PowerField, TorqueField, SeatingField, BootSpaceField, ClearanceField}

  lemma InFields(field: ModelField)
    ensures field in Fields
  {
    match field
    case ModelNameField =>
    case VariantField =>
    case FuelTypeField =>
    case MileageField =>
    case TransmissionField =>
    case EngineField =>
    case PowerField =>
    case TorqueField =>
    case SeatingField =>
    case BootSpaceField =>
    case ClearanceField =>
  }

  /** The message `modelSchema` gives each field. */
  function Message(field: ModelField): string
  {
    match field
    case ModelNameField => "Model name must be at least 2 characters"
    case VariantField => "Variant is required"
    case FuelTypeField | TransmissionField => InvalidEnum
    case MileageField => "Mileage must be positive"
    case EngineField => "Engine capacity is required"
    case PowerField => "Power output is required"
    case TorqueField => "Torque is required"
    case SeatingField => "Seating capacity must be at least 1"
    case BootSpaceField => "Boot space must be positive"
    case ClearanceField => "Ground clearance must be positive"
  }

  /** Every error `modelSchema` reports: exactly the failing fields, each with its
      message. */
  function Errors(f: ModelForm): (r: Errors<ModelField>)
    ensures forall field :: field in r <==> Fails(f, field)
    ensures forall field :: field in r ==> r[field] == Message(field)
    ensures r == map[] <==> forall field :: !Fails(f, field)
  {
    assert forall field :: field in Fields by {
      forall field ensures field in Fields { InFields(field); }
    }
    Report(Fields, (field: ModelField) => Fails(f, field), Message)
  }

  /** No field fails exactly when every length, enum and number check passes. */
  lemma PassesIff(f: ModelForm)
    ensures (forall field :: !Fails(f, field)) <==>
      |f.modelName| >= 2 && f.variant != "" && f.fuelType in FuelTypes && f.mileage >= 0.0 &&
      f.transmission in Transmissions && f.engineCapacity != "" && f.powerOutput != "" &&
      f.torque != "" && f.seatingCapacity >= 1 && f.bootSpace >= 0 && f.groundClearance >= 0
  {
    if forall field :: !Fails(f, field) {
      assert !Fails(f, ModelNameField) && !Fails(f, VariantField) && !Fails(f, FuelTypeField);
      assert !Fails(f, MileageField) && !Fails(f, TransmissionField) && !Fails(f, EngineField);
      assert !Fails(f, PowerField) && !Fails(f, TorqueField) && !Fails(f, SeatingField);
      assert !Fails(f, BootSpaceField) && !Fails(f, ClearanceField);
    }
  }

  /** `modelSchema.safeParse`: accepted, unchanged, exactly when every check passes. */
  function Validate(f: ModelForm): (r: Checked<ModelField, ModelForm>)
    ensures r.Accepted? <==>
      |f.modelName| >= 2 && f.variant != "" && f.fuelType in FuelTypes && f.mileage >= 0.0 &&
      f.transmission in Transmissions && f.engineCapacity != "" && f.powerOutput != "" &&
      f.torque != "" && f.seatingCapacity >= 1 && f.bootSpace >= 0 && f.groundClearance >= 0
    ensures r.Accepted? ==> r.value == f
    ensures r.Rejected? ==> r.errors == Errors(f) && r.errors != map[]
  {
    PassesIff(f);
    Decide(Errors(f), f)
  }

  /** The blank form (`defaultValues`) is rejected on both choices, since "" is not in
      either enum, even though every number there already passes. */
  lemma BlankFormRejected()
    ensures var blank := ModelForm("", "", "", 0.0, "", "", "", "", 5, 0, 0, Some(""));
      FuelTypeField in Errors(blank) && TransmissionField in Errors(blank) &&
      MileageField !in Errors(blank) && SeatingField !in Errors(blank)
  {
    var blank := ModelForm("", "", "", 0.0, "", "", "", "", 5, 0, 0, Some(""));
    assert "" !in FuelTypes && "" !in Transmissions;
    assert Fails(blank, FuelTypeField) && Fails(blank, TransmissionField);
    assert !Fails(blank, MileageField) && !Fails(blank, SeatingField);
  }

  /** The record `onSubmit` builds when the list holds `count` models. The contract
      only lists the fields; what the id promises (digits reading back as `count + 1`,
      distinct per count, unused while nothing was deleted) is stated on `NextId`,
      `NextIdInjective` and `NextIdFresh`. */
  function NewModel(f: ModelForm, count: nat, today: Date): (m: Model)
    requires ValidDate(today)
    ensures m.id == NextId("MODEL-", count) && m.data == f && m.createdAt == IsoDate(today)
  {
    Model(NextId("MODEL-", count), f, IsoDate(today))
  }

  /** `form.handleSubmit(onSubmit)`: a rejected form leaves the list alone; an
      accepted one is appended, or, when editing, overwrites every model under the
      edited id with the fresh record. */
  method Submit(models: EntityStore<Model>, f: ModelForm, editing: Option<string>, today: Date)
    returns (errors: Errors<ModelField>)
    requires models.key == ModelKey
    requires ValidDate(today)
    modifies models
    ensures errors == map[] <==> Validate(f).Accepted?
    ensures errors != map[] ==> models.items == old(models.items)
    ensures errors == map[] ==>
      var rec := NewModel(f, |old(models.items)|, today);
      models.items == match editing
        case None => old(models.items) + [rec]
        case Some(id) => MapWhere(old(models.items), ModelKey, id, Overwrite(rec))
  {
    var checked := Validate(f);
    if checked.Rejected? {
      return checked.errors;
    }
    errors := map[];
    var rec := NewModel(f, |models.items|, today);
    match editing {
      case None => models.Append(rec);
      case Some(id) => models.UpdateById(id, Overwrite(rec));
    }
  }

  /** The three seed models' ids. */
  const SeedIds: seq<string> := ["MODEL-001", "MODEL-002", "MODEL-003"]

  /** After the page's first model is deleted, a new model is given "MODEL-003", the id
      the page's last model still holds. */
  lemma DeleteThenAddReusesId()
    ensures NextId("MODEL-", |SeedIds| - 1) == "MODEL-003"
    ensures "MODEL-003" in SeedIds[1..]
  {
    assert Decimal(3) == "3";
    assert Pad3(3) == "003";
  }

  predicate Matches(m: Model, term: string)
  {
    MatchesFolded(m.data.modelName, term) || MatchesFolded(m.data.variant, term) ||
    MatchesFolded(m.data.fuelType, term)
  }

  /** `filteredModels`: the models whose name, variant or fuel type contains the term,
      ignoring case, in list order. */
  function Search(models: seq<Model>, term: string): (r: seq<Model>)
    ensures forall m :: m in r <==> m in models && Matches(m, term)
  {
    Filter(models, m => Matches(m, term))
  }

  /** The empty search term shows every model, in order. */
  lemma SearchEmptyTerm(models: seq<Model>)
    ensures Search(models, "") == models
  {
    forall m | m in models ensures Matches(m, "") {
      IncludesEmpty(Lower(m.data.modelName));
    }
    FilterAll(models, m => Matches(m, ""));
  }

  /** The models of one fuel type. */
  function HasFuel(fuel: string): Model -> bool
  {
    (m: Model) => m.data.fuelType == fuel
  }

  /** `fuelTypeCounts`: folding the list from the left, each model adds one to its
      fuel type's entry, which starts at 0 when absent. */
  function FuelTypeCounts(models: seq<Model>): (r: map<string, nat>)
    ensures |r| <= |models|
    ensures forall fuel :: fuel in r ==> r[fuel] >= 1
  {
    if models == [] then map[]
    else
      var acc := FuelTypeCounts(models[..|models| - 1]);
      var fuel := models[|models| - 1].data.fuelType;
      acc[fuel := (if fuel in acc then acc[fuel] else 0) + 1]
  }

  /** The tally has an entry for exactly the fuel types that occur, and each entry is
      the number of models of that type. */
  lemma FuelTypeCountsExact(models: seq<Model>)
    ensures forall fuel :: fuel in FuelTypeCounts(models) <==> exists m :: m in models && m.data.fuelType == fuel
    ensures forall fuel :: fuel in FuelTypeCounts(models) ==> FuelTypeCounts(models)[fuel] == Count(models, HasFuel(fuel))
  {
    FuelTypeKeys(models);
    forall fuel | fuel in FuelTypeCounts(models)
      ensures FuelTypeCounts(models)[fuel] == Count(models, HasFuel(fuel))
    {
      FuelCountAt(models, fuel);
    }
  }

  /** One entry of the tally is the number of models of that fuel type. */
  lemma {:induction false} FuelCountAt(models: seq<Model>, fuel: string)
    requires fuel in FuelTypeCounts(models)
    ensures FuelTypeCounts(models)[fuel] == Count(models, HasFuel(fuel))
  {
    var init := models[..|models| - 1];
    var last := models[|models| - 1].data.fuelType;
    var acc := FuelTypeCounts(init);
    assert FuelTypeCounts(models) == acc[last := (if last in acc then acc[last] else 0) + 1];
    CountStep(models, fuel);
    if fuel in acc {
      FuelCountAt(init, fuel);
    } else {
      FuelTypeKeys(init);
      CountAbsent(init, fuel);
    }
  }

  /** The tally has an entry for exactly the fuel types that occur. */
  lemma {:induction false} FuelTypeKeys(models: seq<Model>)
    ensures forall fuel :: fuel in FuelTypeCounts(models) <==> exists m :: m in models && m.data.fuelType == fuel
  {
    if models != [] {
      var init := models[..|models| - 1];
      var last := models[|models| - 1];
      assert FuelTypeCounts(models).Keys == FuelTypeCounts(init).Keys + {last.data.fuelType};
      FuelTypeKeys(init);
      forall fuel ensures fuel in FuelTypeCounts(models) <==> exists m :: m in models && m.data.fuelType == fuel {
        OccursStep(models, fuel);
      }
    }
  }

  /** A fuel type occurs in a non-empty list exactly when it occurs before the last
      model or is the last model's. */
  lemma OccursStep(models: seq<Model>, fuel: string)
    requires models != []
    ensures (exists m :: m in models && m.data.fuelType == fuel) <==>
      (exists m :: m in models[..|models| - 1] && m.data.fuelType == fuel) ||
      models[|models| - 1].data.fuelType == fuel
  {
    var init, last := models[..|models| - 1], models[|models| - 1];
    assert models == init + [last];
    if exists m :: m in models && m.data.fuelType == fuel {
      var m :| m in models && m.data.fuelType == fuel;
      if m != last {
        assert m in init;
      }
    }
  }

  /** Taking the last model off lowers its fuel type's count by one. */
  lemma CountStep(models: seq<Model>, fuel: string)
    requires models != []
    ensures Count(models, HasFuel(fuel)) ==
      Count(models[..|models| - 1], HasFuel(fuel)) + (if models[|models| - 1].data.fuelType == fuel then 1 else 0)
  {
  }

  /** A fuel type no model has counts 0. */
  lemma CountAbsent(models: seq<Model>, fuel: string)
    requires forall m :: m in models ==> m.data.fuelType != fuel
    ensures Count(models, HasFuel(fuel)) == 0
  {
    var other := (m: Model) => m.data.fuelType != fuel;
    FilterAll(models, other);
    CountComplement(models, HasFuel(fuel), other);
  }

  /** Every model is tallied once: the entries add up to the number of models. */
  lemma {:induction false} FuelTypeCountsTotal(models: seq<Model>)
    ensures MapSum(FuelTypeCounts(models)) == |models|
  {
    if models != [] {
      var init := models[..|models| - 1];
      var acc := FuelTypeCounts(init);
      var fuel := models[|models| - 1].data.fuelType;
      var v := (if fuel in acc then acc[fuel] else 0) + 1;
      assert FuelTypeCounts(models) == acc[fuel := v];
      FuelTypeCountsTotal(init);
      MapSumUpdate(acc, fuel, v);
    }
  }
}
