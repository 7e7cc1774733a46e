/** The construction page of the single-file app (space-travel-app.tsx, `ConstructionPage`):
    a form of four text fields, the error messages its validation fills in, and the submit
    handler that builds a spacecraft through the mock API only when validation reports nothing. */
module ConstructionPage {
  import opened Seqs
  import opened Records
  import JsValues
  import MockApi

  datatype Field = Name | Capacity | Description | PictureUrl

  /** The form state; every field holds the raw text of its input. */
  datatype FormData = FormData(name: string, capacity: string, description: string, pictureUrl: string)

  const NameRequired: string := "Name is required"
  const CapacityRequired: string := "Capacity is required"
  const DescriptionRequired: string := "Description is required"
  const CapacityNotANumber: string := "Capacity must be a number"

  function Get(form: FormData, field: Field): string {
    match field
    case Name => form.name
    case Capacity => form.capacity
    case Description => form.description
    case PictureUrl => form.pictureUrl
  }

  /** `{ ...form, [field]: value }`. */
  function Set(form: FormData, field: Field, value: string): (r: FormData)
    ensures Get(r, field) == value
    ensures forall other: Field | other != field :: Get(r, other) == Get(form, other)
  {
    match field
    case Name => form.(name := value)
    case Capacity => form.(capacity := value)
    case Description => form.(description := value)
    case PictureUrl => form.(pictureUrl := value)
  }

  /** The message validation reports for one field, if any. A capacity that is not empty but
      does not start with a number gets the number message, including a capacity of blanks. */
  function FieldError(form: FormData, field: Field): Option<string> {
    match field
    case Name => if JsValues.IsBlank(form.name) then Some(NameRequired) else None
    case Capacity =>
      if form.capacity != "" && JsValues.ParseInt(form.capacity).None? then Some(CapacityNotANumber)
      else if JsValues.IsBlank(form.capacity) then Some(CapacityRequired)
      else None
    case Description => if JsValues.IsBlank(form.description) then Some(DescriptionRequired) else None
    case PictureUrl => None
  }

  /** The errors object, field by field. */
  function Validation(form: FormData): map<Field, string> {
    map field | field in {Name, Capacity, Description, PictureUrl} && FieldError(form, field).Some? ::
      FieldError(form, field).value
  }

  /** A field is in the errors object exactly when `FieldError` reports a message for it, and
      then with that message. */
  lemma ValidationAt(form: FormData, field: Field)
    ensures field in Validation(form) <==> FieldError(form, field).Some?
    ensures field in Validation(form) ==> Validation(form)[field] == FieldError(form, field).value
  {
  }

  /** A map that holds exactly the message `FieldError` reports for each field is the errors object. */
  lemma ValidationByField(form: FormData, m: map<Field, string>)
    requires forall field: Field :: field in m <==> FieldError(form, field).Some?
    requires forall field | field in m :: m[field] == FieldError(form, field).value
    ensures m == Validation(form)
  {
    assert m.Keys == Validation(form).Keys;
  }

  /** The message of each field in terms of the four checks `validateForm` makes. */
  lemma FieldErrorByChecks(form: FormData, nameBlank: bool, capacityBlank: bool, descriptionBlank: bool, capacityNaN: bool)
    requires nameBlank == JsValues.IsBlank(form.name)
    requires capacityBlank == JsValues.IsBlank(form.capacity)
    requires descriptionBlank == JsValues.IsBlank(form.description)
    requires capacityNaN == (form.capacity != "" && JsValues.ParseInt(form.capacity).None?)
    ensures FieldError(form, Name) == if nameBlank then Some(NameRequired) else None
    ensures FieldError(form, Capacity)
      == if capacityNaN then Some(CapacityNotANumber) else if capacityBlank then Some(CapacityRequired) else None
    ensures FieldError(form, Description) == if descriptionBlank then Some(DescriptionRequired) else None
    ensures FieldError(form, PictureUrl) == None
  {
  }

  /** The four checks in the order `validateForm` runs them, each adding or replacing one message. */
  lemma ChecksInOrder(nameBlank: bool, capacityBlank: bool, descriptionBlank: bool, capacityNaN: bool,
                      afterName: map<Field, string>, afterCapacity: map<Field, string>,
                      afterDescription: map<Field, string>, m: map<Field, string>)
    requires afterName == if nameBlank then map[Name := NameRequired] else map[]
    requires afterCapacity == if capacityBlank then afterName[Capacity := CapacityRequired] else afterName
    requires afterDescription
      == if descriptionBlank then afterCapacity[Description := DescriptionRequired] else afterCapacity
    requires m == if capacityNaN then afterDescription[Capacity := CapacityNotANumber] else afterDescription
    ensures Name in m <==> nameBlank
    ensures Description in m <==> descriptionBlank
    ensures Capacity in m <==> capacityBlank || capacityNaN
    ensures PictureUrl !in m
    ensures Name in m ==> m[Name] == NameRequired
    ensures Description in m ==> m[Description] == DescriptionRequired
    ensures Capacity in m ==> m[Capacity] == if capacityNaN then CapacityNotANumber else CapacityRequired
  {
  }

  /** Running the four checks in order on the form's own answers builds the errors object. */
  lemma ChecksGiveValidation(form: FormData, nameBlank: bool, capacityBlank: bool, descriptionBlank: bool,
                             capacityNaN: bool, afterName: map<Field, string>, afterCapacity: map<Field, string>,
                             afterDescription: map<Field, string>, m: map<Field, string>)
    requires nameBlank == JsValues.IsBlank(form.name)
    requires capacityBlank == JsValues.IsBlank(form.capacity)
    requires descriptionBlank == JsValues.IsBlank(form.description)
    requires capacityNaN == (form.capacity != "" && JsValues.ParseInt(form.capacity).None?)
    requires afterName == if nameBlank then map[Name := NameRequired] else map[]
    requires afterCapacity == if capacityBlank then afterName[Capacity := CapacityRequired] else afterName
    requires afterDescription
      == if descriptionBlank then afterCapacity[Description := DescriptionRequired] else afterCapacity
    requires m == if capacityNaN then afterDescription[Capacity := CapacityNotANumber] else afterDescription
    ensures m == Validation(form)
  {
    ChecksInOrder(nameBlank, capacityBlank, descriptionBlank, capacityNaN, afterName, afterCapacity, afterDescription, m);
    FieldErrorByChecks(form, nameBlank, capacityBlank, descriptionBlank, capacityNaN);
    forall field: Field
      ensures field in m <==> FieldError(form, field).Some?
      ensures field in m ==> m[field] == FieldError(form, field).value
    {
    }
    ValidationByField(form, m);
  }

  /** The name is reported exactly when it is blank; likewise the description. */
  lemma RequiredFieldsReported(form: FormData)
    ensures Name in Validation(form) <==> JsValues.IsBlank(form.name)
    ensures Description in Validation(form) <==> JsValues.IsBlank(form.description)
    ensures PictureUrl !in Validation(form)
  {
  }

  /** The capacity is reported exactly when `parseInt` does not read a number from it. */
  lemma CapacityReported(form: FormData)
    ensures Capacity in Validation(form) <==> JsValues.ParseInt(form.capacity).None?
  {
    if JsValues.IsBlank(form.capacity) {
      JsValues.BlankParsesToNaN(form.capacity);
    }
  }

  /** Validation reports nothing exactly when name and description hold more than blanks and
      the capacity starts with an integer, which is what `buildSpacecraft` needs to parse it. */
  lemma ValidationPassesIff(form: FormData)
    ensures Validation(form) == map[] <==>
      && !JsValues.IsBlank(form.name)
      && !JsValues.IsBlank(form.description)
      && JsValues.ParseInt(form.capacity).Some?
  {
    RequiredFieldsReported(form);
    CapacityReported(form);
    var v := Validation(form);
    if !JsValues.IsBlank(form.name) && !JsValues.IsBlank(form.description) && JsValues.ParseInt(form.capacity).Some? {
      forall field: Field ensures field !in v {
        match field
        case Name =>
        case Capacity =>
        case Description =>
        case PictureUrl =>
      }
      assert v.Keys == {};
    }
  }

  /** Errors that validation computed and that hold no key mean the form passed, and its
      capacity is one `parseInt` reads. */
  lemma EmptyErrorsPass(form: FormData, m: map<Field, string>)
    requires m == Validation(form) && |m| == 0
    ensures Validation(form) == map[]
    ensures JsValues.ParseInt(form.capacity).Some?
  {
    assert m == map[];
    PassedValidationParses(form);
  }

  /** A form that validation passes has a capacity `parseInt` reads. */
  lemma PassedValidationParses(form: FormData)
    requires Validation(form) == map[]
    ensures JsValues.ParseInt(form.capacity).Some?
  {
    CapacityReported(form);
  }

  /** A capacity field of blanks, empty or not, is always reported, never accepted. */
  lemma BlankCapacityReported(form: FormData)
    requires JsValues.IsBlank(form.capacity)
    ensures Capacity in Validation(form)
    ensures Validation(form)[Capacity] == if form.capacity == "" then CapacityRequired else CapacityNotANumber
  {
    JsValues.BlankParsesToNaN(form.capacity);
    ValidationAt(form, Capacity);
  }

  /** As written, validation accepts a negative capacity: `parseInt` reads `-n` as a number,
      so a form with a name, a description and the capacity `-5` (or any `-n`) passes, and
      the record built from it has capacity `-n`. */
  lemma NegativeCapacityAccepted(form: FormData, n: nat, now: nat)
    requires n >= 1 && form.capacity == "-" + JsValues.NatToString(n)
    requires !JsValues.IsBlank(form.name) && !JsValues.IsBlank(form.description)
    ensures Validation(form) == map[]
    ensures JsValues.ParseInt(form.capacity).Some?
    ensures MockApi.BuiltRecord(form.name, form.capacity, form.description, form.pictureUrl, now).capacity == -(n as int)
    ensures MockApi.BuiltRecord(form.name, form.capacity, form.description, form.pictureUrl, now).capacity < 0
  {
    JsValues.ParseIntNegated(n);
    ValidationPassesIff(form);
  }

  /** A ship of negative capacity that is dispatched from a planet with people to an empty
      planet leaves the target with a negative population. */
  lemma NegativeCapacityDispatch(t: MockApi.Tables, shipId: string, target: int)
    requires MockApi.SendDefined(t, shipId, target)
    requires FindSpacecraft(t.spacecrafts, shipId).Some?
    requires var ship := t.spacecrafts[FindSpacecraft(t.spacecrafts, shipId).value];
      && ship.capacity < 0
      && ship.currentLocation != Some(target)
      && t.planets[FindPlanet(t.planets, target).value].currentPopulation == 0
    ensures var after := MockApi.Send(t, shipId, target).tables.planets;
      after[FindPlanet(t.planets, target).value].currentPopulation < 0
  {
    var ship := t.spacecrafts[FindSpacecraft(t.spacecrafts, shipId).value];
    var o := FindPlanet(t.planets, ship.currentLocation.value).value;
    assert MockApi.TransferAmount(ship.capacity, t.planets[o].currentPopulation) < 0;
  }

  /** The message the corrected validation adds for a capacity below one. */
  const CapacityTooSmall: string := "Capacity must be at least 1"

  /** Validation as evidently intended: a capacity that reads as a number below one is
      reported too, so only ships that can carry someone are built. */
  function CorrectedValidation(form: FormData): (r: map<Field, string>)
    ensures r.Keys >= Validation(form).Keys
  {
    var v := Validation(form);
    match JsValues.ParseInt(form.capacity)
    case Some(n) => if n < 1 then v[Capacity := CapacityTooSmall] else v
    case None => v
  }

  /** The corrected validation passes exactly when the as-written one does and the capacity
      reads as at least one; the record it lets through then has a capacity of at least one. */
  lemma CorrectedValidationPassesIff(form: FormData, now: nat)
    ensures CorrectedValidation(form) == map[] <==>
      && !JsValues.IsBlank(form.name)
      && !JsValues.IsBlank(form.description)
      && JsValues.ParseInt(form.capacity).Some?
      && JsValues.ParseInt(form.capacity).value >= 1
    ensures CorrectedValidation(form) == map[] ==>
      MockApi.BuiltRecord(form.name, form.capacity, form.description, form.pictureUrl, now).capacity >= 1
  {
    ValidationPassesIff(form);
    var v := Validation(form);
    if JsValues.ParseInt(form.capacity).Some? && JsValues.ParseInt(form.capacity).value < 1 {
      assert Capacity in CorrectedValidation(form);
    }
  }

  /** The page's state: the form, the error shown under each field, and the submit spinner. */
  class Page {
    var formData: FormData
    var errors: map<Field, string>
    var loading: bool

    constructor ()
      ensures formData == FormData("", "", "", "") && errors == map[] && !loading
    {
      formData := FormData("", "", "", "");
      errors := map[];
      loading := false;
    }

    /** `handleInputChange`: stores the new text and clears a message shown for that field. */
    method HandleInputChange(field: Field, value: string)
      modifies this
      ensures formData == Set(old(formData), field, value)
      ensures errors == if field in old(errors) && old(errors)[field] != "" then old(errors)[field := ""] else old(errors)
      ensures loading == old(loading)
    {
      formData := Set(formData, field, value);
      if field in errors && errors[field] != "" {
        errors := errors[field := ""];
      }
    }

    /** `validateForm`: fills a fresh errors object one check after the other; the number check
        comes last and so replaces the required message for the capacity. */
    method ValidateForm() returns (newErrors: map<Field, string>)
      ensures newErrors == Validation(formData)
    {
      var form := formData;
      var nameBlank := JsValues.IsBlank(form.name);
      var capacityBlank := JsValues.IsBlank(form.capacity);
      var descriptionBlank := JsValues.IsBlank(form.description);
      var capacityNaN := form.capacity != "" && JsValues.ParseInt(form.capacity).None?;
      newErrors := map[];
      if nameBlank {
        newErrors := newErrors[Name := NameRequired];
      }
      ghost var afterName := newErrors;
      if capacityBlank {
        newErrors := newErrors[Capacity := CapacityRequired];
      }
      ghost var afterCapacity := newErrors;
      if descriptionBlank {
        newErrors := newErrors[Description := DescriptionRequired];
      }
      ghost var afterDescription := newErrors;
      if capacityNaN {
        newErrors := newErrors[Capacity := CapacityNotANumber];
      }
      ChecksGiveValidation(form, nameBlank, capacityBlank, descriptionBlank, capacityNaN,
                           afterName, afterCapacity, afterDescription, newErrors);
    }

    /** `handleSubmit`: when validation reports anything the messages are shown and the API is
        not called; otherwise the API appends the new spacecraft built from the form. */
    method HandleSubmit(api: MockApi.SpaceTravelMockApi, now: nat) returns (built: bool)
      modifies this, api
      ensures built <==> Validation(old(formData)) == map[]
      ensures formData == old(formData)
      ensures !built ==> errors == Validation(old(formData)) && loading == old(loading)
      ensures !built ==> api.planets == old(api.planets) && api.spacecrafts == old(api.spacecrafts)
      ensures built ==> errors == old(errors) && !loading && api.planets == old(api.planets)
      ensures built ==> JsValues.ParseInt(formData.capacity).Some?
      ensures built ==> api.spacecrafts == old(api.spacecrafts) + [MockApi.BuiltRecord(
          formData.name, formData.capacity, formData.description, formData.pictureUrl, now)]
    {
      var validationErrors := ValidateForm();
      if |validationErrors| > 0 {
        errors := validationErrors;
        return false;
      }
      var form := formData;
      EmptyErrorsPass(form, validationErrors);
      loading := true;
      var response := api.BuildSpacecraft(form.name, form.capacity, form.description, form.pictureUrl, now);
      loading := false;
      built := true;
    }
  }
}
