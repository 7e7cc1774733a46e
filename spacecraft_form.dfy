/** The spacecraft form (SpacecraftForm.jsx): three text inputs and an icon choice, the guard
    that ignores a capacity below one, the check made before submitting, and the record the
    submission hands to the spacecraft context. */
module SpacecraftForm {
  import opened Seqs
  import JsValues

  /** The inputs `handleChange` serves, named by their `name` attribute. */
  datatype Field = Name | Capacity | Description

  datatype FormData = FormData(name: string, capacity: string, description: string, selectedImage: string)

  const DefaultImage: string := "/images/icon1.png"

  /** The record a submission builds; `capacity` is `None` where `parseInt` gives NaN and
      `currentLocation` is `None` for `null`. */
  datatype NewSpacecraft = NewSpacecraft(
    name: string,
    capacity: Option<int>,
    description: string,
    pictureUrl: string,
    currentLocation: Option<int>)

  function Set(form: FormData, field: Field, value: string): (r: FormData)
    ensures r.selectedImage == form.selectedImage
    ensures r.name == (if field == Name then value else form.name)
    ensures r.capacity == (if field == Capacity then value else form.capacity)
    ensures r.description == (if field == Description then value else form.description)
  {
    match field
    case Name => form.(name := value)
    case Capacity => form.(capacity := value)
    case Description => form.(description := value)
  }

  /** `value < 1` for the text of the capacity input: the text is converted with `Number`, so
      a blank text (zero) is below one, and once typed a capacity cannot be cleared again; a
      text that is no number (NaN) is not below one. */
  predicate BelowOne(value: string): (r: bool)
    ensures JsValues.IsBlank(value) ==> r
    ensures r ==> !JsValues.ToNumber(value).NaN?
  {
    JsValues.LessThan(JsValues.ToNumber(value), 1.0)
  }

  /** What the capacity input can hold: the initial empty text, or a text that is not below one. */
  predicate CapacityAdmitted(form: FormData) {
    form.capacity == "" || !BelowOne(form.capacity)
  }

  /** `validateForm`: name, description and icon are not empty and the capacity is above zero. */
  predicate ValidateForm(form: FormData): (r: bool)
    ensures r ==> !JsValues.IsBlank(form.capacity) && !JsValues.ToNumber(form.capacity).NaN?
  {
    && form.name != ""
    && JsValues.GreaterThan(JsValues.ToNumber(form.capacity), 0.0)
    && form.description != ""
    && form.selectedImage != ""
  }

  /** For a capacity the input admits, being above zero only asks that it is a number at all:
      the guard already keeps out every number below one. */
  lemma AdmittedCapacityValidIffNumber(form: FormData)
    requires CapacityAdmitted(form)
    ensures ValidateForm(form) <==>
      && form.name != "" && form.description != "" && form.selectedImage != ""
      && form.capacity != ""
      && !JsValues.ToNumber(form.capacity).NaN?
  {
    if form.capacity == "" {
      assert JsValues.Trim("") == [];
    }
  }

  /** The outcome of `handleSubmit` before the context is called: nothing for a form that
      fails the check, otherwise the record built from the form. */
  function Submission(form: FormData): (r: Option<NewSpacecraft>)
    ensures r.Some? <==> ValidateForm(form)
    ensures r.Some? ==>
      && r.value.name == form.name && r.value.description == form.description
      && r.value.capacity == JsValues.ParseInt(form.capacity)
      && r.value.pictureUrl == form.selectedImage
      && r.value.currentLocation == None
  {
    if !ValidateForm(form) then None
    else Some(NewSpacecraft(form.name, JsValues.ParseInt(form.capacity), form.description, form.selectedImage, None))
  }

  /** As written, the check reads the capacity with `Number` but the record reads it with
      `parseInt`. The text `0.5e1` is five to the check and zero to the record, so a form the
      check accepts yields a spacecraft of capacity zero. */
  lemma ZeroCapacitySubmitted()
    ensures var form := FormData("Ark", "0.5e1", "Colony ship", DefaultImage);
      && CapacityAdmitted(form)
      && ValidateForm(form)
      && Submission(form).value.capacity == Some(0)
  {
    NumberOfFiveInExponentForm();
    ParseIntOfFiveInExponentForm();
  }

  /** `Number("0.5e1")` is five. */
  lemma NumberOfFiveInExponentForm()
    ensures JsValues.ToNumber("0.5e1") == JsValues.Finite(5.0)
  {
    TrimKeepsUnpadded("0.5e1");
    NumericLiteralOfFive();
  }

  lemma NumericLiteralOfFive()
    ensures JsValues.NumericLiteral("0.5e1") == JsValues.Finite(5.0)
  {
    assert "0.5e1"[1] !in "xXoObB";
    UnsignedDecimalOfFive();
  }

  /** `parseInt("0.5e1")` stops at the point and reads zero. */
  lemma ParseIntOfFiveInExponentForm()
    ensures JsValues.ParseInt("0.5e1") == Some(0)
  {
    var c := "0.5e1";
    JsValues.ParseIntOfUnpadded(c);
    JsValues.UnsignedMagnitude(c);
    MagnitudeOfFiveInExponentForm();
  }

  lemma MagnitudeOfFiveInExponentForm()
    ensures JsValues.ParseMagnitude("0.5e1") == Some(0)
  {
    var c := "0.5e1";
    assert c[1] == '.';
    assert JsValues.DigitRun(c, 10) == 1 by { DigitRunsOfFive(); }
    assert c[..1] == "0" && "0"[..0] == "";
  }

  /** A string that neither starts nor ends with white space is its own trim. */
  lemma TrimKeepsUnpadded(s: string)
    requires s != [] && !JsValues.IsWhiteSpace(s[0]) && !JsValues.IsWhiteSpace(s[|s| - 1])
    ensures JsValues.Trim(s) == s
  {
    assert JsValues.TrimStart(s) == s;
  }

  lemma DigitRunsOfFive()
    ensures JsValues.DigitRun("0.5e1", 10) == 1
    ensures JsValues.DigitRun("5e1", 10) == 1
  {
    assert "0.5e1"[1..] == ".5e1";
    assert "5e1"[1..] == "e1";
  }

  lemma ExponentOne()
    ensures JsValues.Exponent("e1") == Some(1)
  {
    assert "e1"[1..] == "1";
    assert "1"[..0] == "";
  }

  lemma UnsignedDecimalOfFive()
    ensures JsValues.UnsignedDecimal("0.5e1") == JsValues.Finite(5.0)
  {
    var u := "0.5e1";
    DigitRunsOfFive();
    ExponentOne();
    assert u[1..] == ".5e1" && ".5e1"[1..] == "5e1" && "5e1"[1..] == "e1";
    assert u[..1] + "5e1"[..1] == "05";
    assert JsValues.DigitsValue("05", 10) == 5 by {
      assert "05"[..1] == "0" && "0"[..0] == "";
    }
  }

  /** The check as evidently intended: the capacity must also read as at least one with the
      same `parseInt` the record is built with. */
  predicate CorrectedValidateForm(form: FormData) {
    && ValidateForm(form)
    && JsValues.ParseInt(form.capacity).Some?
    && JsValues.ParseInt(form.capacity).value >= 1
  }

  /** The submission with the corrected check. */
  function CorrectedSubmission(form: FormData): (r: Option<NewSpacecraft>)
    ensures r.Some? <==> CorrectedValidateForm(form)
    ensures r.Some? ==> r == Submission(form)
  {
    if CorrectedValidateForm(form) then Submission(form) else None
  }

  /** Every record the corrected submission builds has a capacity of at least one. */
  lemma CorrectedCapacityAtLeastOne(form: FormData)
    requires CorrectedSubmission(form).Some?
    ensures CorrectedSubmission(form).value.capacity.Some?
    ensures CorrectedSubmission(form).value.capacity.value >= 1
  {
  }

  /** The form's state. */
  class Form {
    var formData: FormData

    constructor ()
      ensures formData == FormData("", "", "", DefaultImage)
      ensures CapacityAdmitted(formData)
    {
      formData := FormData("", "", "", DefaultImage);
    }

    /** `handleChange`: a capacity below one is ignored; any other change sets the one field. */
    method HandleChange(field: Field, value: string)
      modifies this
      ensures field == Capacity && BelowOne(value) ==> formData == old(formData)
      ensures !(field == Capacity && BelowOne(value)) ==> formData == Set(old(formData), field, value)
      ensures CapacityAdmitted(old(formData)) ==> CapacityAdmitted(formData)
    {
      if field == Capacity && BelowOne(value) {
        return;
      }
      formData := Set(formData, field, value);
    }

    /** `handleImageClick`: only the chosen icon changes. */
    method HandleImageClick(imageUrl: string)
      modifies this
      ensures formData == old(formData).(selectedImage := imageUrl)
    {
      formData := formData.(selectedImage := imageUrl);
    }

    /** `handleSubmit` up to the call into the context: the record it passes to
        `addSpacecraft`, or nothing when the check fails and only an alert is shown. */
    method HandleSubmit() returns (submitted: Option<NewSpacecraft>)
      ensures submitted == Submission(formData)
      ensures submitted.None? <==> !ValidateForm(formData)
    {
      submitted := Submission(formData);
    }
  }
}
