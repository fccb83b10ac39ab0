/**
 * The second wizard step: the postal code, checked by the step itself, and the search
 * radius slider.
 */
module LocationSetup {
  import opened JsText
  import opened Onboarding

  /** `/^[0-9]{5}$/`: exactly five ASCII digits. */
  predicate ValidatePostalCode(code: string) {
    |code| == 5 && AllDigits(code)
  }

  const PostalRequired: string := "Postleitzahl ist erforderlich"
  const PostalInvalid: string := "Bitte geben Sie eine gültige deutsche Postleitzahl ein"

  /** The error object `handleContinue` builds: a "required" message for an empty code, an
      "invalid" one for a code that is not five digits, nothing otherwise. */
  function LocationErrors(f: FormData): (e: map<string, string>)
    ensures e.Keys <= {"postalCode"}
    ensures f.postalCode == "" ==> e == map["postalCode" := PostalRequired]
    ensures f.postalCode != "" && !ValidatePostalCode(f.postalCode) ==> e == map["postalCode" := PostalInvalid]
    ensures e == map[] <==> ValidatePostalCode(f.postalCode)
  {
    if ValidatePostalCode(f.postalCode) then map[]
    else
      var e := map["postalCode" := if f.postalCode == "" then PostalRequired else PostalInvalid];
      assert "postalCode" in e;
      e
  }

  /** The step's own check is stricter than the wizard's gate for the second step. */
  lemma LocationCheckImpliesGate(f: FormData)
    requires LocationErrors(f) == map[]
    ensures CanProceed(2, f)
  {
  }

  /** The gate alone accepts five letters, which the step rejects. */
  lemma GateIgnoresDigits()
    ensures var f := InitialFormData.(postalCode := "abcde");
      CanProceed(2, f) && LocationErrors(f) == map["postalCode" := PostalInvalid]
  {
    var f := InitialFormData.(postalCode := "abcde");
    assert !IsDigit(f.postalCode[0]);
  }

  /** `handleRadiusChange`: the slider's value goes through `parseInt`. */
  function RadiusChange(f: FormData, value: string): (r: FormData)
    ensures r.searchRadius == ParseInt(value)
    ensures r.(searchRadius := f.searchRadius) == f
  {
    f.(searchRadius := ParseInt(value))
  }

  /** `searchRadius || 5`: the radius shown, five when it is NaN or zero. */
  function CurrentRadius(f: FormData): (km: int)
    ensures km != 0
    ensures TruthyInt(f.searchRadius) ==> km == f.searchRadius.value
  {
    if TruthyInt(f.searchRadius) then f.searchRadius.value else 5
  }

  /** The radius options of the step. */
  const RadiusOptions: seq<int> := [2, 5, 10, 15]

  /** Picking an option, or moving the slider to a non-zero whole number, shows exactly
      that radius. */
  lemma RadiusRoundTrip(f: FormData, km: int)
    requires km != 0
    ensures CurrentRadius(RadiusChange(f, IntText(km))) == km
  {
    ParseIntOfIntText(km);
  }

  lemma RadiusOptionsShown(f: FormData, i: nat)
    requires i < |RadiusOptions|
    ensures CurrentRadius(RadiusChange(f, IntText(RadiusOptions[i]))) == RadiusOptions[i]
  {
    RadiusRoundTrip(f, RadiusOptions[i]);
  }

  /** The step's own state: the messages and the "checking" flag shown while the code is
      looked at. */
  class LocationSetupStep {
    var errors: map<string, string>
    var isValidating: bool

    constructor()
      ensures errors == map[] && !isValidating
    {
      errors := map[];
      isValidating := false;
    }

    /** `handleInputChange(field, value)`: the new form data, and the field's message
        cleared. */
    method InputChange(f: FormData, field: TextField, value: string) returns (g: FormData)
      modifies this`errors
      ensures g == SetText(f, field, value)
      ensures errors == ClearError(old(errors), FieldKey(field))
    {
      g := SetText(f, field, value);
      if FieldKey(field) in errors && errors[FieldKey(field)] != "" {
        errors := errors[FieldKey(field) := ""];
      }
    }

    /** `handleContinue`: the messages are shown; without one the check starts, and the
        wizard moves on when it ends (see `CheckDone`). */
    method Continue(f: FormData) returns (started: bool)
      modifies this
      ensures errors == LocationErrors(f)
      ensures started <==> ValidatePostalCode(f.postalCode)
      ensures isValidating == (started || old(isValidating))
    {
      var newErrors: map<string, string> := map[];
      if f.postalCode == "" {
        newErrors := newErrors["postalCode" := PostalRequired];
      } else if !ValidatePostalCode(f.postalCode) {
        newErrors := newErrors["postalCode" := PostalInvalid];
      }
      errors := newErrors;
      started := |newErrors| == 0;
      if started {
        isValidating := true;
      }
    }

    /** The end of the simulated check: the flag drops and the wizard is told to move on. */
    method CheckDone() returns (next: bool)
      modifies this`isValidating
      ensures !isValidating && next
    {
      isValidating := false;
      next := true;
    }
  }
}
