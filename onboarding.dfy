/**
 * The registration wizard: the form data its four steps fill in, the step counter and the
 * gate that enables the wizard's primary button on each step.
 */
module Onboarding {
  import opened JsText

  /** Everything the four steps collect. The two sliders store `parseInt` of their value,
      which may be NaN. */
  datatype FormData = FormData(
    firstName: string,
    lastName: string,
    email: string,
    password: string,
    confirmPassword: string,
    postalCode: string,
    searchRadius: Parsed<int>,
    dietaryPreference: string,
    allergens: seq<string>,
    weeklyBudget: Parsed<int>,
    householdSize: int)

  /** The form data the wizard starts with. */
  const InitialFormData: FormData :=
    FormData("", "", "", "", "", "", Finite(5), "omnivore", [], Finite(75), 2)

  const TotalSteps: int := 4

  /** The text fields the steps write through `handleInputChange(field, value)`. */
  datatype TextField = FirstName | LastName | Email | Password | ConfirmPassword | PostalCode

  /** The property name of a field, which is also the key of its error message. */
  function FieldKey(field: TextField): string {
    match field
    case FirstName => "firstName"
    case LastName => "lastName"
    case Email => "email"
    case Password => "password"
    case ConfirmPassword => "confirmPassword"
    case PostalCode => "postalCode"
  }

  lemma FieldKeyInjective(a: TextField, b: TextField)
    requires FieldKey(a) == FieldKey(b)
    ensures a == b
  {
    assert FieldKey(a)[..2] == FieldKey(b)[..2];
    assert FieldKey(a)[0] == FieldKey(b)[0] && FieldKey(a)[1] == FieldKey(b)[1];
  }

  function FieldText(f: FormData, field: TextField): string {
    match field
    case FirstName => f.firstName
    case LastName => f.lastName
    case Email => f.email
    case Password => f.password
    case ConfirmPassword => f.confirmPassword
    case PostalCode => f.postalCode
  }

  /** `{...prev, [field]: value}`: the field takes the value and every other field stays. */
  function SetText(f: FormData, field: TextField, value: string): (r: FormData)
    ensures FieldText(r, field) == value
    ensures forall g :: g != field ==> FieldText(r, g) == FieldText(f, g)
    ensures r.searchRadius == f.searchRadius && r.dietaryPreference == f.dietaryPreference
    ensures r.allergens == f.allergens && r.weeklyBudget == f.weeklyBudget && r.householdSize == f.householdSize
  {
    match field
    case FirstName => f.(firstName := value)
    case LastName => f.(lastName := value)
    case Email => f.(email := value)
    case Password => f.(password := value)
    case ConfirmPassword => f.(confirmPassword := value)
    case PostalCode => f.(postalCode := value)
  }

  /** Typing into a field clears its message when it has one, by setting it to the empty
      text; every other message stays. */
  function ClearError(errors: map<string, string>, key: string): (r: map<string, string>)
    ensures r.Keys == errors.Keys
    ensures key in r ==> r[key] == ""
    ensures forall k :: k in errors && k != key ==> r[k] == errors[k]
  {
    if key in errors && errors[key] != "" then errors[key := ""] else errors
  }

  /** No field of the map carries a message. */
  predicate NoMessage(errors: map<string, string>) {
    forall k :: k in errors ==> errors[k] == ""
  }

  /** Clearing never adds a message. */
  lemma ClearErrorKeepsNoMessage(errors: map<string, string>, key: string)
    requires NoMessage(errors)
    ensures NoMessage(ClearError(errors, key))
    ensures ClearError(errors, key) == errors
  {
  }

  // ---------------------------------------------------------------- the step counter

  /** `handleNext`: one step on, but never past the last step. */
  function NextStep(step: int): int {
    if step < TotalSteps then step + 1 else step
  }

  /** `handlePrevious`: one step back, but never before the first step. */
  function PreviousStep(step: int): int {
    if step > 1 then step - 1 else step
  }

  predicate InRange(step: int) {
    1 <= step <= TotalSteps
  }

  /** Going on and back, or back and on, away from the ends returns to the same step. */
  lemma NextPreviousInverse(step: int)
    ensures 1 <= step < TotalSteps ==> PreviousStep(NextStep(step)) == step
    ensures 1 < step <= TotalSteps ==> NextStep(PreviousStep(step)) == step
  {
  }

  datatype Move = Forward | Back

  /** The step reached after a sequence of button presses. */
  function Walk(step: int, moves: seq<Move>): int
    decreases |moves|
  {
    if moves == [] then step
    else Walk(if moves[0] == Forward then NextStep(step) else PreviousStep(step), moves[1..])
  }

  /** However the buttons are pressed, the step stays among the four steps. */
  lemma {:induction false} WalkInRange(step: int, moves: seq<Move>)
    requires InRange(step)
    ensures InRange(Walk(step, moves))
    decreases |moves|
  {
    if moves != [] {
      WalkInRange(if moves[0] == Forward then NextStep(step) else PreviousStep(step), moves[1..]);
    }
  }

  /** `n` presses of the next button from the first step reach step `n + 1`, and the last
      step once `n` is three or more. */
  lemma {:induction false} ForwardFromStart(n: nat)
    ensures Walk(1, seq(n, _ => Forward)) == if n < TotalSteps then n + 1 else TotalSteps
  {
    if n > 0 {
      ForwardsFrom(1, n);
    }
  }

  lemma {:induction false} ForwardsFrom(step: int, n: nat)
    requires InRange(step)
    ensures Walk(step, seq(n, _ => Forward)) == if step + n <= TotalSteps then step + n else TotalSteps
    decreases n
  {
    if n > 0 {
      var ms := seq(n, _ => Forward);
      assert ms[0] == Forward && ms[1..] == seq(n - 1, _ => Forward);
      ForwardsFrom(NextStep(step), n - 1);
    }
  }

  /** What the wizard shows. */
  datatype View = Welcome | AccountStep | LocationStep | DietaryStep | BudgetStep | Blank

  /** The welcome animation once the wizard is complete, otherwise the component of the
      current step; a step outside the four shows nothing. */
  function Shown(showWelcome: bool, step: int): (v: View)
    ensures showWelcome <==> v == Welcome
    ensures !showWelcome ==> (v == Blank <==> !InRange(step))
  {
    if showWelcome then Welcome
    else match step
      case 1 => AccountStep
      case 2 => LocationStep
      case 3 => DietaryStep
      case 4 => BudgetStep
      case _ => Blank
  }

  /** `canProceed`, the gate of the wizard's own primary button. */
  function CanProceed(step: int, f: FormData): bool {
    match step
    case 1 =>
      && f.firstName != "" && f.lastName != "" && f.email != ""
      && f.password != "" && f.confirmPassword != ""
      && f.password == f.confirmPassword
    case 2 => f.postalCode != "" && |f.postalCode| == 5
    case 3 => f.dietaryPreference != ""
    case 4 => TruthyInt(f.weeklyBudget) && f.householdSize != 0
    case _ => true
  }

  /** On the first step the gate only asks for five filled-in fields and matching
      passwords; on the second only for five characters. */
  lemma CanProceedShape(f: FormData)
    ensures CanProceed(1, f) <==>
      (forall g :: g != PostalCode ==> FieldText(f, g) != "") && f.password == f.confirmPassword
    ensures CanProceed(2, f) <==> |f.postalCode| == 5
  {
    if (forall g :: g != PostalCode ==> FieldText(f, g) != "") {
      assert FieldText(f, FirstName) != "" && FieldText(f, LastName) != "" && FieldText(f, Email) != "";
      assert FieldText(f, Password) != "" && FieldText(f, ConfirmPassword) != "";
    } else {
      var g :| g != PostalCode && FieldText(f, g) == "";
      assert !CanProceed(1, f);
    }
  }

  /** The wizard starts on the first step, and its start data already passes the gates of
      the last two steps. */
  lemma InitialGates()
    ensures !CanProceed(1, InitialFormData) && !CanProceed(2, InitialFormData)
    ensures CanProceed(3, InitialFormData) && CanProceed(4, InitialFormData)
  {
  }

  /** The registration page: the current step, whether the welcome animation shows, and the
      form data the steps share. */
  class OnboardingWizard {
    var currentStep: int
    var showWelcome: bool
    var formData: FormData

    predicate Valid()
      reads this
    {
      InRange(currentStep)
    }

    constructor()
      ensures Valid()
      ensures currentStep == 1 && !showWelcome && formData == InitialFormData
    {
      currentStep := 1;
      showWelcome := false;
      formData := InitialFormData;
    }

    method Next()
      modifies this`currentStep
      ensures currentStep == NextStep(old(currentStep))
      ensures old(Valid()) ==> Valid()
    {
      if currentStep < TotalSteps {
        currentStep := currentStep + 1;
      }
    }

    method Previous()
      modifies this`currentStep
      ensures currentStep == PreviousStep(old(currentStep))
      ensures old(Valid()) ==> Valid()
    {
      if currentStep > 1 {
        currentStep := currentStep - 1;
      }
    }

    /** `handleComplete`: only the welcome animation is switched on. */
    method Complete()
      modifies this`showWelcome
      ensures showWelcome
    {
      showWelcome := true;
    }

    /** The `setFormData` the steps are given. */
    method SetFormData(f: FormData)
      modifies this`formData
      ensures formData == f
    {
      formData := f;
    }

    /** Whether the wizard's primary button is enabled. */
    function CanProceedNow(): bool
      reads this
    {
      CanProceed(currentStep, formData)
    }
  }
}
