/**
 * The third wizard step: one diet and any number of allergens.
 */
module DietaryPreferences {
  import opened JsText
  import opened FilterState
  import opened Onboarding

  /** The diets offered, in the order shown. */
  const DietaryOptions: seq<string> := ["omnivore", "vegetarian", "vegan", "pescatarian"]

  /** The allergens offered, in the order shown. */
  const AllergenOptions: seq<string> := ["gluten", "lactose", "nuts", "eggs", "soy", "shellfish", "sesame", "mustard"]

  /** `handleDietaryChange`: only the diet changes. */
  function DietaryChange(f: FormData, diet: string): (r: FormData)
    ensures r.dietaryPreference == diet
    ensures r.(dietaryPreference := f.dietaryPreference) == f
  {
    f.(dietaryPreference := diet)
  }

  /** `handleAllergenChange`: checking appends the allergen (a second check appends it
      again); unchecking removes every occurrence. Nothing but the allergens changes. */
  function AllergenChange(f: FormData, allergen: string, checked: bool): (r: FormData)
    ensures r.(allergens := f.allergens) == f
    ensures checked ==> r.allergens == f.allergens + [allergen]
    ensures !checked ==> allergen !in r.allergens
    ensures !checked ==> forall a :: a in f.allergens && a != allergen ==> a in r.allergens
    ensures !checked ==> forall a :: a in r.allergens ==> a in f.allergens
  {
    if checked then f.(allergens := f.allergens + [allergen])
    else f.(allergens := RemoveAll(f.allergens, allergen))
  }

  /** Checking and then unchecking an allergen leaves the list as unchecking alone would. */
  lemma CheckThenUncheck(f: FormData, allergen: string)
    ensures AllergenChange(AllergenChange(f, allergen, true), allergen, false)
         == AllergenChange(f, allergen, false)
  {
    RemoveAllAppend(f.allergens, [allergen], allergen);
    assert RemoveAll([allergen], allergen) == [];
  }

  /** Checking does not deduplicate: each check adds one more copy. */
  lemma CheckCountsCopies(f: FormData, allergen: string)
    ensures multiset(AllergenChange(f, allergen, true).allergens)[allergen]
         == multiset(f.allergens)[allergen] + 1
  {
  }

  /** An allergen unchecked is not selected, whatever was there before. */
  lemma UncheckedNotSelected(f: FormData, allergen: string)
    ensures !Selected(AllergenChange(f, allergen, false), allergen)
  {
  }

  /** `dietaryPreference || 'omnivore'`: the diet shown as selected. */
  function SelectedDietary(f: FormData): (d: string)
    ensures d != ""
    ensures f.dietaryPreference != "" ==> d == f.dietaryPreference
  {
    if f.dietaryPreference != "" then f.dietaryPreference else "omnivore"
  }

  /** Whether an allergen's box is checked. */
  predicate Selected(f: FormData, allergen: string) {
    allergen in f.allergens
  }

  /** The noun of the warning below the allergens: plural for more than one. */
  function AllergenNoun(n: int): (w: string)
    ensures w == "Allergenen" <==> n > 1
    ensures w == "Allergen" <==> n <= 1
  {
    "Allergen" + (if n > 1 then "en" else "")
  }

  /** The warning is shown only when an allergen is selected, and counts the selections. */
  function AllergenWarning(f: FormData): (w: Option<string>)
    ensures w.None? <==> f.allergens == []
  {
    if |f.allergens| > 0 then
      Some("Wir werden Rezepte mit " + NatText(|f.allergens|) + " " + AllergenNoun(|f.allergens|) + " ausschließen")
    else None
  }

  /** Choosing any offered diet lets the wizard go on from this step. */
  lemma DietChosenPassesGate(f: FormData, i: nat)
    requires i < |DietaryOptions|
    ensures CanProceed(3, DietaryChange(f, DietaryOptions[i]))
  {
  }
}
