/**
 * The two filter panels: the recipe page's advanced panel and the shared panel used by the
 * offers page. Each keeps a local copy of the filters and a flag per collapsible section,
 * edits the copy checkbox by checkbox, and hands it to the page on "apply".
 */
module FilterPanels {
  import opened FilterState

  /** The initial section flags of the advanced recipe panel. */
  function AdvancedSections(): (m: map<string, bool>)
    ensures m.Keys == {"dietary", "cuisine", "cooking", "ingredients", "nutrition", "budget"}
    ensures forall s :: s in m ==> (m[s] <==> s == "dietary" || s == "cuisine")
  {
    map["dietary" := true, "cuisine" := true, "cooking" := false,
        "ingredients" := false, "nutrition" := false, "budget" := false]
  }

  /** The initial section flags of the shared panel. */
  function SharedSections(): (m: map<string, bool>)
    ensures m.Keys == {"category", "price", "dietary", "location"}
    ensures forall s :: s in m ==> (m[s] <==> s == "category" || s == "price")
  {
    map["category" := true, "price" := true, "dietary" := false, "location" := false]
  }

  /** One entry of an option table: the stored value and the caption shown for it. */
  datatype OptionEntry = OptionEntry(value: string, caption: string)

  function Values(options: seq<OptionEntry>): (vs: seq<string>)
    ensures |vs| == |options| && forall i :: 0 <= i < |options| ==> vs[i] == options[i].value
  {
    if options == [] then [] else [options[0].value] + Values(options[1..])
  }

  const DefaultCategories: seq<OptionEntry> := [
    OptionEntry("hauptgerichte", "Hauptgerichte"), OptionEntry("vorspeisen", "Vorspeisen"),
    OptionEntry("desserts", "Desserts"), OptionEntry("snacks", "Snacks")]

  const DefaultPriceRanges: seq<OptionEntry> := [
    OptionEntry("0-5", "Unter 5€"), OptionEntry("5-10", "5€ - 10€"),
    OptionEntry("10-20", "10€ - 20€"), OptionEntry("20+", "Über 20€")]

  lemma DefaultPriceValues()
    ensures Values(DefaultPriceRanges) == ["0-5", "5-10", "10-20", "20+"]
  {
    var vs := Values(DefaultPriceRanges);
    assert |vs| == 4;
    assert vs[0] == "0-5" && vs[1] == "5-10" && vs[2] == "10-20" && vs[3] == "20+";
  }

  const DefaultDietary: seq<OptionEntry> := [
    OptionEntry("vegetarian", "Vegetarisch"), OptionEntry("vegan", "Vegan"),
    OptionEntry("glutenfree", "Glutenfrei"), OptionEntry("lactosefree", "Laktosefrei"),
    OptionEntry("lowcarb", "Low Carb")]

  const DistanceOptions: seq<OptionEntry> := [
    OptionEntry("1", "1 km"), OptionEntry("2", "2 km"), OptionEntry("5", "5 km"), OptionEntry("10", "10 km")]

  /** `filterOptions?.x || defaults`: a supplied table is used even when it is empty. */
  function OptionsOr(supplied: Option<seq<OptionEntry>>, defaults: seq<OptionEntry>): (r: seq<OptionEntry>)
    ensures supplied.None? ==> r == defaults
    ensures supplied.Some? ==> r == supplied.value
  {
    if supplied.Some? then supplied.value else defaults
  }

  /** The recipe page's advanced filter panel. */
  class AdvancedFilterPanel {
    var localFilters: Filters
    var expandedSections: map<string, bool>

    constructor(filters: Filters)
      ensures localFilters == filters && expandedSections == AdvancedSections()
    {
      localFilters := filters;
      expandedSections := AdvancedSections();
    }

    /** `handleLocalFilterChange`: edits the local copy one step at a time. `ok` is false
        exactly when the edit throws. The edit runs inside a state updater, so in the
        application that error reaches the error boundary, which replaces the page; the
        model then keeps the old local copy, which is no longer shown. */
    method LocalFilterChange(category: string, value: string, checked: Option<bool>) returns (ok: bool)
      modifies this
      ensures ok ==> PanelChange(old(localFilters), category, value, checked) == Done(localFilters)
      ensures !ok ==>
        && PanelChange(old(localFilters), category, value, checked).Thrown?
        && localFilters == old(localFilters)
      ensures expandedSections == old(expandedSections)
    {
      var r := EditFilters(localFilters, category, value, checked);
      if r.Thrown? {
        return false;
      }
      localFilters := r.value;
      ok := true;
    }

    /** `toggleSection`. */
    method ToggleSection(section: string)
      modifies this
      ensures expandedSections == FilterState.ToggleSection(old(expandedSections), section)
      ensures localFilters == old(localFilters)
    {
      expandedSections := expandedSections[section := !(section in expandedSections && expandedSections[section])];
    }

    /** `handleApply`: forwards the local filters unchanged, then asks to close. */
    method Apply() returns (forwarded: Filters, closeRequested: bool)
      ensures forwarded == localFilters && closeRequested
    {
      forwarded := localFilters;
      closeRequested := true;
    }

    /** `handleReset`: empties the local filters and notifies the page. */
    method Reset() returns (resetNotified: bool)
      modifies this
      ensures localFilters == map[] && resetNotified
      ensures expandedSections == old(expandedSections)
    {
      localFilters := map[];
      resetNotified := true;
    }
  }

  /** The shared filter panel; its callbacks are optional. */
  class FilterPanel {
    var localFilters: Filters
    var expandedSections: map<string, bool>

    constructor(filters: Filters)
      ensures localFilters == filters && expandedSections == SharedSections()
    {
      localFilters := filters;
      expandedSections := SharedSections();
    }

    /** `handleFilterChange`: the same edit as the advanced panel's, with the same reading of
        `ok`: false stands for the error page that replaces the panel. */
    method FilterChange(category: string, value: string, checked: Option<bool>) returns (ok: bool)
      modifies this
      ensures ok ==> PanelChange(old(localFilters), category, value, checked) == Done(localFilters)
      ensures !ok ==>
        && PanelChange(old(localFilters), category, value, checked).Thrown?
        && localFilters == old(localFilters)
      ensures expandedSections == old(expandedSections)
    {
      var r := EditFilters(localFilters, category, value, checked);
      if r.Thrown? {
        return false;
      }
      localFilters := r.value;
      ok := true;
    }

    /** `toggleSection`. */
    method ToggleSection(section: string)
      modifies this
      ensures expandedSections == FilterState.ToggleSection(old(expandedSections), section)
      ensures localFilters == old(localFilters)
    {
      expandedSections := expandedSections[section := !(section in expandedSections && expandedSections[section])];
    }

    /** `handleApply`: forwards the filters only when there is an `onApply`, and closes only
        when there is an `onClose`. */
    method Apply(hasOnApply: bool, hasOnClose: bool) returns (forwarded: Option<Filters>, closed: bool)
      ensures forwarded == (if hasOnApply then Some(localFilters) else None)
      ensures closed == hasOnClose
    {
      forwarded := None;
      if hasOnApply {
        forwarded := Some(localFilters);
      }
      closed := hasOnClose;
    }

    /** `handleReset`: empties the local filters and notifies only when there is an `onReset`. */
    method Reset(hasOnReset: bool) returns (resetNotified: bool)
      modifies this
      ensures localFilters == map[] && resetNotified == hasOnReset
      ensures expandedSections == old(expandedSections)
    {
      localFilters := map[];
      resetNotified := hasOnReset;
    }
  }
}
