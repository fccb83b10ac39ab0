/**
 * The home page's own state: the notifications, today's meal plan, the recently cooked
 * recipes and the savings figures, and the two handlers that change them.
 */
module Dashboard {
  import opened Seqs
  import opened FilterState
  import opened NotificationBanner
  import opened SavingsSummary

  /** A recipe of the plan or of the recent list, with the fields the page reads or sets. */
  datatype DashRecipe = DashRecipe(id: string, name: string, costPerServing: real, prepTime: int, isFavorited: bool)

  datatype MealPlan = MealPlan(id: string, totalCost: real, avgOfferCoverage: int, totalPrepTime: int, recipes: seq<DashRecipe>)

  /** The `mealPlan` state: `null` before loading, a loaded plan, or the object
      `{ recipes: undefined }` that spreading `null` leaves behind. */
  datatype PlanSlot = NoPlan | RecipesUndefined | Loaded(plan: MealPlan)

  /** The test `n?.id !== notificationId`. */
  function OtherNotification(id: string): Notification -> bool {
    (n: Notification) => n.id != id
  }

  /** `handleNotificationDismiss`: every notification with that id goes, the others stay in
      their order. */
  function DismissNotification(ns: seq<Notification>, id: string): (r: seq<Notification>)
    ensures |r| <= |ns|
    ensures forall i :: 0 <= i < |r| ==> r[i].id != id && r[i] in ns
    ensures forall i :: 0 <= i < |ns| && ns[i].id != id ==> ns[i] in r
  {
    Filter(ns, OtherNotification(id))
  }

  /** Dismissing works piece by piece, so the order of what stays is the order given. */
  lemma DismissAppend(a: seq<Notification>, b: seq<Notification>, id: string)
    ensures DismissNotification(a + b, id) == DismissNotification(a, id) + DismissNotification(b, id)
  {
    FilterAppend(a, b, OtherNotification(id));
  }

  /** A list without the id is left as it is. */
  lemma DismissAbsent(ns: seq<Notification>, id: string)
    requires forall i :: 0 <= i < |ns| ==> ns[i].id != id
    ensures DismissNotification(ns, id) == ns
  {
    FilterAll(ns, OtherNotification(id));
  }

  /** Dismissing twice is dismissing once. */
  lemma DismissTwice(ns: seq<Notification>, id: string)
    ensures DismissNotification(DismissNotification(ns, id), id) == DismissNotification(ns, id)
  {
    DismissAbsent(DismissNotification(ns, id), id);
  }

  /** The page drops what the banner would hide after the same dismissal. */
  lemma DismissAsBanner(ns: seq<Notification>, id: string)
    ensures DismissNotification(ns, id) == Visible(ns, {id})
  {
    FilterExt(ns, OtherNotification(id), NotDismissed({id}));
  }

  /** The updater inside `handleRecipeFavorite`: recipes with that id get the flag, every
      other recipe and every other field is kept. */
  function SetFavorite(rs: seq<DashRecipe>, id: string, f: bool): (r: seq<DashRecipe>)
    ensures |r| == |rs|
    ensures forall i :: 0 <= i < |rs| && rs[i].id == id ==> r[i].isFavorited == f
    ensures forall i :: 0 <= i < |rs| ==> r[i].(isFavorited := rs[i].isFavorited) == rs[i]
    ensures forall i :: 0 <= i < |rs| && rs[i].id != id ==> r[i] == rs[i]
  {
    seq(|rs|, i requires 0 <= i < |rs| => if rs[i].id == id then rs[i].(isFavorited := f) else rs[i])
  }

  /** Setting the same flag twice is setting it once. */
  lemma SetFavoriteTwice(rs: seq<DashRecipe>, id: string, f: bool)
    ensures SetFavorite(SetFavorite(rs, id, f), id, f) == SetFavorite(rs, id, f)
  {
  }

  /** The later of two clicks on the same recipe decides. */
  lemma SetFavoriteLastWins(rs: seq<DashRecipe>, id: string, f: bool, g: bool)
    ensures SetFavorite(SetFavorite(rs, id, f), id, g) == SetFavorite(rs, id, g)
  {
  }

  /** Clicks on different recipes do not interfere. */
  lemma SetFavoriteCommutes(rs: seq<DashRecipe>, id1: string, f: bool, id2: string, g: bool)
    requires id1 != id2
    ensures SetFavorite(SetFavorite(rs, id1, f), id2, g) == SetFavorite(SetFavorite(rs, id2, g), id1, f)
  {
  }

  /** Turning a flag on and back off restores a list in which it was off. */
  lemma FavoriteUndo(rs: seq<DashRecipe>, id: string, f: bool)
    requires forall i :: 0 <= i < |rs| && rs[i].id == id ==> rs[i].isFavorited == f
    ensures SetFavorite(SetFavorite(rs, id, !f), id, f) == rs
  {
    var r := SetFavorite(SetFavorite(rs, id, !f), id, f);
    assert forall i :: 0 <= i < |rs| ==> r[i] == rs[i];
  }

  /** The plan updater of `handleRecipeFavorite`: the plan's recipes are updated, and a plan
      that is not there yet becomes an object without recipes. */
  function FavoriteInPlan(slot: PlanSlot, id: string, f: bool): (r: PlanSlot)
    ensures slot.Loaded? <==> r.Loaded?
    ensures slot.Loaded? ==> r.plan.recipes == SetFavorite(slot.plan.recipes, id, f)
    ensures slot.Loaded? ==> r.plan.(recipes := slot.plan.recipes) == slot.plan
  {
    match slot
    case Loaded(p) => Loaded(p.(recipes := SetFavorite(p.recipes, id, f)))
    case _ => RecipesUndefined
  }

  /** Favouring the same recipe the same way twice changes nothing more. */
  lemma FavoriteInPlanTwice(slot: PlanSlot, id: string, f: bool)
    ensures FavoriteInPlan(FavoriteInPlan(slot, id, f), id, f) == FavoriteInPlan(slot, id, f)
  {
    if slot.Loaded? {
      SetFavoriteTwice(slot.plan.recipes, id, f);
    }
  }

  /** The page's state. */
  class DashboardHome {
    var isLoading: bool
    var mealPlan: PlanSlot
    var savingsData: Option<SavingsData>
    var notifications: seq<Notification>
    var recentRecipes: seq<DashRecipe>

    constructor()
      ensures !isLoading && mealPlan == NoPlan && savingsData == None
      ensures notifications == [] && recentRecipes == []
    {
      isLoading := false;
      mealPlan := NoPlan;
      savingsData := None;
      notifications := [];
      recentRecipes := [];
    }

    /** The start of the initial load: the loading flag is raised. */
    method BeginLoad()
      modifies this`isLoading
      ensures isLoading
    {
      isLoading := true;
    }

    /** The end of the simulated load: the data arrive and the flag drops. */
    method LoadDone(plan: MealPlan, savings: SavingsData, ns: seq<Notification>, recent: seq<DashRecipe>)
      modifies this
      ensures mealPlan == Loaded(plan) && savingsData == Some(savings)
      ensures notifications == ns && recentRecipes == recent && !isLoading
    {
      mealPlan := Loaded(plan);
      savingsData := Some(savings);
      notifications := ns;
      recentRecipes := recent;
      isLoading := false;
    }

    /** `handleNotificationDismiss`. */
    method NotificationDismiss(id: string)
      modifies this`notifications
      ensures notifications == DismissNotification(old(notifications), id)
    {
      notifications := DismissNotification(notifications, id);
    }

    /** `handleRecipeFavorite`: the flag is set in the plan and in the recent list alike. */
    method RecipeFavorite(id: string, f: bool)
      modifies this`mealPlan, this`recentRecipes
      ensures mealPlan == FavoriteInPlan(old(mealPlan), id, f)
      ensures recentRecipes == SetFavorite(old(recentRecipes), id, f)
    {
      mealPlan := FavoriteInPlan(mealPlan, id, f);
      recentRecipes := SetFavorite(recentRecipes, id, f);
    }
  }
}
