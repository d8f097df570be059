/**
 * The application state of the front end and its two request handlers: plan
 * generation and fetching the details of one planned meal. The plan is an
 * array of day objects; fetching details copies the array but writes the
 * merged meal into the shared day object.
 */
module App {
  import opened Wrappers
  import opened Types

  /** One day of the plan as a mutable object. */
  class DayCell {
    var dia: string
    var fecha: string
    var comida: Option<Meal>
    var cena: Option<Meal>

    constructor (d: DayMenu)
      ensures View() == d
    {
      dia := d.dia;
      fecha := d.fecha;
      comida := d.comida;
      cena := d.cena;
    }

    function View(): DayMenu
      reads this
    {
      DayMenu(dia, fecha, comida, cena)
    }

    /** `day[mealType] = meal`. */
    method SetSlot(t: MealType, m: Option<Meal>)
      modifies this
      ensures View() == WithSlot(old(View()), t, m)
      ensures SlotOf(View(), t) == m
    {
      match t
      case Comida => comida := m;
      case Cena => cena := m;
    }
  }

  /** The day objects an array holds. */
  function Cells(a: array<DayCell>): set<DayCell>
    reads a
  {
    set i | 0 <= i < a.Length :: a[i]
  }

  /** The plan an array of day objects shows. */
  function Days(a: array<DayCell>): (r: MenuPlan)
    reads a, Cells(a)
    ensures |r| == a.Length
  {
    seq(a.Length, i requires 0 <= i < a.Length reads a, Cells(a) => a[i].View())
  }

  /** No day object appears twice. */
  predicate Distinct(a: array<DayCell>)
    reads a
  {
    forall i, j :: 0 <= i < j < a.Length ==> a[i] != a[j]
  }

  /**
   * `{ ...meal, ...details }`: every field the details carry, `nombre`
   * included, replaces the meal's.
   */
  function Merge(meal: Meal, d: MealDetails): Meal
  {
    Meal(
      d.nombre.GetOr(meal.nombre),
      if d.ingredientes.Some? then d.ingredientes else meal.ingredientes,
      if d.preparacion.Some? then d.preparacion else meal.preparacion,
      if d.infoNutricional.Some? then d.infoNutricional else meal.infoNutricional,
      if d.comentarioMotivador.Some? then d.comentarioMotivador else meal.comentarioMotivador)
  }

  /** Details with no fields leave the meal as it was. */
  lemma MergeNothing(meal: Meal)
    ensures Merge(meal, MealDetails(None, None, None, None, None)) == meal
  {
  }

  /** Merging the same details twice is merging them once. */
  lemma MergeIdempotent(meal: Meal, d: MealDetails)
    ensures Merge(Merge(meal, d), d) == Merge(meal, d)
  {
  }

  /** Complete details replace the whole meal, its name included. */
  lemma MergeComplete(m1: Meal, m2: Meal, d: MealDetails)
    requires d.nombre.Some? && d.ingredientes.Some? && d.preparacion.Some?
    requires d.infoNutricional.Some? && d.comentarioMotivador.Some?
    ensures Merge(m1, d) == Merge(m2, d)
    ensures Merge(m1, d).nombre == d.nombre.value
  {
  }

  /** Fields the details lack keep the meal's values. */
  lemma MergeKeepsMissing(meal: Meal, d: MealDetails)
    ensures d.nombre.None? ==> Merge(meal, d).nombre == meal.nombre
    ensures d.ingredientes.None? ==> Merge(meal, d).ingredientes == meal.ingredientes
    ensures d.ingredientes.Some? ==> Merge(meal, d).ingredientes == d.ingredientes
  {
  }

  /** What `generateMealPlan` is called with. */
  datatype PlanCall = PlanCall(
    profiles: seq<Profile>, recipes: seq<Recipe>, duration: int, startDate: string, includeBreakfasts: bool)

  /**
   * A details request in flight: what it was asked for, and the meal and plan
   * array the handler captured when it started.
   */
  datatype DetailsCall = DetailsCall(
    dayIndex: nat, slot: MealType, mealName: string, familySize: nat, meal: Meal, plan: array<DayCell>)

  const NoProfilesMessage := "Por favor, añada al menos un perfil familiar."
  const UnexpectedErrorMessage := "Ocurrió un error inesperado."

  function DetailsFailure(nombre: string): string
  {
    "No se pudieron cargar los detalles de \"" + nombre + "\"."
  }

  /**
   * `err.message || fallback`: the text shown is the error's own message or the
   * fallback, the message whenever it says something, and it is empty only when
   * both are.
   */
  function ErrorText(message: string, fallback: string): (r: string)
    ensures r == message || r == fallback
    ensures message != "" ==> r == message
    ensures r == "" <==> message == "" && fallback == ""
  {
    if message != "" then message else fallback
  }

  /** The four profiles the application starts with. */
  const InitialProfiles: seq<Profile> := [
    Profile("1", "Adolescente 1", 15, Male, High, Some("Jugador de baloncesto")),
    Profile("2", "Adolescente 2", 12, Female, High, Some("Jugadora de baloncesto")),
    Profile("3", "Adulto 1", 50, Male, Moderate, Some("")),
    Profile("4", "Adulto 2", 50, Female, Moderate, Some(""))
  ]

  /** A fresh day object for every day of a plan, as `response.json()` builds them. */
  method Materialize(plan: MenuPlan) returns (a: array<DayCell>)
    ensures fresh(a) && Distinct(a)
    ensures forall i :: 0 <= i < a.Length ==> fresh(a[i])
    ensures Days(a) == plan
  {
    var cells: seq<DayCell> := [];
    while |cells| < |plan|
      invariant |cells| <= |plan|
      invariant forall k :: 0 <= k < |cells| ==> fresh(cells[k]) && cells[k].View() == plan[k]
      invariant forall k, l :: 0 <= k < l < |cells| ==> cells[k] != cells[l]
    {
      var c := new DayCell(plan[|cells|]);
      cells := cells + [c];
    }
    a := new DayCell[|cells|](i requires 0 <= i < |cells| => cells[i]);
    assert forall i :: 0 <= i < a.Length ==> a[i] == cells[i];
  }

  class Session {
    var profiles: seq<Profile>
    var recipes: seq<Recipe>
    var menuPlan: array?<DayCell>
    var isLoading: bool
    var isFetchingDetails: bool
    var error: Option<string>
    var duration: int
    var startDate: string
    var includeBreakfasts: bool

    /** The initial state; `today` is the current date as `YYYY-MM-DD`. */
    constructor (today: string)
      ensures profiles == InitialProfiles && recipes == [] && menuPlan == null
      ensures !isLoading && !isFetchingDetails && error.None?
      ensures duration == 7 && startDate == today && !includeBreakfasts
    {
      profiles := InitialProfiles;
      recipes := [];
      menuPlan := null;
      isLoading := false;
      isFetchingDetails := false;
      error := None;
      duration := 7;
      startDate := today;
      includeBreakfasts := false;
    }

    /** The meal a details request for this slot would ask about, if it would be sent. */
    predicate NeedsDetails(dayIndex: int, slot: MealType)
      reads this, menuPlan
      reads if menuPlan != null && 0 <= dayIndex < menuPlan.Length then {menuPlan[dayIndex]} else {}
    {
      menuPlan != null && 0 <= dayIndex < menuPlan.Length &&
      var m := SlotOf(menuPlan[dayIndex].View(), slot);
      m.Some? && m.value.ingredientes.None?
    }

    /**
     * The synchronous part of `handleGenerateMenu`: with no profiles it only
     * sets the error; otherwise it starts loading, clears the error and the
     * plan, and issues the request.
     */
    method StartGeneration() returns (call: Option<PlanCall>)
      modifies this
      ensures profiles == old(profiles) && recipes == old(recipes) && isFetchingDetails == old(isFetchingDetails)
      ensures duration == old(duration) && startDate == old(startDate) && includeBreakfasts == old(includeBreakfasts)
      ensures old(profiles) == [] ==>
        call.None? && error == Some(NoProfilesMessage) &&
        menuPlan == old(menuPlan) && isLoading == old(isLoading)
      ensures old(profiles) != [] ==>
        call == Some(PlanCall(profiles, recipes, duration, startDate, includeBreakfasts)) &&
        isLoading && error.None? && menuPlan == null
    {
      if |profiles| == 0 {
        error := Some(NoProfilesMessage);
        return None;
      }
      isLoading := true;
      error := None;
      menuPlan := null;
      call := Some(PlanCall(profiles, recipes, duration, startDate, includeBreakfasts));
    }

    /**
     * The rest of `handleGenerateMenu`, once the request settles: the plan on
     * success, the error's message or the fallback on failure; loading ends.
     */
    method FinishGeneration(result: Result<MenuPlan>)
      modifies this
      ensures !isLoading
      ensures profiles == old(profiles) && recipes == old(recipes) && isFetchingDetails == old(isFetchingDetails)
      ensures duration == old(duration) && startDate == old(startDate) && includeBreakfasts == old(includeBreakfasts)
      ensures result.Ok? ==>
        menuPlan != null && fresh(menuPlan) && Distinct(menuPlan) &&
        (forall i :: 0 <= i < menuPlan.Length ==> fresh(menuPlan[i])) &&
        Days(menuPlan) == result.value && error == old(error)
      ensures result.Err? ==>
        menuPlan == old(menuPlan) && error == Some(ErrorText(result.message, UnexpectedErrorMessage))
    {
      match result {
        case Ok(plan) =>
          var a := Materialize(plan);
          menuPlan := a;
        case Err(m) =>
          error := Some(ErrorText(m, UnexpectedErrorMessage));
      }
      isLoading := false;
    }

    /**
     * The synchronous part of `handleFetchMealDetails`: nothing happens without
     * a plan, for an index outside it (the lookup throws), for an empty slot or
     * for a meal that already has ingredients; otherwise the details request
     * for the meal's name and the number of profiles is issued.
     */
    method StartDetails(dayIndex: int, slot: MealType) returns (call: Option<DetailsCall>)
      modifies this
      ensures call.Some? <==> old(NeedsDetails(dayIndex, slot))
      ensures call.None? ==> unchanged(this)
      ensures call.Some? ==> NeedsDetails(dayIndex, slot)
      ensures call.Some? && NeedsDetails(dayIndex, slot) ==>
        var meal := SlotOf(menuPlan[dayIndex].View(), slot).value;
        call.value == DetailsCall(dayIndex, slot, meal.nombre, |profiles|, meal, menuPlan) &&
        isFetchingDetails && error.None?
      ensures call.Some? ==>
        profiles == old(profiles) && recipes == old(recipes) && menuPlan == old(menuPlan) &&
        isLoading == old(isLoading) && duration == old(duration) && startDate == old(startDate) &&
        includeBreakfasts == old(includeBreakfasts)
    {
      if menuPlan == null || !(0 <= dayIndex < menuPlan.Length) {
        return None;
      }
      var meal := SlotOf(menuPlan[dayIndex].View(), slot);
      if meal.None? || meal.value.ingredientes.Some? {
        return None;
      }
      isFetchingDetails := true;
      error := None;
      call := Some(DetailsCall(dayIndex, slot, meal.value.nombre, |profiles|, meal.value, menuPlan));
    }

    /**
     * The rest of `handleFetchMealDetails`. On success the plan becomes a
     * fresh copy of the captured array holding the same day objects, and the
     * merged meal is written into the day object itself, so the captured array
     * shows it too; on failure only the error changes. Fetching ends either way.
     */
    method FinishDetails(call: DetailsCall, result: Result<MealDetails>)
      requires call.dayIndex < call.plan.Length && Distinct(call.plan)
      modifies this, call.plan[call.dayIndex]
      ensures !isFetchingDetails
      ensures profiles == old(profiles) && recipes == old(recipes) && isLoading == old(isLoading)
      ensures duration == old(duration) && startDate == old(startDate) && includeBreakfasts == old(includeBreakfasts)
      ensures result.Ok? ==>
        menuPlan != null && fresh(menuPlan) && menuPlan[..] == call.plan[..] && error == old(error) &&
        Days(menuPlan) == old(Days(call.plan))[call.dayIndex :=
          WithSlot(old(call.plan[call.dayIndex].View()), call.slot, Some(Merge(call.meal, result.value)))] &&
        Days(call.plan) == Days(menuPlan)
      ensures result.Ok? && result.value.ingredientes.Some? ==> !NeedsDetails(call.dayIndex, call.slot)
      ensures result.Err? ==>
        menuPlan == old(menuPlan) && unchanged(call.plan[call.dayIndex]) &&
        error == Some(ErrorText(result.message, DetailsFailure(call.meal.nombre)))
    {
      match result {
        case Ok(details) =>
          var before := Days(call.plan);
          var updated := new DayCell[call.plan.Length](i requires 0 <= i < call.plan.Length reads call.plan => call.plan[i]);
          assert updated[..] == call.plan[..];
          var cell := updated[call.dayIndex];
          cell.SetSlot(call.slot, Some(Merge(call.meal, details)));
          menuPlan := updated;
          forall i | 0 <= i < call.plan.Length && i != call.dayIndex
            ensures call.plan[i].View() == before[i]
          {
            assert call.plan[i] != cell;
          }
          assert Days(call.plan) == before[call.dayIndex := cell.View()];
          assert Days(updated) == Days(call.plan);
        case Err(m) =>
          error := Some(ErrorText(m, DetailsFailure(call.meal.nombre)));
      }
      isFetchingDetails := false;
    }
  }
}
