/** The domain records shared by the front end and the handlers. */
module Types {
  import opened Wrappers

  /** A profile's gender: exactly one of the three values the form offers. */
  datatype Gender = Male | Female | Other

  /** A profile's activity level: exactly one of four. */
  datatype ActivityLevel = Sedentary | Light | Moderate | High

  /** A household member; only `notes` may be absent. */
  datatype Profile = Profile(
    id: string,
    name: string,
    age: int,
    gender: Gender,
    activityLevel: ActivityLevel,
    notes: Option<string>)

  /** A family recipe; the ingredients are one free-text string, not a list. */
  datatype Recipe = Recipe(id: string, name: string, ingredients: string)

  /** Nutrition facts per serving, as the detail schema returns them (four numbers). */
  datatype Nutrition = Nutrition(calorias: int, proteinas: int, carbohidratos: int, grasas: int)

  /**
   * A planned meal. A meal fresh from plan generation carries only its name; the
   * other fields appear once its details have been fetched.
   */
  datatype Meal = Meal(
    nombre: string,
    ingredientes: Option<seq<string>>,
    preparacion: Option<string>,
    infoNutricional: Option<Nutrition>,
    comentarioMotivador: Option<string>)

  /**
   * The detail object the details endpoint returns, as the client reads it:
   * each field is `None` when the reply lacks that key. `nombre` is echoed back.
   */
  datatype MealDetails = MealDetails(
    nombre: Option<string>,
    ingredientes: Option<seq<string>>,
    preparacion: Option<string>,
    infoNutricional: Option<Nutrition>,
    comentarioMotivador: Option<string>)

  /** One day of the plan; lunch (`comida`) and dinner (`cena`) may each be null. */
  datatype DayMenu = DayMenu(dia: string, fecha: string, comida: Option<Meal>, cena: Option<Meal>)

  /** A plan is the days in order. */
  type MenuPlan = seq<DayMenu>

  /** The two meal slots of a day. */
  datatype MealType = Comida | Cena

  function SlotOf(d: DayMenu, t: MealType): Option<Meal>
  {
    match t
    case Comida => d.comida
    case Cena => d.cena
  }

  function WithSlot(d: DayMenu, t: MealType, m: Option<Meal>): DayMenu
  {
    match t
    case Comida => d.(comida := m)
    case Cena => d.(cena := m)
  }

  /** A name-only meal, as the plan request returns it. */
  function NamedMeal(nombre: string): Meal
  {
    Meal(nombre, None, None, None, None)
  }

  datatype ShoppingListItem = ShoppingListItem(id: string, nombre: string, cantidad: string)

  datatype ShoppingListCategory = ShoppingListCategory(nombre: string, items: seq<ShoppingListItem>)

  /** The shopping list as the shopping-list schema describes it. */
  datatype ShoppingList = ShoppingList(categorias: seq<ShoppingListCategory>)

  /** The text each gender is written as, in profiles and in the form's options. */
  function GenderName(g: Gender): string
  {
    match g
    case Male => "male"
    case Female => "female"
    case Other => "other"
  }

  function ActivityLevelName(a: ActivityLevel): string
  {
    match a
    case Sedentary => "sedentary"
    case Light => "light"
    case Moderate => "moderate"
    case High => "high"
  }

  /** The gender an option value stands for; any other text stands for none. */
  function ParseGender(s: string): (r: Option<Gender>)
    ensures forall g :: r == Some(g) <==> s == GenderName(g)
  {
    if s == "male" then Some(Male)
    else if s == "female" then Some(Female)
    else if s == "other" then Some(Other)
    else None
  }

  /** The activity level an option value stands for; any other text stands for none. */
  function ParseActivityLevel(s: string): (r: Option<ActivityLevel>)
    ensures forall a :: r == Some(a) <==> s == ActivityLevelName(a)
  {
    if s == "sedentary" then Some(Sedentary)
    else if s == "light" then Some(Light)
    else if s == "moderate" then Some(Moderate)
    else if s == "high" then Some(High)
    else None
  }
}
