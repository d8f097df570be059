/**
 * The shopping-list endpoint: the prompt built from the names of the planned
 * meals and the number of people, the schema of the list, and the handler,
 * which checks only that the model's text parses as JSON.
 */
module ShoppingListApi {
  import opened Wrappers
  import opened Text
  import opened Types
  import opened Json
  import opened ApiHandler

  const ItemSchema: Schema :=
    SObject(
      [ Property("id", SString), Property("nombre", SString), Property("cantidad", SString) ],
      ["id", "nombre", "cantidad"])

  const CategorySchema: Schema :=
    SObject([ Property("nombre", SString), Property("items", SArray(ItemSchema)) ], ["nombre", "items"])

  /** The schema sent with the request: categories of items, every field required. */
  const ShoppingListSchema: Schema :=
    SObject([ Property("categorias", SArray(CategorySchema)) ], ["categorias"])

  datatype ShoppingBody = ShoppingBody(menuPlan: MenuPlan, profiles: seq<Profile>)

  const EmptyReplyMessage := "Respuesta vacía de la IA para la lista de la compra."

  /** `meal?.nombre` inside a template: a missing meal is written as `undefined`. */
  function NameOf(meal: Option<Meal>): string
  {
    if meal.Some? then meal.value.nombre else "undefined"
  }

  /** One day of the meal list: the day, then the names of its lunch and dinner. */
  function MealLine(day: DayMenu): string
  {
    day.dia + ": " + NameOf(day.comida) + " y " + NameOf(day.cena)
  }

  function MealLines(plan: MenuPlan): (r: seq<string>)
    ensures |r| == |plan|
  {
    seq(|plan|, i requires 0 <= i < |plan| => MealLine(plan[i]))
  }

  function MealList(plan: MenuPlan): string
  {
    Join(MealLines(plan), '\n')
  }

  /** The task sentence's count of people. */
  function TaskCount(familySize: int): string
  {
    "comidas para " + IntToString(familySize) + " personas"
  }

  /** Instruction 1's count of people. */
  function InstructionCount(familySize: int): string
  {
    "necesarias para " + IntToString(familySize) + " personas"
  }

  const Head := "\n        Eres un nutricionista y chef experto creando una lista de la compra optimizada para una familia.\n\n        TAREA:\n        Basado en el siguiente plan de "
  const AfterTask := ", genera una lista de la compra completa y consolidada para toda la semana.\n\n        PLAN DE COMIDAS:\n        "
  const AfterMeals := "\n\n        INSTRUCCIONES:\n        1. Para cada plato del menú, calcula los ingredientes y las cantidades exactas "
  const Tail := ".\n        2. Consolida todos los ingredientes de todas las recetas. Si un ingrediente se usa en varios platos, suma las cantidades totales (ej. si necesitas 2 cebollas para una receta y 1 para otra, el total es 3 cebollas).\n        3. Organiza la lista final en categorías lógicas para facilitar la compra en un supermercado (ej: 'Frutas y Verduras', 'Carnes y Pescados', 'Despensa', 'Lácteos y Huevos', 'Otros').\n        4. Proporciona cantidades claras y específicas (ej. \"500g de pechuga de pollo\", \"3 cebollas grandes\", \"1L de leche\").\n        5. A cada item de la lista asígnale un ID único usando un UUID.\n\n        La salida debe ser un único objeto JSON válido, adhiriéndose estrictamente al esquema proporcionado. El idioma debe ser español (de España).\n    "

  /** `buildPrompt`, with `profiles.length` as the family size. */
  function BuildPrompt(plan: MenuPlan, familySize: int): string
  {
    Head + (TaskCount(familySize) + (AfterTask + (MealList(plan) + (AfterMeals +
    (InstructionCount(familySize) + Tail)))))
  }

  function Render(body: ShoppingBody): Result<string>
  {
    Ok(BuildPrompt(body.menuPlan, |body.profiles|))
  }

  /**
   * The shopping-list handler: 405 for a non-POST request and 500 for a missing
   * key, both without a model call; a thrown model error, empty text or text
   * that `JSON.parse` rejects is a 500; parsed text goes out unchanged with 200.
   */
  function Handler(req: Request<ShoppingBody>, apiKey: Option<string>, reply: ModelReply, parse: string -> Parsed): (o: Outcome)
    ensures req.verb != "POST" ==>
      o == Outcome(Response(405, MessageJson("Only POST requests allowed")), None)
    ensures req.verb == "POST" && req.body.Ok? && !HasKey(apiKey) ==>
      o == Outcome(Response(500, MessageJson("La API key de Google no está configurada en el servidor.")), None)
    ensures req.verb == "POST" && req.body.Ok? && HasKey(apiKey) ==>
      o.modelPrompt == Some(BuildPrompt(req.body.value.menuPlan, |req.body.value.profiles|))
    ensures o.modelPrompt.Some? && reply.Reply? && (reply.text.None? || reply.text == Some("")) ==>
      o.response == Response(500, MessageJson("Respuesta vacía de la IA para la lista de la compra."))
    ensures o.modelPrompt.Some? && reply.Reply? && reply.text.Some? && reply.text.value != "" ==>
      (parse(reply.text.value).Parsed? <==> o.response == Response(200, Raw(reply.text.value)))
    ensures (o.modelPrompt.Some? && reply.Reply? && reply.text.Some? && reply.text.value != "" &&
             parse(reply.text.value).SyntaxError?) ==>
      o.response.status == 500 && o.response.body.MessageJson?
    ensures o.modelPrompt.Some? && reply == Thrown("") ==>
      o.response == Response(500, MessageJson("Error interno del servidor."))
  {
    Serve(req, apiKey, Render, reply, EmptyReplyMessage, Some(parse))
  }

  // ---------------------------------------------------------------------
  // What the prompt says

  /** The meal list has one line per day, in plan order (for names without line breaks). */
  lemma MealListLines(plan: MenuPlan)
    requires |plan| >= 1
    requires forall i :: 0 <= i < |plan| ==> '\n' !in MealLine(plan[i])
    ensures Split(MealList(plan), '\n') == MealLines(plan)
    ensures forall i :: 0 <= i < |plan| ==> Split(MealList(plan), '\n')[i] == MealLine(plan[i])
  {
    SplitJoin(MealLines(plan), '\n');
  }

  /** A day without lunch or without dinner shows `undefined` in that place. */
  lemma MissingMealIsUndefined(day: DayMenu)
    ensures day.comida.None? ==> MealLine(day) == day.dia + ": undefined y " + NameOf(day.cena)
    ensures day.cena.None? ==> MealLine(day) == day.dia + ": " + NameOf(day.comida) + " y undefined"
  {
  }

  /** The meal with its name only: ingredients, preparation, nutrition and comment dropped. */
  function NameOnly(meal: Option<Meal>): (r: Option<Meal>)
    ensures r.Some? <==> meal.Some?
    ensures r.Some? ==> r.value.nombre == meal.value.nombre && r.value.ingredientes.None?
  {
    if meal.Some? then Some(Meal(meal.value.nombre, None, None, None, None)) else None
  }

  /** The plan with every meal reduced to its name. */
  function NamesOnly(plan: MenuPlan): (r: MenuPlan)
    ensures |r| == |plan|
  {
    seq(|plan|, i requires 0 <= i < |plan| =>
      DayMenu(plan[i].dia, plan[i].fecha, NameOnly(plan[i].comida), NameOnly(plan[i].cena)))
  }

  /** Only the day labels and meal names reach the prompt: fetched details change nothing in it. */
  lemma PromptIgnoresDetails(plan: MenuPlan, familySize: int)
    ensures BuildPrompt(NamesOnly(plan), familySize) == BuildPrompt(plan, familySize)
  {
    assert MealLines(NamesOnly(plan)) == MealLines(plan);
  }

  /** Two plans with the same days and meal names give the same prompt. */
  lemma PromptDependsOnNames(p1: MenuPlan, p2: MenuPlan, familySize: int)
    requires |p1| == |p2|
    requires forall i :: 0 <= i < |p1| ==>
      p1[i].dia == p2[i].dia && NameOf(p1[i].comida) == NameOf(p2[i].comida) && NameOf(p1[i].cena) == NameOf(p2[i].cena)
    ensures BuildPrompt(p1, familySize) == BuildPrompt(p2, familySize)
  {
    assert MealLines(p1) == MealLines(p2);
  }

  /** The prompt holds the meal list, and the family size both in the task sentence and in instruction 1. */
  lemma PromptContents(plan: MenuPlan, familySize: int)
    ensures var p := BuildPrompt(plan, familySize);
      Contains(p, MealList(plan)) &&
      Contains(p, "comidas para " + IntToString(familySize) + " personas") &&
      Contains(p, "necesarias para " + IntToString(familySize) + " personas")
  {
    var r4 := InstructionCount(familySize) + Tail;
    var r3 := AfterMeals + r4;
    var r2 := MealList(plan) + r3;
    var r1 := AfterTask + r2;
    var r0 := TaskCount(familySize) + r1;
    // instruction 1
    ContainsStart(InstructionCount(familySize), Tail);
    ContainsInSuffix(AfterMeals, r4, InstructionCount(familySize));
    ContainsInSuffix(MealList(plan), r3, InstructionCount(familySize));
    ContainsInSuffix(AfterTask, r2, InstructionCount(familySize));
    ContainsInSuffix(TaskCount(familySize), r1, InstructionCount(familySize));
    ContainsInSuffix(Head, r0, InstructionCount(familySize));
    // the meal list
    ContainsStart(MealList(plan), r3);
    ContainsInSuffix(AfterTask, r2, MealList(plan));
    ContainsInSuffix(TaskCount(familySize), r1, MealList(plan));
    ContainsInSuffix(Head, r0, MealList(plan));
    // the task sentence
    ContainsStart(TaskCount(familySize), r1);
    ContainsInSuffix(Head, r0, TaskCount(familySize));
  }

  // ---------------------------------------------------------------------
  // The list schema

  /** A reply without `categorias` does not conform. */
  lemma ListRequiresCategories(ms: seq<Member>)
    requires forall i :: 0 <= i < |ms| ==> ms[i].key != "categorias"
    ensures !Conforms(JObject(ms), ShoppingListSchema)
  {
    MissingRequiredKey(ms, ShoppingListSchema.properties, ShoppingListSchema.required, "categorias");
  }

  /** A category lacking `nombre` or `items` makes the whole list fail to conform. */
  lemma CategoryRequiresFields(ms: seq<Member>, cats: seq<Json>, j: nat, cat: seq<Member>, k: string)
    requires Lookup(ms, "categorias") == Some(JArray(cats))
    requires j < |cats| && cats[j] == JObject(cat)
    requires k in ["nombre", "items"]
    requires forall i :: 0 <= i < |cat| ==> cat[i].key != k
    ensures !Conforms(JObject(ms), ShoppingListSchema)
  {
    if Conforms(JObject(ms), ShoppingListSchema) {
      CategoryConformsWithin(ms, cats, j, cat);
    }
    MissingRequiredKey(cat, CategorySchema.properties, CategorySchema.required, k);
  }

  /** Each category of a conforming list conforms to the category schema. */
  lemma CategoryConformsWithin(ms: seq<Member>, cats: seq<Json>, j: nat, cat: seq<Member>)
    requires Conforms(JObject(ms), ShoppingListSchema)
    requires Lookup(ms, "categorias") == Some(JArray(cats))
    requires j < |cats| && cats[j] == JObject(cat)
    ensures Conforms(JObject(cat), CategorySchema)
  {
    ConformsRequired(JObject(ms), ShoppingListSchema.properties, ShoppingListSchema.required, 0);
  }

  /** An item lacking `id`, `nombre` or `cantidad` does not conform. */
  lemma ItemRequiresFields(item: seq<Member>, k: string)
    requires k in ["id", "nombre", "cantidad"]
    requires forall i :: 0 <= i < |item| ==> item[i].key != k
    ensures !Conforms(JObject(item), ItemSchema)
  {
    MissingRequiredKey(item, ItemSchema.properties, ItemSchema.required, k);
  }

  // ---------------------------------------------------------------------
  // A list as JSON

  function EncodeItem(it: ShoppingListItem): Json
  {
    JObject([Member("id", JString(it.id)), Member("nombre", JString(it.nombre)), Member("cantidad", JString(it.cantidad))])
  }

  function EncodeCategory(c: ShoppingListCategory): Json
  {
    JObject([ Member("nombre", JString(c.nombre)),
              Member("items", JArray(seq(|c.items|, i requires 0 <= i < |c.items| => EncodeItem(c.items[i])))) ])
  }

  function EncodeList(l: ShoppingList): Json
  {
    JObject([Member("categorias", JArray(seq(|l.categorias|, i requires 0 <= i < |l.categorias| => EncodeCategory(l.categorias[i]))))])
  }

  lemma ItemConforms(it: ShoppingListItem)
    ensures Conforms(EncodeItem(it), ItemSchema)
  {
    var a := [Member("id", JString(it.id))];
    var b := [Member("nombre", JString(it.nombre))];
    var c := [Member("cantidad", JString(it.cantidad))];
    var ms := EncodeItem(it).members;
    assert ms == [] + a + (b + c);
    LookupIsolated([], a, b + c, "id");
    assert ms == a + b + c;
    LookupIsolated(a, b, c, "nombre");
    assert Lookup(ms, "id") == Some(JString(it.id));
    assert Lookup(ms, "nombre") == Some(JString(it.nombre));
    assert Lookup(ms, "cantidad") == Some(JString(it.cantidad));
  }

  lemma CategoryConforms(c: ShoppingListCategory)
    ensures Conforms(EncodeCategory(c), CategorySchema)
  {
    var ms := EncodeCategory(c).members;
    assert ms == [] + ms[..1] + ms[1..];
    LookupIsolated([], ms[..1], ms[1..], "nombre");
    var items := ms[1].value;
    forall i | 0 <= i < |items.elems|
      ensures Conforms(items.elems[i], ItemSchema)
    {
      ItemConforms(c.items[i]);
    }
  }

  /** Every shopping list, written as JSON, conforms to the schema. */
  lemma ListConforms(l: ShoppingList)
    ensures Conforms(EncodeList(l), ShoppingListSchema)
  {
    var cats := EncodeList(l).members[0].value;
    forall i | 0 <= i < |cats.elems|
      ensures Conforms(cats.elems[i], CategorySchema)
    {
      CategoryConforms(l.categorias[i]);
    }
  }
}
