/**
 * The plan endpoint: the prompt that asks the model for a name-only meal plan,
 * the response schema it is sent with, and the handler, which passes the
 * model's text through without parsing it.
 */
module PlanApi {
  import opened Wrappers
  import opened Text
  import opened Types
  import opened Json
  import opened ApiHandler

  /** The schema sent with the request: an array of days, each meal carrying only its name. */
  const MenuPlanSchema: Schema :=
    SArray(SObject(
      [ Property("dia", SString),
        Property("fecha", SString),
        Property("comida", SObject([Property("nombre", SString)], [])),
        Property("cena", SObject([Property("nombre", SString)], [])) ],
      ["dia", "fecha", "comida", "cena"]))

  /**
   * The request body. `startDate` is what `new Date(startDate).toISOString()`
   * gives on the server, or `None` when that date is invalid and the call throws.
   */
  datatype PlanBody = PlanBody(
    profiles: seq<Profile>,
    recipes: seq<Recipe>,
    duration: int,
    startDate: Option<string>,
    includeBreakfasts: bool)

  const InvalidDateMessage := "Invalid time value"
  const EmptyReplyMessage := "La respuesta del modelo de IA estaba vacía."

  /** `p.notes || 'ninguna'`. */
  function NotesText(notes: Option<string>): string
  {
    if notes.Some? && notes.value != "" then notes.value else "ninguna"
  }

  /** One profile's line of the profile section. */
  function ProfileLine(p: Profile): string
  {
    "- " + p.name + ": " + IntToString(p.age) + " años " + GenderName(p.gender) +
    ", nivel de actividad: " + ActivityLevelName(p.activityLevel) + ". Notas: " + NotesText(p.notes)
  }

  function ProfileLines(ps: seq<Profile>): (r: seq<string>)
    ensures |r| == |ps|
  {
    seq(|ps|, i requires 0 <= i < |ps| => ProfileLine(ps[i]))
  }

  /** The profile section: the profile lines joined by newlines. */
  function ProfilesText(ps: seq<Profile>): string
  {
    Join(ProfileLines(ps), '\n')
  }

  function RecipeLine(r: Recipe): string
  {
    "- " + r.name + ": " + r.ingredients
  }

  function RecipeLines(rs: seq<Recipe>): (r: seq<string>)
    ensures |r| == |rs|
  {
    seq(|rs|, i requires 0 <= i < |rs| => RecipeLine(rs[i]))
  }

  const RecipesHeader := "Considera incluir estas recetas familiares " + "si encajan en el plan nutricional:"
  const NoRecipesText := "No se proporcionaron recetas familiares específicas."

  /** The recipe section: a fixed sentence when there are no recipes, else a header and one line per recipe. */
  function RecipesText(rs: seq<Recipe>): string
  {
    if |rs| > 0 then RecipesHeader + "\n" + Join(RecipeLines(rs), '\n') else NoRecipesText
  }

  const WithBreakfasts := "Por favor, incluye sugerencias para el desayuno."
  const NoBreakfasts := "NO generes desayunos." + " Genera únicamente 'comida' (almuerzo) y 'cena'."

  function BreakfastText(includeBreakfasts: bool): string
  {
    if includeBreakfasts then WithBreakfasts else NoBreakfasts
  }

  /** `iso.split('T')[0]`: the calendar-date part of an ISO timestamp. */
  function DatePart(iso: string): string
  {
    Split(iso, 'T')[0]
  }

  /** Guideline 4, which states the family size. */
  function FamilyLine(familySize: int): string
  {
    "4. Todas las recetas deben estar adaptadas para el número de personas en la familia (" +
    IntToString(familySize) + ")."
  }

  function BreakfastLine(includeBreakfasts: bool): string
  {
    "5. " + BreakfastText(includeBreakfasts)
  }

  /** The task line, with the duration and the start date. */
  function TaskLine(duration: int, date: string): string
  {
    "Genera un plan de comidas para " + IntToString(duration) + " días comenzando el " + date + "."
  }

  const Head := "\n    Eres un nutricionista experto diseñando un plan de comidas para una familia en Madrid, España.\n    Tus recomendaciones deben basarse en la dieta mediterránea, priorizando productos nacionales de temporada.\n    El plan debe adaptarse a las necesidades específicas de cada miembro de la familia.\n\n    PERFILES FAMILIARES:\n    "
  const Guidelines := "\n\n    GUÍAS NUTRICIONALES:\n    1. Para los adolescentes deportistas (12 y 15 años): Un alto consumo de proteínas es crucial para el crecimiento y la recuperación muscular. Asegura que sus comidas sean densas en energía con carbohidratos complejos.\n    2. Para los adultos (50 años): Enfócate en prevenir la sarcopenia (pérdida de músculo) con suficiente proteína de alta calidad. Incluye fuentes de calcio y vitamina D para la salud ósea.\n    3. Para todos: Promueve la salud intestinal (microbiota) incluyendo fibra, prebióticos (ajo, cebolla, granos integrales) y probióticos (yogur, kéfir). Diversifica las fuentes de proteína (pescado, legumbres, carnes magras).\n    "
  const LineBreak := "\n    "
  const RecipesHeading := "\n    \n    RECETAS DEL USUARIO:\n    "
  const TaskHeading := "\n\n    TAREA:\n    "
  const Tail := "\n    La salida debe ser un array de objetos JSON válido, adhiriéndose estrictamente al esquema proporcionado.\n    Para cada día, proporciona SOLO el nombre del plato para la 'comida' y la 'cena'. NO generes ingredientes ni pasos de preparación en esta petición inicial.\n    El idioma debe ser español (de España).\n  "

  /** `buildPrompt`, with the start date already in its ISO form. */
  function BuildPrompt(
    profiles: seq<Profile>, recipes: seq<Recipe>, duration: int, isoDate: string,
    includeBreakfasts: bool): string
  {
    Head + (ProfilesText(profiles) + (Guidelines + (FamilyLine(|profiles|) + (LineBreak +
    (BreakfastLine(includeBreakfasts) + (RecipesHeading + (RecipesText(recipes) + (TaskHeading +
    (TaskLine(duration, DatePart(isoDate)) + Tail)))))))))
  }

  /** Building the prompt from the body; an invalid start date throws before the model is called. */
  function Render(body: PlanBody): Result<string>
  {
    if body.startDate.None? then Err(InvalidDateMessage)
    else Ok(BuildPrompt(body.profiles, body.recipes, body.duration, body.startDate.value, body.includeBreakfasts))
  }

  /**
   * The plan handler: a non-POST request gets 405 and a missing key 500, both
   * before the model is called; empty model text is a 500; any other text is
   * returned unchanged with 200, never parsed.
   */
  function Handler(req: Request<PlanBody>, apiKey: Option<string>, reply: ModelReply): (o: Outcome)
    ensures req.verb != "POST" ==>
      o == Outcome(Response(405, MessageJson("Only POST requests allowed")), None)
    ensures req.verb == "POST" && req.body.Ok? && !HasKey(apiKey) ==>
      o == Outcome(Response(500, MessageJson("La API key de Google no está configurada en el servidor.")), None)
    ensures o.modelPrompt.Some? && reply.Reply? && (reply.text.None? || reply.text == Some("")) ==>
      o.response == Response(500, MessageJson("La respuesta del modelo de IA estaba vacía."))
    ensures o.modelPrompt.Some? && reply.Reply? && reply.text.Some? && reply.text.value != "" ==>
      o.response == Response(200, Raw(reply.text.value))
  {
    Serve(req, apiKey, Render, reply, EmptyReplyMessage, None)
  }

  /** Once the gates pass and the start date is valid, the model is called with the built prompt. */
  lemma HandlerPrompt(req: Request<PlanBody>, apiKey: Option<string>, reply: ModelReply)
    requires req.verb == "POST" && req.body.Ok? && HasKey(apiKey) && req.body.value.startDate.Some?
    ensures var b := req.body.value;
      Handler(req, apiKey, reply).modelPrompt ==
        Some(BuildPrompt(b.profiles, b.recipes, b.duration, b.startDate.value, b.includeBreakfasts))
  {
    var b := req.body.value;
    assert Render(b) == Ok(BuildPrompt(b.profiles, b.recipes, b.duration, b.startDate.value, b.includeBreakfasts));
  }

  /** An invalid start date makes the handler answer 500 "Invalid time value" without calling the model. */
  lemma HandlerInvalidDate(req: Request<PlanBody>, apiKey: Option<string>, reply: ModelReply)
    requires req.verb == "POST" && req.body.Ok? && HasKey(apiKey) && req.body.value.startDate.None?
    ensures Handler(req, apiKey, reply) == Outcome(Response(500, MessageJson("Invalid time value")), None)
  {
  }

  // ---------------------------------------------------------------------
  // What the prompt says

  /** The profile section has one line per profile, in input order (for names and notes without line breaks). */
  lemma ProfileSectionLines(ps: seq<Profile>)
    requires |ps| >= 1
    requires forall i :: 0 <= i < |ps| ==> '\n' !in ProfileLine(ps[i])
    ensures |Split(ProfilesText(ps), '\n')| == |ps|
    ensures forall i :: 0 <= i < |ps| ==> Split(ProfilesText(ps), '\n')[i] == ProfileLine(ps[i])
  {
    SplitJoin(ProfileLines(ps), '\n');
  }

  /** Absent or empty notes are written as "ninguna"; other notes are written as given. */
  lemma NotesPlaceholder(p: Profile)
    ensures var line := ProfileLine(p);
      var suffix := ". Notas: " + (if p.notes.Some? && p.notes.value != "" then p.notes.value else "ninguna");
      |suffix| <= |line| && line[|line| - |suffix|..] == suffix
  {
  }

  /** No recipes gives the fixed sentence; otherwise the header comes first, then one line per recipe, in order. */
  lemma RecipeSectionLines(rs: seq<Recipe>)
    requires forall i :: 0 <= i < |rs| ==> '\n' !in RecipeLine(rs[i])
    ensures |rs| == 0 ==> RecipesText(rs) == "No se proporcionaron recetas familiares específicas."
    ensures |rs| > 0 ==> Split(RecipesText(rs), '\n') == [RecipesHeader] + RecipeLines(rs)
  {
    if |rs| > 0 {
      var body := RecipeLines(rs);
      var lines := [RecipesHeader] + body;
      HeaderHasNoBreak();
      forall i | 0 <= i < |lines|
        ensures '\n' !in lines[i]
      {
        if i > 0 {
          assert lines[i] == RecipeLine(rs[i - 1]);
        }
      }
      assert lines[1..] == body;
      assert Join(lines, '\n') == RecipesText(rs);
      SplitJoin(lines, '\n');
    }
  }

  lemma HeaderHasNoBreak()
    ensures '\n' !in RecipesHeader
  {
    var a, b := "Considera incluir estas recetas familiares ", "si encajan en el plan nutricional:";
    assert '\n' !in a;
    assert '\n' !in b;
  }

  /** The two breakfast directives differ, and the one for `false` forbids breakfasts. */
  lemma BreakfastDirective()
    ensures BreakfastText(true) != BreakfastText(false)
    ensures Contains(BreakfastText(false), "NO generes desayunos")
  {
    ContainsStart("NO generes desayunos", "." + " Genera únicamente 'comida' (almuerzo) y 'cena'.");
    assert "NO generes desayunos" + ("." + " Genera únicamente 'comida' (almuerzo) y 'cena'.") == NoBreakfasts;
  }

  /** `split('T')[0]` of an ISO timestamp is its date part. */
  lemma DatePartOfTimestamp(date: string, time: string)
    requires 'T' !in date
    ensures DatePart(date + "T" + time) == date
  {
    SplitAppend(date, time, 'T');
  }

  /**
   * The prompt holds the profile section, the family size (the number of
   * profiles), the breakfast directive for the flag, the recipe section and the
   * task line with the duration and the date part of the start date.
   */
  lemma PromptContents(
    profiles: seq<Profile>, recipes: seq<Recipe>, duration: int, isoDate: string,
    includeBreakfasts: bool)
    ensures var p := BuildPrompt(profiles, recipes, duration, isoDate, includeBreakfasts);
      Contains(p, ProfilesText(profiles)) &&
      Contains(p, FamilyLine(|profiles|)) &&
      Contains(p, BreakfastLine(includeBreakfasts)) &&
      Contains(p, RecipesText(recipes)) &&
      Contains(p, TaskLine(duration, DatePart(isoDate)))
  {
    var t := TaskLine(duration, DatePart(isoDate)) + Tail;
    var r8 := TaskHeading + t;
    var r7 := RecipesText(recipes) + r8;
    var r6 := RecipesHeading + r7;
    var r5 := BreakfastLine(includeBreakfasts) + r6;
    var r4 := LineBreak + r5;
    var r3 := FamilyLine(|profiles|) + r4;
    var r2 := Guidelines + r3;
    var r1 := ProfilesText(profiles) + r2;
    // the task line
    ContainsStart(TaskLine(duration, DatePart(isoDate)), Tail);
    ContainsInSuffix(TaskHeading, t, TaskLine(duration, DatePart(isoDate)));
    ContainsInSuffix(RecipesText(recipes), r8, TaskLine(duration, DatePart(isoDate)));
    ContainsInSuffix(RecipesHeading, r7, TaskLine(duration, DatePart(isoDate)));
    ContainsInSuffix(BreakfastLine(includeBreakfasts), r6, TaskLine(duration, DatePart(isoDate)));
    ContainsInSuffix(LineBreak, r5, TaskLine(duration, DatePart(isoDate)));
    ContainsInSuffix(FamilyLine(|profiles|), r4, TaskLine(duration, DatePart(isoDate)));
    ContainsInSuffix(Guidelines, r3, TaskLine(duration, DatePart(isoDate)));
    ContainsInSuffix(ProfilesText(profiles), r2, TaskLine(duration, DatePart(isoDate)));
    ContainsInSuffix(Head, r1, TaskLine(duration, DatePart(isoDate)));
    // the recipe section
    ContainsStart(RecipesText(recipes), r8);
    ContainsInSuffix(RecipesHeading, r7, RecipesText(recipes));
    ContainsInSuffix(BreakfastLine(includeBreakfasts), r6, RecipesText(recipes));
    ContainsInSuffix(LineBreak, r5, RecipesText(recipes));
    ContainsInSuffix(FamilyLine(|profiles|), r4, RecipesText(recipes));
    ContainsInSuffix(Guidelines, r3, RecipesText(recipes));
    ContainsInSuffix(ProfilesText(profiles), r2, RecipesText(recipes));
    ContainsInSuffix(Head, r1, RecipesText(recipes));
    // the breakfast directive
    ContainsStart(BreakfastLine(includeBreakfasts), r6);
    ContainsInSuffix(LineBreak, r5, BreakfastLine(includeBreakfasts));
    ContainsInSuffix(FamilyLine(|profiles|), r4, BreakfastLine(includeBreakfasts));
    ContainsInSuffix(Guidelines, r3, BreakfastLine(includeBreakfasts));
    ContainsInSuffix(ProfilesText(profiles), r2, BreakfastLine(includeBreakfasts));
    ContainsInSuffix(Head, r1, BreakfastLine(includeBreakfasts));
    // the family size
    ContainsStart(FamilyLine(|profiles|), r4);
    ContainsInSuffix(Guidelines, r3, FamilyLine(|profiles|));
    ContainsInSuffix(ProfilesText(profiles), r2, FamilyLine(|profiles|));
    ContainsInSuffix(Head, r1, FamilyLine(|profiles|));
    // the profile section
    ContainsStart(ProfilesText(profiles), r2);
    ContainsInSuffix(Head, r1, ProfilesText(profiles));
  }

  /** The schema asks for `dia`, `fecha`, `comida` and `cena` on every day, and a day without one does not conform. */
  lemma PlanSchemaRequiresDayFields(days: seq<Json>, j: nat, day: seq<Member>, k: string)
    requires j < |days| && days[j] == JObject(day)
    requires k in ["dia", "fecha", "comida", "cena"]
    requires forall i :: 0 <= i < |day| ==> day[i].key != k
    ensures !Conforms(JArray(days), MenuPlanSchema)
  {
    var items := MenuPlanSchema.items;
    MissingRequiredKey(day, items.properties, items.required, k);
  }
}
