/**
 * The details endpoint: the prompt for one dish, the schema of the detail
 * object, how a conforming reply reads as a `MealDetails`, and the handler,
 * which checks only that the model's text parses as JSON.
 */
module DetailsApi {
  import opened Wrappers
  import opened Text
  import opened Types
  import opened Json
  import opened ApiHandler

  const NutritionSchema: Schema :=
    SObject(
      [ Property("calorias", SNumber),
        Property("proteinas", SNumber),
        Property("carbohidratos", SNumber),
        Property("grasas", SNumber) ],
      ["calorias", "proteinas", "carbohidratos", "grasas"])

  /** The schema sent with the request: five fields, all required. */
  const RecipeDetailsSchema: Schema :=
    SObject(
      [ Property("nombre", SString),
        Property("ingredientes", SArray(SString)),
        Property("preparacion", SString),
        Property("infoNutricional", NutritionSchema),
        Property("comentarioMotivador", SString) ],
      ["nombre", "ingredientes", "preparacion", "infoNutricional", "comentarioMotivador"])

  datatype DetailsBody = DetailsBody(mealName: string, familySize: int)

  const EmptyReplyMessage := "Respuesta vacía de la IA para los detalles de la receta."

  /** The line naming the dish, in double quotes. */
  function DishLine(mealName: string): string
  {
    "Proporciona una receta detallada para el plato: \"" + mealName + "\"."
  }

  /** The line giving the number of people. */
  function FamilyLine(familySize: int): string
  {
    "La receta debe ser para una familia de " + IntToString(familySize) + " personas."
  }

  const Head := "\n            Eres un nutricionista y chef experto.\n            "
  const LineBreak := "\n            "
  const Tail := "\n            \n            La salida debe ser un único objeto JSON válido, adhiriéndose estrictamente al esquema proporcionado.\n            Debe incluir:\n            1. 'nombre': El nombre exacto del plato proporcionado.\n            2. 'ingredientes': Una lista de ingredientes con cantidades.\n            3. 'preparacion': Instrucciones de cocinado paso a paso. MUY IMPORTANTE: Separa cada paso numerado con un único salto de línea ('\\n') para que cada paso aparezca en una línea distinta.\n            4. 'infoNutricional': Un análisis nutricional estimado por ración (calorías, proteínas, carbohidratos, grasas).\n            5. 'comentarioMotivador': Un consejo breve y motivador de un nutricionista sobre este plato.\n            \n            El idioma debe ser español (de España).\n        "

  /** The inline prompt template of the handler. */
  function BuildPrompt(mealName: string, familySize: int): string
  {
    Head + (DishLine(mealName) + (LineBreak + (FamilyLine(familySize) + Tail)))
  }

  function Render(body: DetailsBody): Result<string>
  {
    Ok(BuildPrompt(body.mealName, body.familySize))
  }

  /**
   * The details handler: 405 for a non-POST request and 500 for a missing key,
   * both without a model call; a thrown model error, empty text or text that
   * `JSON.parse` rejects is a 500; parsed text goes out unchanged with 200.
   */
  function Handler(req: Request<DetailsBody>, apiKey: Option<string>, reply: ModelReply, parse: string -> Parsed): (o: Outcome)
    ensures req.verb != "POST" ==>
      o == Outcome(Response(405, MessageJson("Only POST requests allowed")), None)
    ensures req.verb == "POST" && req.body.Ok? && !HasKey(apiKey) ==>
      o == Outcome(Response(500, MessageJson("La API key de Google no está configurada en el servidor.")), None)
    ensures req.verb == "POST" && req.body.Ok? && HasKey(apiKey) ==>
      o.modelPrompt == Some(BuildPrompt(req.body.value.mealName, req.body.value.familySize))
    ensures o.modelPrompt.Some? && reply.Reply? && (reply.text.None? || reply.text == Some("")) ==>
      o.response == Response(500, MessageJson("Respuesta vacía de la IA para los detalles de la receta."))
    ensures o.modelPrompt.Some? && reply.Reply? && reply.text.Some? && reply.text.value != "" ==>
      (parse(reply.text.value).Parsed? <==> o.response == Response(200, Raw(reply.text.value)))
    ensures (o.modelPrompt.Some? && reply.Reply? && reply.text.Some? && reply.text.value != "" &&
             parse(reply.text.value).SyntaxError?) ==>
      o.response.status == 500 && o.response.body.MessageJson?
    ensures o.modelPrompt.Some? && reply == Thrown("") ==>
      o.response == Response(500, MessageJson("Error interno del servidor."))
  {
    Serve(req, apiKey, Render, reply, EmptyReplyMessage, Some(parse))
  }

  /** The prompt quotes the dish name and states the family size. */
  lemma PromptContents(mealName: string, familySize: int)
    ensures Contains(BuildPrompt(mealName, familySize), "\"" + mealName + "\"")
    ensures Contains(BuildPrompt(mealName, familySize), FamilyLine(familySize))
  {
    var quoted := "\"" + mealName + "\"";
    var pre := "Proporciona una receta detallada para el plato: ";
    var rest := LineBreak + (FamilyLine(familySize) + Tail);
    assert DishLine(mealName) + rest == pre + quoted + ("." + rest);
    ContainsWithin(pre, quoted, "." + rest);
    ContainsInSuffix(Head, DishLine(mealName) + rest, quoted);
    ContainsStart(FamilyLine(familySize), Tail);
    ContainsInSuffix(LineBreak, FamilyLine(familySize) + Tail, FamilyLine(familySize));
    ContainsInSuffix(DishLine(mealName), rest, FamilyLine(familySize));
    ContainsInSuffix(Head, DishLine(mealName) + rest, FamilyLine(familySize));
  }

  // ---------------------------------------------------------------------
  // Reading the detail object

  function AsString(v: Option<Json>): Option<string>
  {
    if v.Some? && v.value.JString? then Some(v.value.s) else None
  }

  function AsNumber(v: Option<Json>): Option<int>
  {
    if v.Some? && v.value.JNumber? then Some(v.value.n) else None
  }

  /** The strings of an array whose every element is a string. */
  function AsStrings(xs: seq<Json>): (r: Option<seq<string>>)
    ensures r.Some? ==> |r.value| == |xs|
    ensures r.Some? <==> forall i :: 0 <= i < |xs| ==> xs[i].JString?
  {
    if xs == [] then Some([])
    else if !xs[0].JString? then None
    else
      var rest := AsStrings(xs[1..]);
      if rest.None? then None else Some([xs[0].s] + rest.value)
  }

  function AsNutrition(v: Option<Json>): Option<Nutrition>
  {
    if v.None? then None
    else
      var c := AsNumber(Field(v.value, "calorias"));
      var p := AsNumber(Field(v.value, "proteinas"));
      var h := AsNumber(Field(v.value, "carbohidratos"));
      var g := AsNumber(Field(v.value, "grasas"));
      if c.Some? && p.Some? && h.Some? && g.Some? then Some(Nutrition(c.value, p.value, h.value, g.value))
      else None
  }

  /** The parsed reply read as a detail object; a key that is absent or of another shape reads as absent. */
  function ReadDetails(v: Json): MealDetails
  {
    var ing := Field(v, "ingredientes");
    MealDetails(
      AsString(Field(v, "nombre")),
      if ing.Some? && ing.value.JArray? then AsStrings(ing.value.elems) else None,
      AsString(Field(v, "preparacion")),
      AsNutrition(Field(v, "infoNutricional")),
      AsString(Field(v, "comentarioMotivador")))
  }

  /** Conforming nutrition facts read as all four numbers. */
  lemma ConformingNutritionReads(nut: Json)
    requires Conforms(nut, NutritionSchema)
    ensures AsNutrition(Some(nut)).Some?
  {
    var nprops := NutritionSchema.properties;
    var nreq := NutritionSchema.required;
    ConformsRequired(nut, nprops, nreq, 0);
    ConformsRequired(nut, nprops, nreq, 1);
    ConformsRequired(nut, nprops, nreq, 2);
    ConformsRequired(nut, nprops, nreq, 3);
  }

  /** A reply that conforms to the schema reads as a detail object with all five fields. */
  lemma ConformingReplyIsComplete(v: Json)
    requires Conforms(v, RecipeDetailsSchema)
    ensures var d := ReadDetails(v);
      d.nombre.Some? && d.ingredientes.Some? && d.preparacion.Some? &&
      d.infoNutricional.Some? && d.comentarioMotivador.Some?
  {
    var props := RecipeDetailsSchema.properties;
    var req := RecipeDetailsSchema.required;
    ConformsRequired(v, props, req, 1);
    var ing := Field(v, "ingredientes").value;
    assert forall i :: 0 <= i < |ing.elems| ==> Conforms(ing.elems[i], SString);
    ConformsRequired(v, props, req, 3);
    ConformingNutritionReads(Field(v, "infoNutricional").value);
    ConformsRequired(v, props, req, 0);
    ConformsRequired(v, props, req, 2);
    ConformsRequired(v, props, req, 4);
  }

  /** A reply that lacks any one of the five required keys does not conform. */
  lemma DetailsRequireFiveFields(ms: seq<Member>, k: string)
    requires k in ["nombre", "ingredientes", "preparacion", "infoNutricional", "comentarioMotivador"]
    requires forall i :: 0 <= i < |ms| ==> ms[i].key != k
    ensures !Conforms(JObject(ms), RecipeDetailsSchema)
  {
    MissingRequiredKey(ms, RecipeDetailsSchema.properties, RecipeDetailsSchema.required, k);
  }

  /** Nutrition facts lacking any one of the four numbers do not conform. */
  lemma NutritionRequiresFourNumbers(ms: seq<Member>, k: string)
    requires k in ["calorias", "proteinas", "carbohidratos", "grasas"]
    requires forall i :: 0 <= i < |ms| ==> ms[i].key != k
    ensures !Conforms(JObject(ms), NutritionSchema)
  {
    MissingRequiredKey(ms, NutritionSchema.properties, NutritionSchema.required, k);
  }

  // ---------------------------------------------------------------------
  // Writing a detail object back

  function EncodeStrings(xs: seq<string>): (r: seq<Json>)
    ensures |r| == |xs|
  {
    seq(|xs|, i requires 0 <= i < |xs| => JString(xs[i]))
  }

  function EncodeNutrition(n: Nutrition): Json
  {
    JObject([ Member("calorias", JNumber(n.calorias)), Member("proteinas", JNumber(n.proteinas)),
              Member("carbohidratos", JNumber(n.carbohidratos)), Member("grasas", JNumber(n.grasas)) ])
  }

  function StringMember(key: string, v: Option<string>): (r: seq<Member>)
    ensures forall i :: 0 <= i < |r| ==> r[i].key == key
  {
    if v.Some? then [Member(key, JString(v.value))] else []
  }

  function IngredientsMember(v: Option<seq<string>>): (r: seq<Member>)
    ensures forall i :: 0 <= i < |r| ==> r[i].key == "ingredientes"
  {
    if v.Some? then [Member("ingredientes", JArray(EncodeStrings(v.value)))] else []
  }

  function NutritionMember(v: Option<Nutrition>): (r: seq<Member>)
    ensures forall i :: 0 <= i < |r| ==> r[i].key == "infoNutricional"
  {
    if v.Some? then [Member("infoNutricional", EncodeNutrition(v.value))] else []
  }

  /** The JSON object holding exactly the fields a detail object has. */
  function EncodeDetails(d: MealDetails): Json
  {
    JObject(DetailMembers(d))
  }

  lemma {:induction false} StringsRoundTrip(xs: seq<string>)
    ensures AsStrings(EncodeStrings(xs)) == Some(xs)
  {
    if xs != [] {
      StringsRoundTrip(xs[1..]);
      assert EncodeStrings(xs)[1..] == EncodeStrings(xs[1..]);
      assert xs == [xs[0]] + xs[1..];
    }
  }

  function DetailMembers(d: MealDetails): seq<Member>
  {
    StringMember("nombre", d.nombre) + (IngredientsMember(d.ingredientes) +
    (StringMember("preparacion", d.preparacion) + (NutritionMember(d.infoNutricional) +
    StringMember("comentarioMotivador", d.comentarioMotivador))))
  }

  // Each key of an encoded detail object reads the one member written for it.

  lemma EncodedName(d: MealDetails)
    ensures Lookup(DetailMembers(d), "nombre") == Lookup(StringMember("nombre", d.nombre), "nombre")
  {
    var a := StringMember("nombre", d.nombre);
    var b := IngredientsMember(d.ingredientes);
    var c := StringMember("preparacion", d.preparacion);
    var n := NutritionMember(d.infoNutricional);
    var e := StringMember("comentarioMotivador", d.comentarioMotivador);
    LacksConcat(n, e, "nombre");
    LacksConcat(c, n + e, "nombre");
    LacksConcat(b, c + (n + e), "nombre");
    LookupPastAbsent(a, b + (c + (n + e)), "nombre");
  }

  lemma EncodedIngredients(d: MealDetails)
    ensures Lookup(DetailMembers(d), "ingredientes") == Lookup(IngredientsMember(d.ingredientes), "ingredientes")
  {
    var a := StringMember("nombre", d.nombre);
    var b := IngredientsMember(d.ingredientes);
    var c := StringMember("preparacion", d.preparacion);
    var n := NutritionMember(d.infoNutricional);
    var e := StringMember("comentarioMotivador", d.comentarioMotivador);
    LookupPastFront(a, b + (c + (n + e)), "ingredientes");
    LacksConcat(n, e, "ingredientes");
    LacksConcat(c, n + e, "ingredientes");
    LookupPastAbsent(b, c + (n + e), "ingredientes");
  }

  lemma EncodedPreparation(d: MealDetails)
    ensures Lookup(DetailMembers(d), "preparacion") == Lookup(StringMember("preparacion", d.preparacion), "preparacion")
  {
    var a := StringMember("nombre", d.nombre);
    var b := IngredientsMember(d.ingredientes);
    var c := StringMember("preparacion", d.preparacion);
    var n := NutritionMember(d.infoNutricional);
    var e := StringMember("comentarioMotivador", d.comentarioMotivador);
    LookupPastFront(a, b + (c + (n + e)), "preparacion");
    LookupPastFront(b, c + (n + e), "preparacion");
    LacksConcat(n, e, "preparacion");
    LookupPastAbsent(c, n + e, "preparacion");
  }

  lemma EncodedNutrition(d: MealDetails)
    ensures Lookup(DetailMembers(d), "infoNutricional") == Lookup(NutritionMember(d.infoNutricional), "infoNutricional")
  {
    var a := StringMember("nombre", d.nombre);
    var b := IngredientsMember(d.ingredientes);
    var c := StringMember("preparacion", d.preparacion);
    var n := NutritionMember(d.infoNutricional);
    var e := StringMember("comentarioMotivador", d.comentarioMotivador);
    LookupPastFront(a, b + (c + (n + e)), "infoNutricional");
    LookupPastFront(b, c + (n + e), "infoNutricional");
    LookupPastFront(c, n + e, "infoNutricional");
    LookupPastAbsent(n, e, "infoNutricional");
  }

  lemma EncodedComment(d: MealDetails)
    ensures Lookup(DetailMembers(d), "comentarioMotivador")
         == Lookup(StringMember("comentarioMotivador", d.comentarioMotivador), "comentarioMotivador")
  {
    var a := StringMember("nombre", d.nombre);
    var b := IngredientsMember(d.ingredientes);
    var c := StringMember("preparacion", d.preparacion);
    var n := NutritionMember(d.infoNutricional);
    var e := StringMember("comentarioMotivador", d.comentarioMotivador);
    LookupPastFront(a, b + (c + (n + e)), "comentarioMotivador");
    LookupPastFront(b, c + (n + e), "comentarioMotivador");
    LookupPastFront(c, n + e, "comentarioMotivador");
    LookupPastFront(n, e, "comentarioMotivador");
  }

  /** Reading back an encoded detail object gives the same fields. */
  lemma ReadEncodedDetails(d: MealDetails)
    ensures ReadDetails(EncodeDetails(d)) == d
  {
    EncodedName(d);
    EncodedIngredients(d);
    EncodedPreparation(d);
    EncodedNutrition(d);
    EncodedComment(d);
    if d.ingredientes.Some? {
      StringsRoundTrip(d.ingredientes.value);
    }
    if d.infoNutricional.Some? {
      NutritionRoundTrip(d.infoNutricional.value);
    }
    var r := ReadDetails(EncodeDetails(d));
    assert r.nombre == d.nombre;
    assert r.ingredientes == d.ingredientes;
    assert r.preparacion == d.preparacion;
    assert r.infoNutricional == d.infoNutricional;
    assert r.comentarioMotivador == d.comentarioMotivador;
  }

  lemma NutritionRoundTrip(x: Nutrition)
    ensures AsNutrition(Some(EncodeNutrition(x))) == Some(x)
  {
    var c := [Member("calorias", JNumber(x.calorias))];
    var p := [Member("proteinas", JNumber(x.proteinas))];
    var h := [Member("carbohidratos", JNumber(x.carbohidratos))];
    var g := [Member("grasas", JNumber(x.grasas))];
    var v := EncodeNutrition(x);
    assert v.members == c + p + h + g;
    LookupIsolated([], c, p + h + g, "calorias");
    assert Field(v, "calorias") == Some(JNumber(x.calorias)) by {
      assert v.members == [] + c + (p + h + g);
    }
    LookupIsolated(c, p, h + g, "proteinas");
    assert Field(v, "proteinas") == Some(JNumber(x.proteinas)) by {
      assert v.members == c + p + (h + g);
    }
    LookupIsolated(c + p, h, g, "carbohidratos");
    assert Field(v, "carbohidratos") == Some(JNumber(x.carbohidratos));
    assert Field(v, "grasas") == Some(JNumber(x.grasas));
  }

}
