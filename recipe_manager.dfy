/**
 * The recipe manager: adding and deleting family recipes, and the CSV import,
 * which splits the file on line breaks and each line on commas (no quoting),
 * drops the first line as a header and keeps lines whose first two fields are
 * non-empty.
 */
module RecipeManager {
  import opened Wrappers
  import opened Text
  import opened Types
  import opened Lists

  /**
   * The first two comma-separated fields of a line; a missing second field
   * reads as empty. Neither field holds a comma; a line without a comma is all
   * name; otherwise the line opens with the name, a comma and the ingredients,
   * followed by another comma or by the end of the line.
   */
  function Fields(line: string): (r: (string, string))
    ensures r.0 == Split(line, ',')[0]
    ensures |Split(line, ',')| >= 2 ==> r.1 == Split(line, ',')[1]
    ensures |Split(line, ',')| < 2 ==> r.1 == ""
    ensures ',' !in r.0 && ',' !in r.1
    ensures ',' !in line ==> r == (line, "")
    ensures ',' in line ==>
      r.0 + [','] + r.1 <= line &&
      (|r.0| + 1 + |r.1| == |line| || line[|r.0| + 1 + |r.1|] == ',')
  {
    var f := Split(line, ',');
    if ',' in line then
      SplitFirstTwo(line, ',');
      (f[0], f[1])
    else
      SplitNoSeparator(line, ',');
      (f[0], "")
  }

  /** One CSV line: the trimmed name and ingredients, when both fields are non-empty before trimming. */
  function ParseLine(line: string): (r: Option<(string, string)>)
    ensures r.Some? <==> Fields(line).0 != "" && Fields(line).1 != ""
    ensures r.Some? ==> r.value == (Trim(Fields(line).0), Trim(Fields(line).1))
    ensures r.Some? ==> ',' in line && line[0] != ','
    ensures r.Some? ==> ',' !in r.value.0 && ',' !in r.value.1
    ensures r.Some? ==> Trim(r.value.0) == r.value.0 && Trim(r.value.1) == r.value.1
  {
    var (name, ingredients) := Fields(line);
    if name != "" && ingredients != "" then
      TrimWithin(name);
      TrimWithin(ingredients);
      TrimIdempotent(name);
      TrimIdempotent(ingredients);
      Some((Trim(name), Trim(ingredients)))
    else None
  }

  /** The recipes of the parsed lines that were kept, in order; line `k` gets the id `freshId(k)`. */
  function Collect(parsed: seq<Option<(string, string)>>, freshId: nat -> string, first: nat): (r: seq<Recipe>)
    ensures |r| <= |parsed|
    decreases |parsed|
  {
    if parsed == [] then []
    else
      var rest := Collect(parsed[1..], freshId, first + 1);
      match parsed[0]
      case None => rest
      case Some(p) => [Recipe(freshId(first), p.0, p.1)] + rest
  }

  /** The recipes of the lines that are kept, in order. */
  function ParseLines(lines: seq<string>, freshId: nat -> string, first: nat): (r: seq<Recipe>)
    ensures |r| <= |lines|
  {
    Collect(seq(|lines|, i requires 0 <= i < |lines| => ParseLine(lines[i])), freshId, first)
  }

  /** The recipes a CSV file imports: every line after the first. */
  function ParseCsv(text: string, freshId: nat -> string): (r: seq<Recipe>)
    ensures |r| <= |Split(text, '\n')| - 1
  {
    ParseLines(Split(text, '\n')[1..], freshId, 1)
  }

  /** The list without every recipe carrying `id`. */
  function WithoutRecipe(rs: seq<Recipe>, id: string): seq<Recipe>
  {
    Filter(rs, (r: Recipe) => r.id != id)
  }

  // ---------------------------------------------------------------------
  // Properties of the import

  /** The first line is discarded whatever it holds. */
  lemma HeaderDropped(header: string, body: string, freshId: nat -> string)
    requires '\n' !in header
    ensures ParseCsv(header + "\n" + body, freshId) == ParseLines(Split(body, '\n'), freshId, 1)
  {
    SplitAppend(header, body, '\n');
  }

  /** Fields after the second are ignored. */
  lemma ExtraFieldsIgnored(name: string, ingredients: string, more: string)
    requires ',' !in name && ',' !in ingredients
    requires name != "" && ingredients != ""
    ensures ParseLine(name + "," + ingredients + "," + more) == Some((Trim(name), Trim(ingredients)))
  {
    SplitAppend(ingredients, more, ',');
    assert name + "," + ingredients + "," + more == name + [','] + (ingredients + [','] + more);
    SplitAppend(name, ingredients + [','] + more, ',');
  }

  /** A line without a comma, or with an empty first field, is dropped. */
  lemma IncompleteLineDropped(line: string, rest: string)
    ensures ',' !in line ==> ParseLine(line).None?
    ensures ParseLine("," + rest).None?
  {
    if ',' !in line {
      SplitNoSeparator(line, ',');
    }
    assert "," + rest == [] + [','] + rest;
    SplitAppend([], rest, ',');
  }

  /** Trimming a string of whitespace only leaves nothing. */
  lemma WhitespaceFieldKeptEmpty(s: string)
    requires forall i :: 0 <= i < |s| ==> IsJsWhitespace(s[i])
    ensures Trim(s) == ""
  {
  }

  /** A line made of two non-empty, comma-free texts joined by a comma is kept, with both trimmed. */
  lemma ParsePair(a: string, b: string)
    requires ',' !in a && ',' !in b
    requires a != "" && b != ""
    ensures ParseLine(a + "," + b) == Some((Trim(a), Trim(b)))
  {
    SplitNoSeparator(b, ',');
    SplitAppend(a, b, ',');
    assert a + "," + b == a + [','] + b;
    assert Fields(a + "," + b) == (a, b);
  }

  lemma WhitespaceHasNoComma(ws: string)
    requires forall i :: 0 <= i < |ws| ==> IsJsWhitespace(ws[i])
    ensures ',' !in ws
  {
    forall i | 0 <= i < |ws|
      ensures ws[i] != ','
    {
      assert IsJsWhitespace(ws[i]);
    }
  }

  /**
   * A non-empty field of whitespace only, as the name or as the ingredients,
   * passes the check on the untrimmed fields and is stored as the empty string.
   */
  lemma WhitespaceFieldStoredEmpty(ws: string, other: string)
    requires ws != "" && forall i :: 0 <= i < |ws| ==> IsJsWhitespace(ws[i])
    requires other != "" && ',' !in other
    ensures ParseLine(ws + "," + other) == Some(("", Trim(other)))
    ensures ParseLine(other + "," + ws) == Some((Trim(other), ""))
  {
    WhitespaceHasNoComma(ws);
    WhitespaceFieldKeptEmpty(ws);
    TrimmedAwayName(ws, other);
    TrimmedAwayIngredients(ws, other);
  }

  lemma TrimmedAwayName(ws: string, other: string)
    requires ws != "" && ',' !in ws && Trim(ws) == ""
    requires other != "" && ',' !in other
    ensures ParseLine(ws + "," + other) == Some(("", Trim(other)))
  {
    ParsePair(ws, other);
  }

  lemma TrimmedAwayIngredients(ws: string, other: string)
    requires ws != "" && ',' !in ws && Trim(ws) == ""
    requires other != "" && ',' !in other
    ensures ParseLine(other + "," + ws) == Some((Trim(other), ""))
  {
    ParsePair(other, ws);
  }

  /** A recipe's CSV line. */
  function CsvLine(r: Recipe): string
  {
    r.name + "," + r.ingredients
  }

  function CsvLines(rs: seq<Recipe>): (r: seq<string>)
    ensures |r| == |rs|
  {
    seq(|rs|, i requires 0 <= i < |rs| => CsvLine(rs[i]))
  }

  /** A CSV file of recipes: a header line, then one line per recipe. */
  function CsvText(rs: seq<Recipe>): string
  {
    Join(["nombre,ingredientes"] + CsvLines(rs), '\n')
  }

  /** A recipe the import gives back unchanged: both fields non-empty, trimmed, free of commas and line breaks. */
  predicate Writable(r: Recipe)
  {
    r.name != "" && r.ingredients != "" &&
    Trim(r.name) == r.name && Trim(r.ingredients) == r.ingredients &&
    ',' !in r.name && ',' !in r.ingredients && '\n' !in r.name && '\n' !in r.ingredients
  }

  /** A recipe's name and ingredients. */
  function Content(rs: seq<Recipe>): seq<(string, string)>
  {
    seq(|rs|, i requires 0 <= i < |rs| => (rs[i].name, rs[i].ingredients))
  }

  lemma ContentCons(r: Recipe, rs: seq<Recipe>)
    ensures Content([r] + rs) == [(r.name, r.ingredients)] + Content(rs)
  {
  }

  lemma LineRoundTrip(r: Recipe)
    requires Writable(r)
    ensures ParseLine(CsvLine(r)) == Some((r.name, r.ingredients))
  {
    SplitNoSeparator(r.ingredients, ',');
    assert CsvLine(r) == r.name + [','] + r.ingredients;
    SplitAppend(r.name, r.ingredients, ',');
  }

  /** The fields of the lines that were kept, in line order. */
  function Kept(parsed: seq<Option<(string, string)>>): seq<(string, string)>
  {
    if parsed == [] then []
    else (if parsed[0].Some? then [parsed[0].value] else []) + Kept(parsed[1..])
  }

  /** What an import yields: one recipe per kept line, with that line's fields, in line order; dropped lines leave no trace. */
  lemma {:induction false} CollectContent(parsed: seq<Option<(string, string)>>, freshId: nat -> string, first: nat)
    ensures Content(Collect(parsed, freshId, first)) == Kept(parsed)
    decreases |parsed|
  {
    if parsed != [] {
      CollectContent(parsed[1..], freshId, first + 1);
      var rest := Collect(parsed[1..], freshId, first + 1);
      if parsed[0].Some? {
        var p := parsed[0].value;
        ContentCons(Recipe(freshId(first), p.0, p.1), rest);
      }
    }
  }

  /** Importing a file yields exactly the kept lines after the header, in order. */
  lemma ParseCsvContent(text: string, freshId: nat -> string)
    ensures var lines := Split(text, '\n')[1..];
      Content(ParseCsv(text, freshId)) ==
        Kept(seq(|lines|, i requires 0 <= i < |lines| => ParseLine(lines[i])))
  {
    var lines := Split(text, '\n')[1..];
    CollectContent(seq(|lines|, i requires 0 <= i < |lines| => ParseLine(lines[i])), freshId, 1);
  }

  /** Lines that all parse import exactly their fields, in order. */
  lemma {:induction false} CollectAll(parsed: seq<Option<(string, string)>>, pairs: seq<(string, string)>, freshId: nat -> string, first: nat)
    requires |parsed| == |pairs|
    requires forall i :: 0 <= i < |parsed| ==> parsed[i] == Some(pairs[i])
    ensures Content(Collect(parsed, freshId, first)) == pairs
    decreases |parsed|
  {
    if parsed != [] {
      CollectAll(parsed[1..], pairs[1..], freshId, first + 1);
      var rest := Collect(parsed[1..], freshId, first + 1);
      ContentCons(Recipe(freshId(first), pairs[0].0, pairs[0].1), rest);
      assert [pairs[0]] + pairs[1..] == pairs;
    }
  }

  /** The lines after the header of a CSV file of recipes are the recipes' lines. */
  lemma CsvBody(rs: seq<Recipe>)
    requires forall i :: 0 <= i < |rs| ==> Writable(rs[i])
    ensures Split(CsvText(rs), '\n')[1..] == CsvLines(rs)
  {
    var body := CsvLines(rs);
    forall i | 0 <= i < |body|
      ensures '\n' !in body[i]
    {
      LineHasNoBreak(rs[i]);
    }
    var lines := ["nombre,ingredientes"] + body;
    forall i | 0 <= i < |lines|
      ensures '\n' !in lines[i]
    {
      if i > 0 {
        assert lines[i] == body[i - 1];
      }
    }
    SplitJoin(lines, '\n');
    assert lines[1..] == body;
  }

  lemma LineHasNoBreak(r: Recipe)
    requires Writable(r)
    ensures '\n' !in CsvLine(r)
  {
    assert CsvLine(r) == r.name + ([','] + r.ingredients);
  }

  /** Each recipe line of writable recipes parses to that recipe's name and ingredients. */
  lemma CsvLinesParse(rs: seq<Recipe>, parsed: seq<Option<(string, string)>>)
    requires forall i :: 0 <= i < |rs| ==> Writable(rs[i])
    requires parsed == seq(|rs|, i requires 0 <= i < |rs| => ParseLine(CsvLines(rs)[i]))
    ensures forall i :: 0 <= i < |rs| ==> parsed[i] == Some(Content(rs)[i])
  {
    forall i | 0 <= i < |rs|
      ensures parsed[i] == Some(Content(rs)[i])
    {
      LineRoundTrip(rs[i]);
    }
  }

  /** Importing the CSV text of writable recipes gives back their names and ingredients, in order. */
  lemma CsvRoundTrip(rs: seq<Recipe>, freshId: nat -> string)
    requires forall i :: 0 <= i < |rs| ==> Writable(rs[i])
    ensures Content(ParseCsv(CsvText(rs), freshId)) == Content(rs)
  {
    CsvBody(rs);
    var parsed := seq(|rs|, i requires 0 <= i < |rs| => ParseLine(CsvLines(rs)[i]));
    CsvLinesParse(rs, parsed);
    CollectAll(parsed, Content(rs), freshId, 1);
  }

  // ---------------------------------------------------------------------
  // Properties of add and delete

  /** Delete removes exactly the recipes with the id; the others stay, in their order. */
  lemma DeleteRemovesExactly(rs: seq<Recipe>, id: string)
    ensures forall r :: r in WithoutRecipe(rs, id) <==> r in rs && r.id != id
    ensures forall k :: 0 <= k <= |rs| ==>
      WithoutRecipe(rs, id) == WithoutRecipe(rs[..k], id) + WithoutRecipe(rs[k..], id)
    ensures forall k :: 0 <= k < |rs| ==>
      WithoutRecipe([rs[k]], id) == (if rs[k].id != id then [rs[k]] else [])
    ensures |WithoutRecipe(rs, id)| + |Filter(rs, (r: Recipe) => r.id == id)| == |rs|
  {
    FilterOrder(rs, (q: Recipe) => q.id != id);
    FilterPartition(rs, (q: Recipe) => q.id != id, (r: Recipe) => r.id == id);
    forall r
      ensures r in WithoutRecipe(rs, id) <==> r in rs && r.id != id
    {
      FilterMembership(rs, (q: Recipe) => q.id != id, r);
    }
  }

  /** Deleting a just-added recipe by its fresh id undoes the add. */
  lemma DeleteUndoesAdd(rs: seq<Recipe>, r: Recipe)
    requires forall i :: 0 <= i < |rs| ==> rs[i].id != r.id
    ensures WithoutRecipe(rs + [r], r.id) == rs
  {
    var keep := (q: Recipe) => q.id != r.id;
    FilterConcat(rs, [r], keep);
    FilterKeepsAll(rs, keep);
    assert Filter([r], keep) == [];
  }

  // ---------------------------------------------------------------------
  // The component state

  class RecipeEditor {
    var recipes: seq<Recipe>
    var newName: string
    var newIngredients: string

    constructor (recipes: seq<Recipe>)
      ensures this.recipes == recipes && newName == "" && newIngredients == ""
    {
      this.recipes := recipes;
      newName := "";
      newIngredients := "";
    }

    /** `handleAddRecipe`: with both fields non-empty (untrimmed), append under `freshId` and clear the form. */
    method AddRecipe(freshId: string)
      modifies this
      ensures old(newName) != "" && old(newIngredients) != "" ==>
        recipes == old(recipes) + [Recipe(freshId, old(newName), old(newIngredients))] &&
        newName == "" && newIngredients == ""
      ensures old(newName) == "" || old(newIngredients) == "" ==> unchanged(this)
    {
      if newName != "" && newIngredients != "" {
        recipes := recipes + [Recipe(freshId, newName, newIngredients)];
        newName := "";
        newIngredients := "";
      }
    }

    /** `handleDeleteRecipe`. */
    method DeleteRecipe(id: string)
      modifies this
      ensures recipes == WithoutRecipe(old(recipes), id)
      ensures newName == old(newName) && newIngredients == old(newIngredients)
    {
      recipes := WithoutRecipe(recipes, id);
    }

    /** The file reader's `onload`: the imported recipes go after the existing ones. */
    method ImportCsv(text: string, freshId: nat -> string)
      modifies this
      ensures recipes == old(recipes) + ParseCsv(text, freshId)
      ensures newName == old(newName) && newIngredients == old(newIngredients)
    {
      recipes := recipes + ParseCsv(text, freshId);
    }
  }
}
