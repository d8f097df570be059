# Food-house meal planner, modelled in Dafny

Food-house plans a family's meals with the Gemini model. It has two parts:

- **Three serverless handlers.** They build a prompt, call the model and pass its JSON back:
  - a name-only meal plan for some days;
  - the details of one dish;
  - a shopping list for a plan.
- **A React front end.** It keeps the family profiles, the family recipes, the plan and the shopping list, and calls the handlers through a small service layer.

This project models the parts of that code whose behaviour can be stated exactly, and proves properties of them.

Modules and the source files they model:

- `Wrappers`: `Option` and `Result`.
- `Text`: JavaScript string built-ins the code relies on: `split`, `join`, `trim`, `parseInt` and template interpolation of numbers.
- `Lists`: `Array.prototype.filter`.
- `Json`: JSON values, property access with last-key-wins, truthiness and `String(v)`, and the response-schema language with its conformance rule.
- `Types`: `types.ts`, plus the shopping-list type given by the shopping-list schema.
- `ApiHandler`: the request/response chain the three handlers share.
- `PlanApi`, `DetailsApi`, `ShoppingListApi`: `api/generatePlan.ts`, `api/generateDetails.ts`, `api/generateShoppingList.ts`: prompt, schema and handler.
- `GeminiService`: `services/geminiService.ts`: how the client picks the error it throws, and how handler responses reach it.
- `App`: the state of `App.tsx` as a class over an array of day objects: plan generation and the details splice, which writes into a shared day object.
- `ProfileManager`: the profile list operations and the profile form state.
- `RecipeManager`: recipe add and delete, and the CSV import parser.
- `ShoppingListModal`: item deletion, which filters a shared category object in place, and the empty-category filter.

The model stands in for outside effects as follows:

- The model's reply, the `API_KEY` environment variable, `JSON.parse` and the body the client's `fetch` receives are inputs.
- Fresh ids from `crypto.randomUUID` are parameters.
- Dates arrive as their ISO text.

Points where the code's behaviour is easy to misread, and which the model follows:

- **One request, no retry.** The service makes a single request per call and, on failure, throws one message chosen from the reply (`services/geminiService.ts:16-19`). There is no retry and no classification of errors.
- **The details echo the meal's name.** The details schema requires `nombre` (`api/generateDetails.ts:30`), and the merge at `App.tsx:60` lets that echoed name replace the meal's own.
- **Details are keyed by position.** The details update finds its meal by day index and meal slot (`App.tsx:57-66`), not by the meal's name.
- **Nutrition values are not checked.** Nothing requires them to be non-negative.
- **`infoNutricional` is an object.** `types.ts:21` declares it a string, but the details schema (`api/generateDetails.ts:18-27`) returns an object of four numbers. The model uses the object.

## Model

| member | source | states |
|---|---|---|
| Types.ParseGender | types.ts:6 | a gender text stands for exactly one of male, female or other, and any other text for none |
| Types.ParseActivityLevel | types.ts:7 | an activity text stands for exactly one of the four levels, and any other text for none |
| Text.Split | components/RecipeManager.tsx:31 | `split` gives at least one piece and no piece contains the separator |
| Text.SplitJoin | components/RecipeManager.tsx:31 | splitting lines that were joined with a separator they do not contain gives the lines back |
| Text.JoinSplit | api/generatePlan.ts:27 | joining the pieces of a split gives the text back |
| Text.SplitFirstTwo | components/RecipeManager.tsx:35 | a text with a separator splits into at least two pieces, and the first two with the separator between them open the text, followed by another separator or the end |
| Text.SplitAppend | api/generatePlan.ts:54 | a text whose first piece lacks the separator splits into that piece followed by the split of the rest |
| Text.TrimShape | components/RecipeManager.tsx:37 | `trim` removes only leading and trailing whitespace, and leaves none at either end |
| Text.TrimIdempotent | components/RecipeManager.tsx:37 | trimming twice is trimming once |
| Text.ParseIntOfIntToString | components/ProfileManager.tsx:52 | `parseInt` of a number's decimal text gives the number back |
| Lists.Filter | components/ProfileManager.tsx:37 | `filter` keeps only elements of the list that satisfy the test, and never grows the list |
| Lists.FilterMembership | components/ProfileManager.tsx:37 | an element is in the filtered list iff it is in the list and passes the test |
| Lists.FilterIdempotent | components/ShoppingListModal.tsx:18 | filtering twice with the same test is filtering once |
| Lists.FilterPartition | components/RecipeManager.tsx:22 | the elements kept and the elements dropped by a test together number as many as the list |
| Lists.FilterOrder | components/ShoppingListModal.tsx:18 | the filter of a list is the filter of any prefix followed by the filter of the rest, and each element alone is kept iff it passes the test, so survivors keep their order and their repeats |
| Json.Lookup | services/geminiService.ts:18 | reading a key of a parsed object finds a value iff some member has that key |
| Json.MissingRequiredKey | api/generateDetails.ts:30 | an object that lacks a required key does not conform to its schema |
| Json.ConformsRequired | api/generateDetails.ts:30 | a conforming object has every required key, with a value of the listed shape |
| ApiHandler.Caught | api/generatePlan.ts:98-101 | the catch block answers 500 with a message that is never empty, and is the error's own message when that is non-empty |
| ApiHandler.Serve | api/generatePlan.ts:62-102 | status is 200, 405 or 500; 405 iff the method is not POST; the model is called iff the method, body, key and prompt all pass; 200 iff it was called and its text passes the checks, and then the body is that text unchanged |
| PlanApi.Handler | api/generatePlan.ts:62-102 | non-POST gives 405 and a missing key gives 500 with the configuration message, both without a model call; empty text gives 500 with the empty-response message; any other text goes out unchanged with 200 and is never parsed |
| PlanApi.HandlerPrompt | api/generatePlan.ts:77 | once the gates pass, the model is called with the prompt built from the body |
| PlanApi.HandlerInvalidDate | api/generatePlan.ts:54 | an invalid start date makes `toISOString` throw, so the answer is 500 "Invalid time value" and the model is not called |
| PlanApi.ProfileSectionLines | api/generatePlan.ts:25-27 | for at least one profile, when no profile line contains a line break (names and notes without one), the profile section has exactly one line per profile, in input order |
| PlanApi.NotesPlaceholder | api/generatePlan.ts:26 | missing or empty notes are written "ninguna"; other notes are written as given, at the end of the line |
| PlanApi.RecipeSectionLines | api/generatePlan.ts:29-31 | no recipes gives the fixed sentence; otherwise, when no recipe line contains a line break (names and ingredients without one), a header line, then one `- name: ingredients` line per recipe, in order |
| PlanApi.BreakfastDirective | api/generatePlan.ts:33 | the two breakfast directives differ, and the one for `false` says "NO generes desayunos" |
| PlanApi.DatePartOfTimestamp | api/generatePlan.ts:54 | `split('T')[0]` of an ISO timestamp is its date part |
| PlanApi.PromptContents | api/generatePlan.ts:35-58 | the prompt holds the profile section, guideline 4 with the number of profiles, the breakfast directive for the flag, the recipe section, and the task line with the duration and the start date's date part |
| PlanApi.PlanSchemaRequiresDayFields | api/generatePlan.ts:10-22 | a day lacking `dia`, `fecha`, `comida` or `cena`, at any position of the plan, makes the plan fail the schema |
| DetailsApi.Handler | api/generateDetails.ts:34-92 | non-POST gives 405 and a missing key gives 500, both without a model call; otherwise the model gets the details prompt; empty text gives 500 with the empty-response message; non-empty text gives 200 with the text unchanged iff `JSON.parse` accepts it, and 500 otherwise; an error without a message gives "Error interno del servidor." |
| DetailsApi.PromptContents | api/generateDetails.ts:49-63 | the prompt holds the dish name inside double quotes and the family size as the number of people |
| DetailsApi.ConformingReplyIsComplete | api/generateDetails.ts:9-31 | a reply that conforms to the schema reads as a detail object with all five fields |
| DetailsApi.DetailsRequireFiveFields | api/generateDetails.ts:30 | a reply lacking any of the five required keys does not conform |
| DetailsApi.NutritionRequiresFourNumbers | api/generateDetails.ts:19-27 | nutrition facts lacking any of the four numbers do not conform |
| DetailsApi.AsStrings | api/generateDetails.ts:13 | an array reads as a list of strings, of the same length, iff every element is a string |
| DetailsApi.StringsRoundTrip | api/generateDetails.ts:13 | an ingredient list written as a JSON array reads back as the same list |
| DetailsApi.ReadEncodedDetails | api/generateDetails.ts:9-31 | a detail object written as JSON reads back as the same detail object |
| ShoppingListApi.Handler | api/generateShoppingList.ts:61-103 | the same chain as the details handler, with the shopping-list prompt built from the plan and the number of profiles, and its own empty-response message |
| ShoppingListApi.MealListLines | api/generateShoppingList.ts:38 | for at least one day, when no day label or meal name contains a line break, the meal list has one line per plan day, in plan order |
| ShoppingListApi.MissingMealIsUndefined | api/generateShoppingList.ts:38 | a missing lunch or dinner is written as the text `undefined` |
| ShoppingListApi.PromptIgnoresDetails | api/generateShoppingList.ts:38 | stripping every meal down to its name leaves the prompt unchanged, so ingredient lists are never sent |
| ShoppingListApi.PromptDependsOnNames | api/generateShoppingList.ts:38 | plans with the same day labels and meal names give the same prompt |
| ShoppingListApi.PromptContents | api/generateShoppingList.ts:41-58 | the prompt holds the meal list, and the number of profiles both in the task sentence and in instruction 1 |
| ShoppingListApi.ListRequiresCategories | api/generateShoppingList.ts:34 | a reply without `categorias` does not conform |
| ShoppingListApi.CategoryRequiresFields | api/generateShoppingList.ts:30 | a category lacking `nombre` or `items`, at any position of `categorias` and whatever else the reply holds, makes the list fail the schema |
| ShoppingListApi.ItemRequiresFields | api/generateShoppingList.ts:26 | an item lacking `id`, `nombre` or `cantidad` does not conform |
| ShoppingListApi.ListConforms | api/generateShoppingList.ts:8-35 | every shopping list, written as JSON, conforms to the schema |
| GeminiService.FallbackOnlyWithoutMessage | services/geminiService.ts:16-19 | for a JSON body other than `null`, the call's fallback shows through exactly when the body has no truthy `message`: calls with different fallbacks report the same text iff it has one |
| GeminiService.StringMessageWins | services/geminiService.ts:18 | a non-empty string `message` in the error body is exactly what the caller sees, whatever the call's fallback |
| GeminiService.GenerateMealPlan | services/geminiService.ts:3-21 | an ok reply resolves with the parsed body, an ok reply whose body is not JSON rejects with the parse error, a non-ok reply rejects with the failure message, a network failure rejects with its own message, and only an ok reply resolves |
| GeminiService.GenerateRecipeDetails | services/geminiService.ts:23-35 | the same, with a fallback that names the dish |
| GeminiService.UnparseableBodyIgnoresFallback | services/geminiService.ts:17 | for a body that is not JSON the fallback is never reached |
| GeminiService.MissingMessageGivesFallback | services/geminiService.ts:16-19 | a JSON body without a truthy `message` gives each call's own fallback, and the details fallback contains the dish name |
| GeminiService.PlanRequestPassesGates | services/geminiService.ts:10-14 | the client's plan request is a POST, so the plan handler never answers it 405; with a key set, the handler calls the model with the client's data |
| GeminiService.ServerMessageReachesCaller | services/geminiService.ts:16-19 | a handler's error message reaches both callers unchanged |
| GeminiService.DetailsRoundTrip | services/geminiService.ts:23-35 | when the details handler accepts the model text, the client resolves with that text parsed |
| GeminiService.DetailsErrorReachesCaller | services/geminiService.ts:30-32 | every non-200 answer of the details handler reaches the client as the handler's message |
| App.DayCell.SetSlot | App.tsx:60 | assigning a slot changes that slot of the day object and nothing else |
| App.MergeNothing | App.tsx:60 | details with no fields leave the meal unchanged |
| App.MergeIdempotent | App.tsx:60 | merging the same details twice is merging them once |
| App.MergeComplete | App.tsx:60 | complete details replace the whole meal, its name included |
| App.MergeKeepsMissing | App.tsx:60 | a name or ingredient list the details lack keeps the meal's own, and present ingredients replace the meal's |
| App.ErrorText | App.tsx:43 | the error shown is the error's own message or the fallback; the message whenever it is non-empty; and it is empty only when both are |
| App.Materialize | App.tsx:40-41 | the plan the request returns becomes a fresh array of distinct, fresh day objects showing that plan |
| App.Session.constructor | App.tsx:19-29 | the four default profiles, no recipes, no plan, no error, nothing loading, 7 days from today, no breakfasts |
| App.Session.StartGeneration | App.tsx:31-38 | with no profiles only the error changes, to "Por favor, añada al menos un perfil familiar.", and no request is made; otherwise loading starts, the error and the plan are cleared, and the request carries the profiles, recipes, duration, date and flag |
| App.Session.FinishGeneration | App.tsx:39-46 | success shows the returned plan in a fresh array of fresh, distinct day objects; failure keeps the plan and sets the error to the message or "Ocurrió un error inesperado."; loading ends either way |
| App.Session.StartDetails | App.tsx:49-58 | a request is made iff there is a plan, the index is in it, the slot holds a meal and that meal has no ingredients; the request asks for the meal's name with the number of profiles; otherwise nothing changes |
| App.Session.FinishDetails | App.tsx:57-66 | on success the plan is a fresh copy of the array holding the same day objects, with only the chosen slot changed to the merged meal, and the previous array shows the change too; fetched ingredients stop a second request; on failure only the error changes, to the message or a fallback naming the meal; fetching ends either way |
| ProfileManager.Replaced | components/ProfileManager.tsx:43 | saving an edit keeps the length of the list |
| ProfileManager.Appended | components/ProfileManager.tsx:45 | saving a new profile keeps the existing ones as they were and adds one at the end |
| ProfileManager.AgeOf | components/ProfileManager.tsx:52 | age text that parses stores that number, and text that does not parse stores 0 |
| ProfileManager.AgeOfNumberText | components/ProfileManager.tsx:52 | a number typed as decimal text is stored as that number |
| ProfileManager.DeleteRemovesExactly | components/ProfileManager.tsx:36-38 | delete keeps exactly the profiles whose id differs, in their order and with their repeats: deleting from a list is deleting from any prefix and then from the rest, and a single profile stays iff its id differs |
| ProfileManager.DeleteIdempotent | components/ProfileManager.tsx:37 | deleting twice is deleting once |
| ProfileManager.DeleteAbsent | components/ProfileManager.tsx:37 | deleting an id no profile has changes nothing |
| ProfileManager.DeleteUndoesAdd | components/ProfileManager.tsx:36-45 | deleting a newly added profile by its fresh id gives back the list before the add |
| ProfileManager.SaveEditReplaces | components/ProfileManager.tsx:43 | saving an edit keeps every id in its place, replaces the matching profiles with the draft and leaves the rest untouched |
| ProfileManager.SaveEditIdempotent | components/ProfileManager.tsx:43 | saving the same edit twice is saving it once |
| ProfileManager.SaveUnchangedEdit | components/ProfileManager.tsx:30-43 | editing a profile and saving it unchanged gives back the list, when ids are unique |
| ProfileManager.SaveEditWithoutId | components/ProfileManager.tsx:43 | a draft without an id replaces nothing |
| ProfileManager.InputChangesOneField | components/ProfileManager.tsx:50-53 | an input changes only its own field, and never the id |
| ProfileManager.ProfileEditor.constructor | components/ProfileManager.tsx:20-22 | the modal is closed, the draft is blank and the form is in add mode |
| ProfileManager.ProfileEditor.AddProfile | components/ProfileManager.tsx:24-28 | the form holds the blank profile (name "", age 0, other, moderate, notes ""), is in add mode and is shown |
| ProfileManager.ProfileEditor.EditProfile | components/ProfileManager.tsx:30-34 | the form holds the chosen profile, is in edit mode and is shown |
| ProfileManager.ProfileEditor.DeleteProfile | components/ProfileManager.tsx:36-38 | the list loses the profiles with the id, and the form state is unchanged |
| ProfileManager.ProfileEditor.SaveProfile | components/ProfileManager.tsx:40-48 | edit mode replaces, add mode appends under a fresh id, and the modal closes either way |
| ProfileManager.ProfileEditor.InputChange | components/ProfileManager.tsx:50-53 | the draft takes the input and nothing else changes |
| RecipeManager.Fields | components/RecipeManager.tsx:35 | neither field holds a comma; a line without a comma is all name, with empty ingredients; otherwise the line opens with the name, a comma and the ingredients, followed by another comma or the end of the line |
| RecipeManager.ParseLine | components/RecipeManager.tsx:34-40 | a kept line has a comma and does not start with one, and gives two comma-free fields with no surrounding whitespace; a line is kept iff both fields are non-empty before trimming |
| RecipeManager.Collect | components/RecipeManager.tsx:32-41 | the kept lines give at most one recipe each |
| RecipeManager.CollectContent | components/RecipeManager.tsx:32-41 | the import gives one recipe per kept line, with that line's fields, in line order; dropped lines leave no trace |
| RecipeManager.ParseCsvContent | components/RecipeManager.tsx:31-41 | importing a file gives exactly the fields of the kept lines after the header, in order |
| RecipeManager.ParseCsv | components/RecipeManager.tsx:31-41 | an import gives at most one recipe per line after the first |
| RecipeManager.HeaderDropped | components/RecipeManager.tsx:31 | the first line is discarded whatever it holds |
| RecipeManager.ExtraFieldsIgnored | components/RecipeManager.tsx:35 | fields after the second comma are lost |
| RecipeManager.IncompleteLineDropped | components/RecipeManager.tsx:36 | a line with no comma, or with an empty first field, is dropped |
| RecipeManager.WhitespaceFieldStoredEmpty | components/RecipeManager.tsx:35-37 | a CSV line whose name or ingredients field is non-empty whitespace only passes the `name && ingredients` check, and that field is stored as the empty string |
| RecipeManager.LineRoundTrip | components/RecipeManager.tsx:34-40 | the CSV line of a recipe with clean fields parses back to its name and ingredients |
| RecipeManager.CollectAll | components/RecipeManager.tsx:41 | when every line parses, the import gives exactly their fields, in order |
| RecipeManager.CsvRoundTrip | components/RecipeManager.tsx:25-46 | importing the CSV text of recipes with clean fields gives back their names and ingredients, in order |
| RecipeManager.DeleteRemovesExactly | components/RecipeManager.tsx:21-23 | delete keeps exactly the recipes whose id differs, in their order and with their repeats (prefix-then-rest and single-recipe forms), and removes as many recipes as carry the id |
| RecipeManager.DeleteUndoesAdd | components/RecipeManager.tsx:16-22 | deleting a newly added recipe by its fresh id gives back the list before the add |
| RecipeManager.RecipeEditor.constructor | components/RecipeManager.tsx:11 | the form starts empty |
| RecipeManager.RecipeEditor.AddRecipe | components/RecipeManager.tsx:13-19 | with both fields non-empty (untrimmed) one recipe is appended under a fresh id and the form is cleared; otherwise nothing changes |
| RecipeManager.RecipeEditor.DeleteRecipe | components/RecipeManager.tsx:21-23 | the list loses the recipes with the id, and the form is unchanged |
| RecipeManager.RecipeEditor.ImportCsv | components/RecipeManager.tsx:42 | imported recipes go after the existing ones, in line order |
| ShoppingListModal.FirstNamed | components/ShoppingListModal.tsx:16 | `find` gives the first category with the name, or none when no category has it |
| ShoppingListModal.DeleteItemEffect | components/ShoppingListModal.tsx:14-21 | deleting keeps the categories, their order and names; only the first category with the name changes, losing exactly its items with the id while the others keep their order and repeats (prefix-then-rest and single-item forms) |
| ShoppingListModal.DeleteWithoutCategory | components/ShoppingListModal.tsx:16-20 | without a category of that name the list is unchanged |
| ShoppingListModal.DeleteItemIdempotent | components/ShoppingListModal.tsx:18 | deleting the same item twice is deleting it once |
| ShoppingListModal.VisibleExactly | components/ShoppingListModal.tsx:65 | a category is shown iff it has at least one item, and the shown categories keep the list's order and repeats (prefix-then-rest and single-category forms) |
| ShoppingListModal.LastItemHidesCategory | components/ShoppingListModal.tsx:18 | deleting a category's only item empties it, so it is no longer shown |
| ShoppingListModal.HandleDeleteItem | components/ShoppingListModal.tsx:14-21 | the result is a fresh list object holding the same category objects and showing the deletion, and the list it was copied from shows the deletion too |

## Left out

- The Gemini SDK call and the quality of what the model writes. The reply is an input: text, no text, or a thrown error with its message.
- `fetch`, `req.json()`, `process.env`, `FileReader`, `crypto.randomUUID`, `Date` and `JSON.parse` are parameters. So are the bodies the client's `response.json()` parses.
- `JSON.stringify` followed by `JSON.parse` of an error body `{ message }` is taken to give the same object back.
- On the server, an ISO date string read back with `new Date(...)` is taken to give the same string from `toISOString()`.
- `components/MenuDisplay.tsx`, all JSX and CSS, `window.print`, and logging with `console.error` are not part of this model.
- The choice of file in the CSV import is not modelled; the import starts from the file's text.
- The model name, the MIME type and the `description` texts of the schemas are not modelled. The schemas keep only their shapes and required keys.
- React's asynchronous scheduling and overlapping requests are not modelled.
  - Each handler in `App.tsx` is a start step and a finish step, with nothing happening in between.
  - A details request captures the plan array it started from, as the closure does.
- Numbers are integers. Ages, durations, family sizes and nutrition values with fractions are not modelled.
- `Text.ParseInt` reads a decimal prefix only. It does not model the `0x` hex prefix.
- Text.IntToString writes integers only; the JavaScript number formatting of fractions and exponents is not modelled.
- Json.Lookup ignores JavaScript's inherited properties (for example `__proto__`).
- DetailsApi.ReadDetails: a detail key whose value has the wrong shape reads as absent. The spread would copy that value onto the meal. Keys outside the schema are ignored.
- App.Session.FinishGeneration: the plan returned by the service is taken as already shaped like a plan, as the TypeScript cast assumes. The client does not check it.
- App.Session.StartDetails: an index outside the plan makes `menuPlan[dayIndex][mealType]` throw. The promise rejects and nothing is handled. The model records this as no state change and no request.
- App.Session.FinishDetails: the plan's day objects must be distinct, as App.Materialize builds them. A plan in which one object stands for two days is not covered.
- ShoppingListModal.HandleDeleteItem requires distinct category objects, as a list parsed from JSON has.
- GeminiService.FailureMessage: the message for a `null` error body is the V8 engine's wording.
- PlanApi.ProfileSectionLines: a profile whose name or notes contain a line break spans several prompt lines. Notes come from a three-row text area (`components/ProfileManager.tsx:114`), so this happens with ordinary input. The lemma covers only profiles without line breaks.
- ShoppingListApi.MealListLines: likewise, a day label or meal name with a line break spans several lines of the meal list.
- PlanApi.RecipeSectionLines: a recipe whose name or ingredients contain a line break spans several prompt lines. Ingredients come from a three-row text area (`components/RecipeManager.tsx:66-73`) and are stored untrimmed (`components/RecipeManager.tsx:15-16`), so a list typed one ingredient per line does this. The lemma covers only recipes without line breaks. Recipes from the CSV import never contain one, because the file is split on line breaks.
- Request bodies are assumed to have the declared shape. A body that parses as JSON but lacks `profiles`, `recipes` or `menuPlan` makes the prompt builder throw a `TypeError` after the key check, so the source answers 500 with that error's message (or the key message when no key is set). The model can express only a body that fails to parse, which the handlers check before the key.
- ProfileManager.Applied: gender and activity inputs carry one of the values their selects offer. An input whose field name is not one of the form's five fields is not modelled.
- The nutritional guideline prose of the plan prompt is kept as fixed text. Nothing is proved about it.
