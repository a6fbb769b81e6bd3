# Alexa recipe skill: the intent dispatcher

This project models the request handler of an Alexa skill backed by a MongoDB
collection of recipes (`main.go`, `Connection.IntentDispatcher`). A request is
an intent name and a map of slot values. The handler answers with a titled
text response, or with an error:

- `GetIngredientsForRecipeIntent` looks up the recipe named by the `recipe`
  slot and answers with its ingredients joined by `", "`. An absent or empty
  slot is an error raised before any query. A name that matches no document
  is the driver's no-documents error.
- `GetRecipeFromIngredientsIntent` finds every recipe whose ingredients
  contain both `ingredientone` and `ingredienttwo` (MongoDB's `$all`; extra
  ingredients are allowed). It answers with their names run together with no
  separator. No match is a success with an empty body.
- `AboutIntent` answers with a fixed message.
- Any other name, including the empty one and names that differ only in
  case, gets the fixed "Unknown Request" answer.

Files:

- `text.dfy` (module `Text`): Go's `strings.Join` as a recursive function. Its
  length, the position of every part and every separator, and the
  append-one-part law are proved.
- `store.dfy` (module `Store`): `Recipe`, a collection held as a sequence of
  documents, and the two query shapes. `FindOne` gives the first document
  with exactly that name. `Find` with `$all` is a filter that returns the
  matches in the order the model holds the documents. A failing query or
  cursor is an input of the model: an optional fault message on the
  database handle, met by queries on any of its collections, including one
  that was never created. A cancelled or expired context is one such fault.
- `dispatcher.dfy` (module `Dispatcher`): `Dispatch`, the handler as a
  function, used as its specification. `IntentDispatcher` is the handler as
  a method, proved equal to `Dispatch` for every connection and request.
  `ListNames` is the `recipeList += recipe.Name` loop. The lemmas state
  the handler's promises.

Modelling choices:

- The handler's errors are `MissingRecipeName` (the `errors.New` at
  main.go:38), `NoDocuments` (the driver's error when a lookup finds no
  document) and `Upstream(message)` (any other driver failure).
- A recipe's ingredient list may be empty; nothing in the handler depends on
  it being non-empty.

## Model

| member | source | states |
|---|---|---|
| Text.Join | main.go:43 | the joined text's length is the parts' total length plus one separator between each pair of neighbours; no parts give "" |
| Text.JoinSnoc | main.go:43 | joining one more part appends the separator and then that part |
| Text.JoinPartAt | main.go:43 | every part appears, in order, at its offset in the joined text |
| Text.JoinSeparatorAt | main.go:43 | exactly the separator lies between each part and the next |
| Text.OffsetEnd | main.go:43 | the last part ends where the joined text ends, so nothing follows it |
| Store.FirstNamed | main.go:40 | finds the first document whose name equals the key exactly, or reports that no document has that name |
| Store.FindOne | main.go:40-41 | a query fault is returned as it is; otherwise a document with exactly that name, or NoDocuments exactly when no document has the name |
| Store.MatchAll | main.go:49 | a document is in the result if and only if it is stored and its ingredients contain both values |
| Store.Find | main.go:49-55 | the query fault, else the cursor fault, passed on unchanged; else exactly the stored documents holding both values |
| Store.MatchAllAppend | main.go:49-53 | filtering a concatenation filters each part in turn |
| Store.MatchAllSymmetric | main.go:49 | `$all` gives the same result whichever of the two values comes first |
| Store.MatchAllNone | main.go:49-60 | when no stored document holds both values the result is empty |
| Dispatcher.Slot | main.go:36 | a slot reads as empty exactly when it is absent or holds the empty string, so the two cannot be told apart; otherwise it reads as its value |
| Dispatcher.ListNames | main.go:56-59 | the accumulated list is strings.Join of the result's names with an empty separator |
| Dispatcher.IntentDispatcher | main.go:30-67 | the handler returns exactly what Dispatch specifies, for every connection and request |
| Dispatcher.ConcatNamesIsJoin | main.go:56-59 | the names run together are the names joined with the empty separator |
| Dispatcher.ConcatNamesAmbiguous | main.go:56-60 | two different lists of names give the same body, so the body does not determine the matches |
| Dispatcher.UnknownIntentIsDefault | main.go:63-64 | every name outside the three intents gets "Unknown Request" / "The intent was unrecognized" and no error |
| Dispatcher.EmptyAndCaseVariantsAreUnknown | main.go:32-64 | the empty name and names differing only in case get the default answer |
| Dispatcher.AboutIsFixed | main.go:61-62 | AboutIntent answers "About" / "Created by Nic Raboy in Tracy, CA" whatever the slots |
| Dispatcher.MissingRecipeNameIsRejected | main.go:36-39 | the missing-name error occurs if and only if the intent is the ingredients lookup and the `recipe` slot is absent or empty |
| Dispatcher.NoQueryWithoutStoreBackedCase | main.go:30-67 | for AboutIntent, unknown intents and a lookup without a name, the answer is the same for every connection, even one whose queries fail |
| Dispatcher.IngredientsOfStoredRecipe | main.go:40-43 | a lookup of a stored name answers "Ingredients" with the first such recipe's ingredients joined by ", " in stored order |
| Dispatcher.UnknownRecipeIsNotFound | main.go:40-41 | a lookup of a name no document has fails with NoDocuments |
| Dispatcher.SearchListsMatchingNames | main.go:47-60 | the search answers "Recipes" with the names, joined by the empty separator, of exactly the stored recipes holding both slot values |
| Dispatcher.EmptySearchSucceeds | main.go:56-60 | a search with no match succeeds with an empty body |
| Dispatcher.QueryFailurePropagates | main.go:40-52 | a failing query fails every case that queries the store, with the driver's message unchanged |
| Dispatcher.CursorFailurePropagates | main.go:53-55 | a cursor failure fails the search with its message unchanged |
| Dispatcher.ErrorsOnlyFromStoreBackedIntents | main.go:30-67 | errors arise only in the two store-backed intents; NoDocuments only from the lookup; driver errors carry the collection's fault message |
| Dispatcher.AbsentCollectionReadsEmpty | main.go:35-60 | when "recipes" was never created and nothing fails, a lookup with a name gives NoDocuments and a search succeeds with an empty body |
| Dispatcher.CookiesExample | main.go:40-43 | a stored "chocolate chip cookies" with flour, egg, sugar, chocolate is answered "flour, egg, sugar, chocolate" |
| Dispatcher.SupersetExample | main.go:47-60 | with A = egg, flour, sugar and B = egg, a search for egg and flour answers "A" |

The rows reach four definitions through the members that use them:
`Dispatcher.Dispatch` (main.go:30-67) is the handler as a function and is
stated by `IntentDispatcher` and the lemmas about it; `Dispatcher.ConcatNames`
(main.go:56-59) is stated by `ListNames` and `ConcatNamesIsJoin`;
`Store.ContainsAll` (main.go:49) is the `$all` test used in `MatchAll`'s
contract; `Store.CollectionNamed` (main.go:35) is the collection handle, whose
behaviour for a missing collection `AbsentCollectionReadsEmpty` states.

## Left out

- `main` (main.go:69-85): reading `ATLAS_URI`, connecting with a 10-second timeout, `Disconnect` and `lambda.Start`. These are environment, network and hosting calls. Startup is fatal on failure and there is nothing more to state.
- The MongoDB driver: BSON encoding of the filters, `Cursor.All` decoding, the wire protocol. Only the meaning of the two query shapes is modelled. A document that fails to decode is not modelled.
- Store.FindOne: MongoDB promises only "some" matching document. The model picks the first in natural order, which is the same document whenever names are unique.
- Store.Find: the query has no sort, so MongoDB promises no order for its results. The model returns the matches in the order it holds the documents, so the order of names in the search body is one possible order among several.
- Context cancellation and deadlines are not modelled as timing. A cancelled context appears only as a query fault, which the dispatcher passes on.
- `Recipe.Id` (an ObjectID): the dispatcher never reads it.
- The full `alexa.Response`: only its title and text are modelled. On an error the code also returns an empty `alexa.Response{}`; the model returns only the error.
- The text of the error values ("Recipe name is not present in the request", the driver's messages). Each is a distinct constructor; a driver message is carried as an opaque string.
- Concurrent invocations sharing one connection: the connection is an immutable value here, and nothing in the handler writes to it.
