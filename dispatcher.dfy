/**
 * Connection.IntentDispatcher (main.go:30-67): one Alexa request, made of an
 * intent name and its slots, becomes a titled text response or an error.
 * Dispatch is the specification as a function; IntentDispatcher is the
 * handler itself, with the name-accumulating loop of the ingredient search.
 */
module Dispatcher {
  import opened Text
  import opened Store

  /** The part of an Alexa request the dispatcher reads: intent name and slot values. */
  datatype Request = Request(intent: string, slots: map<string, string>)

  /** The part of an Alexa simple response the dispatcher sets: title and text. */
  datatype Response = Response(title: string, body: string)

  /** The shared handle to the "alexa" database (main.go:20-22). */
  datatype Connection = Connection(database: Database)

  const GetIngredientsForRecipeIntent := "GetIngredientsForRecipeIntent"
  const GetRecipeFromIngredientsIntent := "GetRecipeFromIngredientsIntent"
  const AboutIntent := "AboutIntent"

  const AboutResponse := Response("About", "Created by Nic Raboy in Tracy, CA")
  const UnknownResponse := Response("Unknown Request", "The intent was unrecognized")

  predicate IsKnownIntent(name: string)
  {
    name == GetIngredientsForRecipeIntent || name == GetRecipeFromIngredientsIntent || name == AboutIntent
  }

  /** A slot's value; an absent slot reads as Go's zero value, the empty string. */
  function Slot(request: Request, key: string): (v: string)
    ensures v == "" <==> key !in request.slots || request.slots[key] == ""
    ensures v != "" ==> key in request.slots && request.slots[key] == v
  {
    if key in request.slots then request.slots[key] else ""
  }

  /** The collection both store-backed intents query. */
  function Recipes(connection: Connection): Collection
  {
    CollectionNamed(connection.database, "recipes")
  }

  function Names(recipes: seq<Recipe>): seq<string>
  {
    seq(|recipes|, i requires 0 <= i < |recipes| => recipes[i].name)
  }

  /** The recipe names one after another, with nothing between them. */
  function ConcatNames(recipes: seq<Recipe>): string
  {
    if |recipes| == 0 then "" else ConcatNames(recipes[..|recipes| - 1]) + recipes[|recipes| - 1].name
  }

  /** The specification of the handler: what IntentDispatcher returns for each request. */
  function Dispatch(connection: Connection, request: Request): Result<Response>
  {
    match request.intent
    case "GetIngredientsForRecipeIntent" =>
      var recipeName := Slot(request, "recipe");
      if recipeName == "" then Err(MissingRecipeName)
      else
        (match FindOne(Recipes(connection), recipeName)
         case Err(e) => Err(e)
         case Ok(recipe) => Ok(Response("Ingredients", Join(recipe.ingredients, ", "))))
    case "GetRecipeFromIngredientsIntent" =>
      (match Find(Recipes(connection), Slot(request, "ingredientone"), Slot(request, "ingredienttwo"))
       case Err(e) => Err(e)
       case Ok(recipes) => Ok(Response("Recipes", ConcatNames(recipes))))
    case "AboutIntent" => Ok(AboutResponse)
    case _ => Ok(UnknownResponse)
  }

  /** The `for ... range` loop of the ingredient search: `recipeList += recipe.Name`. */
  method ListNames(recipes: seq<Recipe>) returns (recipeList: string)
    ensures recipeList == Join(Names(recipes), "")
  {
    recipeList := "";
    for i := 0 to |recipes|
      invariant recipeList == ConcatNames(recipes[..i])
    {
      assert recipes[..i + 1][..i] == recipes[..i];
      recipeList := recipeList + recipes[i].name;
    }
    assert recipes[..|recipes|] == recipes;
    ConcatNamesIsJoin(recipes);
  }

  /** The handler: exactly what Dispatch specifies, for every connection and request. */
  method IntentDispatcher(connection: Connection, request: Request) returns (result: Result<Response>)
    ensures result == Dispatch(connection, request)
  {
    match request.intent {
      case "GetIngredientsForRecipeIntent" =>
        var recipesCollection := Recipes(connection);
        var recipeName := Slot(request, "recipe");
        if recipeName == "" {
          return Err(MissingRecipeName);
        }
        var found := FindOne(recipesCollection, recipeName);
        if found.Err? {
          return Err(found.error);
        }
        result := Ok(Response("Ingredients", Join(found.value.ingredients, ", ")));
      case "GetRecipeFromIngredientsIntent" =>
        var recipesCollection := Recipes(connection);
        var ingredient1 := Slot(request, "ingredientone");
        var ingredient2 := Slot(request, "ingredienttwo");
        var recipes := Find(recipesCollection, ingredient1, ingredient2);
        if recipes.Err? {
          return Err(recipes.error);
        }
        var recipeList := ListNames(recipes.value);
        ConcatNamesIsJoin(recipes.value);
        result := Ok(Response("Recipes", recipeList));
      case "AboutIntent" =>
        result := Ok(AboutResponse);
      case _ =>
        result := Ok(UnknownResponse);
    }
  }

  // ----- the name concatenation -----

  /** Concatenating names is strings.Join with an empty separator. */
  lemma {:induction false} ConcatNamesIsJoin(recipes: seq<Recipe>)
    ensures ConcatNames(recipes) == Join(Names(recipes), "")
  {
    if |recipes| > 1 {
      var init := recipes[..|recipes| - 1];
      ConcatNamesIsJoin(init);
      assert Names(recipes) == Names(init) + [recipes[|recipes| - 1].name];
      JoinSnoc(Names(init), recipes[|recipes| - 1].name, "");
    } else if |recipes| == 1 {
      assert recipes[..0] == [];
      assert Names(recipes) == [recipes[0].name];
    }
  }

  /**
   * With no separator the body does not determine the names: two different
   * result lists give the same text.
   */
  lemma ConcatNamesAmbiguous()
    ensures var one := [Recipe("A", []), Recipe("BC", [])];
            var two := [Recipe("AB", []), Recipe("C", [])];
            Names(one) != Names(two) && ConcatNames(one) == ConcatNames(two)
  {
    assert Names([Recipe("A", []), Recipe("BC", [])])[0] == "A";
  }

  // ----- properties of the dispatch -----

  /** Any name outside the three known intents gets the safe default, never an error. */
  lemma UnknownIntentIsDefault(connection: Connection, request: Request)
    requires !IsKnownIntent(request.intent)
    ensures Dispatch(connection, request) == Ok(UnknownResponse)
  {
  }

  /** The match on the name is exact: the empty name and a name differing only in case are unknown. */
  lemma EmptyAndCaseVariantsAreUnknown(connection: Connection, slots: map<string, string>)
    ensures Dispatch(connection, Request("", slots)) == Ok(UnknownResponse)
    ensures Dispatch(connection, Request("aboutintent", slots)) == Ok(UnknownResponse)
    ensures Dispatch(connection, Request("getingredientsforrecipeintent", slots)) == Ok(UnknownResponse)
  {
  }

  /** AboutIntent always answers with the fixed message, whatever the slots. */
  lemma AboutIsFixed(connection: Connection, slots: map<string, string>)
    ensures Dispatch(connection, Request(AboutIntent, slots)) == Ok(AboutResponse)
  {
  }

  /**
   * A missing or empty `recipe` slot is the one input error, and only the
   * ingredients lookup raises it.
   */
  lemma MissingRecipeNameIsRejected(connection: Connection, request: Request)
    ensures Dispatch(connection, request) == Err(MissingRecipeName) <==>
              request.intent == GetIngredientsForRecipeIntent && Slot(request, "recipe") == ""
  {
  }

  /**
   * The store is not consulted for AboutIntent, for unknown intents, or for a
   * lookup without a recipe name: the answer is the same for every connection,
   * including one whose queries would fail.
   */
  lemma NoQueryWithoutStoreBackedCase(c1: Connection, c2: Connection, request: Request)
    requires request.intent != GetRecipeFromIngredientsIntent
    requires request.intent == GetIngredientsForRecipeIntent ==> Slot(request, "recipe") == ""
    ensures Dispatch(c1, request) == Dispatch(c2, request)
  {
  }

  /**
   * A lookup whose name is stored answers with that recipe's ingredients
   * joined by ", " in stored order (the first such document when names repeat).
   */
  lemma IngredientsOfStoredRecipe(connection: Connection, request: Request, i: nat)
    requires request.intent == GetIngredientsForRecipeIntent
    requires Slot(request, "recipe") != ""
    requires Recipes(connection).queryFault.None?
    requires i < |Recipes(connection).documents|
    requires Recipes(connection).documents[i].name == Slot(request, "recipe")
    requires forall j :: 0 <= j < i ==> Recipes(connection).documents[j].name != Slot(request, "recipe")
    ensures Dispatch(connection, request)
         == Ok(Response("Ingredients", Join(Recipes(connection).documents[i].ingredients, ", ")))
  {
  }

  /** A lookup whose name matches no document fails with the driver's no-documents error. */
  lemma UnknownRecipeIsNotFound(connection: Connection, request: Request)
    requires request.intent == GetIngredientsForRecipeIntent
    requires Slot(request, "recipe") != ""
    requires Recipes(connection).queryFault.None?
    requires forall d :: d in Recipes(connection).documents ==> d.name != Slot(request, "recipe")
    ensures Dispatch(connection, request) == Err(NoDocuments)
  {
  }

  /**
   * The search answers with the names, run together without a separator, of
   * exactly the documents holding both ingredients, in natural order.
   */
  lemma SearchListsMatchingNames(connection: Connection, request: Request)
    requires request.intent == GetRecipeFromIngredientsIntent
    requires Recipes(connection).queryFault.None? && Recipes(connection).cursorFault.None?
    ensures var matches := MatchAll(Recipes(connection).documents,
                                    Slot(request, "ingredientone"), Slot(request, "ingredienttwo"));
            && (forall d :: d in matches <==>
                  d in Recipes(connection).documents
                  && Slot(request, "ingredientone") in d.ingredients
                  && Slot(request, "ingredienttwo") in d.ingredients)
            && Dispatch(connection, request) == Ok(Response("Recipes", Join(Names(matches), "")))
  {
    ConcatNamesIsJoin(MatchAll(Recipes(connection).documents,
                               Slot(request, "ingredientone"), Slot(request, "ingredienttwo")));
  }

  /** A search that matches nothing succeeds with an empty body; it is not an error. */
  lemma EmptySearchSucceeds(connection: Connection, request: Request)
    requires request.intent == GetRecipeFromIngredientsIntent
    requires Recipes(connection).queryFault.None? && Recipes(connection).cursorFault.None?
    requires forall d :: d in Recipes(connection).documents ==>
               !ContainsAll(d, Slot(request, "ingredientone"), Slot(request, "ingredienttwo"))
    ensures Dispatch(connection, request) == Ok(Response("Recipes", ""))
  {
    MatchAllNone(Recipes(connection).documents, Slot(request, "ingredientone"), Slot(request, "ingredienttwo"));
  }

  /**
   * A failing query, for instance one whose context was cancelled, fails
   * every intent that queries the store, with the driver's error unchanged.
   */
  lemma QueryFailurePropagates(connection: Connection, request: Request)
    requires Recipes(connection).queryFault.Some?
    requires || request.intent == GetRecipeFromIngredientsIntent
             || (request.intent == GetIngredientsForRecipeIntent && Slot(request, "recipe") != "")
    ensures Dispatch(connection, request) == Err(Upstream(Recipes(connection).queryFault.value))
  {
  }

  /** A cursor that fails while reading the search results fails the search with its error. */
  lemma CursorFailurePropagates(connection: Connection, request: Request)
    requires request.intent == GetRecipeFromIngredientsIntent
    requires Recipes(connection).queryFault.None? && Recipes(connection).cursorFault.Some?
    ensures Dispatch(connection, request) == Err(Upstream(Recipes(connection).cursorFault.value))
  {
  }

  /**
   * Errors come only from the two store-backed intents: the missing name, the
   * lookup that finds nothing, or a driver failure passed on as it was.
   */
  lemma ErrorsOnlyFromStoreBackedIntents(connection: Connection, request: Request)
    requires Dispatch(connection, request).Err?
    ensures request.intent == GetIngredientsForRecipeIntent
         || request.intent == GetRecipeFromIngredientsIntent
    ensures Dispatch(connection, request).error == NoDocuments ==>
              request.intent == GetIngredientsForRecipeIntent
    ensures Dispatch(connection, request).error.Upstream? ==>
              || Recipes(connection).queryFault == Some(Dispatch(connection, request).error.message)
              || (&& request.intent == GetRecipeFromIngredientsIntent
                  && Recipes(connection).cursorFault == Some(Dispatch(connection, request).error.message))
  {
  }

  /**
   * A database that never created "recipes" answers as an empty collection:
   * a lookup with a name finds nothing and a search succeeds with no names,
   * unless the query or cursor itself fails.
   */
  lemma AbsentCollectionReadsEmpty(connection: Connection, request: Request)
    requires "recipes" !in connection.database.collections
    requires connection.database.queryFault.None? && connection.database.cursorFault.None?
    ensures request.intent == GetIngredientsForRecipeIntent && Slot(request, "recipe") != "" ==>
              Dispatch(connection, request) == Err(NoDocuments)
    ensures request.intent == GetRecipeFromIngredientsIntent ==>
              Dispatch(connection, request) == Ok(Response("Recipes", ""))
  {
  }

  /** A stored "chocolate chip cookies" recipe is read back as its comma-separated ingredients. */
  lemma CookiesExample(connection: Connection, request: Request)
    requires connection.database == Database(
               map["recipes" := [Recipe("chocolate chip cookies", ["flour", "egg", "sugar", "chocolate"])]], None, None)
    requires request == Request(GetIngredientsForRecipeIntent, map["recipe" := "chocolate chip cookies"])
    ensures Dispatch(connection, request) == Ok(Response("Ingredients", "flour, egg, sugar, chocolate"))
  {
    CookiesIngredientsJoined();
    IngredientsOfStoredRecipe(connection, request, 0);
  }

  /**
   * The joined text of the example. The literal is built up one append at a
   * time: comparing the whole concatenation with the 28-character literal in
   * one step costs the solver several times as much.
   */
  lemma CookiesIngredientsJoined()
    ensures Join(["flour", "egg", "sugar", "chocolate"], ", ") == "flour, egg, sugar, chocolate"
  {
    JoinFour("flour", "egg", "sugar", "chocolate", ", ");
    assert "flour" + ", " == "flour, ";
    assert "flour, " + "egg" == "flour, egg";
    assert "flour, egg" + ", " == "flour, egg, ";
    assert "flour, egg, " + "sugar" == "flour, egg, sugar";
    assert "flour, egg, sugar" + ", " == "flour, egg, sugar, ";
    assert "flour, egg, sugar, " + "chocolate" == "flour, egg, sugar, chocolate";
  }

  /** Extra ingredients are allowed, a missing one is not: only A holds both egg and flour. */
  lemma SupersetExample()
    ensures var a := Recipe("A", ["egg", "flour", "sugar"]);
            var b := Recipe("B", ["egg"]);
            var connection := Connection(Database(map["recipes" := [a, b]], None, None));
            var request := Request(GetRecipeFromIngredientsIntent,
                                   map["ingredientone" := "egg", "ingredienttwo" := "flour"]);
            Dispatch(connection, request) == Ok(Response("Recipes", "A"))
  {
    var a := Recipe("A", ["egg", "flour", "sugar"]);
    var b := Recipe("B", ["egg"]);
    assert ContainsAll(a, "egg", "flour");
    assert !ContainsAll(b, "egg", "flour");
    assert [a, b][1..] == [b];
    var connection := Connection(Database(map["recipes" := [a, b]], None, None));
    var request := Request(GetRecipeFromIngredientsIntent,
                           map["ingredientone" := "egg", "ingredienttwo" := "flour"]);
    assert Recipes(connection) == Collection([a, b], None, None);
    assert MatchAll([a, b], "egg", "flour") == [a];
    assert [a][..0] == [];
    assert ConcatNames([a]) == "A";
  }
}
