/**
 * The recipes collection as the dispatcher sees it (main.go:24-28, 35, 40, 46, 49, 53).
 * The MongoDB driver is not modelled; only the meaning of the two query shapes
 * the dispatcher issues is: an exact match on `name` (FindOne) and `$all`
 * containment on `ingredients` (Find followed by Cursor.All). A failing query
 * or cursor is an input of the model, not something it decides.
 */
module Store {

  datatype Option<+T> = None | Some(value: T)

  /** A recipe document: its name and its ingredients in stored order. */
  datatype Recipe = Recipe(name: string, ingredients: seq<string>)

  /**
   * One collection handle: its documents in natural order, and the failures the
   * driver would report for queries on it (a query that fails to run, including one whose
   * context was cancelled; a cursor that fails while decoding its results).
   */
  datatype Collection = Collection(
    documents: seq<Recipe>,
    queryFault: Option<string>,
    cursorFault: Option<string>)

  /** The failures the dispatcher can return. */
  datatype Error =
    | MissingRecipeName      // the errors.New at main.go:38
    | NoDocuments            // the driver's "no documents in result" from FindOne
    | Upstream(message: string)  // any other driver failure, passed on unchanged

  datatype Result<+T> = Ok(value: T) | Err(error: Error)

  /**
   * A database handle: the documents of each collection by name, and the
   * failures its queries and cursors meet (the network, a cancelled context),
   * whatever collection they address.
   */
  datatype Database = Database(
    collections: map<string, seq<Recipe>>,
    queryFault: Option<string>,
    cursorFault: Option<string>)

  /**
   * Database.Collection(name): a collection that was never created has no
   * documents, and its queries can fail like any other.
   */
  function CollectionNamed(db: Database, name: string): Collection
  {
    Collection(if name in db.collections then db.collections[name] else [], db.queryFault, db.cursorFault)
  }

  /** The position of the first document named `name`, if any. */
  function FirstNamed(docs: seq<Recipe>, name: string): (r: Option<nat>)
    ensures r.Some? ==> r.value < |docs| && docs[r.value].name == name
    ensures r.Some? ==> forall j :: 0 <= j < r.value ==> docs[j].name != name
    ensures r.None? ==> forall j :: 0 <= j < |docs| ==> docs[j].name != name
  {
    if |docs| == 0 then None
    else if docs[0].name == name then Some(0)
    else match FirstNamed(docs[1..], name)
      case None => None
      case Some(i) => Some(i + 1)
  }

  /**
   * FindOne({name: name}).Decode(&recipe): the query's own failure first; then
   * the first document whose name equals `name` exactly, or NoDocuments.
   */
  function FindOne(c: Collection, name: string): (r: Result<Recipe>)
    ensures r.Ok? ==> r.value in c.documents && r.value.name == name
    ensures r == Err(NoDocuments) <==>
              c.queryFault.None? && forall d :: d in c.documents ==> d.name != name
    ensures c.queryFault.Some? ==> r == Err(Upstream(c.queryFault.value))
    ensures c.queryFault.None? ==> r.Ok? || r == Err(NoDocuments)
  {
    if c.queryFault.Some? then Err(Upstream(c.queryFault.value))
    else match FirstNamed(c.documents, name)
      case None => Err(NoDocuments)
      case Some(i) => Ok(c.documents[i])
  }

  /** The `$all` test: the document's ingredients contain both values, others allowed. */
  predicate ContainsAll(r: Recipe, a: string, b: string)
  {
    a in r.ingredients && b in r.ingredients
  }

  /** The documents matching `{ingredients: {$all: [a, b]}}`, in natural order. */
  function MatchAll(docs: seq<Recipe>, a: string, b: string): (r: seq<Recipe>)
    ensures |r| <= |docs|
    ensures forall d :: d in r <==> d in docs && ContainsAll(d, a, b)
  {
    if |docs| == 0 then []
    else if ContainsAll(docs[0], a, b) then [docs[0]] + MatchAll(docs[1..], a, b)
    else MatchAll(docs[1..], a, b)
  }

  /**
   * Find(filter) then Cursor.All(&recipes): the query's failure, else the
   * cursor's failure, else every matching document.
   */
  function Find(c: Collection, a: string, b: string): (r: Result<seq<Recipe>>)
    ensures r.Ok? <==> c.queryFault.None? && c.cursorFault.None?
    ensures r.Ok? ==> forall d :: d in r.value <==> d in c.documents && ContainsAll(d, a, b)
    ensures r.Err? ==> r.error == Upstream(if c.queryFault.Some? then c.queryFault.value
                                           else c.cursorFault.value)
  {
    if c.queryFault.Some? then Err(Upstream(c.queryFault.value))
    else if c.cursorFault.Some? then Err(Upstream(c.cursorFault.value))
    else Ok(MatchAll(c.documents, a, b))
  }

  /** The filter keeps natural order: matching a concatenation matches each part in turn. */
  lemma {:induction false} MatchAllAppend(xs: seq<Recipe>, ys: seq<Recipe>, a: string, b: string)
    ensures MatchAll(xs + ys, a, b) == MatchAll(xs, a, b) + MatchAll(ys, a, b)
  {
    if |xs| > 0 {
      assert (xs + ys)[0] == xs[0];
      assert (xs + ys)[1..] == xs[1..] + ys;
      MatchAllAppend(xs[1..], ys, a, b);
    } else {
      assert xs + ys == ys;
    }
  }

  /** `$all` does not care in which order the two values are given. */
  lemma {:induction false} MatchAllSymmetric(docs: seq<Recipe>, a: string, b: string)
    ensures MatchAll(docs, a, b) == MatchAll(docs, b, a)
  {
    if |docs| > 0 {
      MatchAllSymmetric(docs[1..], a, b);
    }
  }

  /** When no document holds both values the search result is empty. */
  lemma {:induction false} MatchAllNone(docs: seq<Recipe>, a: string, b: string)
    requires forall d :: d in docs ==> !ContainsAll(d, a, b)
    ensures MatchAll(docs, a, b) == []
  {
    if |docs| > 0 {
      assert docs[0] in docs;
      MatchAllNone(docs[1..], a, b);
    }
  }
}
