/**
 * The query page (Query.kt): a search string sent to the backend, the
 * models found loaded into the result list, and the view state that tells
 * whether anything was found.
 */
module Query {
  import opened ModelGraph
  import opened Registrations

  /** Which of its three panels the query view shows. */
  datatype QueryState = Initial | NoResults | DataList

  /** The state a query result leads to: no results exactly when nothing was found. */
  function StateAfter(models: Models): (s: QueryState)
    ensures s != Initial
    ensures s == NoResults <==> models.All() == []
  {
    SizeZeroIffNoModels(models);
    if models.Size() == 0 then NoResults else DataList
  }

  /** The state of `QueryPresenter` and its view; the backend query comes in as a function. */
  class QueryPresenter {
    var query: string
    var items: seq<Model>
    var state: QueryState

    constructor ()
      ensures query == "" && items == [] && state == Initial
    {
      query := "";
      items := [];
      state := Initial;
    }

    /** `executeQuery`: the result list holds exactly the models found, and the state says whether there are any. */
    method ExecuteQuery(value: string, fetch: string -> Models)
      modifies this`items, this`state
      ensures items == fetch(value).All()
      ensures state == StateAfter(fetch(value))
    {
      var models := fetch(value);
      state := StateAfter(models);
      items := models.All();
    }

    /** Typing a query: an empty one is stored but never executed. */
    method UpdateQuery(value: string, fetch: string -> Models)
      modifies this
      ensures query == value
      ensures value == "" ==> items == old(items) && state == old(state)
      ensures value != "" ==> items == fetch(value).All() && state == StateAfter(fetch(value))
      ensures old(state) != Initial ==> state != Initial
    {
      query := value;
      if value != "" {
        ExecuteQuery(value, fetch);
      }
    }

    /** A new registry selection re-runs the current query, if there is a selection and a query. */
    method SelectionChanged(selection: seq<Registration>, fetch: string -> Models)
      modifies this`items, this`state
      ensures |selection| > 0 && query != "" ==> items == fetch(query).All() && state == StateAfter(fetch(query))
      ensures !(|selection| > 0 && query != "") ==> items == old(items) && state == old(state)
      ensures old(state) != Initial ==> state != Initial
    {
      if |selection| > 0 && query != "" {
        ExecuteQuery(query, fetch);
      }
    }
  }
}
