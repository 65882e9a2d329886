/**
 * The URL-addressable places of the browser (Places.kt): a place request is a
 * token naming the page plus a map of string parameters.
 */
module Places {

  const BROWSE: string := "browse"
  const HOME: string := "home"
  const QUERY: string := "query"

  datatype PlaceRequest = PlaceRequest(token: string, params: map<string, string>)

  /** Kotlin's `mapOf(pairs)`: every pair becomes an entry, a later pair overriding an earlier one; each key maps to its last pair's value. */
  function ParamsOf(pairs: seq<(string, string)>): (m: map<string, string>)
    ensures m.Keys == set p | p in pairs :: p.0
    ensures |pairs| > 0 ==> m[pairs[|pairs| - 1].0] == pairs[|pairs| - 1].1
    ensures forall i ::
      0 <= i < |pairs| && (forall j :: i < j < |pairs| ==> pairs[j].0 != pairs[i].0)
      ==> m[pairs[i].0] == pairs[i].1
  {
    if |pairs| == 0 then map[]
    else
      var init := pairs[..|pairs| - 1];
      var last := pairs[|pairs| - 1];
      assert pairs == init + [last];
      assert forall i :: 0 <= i < |init| ==> init[i] == pairs[i];
      ParamsOf(init)[last.0 := last.1]
  }

  /** fritz2's `placeRequest(token, pairs...)`. */
  function PlaceRequestOf(token: string, pairs: seq<(string, string)>): PlaceRequest
  {
    PlaceRequest(token, ParamsOf(pairs))
  }

  lemma ParamsOfTwo(k1: string, v1: string, k2: string, v2: string)
    requires k1 != k2
    ensures ParamsOf([(k1, v1), (k2, v2)]) == map[k1 := v1, k2 := v2]
  {
    assert [(k1, v1), (k2, v2)][..1] == [(k1, v1)];
    assert [(k1, v1)][..0] == [];
  }

  /** A link to attribute `attribute` of the resource at `address`. */
  function BrowseAttribute(address: string, attribute: string): (r: PlaceRequest)
    ensures r.token == BROWSE
    ensures r.params == map["address" := address, "attribute" := attribute]
  {
    ParamsOfTwo("address", address, "attribute", attribute);
    PlaceRequestOf(BROWSE, [("address", address), ("attribute", attribute)])
  }

  /** A link to a capability; it names no address. */
  function BrowseCapability(capability: string): (r: PlaceRequest)
    ensures r.token == BROWSE
    ensures r.params == map["capability" := capability]
  {
    assert [("capability", capability)][..0] == [];
    PlaceRequestOf(BROWSE, [("capability", capability)])
  }

  /** A link to operation `operation` of the resource at `address`. */
  function BrowseOperation(address: string, operation: string): (r: PlaceRequest)
    ensures r.token == BROWSE
    ensures r.params == map["address" := address, "operation" := operation]
  {
    ParamsOfTwo("address", address, "operation", operation);
    PlaceRequestOf(BROWSE, [("address", address), ("operation", operation)])
  }

  /** A link to the resource at `address`. */
  function BrowseResource(address: string): (r: PlaceRequest)
    ensures r.token == BROWSE
    ensures r.params == map["address" := address]
  {
    assert [("address", address)][..0] == [];
    PlaceRequestOf(BROWSE, [("address", address)])
  }
}
