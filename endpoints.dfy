/**
 * The older backend client (Endpoints.kt): the same resource fetch against a
 * fixed REST address, without a registration in the path.
 */
module Endpoints {
  import opened Seqs
  import opened ModelGraph
  import opened ResourceFetch

  const REST_API: string := "http://localhost:8080"

  const CAPABILITY_BASE: string := "https://raw.githubusercontent.com/wildfly/wildfly-capabilities/master"

  function ResourceUrl(encodedAddress: string, skip: bool): string
  {
    REST_API + "/resources/resource?address=" + encodedAddress + (if skip then "&" + SKIP_GLOBAL else "")
  }

  /** The URL asks to skip global operations exactly when it was built with a filled cache. */
  lemma ResourceUrlSkipsIffCached(encodedAddress: string, cached: bool)
    requires '&' !in encodedAddress
    ensures QueryParameters(ResourceUrl(encodedAddress, cached))[0] == "address=" + encodedAddress
    ensures SKIP_GLOBAL in QueryParameters(ResourceUrl(encodedAddress, cached)) <==> cached
  {
    var base := REST_API + "/resources/resource";
    assert '?' !in base;
    assert ResourceUrl(encodedAddress, cached)
      == base + "?address=" + encodedAddress + (if cached then "&" + SKIP_GLOBAL else "");
    ResourceQuery(base, encodedAddress, cached);
    SkipIffAsked(base, encodedAddress, cached);
  }

  /**
   * `Endpoints.resource(address)`: as the dispatcher's, against `REST_API`.
   * `encodeURIComponent` and the HTTP GET come in as arguments.
   */
  method Resource(address: string, encode: string -> string, fetch: string -> Resource, globals: GlobalOperations)
    returns (r: Resource)
    requires globals.Valid()
    modifies globals
    ensures globals.Valid()
    ensures var fetched := fetch(ResourceUrl(encode(address), |old(globals.operations)| > 0));
      globals.operations == CacheAfter(old(globals.operations), fetched)
      && r == Merged(globals.operations, fetched)
  {
    var url := REST_API;
    url := url + "/resources/resource?address=";
    url := url + encode(address);
    if |globals.operations| > 0 {
      url := url + "&" + SKIP_GLOBAL;
    }
    assert url == ResourceUrl(encode(address), |globals.operations| > 0);
    var resource := fetch(url);
    if |globals.operations| == 0 && HasGlobal(resource.operations) {
      globals.operations := Filter(resource.operations, IsGlobal);
    }
    if |globals.operations| > 0 && !HasGlobal(resource.operations) {
      r := resource.(operations := resource.operations + globals.operations);
    } else {
      r := resource;
    }
  }
}
