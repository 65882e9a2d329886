/**
 * The backend client of the browser (Dispatcher.kt), reduced to its resource
 * fetch: the request URL and the global-operations cache.
 */
module Dispatcher {
  import opened Seqs
  import opened ModelGraph
  import opened ResourceFetch

  const CAPABILITY_BASE: string := "https://raw.githubusercontent.com/wildfly/wildfly-capabilities/master"

  /** The resource URL of the registration `identifier`, asking to skip global operations when `skip` holds. */
  function ResourceUrl(endpoint: string, identifier: string, encodedAddress: string, skip: bool): string
  {
    endpoint + "/resources/resource/" + identifier + "?address=" + encodedAddress + (if skip then "&" + SKIP_GLOBAL else "")
  }

  /** The URL asks to skip global operations exactly when it was built with a filled cache. */
  lemma ResourceUrlSkipsIffCached(endpoint: string, identifier: string, encodedAddress: string, cached: bool)
    requires '?' !in endpoint && '?' !in identifier && '&' !in encodedAddress
    ensures QueryParameters(ResourceUrl(endpoint, identifier, encodedAddress, cached))[0] == "address=" + encodedAddress
    ensures SKIP_GLOBAL in QueryParameters(ResourceUrl(endpoint, identifier, encodedAddress, cached)) <==> cached
  {
    var base := endpoint + "/resources/resource/" + identifier;
    assert '?' !in base by {
      assert base == endpoint + ("/resources/resource/" + identifier);
      assert '?' !in "/resources/resource/" + identifier;
    }
    assert ResourceUrl(endpoint, identifier, encodedAddress, cached)
      == base + "?address=" + encodedAddress + (if cached then "&" + SKIP_GLOBAL else "");
    ResourceQuery(base, encodedAddress, cached);
    SkipIffAsked(base, encodedAddress, cached);
  }

  /**
   * The dispatcher, with the backend endpoint it was configured with. The active
   * registration, `encodeURIComponent` and the HTTP GET come in as arguments.
   */
  class Dispatcher {
    const endpoint: string

    constructor (endpoint: string)
      ensures this.endpoint == endpoint
    {
      this.endpoint := endpoint;
    }

    /**
     * `resource(address)`: fetches the resource, fills the empty cache from it
     * and hands back the resource with the cached operations merged in.
     */
    method Resource(address: string, identifier: string, encode: string -> string, fetch: string -> Resource,
                    globals: GlobalOperations) returns (r: Resource)
      requires globals.Valid()
      modifies globals
      ensures globals.Valid()
      ensures var fetched := fetch(ResourceUrl(endpoint, identifier, encode(address), |old(globals.operations)| > 0));
        globals.operations == CacheAfter(old(globals.operations), fetched)
        && r == Merged(globals.operations, fetched)
    {
      var url := endpoint;
      url := url + "/resources/resource/";
      url := url + identifier;
      url := url + "?address=";
      url := url + encode(address);
      if |globals.operations| > 0 {
        url := url + "&" + SKIP_GLOBAL;
      }
      assert url == ResourceUrl(endpoint, identifier, encode(address), |globals.operations| > 0);
      var resource := fetch(url);
      if |globals.operations| == 0 && HasGlobal(resource.operations) {
        globals.operations := Filter(resource.operations, IsGlobal);
      }
      if |globals.operations| > 0 && !HasGlobal(resource.operations) {
        r := resource.(operations := resource.operations + globals.operations);
      } else {
        r := resource;
      }
    }
  }
}
