/**
 * The bootstrap task that reads the registry once at start-up (Bootstrap.kt).
 * Unlike the periodic poll it clears the selection when the backend knows no
 * registration.
 */
module Bootstrap {
  import opened Optional
  import opened Registrations

  class ReadRegistry {
    const name: string
    const registry: RegistryStore

    constructor (registry: RegistryStore)
      ensures this.registry == registry && name == "read-registry"
    {
      this.registry := registry;
      name := "read-registry";
    }

    /**
     * `execute`: loads the refreshed registrations and selects exactly one of
     * them, the previous selection if still present; with none, selects nothing.
     */
    method Execute(fetched: seq<Registration>)
      modifies registry
      ensures registry.items == Refreshed(fetched)
      ensures |registry.items| > 0 ==> registry.selection == [SelectionAfter(registry.items, old(registry.Current()))]
      ensures |registry.items| == 0 ==> registry.selection == []
      ensures registry.Valid()
    {
      var registrations := Refreshed(fetched);
      var current := FirstOrNone(registry.selection);
      registry.items := registrations;
      if |registrations| > 0 {
        registry.selection := [SelectionAfter(registrations, current)];
      } else {
        registry.selection := [];
      }
    }
  }

  /** A bootstrap refresh selects exactly one registration of the list, or clears the selection of an empty list. */
  lemma ExecuteSelectsOne(fetched: seq<Registration>, current: Option<Registration>)
    ensures var r := Refreshed(fetched);
      |r| > 0 ==> SelectionAfter(r, current) in r && SelectionAfter(r, current) in fetched
  {
    RefreshedKeepsFirst(fetched);
  }
}
