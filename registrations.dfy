/**
 * The registry of WildFly versions (Registration.kt): the registrations the
 * backend knows, refreshed in descending identifier order, and the rule that
 * keeps or moves the single selection.
 */
module Registrations {
  import opened Optional
  import opened Strings
  import opened Seqs

  datatype Registration = Registration(
    identifier: string,
    productName: string,
    productVersion: string,
    managementVersion: string,
    modelServiceUri: string,
    neo4jBrowserUri: string,
    neo4jBoltUri: string)
  {
    /** `productName productVersion`. */
    function ToString(): string
    {
      productName + " " + productVersion
    }
  }

  /**
   * A version without blanks is the text after the last blank of the display
   * string, and the product name, blanks and all (`WildFly Full`), the text before it.
   */
  lemma RegistrationToStringReadBack(r: Registration)
    requires ' ' !in r.productVersion
    ensures SubstringBeforeLast(r.ToString(), ' ') == r.productName
    ensures SubstringAfterLast(r.ToString(), ' ') == r.productVersion
  {
    SubstringsOfGluedLast(r.productName, ' ', r.productVersion);
  }

  function Identifier(r: Registration): string { r.identifier }

  /**
   * The refreshed registry: the first registration of each identifier, ordered
   * by identifier with the greatest first.
   */
  function Refreshed(fetched: seq<Registration>): seq<Registration>
  {
    Reverse(SortBy(DistinctBy(fetched, Identifier), Identifier))
  }

  /** The refreshed list is a permutation of the de-duplicated one. */
  lemma RefreshedPermutation(fetched: seq<Registration>)
    ensures multiset(Refreshed(fetched)) == multiset(DistinctBy(fetched, Identifier))
  {
  }

  /** The refreshed list is in strictly descending identifier order (so no identifier occurs twice). */
  lemma RefreshedDescending(fetched: seq<Registration>)
    ensures var r := Refreshed(fetched);
      forall i, j :: 0 <= i < j < |r| ==> Less(r[j].identifier, r[i].identifier)
  {
    var d := DistinctBy(fetched, Identifier);
    var sorted := SortBy(d, Identifier);
    DistinctKeysPermutation(d, sorted, Identifier);
    SortedDistinctStrict(sorted, Identifier);
    ReverseStrict(sorted, Identifier);
  }

  /** The refreshed list holds fetched registrations only, among them the first of every identifier. */
  lemma RefreshedKeepsFirst(fetched: seq<Registration>)
    ensures var r := Refreshed(fetched);
      (forall x :: x in r ==> x in fetched)
      && forall i :: 0 <= i < |fetched| && (forall j :: 0 <= j < i ==> fetched[j].identifier != fetched[i].identifier)
           ==> fetched[i] in r
  {
    var d := DistinctBy(fetched, Identifier);
    var r := Refreshed(fetched);
    RefreshedPermutation(fetched);
    forall x | x in r ensures x in fetched {
      assert x in multiset(r);
      assert x in d;
    }
    forall i | 0 <= i < |fetched| && (forall j :: 0 <= j < i ==> fetched[j].identifier != fetched[i].identifier)
      ensures fetched[i] in r
    {
      assert fetched[i] in d;
      assert fetched[i] in multiset(r);
    }
  }

  /** Every fetched identifier is represented in the refreshed list. */
  lemma RefreshedIdentifiers(fetched: seq<Registration>)
    ensures (set x | x in Refreshed(fetched) :: x.identifier) == (set y | y in fetched :: y.identifier)
  {
    var d := DistinctBy(fetched, Identifier);
    var r := Refreshed(fetched);
    RefreshedPermutation(fetched);
    forall x ensures x in r <==> x in d {
      assert x in r <==> x in multiset(r);
    }
    assert (set x | x in r :: x.identifier) == KeySet(r, Identifier) == KeySet(d, Identifier);
  }

  /**
   * The registration to select after a refresh to `registrations`: the
   * previous selection when it is still there, otherwise the first one.
   */
  function SelectionAfter(registrations: seq<Registration>, current: Option<Registration>): (s: Registration)
    requires |registrations| > 0
    ensures s in registrations
    ensures current.Some? && current.value in registrations ==> s == current.value
    ensures !(current.Some? && current.value in registrations) ==> s == registrations[0]
  {
    if current.Some? && current.value in registrations then current.value else registrations[0]
  }

  /** Kotlin's `firstOrNull()`. */
  function FirstOrNone<T>(s: seq<T>): (r: Option<T>)
    ensures r.None? <==> |s| == 0
    ensures r.Some? ==> r.value == s[0]
  {
    if |s| == 0 then None else Some(s[0])
  }

  /** The first refreshed registration carries the greatest fetched identifier: the fallback selection. */
  lemma RefreshedFirstIsGreatest(fetched: seq<Registration>)
    requires |Refreshed(fetched)| > 0
    ensures forall y :: y in fetched ==>
      y.identifier == Refreshed(fetched)[0].identifier || Less(y.identifier, Refreshed(fetched)[0].identifier)
  {
    var r := Refreshed(fetched);
    RefreshedDescending(fetched);
    RefreshedIdentifiers(fetched);
    forall y | y in fetched ensures y.identifier == r[0].identifier || Less(y.identifier, r[0].identifier) {
      var ids := set x | x in r :: x.identifier;
      assert y.identifier in ids;
      var x :| x in r && x.identifier == y.identifier;
      var i :| 0 <= i < |r| && r[i] == x;
      if i > 0 {
        assert Less(r[i].identifier, r[0].identifier);
      }
    }
  }

  /** The patternfly `ItemsStore<Registration>` the registry is: its items and the selected ones. */
  class RegistryStore {
    var items: seq<Registration>
    var selection: seq<Registration>

    constructor ()
      ensures items == [] && selection == []
    {
      items := [];
      selection := [];
    }

    /** Every selected registration is one of the items, and at most one is selected. */
    ghost predicate Valid()
      reads this
    {
      |selection| <= 1 && forall x :: x in selection ==> x in items
    }

    function Current(): Option<Registration>
      reads this
    {
      FirstOrNone(selection)
    }
  }

  /**
   * `poll`: the store is loaded with the refreshed registrations; a non-empty
   * list gets exactly one selection, an empty one leaves the selection as it was.
   */
  method Poll(registry: RegistryStore, fetched: seq<Registration>)
    modifies registry
    ensures registry.items == Refreshed(fetched)
    ensures |registry.items| > 0 ==> registry.selection == [SelectionAfter(registry.items, old(registry.Current()))]
    ensures |registry.items| == 0 ==> registry.selection == old(registry.selection)
    ensures |registry.items| > 0 ==> registry.Valid()
  {
    var registrations := Refreshed(fetched);
    var current := FirstOrNone(registry.selection);
    registry.items := registrations;
    if |registrations| > 0 {
      registry.selection := [SelectionAfter(registrations, current)];
    }
  }
}
