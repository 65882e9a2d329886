/**
 * The rule both resource fetchers (Dispatcher.kt and Endpoints.kt) apply to
 * the process-wide cache of global operations: the first resource that has
 * global operations fills the cache, later requests ask the backend to skip
 * them (`&skip=g`), and a resource without global operations of its own gets
 * the cached ones appended.
 */
module ResourceFetch {
  import opened Strings
  import opened Seqs
  import opened ModelGraph

  predicate IsGlobal(o: Operation) { o.global }

  /** Some operation of the resource is global. */
  predicate HasGlobal(ops: seq<Operation>)
  {
    exists o :: o in ops && o.global
  }

  /** The cache after a fetch: an empty cache takes the fetched global operations, a filled one stays. */
  function CacheAfter(cache: seq<Operation>, fetched: Resource): (c: seq<Operation>)
    ensures |cache| > 0 ==> c == cache
    ensures |cache| == 0 && !HasGlobal(fetched.operations) ==> c == []
    ensures (forall i :: 0 <= i < |cache| ==> cache[i].global) ==> forall i :: 0 <= i < |c| ==> c[i].global
  {
    if |cache| == 0 && HasGlobal(fetched.operations) then Filter(fetched.operations, IsGlobal) else cache
  }

  /** An empty cache is filled with exactly the global operations of the fetched resource, in their order. */
  lemma CacheFilledWithGlobals(fetched: Resource)
    requires HasGlobal(fetched.operations)
    ensures CacheAfter([], fetched) == Filter(fetched.operations, IsGlobal)
    ensures forall o :: o in CacheAfter([], fetched) <==> o in fetched.operations && o.global
    ensures |CacheAfter([], fetched)| > 0
  {
    forall o | o in fetched.operations && o.global ensures o in CacheAfter([], fetched) {
      FilterKeeps(fetched.operations, IsGlobal, o);
    }
  }

  /** The resource handed back: the cached operations appended when it has no global operation of its own. */
  function Merged(cache: seq<Operation>, fetched: Resource): (r: Resource)
    ensures r.(operations := fetched.operations) == fetched
    ensures |cache| > 0 && !HasGlobal(fetched.operations) ==> r.operations == fetched.operations + cache
    ensures !(|cache| > 0 && !HasGlobal(fetched.operations)) ==> r == fetched
  {
    if |cache| > 0 && !HasGlobal(fetched.operations) then fetched.(operations := fetched.operations + cache)
    else fetched
  }

  /** Once the cache holds global operations, every resource handed back lists some. */
  lemma MergedHasGlobals(cache: seq<Operation>, fetched: Resource)
    requires forall i :: 0 <= i < |cache| ==> cache[i].global
    ensures |CacheAfter(cache, fetched)| > 0 ==> HasGlobal(Merged(CacheAfter(cache, fetched), fetched).operations)
  {
    var c := CacheAfter(cache, fetched);
    if |c| > 0 && !HasGlobal(fetched.operations) {
      var ops := Merged(c, fetched).operations;
      assert ops[|fetched.operations|] == c[0];
      assert c[0] in ops;
    }
  }

  /** The parameters of the query part of a URL: the text after the first `?`, split at `&`. */
  function QueryParameters(url: string): seq<string>
  {
    Split(SubstringAfter(url, '?'), '&')
  }

  const SKIP_GLOBAL: string := "skip=g"

  /** The query of a resource URL: the address parameter, then `skip=g` when asked for. */
  lemma ResourceQuery(base: string, encoded: string, skip: bool)
    requires '?' !in base && '&' !in encoded
    ensures QueryParameters(base + "?address=" + encoded + (if skip then "&" + SKIP_GLOBAL else ""))
      == ["address=" + encoded] + (if skip then [SKIP_GLOBAL] else [])
  {
    var address := "address=" + encoded;
    assert '&' !in address by {
      assert forall i :: 0 <= i < |address| ==> address[i] == ("address=" + encoded)[i];
      forall i | 0 <= i < |address| ensures address[i] != '&' {
        if i >= 8 {
          assert address[i] == encoded[i - 8];
        }
      }
    }
    var rest := address + (if skip then "&" + SKIP_GLOBAL else "");
    assert base + "?address=" + encoded + (if skip then "&" + SKIP_GLOBAL else "") == base + ['?'] + rest;
    SubstringsOfGlued(base, '?', rest);
    if skip {
      assert Join([address, SKIP_GLOBAL], "&") == rest;
      SplitJoin([address, SKIP_GLOBAL], '&');
    } else {
      assert rest == address;
    }
  }

  /** A resource URL carries `skip=g` exactly when it was asked to. */
  lemma SkipIffAsked(base: string, encoded: string, skip: bool)
    requires '?' !in base && '&' !in encoded
    ensures SKIP_GLOBAL in QueryParameters(base + "?address=" + encoded + (if skip then "&" + SKIP_GLOBAL else ""))
      <==> skip
  {
    ResourceQuery(base, encoded, skip);
    assert ("address=" + encoded)[0] == 'a';
  }
}
