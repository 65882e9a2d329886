/**
 * The diff page (Diff.kt): an address and two registration identifiers, a
 * request that is only executed when it is valid, and the view state that
 * tells whether the backend found differences.
 */
module Diff {
  import opened Optional

  /** Which of its three panels the diff view shows. */
  datatype DiffState = Initial | NoDiff | DiffShown

  /** A request for the differences of one resource between two registrations. */
  datatype DiffRequest = DiffRequest(address: string, from: string, to: string)
  {
    /** All three parts given, and two different registrations. */
    predicate IsValid()
    {
      |address| > 0 && |from| > 0 && |to| > 0 && from != to
    }
  }

  /** A request for one resource of one registration. */
  datatype ResourceRequest = ResourceRequest(address: string, identifier: string)
  {
    predicate IsValid()
    {
      |address| > 0 && |identifier| > 0
    }
  }

  /** What `executeDiff` emits: the two resource requests of a valid diff request, nothing otherwise. */
  function RequestsOf(request: DiffRequest): (r: Option<(ResourceRequest, ResourceRequest)>)
    ensures r.Some? <==> request.IsValid()
    ensures r.Some? ==> r.value.0.IsValid() && r.value.1.IsValid()
    ensures r.Some? ==> r.value.0.address == request.address && r.value.1.address == request.address
    ensures r.Some? ==> r.value.0.identifier == request.from && r.value.1.identifier == request.to
    ensures r.Some? ==> r.value.0 != r.value.1
  {
    if request.IsValid() then
      Some((ResourceRequest(request.address, request.from), ResourceRequest(request.address, request.to)))
    else None
  }

  /** The state a returned patch leads to: no differences for an empty patch. */
  function StateAfter<T>(patch: seq<T>): (s: DiffState)
    ensures s != Initial
    ensures s == NoDiff <==> |patch| == 0
  {
    if |patch| == 0 then NoDiff else DiffShown
  }

  /** A diff request is valid exactly when the two resource requests it stands for are valid and differ. */
  lemma DiffValidIffResourceRequestsValid(request: DiffRequest)
    ensures request.IsValid() <==>
      ResourceRequest(request.address, request.from).IsValid()
      && ResourceRequest(request.address, request.to).IsValid()
      && request.from != request.to
  {
  }

  /**
   * The state of `DiffPresenter` and its view. A JSON patch is kept as the
   * sequence of its operations and a resource as an opaque JSON value; the
   * backend calls come in as functions.
   */
  class DiffPresenter<Json, Patch> {
    var address: string
    var from: string
    var to: string
    var diff: seq<Patch>
    /** The two loaded resources; `None` stands for the empty JSON object the stores start with. */
    var fromResource: Option<Json>
    var toResource: Option<Json>
    var state: DiffState

    constructor ()
      ensures address == "" && from == "" && to == ""
      ensures diff == [] && fromResource == None && toResource == None
      ensures state == Initial
    {
      address := "";
      from := "";
      to := "";
      diff := [];
      fromResource := None;
      toResource := None;
      state := Initial;
    }

    /** Once a diff was shown the state never returns to `Initial`. */
    ghost predicate Shown()
      reads this
    {
      state != Initial
    }

    /**
     * `executeDiff`: a valid request replaces the patch with the backend's
     * and sets the state from it; an invalid one changes nothing.
     */
    method ExecuteDiff(request: DiffRequest, fetchDiff: (string, string, string) -> seq<Patch>)
      returns (emitted: Option<(ResourceRequest, ResourceRequest)>)
      modifies this`diff, this`state
      ensures emitted == RequestsOf(request)
      ensures !request.IsValid() ==> diff == old(diff) && state == old(state)
      ensures request.IsValid() ==> diff == fetchDiff(request.address, request.from, request.to)
      ensures request.IsValid() ==> state == StateAfter(diff)
      ensures old(Shown()) ==> Shown()
    {
      emitted := RequestsOf(request);
      if request.IsValid() {
        diff := fetchDiff(request.address, request.from, request.to);
        state := StateAfter(diff);
      }
    }

    /** `loadFrom`: a valid request loads the resource, an invalid one keeps the current one. */
    method LoadFrom(request: ResourceRequest, fetchResource: (string, string) -> Json)
      modifies this`fromResource
      ensures request.IsValid() ==> fromResource == Some(fetchResource(request.identifier, request.address))
      ensures !request.IsValid() ==> fromResource == old(fromResource)
    {
      if request.IsValid() {
        fromResource := Some(fetchResource(request.identifier, request.address));
      }
    }

    /** `loadTo`: as `loadFrom`, for the second registration. */
    method LoadTo(request: ResourceRequest, fetchResource: (string, string) -> Json)
      modifies this`toResource
      ensures request.IsValid() ==> toResource == Some(fetchResource(request.identifier, request.address))
      ensures !request.IsValid() ==> toResource == old(toResource)
    {
      if request.IsValid() {
        toResource := Some(fetchResource(request.identifier, request.address));
      }
    }

    /** Runs a diff request and, when it was emitted, loads both resources. */
    method Run(request: DiffRequest, fetchDiff: (string, string, string) -> seq<Patch>, fetchResource: (string, string) -> Json)
      modifies this`diff, this`state, this`fromResource, this`toResource
      ensures !request.IsValid() ==>
        diff == old(diff) && state == old(state)
        && fromResource == old(fromResource) && toResource == old(toResource)
      ensures request.IsValid() ==>
        diff == fetchDiff(request.address, request.from, request.to) && state == StateAfter(diff)
        && fromResource == Some(fetchResource(request.from, request.address))
        && toResource == Some(fetchResource(request.to, request.address))
      ensures old(Shown()) ==> Shown()
    {
      var emitted := ExecuteDiff(request, fetchDiff);
      if emitted.Some? {
        LoadFrom(emitted.value.0, fetchResource);
        LoadTo(emitted.value.1, fetchResource);
      }
    }

    /** A new address, diffed against the current `from` and `to`. */
    method UpdateAddress(value: string, fetchDiff: (string, string, string) -> seq<Patch>, fetchResource: (string, string) -> Json)
      modifies this
      ensures address == value && from == old(from) && to == old(to)
      ensures var request := DiffRequest(value, old(from), old(to));
        (!request.IsValid() ==>
          diff == old(diff) && state == old(state)
          && fromResource == old(fromResource) && toResource == old(toResource))
        && (request.IsValid() ==>
          diff == fetchDiff(value, old(from), old(to)) && state == StateAfter(diff)
          && fromResource == Some(fetchResource(old(from), value))
          && toResource == Some(fetchResource(old(to), value)))
      ensures old(Shown()) ==> Shown()
    {
      address := value;
      Run(DiffRequest(value, from, to), fetchDiff, fetchResource);
    }

    /** A new `from` registration, diffed at the current address against the current `to`. */
    method UpdateFrom(value: string, fetchDiff: (string, string, string) -> seq<Patch>, fetchResource: (string, string) -> Json)
      modifies this
      ensures from == value && address == old(address) && to == old(to)
      ensures var request := DiffRequest(old(address), value, old(to));
        (!request.IsValid() ==>
          diff == old(diff) && state == old(state)
          && fromResource == old(fromResource) && toResource == old(toResource))
        && (request.IsValid() ==>
          diff == fetchDiff(old(address), value, old(to)) && state == StateAfter(diff)
          && fromResource == Some(fetchResource(value, old(address)))
          && toResource == Some(fetchResource(old(to), old(address))))
      ensures old(Shown()) ==> Shown()
    {
      from := value;
      Run(DiffRequest(address, value, to), fetchDiff, fetchResource);
    }

    /** A new `to` registration, diffed at the current address against the current `from`. */
    method UpdateTo(value: string, fetchDiff: (string, string, string) -> seq<Patch>, fetchResource: (string, string) -> Json)
      modifies this
      ensures to == value && address == old(address) && from == old(from)
      ensures var request := DiffRequest(old(address), old(from), value);
        (!request.IsValid() ==>
          diff == old(diff) && state == old(state)
          && fromResource == old(fromResource) && toResource == old(toResource))
        && (request.IsValid() ==>
          diff == fetchDiff(old(address), old(from), value) && state == StateAfter(diff)
          && fromResource == Some(fetchResource(old(from), old(address)))
          && toResource == Some(fetchResource(value, old(address))))
      ensures old(Shown()) ==> Shown()
    {
      to := value;
      Run(DiffRequest(address, from, value), fetchDiff, fetchResource);
    }

    /** A registry selection sets both `from` and `to`, without running a diff. */
    method SelectRegistration(identifier: string)
      modifies this`from, this`to
      ensures from == identifier && to == identifier
    {
      from := identifier;
      to := identifier;
    }
  }

  /** After a registry selection the request at any address is invalid, so nothing is diffed until one side changes. */
  lemma SameRegistrationNeverDiffed(address: string, identifier: string)
    ensures !DiffRequest(address, identifier, identifier).IsValid()
    ensures RequestsOf(DiffRequest(address, identifier, identifier)) == None
  {
  }
}
