# WildFly model graph browser — a Dafny model of its core

The model graph browser is a single-page web application. It browses the
management model of several WildFly versions, which a backend has stored as a
graph. This project models the logic of the browser's core in Dafny and proves
properties of that model:

- **Model graph** (`model.dfy`): the values the backend sends and the names and
  tags derived from them. These are attributes, capabilities, operations,
  parameters, resources, versions and the `Models` bundle a query returns.
  - A singleton resource is named `group=child`.
  - A resource of type `SingletonParentResource` is a synthetic parent that
    groups such singletons.
  - `deprecated` and `singletonParent` are defined as predicates on the values.
- **Resource tree** (`browse.dfy`): `groupChildren` partitions the children of
  a resource into plain resources and singletons. The singletons are grouped
  by their parent name, each group gets a synthetic singleton parent, and the
  result is sorted by name.
  - `resourceItem` builds the tree recursively and leaves a singleton parent's
    own children alone.
  - `BrowsePresenter` reads the place request (address and deep link), shows a
    subtree, and selects a resource. Selecting fills the details pane and the
    attribute, operation and capability tables, each sorted by name.
- **Places** (`places.dfy`): the place requests that link into the browse page.
  Lemmas in `browse.dfy` show that the browse page reads back what these
  requests carry.
- **Fetching a resource** (`resource_fetch.dfy`, `dispatcher.dfy`,
  `endpoints.dfy`): both fetchers share one cache of global operations.
  - The first resource that has global operations fills the cache.
  - Every later request asks the backend to skip them (`skip=g`).
  - A resource without global operations of its own gets the cached ones
    appended.
  - The cache is the `GlobalOperations` class, whose invariant is that it holds
    only global operations.
- **Registry** (`registrations.dfy`, `bootstrap.dfy`): the registrations the
  backend knows. A refresh keeps one registration per identifier, in
  descending identifier order. The selection is kept when it is still present;
  otherwise the first registration is selected.
  - The start-up read clears the selection of an empty list.
  - The periodic poll leaves the selection of an empty list as it was.
  - The model follows the `Registration` class of `Registration.kt`, which
    displays itself as `productName productVersion`.
- **Diff** (`diff.dfy`): a diff between two registrations at one address runs
  only for a valid request: all three parts given, and two different
  registrations. The view state tells whether the backend found differences.
- **Query** (`query.dfy`): a non-empty query, or a new registry selection while
  a query is present, loads the models found and sets the view state.
- **Cells and details** (`model_display.dfy`, `deprecations.dfy`): the table
  cell of each kind of model (type strings, parameter signatures, links to
  the browse page of declaring resources) and the details row.
  - The deprecations page uses the same cells, and falls back to "No
    description available".

Generic helpers that mirror the Kotlin standard library live in
`optional.dfy`, `strings.dfy` and `seqs.dfy`:

- `substringBefore`/`substringAfter`, `split`/`joinToString`;
- string comparison and ASCII lower-casing;
- integer formatting;
- `filter` and `partition`, `distinctBy`, the stable `sortedBy`, and
  `reversed`.

I/O is not modelled. Every backend call is a function parameter: the resource,
the subtree, the diff, the query and the registry. `Id.unique` is also a
parameter (`freshId`), and so is `encodeURIComponent` (`encode`).

## Model

All source paths are below `src/main/kotlin/org/wildfly/modelgraph/browser/`
and are written out in full.

| member | source | states |
|---|---|---|
| ModelGraph.Resource.SingletonParentName | src/main/kotlin/org/wildfly/modelgraph/browser/Model.kt:194-195 | a non-singleton keeps its name; a singleton's parent name is the part before the first `=` |
| ModelGraph.Resource.SingletonChildName | src/main/kotlin/org/wildfly/modelgraph/browser/Model.kt:197-198 | a non-singleton keeps its name; a singleton's child name is the part after the first `=` |
| ModelGraph.SingletonNamesSplit | src/main/kotlin/org/wildfly/modelgraph/browser/Model.kt:194-198 | for a singleton named with `=`: parent name, `=` and child name rebuild the name; the parent name has no `=`; both parts are shorter than the name |
| ModelGraph.SingletonNamesWithoutSeparator | src/main/kotlin/org/wildfly/modelgraph/browser/Model.kt:194-198 | a non-singleton, or a name without `=`, gives the whole name as both parent and child name |
| ModelGraph.SingletonNamesOfGlued | src/main/kotlin/org/wildfly/modelgraph/browser/Model.kt:194-198 | a singleton named `group=child` with no `=` in group has parent name group and child name child |
| ModelGraph.ResourceToStringTags | src/main/kotlin/org/wildfly/modelgraph/browser/Model.kt:200-211 | the string form is `Resource(id, address)` tagged `singleton-parent`, else `singleton`, else untagged |
| ModelGraph.VersionRoundTrip | src/main/kotlin/org/wildfly/modelgraph/browser/Model.kt:227 | `major.minor.patch` parses back to the three numbers |
| ModelGraph.VersionToStringInjective | src/main/kotlin/org/wildfly/modelgraph/browser/Model.kt:227 | two versions print alike exactly when their three numbers agree |
| ModelGraph.Models.All | src/main/kotlin/org/wildfly/modelgraph/browser/Model.kt:38-42 | the models are the attributes, then capabilities, operations and resources, each at its place; their count is `size` |
| ModelGraph.SizeZeroIffNoModels | src/main/kotlin/org/wildfly/modelgraph/browser/Model.kt:38-42 | `size` is zero exactly when there are no models |
| ModelGraph.ModelsToStringParentheses | src/main/kotlin/org/wildfly/modelgraph/browser/Model.kt:44-45 | the string form as written opens five parentheses and closes four; the corrected one is balanced |
| ModelGraph.Models.Size | src/main/kotlin/org/wildfly/modelgraph/browser/Model.kt:41-42 | `size`; equal to the number of models by `ModelGraph.Models.All` and `SizeZeroIffNoModels` |
| ModelGraph.Models.ToStringAsWritten | src/main/kotlin/org/wildfly/modelgraph/browser/Model.kt:44-45 | `toString` as the source writes it; unbalanced by `ModelsToStringParentheses` |
| ModelGraph.Models.ToString | src/main/kotlin/org/wildfly/modelgraph/browser/Model.kt:44-45 | `toString` with the closing parenthesis; balanced by `ModelsToStringParentheses` |
| ModelGraph.Resource.SingletonParent | src/main/kotlin/org/wildfly/modelgraph/browser/Model.kt:191-192 | `singletonParent`: the model type is `SingletonParentResource`; used by `Regroup` and `Select` |
| ModelGraph.Resource.Deprecated | src/main/kotlin/org/wildfly/modelgraph/browser/Model.kt:19-20 | `deprecated`: a deprecation is present |
| ModelGraph.Attribute.Deprecated | src/main/kotlin/org/wildfly/modelgraph/browser/Model.kt:19-20 | `deprecated`: a deprecation is present |
| ModelGraph.Parameter.Deprecated | src/main/kotlin/org/wildfly/modelgraph/browser/Model.kt:19-20 | `deprecated`: a deprecation is present |
| ModelGraph.Operation.Deprecated | src/main/kotlin/org/wildfly/modelgraph/browser/Model.kt:19-20 | `deprecated`: a deprecation is present |
| ModelGraph.Resource.ToString | src/main/kotlin/org/wildfly/modelgraph/browser/Model.kt:200-211 | `Resource.toString`; its three forms are stated by `ResourceToStringTags` |
| ModelGraph.Version.ToString | src/main/kotlin/org/wildfly/modelgraph/browser/Model.kt:227 | `major.minor.patch`; read back by `VersionRoundTrip` |
| ModelGraph.GlobalOperations.constructor | src/main/kotlin/org/wildfly/modelgraph/browser/Model.kt:131-133 | the cache of global operations starts empty |
| Places.ParamsOf | src/main/kotlin/org/wildfly/modelgraph/browser/Places.kt:17-27 | the parameter map has exactly the given keys, and every key maps to the value of its last pair |
| Places.ParamsOfTwo | src/main/kotlin/org/wildfly/modelgraph/browser/Places.kt:17-24 | two pairs with different keys give the map of both |
| Places.BrowseAttribute | src/main/kotlin/org/wildfly/modelgraph/browser/Places.kt:17-18 | a browse request with exactly `address` and `attribute` |
| Places.BrowseCapability | src/main/kotlin/org/wildfly/modelgraph/browser/Places.kt:20-21 | a browse request with exactly `capability` |
| Places.BrowseOperation | src/main/kotlin/org/wildfly/modelgraph/browser/Places.kt:23-24 | a browse request with exactly `address` and `operation` |
| Places.BrowseResource | src/main/kotlin/org/wildfly/modelgraph/browser/Places.kt:26-27 | a browse request with exactly `address` |
| Browse.GroupKeys | src/main/kotlin/org/wildfly/modelgraph/browser/Browse.kt:253-254 | the group keys are distinct, and a key is present exactly when some element has that parent name |
| Browse.AddToGroupSpec | src/main/kotlin/org/wildfly/modelgraph/browser/Browse.kt:253-254 | one step of `groupBy`: a known key extends its own group only, a new key appends a new group |
| Browse.GroupByKeysAndMembers | src/main/kotlin/org/wildfly/modelgraph/browser/Browse.kt:253-254 | `groupBy` gives one group per key of `GroupKeys`, in that order, each holding exactly that key's members in their input order |
| Browse.GroupChildrenParents | src/main/kotlin/org/wildfly/modelgraph/browser/Browse.kt:251-267 | there is one synthetic parent per group key, the synthetic parent of exactly that key's members, and the result is a permutation of the non-singletons plus these parents |
| Browse.GroupChildrenOrigin | src/main/kotlin/org/wildfly/modelgraph/browser/Browse.kt:251-267 | every entry is a non-singleton child or a synthetic parent named after some singleton's parent name |
| Browse.GroupChildrenKeepsResources | src/main/kotlin/org/wildfly/modelgraph/browser/Browse.kt:251-267 | every non-singleton occurs in the result as often as among the children |
| Browse.GroupChildrenSyntheticFields | src/main/kotlin/org/wildfly/modelgraph/browser/Browse.kt:255-264 | every singleton entry is the synthetic parent of its group: the id `freshId` gives its name, the parent's address plus `/name`, the parent's child description for that name, no attributes, operations or capabilities, and its members renamed to their child names |
| Browse.GroupChildrenParentsNamed | src/main/kotlin/org/wildfly/modelgraph/browser/Browse.kt:253-264 | every synthetic parent is named after the parent name of some singleton child |
| Browse.GroupChildrenCoversSingletons | src/main/kotlin/org/wildfly/modelgraph/browser/Browse.kt:253-264 | every singleton child's parent name has a synthetic parent |
| Browse.GroupChildrenOneParentPerName | src/main/kotlin/org/wildfly/modelgraph/browser/Browse.kt:253-264 | no two synthetic parents share a name |
| Browse.GroupChildrenSizeAndOrder | src/main/kotlin/org/wildfly/modelgraph/browser/Browse.kt:251-267 | the result is sorted by name; the entries of one name are the non-singletons of that name in their order, then the synthetic parent of that name if there is one; its length is the number of non-singletons plus the number of distinct parent names |
| Browse.GroupChildrenTies | src/main/kotlin/org/wildfly/modelgraph/browser/Browse.kt:252-266 | the entries named k are the non-singleton children named k, in their order, then the synthetic parent k when some singleton has parent name k |
| Browse.SingletonParentsNamed | src/main/kotlin/org/wildfly/modelgraph/browser/Browse.kt:253-264 | among the synthetic parents, the one named k exists exactly when k is a singleton parent name, and is the parent of that name's members |
| Browse.GroupChildren | src/main/kotlin/org/wildfly/modelgraph/browser/Browse.kt:251-267 | `groupChildren`: the non-singletons plus the synthetic parents, sorted by name; its properties are the lemmas above |
| Browse.GroupBy | src/main/kotlin/org/wildfly/modelgraph/browser/Browse.kt:253-254 | `groupBy` as a left fold of `AddToGroup`; characterised by `GroupByKeysAndMembers` |
| Browse.AddToGroup | src/main/kotlin/org/wildfly/modelgraph/browser/Browse.kt:253-254 | one fold step of `groupBy`; characterised by `AddToGroupSpec` |
| Browse.SyntheticParent | src/main/kotlin/org/wildfly/modelgraph/browser/Browse.kt:256-264 | the synthetic singleton parent built for one group; its fields are stated by `GroupChildrenSyntheticFields` |
| Browse.Renamed | src/main/kotlin/org/wildfly/modelgraph/browser/Browse.kt:263 | the members of a group renamed to their child names; stated by `GroupChildrenSyntheticFields` |
| Browse.Regroup | src/main/kotlin/org/wildfly/modelgraph/browser/Browse.kt:225-229 | a singleton parent keeps its children; any other resource has its children grouped |
| Browse.RegroupShrinks | src/main/kotlin/org/wildfly/modelgraph/browser/Browse.kt:223-238 | every child of a regrouped resource ranks lower, so the recursive tree construction ends |
| Browse.ResourceItem | src/main/kotlin/org/wildfly/modelgraph/browser/Browse.kt:223-238 | the tree item holds the resource, and its children are items for the regrouped children in order |
| Browse.SingletonParentItemsUngrouped | src/main/kotlin/org/wildfly/modelgraph/browser/Browse.kt:225-229 | the items below a singleton parent are its own children, ungrouped |
| Browse.ReadChildren | src/main/kotlin/org/wildfly/modelgraph/browser/Browse.kt:240-249 | one item per grouped fetched child, in order, each with its own children as leaf items |
| Browse.RequestedAddress | src/main/kotlin/org/wildfly/modelgraph/browser/Browse.kt:171-176 | the `address` parameter, or `/` without one |
| Browse.DeepLinkOf | src/main/kotlin/org/wildfly/modelgraph/browser/Browse.kt:194-199 | the deep link prefers attribute, then operation, then capability, and is absent exactly when all three are |
| Browse.DeepLinkNamesItsParameter | src/main/kotlin/org/wildfly/modelgraph/browser/Browse.kt:171-199 | the deep link read from a place names the value of the parameter it came from |
| Browse.BrowseAttributeReadBack | src/main/kotlin/org/wildfly/modelgraph/browser/Places.kt:17-18 | the browse page reads back the address and an attribute deep link |
| Browse.BrowseOperationReadBack | src/main/kotlin/org/wildfly/modelgraph/browser/Places.kt:23-24 | the browse page reads back the address and an operation deep link |
| Browse.BrowseCapabilityReadBack | src/main/kotlin/org/wildfly/modelgraph/browser/Places.kt:20-21 | the browse page reads the address `/` and a capability deep link |
| Browse.BrowseResourceReadBack | src/main/kotlin/org/wildfly/modelgraph/browser/Places.kt:26-27 | the browse page reads back the address and no deep link |
| Browse.BrowsePresenter.constructor | src/main/kotlin/org/wildfly/modelgraph/browser/Browse.kt:89-92 | no address, deep link, tree, details or tables yet |
| Browse.BrowsePresenter.PrepareFromRequest | src/main/kotlin/org/wildfly/modelgraph/browser/Browse.kt:171-176 | the address and the three deep-link parameters are taken from the place request |
| Browse.BrowsePresenter.Show | src/main/kotlin/org/wildfly/modelgraph/browser/Browse.kt:187-199 | the tree is the tree of the subtree fetched at the requested address; the initial selection is the items of that tree at that address; the item to open is the deep link |
| Browse.InitiallySelected | src/main/kotlin/org/wildfly/modelgraph/browser/Browse.kt:190 | only items at the address; the root first when it is at the address; everything any child selects |
| Browse.InitiallySelectedIsAtAddress | src/main/kotlin/org/wildfly/modelgraph/browser/Browse.kt:189-191 | the initial selection is exactly the tree's nodes at the address, in tree order |
| Browse.Nodes | src/main/kotlin/org/wildfly/modelgraph/browser/Browse.kt:222-236 | the resources of a tree, the root first |
| Browse.BrowsePresenter.Select | src/main/kotlin/org/wildfly/modelgraph/browser/Browse.kt:145-168 | a singleton parent changes nothing; any other resource gets its details loaded, and the three tables are permutations of its attributes, operations and capabilities, sorted by name, with entries of equal name in their original order |
| ResourceFetch.CacheAfter | src/main/kotlin/org/wildfly/modelgraph/browser/Dispatcher.kt:47-49 | a filled cache stays; an empty cache stays empty without fetched global operations; the cache keeps holding only global operations |
| ResourceFetch.CacheFilledWithGlobals | src/main/kotlin/org/wildfly/modelgraph/browser/Dispatcher.kt:47-49 | an empty cache is filled with exactly the fetched global operations, in order |
| ResourceFetch.Merged | src/main/kotlin/org/wildfly/modelgraph/browser/Dispatcher.kt:50-56 | only the operations can change: with a filled cache and no global operation of its own the cache is appended, otherwise the resource is unchanged |
| ResourceFetch.MergedHasGlobals | src/main/kotlin/org/wildfly/modelgraph/browser/Dispatcher.kt:47-56 | once the cache is filled every resource handed back lists a global operation |
| ResourceFetch.ResourceQuery | src/main/kotlin/org/wildfly/modelgraph/browser/Dispatcher.kt:30-39 | the query of a resource URL is the address parameter, followed by `skip=g` when asked for |
| ResourceFetch.SkipIffAsked | src/main/kotlin/org/wildfly/modelgraph/browser/Dispatcher.kt:36-38 | the URL carries `skip=g` exactly when asked to |
| Dispatcher.ResourceUrlSkipsIffCached | src/main/kotlin/org/wildfly/modelgraph/browser/Dispatcher.kt:30-39 | the resource URL carries the encoded address, and `skip=g` exactly when the cache is filled |
| Dispatcher.ResourceUrl | src/main/kotlin/org/wildfly/modelgraph/browser/Dispatcher.kt:30-39 | the resource URL; its query is stated by `ResourceUrlSkipsIffCached` |
| Dispatcher.Dispatcher.Resource | src/main/kotlin/org/wildfly/modelgraph/browser/Dispatcher.kt:29-57 | the URL is built with skip iff the cache was filled; the new cache and the returned resource follow the cache rule; the cache keeps holding only global operations |
| Endpoints.ResourceUrlSkipsIffCached | src/main/kotlin/org/wildfly/modelgraph/browser/Endpoints.kt:22-29 | the resource URL carries the encoded address, and `skip=g` exactly when the cache is filled |
| Endpoints.ResourceUrl | src/main/kotlin/org/wildfly/modelgraph/browser/Endpoints.kt:22-29 | the resource URL; its query is stated by `ResourceUrlSkipsIffCached` |
| Endpoints.Resource | src/main/kotlin/org/wildfly/modelgraph/browser/Endpoints.kt:21-47 | the same cache rule for the fixed local endpoint |
| Registrations.RegistrationToStringReadBack | src/main/kotlin/org/wildfly/modelgraph/browser/Registration.kt:105 | for a version without blanks, the product name (blanks and all) is the text before the last blank of the display string and the version the text after it |
| Registrations.Registration.ToString | src/main/kotlin/org/wildfly/modelgraph/browser/Registration.kt:105 | `productName productVersion`; read back by `RegistrationToStringReadBack` |
| Registrations.Refreshed | src/main/kotlin/org/wildfly/modelgraph/browser/Registration.kt:73-76 | `distinctBy`, `sortedBy` and `reversed` on the identifier; stated by the `Refreshed` lemmas |
| Registrations.RefreshedPermutation | src/main/kotlin/org/wildfly/modelgraph/browser/Registration.kt:73-76 | the refreshed list is a permutation of the de-duplicated one |
| Registrations.RefreshedDescending | src/main/kotlin/org/wildfly/modelgraph/browser/Registration.kt:73-76 | the refreshed list is in strictly descending identifier order |
| Registrations.RefreshedKeepsFirst | src/main/kotlin/org/wildfly/modelgraph/browser/Registration.kt:73-76 | the refreshed list holds fetched registrations only, including the first one of each identifier |
| Registrations.RefreshedIdentifiers | src/main/kotlin/org/wildfly/modelgraph/browser/Registration.kt:73-76 | the refreshed list and the fetched list have the same set of identifiers |
| Registrations.RefreshedFirstIsGreatest | src/main/kotlin/org/wildfly/modelgraph/browser/Registration.kt:73-86 | the first refreshed registration, the fallback selection, has the greatest fetched identifier |
| Registrations.SelectionAfter | src/main/kotlin/org/wildfly/modelgraph/browser/Registration.kt:79-86 | the previous selection when it is still listed, otherwise the first registration; always one of the list |
| Registrations.FirstOrNone | src/main/kotlin/org/wildfly/modelgraph/browser/Registration.kt:77 | absent exactly for the empty list, otherwise the first element |
| Registrations.RegistryStore.constructor | src/main/kotlin/org/wildfly/modelgraph/browser/Registration.kt:71-87 | the store starts with no items and no selection |
| Registrations.Poll | src/main/kotlin/org/wildfly/modelgraph/browser/Registration.kt:71-87 | the items become the refreshed list; a non-empty list gets exactly the selection `SelectionAfter` describes; an empty one keeps the old selection |
| Bootstrap.ReadRegistry.constructor | src/main/kotlin/org/wildfly/modelgraph/browser/Bootstrap.kt:8-11 | the start-up step is named `read-registry` and works on the given registry |
| Bootstrap.ReadRegistry.Execute | src/main/kotlin/org/wildfly/modelgraph/browser/Bootstrap.kt:12-28 | the items become the refreshed list; a non-empty list gets exactly one selection, an empty one none; the store stays valid |
| Bootstrap.ExecuteSelectsOne | src/main/kotlin/org/wildfly/modelgraph/browser/Bootstrap.kt:19-24 | the registration selected after a refresh is listed and was fetched |
| Diff.RequestsOf | src/main/kotlin/org/wildfly/modelgraph/browser/Diff.kt:82-99 | two resource requests are emitted exactly for a valid diff request; they share its address, carry `from` and `to`, are valid and differ |
| Diff.StateAfter | src/main/kotlin/org/wildfly/modelgraph/browser/Diff.kt:89-93 | never initial after a diff, and "no diff" exactly for an empty patch |
| Diff.DiffValidIffResourceRequestsValid | src/main/kotlin/org/wildfly/modelgraph/browser/Diff.kt:39-45 | a diff request is valid exactly when both resource requests are valid and the registrations differ |
| Diff.DiffPresenter.constructor | src/main/kotlin/org/wildfly/modelgraph/browser/Diff.kt:54-59 | empty address, registrations, patch and resources; initial state |
| Diff.DiffPresenter.ExecuteDiff | src/main/kotlin/org/wildfly/modelgraph/browser/Diff.kt:82-99 | a valid request replaces the patch with the backend's and sets the state from it; an invalid one changes nothing |
| Diff.DiffPresenter.LoadFrom | src/main/kotlin/org/wildfly/modelgraph/browser/Diff.kt:101-110 | a valid request loads the resource, an invalid one keeps the current one |
| Diff.DiffPresenter.LoadTo | src/main/kotlin/org/wildfly/modelgraph/browser/Diff.kt:112-121 | a valid request loads the resource, an invalid one keeps the current one |
| Diff.DiffPresenter.Run | src/main/kotlin/org/wildfly/modelgraph/browser/Diff.kt:144-147 | a valid request updates patch, state and both resources; an invalid one changes none of them |
| Diff.DiffPresenter.UpdateAddress | src/main/kotlin/org/wildfly/modelgraph/browser/Diff.kt:133-135 | the new address is diffed against the current registrations |
| Diff.DiffPresenter.UpdateFrom | src/main/kotlin/org/wildfly/modelgraph/browser/Diff.kt:136-138 | the new `from` is diffed at the current address against the current `to` |
| Diff.DiffPresenter.UpdateTo | src/main/kotlin/org/wildfly/modelgraph/browser/Diff.kt:139-141 | the new `to` is diffed at the current address against the current `from` |
| Diff.DiffPresenter.SelectRegistration | src/main/kotlin/org/wildfly/modelgraph/browser/Diff.kt:125-130 | a registry selection sets both `from` and `to` without diffing |
| Diff.SameRegistrationNeverDiffed | src/main/kotlin/org/wildfly/modelgraph/browser/Diff.kt:39-41 | with `from` equal to `to` no request is valid and nothing is emitted |
| Query.StateAfter | src/main/kotlin/org/wildfly/modelgraph/browser/Query.kt:67-71 | never initial after a query, and "no results" exactly when no models were found |
| Query.QueryPresenter.constructor | src/main/kotlin/org/wildfly/modelgraph/browser/Query.kt:96-98 | empty query, no items, initial state |
| Query.QueryPresenter.ExecuteQuery | src/main/kotlin/org/wildfly/modelgraph/browser/Query.kt:63-74 | the items are the models found and the state follows their number |
| Query.QueryPresenter.UpdateQuery | src/main/kotlin/org/wildfly/modelgraph/browser/Query.kt:79-82 | the query is stored; only a non-empty one is sent to the backend |
| Query.QueryPresenter.SelectionChanged | src/main/kotlin/org/wildfly/modelgraph/browser/Query.kt:84-87 | a non-empty selection re-runs a non-empty current query; otherwise nothing changes |
| ModelDisplay.BadgeClass | src/main/kotlin/org/wildfly/modelgraph/browser/ModelDisplay.kt:14 | `mgb-` followed by the lower-cased model type: same length, every upper-case letter replaced by its lower-case letter, every other character unchanged |
| ModelDisplay.BadgeClassIgnoresCase | src/main/kotlin/org/wildfly/modelgraph/browser/ModelDisplay.kt:14 | the badge of a type and of its lower-cased form are the same |
| ModelDisplay.TypeString | src/main/kotlin/org/wildfly/modelgraph/browser/ModelDisplay.kt:122-127 | `type`: the type, then `<valueType>` when present; read back by `TypeStringReadBack` |
| ModelDisplay.Signature | src/main/kotlin/org/wildfly/modelgraph/browser/ModelDisplay.kt:109-111 | the parameter signature; its shape is `SignatureShape` |
| ModelDisplay.AttributeCellOf | src/main/kotlin/org/wildfly/modelgraph/browser/ModelDisplay.kt:33-58 | `attributeCell`; its links are stated by `AttributeLinks` |
| ModelDisplay.OperationCellOf | src/main/kotlin/org/wildfly/modelgraph/browser/ModelDisplay.kt:88-113 | `operationCell`; its links are stated by `OperationLinks` |
| ModelDisplay.TypeStringReadBack | src/main/kotlin/org/wildfly/modelgraph/browser/ModelDisplay.kt:122-127 | the type reads back before `<`, and a value type is shown in angle brackets exactly when present |
| ModelDisplay.Entries | src/main/kotlin/org/wildfly/modelgraph/browser/ModelDisplay.kt:109-111 | one entry per parameter, in order |
| ModelDisplay.SignatureShape | src/main/kotlin/org/wildfly/modelgraph/browser/ModelDisplay.kt:109-111 | the signature is the parameter entries joined by `, ` in parentheses |
| ModelDisplay.ModelCell | src/main/kotlin/org/wildfly/modelgraph/browser/ModelDisplay.kt:21-31 | attributes, capabilities, operations and resources each get their own cell kind; every other model gets the "Unsupported model type" message |
| ModelDisplay.AttributeLinks | src/main/kotlin/org/wildfly/modelgraph/browser/ModelDisplay.kt:33-58 | an attribute cell shows its type and name; exactly when the attribute says where it is defined, the name links to that attribute there and a second link goes to the defining resource |
| ModelDisplay.OperationLinks | src/main/kotlin/org/wildfly/modelgraph/browser/ModelDisplay.kt:88-113 | an operation cell shows its name and signature; exactly when the operation says who provides it, the name links to that operation there and a second link goes to the providing resource |
| ModelDisplay.DeclaredByLinks | src/main/kotlin/org/wildfly/modelgraph/browser/ModelDisplay.kt:67-86 | one link per declaring resource, in order, each to that resource's browse page |
| Deprecations.DetailsOf | src/main/kotlin/org/wildfly/modelgraph/browser/Deprecations.kt:73-81 | a description, or "No description available", for attributes, operations and resources; the declaring links for capabilities; unsupported exactly for the other models |
| Deprecations.CellsAndDetailsAgree | src/main/kotlin/org/wildfly/modelgraph/browser/Deprecations.kt:62-81 | cell and details reject exactly the same models, with the same message |
| Strings.SubstringsOfGlued | src/main/kotlin/org/wildfly/modelgraph/browser/Model.kt:194-198 | the text before and after the first separator of `a + sep + b`, with no separator in `a`, is `a` and `b` |
| Strings.SubstringsOfGluedLast | src/main/kotlin/org/wildfly/modelgraph/browser/Registration.kt:105 | the text before and after the last separator of `a + sep + b`, with no separator in `b`, is `a` and `b` |
| Strings.ToLower | src/main/kotlin/org/wildfly/modelgraph/browser/ModelDisplay.kt:14 | same length; every upper-case ASCII letter becomes its lower-case letter, every other character stays |
| Strings.ToLowerIdempotent | src/main/kotlin/org/wildfly/modelgraph/browser/ModelDisplay.kt:14 | lower-casing twice is lower-casing once |
| Strings.SplitJoin | src/main/kotlin/org/wildfly/modelgraph/browser/Dispatcher.kt:30-39 | splitting a join at its separator gives back the parts, when they do not contain it |
| Strings.ParseIntToString | src/main/kotlin/org/wildfly/modelgraph/browser/Model.kt:227 | a printed number parses back to itself |
| Seqs.SortBy | src/main/kotlin/org/wildfly/modelgraph/browser/Browse.kt:266 | the result is sorted by the key and is a permutation of the input |
| Seqs.SortByStable | src/main/kotlin/org/wildfly/modelgraph/browser/Browse.kt:266 | the sort is stable: for every key, the elements with that key keep their input order |
| Seqs.InsertBy | src/main/kotlin/org/wildfly/modelgraph/browser/Browse.kt:266 | one insertion step: adds one element, keeps a sorted list sorted |
| Seqs.InsertByTies | src/main/kotlin/org/wildfly/modelgraph/browser/Browse.kt:266 | the inserted element comes before the elements of equal key, which keep their order |
| Seqs.FilterDistinctKey | src/main/kotlin/org/wildfly/modelgraph/browser/Browse.kt:253-266 | with distinct keys, the elements with a given element's key are that element alone |
| Seqs.DistinctBy | src/main/kotlin/org/wildfly/modelgraph/browser/Registration.kt:73-76 | only input elements, no key twice, every key kept, and the first element of every key kept |
| Seqs.Reverse | src/main/kotlin/org/wildfly/modelgraph/browser/Registration.kt:73-76 | the same elements in reverse order |

## Left out

- HTTP and JSON decoding are left out. Every backend call is a function parameter: the resource, children, subtree, diff, query and registry fetches. The URLs of all fetches other than the resource URL are not modelled.
- The semantics of a JSON patch (RFC 6902) are left out. A patch is an opaque sequence of operations, and a resource in the diff view is an opaque JSON value.
- The reactive wiring is modelled as direct method calls: fritz2 stores, handlers, flows and the order of emissions. `DiffPresenter.Run` chains `executeDiff` into `loadFrom` and `loadTo` the way the flows do.
- Dispatcher.Dispatcher.Resource and Endpoints.Resource treat one fetch as atomic. In the source a `resource` call suspends at `await`, so two calls can interleave: both build a URL without `skip=g`, and the first response to arrive fills the cache. The model does not capture that interleaving.
- Rendering is left out: HTML, patternfly components, highlight timers and the DOM. Browse.BrowsePresenter.Show records the items `initialSelection` accepts; which of them the tree view then marks and expands is left out.
- `Id.unique` is the `freshId` parameter, a function of the name. Synthetic parents with the same name get the same id.
- Dispatcher.ResourceUrlSkipsIffCached and Endpoints.ResourceUrlSkipsIffCached assume the encoded address contains no `&`. The first also assumes the endpoint and the registration identifier contain no `?`, which real endpoints and identifiers meet. They take `encodeURIComponent` as given and do not model it.
- Strings.ToLower lower-cases ASCII letters only. Kotlin's `lowercase()` covers all of Unicode.
- String comparison is by code point. Kotlin compares UTF-16 code units, and the two differ only outside the Basic Multilingual Plane.
- `Long` and `Int` fields are unbounded integers. The model does not capture overflow.
- `PlaceRequest`'s hash and equality are left out, as are the presenter registration, the WildFly documentation links, the polling interval of the registry, the view toggles (`fromExpanded` and alike) and logging.
- The home page, the Neo4j page, the skeleton and the separate deprecation types in `Deprecation.kt` are outside this model.

## Findings

| source | as written | input that shows it | evidently intended | confidence | as-written member | corrected member |
|---|---|---|---|---|---|---|
| src/main/kotlin/org/wildfly/modelgraph/browser/Model.kt:44-45 | `Models.toString` opens `Models(` but never closes it: `Models(a(n),c(n),o(n),r(n)` | any value, e.g. all four lists empty give `Models(a(0),c(0),o(0),r(0)` | a closing `)` after the resource count | not executed | ModelGraph.ModelsToStringParentheses | ModelGraph.Models.ToString |
