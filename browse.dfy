/**
 * The browse page (Browse.kt): the management-model tree, in which the
 * singleton children of a resource (`type=name`) are grouped under one
 * synthesised parent per `type`, and the presenter that reads a deep link
 * (address plus an attribute, operation or capability to highlight).
 */
module Browse {
  import opened Optional
  import opened Strings
  import opened Seqs
  import opened ModelGraph
  import opened Places

  /** The three tabs of the details pane. */
  datatype ResourceProperty = Attributes | Operations | Capabilities
  {
    /** The place parameter (and table data key) that names this tab. */
    function Key(): string
    {
      match this
      case Attributes => "attribute"
      case Operations => "operation"
      case Capabilities => "capability"
    }

    function Text(): string
    {
      match this
      case Attributes => "Attributes"
      case Operations => "Operations"
      case Capabilities => "Capabilities"
    }
  }

  // ---------------------------------------------------------------------
  // Grouping singletons
  // ---------------------------------------------------------------------

  predicate IsSingleton(r: Resource) { r.singleton }

  predicate IsNotSingleton(r: Resource) { !r.singleton }

  function ParentName(r: Resource): string { r.SingletonParentName() }

  function NameOf(r: Resource): string { r.name }

  /** Membership in the group named `k`. */
  function MemberOf(k: string): Resource -> bool
  {
    (r: Resource) => ParentName(r) == k
  }

  /** A group of Kotlin's `groupBy`: the key and the members in their original order. */
  type Group = (string, seq<Resource>)

  /** The distinct keys of `groupBy(singletonParentName)`, each listed once. */
  function GroupKeys(s: seq<Resource>): (ks: seq<string>)
    ensures forall i, j :: 0 <= i < j < |ks| ==> ks[i] != ks[j]
    ensures forall k :: k in ks <==> exists x :: x in s && ParentName(x) == k
  {
    if |s| == 0 then []
    else
      var init, x := s[..|s| - 1], s[|s| - 1];
      assert s == init + [x];
      var ks := GroupKeys(init);
      if ParentName(x) in ks then ks else ks + [ParentName(x)]
  }

  /** One step of `groupBy`: `x` joins the group of its key, or opens a new group at the end. */
  function AddToGroup(gs: seq<Group>, x: Resource): seq<Group>
  {
    if |gs| == 0 then [(ParentName(x), [x])]
    else if gs[0].0 == ParentName(x) then [(gs[0].0, gs[0].1 + [x])] + gs[1..]
    else [gs[0]] + AddToGroup(gs[1..], x)
  }

  /** Grouping by singleton parent name, folding the elements in from the front. */
  function GroupBy(s: seq<Resource>): seq<Group>
  {
    if |s| == 0 then [] else AddToGroup(GroupBy(s[..|s| - 1]), s[|s| - 1])
  }

  lemma {:induction false} AddToGroupSpec(gs: seq<Group>, ks: seq<string>, x: Resource)
    requires |ks| == |gs| && forall i :: 0 <= i < |gs| ==> gs[i].0 == ks[i]
    requires forall i, j :: 0 <= i < j < |ks| ==> ks[i] != ks[j]
    ensures ParentName(x) in ks ==> |AddToGroup(gs, x)| == |gs|
    ensures ParentName(x) in ks ==> forall i :: 0 <= i < |gs| ==>
      AddToGroup(gs, x)[i] == if ks[i] == ParentName(x) then (ks[i], gs[i].1 + [x]) else gs[i]
    ensures ParentName(x) !in ks ==> AddToGroup(gs, x) == gs + [(ParentName(x), [x])]
  {
    if |gs| > 0 && gs[0].0 != ParentName(x) {
      assert forall i, j :: 0 <= i < j < |ks[1..]| ==> ks[1..][i] == ks[i + 1] && ks[1..][j] == ks[j + 1];
      AddToGroupSpec(gs[1..], ks[1..], x);
      assert ParentName(x) in ks ==> ParentName(x) in ks[1..];
    } else if |gs| > 0 {
      assert forall i :: 1 <= i < |ks| ==> ks[i] != ParentName(x);
    }
  }

  /** Filtering the fold step by one key: `x` is added to its own group only. */
  lemma FilterStep(init: seq<Resource>, x: Resource, k: string)
    ensures Filter(init + [x], MemberOf(k)) == Filter(init, MemberOf(k)) + (if ParentName(x) == k then [x] else [])
  {
    FilterAppend(init, [x], MemberOf(k));
    FilterSingle(x, MemberOf(k));
  }

  /** `gs` holds, for each key of `ks` in turn, that key and the elements of `s` in its group. */
  predicate Characterizes(gs: seq<Group>, ks: seq<string>, s: seq<Resource>)
  {
    |gs| == |ks| && forall i :: 0 <= i < |gs| ==> gs[i] == (ks[i], Filter(s, MemberOf(ks[i])))
  }

  lemma GroupByStepExisting(gs: seq<Group>, ks: seq<string>, init: seq<Resource>, x: Resource)
    requires Characterizes(gs, ks, init) && ParentName(x) in ks
    requires forall i, j :: 0 <= i < j < |ks| ==> ks[i] != ks[j]
    ensures Characterizes(AddToGroup(gs, x), ks, init + [x])
  {
    AddToGroupSpec(gs, ks, x);
    var r := AddToGroup(gs, x);
    forall i | 0 <= i < |r| ensures r[i] == (ks[i], Filter(init + [x], MemberOf(ks[i]))) {
      FilterStep(init, x, ks[i]);
      if ks[i] != ParentName(x) {
        var members := Filter(init, MemberOf(ks[i]));
        assert members + [] == members;
      }
    }
  }

  lemma GroupByStepNew(gs: seq<Group>, ks: seq<string>, init: seq<Resource>, x: Resource)
    requires Characterizes(gs, ks, init) && ParentName(x) !in ks
    requires forall i, j :: 0 <= i < j < |ks| ==> ks[i] != ks[j]
    requires forall y :: y in init ==> ParentName(y) in ks
    ensures Characterizes(AddToGroup(gs, x), ks + [ParentName(x)], init + [x])
  {
    AddToGroupSpec(gs, ks, x);
    var r, k, keys := AddToGroup(gs, x), ParentName(x), ks + [ParentName(x)];
    forall i | 0 <= i < |init| ensures !MemberOf(k)(init[i]) {
      assert init[i] in init;
    }
    FilterNone(init, MemberOf(k));
    forall i | 0 <= i < |r| ensures r[i] == (keys[i], Filter(init + [x], MemberOf(keys[i]))) {
      FilterStep(init, x, keys[i]);
      if i < |gs| {
        var members := Filter(init, MemberOf(ks[i]));
        assert members + [] == members;
      } else {
        assert Filter(init + [x], MemberOf(k)) == [] + [x] == [x];
      }
    }
  }

  /** The groups are the keys of `GroupKeys`, in that order, each with all its members in order. */
  lemma {:induction false} GroupByKeysAndMembers(s: seq<Resource>)
    ensures |GroupBy(s)| == |GroupKeys(s)|
    ensures forall i :: 0 <= i < |GroupBy(s)| ==>
      GroupBy(s)[i] == (GroupKeys(s)[i], Filter(s, MemberOf(GroupKeys(s)[i])))
  {
    if |s| > 0 {
      var init, x := s[..|s| - 1], s[|s| - 1];
      assert s == init + [x];
      GroupByKeysAndMembers(init);
      var gs, ks := GroupBy(init), GroupKeys(init);
      assert Characterizes(gs, ks, init);
      if ParentName(x) in ks {
        GroupByStepExisting(gs, ks, init, x);
      } else {
        GroupByStepNew(gs, ks, init, x);
      }
      assert Characterizes(GroupBy(s), GroupKeys(s), s);
    }
  }

  /** The members of a group, renamed to their child names, every other field kept. */
  function Renamed(members: seq<Resource>): seq<Resource>
  {
    seq(|members|, i requires 0 <= i < |members| => members[i].(name := members[i].SingletonChildName()))
  }

  /** The node standing for the singletons named `name=...` below `parent`. */
  function SyntheticParent(parent: Resource, name: string, members: seq<Resource>, freshId: string -> string): Resource
  {
    Resource(
      id := freshId(name),
      name := name,
      modelType := SINGLETON_PARENT_TYPE,
      address := parent.address + "/" + name,
      singleton := true,
      childDescriptions := map[],
      description := Get(parent.childDescriptions, name),
      deprecation := None,
      parent := None,
      children := Renamed(members),
      attributes := [],
      capabilities := [],
      operations := [])
  }

  function SingletonParents(parent: Resource, groups: seq<Group>, freshId: string -> string): seq<Resource>
  {
    seq(|groups|, i requires 0 <= i < |groups| => SyntheticParent(parent, groups[i].0, groups[i].1, freshId))
  }

  /** The singleton children of `children` whose parent name is `k`, in their original order. */
  function Members(children: seq<Resource>, k: string): seq<Resource>
  {
    Filter(Filter(children, IsSingleton), MemberOf(k))
  }

  /**
   * `groupChildren`: the non-singletons plus one synthetic parent per singleton
   * parent name, sorted by name. `freshId` stands for `Id.unique`.
   */
  function GroupChildren(parent: Resource, children: seq<Resource>, freshId: string -> string): seq<Resource>
  {
    var singletons := Filter(children, IsSingleton);
    var resources := Filter(children, IsNotSingleton);
    SortBy(resources + SingletonParents(parent, GroupBy(singletons), freshId), NameOf)
  }

  /** The synthetic parents of `children`, one per group key, in key order. */
  lemma GroupChildrenParents(parent: Resource, children: seq<Resource>, freshId: string -> string)
    ensures var singletons := Filter(children, IsSingleton);
      var keys := GroupKeys(singletons);
      var parents := SingletonParents(parent, GroupBy(singletons), freshId);
      |parents| == |keys|
      && (forall j :: 0 <= j < |parents| ==>
            parents[j] == SyntheticParent(parent, keys[j], Members(children, keys[j]), freshId))
      && multiset(GroupChildren(parent, children, freshId))
           == multiset(Filter(children, IsNotSingleton)) + multiset(parents)
  {
    GroupByKeysAndMembers(Filter(children, IsSingleton));
  }

  /** Every element of the grouped list is a non-singleton child or one of the synthetic parents. */
  lemma GroupChildrenOrigin(parent: Resource, children: seq<Resource>, freshId: string -> string, i: nat)
    requires i < |GroupChildren(parent, children, freshId)|
    ensures var c := GroupChildren(parent, children, freshId)[i];
      (!c.singleton && c in children)
      || (c.singleton && c.name in GroupKeys(Filter(children, IsSingleton))
          && c == SyntheticParent(parent, c.name, Members(children, c.name), freshId))
  {
    var r := GroupChildren(parent, children, freshId);
    var singletons := Filter(children, IsSingleton);
    var keys := GroupKeys(singletons);
    var parents := SingletonParents(parent, GroupBy(singletons), freshId);
    GroupChildrenParents(parent, children, freshId);
    assert r[i] in multiset(r);
    if r[i] !in multiset(Filter(children, IsNotSingleton)) {
      assert r[i] in parents;
      var j :| 0 <= j < |parents| && parents[j] == r[i];
      assert r[i].name == keys[j];
    }
  }

  /** Every non-singleton child appears in the grouped list, unchanged and as often as before. */
  lemma GroupChildrenKeepsResources(parent: Resource, children: seq<Resource>, freshId: string -> string)
    ensures forall c: Resource :: !c.singleton ==>
      multiset(GroupChildren(parent, children, freshId))[c] == multiset(children)[c]
  {
    var singletons := Filter(children, IsSingleton);
    var parents := SingletonParents(parent, GroupBy(singletons), freshId);
    GroupChildrenParents(parent, children, freshId);
    forall c: Resource | !c.singleton
      ensures multiset(GroupChildren(parent, children, freshId))[c] == multiset(children)[c]
    {
      FilterMultiset(children, IsNotSingleton, c);
      assert c !in parents;
    }
  }

  /** Each singleton in the grouped list is the synthetic parent of its group, with the fields `groupChildren` gives it. */
  lemma GroupChildrenSyntheticFields(parent: Resource, children: seq<Resource>, freshId: string -> string)
    ensures var r := GroupChildren(parent, children, freshId);
      forall i :: 0 <= i < |r| && r[i].singleton ==>
        var members := Members(children, r[i].name);
        r[i].modelType == SINGLETON_PARENT_TYPE
        && r[i].address == parent.address + "/" + r[i].name
        && r[i].description == Get(parent.childDescriptions, r[i].name)
        && r[i].id == freshId(r[i].name)
        && r[i].childDescriptions == map[] && r[i].deprecation == None && r[i].parent == None
        && r[i].attributes == [] && r[i].capabilities == [] && r[i].operations == []
        && |r[i].children| == |members|
        && (forall j :: 0 <= j < |members| ==>
              r[i].children[j] == members[j].(name := members[j].SingletonChildName()))
  {
    var r := GroupChildren(parent, children, freshId);
    forall i | 0 <= i < |r| && r[i].singleton
      ensures r[i] == SyntheticParent(parent, r[i].name, Members(children, r[i].name), freshId)
    {
      GroupChildrenOrigin(parent, children, freshId, i);
    }
  }

  /** Each synthetic parent in the grouped list is named after singleton children. */
  lemma GroupChildrenParentsNamed(parent: Resource, children: seq<Resource>, freshId: string -> string)
    ensures var r := GroupChildren(parent, children, freshId);
      forall i :: 0 <= i < |r| && r[i].singleton ==>
        exists c :: c in children && c.singleton && c.SingletonParentName() == r[i].name
  {
    var r := GroupChildren(parent, children, freshId);
    forall i | 0 <= i < |r| && r[i].singleton
      ensures exists c :: c in children && c.singleton && c.SingletonParentName() == r[i].name
    {
      GroupChildrenOrigin(parent, children, freshId, i);
      var c :| c in Filter(children, IsSingleton) && ParentName(c) == r[i].name;
      assert c in children && c.singleton;
    }
  }

  /** Each singleton child has a synthetic parent of its parent name in the grouped list. */
  lemma GroupChildrenCoversSingletons(parent: Resource, children: seq<Resource>, freshId: string -> string)
    ensures var r := GroupChildren(parent, children, freshId);
      forall c :: c in children && c.singleton ==>
        exists i :: 0 <= i < |r| && r[i].singleton && r[i].name == c.SingletonParentName()
  {
    var r := GroupChildren(parent, children, freshId);
    var singletons := Filter(children, IsSingleton);
    var keys := GroupKeys(singletons);
    var parents := SingletonParents(parent, GroupBy(singletons), freshId);
    GroupChildrenParents(parent, children, freshId);
    forall c | c in children && c.singleton
      ensures exists i :: 0 <= i < |r| && r[i].singleton && r[i].name == c.SingletonParentName()
    {
      FilterKeeps(children, IsSingleton, c);
      var k := c.SingletonParentName();
      assert ParentName(c) == k;
      assert k in keys;
      var j :| 0 <= j < |keys| && keys[j] == k;
      assert parents[j] in multiset(r);
      var i :| 0 <= i < |r| && r[i] == parents[j];
      assert r[i].singleton && r[i].name == k;
    }
  }

  /** Exactly one synthetic parent per name: two singletons in the grouped list with one name are the same element. */
  lemma GroupChildrenOneParentPerName(parent: Resource, children: seq<Resource>, freshId: string -> string)
    ensures var r := GroupChildren(parent, children, freshId);
      forall i, j :: 0 <= i < |r| && 0 <= j < |r| && r[i].singleton && r[j].singleton && r[i].name == r[j].name
        ==> i == j
  {
    var r := GroupChildren(parent, children, freshId);
    var singletons := Filter(children, IsSingleton);
    var keys := GroupKeys(singletons);
    var resources := Filter(children, IsNotSingleton);
    var parents := SingletonParents(parent, GroupBy(singletons), freshId);
    GroupChildrenParents(parent, children, freshId);
    forall i, j | 0 <= i < |r| && 0 <= j < |r| && r[i].singleton && r[j].singleton && r[i].name == r[j].name
      ensures i == j
    {
      if i != j {
        var k := r[i].name;
        var p := (x: Resource) => x.singleton && x.name == k;
        if i < j { FilterTwo(r, p, i, j); } else { FilterTwo(r, p, j, i); }
        assert multiset(r) == multiset(resources + parents);
        FilterPermutation(r, resources + parents, p);
        FilterAppend(resources, parents, p);
        FilterNone(resources, p);
        assert DistinctKeys(parents, NameOf) by {
          forall a, b | 0 <= a < b < |parents| ensures parents[a].name != parents[b].name {
            assert parents[a].name == keys[a] && parents[b].name == keys[b];
          }
        }
        DistinctKeysAtMostOne(parents, NameOf, k, p);
        assert false;
      }
    }
  }

  lemma {:induction false} DistinctCardinality(ks: seq<string>)
    requires forall i, j :: 0 <= i < j < |ks| ==> ks[i] != ks[j]
    ensures |set k | k in ks| == |ks|
  {
    if |ks| > 0 {
      var init := ks[..|ks| - 1];
      assert forall i, j :: 0 <= i < j < |init| ==> init[i] == ks[i] && init[j] == ks[j];
      DistinctCardinality(init);
      assert ks == init + [ks[|ks| - 1]];
      assert (set k | k in ks) == (set k | k in init) + {ks[|ks| - 1]};
      assert ks[|ks| - 1] !in init;
    }
  }

  /**
   * The grouped list is sorted by name, with the non-singletons of one name in
   * their order and before the synthetic parent of that name, and holds the
   * non-singletons plus one entry per distinct singleton parent name.
   */
  lemma GroupChildrenSizeAndOrder(parent: Resource, children: seq<Resource>, freshId: string -> string)
    ensures SortedBy(GroupChildren(parent, children, freshId), NameOf)
    ensures forall k ::
      Filter(GroupChildren(parent, children, freshId), KeyIs(NameOf, k))
      == Filter(Filter(children, IsNotSingleton), KeyIs(NameOf, k))
         + (if k in GroupKeys(Filter(children, IsSingleton))
            then [SyntheticParent(parent, k, Members(children, k), freshId)] else [])
    ensures |GroupChildren(parent, children, freshId)|
      == |Filter(children, IsNotSingleton)| + |set c | c in children && c.singleton :: c.SingletonParentName()|
  {
    var singletons := Filter(children, IsSingleton);
    var keys := GroupKeys(singletons);
    forall k
      ensures Filter(GroupChildren(parent, children, freshId), KeyIs(NameOf, k))
        == Filter(Filter(children, IsNotSingleton), KeyIs(NameOf, k))
           + (if k in keys then [SyntheticParent(parent, k, Members(children, k), freshId)] else [])
    {
      GroupChildrenTies(parent, children, freshId, k);
    }
    GroupChildrenParents(parent, children, freshId);
    DistinctCardinality(keys);
    assert (set k | k in keys) == (set c | c in children && c.singleton :: c.SingletonParentName()) by {
      forall k | k in keys ensures k in (set c | c in children && c.singleton :: c.SingletonParentName()) {
        var c :| c in singletons && ParentName(c) == k;
      }
      forall c | c in children && c.singleton ensures c.SingletonParentName() in keys {
        FilterKeeps(children, IsSingleton, c);
      }
    }
  }

  /** The synthetic parent named `k`, when some singleton's parent name is `k`, and no other. */
  lemma {:induction false} SingletonParentsNamed(parent: Resource, children: seq<Resource>, freshId: string -> string, k: string)
    ensures Filter(SingletonParents(parent, GroupBy(Filter(children, IsSingleton)), freshId), KeyIs(NameOf, k))
      == if k in GroupKeys(Filter(children, IsSingleton))
         then [SyntheticParent(parent, k, Members(children, k), freshId)] else []
  {
    var singletons := Filter(children, IsSingleton);
    var keys := GroupKeys(singletons);
    var parents := SingletonParents(parent, GroupBy(singletons), freshId);
    var p := KeyIs(NameOf, k);
    var groups := GroupBy(singletons);
    GroupByKeysAndMembers(singletons);
    assert |parents| == |keys|;
    forall i | 0 <= i < |parents| ensures parents[i].name == keys[i] {
      assert parents[i] == SyntheticParent(parent, groups[i].0, groups[i].1, freshId);
    }
    if k in keys {
      var j :| 0 <= j < |keys| && keys[j] == k;
      assert parents[j] == SyntheticParent(parent, k, Members(children, k), freshId) by {
        assert parents[j] == SyntheticParent(parent, groups[j].0, groups[j].1, freshId);
      }
      assert DistinctKeys(parents, NameOf);
      FilterDistinctKey(parents, NameOf, j);
    } else {
      forall i | 0 <= i < |parents| ensures !p(parents[i]) {
        assert keys[i] in keys;
      }
      FilterNone(parents, p);
    }
  }

  /**
   * The entries named `k` are the non-singleton children named `k`, in their
   * order, followed by the synthetic parent `k` when some singleton's parent
   * name is `k`: `sortedBy` is stable and `groupChildren` lists the plain
   * resources first.
   */
  lemma {:induction false} GroupChildrenTies(parent: Resource, children: seq<Resource>, freshId: string -> string, k: string)
    ensures Filter(GroupChildren(parent, children, freshId), KeyIs(NameOf, k))
      == Filter(Filter(children, IsNotSingleton), KeyIs(NameOf, k))
         + (if k in GroupKeys(Filter(children, IsSingleton))
            then [SyntheticParent(parent, k, Members(children, k), freshId)] else [])
  {
    var resources := Filter(children, IsNotSingleton);
    var parents := SingletonParents(parent, GroupBy(Filter(children, IsSingleton)), freshId);
    SortByStable(resources + parents, NameOf);
    FilterAppend(resources, parents, KeyIs(NameOf, k));
    SingletonParentsNamed(parent, children, freshId, k);
  }

  // ---------------------------------------------------------------------
  // The tree
  // ---------------------------------------------------------------------

  /** The regroup decision of `resourceItem`. */
  function Regroup(r: Resource, freshId: string -> string): (g: Resource)
    ensures r.SingletonParent() ==> g == r
    ensures !r.SingletonParent() ==> g == r.(children := GroupChildren(r, r.children, freshId))
  {
    if r.SingletonParent() then r else r.(children := GroupChildren(r, r.children, freshId))
  }

  function Max(s: seq<nat>): (m: nat)
    ensures forall i :: 0 <= i < |s| ==> s[i] <= m
    ensures |s| == 0 ==> m == 0
    ensures |s| > 0 ==> m in s
  {
    if |s| == 0 then 0
    else
      var rest := Max(s[1..]);
      assert forall i :: 1 <= i < |s| ==> s[i] == s[1..][i - 1];
      if s[0] >= rest then s[0] else rest
  }

  /** The height of a resource, as a tree of children. */
  function Height(r: Resource): nat
    decreases r
  {
    1 + Max(seq(|r.children|, i requires 0 <= i < |r.children| => Height(r.children[i])))
  }

  lemma ChildHeight(r: Resource, c: Resource)
    requires c in r.children
    ensures Height(c) < Height(r)
  {
    var i :| 0 <= i < |r.children| && r.children[i] == c;
    var hs := seq(|r.children|, i requires 0 <= i < |r.children| => Height(r.children[i]));
    assert hs[i] == Height(c);
  }

  /** A synthetic parent is no higher than the resource whose children it groups. */
  lemma SyntheticParentHeight(parent: Resource, name: string, members: seq<Resource>, freshId: string -> string)
    requires forall m :: m in members ==> m in parent.children
    ensures Height(SyntheticParent(parent, name, members, freshId)) <= Height(parent)
  {
    var sp := SyntheticParent(parent, name, members, freshId);
    var hs := seq(|sp.children|, i requires 0 <= i < |sp.children| => Height(sp.children[i]));
    forall i | 0 <= i < |hs| ensures hs[i] < Height(parent) {
      var m := members[i];
      assert sp.children[i] == m.(name := m.SingletonChildName());
      assert Height(sp.children[i]) == Height(m);
      ChildHeight(parent, m);
    }
    if |hs| > 0 {
      var j :| 0 <= j < |hs| && hs[j] == Max(hs);
    }
  }

  /** The measure under which `resourceItem` descends: synthetic parents rank below the resource they came from. */
  function Rank(r: Resource): nat
  {
    2 * Height(r) + (if r.SingletonParent() then 0 else 1)
  }

  lemma RegroupShrinks(r: Resource, freshId: string -> string)
    ensures forall i :: 0 <= i < |Regroup(r, freshId).children| ==> Rank(Regroup(r, freshId).children[i]) < Rank(r)
  {
    var g := Regroup(r, freshId);
    forall i | 0 <= i < |g.children| ensures Rank(g.children[i]) < Rank(r) {
      if r.SingletonParent() {
        ChildHeight(r, g.children[i]);
      } else {
        GroupChildrenOrigin(r, r.children, freshId, i);
        var c := g.children[i];
        if c.singleton {
          forall m | m in Members(r.children, c.name) ensures m in r.children { }
          SyntheticParentHeight(r, c.name, Members(r.children, c.name), freshId);
        } else {
          ChildHeight(r, c);
        }
      }
    }
  }

  /** A node of the tree view (patternfly's `TreeItem<Resource>`). */
  datatype TreeItem = TreeItem(item: Resource, children: seq<TreeItem>)

  /** `resourceItem`: the tree of `r`, regrouping the children of every node that is not a singleton parent. */
  function ResourceItem(r: Resource, freshId: string -> string): (t: TreeItem)
    ensures t.item == r
    ensures |t.children| == |Regroup(r, freshId).children|
    ensures forall i :: 0 <= i < |t.children| ==> t.children[i].item == Regroup(r, freshId).children[i]
    decreases Rank(r)
  {
    var g := Regroup(r, freshId);
    RegroupShrinks(r, freshId);
    TreeItem(r, seq(|g.children|, i requires 0 <= i < |g.children| => ResourceItem(g.children[i], freshId)))
  }

  /**
   * The resources of the tree that the `initialSelection` predicate accepts,
   * those at `address`, in tree order (a node before its descendants).
   */
  function InitiallySelected(t: TreeItem, address: string): (r: seq<Resource>)
    ensures forall x :: x in r ==> x.address == address
    ensures t.item.address == address ==> |r| > 0 && r[0] == t.item
    ensures forall x :: x in r ==> x == t.item || exists i :: 0 <= i < |t.children| && x in InitiallySelected(t.children[i], address)
    ensures forall i, x :: 0 <= i < |t.children| && x in InitiallySelected(t.children[i], address) ==> x in r
    decreases t
  {
    var below := seq(|t.children|, i requires 0 <= i < |t.children| => InitiallySelected(t.children[i], address));
    assert forall i :: 0 <= i < |t.children| ==> below[i] == InitiallySelected(t.children[i], address);
    (if t.item.address == address then [t.item] else []) + Flatten(below)
  }

  /** Every resource of the tree, a node before its descendants. */
  function Nodes(t: TreeItem): (r: seq<Resource>)
    ensures |r| > 0 && r[0] == t.item
    decreases t
  {
    [t.item] + Flatten(seq(|t.children|, i requires 0 <= i < |t.children| => Nodes(t.children[i])))
  }

  function AtAddress(address: string): Resource -> bool
  {
    (r: Resource) => r.address == address
  }

  /** The initial selection is exactly the nodes at the address, in tree order. */
  lemma {:induction false} InitiallySelectedIsAtAddress(t: TreeItem, address: string)
    ensures InitiallySelected(t, address) == Filter(Nodes(t), AtAddress(address))
    decreases t
  {
    var p := AtAddress(address);
    var nodes := seq(|t.children|, i requires 0 <= i < |t.children| => Nodes(t.children[i]));
    var below := seq(|t.children|, i requires 0 <= i < |t.children| => InitiallySelected(t.children[i], address));
    forall i | 0 <= i < |t.children|
      ensures Filter(nodes[i], p) == below[i]
    {
      InitiallySelectedIsAtAddress(t.children[i], address);
    }
    FilterAppend([t.item], Flatten(nodes), p);
    FilterSingle(t.item, p);
    FilterFlatten(nodes, p);
    assert seq(|nodes|, i requires 0 <= i < |nodes| => Filter(nodes[i], p)) == below;
  }

  /** Below a singleton parent the tree shows its children as they are, in their order. */
  lemma SingletonParentItemsUngrouped(r: Resource, freshId: string -> string)
    requires r.SingletonParent()
    ensures |ResourceItem(r, freshId).children| == |r.children|
    ensures forall i :: 0 <= i < |r.children| ==> ResourceItem(r, freshId).children[i].item == r.children[i]
  {
  }

  /** `readChildren`: the grouped children of `parent`, each with its own children as leaves to be fetched later. */
  function ReadChildren(parent: Resource, fetched: seq<Resource>, freshId: string -> string): (items: seq<TreeItem>)
    ensures |items| == |GroupChildren(parent, fetched, freshId)|
    ensures forall i :: 0 <= i < |items| ==>
      var res := GroupChildren(parent, fetched, freshId)[i];
      items[i].item == res && |items[i].children| == |res.children|
      && forall j :: 0 <= j < |res.children| ==> items[i].children[j] == TreeItem(res.children[j], [])
  {
    var grouped := GroupChildren(parent, fetched, freshId);
    seq(|grouped|, i requires 0 <= i < |grouped| =>
      TreeItem(grouped[i], seq(|grouped[i].children|, j requires 0 <= j < |grouped[i].children| =>
        TreeItem(grouped[i].children[j], []))))
  }

  // ---------------------------------------------------------------------
  // Deep links
  // ---------------------------------------------------------------------

  /** The address a browse request names: its `address` parameter, or the root. */
  function RequestedAddress(place: PlaceRequest): (a: string)
    ensures "address" in place.params ==> a == place.params["address"]
    ensures "address" !in place.params ==> a == "/"
  {
    Get(place.params, "address").GetOr("/")
  }

  /** The tab and entry to highlight: attribute before operation before capability. */
  function DeepLinkOf(attribute: Option<string>, operation: Option<string>, capability: Option<string>): (t: Option<(ResourceProperty, string)>)
    ensures t.None? <==> attribute.None? && operation.None? && capability.None?
    ensures attribute.Some? ==> t == Some((Attributes, attribute.value))
    ensures attribute.None? && operation.Some? ==> t == Some((Operations, operation.value))
    ensures attribute.None? && operation.None? && capability.Some? ==> t == Some((Capabilities, capability.value))
  {
    if attribute.Some? then Some((Attributes, attribute.value))
    else if operation.Some? then Some((Operations, operation.value))
    else if capability.Some? then Some((Capabilities, capability.value))
    else None
  }

  /** The deep link of a request names a parameter it carries, under that parameter's own key. */
  lemma DeepLinkNamesItsParameter(place: PlaceRequest)
    ensures var t := DeepLinkOf(Get(place.params, "attribute"), Get(place.params, "operation"), Get(place.params, "capability"));
      (t.Some? ==> t.value.0.Key() in place.params && place.params[t.value.0.Key()] == t.value.1)
      && (t.None? <==> "attribute" !in place.params && "operation" !in place.params && "capability" !in place.params)
  {
  }

  /** Reading back an attribute link gives its address and attribute, and no operation or capability. */
  lemma BrowseAttributeReadBack(address: string, attribute: string)
    ensures var p := BrowseAttribute(address, attribute);
      RequestedAddress(p) == address && Get(p.params, "attribute") == Some(attribute)
      && Get(p.params, "operation") == None && Get(p.params, "capability") == None
      && DeepLinkOf(Get(p.params, "attribute"), Get(p.params, "operation"), Get(p.params, "capability"))
           == Some((Attributes, attribute))
  {
  }

  /** Reading back an operation link gives its address and operation as the deep link. */
  lemma BrowseOperationReadBack(address: string, operation: string)
    ensures var p := BrowseOperation(address, operation);
      RequestedAddress(p) == address && Get(p.params, "attribute") == None
      && Get(p.params, "operation") == Some(operation) && Get(p.params, "capability") == None
      && DeepLinkOf(Get(p.params, "attribute"), Get(p.params, "operation"), Get(p.params, "capability"))
           == Some((Operations, operation))
  {
  }

  /** A capability link names no address, so it opens the root with the capability as deep link. */
  lemma BrowseCapabilityReadBack(capability: string)
    ensures var p := BrowseCapability(capability);
      RequestedAddress(p) == "/" && Get(p.params, "attribute") == None
      && Get(p.params, "operation") == None && Get(p.params, "capability") == Some(capability)
      && DeepLinkOf(Get(p.params, "attribute"), Get(p.params, "operation"), Get(p.params, "capability"))
           == Some((Capabilities, capability))
  {
  }

  /** A resource link opens its address with no deep link. */
  lemma BrowseResourceReadBack(address: string)
    ensures var p := BrowseResource(address);
      RequestedAddress(p) == address
      && DeepLinkOf(Get(p.params, "attribute"), Get(p.params, "operation"), Get(p.params, "capability")) == None
  {
  }

  /** What the details pane shows. */
  datatype ResourceState = NoResourceDetails | ResourceDetails(resource: Resource)

  function AttributeName(a: Attribute): string { a.name }

  function OperationName(o: Operation): string { o.name }

  function CapabilityName(c: Capability): string { c.name }

  /**
   * The state of `BrowsePresenter`: the deep-link fields, the tree, the details
   * pane and the three tables. The dispatcher's fetches come in as arguments.
   */
  class BrowsePresenter {
    var address: string
    var attribute: Option<string>
    var operation: Option<string>
    var capability: Option<string>
    var tree: Option<TreeItem>
    var initialSelection: seq<Resource>
    var resourceState: ResourceState
    var attributes: seq<Attribute>
    var operations: seq<Operation>
    var capabilities: seq<Capability>

    constructor ()
      ensures address == "" && attribute == None && operation == None && capability == None
      ensures tree == None && initialSelection == [] && resourceState == NoResourceDetails
      ensures attributes == [] && operations == [] && capabilities == []
    {
      address := "";
      attribute := None;
      operation := None;
      capability := None;
      tree := None;
      initialSelection := [];
      resourceState := NoResourceDetails;
      attributes := [];
      operations := [];
      capabilities := [];
    }

    /** The deep link the current fields ask for. */
    function DeepLink(): Option<(ResourceProperty, string)>
      reads this
    {
      DeepLinkOf(attribute, operation, capability)
    }

    /** `prepareFromRequest`: the address defaults to the root; the other three are copied as given. */
    method PrepareFromRequest(place: PlaceRequest)
      modifies this`address, this`attribute, this`operation, this`capability
      ensures address == RequestedAddress(place)
      ensures attribute == Get(place.params, "attribute")
      ensures operation == Get(place.params, "operation")
      ensures capability == Get(place.params, "capability")
    {
      address := RequestedAddress(place);
      attribute := Get(place.params, "attribute");
      operation := Get(place.params, "operation");
      capability := Get(place.params, "capability");
    }

    /**
     * `show`: the tree of the subtree fetched at the requested address replaces
     * the tree, the items at that address are the initial selection, and the
     * tab and entry to highlight, if any, are returned.
     */
    method Show(fetchSubtree: string -> Resource, freshId: string -> string) returns (target: Option<(ResourceProperty, string)>)
      modifies this`tree, this`initialSelection
      ensures tree == Some(ResourceItem(fetchSubtree(address), freshId))
      ensures initialSelection == InitiallySelected(ResourceItem(fetchSubtree(address), freshId), address)
      ensures target == DeepLink()
    {
      var subtree := fetchSubtree(address);
      var t := ResourceItem(subtree, freshId);
      tree := Some(t);
      initialSelection := InitiallySelected(t, address);
      target := DeepLinkOf(attribute, operation, capability);
    }

    /**
     * Selecting a tree item: a singleton parent loads nothing; any other item
     * loads the resource at its address, and the tables show its attributes,
     * operations and capabilities stably sorted by name.
     */
    method Select(item: Resource, fetch: string -> Resource)
      modifies this`resourceState, this`attributes, this`operations, this`capabilities
      ensures item.SingletonParent() ==>
        resourceState == old(resourceState) && attributes == old(attributes)
        && operations == old(operations) && capabilities == old(capabilities)
      ensures !item.SingletonParent() ==> resourceState == ResourceDetails(fetch(item.address))
      ensures !item.SingletonParent() ==>
        multiset(attributes) == multiset(fetch(item.address).attributes) && SortedBy(attributes, AttributeName)
        && multiset(operations) == multiset(fetch(item.address).operations) && SortedBy(operations, OperationName)
        && multiset(capabilities) == multiset(fetch(item.address).capabilities) && SortedBy(capabilities, CapabilityName)
      ensures !item.SingletonParent() ==>
        SameTies(fetch(item.address).attributes, attributes, AttributeName)
        && SameTies(fetch(item.address).operations, operations, OperationName)
        && SameTies(fetch(item.address).capabilities, capabilities, CapabilityName)
    {
      if !item.SingletonParent() {
        var resource := fetch(item.address);
        resourceState := ResourceDetails(resource);
        attributes := SortBy(resource.attributes, AttributeName);
        operations := SortBy(resource.operations, OperationName);
        capabilities := SortBy(resource.capabilities, CapabilityName);
        SortByStable(resource.attributes, AttributeName);
        SortByStable(resource.operations, OperationName);
        SortByStable(resource.capabilities, CapabilityName);
      }
    }
  }
}
