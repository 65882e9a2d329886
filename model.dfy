/**
 * The management-model records the backend sends (Model.kt): attributes,
 * capabilities, operations, parameters, resources, deprecations and versions,
 * their computed properties, and the process-wide cache of global operations.
 */
module ModelGraph {
  import opened Optional
  import opened Strings

  /** The model type of the tree nodes the browser synthesises for singleton groups. */
  const SINGLETON_PARENT_TYPE: string := "SingletonParentResource"

  datatype Version = Version(id: string, modelType: string, major: int, minor: int, patch: int)
  {
    function Name(): string { "" }

    /** `major.minor.patch`. */
    function ToString(): string
    {
      IntToString(major) + "." + IntToString(minor) + "." + IntToString(patch)
    }
  }

  /** Reads back what `Version.ToString` writes. */
  function ParseVersion(s: string): Option<(int, int, int)>
  {
    var parts := Split(s, '.');
    if |parts| != 3 then None
    else
      match (ParseInt(parts[0]), ParseInt(parts[1]), ParseInt(parts[2]))
      case (Some(major), Some(minor), Some(patch)) => Some((major, minor, patch))
      case _ => None
  }

  /** The version string holds the three numbers, in order, separated by dots. */
  lemma VersionRoundTrip(v: Version)
    ensures ParseVersion(v.ToString()) == Some((v.major, v.minor, v.patch))
  {
    var parts := [IntToString(v.major), IntToString(v.minor), IntToString(v.patch)];
    assert Join(parts[2..], ".") == IntToString(v.patch);
    assert Join(parts[1..], ".") == IntToString(v.minor) + "." + IntToString(v.patch);
    assert Join(parts, ".") == v.ToString();
    SplitJoin(parts, '.');
    ParseIntToString(v.major);
    ParseIntToString(v.minor);
    ParseIntToString(v.patch);
  }

  /** Two versions print the same exactly when their numbers agree. */
  lemma VersionToStringInjective(v: Version, w: Version)
    ensures v.ToString() == w.ToString() <==> (v.major, v.minor, v.patch) == (w.major, w.minor, w.patch)
  {
    VersionRoundTrip(v);
    VersionRoundTrip(w);
  }

  datatype Deprecation = Deprecation(modelType: string, reason: string, since: Version)
  {
    function Id(): string { "" }
    function Name(): string { "" }
  }

  /** The `type` / `valueType` pair shared by attributes and parameters (Kotlin's `Typed`). */
  datatype Typed = Typed(typeName: string, valueType: Option<string>)

  datatype Attribute = Attribute(
    id: string,
    name: string,
    modelType: string,
    typeName: string,
    accessType: Option<string>,
    alias: Option<string>,
    attributeGroup: Option<string>,
    defaultValue: Option<string>,
    description: Option<string>,
    expressionAllowed: bool,
    max: int,
    maxLength: int,
    min: int,
    minLength: int,
    nillable: bool,
    required: bool,
    restartRequired: Option<string>,
    since: Option<string>,
    storage: Option<string>,
    unit: Option<string>,
    valueType: Option<string>,
    deprecation: Option<Deprecation>,
    attributes: seq<Attribute>,
    alternatives: seq<string>,
    capability: Option<string>,
    definedIn: Option<string>,
    requirements: seq<string>)
  {
    function AsTyped(): Typed { Typed(typeName, valueType) }
    predicate Deprecated() { deprecation.Some? }
  }

  datatype Capability = Capability(id: string, name: string, modelType: string, declaredBy: seq<string>)

  datatype Parameter = Parameter(
    id: string,
    name: string,
    modelType: string,
    typeName: string,
    description: Option<string>,
    expressionAllowed: bool,
    max: int,
    maxLength: int,
    min: int,
    minLength: int,
    nillable: bool,
    required: bool,
    since: Option<string>,
    unit: Option<string>,
    valueType: Option<string>,
    deprecation: Option<Deprecation>,
    alternatives: seq<string>,
    capability: Option<string>,
    parameters: seq<Parameter>,
    requirements: seq<string>)
  {
    function AsTyped(): Typed { Typed(typeName, valueType) }
    predicate Deprecated() { deprecation.Some? }
  }

  datatype Operation = Operation(
    id: string,
    name: string,
    modelType: string,
    global: bool,
    description: Option<string>,
    readOnly: bool,
    returnValue: Option<string>,
    runtimeOnly: bool,
    deprecation: Option<Deprecation>,
    parameters: seq<Parameter>,
    providedBy: Option<string>)
  {
    predicate Deprecated() { deprecation.Some? }
  }

  datatype Resource = Resource(
    id: string,
    name: string,
    modelType: string,
    address: string,
    singleton: bool,
    childDescriptions: map<string, string>,
    description: Option<string>,
    deprecation: Option<Deprecation>,
    parent: Option<Resource>,
    children: seq<Resource>,
    attributes: seq<Attribute>,
    capabilities: seq<Capability>,
    operations: seq<Operation>)
  {
    predicate Deprecated() { deprecation.Some? }

    /** A node the browser synthesised to group singletons. */
    predicate SingletonParent() { modelType == SINGLETON_PARENT_TYPE }

    /** For `type=name` singletons the `type` part; otherwise the whole name. */
    function SingletonParentName(): (r: string)
      ensures !singleton ==> r == name
      ensures singleton ==> r == SubstringBefore(name, '=')
    {
      if singleton then SubstringBefore(name, '=') else name
    }

    /** For `type=name` singletons the `name` part; otherwise the whole name. */
    function SingletonChildName(): (r: string)
      ensures !singleton ==> r == name
      ensures singleton ==> r == SubstringAfter(name, '=')
    {
      if singleton then SubstringAfter(name, '=') else name
    }

    /** `Resource(id, address)`, tagged `singleton-parent` in preference to `singleton`. */
    function ToString(): string
    {
      "Resource(" + id + ", " + address
        + (if SingletonParent() then ", singleton-parent" else if singleton then ", singleton" else "")
        + ")"
    }
  }

  /** A singleton named `type=name` splits at its first `=` into the two derived names. */
  lemma SingletonNamesSplit(r: Resource)
    requires r.singleton && '=' in r.name
    ensures r.SingletonParentName() + "=" + r.SingletonChildName() == r.name
    ensures '=' !in r.SingletonParentName()
    ensures |r.SingletonParentName()| < |r.name| && |r.SingletonChildName()| < |r.name|
  {
    SubstringsAroundFirst(r.name, '=');
  }

  /** A singleton whose name has no `=`, like a non-singleton, keeps its name for both. */
  lemma SingletonNamesWithoutSeparator(r: Resource)
    requires !r.singleton || '=' !in r.name
    ensures r.SingletonParentName() == r.name && r.SingletonChildName() == r.name
  {
  }

  /** Gluing a group name and a child name with `=` gives a singleton whose derived names are those. */
  lemma SingletonNamesOfGlued(r: Resource, group: string, child: string)
    requires r.singleton && '=' !in group && r.name == group + "=" + child
    ensures r.SingletonParentName() == group && r.SingletonChildName() == child
  {
    SubstringsOfGlued(group, '=', child);
  }

  /** The debug string names exactly one of the two singleton tags, or none. */
  lemma ResourceToStringTags(r: Resource)
    ensures r.SingletonParent() ==> r.ToString() == "Resource(" + r.id + ", " + r.address + ", singleton-parent)"
    ensures !r.SingletonParent() && r.singleton ==> r.ToString() == "Resource(" + r.id + ", " + r.address + ", singleton)"
    ensures !r.SingletonParent() && !r.singleton ==> r.ToString() == "Resource(" + r.id + ", " + r.address + ")"
  {
  }

  /** Kotlin's sealed class `Model`: everything a query can return. */
  datatype Model =
    | AttributeModel(attribute: Attribute)
    | CapabilityModel(capability: Capability)
    | DeprecationModel(deprecation: Deprecation)
    | OperationModel(operation: Operation)
    | ParameterModel(parameter: Parameter)
    | ResourceModel(resource: Resource)
    | VersionModel(version: Version)
  {
    function Id(): string
    {
      match this
      case AttributeModel(a) => a.id
      case CapabilityModel(c) => c.id
      case DeprecationModel(d) => d.Id()
      case OperationModel(o) => o.id
      case ParameterModel(p) => p.id
      case ResourceModel(r) => r.id
      case VersionModel(v) => v.id
    }

    function Name(): string
    {
      match this
      case AttributeModel(a) => a.name
      case CapabilityModel(c) => c.name
      case DeprecationModel(d) => d.Name()
      case OperationModel(o) => o.name
      case ParameterModel(p) => p.name
      case ResourceModel(r) => r.name
      case VersionModel(v) => v.Name()
    }

    function ModelType(): string
    {
      match this
      case AttributeModel(a) => a.modelType
      case CapabilityModel(c) => c.modelType
      case DeprecationModel(d) => d.modelType
      case OperationModel(o) => o.modelType
      case ParameterModel(p) => p.modelType
      case ResourceModel(r) => r.modelType
      case VersionModel(v) => v.modelType
    }
  }

  /** The result of a query: four lists of models. */
  datatype Models = Models(
    attributes: seq<Attribute>,
    capabilities: seq<Capability>,
    operations: seq<Operation>,
    resources: seq<Resource>)
  {
    /** The number of models found. */
    function Size(): nat
    {
      |attributes| + |capabilities| + |operations| + |resources|
    }

    /** All models, attributes first, then capabilities, operations and resources. */
    function All(): (r: seq<Model>)
      ensures |r| == Size()
      ensures forall i :: 0 <= i < |attributes| ==> r[i] == AttributeModel(attributes[i])
      ensures forall i :: 0 <= i < |capabilities| ==> r[|attributes| + i] == CapabilityModel(capabilities[i])
      ensures forall i :: 0 <= i < |operations| ==>
        r[|attributes| + |capabilities| + i] == OperationModel(operations[i])
      ensures forall i :: 0 <= i < |resources| ==>
        r[|attributes| + |capabilities| + |operations| + i] == ResourceModel(resources[i])
    {
      seq(|attributes|, i requires 0 <= i < |attributes| => AttributeModel(attributes[i]))
        + seq(|capabilities|, i requires 0 <= i < |capabilities| => CapabilityModel(capabilities[i]))
        + seq(|operations|, i requires 0 <= i < |operations| => OperationModel(operations[i]))
        + seq(|resources|, i requires 0 <= i < |resources| => ResourceModel(resources[i]))
    }

    /**
     * Kotlin's `toString()` as written: `Models(a(n),c(n),o(n),r(n)`, whose
     * outer parenthesis is never closed.
     */
    function ToStringAsWritten(): string
    {
      "Models(" + Counter("a", |attributes|) + "," + Counter("c", |capabilities|)
        + "," + Counter("o", |operations|) + "," + Counter("r", |resources|)
    }

    /** The debug string with its outer parenthesis closed. */
    function ToString(): string
    {
      ToStringAsWritten() + ")"
    }
  }

  /** One `tag(n)` entry of the debug string of `Models`. */
  function Counter(tag: string, n: nat): string
  {
    tag + "(" + NatToString(n) + ")"
  }

  /** A query found nothing exactly when the list of all its models is empty. */
  lemma SizeZeroIffNoModels(m: Models)
    ensures m.Size() == 0 <==> m.All() == []
  {
  }

  /** Number of occurrences of `c` in `s`. */
  function Occurrences(s: string, c: char): nat
  {
    if |s| == 0 then 0 else (if s[0] == c then 1 else 0) + Occurrences(s[1..], c)
  }

  lemma {:induction false} OccurrencesAppend(a: string, b: string, c: char)
    ensures Occurrences(a + b, c) == Occurrences(a, c) + Occurrences(b, c)
  {
    if |a| == 0 {
      assert a + b == b;
    } else {
      assert (a + b)[1..] == a[1..] + b;
      OccurrencesAppend(a[1..], b, c);
    }
  }

  lemma {:induction false} OccurrencesAbsent(s: string, c: char)
    requires c !in s
    ensures Occurrences(s, c) == 0
  {
    if |s| > 0 {
      assert s[0] != c;
      OccurrencesAbsent(s[1..], c);
    }
  }

  /** Each counter opens and closes one parenthesis. */
  lemma CounterParentheses(tag: string, n: nat)
    requires '(' !in tag && ')' !in tag
    ensures Occurrences(Counter(tag, n), '(') == 1 && Occurrences(Counter(tag, n), ')') == 1
  {
    var d := NatToString(n);
    assert '(' !in d && ')' !in d by {
      forall i | 0 <= i < |d| ensures d[i] != '(' && d[i] != ')' {
        assert IsDigit(d[i]);
      }
    }
    OccurrencesAbsent(tag, '(');
    OccurrencesAbsent(tag, ')');
    OccurrencesAbsent(d, '(');
    OccurrencesAbsent(d, ')');
    OccurrencesAppend(tag, "(", '(');
    OccurrencesAppend(tag, "(", ')');
    OccurrencesAppend(tag + "(", d, '(');
    OccurrencesAppend(tag + "(", d, ')');
    OccurrencesAppend(tag + "(" + d, ")", '(');
    OccurrencesAppend(tag + "(" + d, ")", ')');
  }

  /** Appending a counter and a separator free of parentheses adds one of each. */
  lemma AppendCounterParentheses(prefix: string, tag: string, n: nat)
    requires '(' !in tag && ')' !in tag
    ensures Occurrences(prefix + "," + Counter(tag, n), '(') == Occurrences(prefix, '(') + 1
    ensures Occurrences(prefix + "," + Counter(tag, n), ')') == Occurrences(prefix, ')') + 1
  {
    CounterParentheses(tag, n);
    OccurrencesAppend(prefix, ",", '(');
    OccurrencesAppend(prefix, ",", ')');
    OccurrencesAppend(prefix + ",", Counter(tag, n), '(');
    OccurrencesAppend(prefix + ",", Counter(tag, n), ')');
  }

  /** Counts of the parentheses of the debug string: five opened, four closed as written. */
  lemma ModelsToStringParentheses(m: Models)
    ensures Occurrences(m.ToStringAsWritten(), '(') == 5
    ensures Occurrences(m.ToStringAsWritten(), ')') == 4
    ensures Occurrences(m.ToString(), '(') == Occurrences(m.ToString(), ')')
  {
    var head := "Models(" + Counter("a", |m.attributes|);
    assert "Models(" == "Models" + "(";
    OccurrencesAbsent("Models", '(');
    OccurrencesAbsent("Models", ')');
    OccurrencesAppend("Models", "(", '(');
    OccurrencesAppend("Models", "(", ')');
    CounterParentheses("a", |m.attributes|);
    OccurrencesAppend("Models(", Counter("a", |m.attributes|), '(');
    OccurrencesAppend("Models(", Counter("a", |m.attributes|), ')');
    var withC := head + "," + Counter("c", |m.capabilities|);
    AppendCounterParentheses(head, "c", |m.capabilities|);
    var withO := withC + "," + Counter("o", |m.operations|);
    AppendCounterParentheses(withC, "o", |m.operations|);
    AppendCounterParentheses(withO, "r", |m.resources|);
    var s := m.ToStringAsWritten();
    assert s == withO + "," + Counter("r", |m.resources|);
    OccurrencesAppend(s, ")", '(');
    OccurrencesAppend(s, ")", ')');
  }

  /**
   * The process-wide list `Operation.globalOperations`: empty at start, later
   * holding the global operations of the first resource that had any.
   */
  class GlobalOperations {
    var operations: seq<Operation>

    /** Only global operations are ever cached. */
    ghost predicate Valid()
      reads this
    {
      forall i :: 0 <= i < |operations| ==> operations[i].global
    }

    constructor ()
      ensures operations == [] && Valid()
    {
      operations := [];
    }
  }
}
