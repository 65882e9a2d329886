/**
 * How models are shown in the result lists (ModelDisplay.kt): the badge of a
 * model type, the type of an attribute or parameter, the signature of an
 * operation, and the cell each kind of model gets, with its links.
 */
module ModelDisplay {
  import opened Optional
  import opened Strings
  import opened ModelGraph
  import opened Places

  /** The badge class of a model type: `mgb-` and the lower-cased type. */
  function BadgeClass(modelType: string): (c: string)
    ensures |c| == 4 + |modelType| && c[..4] == "mgb-"
    ensures forall i :: 4 <= i < |c| ==> !IsUpper(c[i])
    ensures forall i :: 0 <= i < |modelType| && !IsUpper(modelType[i]) ==> c[4 + i] == modelType[i]
    ensures forall i :: 0 <= i < |modelType| && IsUpper(modelType[i]) ==> c[4 + i] as int == modelType[i] as int + 32
  {
    "mgb-" + ToLower(modelType)
  }

  /** The badge ignores the case of the model type. */
  lemma BadgeClassIgnoresCase(modelType: string)
    ensures BadgeClass(ToLower(modelType)) == BadgeClass(modelType)
  {
    ToLowerIdempotent(modelType);
  }

  /** `type(typed)`: the type, followed by `<valueType>` when there is one. */
  function TypeString(t: Typed): string
  {
    t.typeName + (if t.valueType.Some? then "<" + t.valueType.value + ">" else "")
  }

  /** The type and value type can be read back from the text, the value type between `<` and the closing `>`. */
  lemma TypeStringReadBack(t: Typed)
    requires '<' !in t.typeName
    ensures SubstringBefore(TypeString(t), '<') == t.typeName
    ensures '<' in TypeString(t) <==> t.valueType.Some?
    ensures t.valueType.Some? ==> SubstringAfter(TypeString(t), '<') == t.valueType.value + ">"
    ensures t.valueType.None? ==> TypeString(t) == t.typeName
  {
    if t.valueType.Some? {
      var rest := t.valueType.value + ">";
      assert TypeString(t) == t.typeName + ['<'] + rest;
      SubstringsOfGlued(t.typeName, '<', rest);
    } else {
      assert TypeString(t) == t.typeName;
    }
  }

  /** One entry of an operation signature: `type name`. */
  function ParameterEntry(p: Parameter): string
  {
    TypeString(p.AsTyped()) + " " + p.name
  }

  function Entries(parameters: seq<Parameter>): (es: seq<string>)
    ensures |es| == |parameters|
    ensures forall i :: 0 <= i < |parameters| ==> es[i] == ParameterEntry(parameters[i])
  {
    seq(|parameters|, i requires 0 <= i < |parameters| => ParameterEntry(parameters[i]))
  }

  /** The parameter entries, each its type and its name, joined by `, ` inside parentheses. */
  function Signature(parameters: seq<Parameter>): string
  {
    "(" + Join(Entries(parameters), ", ") + ")"
  }

  /** No parameters give `()`, one gives `(type name)`, and each further one adds `, type name` before the `)`. */
  lemma SignatureShape(parameters: seq<Parameter>, p: Parameter)
    ensures Signature([]) == "()"
    ensures Signature([p]) == "(" + ParameterEntry(p) + ")"
    ensures |parameters| > 0 ==>
      Signature(parameters + [p]) == "(" + Join(Entries(parameters), ", ") + ", " + ParameterEntry(p) + ")"
  {
    assert Entries([p]) == [ParameterEntry(p)];
    if |parameters| > 0 {
      assert Entries(parameters + [p]) == Entries(parameters) + [ParameterEntry(p)];
      JoinAppend(Entries(parameters), ", ", ParameterEntry(p));
    }
  }

  /** A link: the text shown and the place it leads to. */
  datatype Link = Link(text: string, place: PlaceRequest)

  /** The content of `modelCell` for each kind of model. */
  datatype Cell =
    | AttributeCell(typeText: string, name: string, nameLink: Option<Link>, definedIn: Option<Link>)
    | CapabilityCell(link: Link)
    | OperationCell(providedBy: Option<Link>, name: string, nameLink: Option<Link>, signature: string)
    | ResourceCell(link: Link)
    | UnsupportedCell(message: string)

  function AttributeCellOf(a: Attribute): Cell
  {
    AttributeCell(
      TypeString(a.AsTyped()),
      a.name,
      if a.definedIn.Some? then Some(Link(a.name, BrowseAttribute(a.definedIn.value, a.name))) else None,
      if a.definedIn.Some? then Some(Link(a.definedIn.value, BrowseResource(a.definedIn.value))) else None)
  }

  function OperationCellOf(o: Operation): Cell
  {
    OperationCell(
      if o.providedBy.Some? then Some(Link(o.providedBy.value, BrowseResource(o.providedBy.value))) else None,
      o.name,
      if o.providedBy.Some? then Some(Link(o.name, BrowseOperation(o.providedBy.value, o.name))) else None,
      Signature(o.parameters))
  }

  /** `modelCell`: the cell of the model's own kind, or a notice for the kinds a list does not show. */
  function ModelCell(m: Model): (c: Cell)
    ensures c.AttributeCell? <==> m.AttributeModel?
    ensures c.CapabilityCell? <==> m.CapabilityModel?
    ensures c.OperationCell? <==> m.OperationModel?
    ensures c.ResourceCell? <==> m.ResourceModel?
    ensures c.UnsupportedCell? <==> (m.DeprecationModel? || m.ParameterModel? || m.VersionModel?)
    ensures c.UnsupportedCell? ==> c.message == "Unsupported model type " + m.ModelType()
  {
    match m
    case AttributeModel(a) => AttributeCellOf(a)
    case CapabilityModel(c) => CapabilityCell(Link(c.name, BrowseCapability(c.name)))
    case OperationModel(o) => OperationCellOf(o)
    case ResourceModel(r) => ResourceCell(Link(r.address, BrowseResource(r.address)))
    case _ => UnsupportedCell("Unsupported model type " + m.ModelType())
  }

  /** An attribute name is a link exactly when the attribute says where it is defined, to that attribute there. */
  lemma AttributeLinks(a: Attribute)
    ensures var c := ModelCell(AttributeModel(a));
      (c.nameLink.Some? <==> a.definedIn.Some?) && (c.definedIn.Some? <==> a.definedIn.Some?)
      && (a.definedIn.Some? ==>
            c.nameLink.value.place.params == map["address" := a.definedIn.value, "attribute" := a.name]
            && c.definedIn.value.place.params == map["address" := a.definedIn.value])
      && c.typeText == TypeString(a.AsTyped()) && c.name == a.name
  {
  }

  /** An operation name is a link exactly when the operation says who provides it, to that operation there. */
  lemma OperationLinks(o: Operation)
    ensures var c := ModelCell(OperationModel(o));
      (c.nameLink.Some? <==> o.providedBy.Some?) && (c.providedBy.Some? <==> o.providedBy.Some?)
      && (o.providedBy.Some? ==>
            c.nameLink.value.place.params == map["address" := o.providedBy.value, "operation" := o.name]
            && c.providedBy.value.place.params == map["address" := o.providedBy.value])
      && c.signature == Signature(o.parameters) && c.name == o.name
  {
  }

  /** `capabilityDescription`: one link per declaring resource. */
  function DeclaredByLinks(c: Capability): (links: seq<Link>)
    ensures |links| == |c.declaredBy|
    ensures forall i :: 0 <= i < |links| ==>
      links[i].text == c.declaredBy[i] && links[i].place.params == map["address" := c.declaredBy[i]]
  {
    seq(|c.declaredBy|, i requires 0 <= i < |c.declaredBy| => Link(c.declaredBy[i], BrowseResource(c.declaredBy[i])))
  }
}
