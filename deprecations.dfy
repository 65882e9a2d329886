/**
 * The list of deprecated models (Deprecations.kt). Its badge, type text,
 * signature and cells are those of the result lists, so they are taken from
 * `ModelDisplay`; what it adds is the expandable description of each entry.
 */
module Deprecations {
  import opened Optional
  import opened ModelGraph
  import opened ModelDisplay

  const NO_DESCRIPTION: string := "No description available"

  /** The expandable content of an entry. */
  datatype Details =
    | DescriptionText(text: string)
    | DeclaredBy(links: seq<Link>)
    | UnsupportedDetails(message: string)

  /** The description, or a fixed notice without one; a capability lists its declaring resources instead. */
  function DetailsOf(m: Model): (d: Details)
    ensures m.AttributeModel? ==> d == DescriptionText(m.attribute.description.GetOr(NO_DESCRIPTION))
    ensures m.OperationModel? ==> d == DescriptionText(m.operation.description.GetOr(NO_DESCRIPTION))
    ensures m.ResourceModel? ==> d == DescriptionText(m.resource.description.GetOr(NO_DESCRIPTION))
    ensures m.CapabilityModel? ==> d == DeclaredBy(DeclaredByLinks(m.capability))
    ensures d.UnsupportedDetails? <==> (m.DeprecationModel? || m.ParameterModel? || m.VersionModel?)
  {
    match m
    case AttributeModel(a) => DescriptionText(a.description.GetOr(NO_DESCRIPTION))
    case CapabilityModel(c) => DeclaredBy(DeclaredByLinks(c))
    case OperationModel(o) => DescriptionText(o.description.GetOr(NO_DESCRIPTION))
    case ResourceModel(r) => DescriptionText(r.description.GetOr(NO_DESCRIPTION))
    case _ => UnsupportedDetails("Unsupported model type " + m.ModelType())
  }

  /** Cell and details agree on which models the list supports. */
  lemma CellsAndDetailsAgree(m: Model)
    ensures ModelCell(m).UnsupportedCell? <==> DetailsOf(m).UnsupportedDetails?
    ensures ModelCell(m).UnsupportedCell? ==> ModelCell(m).message == DetailsOf(m).message
  {
  }
}
