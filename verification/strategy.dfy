/**
 The Strategy draft: the Program it is bound to, its own metadata, the
 selected sectors and an override map. The form edits the metadata and the
 sectors; `program_id` is written only by a successful Program submit and
 `overrides` is never written at all.
 */
module StrategyRecord {
  import opened Optional
  import opened OrderedSet
  import SectorMultiSelect

  /** `program_id`: a string, or `undefined` (`None`) when a Program response carried no `id`. */
  type ProgramId = Option<string>

  /** JavaScript truthiness of `program_id`: neither `undefined` nor the empty string. */
  predicate Truthy(id: ProgramId) {
    id.Some? && id.value != ""
  }

  datatype Metadata = Metadata(name: string, notes: string)

  datatype Strategy = Strategy(
    programId: ProgramId,
    metadata: Metadata,
    sectors: seq<string>,
    overrides: map<string, string>)

  /** The draft the form starts from: unbound, unnamed, no sectors, no overrides. */
  const Initial: Strategy := Strategy(Some(""), Metadata("", ""), [], map[])

  /** One `onChange` handler of the Strategy form. */
  datatype StrategyEdit =
    | SetName(text: string)
    | SetNotes(text: string)
    | ToggleSector(item: string)

  /** The draft after one handler: only the edited part moves; the binding and the overrides never do. */
  function Apply(s: Strategy, e: StrategyEdit): (r: Strategy)
    ensures r.programId == s.programId && r.overrides == s.overrides
    ensures e.SetName? ==> r.metadata.name == e.text && r.metadata.notes == s.metadata.notes
    ensures e.SetNotes? ==> r.metadata.notes == e.text && r.metadata.name == s.metadata.name
    ensures e.ToggleSector? ==> r.metadata == s.metadata
    ensures e.ToggleSector? ==> r.sectors == SectorMultiSelect.Toggle(s.sectors, e.item)
    ensures e.ToggleSector? ==> NoDup(r.sectors)
    ensures e.ToggleSector? ==> (e.item in r.sectors <==> e.item !in s.sectors)
    ensures e.ToggleSector? ==> forall y :: y != e.item ==> (y in r.sectors <==> y in s.sectors)
    ensures !e.ToggleSector? ==> r.sectors == s.sectors
  {
    match e
    case SetName(t) => s.(metadata := s.metadata.(name := t))
    case SetNotes(t) => s.(metadata := s.metadata.(notes := t))
    case ToggleSector(item) => s.(sectors := SectorMultiSelect.Toggle(s.sectors, item))
  }

  /** The draft after a successful Program submit stores the returned `id`. */
  function Bind(s: Strategy, id: ProgramId): (r: Strategy)
    ensures r.programId == id
    ensures r.metadata == s.metadata && r.sectors == s.sectors && r.overrides == s.overrides
  {
    s.(programId := id)
  }
}
