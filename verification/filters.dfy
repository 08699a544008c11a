/** The filter bar shared by the task list and the analytics page: the
    filters being edited (the draft) and the filters the data was loaded with
    (the applied ones), with Apply and Clear buttons. */
module Filters {

  datatype FilterField = ProjectFilter | PersonFilter | FromDateFilter | ToDateFilter

  datatype FilterValues = FilterValues(project: string, person: string, fromDate: string, toDate: string)

  /** `defaultFilters`. */
  const Defaults: FilterValues := FilterValues("all", "all", "", "")

  datatype FilterBar = FilterBar(draft: FilterValues, applied: FilterValues)

  const InitialBar: FilterBar := FilterBar(Defaults, Defaults)

  function Value(v: FilterValues, field: FilterField): string {
    match field
    case ProjectFilter => v.project
    case PersonFilter => v.person
    case FromDateFilter => v.fromDate
    case ToDateFilter => v.toDate
  }

  /** `handleFilterChange`: edit one draft field; the applied filters, and so
      the loaded data, stay as they were. */
  function Change(b: FilterBar, field: FilterField, value: string): (r: FilterBar)
    ensures r.applied == b.applied
    ensures Value(r.draft, field) == value
    ensures forall g :: g != field ==> Value(r.draft, g) == Value(b.draft, g)
  {
    var d := match field
      case ProjectFilter => b.draft.(project := value)
      case PersonFilter => b.draft.(person := value)
      case FromDateFilter => b.draft.(fromDate := value)
      case ToDateFilter => b.draft.(toDate := value);
    b.(draft := d)
  }

  /** `handleApplyFilters`: the draft becomes the applied filters. */
  function Apply(b: FilterBar): (r: FilterBar)
    ensures r.applied == b.draft && r.draft == b.draft
  {
    b.(applied := b.draft)
  }

  /** `handleClearFilters`: both draft and applied go back to the defaults. */
  function Clear(b: FilterBar): (r: FilterBar)
    ensures r == InitialBar
  {
    FilterBar(Defaults, Defaults)
  }

  /** Clearing twice is clearing once, and applying right after a clear
      changes nothing. */
  lemma ClearIdempotent(b: FilterBar)
    ensures Clear(Clear(b)) == Clear(b)
    ensures Apply(Clear(b)) == Clear(b)
  {
  }

  /** Edits that are not applied never reach the applied filters, however
      many there are. */
  lemma {:induction false} EditsStayDraft(b: FilterBar, edits: seq<(FilterField, string)>)
    ensures EditAll(b, edits).applied == b.applied
    decreases |edits|
  {
    if |edits| > 0 {
      EditsStayDraft(Change(b, edits[0].0, edits[0].1), edits[1..]);
    }
  }

  function EditAll(b: FilterBar, edits: seq<(FilterField, string)>): FilterBar
    decreases |edits|
  {
    if |edits| == 0 then b else EditAll(Change(b, edits[0].0, edits[0].1), edits[1..])
  }

  /** After Apply, editing one field and applying again applies exactly that
      edit on top of what was applied. */
  lemma ApplyAfterEdit(b: FilterBar, field: FilterField, value: string)
    ensures var r := Apply(Change(Apply(b), field, value));
      Value(r.applied, field) == value
      && forall g :: g != field ==> Value(r.applied, g) == Value(Apply(b).applied, g)
  {
  }
}
