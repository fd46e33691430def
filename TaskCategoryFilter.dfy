/** The filters offered above the task list (`TaskCategoryFilter`). */
module Filters {
  import opened Wrappers
  import Models

  /** A `String`-backed enumeration: "all" plus one filter per category. */
  datatype TaskCategoryFilter = All | Personal | Work | Study {

    function RawValue(): (s: string)
      ensures s != []
    {
      match this
      case All => "Todas"
      case Personal => "Pessoal"
      case Work => "Trabalho"
      case Study => "Estudo"
    }

    /** `Identifiable` conformance: the id is the raw value, which no other filter shares. */
    function Id(): (s: string)
      ensures forall g: TaskCategoryFilter :: g.RawValue() == s <==> g == this
    {
      RawValue()
    }

    /**
     * The category the filter selects; `None` stands for every category.
     * Each other filter selects the category with the same raw value.
     */
    function Category(): (c: Option<Models.TaskCategory>)
      ensures c.None? <==> this == All
      ensures c.Some? ==> c.value.RawValue() == RawValue()
    {
      match this
      case All => None
      case Personal => Some(Models.Personal)
      case Work => Some(Models.Work)
      case Study => Some(Models.Study)
    }
  }

  /** Every category is selected by exactly one filter. */
  lemma EachCategoryHasOneFilter(c: Models.TaskCategory)
    ensures exists f: TaskCategoryFilter :: f.Category() == Some(c)
    ensures forall f: TaskCategoryFilter, g: TaskCategoryFilter :: f.Category() == g.Category() ==> f == g
  {
    match c
    case Personal => assert Personal.Category() == Some(c);
    case Work => assert Work.Category() == Some(c);
    case Study => assert Study.Category() == Some(c);
  }

  /** Two filters with the same id are the same filter. */
  lemma FilterIdIsInjective(f: TaskCategoryFilter, g: TaskCategoryFilter)
    ensures f.Id() == g.Id() ==> f == g
  {
  }
}
