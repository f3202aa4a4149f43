/**
  The closed vocabularies shared by the resource records of the database view
  and the points of the map view: a resource's category and its lifecycle
  status, with the string identifiers the views compare against.
 */
module Catalog {

  /** A nullable slot, such as the selected record of a view. */
  datatype Option<T> = None | Some(value: T)

  datatype Category = Oil | Gas | Water | Mining | Agriculture

  datatype Status = Active | Inactive | Planned

  /** The identifier a category carries in the records and in the filter controls. */
  function CategoryId(c: Category): (id: string)
    ensures id != "all"
  {
    match c
    case Oil => "oil"
    case Gas => "gas"
    case Water => "water"
    case Mining => "mining"
    case Agriculture => "agriculture"
  }

  function StatusId(s: Status): (id: string) {
    match s
    case Active => "active"
    case Inactive => "inactive"
    case Planned => "planned"
  }

  /** t names one of the five categories. */
  predicate IsCategoryId(t: string) {
    t in {"oil", "gas", "water", "mining", "agriculture"}
  }

  /** t names one of the three lifecycle statuses. */
  predicate IsStatusId(t: string) {
    t in {"active", "inactive", "planned"}
  }

  /** Distinct categories carry distinct identifiers, and every identifier is a known one. */
  lemma CategoryIdInjective(c: Category, d: Category)
    ensures IsCategoryId(CategoryId(c))
    ensures CategoryId(c) == CategoryId(d) <==> c == d
  {
  }

  lemma StatusIdInjective(s: Status, u: Status)
    ensures IsStatusId(StatusId(s))
    ensures StatusId(s) == StatusId(u) <==> s == u
  {
  }
}
