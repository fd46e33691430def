/**
 * The value types the task store manages: the three task categories and
 * the task record itself (Models/TaskItem.swift).
 */
module Models {
  import opened Wrappers

  /** `UUID` values are modelled as naturals; `Date` values as integers. */
  type Uuid = nat
  type Date = int

  /** A task's category; a `String`-backed, `Codable` enumeration. */
  datatype TaskCategory = Personal | Work | Study {

    /** The raw value, which is also what the JSON encoding stores. */
    function RawValue(): (s: string)
      ensures s != []
    {
      match this
      case Personal => "Pessoal"
      case Work => "Trabalho"
      case Study => "Estudo"
    }

    /**
     * `Identifiable` conformance: the id is the raw value, so decoding it
     * gives back this category and no other.
     */
    function Id(): (s: string)
      ensures CategoryFromRawValue(s) == Some(this)
    {
      RawValue()
    }

    /** The SF Symbols icon shown next to the category. */
    function SystemImageName(): (s: string)
      ensures s != []
    {
      match this
      case Personal => "person.fill"
      case Work => "briefcase.fill"
      case Study => "book.fill"
    }
  }

  /** `CaseIterable` conformance: every case once, in declaration order. */
  function AllCases(): (cs: seq<TaskCategory>)
    ensures |cs| == 3
    ensures forall c: TaskCategory :: c in cs
    ensures forall i, j :: 0 <= i < j < |cs| ==> cs[i] != cs[j]
  {
    var cs := [Personal, Work, Study];
    assert forall c: TaskCategory :: (c.Personal? || c.Work? || c.Study?) ==> c in cs;
    cs
  }

  /** `init(rawValue:)`, which is also what `Decodable` uses for the enum. */
  function CategoryFromRawValue(s: string): (r: Option<TaskCategory>)
    ensures forall c: TaskCategory :: r == Some(c) <==> s == c.RawValue()
  {
    if s == "Pessoal" then Some(Personal)
    else if s == "Trabalho" then Some(Work)
    else if s == "Estudo" then Some(Study)
    else None
  }

  /** Distinct categories have distinct raw values and distinct icons. */
  lemma CategoryNamesAreDistinct(a: TaskCategory, b: TaskCategory)
    ensures a.RawValue() == b.RawValue() <==> a == b
    ensures a.SystemImageName() == b.SystemImageName() <==> a == b
  {
  }

  /** Decoding a category's raw value gives the category back. */
  lemma CategoryRawValueRoundTrip(c: TaskCategory)
    ensures CategoryFromRawValue(c.RawValue()) == Some(c)
  {
  }

  /**
   * A task; `id` and `createdAt` are `let` constants in the record.
   * Equality is Dafny's structural equality on all seven fields.
   */
  datatype TaskItem = TaskItem(
    id: Uuid,
    title: string,
    isCompleted: bool,
    category: TaskCategory,
    createdAt: Date,
    dueDate: Date,
    notes: string)
  {
    /** `isCompleted.toggle()` on a copy of the task. */
    function Toggled(): (t: TaskItem)
      ensures t.isCompleted == !isCompleted
      ensures t.id == id && t.title == title && t.category == category
      ensures t.createdAt == createdAt && t.dueDate == dueDate && t.notes == notes
      ensures t != this
    {
      this.(isCompleted := !isCompleted)
    }
  }

  /**
   * The memberwise initializer as the store calls it: `isCompleted` takes
   * its default `false`; the defaults `UUID()` and `Date()` of `id` and
   * `createdAt` are supplied by the caller as a fresh id and a clock reading.
   */
  function NewTask(id: Uuid, title: string, category: TaskCategory,
                   createdAt: Date, dueDate: Date, notes: string): (t: TaskItem)
    ensures !t.isCompleted
    ensures t.id == id && t.title == title && t.category == category
    ensures t.createdAt == createdAt && t.dueDate == dueDate && t.notes == notes
  {
    TaskItem(id, title, false, category, createdAt, dueDate, notes)
  }

  /**
   * Synthesized `Equatable`: two tasks are equal exactly when all seven
   * fields are. Strings are compared code point by code point.
   */
  lemma TaskEqualityIsStructural(a: TaskItem, b: TaskItem)
    ensures a == b <==>
      && a.id == b.id && a.title == b.title && a.isCompleted == b.isCompleted
      && a.category == b.category && a.createdAt == b.createdAt
      && a.dueDate == b.dueDate && a.notes == b.notes
  {
  }
}
