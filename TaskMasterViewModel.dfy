/**
 * The task store (`TaskMasterViewModel`): the ordered array of tasks and
 * the dark-mode flag, the queries over them, and the operations that
 * change them and write the result to the key-value store.
 */
module ViewModels {
  import opened Wrappers
  import opened Models
  import opened Foundation
  import opened Persistence
  import Filters

  /** The key under which the encoded task array is stored. */
  const TasksKey: string := "taskmaster_tasks_storage_key"
  /** The key under which the theme flag is stored. */
  const ThemeKey: string := "taskmaster_theme_preference_key"

  /**
   * `sortPredicate`: incomplete tasks first, then the earlier due date; that
   * is, the lexicographic order on (completed, due date) with false < true.
   */
  predicate SortPredicate(lhs: TaskItem, rhs: TaskItem): (b: bool)
    ensures b <==> ((!lhs.isCompleted && rhs.isCompleted)
                    || (lhs.isCompleted == rhs.isCompleted && lhs.dueDate < rhs.dueDate))
  {
    if lhs.isCompleted != rhs.isCompleted then !lhs.isCompleted else lhs.dueDate < rhs.dueDate
  }

  /**
   * `sortPredicate` is a strict weak order, as `sorted(by:)` demands of its
   * argument: irreflexive, transitive, and incomparability is transitive.
   */
  lemma SortPredicateIsStrictWeakOrder(a: TaskItem, b: TaskItem, c: TaskItem)
    ensures !SortPredicate(a, a)
    ensures SortPredicate(a, b) && SortPredicate(b, c) ==> SortPredicate(a, c)
    ensures !SortPredicate(a, b) && !SortPredicate(b, a) && !SortPredicate(b, c) && !SortPredicate(c, b)
            ==> !SortPredicate(a, c) && !SortPredicate(c, a)
  {
  }

  /** No task of `s` is ordered by `sortPredicate` before a task that precedes it. */
  ghost predicate Ordered(s: seq<TaskItem>) {
    forall i, j :: 0 <= i < j < |s| ==> !SortPredicate(s[j], s[i])
  }

  /** Putting in front of an ordered sequence a task none of its tasks precedes keeps it ordered. */
  lemma OrderedCons(y: TaskItem, s: seq<TaskItem>)
    requires Ordered(s)
    requires forall z :: z in s ==> !SortPredicate(z, y)
    ensures Ordered([y] + s)
  {
  }

  /** The tail of an ordered sequence is ordered, and no task of it precedes the head. */
  lemma OrderedTail(s: seq<TaskItem>)
    requires Ordered(s) && s != []
    ensures Ordered(s[1..])
    ensures forall z :: z in s[1..] ==> !SortPredicate(z, s[0])
  {
  }

  /** A task the head of an ordered sequence does not precede is preceded by none of its tasks. */
  lemma NoneBefore(x: TaskItem, s: seq<TaskItem>)
    requires Ordered(s) && s != [] && !SortPredicate(s[0], x)
    ensures forall z :: z in s ==> !SortPredicate(z, x)
  {
  }

  /** Inserts `x` into an ordered sequence. */
  function Insert(x: TaskItem, s: seq<TaskItem>): (r: seq<TaskItem>)
    requires Ordered(s)
    ensures Ordered(r)
    ensures multiset(r) == multiset(s) + multiset{x}
  {
    if s == [] then [x]
    else
      assert s == [s[0]] + s[1..];
      OrderedTail(s);
      if SortPredicate(s[0], x) then
        var rest := Insert(x, s[1..]);
        assert forall z :: z in rest ==> z in multiset(s[1..]) + multiset{x};
        OrderedCons(s[0], rest);
        [s[0]] + rest
      else
        NoneBefore(x, s);
        OrderedCons(x, s);
        [x] + s
  }

  /**
   * `sorted(by: sortPredicate)`. The library promises a permutation ordered
   * by the predicate and nothing about the order of equivalent tasks, so
   * that is all this contract says.
   */
  function SortTasks(s: seq<TaskItem>): (r: seq<TaskItem>)
    ensures Ordered(r)
    ensures multiset(r) == multiset(s)
  {
    if s == [] then []
    else
      assert s == [s[0]] + s[1..];
      Insert(s[0], SortTasks(s[1..]))
  }

  /** `filter { $0.category == category }`: every task of one category, each as often as it is stored. */
  function FilterByCategory(s: seq<TaskItem>, c: TaskCategory): (r: seq<TaskItem>)
    ensures forall x :: multiset(r)[x] == if x.category == c then multiset(s)[x] else 0
  {
    if s == [] then []
    else
      assert s == [s[0]] + s[1..];
      (if s[0].category == c then [s[0]] else []) + FilterByCategory(s[1..], c)
  }

  /** `firstIndex(where: { $0.id == id })`: the position of the first task with that id, if any. */
  function FirstIndexWithId(s: seq<TaskItem>, id: Uuid): (r: Option<nat>)
    ensures r.None? <==> forall k :: 0 <= k < |s| ==> s[k].id != id
    ensures r.Some? ==> r.value < |s| && s[r.value].id == id
    ensures r.Some? ==> forall k :: 0 <= k < r.value ==> s[k].id != id
  {
    if s == [] then None
    else if s[0].id == id then Some(0)
    else match FirstIndexWithId(s[1..], id)
      case None => None
      case Some(i) => Some(i + 1)
  }

  /** No two tasks share an id. */
  ghost predicate UniqueIds(s: seq<TaskItem>) {
    forall i, j :: 0 <= i < j < |s| ==> s[i].id != s[j].id
  }

  /** `remove(at:)` takes exactly one copy of the removed task and keeps ids unique. */
  lemma RemoveAt(s: seq<TaskItem>, i: nat)
    requires i < |s|
    ensures multiset(s[..i] + s[i + 1..]) == multiset(s) - multiset{s[i]}
    ensures UniqueIds(s) ==> UniqueIds(s[..i] + s[i + 1..])
  {
    assert s == s[..i] + [s[i]] + s[i + 1..];
    var r := s[..i] + s[i + 1..];
    if UniqueIds(s) {
      forall a, b | 0 <= a < b < |r| ensures r[a].id != r[b].id {
        var a' := if a < i then a else a + 1;
        var b' := if b < i then b else b + 1;
        assert r[a] == s[a'] && r[b] == s[b'];
      }
    }
  }

  class TaskMasterViewModel {
    /** The tasks in insertion order; only this class changes them. */
    var tasks: seq<TaskItem>
    var isDarkModeEnabled: bool
    const userDefaults: UserDefaults

    /**
     * The persisted snapshot: the task array the key-value store holds, if
     * it holds a decodable one. A snapshot is exactly the stored encoding.
     */
    ghost function PersistedTasks(): (r: Option<seq<TaskItem>>)
      reads this, userDefaults
      ensures r.Some? ==> TasksKey in userDefaults.values
                          && userDefaults.values[TasksKey] == DataValue(Encode(r.value))
    {
      match userDefaults.DataFor(TasksKey)
      case None => None
      case Some(blob) =>
        match Decode(blob)
        case None => None
        case Some(ts) => EncodeDecode(blob, ts); Some(ts)
    }

    /**
     * `init(userDefaults:)`: reads the theme flag (false unless a boolean is
     * stored) and then loads the tasks. Assignments in an initializer do not
     * run `didSet`, so nothing is written back.
     */
    constructor (userDefaults: UserDefaults)
      ensures this.userDefaults == userDefaults
      ensures isDarkModeEnabled == match userDefaults.BoolFor(ThemeKey)
                                   case Some(b) => b
                                   case None => false
      ensures match userDefaults.DataFor(TasksKey)
              case None => tasks == []
              case Some(blob) => tasks == match Decode(blob)
                                          case Some(ts) => ts
                                          case None => []
      ensures PersistedTasks().Some? ==> PersistedTasks() == Some(tasks)
    {
      this.userDefaults := userDefaults;
      isDarkModeEnabled := match userDefaults.BoolFor(ThemeKey)
                           case Some(b) => b
                           case None => false;
      tasks := [];
      new;
      LoadTasks();
    }

    /** `tasks(for:)`: the tasks the filter selects, in display order. */
    function TasksFor(filter: Filters.TaskCategoryFilter): (r: seq<TaskItem>)
      reads this
      ensures filter.Category().None? ==> multiset(r) == multiset(tasks)
      ensures filter.Category().Some? ==>
        forall x :: multiset(r)[x] == if x.category == filter.Category().value then multiset(tasks)[x] else 0
      ensures Ordered(r)
      ensures forall i, j :: 0 <= i < j < |r| && r[i].isCompleted ==> r[j].isCompleted
      ensures forall i, j :: 0 <= i < j < |r| && r[i].isCompleted == r[j].isCompleted ==>
        r[i].dueDate <= r[j].dueDate
    {
      match filter.Category()
      case None => SortTasks(tasks)
      case Some(category) => SortTasks(FilterByCategory(tasks, category))
    }

    /** `addTask`: appends a task built from the trimmed title and the clamped due date. */
    method AddTask(title: string, category: TaskCategory, dueDate: Date, notes: string,
                   now: Date, createdAt: Date, id: Uuid)
      modifies this`tasks, userDefaults
      ensures |tasks| == |old(tasks)| + 1
      ensures tasks[..|old(tasks)|] == old(tasks)
      ensures var t := tasks[|old(tasks)|];
        && t.id == id && t.title == Trim(title) && !t.isCompleted && t.category == category
        && t.createdAt == createdAt && t.notes == notes
        && t.dueDate >= dueDate && t.dueDate >= now && (t.dueDate == dueDate || t.dueDate == now)
      ensures userDefaults.values == old(userDefaults.values)[TasksKey := DataValue(Encode(tasks))]
      ensures PersistedTasks() == Some(tasks)
      ensures UniqueIds(old(tasks)) && (forall k :: 0 <= k < |old(tasks)| ==> old(tasks)[k].id != id)
              ==> UniqueIds(tasks)
    {
      var normalizedDueDate := if now >= dueDate then now else dueDate;
      var newTask := NewTask(id, Trim(title), category, createdAt, normalizedDueDate, notes);
      tasks := tasks + [newTask];
      assert tasks[..|old(tasks)|] == old(tasks);
      PersistTasks();
    }

    /** `toggleCompletion(for:)`: flips the flag of the first task with the same id. */
    method ToggleCompletion(task: TaskItem)
      modifies this`tasks, userDefaults
      ensures match FirstIndexWithId(old(tasks), task.id)
              case None =>
                && tasks == old(tasks)
                && userDefaults.values == old(userDefaults.values)
              case Some(i) =>
                && tasks == old(tasks)[i := old(tasks)[i].Toggled()]
                && userDefaults.values == old(userDefaults.values)[TasksKey := DataValue(Encode(tasks))]
                && PersistedTasks() == Some(tasks)
      ensures |tasks| == |old(tasks)|
      ensures forall k :: 0 <= k < |tasks| ==>
        tasks[k].id == old(tasks)[k].id && tasks[k].createdAt == old(tasks)[k].createdAt
      ensures UniqueIds(old(tasks)) ==> UniqueIds(tasks)
    {
      var index := FirstIndexWithId(tasks, task.id);
      if index.None? {
        return;
      }
      var i := index.value;
      tasks := tasks[i := tasks[i].Toggled()];
      PersistTasks();
    }

    /** `deleteTask`: removes the first task equal to the argument in every field. */
    method DeleteTask(task: TaskItem)
      modifies this`tasks, userDefaults
      ensures match FirstIndexOf(old(tasks), task)
              case None =>
                && tasks == old(tasks)
                && userDefaults.values == old(userDefaults.values)
              case Some(i) =>
                && tasks == old(tasks)[..i] + old(tasks)[i + 1..]
                && userDefaults.values == old(userDefaults.values)[TasksKey := DataValue(Encode(tasks))]
                && PersistedTasks() == Some(tasks)
      ensures multiset(tasks) == multiset(old(tasks)) - multiset{task}
      ensures |tasks| == if task in old(tasks) then |old(tasks)| - 1 else |old(tasks)|
      ensures UniqueIds(old(tasks)) ==> UniqueIds(tasks)
    {
      var index := FirstIndexOf(tasks, task);
      if index.None? {
        assert multiset(tasks)[task] == 0;
        return;
      }
      var i := index.value;
      RemoveAt(tasks, i);
      tasks := tasks[..i] + tasks[i + 1..];
      PersistTasks();
    }

    /** `clearAllTasks`: empties the array and stores the empty array. */
    method ClearAllTasks()
      modifies this`tasks, userDefaults
      ensures tasks == [] && !HasTasks()
      ensures userDefaults.values == old(userDefaults.values)[TasksKey := DataValue(Encode([]))]
      ensures PersistedTasks() == Some([])
    {
      tasks := [];
      PersistTasks();
    }

    /** `hasTasks`. */
    function HasTasks(): (b: bool)
      reads this
      ensures b <==> |tasks| > 0
    {
      tasks != []
    }

    /** Setting `isDarkModeEnabled`, whose `didSet` stores the new flag. */
    method SetDarkModeEnabled(enabled: bool)
      modifies this`isDarkModeEnabled, userDefaults
      ensures isDarkModeEnabled == enabled
      ensures userDefaults.values == old(userDefaults.values)[ThemeKey := BoolValue(enabled)]
      ensures userDefaults.BoolFor(ThemeKey) == Some(enabled)
      ensures PersistedTasks() == old(PersistedTasks())
    {
      isDarkModeEnabled := enabled;
      SaveThemePreference();
    }

    /** `loadTasks`: replaces the array by the stored one; undecodable data gives no tasks. */
    method LoadTasks()
      modifies this`tasks
      ensures match userDefaults.DataFor(TasksKey)
              case None => tasks == old(tasks)
              case Some(blob) => tasks == match Decode(blob)
                                          case Some(ts) => ts
                                          case None => []
      ensures PersistedTasks().Some? ==> PersistedTasks() == Some(tasks)
    {
      var data := userDefaults.DataFor(TasksKey);
      if data.None? {
        return;
      }
      match Decode(data.value) {
        case Some(ts) => tasks := ts;
        case None => tasks := [];
      }
    }

    /** `persistTasks`: stores the encoded array under the tasks key. */
    method PersistTasks()
      modifies userDefaults
      ensures userDefaults.values == old(userDefaults.values)[TasksKey := DataValue(Encode(tasks))]
      ensures PersistedTasks() == Some(tasks)
    {
      userDefaults.Set(TasksKey, DataValue(Encode(tasks)));
      DecodeEncode(tasks);
    }

    /** `saveThemePreference`: stores the flag under the theme key. */
    method SaveThemePreference()
      modifies userDefaults
      ensures userDefaults.values == old(userDefaults.values)[ThemeKey := BoolValue(isDarkModeEnabled)]
    {
      userDefaults.Set(ThemeKey, BoolValue(isDarkModeEnabled));
    }
  }

  /** Clearing twice leaves the same state as clearing once. */
  method ClearAllTasksTwice(vm: TaskMasterViewModel)
    modifies vm`tasks, vm.userDefaults
    ensures vm.tasks == [] && !vm.HasTasks()
    ensures vm.isDarkModeEnabled == old(vm.isDarkModeEnabled)
    ensures vm.userDefaults.values == old(vm.userDefaults.values)[TasksKey := DataValue(Encode([]))]
  {
    vm.ClearAllTasks();
    vm.ClearAllTasks();
  }

  /**
   * The display order of three tasks: A incomplete and due last, B completed
   * and due first, C incomplete and due in between, are shown as C, A, B.
   */
  lemma DisplayOrderExample(vm: TaskMasterViewModel, a: TaskItem, b: TaskItem, c: TaskItem)
    requires vm.tasks == [a, b, c]
    requires !a.isCompleted && b.isCompleted && !c.isCompleted
    requires b.dueDate < c.dueDate < a.dueDate
    ensures vm.TasksFor(Filters.All) == [c, a, b]
  {
  }
}
