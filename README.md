# TaskMaster task store, modelled in Dafny

A model of the task store of the TaskMaster to-do app: the value types it
manages (`TaskCategory`, `TaskItem`), the filter enumeration
(`TaskCategoryFilter`) and the store class `TaskMasterViewModel`, which keeps
an ordered array of tasks and a dark-mode flag, answers filtered and sorted
queries, changes the array in place and writes every change to a key-value
store (`UserDefaults`).

Files and modules:

- `Wrappers.dfy` (`Wrappers`): `Option`, Swift's optional.
- `TaskItem.dfy` (`Models`): the category enumeration with its raw values, ids
  and icon names, raw-value decoding, and the task record. Dates are integers
  and UUIDs are naturals.
- `Foundation.dfy` (`Foundation`): the two library behaviours the store relies
  on, `trimmingCharacters(in: .whitespacesAndNewlines)` and `firstIndex(of:)`.
- `Persistence.dfy` (`Persistence`): `UserDefaults` as a class holding a
  mutable key→value map, and the JSON coding of the task array kept abstract:
  an encoded array is a sequence of records whose category is stored by raw
  value, and any other bytes are `Garbage`. Decoding fails on `Garbage` or on
  a category string that is not a raw value.
- `TaskCategoryFilter.dfy` (`Filters`): the filter enumeration.
- `TaskMasterViewModel.dfy` (`ViewModels`): the sort predicate, the insertion
  sort and category filter that stand for `sorted(by:)` and `filter`, and the
  class `TaskMasterViewModel`. Its `tasks` field is a `seq` that the methods
  reassign; `userDefaults` is the injected store object; the ghost function
  `PersistedTasks` decodes what the store holds under the tasks key.

Parameters stand in for the clock and for UUID generation. `addTask` reads the
clock twice: once for `max(dueDate, Date())` and once, later, for the record's
default `createdAt`. `AddTask` therefore takes both readings, `now` and
`createdAt`, and requires no order between them, so `dueDate >= createdAt` is
not promised. The fresh UUID is the parameter `id`; `AddTask` keeps ids
unique when `id` is not already in use.

Behaviour worth noting:

- `deleteTask` looks the task up with `firstIndex(of:)`, which is equality on all seven fields, not an id match.
- `toggleCompletion` matches by id and flips only the first match.
- Neither operation writes to the store when nothing matches.
- Initialisation writes nothing back: assignments in an initializer do not run `didSet`.

## Model

| member | source | states |
|---|---|---|
| Models.TaskCategory.RawValue | ListaDeTarefasCodex/ListaDeTarefasCodex/Models/TaskItem.swift:11-14 | each category's raw value is a non-empty string |
| Models.TaskCategory.Id | ListaDeTarefasCodex/ListaDeTarefasCodex/Models/TaskItem.swift:16 | a category's id identifies it: decoding the id gives back exactly that category |
| Models.TaskCategory.SystemImageName | ListaDeTarefasCodex/ListaDeTarefasCodex/Models/TaskItem.swift:19-28 | every category has a non-empty icon name ("person.fill", "briefcase.fill", "book.fill"); distinctness is stated by Models.CategoryNamesAreDistinct |
| Models.CategoryFromRawValue | ListaDeTarefasCodex/ListaDeTarefasCodex/Models/TaskItem.swift:11-14 | decoding a string yields category c exactly when the string is c's raw value; any other string is rejected |
| Models.CategoryRawValueRoundTrip | ListaDeTarefasCodex/ListaDeTarefasCodex/Models/TaskItem.swift:11-14 | decoding a category's raw value gives the category back |
| Models.AllCases | ListaDeTarefasCodex/ListaDeTarefasCodex/Models/TaskItem.swift:11-14 | the case list has exactly three entries, contains every category, and lists none twice |
| Models.CategoryNamesAreDistinct | ListaDeTarefasCodex/ListaDeTarefasCodex/Models/TaskItem.swift:11-28 | two categories with the same raw value, or the same icon name, are the same category |
| Models.TaskItem.Toggled | ListaDeTarefasCodex/ListaDeTarefasCodex/ViewModels/TaskMasterViewModel.swift:87 | toggling flips isCompleted and keeps the other six fields, so the result is no longer equal to the original |
| Models.NewTask | ListaDeTarefasCodex/ListaDeTarefasCodex/Models/TaskItem.swift:41-57 | the initializer stores each argument unchanged in its field, and isCompleted takes its default, false |
| Models.TaskEqualityIsStructural | ListaDeTarefasCodex/ListaDeTarefasCodex/Models/TaskItem.swift:32-40 | states the promise of synthesized equality: two tasks are equal exactly when all seven fields are equal (strings compared by code points) |
| Foundation.IsWhitespace | ListaDeTarefasCodex/ListaDeTarefasCodex/ViewModels/TaskMasterViewModel.swift:76 | the ensures gives the ASCII members: exactly space, tab, line feed, vertical tab, form feed and carriage return; the body lists the whole set, adding the Unicode space separators, U+0085 and the line and paragraph separators |
| Foundation.Trim | ListaDeTarefasCodex/ListaDeTarefasCodex/ViewModels/TaskMasterViewModel.swift:76 | the trimmed title is a slice of the title with only whitespace before and after it; it neither starts nor ends with whitespace; it is empty exactly when the title is all whitespace |
| Foundation.TrimIsIdempotent | ListaDeTarefasCodex/ListaDeTarefasCodex/ViewModels/TaskMasterViewModel.swift:76 | trimming an already trimmed title changes nothing |
| Foundation.FirstIndexOf | ListaDeTarefasCodex/ListaDeTarefasCodex/ViewModels/TaskMasterViewModel.swift:94 | the result is absent exactly when the value does not occur; otherwise it is the position of the value, with no occurrence before it |
| Persistence.EncodeTask | ListaDeTarefasCodex/ListaDeTarefasCodex/ViewModels/TaskMasterViewModel.swift:128 | a task's record stores its category as a string that decodes back to that category |
| Persistence.Encode | ListaDeTarefasCodex/ListaDeTarefasCodex/ViewModels/TaskMasterViewModel.swift:128 | the encoded array holds one record per task, in order |
| Persistence.DecodeTask | ListaDeTarefasCodex/ListaDeTarefasCodex/ViewModels/TaskMasterViewModel.swift:119 | one record decodes exactly when its category string is a raw value, and it decodes to the task that encodes to it |
| Persistence.DecodeRecords | ListaDeTarefasCodex/ListaDeTarefasCodex/ViewModels/TaskMasterViewModel.swift:119 | an array decodes exactly when every record decodes; the result has one task per record, in order |
| Persistence.Decode | ListaDeTarefasCodex/ListaDeTarefasCodex/ViewModels/TaskMasterViewModel.swift:119 | decoding succeeds exactly when the bytes are an encoded array and every record's category string is a raw value |
| Persistence.DecodeEncode | ListaDeTarefasCodex/ListaDeTarefasCodex/ViewModels/TaskMasterViewModel.swift:116-133 | every task array read back after it was written is the same array, all seven fields included |
| Persistence.EncodeDecode | ListaDeTarefasCodex/ListaDeTarefasCodex/ViewModels/TaskMasterViewModel.swift:116-124 | stored content that decodes successfully is the encoding of the array it decodes to (a fact about decoded content, not bytes) |
| Persistence.UserDefaults.DataFor | ListaDeTarefasCodex/ListaDeTarefasCodex/ViewModels/TaskMasterViewModel.swift:117 | data is returned exactly when the key holds data, and it is what the key holds |
| Persistence.UserDefaults.BoolFor | ListaDeTarefasCodex/ListaDeTarefasCodex/ViewModels/TaskMasterViewModel.swift:57 | a flag is returned exactly when the key holds a boolean, and it is that boolean |
| Persistence.UserDefaults.Set | ListaDeTarefasCodex/ListaDeTarefasCodex/ViewModels/TaskMasterViewModel.swift:129 | the key maps to the new value and every other key is unchanged |
| Filters.TaskCategoryFilter.RawValue | ListaDeTarefasCodex/ListaDeTarefasCodex/ViewModels/TaskMasterViewModel.swift:13-17 | each filter's raw value is a non-empty string |
| Filters.TaskCategoryFilter.Id | ListaDeTarefasCodex/ListaDeTarefasCodex/ViewModels/TaskMasterViewModel.swift:19 | a filter's id is its raw value, and no other filter's raw value equals it, so two filters with the same id are the same filter |
| Filters.FilterIdIsInjective | ListaDeTarefasCodex/ListaDeTarefasCodex/ViewModels/TaskMasterViewModel.swift:19 | two filters with the same id are the same filter, as `Identifiable` needs |
| Filters.TaskCategoryFilter.Category | ListaDeTarefasCodex/ListaDeTarefasCodex/ViewModels/TaskMasterViewModel.swift:22-33 | the "all" filter and only it maps to no category; every other filter maps to the category with the same raw value |
| Filters.EachCategoryHasOneFilter | ListaDeTarefasCodex/ListaDeTarefasCodex/ViewModels/TaskMasterViewModel.swift:13-33 | every category is selected by some filter, and by only one |
| ViewModels.SortPredicate | ListaDeTarefasCodex/ListaDeTarefasCodex/ViewModels/TaskMasterViewModel.swift:139-144 | the predicate is the lexicographic order on (completed, due date), with incomplete before completed |
| ViewModels.SortPredicateIsStrictWeakOrder | ListaDeTarefasCodex/ListaDeTarefasCodex/ViewModels/TaskMasterViewModel.swift:139-144 | the sort predicate is irreflexive and transitive, and incomparability is transitive |
| ViewModels.OrderedTail | ListaDeTarefasCodex/ListaDeTarefasCodex/ViewModels/TaskMasterViewModel.swift:139-144 | the tail of an ordered sequence is ordered, and none of its tasks precedes the head |
| ViewModels.NoneBefore | ListaDeTarefasCodex/ListaDeTarefasCodex/ViewModels/TaskMasterViewModel.swift:139-144 | a task that the head of an ordered sequence does not precede is preceded by none of the sequence's tasks |
| ViewModels.OrderedCons | ListaDeTarefasCodex/ListaDeTarefasCodex/ViewModels/TaskMasterViewModel.swift:139-144 | a task that no task of an ordered sequence precedes can be put in front of it and the sequence stays ordered |
| ViewModels.Insert | ListaDeTarefasCodex/ListaDeTarefasCodex/ViewModels/TaskMasterViewModel.swift:66 | inserting into an ordered sequence gives an ordered sequence with exactly one more copy of the task |
| ViewModels.SortTasks | ListaDeTarefasCodex/ListaDeTarefasCodex/ViewModels/TaskMasterViewModel.swift:66 | the sorted result is a permutation of the input that the sort predicate orders |
| ViewModels.FilterByCategory | ListaDeTarefasCodex/ListaDeTarefasCodex/ViewModels/TaskMasterViewModel.swift:69 | each task occurs in the result as often as in the input if it has the category, and not at all otherwise |
| ViewModels.FirstIndexWithId | ListaDeTarefasCodex/ListaDeTarefasCodex/ViewModels/TaskMasterViewModel.swift:85 | the result is absent exactly when no task has the id; otherwise it is a position holding that id, with no task before it holding it |
| ViewModels.RemoveAt | ListaDeTarefasCodex/ListaDeTarefasCodex/ViewModels/TaskMasterViewModel.swift:96 | removing one position takes away exactly one copy of that task and keeps ids unique |
| ViewModels.TaskMasterViewModel.PersistedTasks | ListaDeTarefasCodex/ListaDeTarefasCodex/ViewModels/TaskMasterViewModel.swift:126-133 | a persisted snapshot is present only when the tasks key holds exactly the encoding of that snapshot |
| ViewModels.TaskMasterViewModel.constructor | ListaDeTarefasCodex/ListaDeTarefasCodex/ViewModels/TaskMasterViewModel.swift:55-59 | the theme flag is the stored boolean or false; tasks are the decoded stored array, or empty when nothing is stored or decoding fails; nothing is written |
| ViewModels.TaskMasterViewModel.TasksFor | ListaDeTarefasCodex/ListaDeTarefasCodex/ViewModels/TaskMasterViewModel.swift:64-71 | the result is a permutation of all tasks (filter "all") or of exactly the tasks of the filter's category; incomplete tasks come before completed ones and, within the same status, due dates do not decrease |
| ViewModels.TaskMasterViewModel.AddTask | ListaDeTarefasCodex/ListaDeTarefasCodex/ViewModels/TaskMasterViewModel.swift:74-81 | one task is appended and the earlier ones keep their places; it has the given id, the trimmed title, isCompleted false, the category, the creation reading, the notes, and the later of the requested due date and now; the stored array is the new array |
| ViewModels.TaskMasterViewModel.ToggleCompletion | ListaDeTarefasCodex/ListaDeTarefasCodex/ViewModels/TaskMasterViewModel.swift:84-90 | only the first task with the argument's id has its flag flipped and the new array is stored; without a match nothing changes and nothing is written; ids and creation dates never change |
| ViewModels.TaskMasterViewModel.DeleteTask | ListaDeTarefasCodex/ListaDeTarefasCodex/ViewModels/TaskMasterViewModel.swift:93-99 | the first task equal to the argument in all fields is removed, the others keep their order, and the new array is stored; without a match nothing changes and nothing is written; ids stay unique |
| ViewModels.TaskMasterViewModel.ClearAllTasks | ListaDeTarefasCodex/ListaDeTarefasCodex/ViewModels/TaskMasterViewModel.swift:102-107 | the array is empty, hasTasks is false and the empty array is stored |
| ViewModels.TaskMasterViewModel.HasTasks | ListaDeTarefasCodex/ListaDeTarefasCodex/ViewModels/TaskMasterViewModel.swift:110-112 | true exactly when there is at least one task |
| ViewModels.TaskMasterViewModel.SetDarkModeEnabled | ListaDeTarefasCodex/ListaDeTarefasCodex/ViewModels/TaskMasterViewModel.swift:41-43 | the flag takes the new value, the theme key stores it, and the stored tasks are untouched |
| ViewModels.TaskMasterViewModel.LoadTasks | ListaDeTarefasCodex/ListaDeTarefasCodex/ViewModels/TaskMasterViewModel.swift:116-124 | without stored data the tasks stay as they were; with data they become the decoded array, or empty when decoding fails |
| ViewModels.TaskMasterViewModel.PersistTasks | ListaDeTarefasCodex/ListaDeTarefasCodex/ViewModels/TaskMasterViewModel.swift:126-133 | the tasks key holds the encoding of the current array, which decodes back to it, and no other key changes |
| ViewModels.TaskMasterViewModel.SaveThemePreference | ListaDeTarefasCodex/ListaDeTarefasCodex/ViewModels/TaskMasterViewModel.swift:135-137 | the theme key holds the current flag and no other key changes |
| ViewModels.ClearAllTasksTwice | ListaDeTarefasCodex/ListaDeTarefasCodex/ViewModels/TaskMasterViewModel.swift:102-107 | clearing twice leaves the same state as clearing once: empty tasks, the empty array stored, the theme flag unchanged |
| ViewModels.DisplayOrderExample | ListaDeTarefasCodex/ListaDeTarefasCodex/ViewModels/TaskMasterViewModel.swift:64-66 | incomplete A due last, completed B due first and incomplete C due in between are listed as C, A, B |

## Left out

- The views (home list, new-task form, settings, tab container) and the app entry point are presentation. The unused template model `Item` is left out as well.
- The form check `isFormValid` (title non-empty after trimming) belongs to the caller. `AddTask` does not require it, because the store accepts any title.
- `withAnimation`, `@Published` change notification and `ObservableObject` are UI-framework mechanics with no effect on the state.
- JSON bytes are not modelled. A `Blob` stands for the decoded content of the stored bytes, a record sequence, so byte strings that differ only in whitespace, key order or ignored unknown keys are one `Blob`; `Persistence.EncodeDecode` is a fact about that content. The coding is a record sequence, and decoding fails only on unparseable bytes or an unknown category string. Invalid UUID strings and other malformed field values are treated as unparseable bytes.
- Encoding failures are not modelled. In Swift a `Date` is encoded as a floating-point number, and a non-finite date makes the encoder throw, so `persistTasks` skips the write. Dates here are integers, so that case cannot be represented and `PersistTasks` always writes.
- The `print` logging on encode and decode failures is output with no effect on the state.
- The wall clock and `UUID()` generation are parameters of `AddTask`.
- `Foundation.Trim` works on Unicode scalars, not on grapheme clusters.
- `Persistence.UserDefaults.BoolFor` only treats a stored boolean as a boolean. The platform's bridging of stored numbers to `Bool` is not modelled.
- `ViewModels.SortTasks` is one insertion sort. Its contract promises only what `sorted(by:)` promises: a permutation ordered by the predicate, with no particular order among equivalent tasks.
- `allCases` of the filter enumeration is used only by the views and is not modelled. `Models.AllCases` stands for the category enumeration's `allCases`.
- ViewModels.TaskMasterViewModel.DeleteTask: titles and notes are compared code point by code point. Swift's `String` equality, which `firstIndex(of:)` uses through the synthesized `==`, is canonical equivalence. A task whose title is spelled with a precomposed "é" is therefore not matched by an argument spelled with "e" plus a combining accent. The views only pass stored copies back to `deleteTask`, so only a direct caller sees the difference.
- Models.TaskEqualityIsStructural: strings are equal when their code points are; Swift's synthesized equality compares `title` and `notes` by canonical equivalence.
