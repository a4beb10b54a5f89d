# Client agenda: store and task reports

This project models the browser agenda in `script.js`. The agenda keeps a list of clients. Each client record holds seven form fields: start date, code, client name, contact name, e-mail, phone and action plan. It also holds the client's own task list. A task has five fields: creation date, due date, title, description and status. One client at a time is *selected*, by its code.

The model covers two parts of the agenda:

- **The store.** The `clients` array and the `currentClientCode` selection become the class `Agenda.Store`. Its methods are the five operations that change them:
  - save or update a client;
  - delete the selected client;
  - stage a task for editing;
  - add a task;
  - delete a task.

  Each method's new state is tied to a pure function on the client sequence: `UpdateClient`, `RemoveClient`, `AppendTask` or `RemoveTask`, or, for the add branch of a save, the old sequence followed by `NewClient(form)`. Lemmas state what those functions keep, such as code uniqueness and lookup by code.
- **The reports.** These read the store and change nothing:
  - the global task list, flattened across clients and tagged with each client's name and code;
  - the fixed filters `report`, `today`, `overdue` and `future`;
  - the search by client or by date;
  - the overdue badge count.

  The nested loops that build the lists and the count are methods with loop invariants. Each is proved equal to a pure function, and the properties of that function are proved as lemmas.

Dates are `YYYY-MM-DD` strings compared with JavaScript's string `<`. Module `Dates` defines that order (`StringLess`). It proves that on ISO dates this order is calendar order. Module `Seqs` holds `Array.prototype.filter` (`Filter`) and the one-element `splice` (`SpliceOne`). `SpliceOne` follows the full JavaScript rules: a negative start counts back from the end, and a start at or past the end removes nothing.

Three behaviours of `script.js` that a reader might not expect, and how the model treats them:

- **Task operations on a missing client.** `editTarefa`, `addTarefa` and `deleteTarefa` dereference the result of `find` without a check (script.js:200, 287, 301), so on a stale or missing selection they throw rather than do nothing. The model makes "a client with the selected code exists" a precondition. `AddTask` requires it only when its title and due-date guard passes: `find` runs before the guard (script.js:270), but its result is dereferenced only after it (script.js:287), so a refused task never touches the client.
- **Renaming to a taken code.** Editing a client does not re-check code uniqueness. The model keeps this behaviour, and `UpdateMayDuplicateCode` exhibits the duplicate.
- **Selection after delete.** Deleting a client leaves `currentClientCode` pointing at the deleted code, as the source does.

## Model

| member | source | states |
|---|---|---|
| Seqs.Filter | script.js:135 | `filter` keeps exactly the elements that pass the test and is no longer than its input |
| Seqs.FilterIsSubseq | script.js:135 | a filter's result is a subsequence of its input (order kept) |
| Seqs.FilterMultiset | script.js:135 | a filter keeps each passing element as many times as it occurs and drops every other |
| Seqs.FilterConcat | script.js:313-317 | filtering a concatenation filters each part |
| Seqs.FilterLengthConcat | script.js:411-415 | a filtered count over a concatenation is the sum of the parts' counts |
| Seqs.FilterDropsAll | script.js:351 | a filter no element passes returns nothing (the other clients' rows in the search by client) |
| Seqs.FilterStep | script.js:357-358 | one step of a guarded push extends the filter of the rows seen so far |
| Seqs.FilterKeepsAll | script.js:351 | a filter every element passes returns the whole sequence |
| Seqs.FilterThreeWay | script.js:328-336 | three exclusive and exhaustive tests split a sequence's length among their filters |
| Seqs.SubseqRefl | script.js:324 | every list is a subsequence of itself (the `report` case) |
| Seqs.SubseqPrepend | script.js:313-317 | a subsequence stays one when elements are put in front of the larger list |
| Seqs.SubseqAppend | script.js:313-317 | a subsequence stays one when elements are put after the larger list |
| Seqs.SubseqMember | script.js:135 | every element of a subsequence is an element of the larger list |
| Seqs.SpliceOne | script.js:210 | `splice(start, 1)`: for an index in range, the list loses exactly that element, earlier elements stay and later ones shift left; a start past the end changes nothing; a negative start counts back from the end, acting as that in-range index, and below `-length` is clamped at 0, so the empty list is left unchanged |
| Dates.StringLess | script.js:235 | definition of JavaScript `<` on strings, used at script.js:235, 332, 336 and 414; its properties are proved in the `StringLess*` lemmas and `IsoDateOrderIsCalendarOrder` |
| Dates.StringLessIrreflexive | script.js:235 | no date string is before itself |
| Dates.StringLessAsymmetric | script.js:332-336 | a due date cannot be both before and after today |
| Dates.StringLessTransitive | script.js:235 | string order is transitive |
| Dates.StringLessTrichotomy | script.js:332-336 | two different strings are ordered one way or the other |
| Dates.StringLessSplit | script.js:235 | comparing strings with same-length prefixes compares the prefixes first, then the rests |
| Dates.DigitsValue | script.js:235 | supporting step of `IsoDateOrderIsCalendarOrder`: the number a digit string denotes is below 10 to the power of its length |
| Dates.LeadingDigitDecides | script.js:235 | supporting step of `IsoDateOrderIsCalendarOrder`: a larger leading digit outweighs any lower-order digits |
| Dates.DigitsOrder | script.js:235 | on equal-length digit strings, string order is numeric order and string equality is value equality |
| Dates.IsoDateFields | script.js:235 | string order on two ISO dates compares year, then month, then day |
| Dates.KeyOrder | script.js:235 | supporting step of `IsoDateOrderIsCalendarOrder`: the key year·10000 + month·100 + day orders dates lexicographically by their fields |
| Dates.IsoDateOrderIsCalendarOrder | script.js:235 | for `YYYY-MM-DD` strings, JavaScript `<` is calendar order and string equality is same-day |
| Agenda.IsSet | script.js:94 | definition of the truthiness of `currentClientCode` tested at script.js:94 and 133; its use is stated in `Store.SaveOrUpdateClient` and `Store.DeleteCurrentClient` |
| Agenda.HasCode | script.js:101 | definition of `clients.some(c => c.codigo === code)`; its properties are proved in `FindIndex`, `RemoveClient` and the uniqueness lemmas |
| Agenda.NewClient | script.js:105-106 | definition of the record pushed for a new client, the form's fields with no tasks; its properties are proved in `AddKeepsCodesUnique` and `Store.SaveOrUpdateClient` |
| Agenda.Merge | script.js:97 | definition of `{ ...clients[idx], ...data }`, the form's fields over the record with its tasks kept; its properties are proved in `UpdateClient` and `UpdateKeepsCodesUnique` |
| Agenda.FindIndex | script.js:95 | `findIndex` by code: -1 exactly when no client has the code, otherwise the first client with it |
| Agenda.UpdateClient | script.js:94-98 | the form is merged over the first client with the selected code, and its tasks are kept; every other client is untouched; with no match the array is unchanged |
| Agenda.RemoveClient | script.js:133-135 | no client with the code remains; every other client is kept as many times as it occurs, in its original order |
| Agenda.AppendTask | script.js:287 | the first client with the code gains the task at the end of its list, earlier tasks unchanged; no other client and no code changes |
| Agenda.RemoveTask | script.js:300-301 | the first client with the code has its list spliced at the index; no other client and no code changes |
| Agenda.AddKeepsCodesUnique | script.js:100-106 | adding a client with a free code keeps codes unique, and the new code is found at the end |
| Agenda.FilterKeepsCodesUnique | script.js:135 | filtering clients keeps their codes unique |
| Agenda.RemoveKeepsCodesUnique | script.js:135 | deleting clients keeps codes unique |
| Agenda.UpdateKeepsCodesUnique | script.js:94-98 | an edit that keeps the code or moves to a free code keeps codes unique, and the edited client is found under its new code at the same index |
| Agenda.UpdateMayDuplicateCode | script.js:94-98 | editing does not re-check uniqueness: some edit of a store with unique codes leaves two clients with one code |
| Agenda.SameCodesSameLookup | script.js:199 | task operations keep every code, so lookup by code and uniqueness are unchanged |
| Agenda.EditThenSaveMovesTaskLast | script.js:210 | staging task `i` for edit and then saving the edited task leaves the list without task `i` plus the edited task at the end; the length is restored and other clients are untouched |
| Agenda.EditThenSaveUnchangedKeepsTasks | script.js:210 | saving a staged task back unchanged keeps the client's tasks as the same multiset |
| Agenda.Store.constructor | script.js:14-15 | the store starts with the loaded array and no selection |
| Agenda.Store.Selected | script.js:199 | the selected client's index is -1 or a valid index |
| Agenda.Store.SaveOrUpdateClient | script.js:83-114 | an invalid form, or a new client whose code is taken, is refused with nothing changed; with a selection the form is merged by `UpdateClient`; otherwise a new client with no tasks is appended; a save selects the form's code; uniqueness is kept on add and on a non-colliding edit |
| Agenda.Store.DeleteCurrentClient | script.js:132-140 | without a selection or confirmation nothing changes; otherwise the selected code's clients are removed; no client is selected by the kept code afterwards; uniqueness is kept |
| Agenda.Store.EditTask | script.js:198-217 | returns task `index` of the selected client and splices it out of the list; the selection is unchanged |
| Agenda.Store.AddTask | script.js:269-296 | a task without title or due date is refused with nothing changed; any other is appended to the selected client's list |
| Agenda.Store.DeleteTask | script.js:298-305 | after confirmation the selected client's list is spliced at the index; otherwise nothing changes |
| Reports.IsOverdue | script.js:235 | definition of `isAtrasada`, due before today and status other than `Concluída`, tested at script.js:235, 332 and 414; its properties are proved in `OverdueFutureDisjoint`, `DueDatePartition` and `AppendTaskCounts` |
| Reports.Flatten | script.js:313-317 | definition of `allTasks`; its properties are proved in `FlattenLength`, `FlattenAt`, `FlattenMember` and `CollectTasks` |
| Reports.FixedReport | script.js:322-339 | definition of the `switch` on the filter name; its properties are proved in `FixedReportIsSubseq`, `OverdueFutureDisjoint` and `DueDatePartition` |
| Reports.FlattenConcat | script.js:313-317 | flattening a concatenation of clients concatenates their rows, and task counts add |
| Reports.FlattenLength | script.js:313-317 | the flattened list has one row per task of every client |
| Reports.FlattenAt | script.js:313-317 | task `j` of client `i` is at position (tasks of clients before `i`) + `j`, tagged with client `i` |
| Reports.FlattenMember | script.js:313-317 | a row is in the flattened list exactly when it is a task of a client tagged with that client |
| Reports.FlattenReplace | script.js:313-317 | replacing one client replaces only its rows in the flattened list |
| Reports.FixedReportIsSubseq | script.js:322-339 | every fixed report is a subsequence of the flattened list |
| Reports.OverdueFutureDisjoint | script.js:328-336 | no row is both overdue and future, and a row due today is neither |
| Reports.DueDatePartition | script.js:328-336 | due today, due before and due after split the rows exactly; every overdue row is due before today |
| Reports.ClientSearchMatchesFlatten | script.js:349-351 | with unique codes, the client search shows exactly the flattened rows carrying that code |
| Reports.DeletedClientLeavesReports | script.js:135 | after a delete no row of any fixed report carries the deleted code |
| Reports.TaggedAppend | script.js:287 | appending a task adds one row after the client's others |
| Reports.FlattenAppendAt | script.js:287 | appending a task to one client inserts exactly one row after that client's rows |
| Reports.AppendTaskCounts | script.js:287 | adding a task raises the total by one, and the overdue count by one exactly when the task is overdue |
| Reports.RemoveTaskCount | script.js:301 | deleting a task at a valid index lowers the total by one |
| Reports.TaggedStep | script.js:314-315 | one inner-loop step appends the next tagged task |
| Reports.FlattenStep | script.js:313 | one outer-loop step appends the next client's rows |
| Reports.CollectTasks | script.js:311-317 | the nested loop builds exactly the flattened list |
| Reports.ShowFixedGlobalTasks | script.js:309-342 | the shown rows are the named fixed report of the flattened list, and a subsequence of it |
| Reports.TasksDueOn | script.js:354-361 | the date search shows exactly the rows due on that date, which is the `today` report when the date is today |
| Reports.ShowGlobalTasks | script.js:344-366 | by client: the first client's tasks with its name, or nothing; else by date: the rows due that day; else nothing; always a subsequence of the flattened rows |
| Reports.UntagSubseq | script.js:351 | dropping the client code keeps a subsequence a subsequence |
| Reports.ClientRowsInFlatten | script.js:349-351 | a client's rows are a subsequence of the flattened list |
| Reports.OverdueAlert | script.js:409-433 | the nested count equals the length of the `overdue` report, and the badge is shown exactly when it is positive |
| Reports.OverdueScenario | script.js:332 | a pending task due 2024-01-01 is the one overdue row on 2024-06-01, tagged with its client |

## Left out

- Rendering, modals, the sidebar, the summary and the task-list markup are presentation only and are not modelled.
- `confirm` and `alert` dialogs: the user's answer to `confirm` is a boolean parameter, and `alert` has no effect on the store.
- Persistence: `localStorage` and JSON (de)serialisation in `loadAllClients`/`saveAllClients`. The loaded array is the constructor's parameter, and saving is not modelled. The refresh of the sidebar and badge after each save is not modelled either.
- Form reading: `FormData`, `checkValidity` and element values. The form's validity is a boolean parameter and its fields are a record of strings.
- Keys of a submitted form beyond the seven client fields are not carried into the record by the `{ ...c, ...data }` merge.
- The clock: `getTodayDateString` reads the current time, so today's date is a parameter.
- Theme handling, the CSS class derived from a status, and the event wiring.
- `editClient`, which only selects a client and fills the form, is not modelled.
- `clearFormData` clears the selection from the UI side; it is not modelled. `Store.constructor` covers the start-up state with no selection.
- Dates.StringLess: compares Dafny characters, which are Unicode scalar values. JavaScript compares UTF-16 code units. The two orders differ only when a character above U+FFFF meets one in U+E000 to U+FFFF, and the dates compared here are ASCII.
- Agenda.Store.EditTask, Agenda.Store.AddTask, Agenda.Store.DeleteTask: these require that a client with the selected code exists. The source throws a TypeError on a missing client, and the model does not represent that exception.
- Agenda.Store.EditTask: also requires `0 <= index < |tasks|`. For an index out of range the source throws a TypeError when it reads the fields of the undefined task (script.js:200-203), and the model does not represent that exception.
- Reports.ShowGlobalTasks: the model returns the rows. The title string is not modelled.
- Reports.ShowFixedGlobalTasks: the model returns the rows. The title string is not modelled.
