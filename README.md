# Kanban board task state, in Dafny

This project models the task-state logic of a single-page kanban board. All of it lives in the `App`
component of `src/App.tsx`. The board holds a list of tasks. Each task has an id, a title, a
description, a creation instant and a status. The status is one of `todo`, `in-progress` and `done`,
the statuses of the three fixed columns. The user adds a task through a form, deletes a task, and
drags a task's card onto a column to give it that column's status. The column badges and the footer
count the tasks of each status.

Files and modules:

- `seqops.dfy` (`SeqOps`): `Array.prototype.filter` and `Array.prototype.map` as recursive
  functions on sequences. Filtering is proved to keep order (a subsequence) and to keep exactly the
  accepted copies (a multiset statement). It is also proved to be the only sequence with those two
  properties.
- `jsstring.dfy` (`JsString`): `String.prototype.trim` over the ECMAScript WhiteSpace and
  LineTerminator characters, and the blank-title test `!title.trim()`.
- `tasks.dfy` (`Tasks`): the `Task` and `Column` records, `COLUMNS`, and the three new-array
  expressions the handlers install: delete by id, move by id, and filter by status. It also holds
  the lemmas about them.
- `app.dfy` (`App`): the component's four state fields as the class `Board`. Each handler is a
  method that gives the new state in terms of the old. `DragAndDrop` composes two handlers. Four
  client scenarios check the behaviour a user sees.

In three places the code behaves differently from the board's intended behaviour. The model follows
the code each time.
- Delete and drop act on every task with the given id, because ids are not guaranteed unique.
- Nothing ends a drag that is released outside every column; only a drop on a column does. The
  picked-up task stays armed through any later activity, and since drag-over always allows a drop,
  a later drop on a column of something else (a file, a text selection) still moves that task. An
  abandoned drag is meant to go idle. `ScenarioAbandonedDrag` shows the behaviour as written.
- A stored payload that `JSON.parse` rejects (such as `{`), or one that parses to something without
  `map` (such as `null`), makes the mount effect throw before `setTasks`, so the page crashes. A bad
  payload is meant not to crash the page. `Load` models only the effect on the state: the tasks are
  left unchanged.

The model also follows these details of the code:
- A task stores the title and description as typed, not trimmed; the stored title is never blank.
- The drag holds a snapshot of the whole task, and a drop matches on that snapshot's id only. A drop
  whose id no longer exists changes no task, but it still ends the drag.
- On load, an empty stored string counts as "no saved data", like a missing one.

Some helpers carry no row of their own. Each is covered by the row of the member that uses it:
- `Tasks.IdIsNot` (the delete callback, src/App.tsx:61) by `Tasks.WithoutId`.
- `Tasks.HasStatus` (the view callback, src/App.tsx:85) by `Tasks.WithStatus`.
- `Tasks.StatusName` (the status literals, src/App.tsx:7 and :14) by `Tasks.ColumnIdsAreStatusNames`.
- `JsString.IsWhitespace` (the characters `trim` strips) by `JsString.Trim`, `JsString.TrimStart`
  and `JsString.TrimEnd`.

## Model

| member | source | states |
|---|---|---|
| SeqOps.Filter | src/App.tsx:61 | `filter`: no longer than its input; every kept element is from the input and accepted; every accepted input element is kept |
| SeqOps.Map | src/App.tsx:75-79 | `map`: same length; position `i` of the result is `f` applied to position `i` of the input |
| SeqOps.FilterIsSubsequence | src/App.tsx:61 | a filter result is a subsequence of its input (relative order kept) |
| SeqOps.FilterMultiset | src/App.tsx:85 | a filter keeps every copy of an accepted element and no copy of a rejected one |
| SeqOps.SubsequenceMultiset | src/App.tsx:61 | deleting elements never adds copies (the multiset of a subsequence is contained in the whole) |
| SeqOps.FilterUnique | src/App.tsx:61 | any subsequence of the input with exactly the accepted copies equals the filter result |
| SeqOps.FilterAppend | src/App.tsx:54 | filtering `s + [x]` gives the filter of `s`, then `x` if `x` is accepted |
| SeqOps.FilterKeepsAll | src/App.tsx:61 | a filter that accepts every element returns its input unchanged |
| SeqOps.FilterDropsSomething | src/App.tsx:61 | a filter that rejects some element returns a strictly shorter sequence |
| JsString.TrimStart | src/App.tsx:46 | the result is a suffix of the input that does not start with whitespace, and every character dropped is whitespace |
| JsString.TrimEnd | src/App.tsx:46 | the result is a prefix of the input that does not end with whitespace, and every character dropped is whitespace |
| JsString.Trim | src/App.tsx:46 | `title.trim()` is an infix `s[i..j]` of the title with only whitespace before `i` and after `j`, and it neither starts nor ends with whitespace |
| JsString.IsBlank | src/App.tsx:46 | the guard `!title.trim()` holds if and only if every character of the title is whitespace |
| Tasks.ColumnIdsAreStatusNames | src/App.tsx:18-22 | the constant `Tasks.Columns` (`COLUMNS`) has three columns, and each column's id is the string name of its status |
| Tasks.ColumnOf | src/App.tsx:18-22 | every status has exactly one column with that status, so every task shows in one column and a drop assigns a column's status |
| Tasks.WithoutId | src/App.tsx:60-61 | the delete result holds only tasks from the input whose id differs, and all of them |
| Tasks.WithStatus | src/App.tsx:84-86 | the column view holds only input tasks with that status, and all of them |
| Tasks.Restatus | src/App.tsx:76-78 | the `map` callback keeps id, title, description and creation instant, and sets the status to the dropped one exactly when the id matches |
| Tasks.MoveToStatus | src/App.tsx:75-79 | same length; each task with the id gets the new status and keeps its other fields; each other task is unchanged |
| Tasks.DeleteKeepsOthersInOrder | src/App.tsx:60-61 | a delete is the order-preserving subsequence with exactly the tasks of another id, and is the only such sequence |
| Tasks.DeleteUnknownId | src/App.tsx:60-61 | deleting an id that no task has leaves the tasks unchanged |
| Tasks.DeleteKnownIdShrinks | src/App.tsx:60-61 | deleting an id that some task has shortens the board |
| Tasks.MoveUnknownId | src/App.tsx:74-79 | moving an id that no task has leaves the tasks unchanged |
| Tasks.MoveIdempotent | src/App.tsx:74-79 | dropping the same task on the same status twice gives the same tasks as dropping it once |
| Tasks.MoveLandsInColumn | src/App.tsx:75-79 | after a move to `s`, each moved task appears in column `s` with its other fields kept, and no other column holds a task with that id |
| Tasks.StatusCountsSum | src/App.tsx:208-211 | the done, in-progress and todo counts add up to the total, and so do the three column badges in `COLUMNS` order |
| Tasks.AppendJoinsColumnEnd | src/App.tsx:54 | an appended task joins the end of its own status's view, and the other views do not change |
| App.Board.constructor | src/App.tsx:25-28 | the initial state: no tasks, drag idle, form closed and empty |
| App.Board.Load | src/App.tsx:30-39 | a stored payload that is present, non-empty and decodes replaces the tasks with its decoding; a missing or empty payload, or one whose decoding throws, leaves the tasks unchanged |
| App.Board.AddTask | src/App.tsx:45-58 | blank title: nothing changes and the form stays open as typed; otherwise a new `todo` task with the untrimmed title and description is appended, the form is cleared and closed, and the drag is untouched |
| App.Board.DeleteTask | src/App.tsx:60-62 | the new tasks are the delete result: a subsequence of the old tasks, holding exactly the old tasks of another id; unchanged for an unknown id, shorter for a known one |
| App.Board.HandleDragStart | src/App.tsx:64-66 | arms the drag with the task and changes nothing else |
| App.Board.HandleDrop | src/App.tsx:72-82 | armed: the tasks are the move of the dragged id to the status (length kept, pointwise rewrite); idle: the tasks are unchanged; in both cases the drag ends idle |
| App.Board.TasksByStatus | src/App.tsx:84-86 | an order-preserving subsequence of the tasks holding exactly the tasks of that status, each with its multiplicity |
| App.Board.Stats | src/App.tsx:207-212 | the footer's total is the number of tasks, each count is its column's length, and the three counts add up to the total |
| App.DragAndDrop | src/App.tsx:64-81 | drag start then drop is the move of the task's id to the status; the drag ends idle and the form is not touched |

## Left out

- The rendering, the CSS classes, the modal markup, and the form's open, cancel and `onChange`
  handlers (src/App.tsx:88-215) are presentation. The scenarios set the form fields directly.
- The write-through save effect (src/App.tsx:41-43) is left out. It only writes `JSON.stringify(tasks)`
  to browser storage and changes no modelled state.
- App.Board.Load: `JSON.parse` and the rebuilding of `createdAt` are a black-box `decode`
  parameter whose `None` result stands for a throw. The model does not capture the crash that
  follows a throw. It also does not capture stored records with a malformed status or date, which
  get past the source's types at run time.
- `Date.now()`, `new Date()` and `toLocaleDateString` are clock and locale calls. The id and the
  creation instant are parameters of `AddTask`, and the instant is an opaque integer. Ids are not
  assumed unique.
- `handleDragOver` and the `preventDefault` calls are DOM event plumbing and change no state.
- React's scheduling of state updates is left out. Each handler is one atomic transition of the
  component's fields.
- Strings are sequences of Unicode scalar values, not UTF-16 code units. This does not affect `trim`,
  because every character it strips lies in the Basic Multilingual Plane.
