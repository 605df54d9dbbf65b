/** The board's data model (`Task`, `Column`, the three `COLUMNS`) and the
    new-array expressions its handlers install: `tasks.filter` by id for a
    delete, `tasks.map` rewriting one id's status for a drop, and
    `tasks.filter` by status for a column's view. */
module Tasks {
  import opened SeqOps

  /** The closed set `'todo' | 'in-progress' | 'done'`. */
  datatype Status = Todo | InProgress | Done

  /** `Date.now().toString()` at creation; uniqueness is not guaranteed. */
  type TaskId = string

  /** `createdAt`, an opaque instant supplied by the caller. */
  type Timestamp = int

  datatype Task = Task(id: TaskId, title: string, description: string, status: Status, createdAt: Timestamp)

  datatype Column = Column(id: string, title: string, status: Status, color: string)

  /** The string literal each status is written as. */
  function StatusName(s: Status): string
  {
    match s
    case Todo => "todo"
    case InProgress => "in-progress"
    case Done => "done"
  }

  /** `COLUMNS`, in display order. */
  const Columns: seq<Column> := [
    Column("todo", "To Do", Todo, "bg-gray-100"),
    Column("in-progress", "In Progress", InProgress, "bg-blue-50"),
    Column("done", "Done", Done, "bg-green-50")
  ]

  /** Each column is keyed by the name of its status. */
  lemma ColumnIdsAreStatusNames()
    ensures |Columns| == 3
    ensures forall i :: 0 <= i < |Columns| ==> Columns[i].id == StatusName(Columns[i].status)
  {
  }

  /** The column a task of status `s` is rendered in: there is exactly one,
      so the statuses a task can take are exactly the statuses of `COLUMNS`,
      every task shows in one column, and a drop on a column assigns one of
      the three statuses. */
  function ColumnOf(s: Status): (i: nat)
    ensures i < |Columns| && Columns[i].status == s
    ensures forall j :: 0 <= j < |Columns| && Columns[j].status == s ==> j == i
  {
    match s
    case Todo => 0
    case InProgress => 1
    case Done => 2
  }

  /** The predicates and the rewrite passed to `filter` and `map`. */
  function IdIsNot(id: TaskId): Task -> bool
  {
    (t: Task) => t.id != id
  }

  function HasStatus(s: Status): Task -> bool
  {
    (t: Task) => t.status == s
  }

  /** The `map` callback: a task with the id gets status `s` and keeps its
      id, title, description and creation instant; any other task is
      returned as it is. */
  function Restatus(id: TaskId, s: Status): (f: Task -> Task)
    ensures forall t :: f(t).id == t.id && f(t).title == t.title && f(t).description == t.description
                        && f(t).createdAt == t.createdAt
    ensures forall t :: f(t).status == if t.id == id then s else t.status
  {
    (t: Task) => if t.id == id then t.(status := s) else t
  }

  /** `tasks.filter(task => task.id !== taskId)`. */
  function WithoutId(ts: seq<Task>, id: TaskId): (r: seq<Task>)
    ensures forall i :: 0 <= i < |r| ==> r[i].id != id && r[i] in ts
    ensures forall i :: 0 <= i < |ts| && ts[i].id != id ==> ts[i] in r
  {
    Filter(IdIsNot(id), ts)
  }

  /** `tasks.filter(task => task.status === status)`. */
  function WithStatus(ts: seq<Task>, s: Status): (r: seq<Task>)
    ensures forall i :: 0 <= i < |r| ==> r[i].status == s && r[i] in ts
    ensures forall i :: 0 <= i < |ts| && ts[i].status == s ==> ts[i] in r
  {
    Filter(HasStatus(s), ts)
  }

  /** `tasks.map(task => task.id === id ? { ...task, status } : task)`:
      the same number of tasks, each task with that id now carries `s` and
      keeps every other field, and every other task is untouched. */
  function MoveToStatus(ts: seq<Task>, id: TaskId, s: Status): (r: seq<Task>)
    ensures |r| == |ts|
    ensures forall i :: 0 <= i < |ts| && ts[i].id == id ==> r[i] == ts[i].(status := s)
    ensures forall i :: 0 <= i < |ts| && ts[i].id != id ==> r[i] == ts[i]
  {
    Map(Restatus(id, s), ts)
  }

  /** A delete keeps the other tasks in their order and with their
      multiplicity, drops every task with that id, and is the only
      sequence doing so. */
  lemma DeleteKeepsOthersInOrder(ts: seq<Task>, id: TaskId)
    ensures IsSubsequence(WithoutId(ts, id), ts)
    ensures forall t :: multiset(WithoutId(ts, id))[t] == if t.id != id then multiset(ts)[t] else 0
    ensures forall r: seq<Task> :: IsSubsequence(r, ts) && (forall t: Task :: multiset(r)[t] == if t.id != id then multiset(ts)[t] else 0)
                        ==> r == WithoutId(ts, id)
  {
    FilterIsSubsequence(IdIsNot(id), ts);
    FilterMultiset(IdIsNot(id), ts);
    forall r: seq<Task> | IsSubsequence(r, ts) && (forall t: Task :: multiset(r)[t] == if t.id != id then multiset(ts)[t] else 0)
      ensures r == WithoutId(ts, id)
    {
      FilterUnique(IdIsNot(id), ts, r);
    }
  }

  /** Deleting an id no task carries changes nothing. */
  lemma DeleteUnknownId(ts: seq<Task>, id: TaskId)
    requires forall i :: 0 <= i < |ts| ==> ts[i].id != id
    ensures WithoutId(ts, id) == ts
  {
    FilterKeepsAll(IdIsNot(id), ts);
  }

  /** Deleting an id some task carries makes the board shorter. */
  lemma DeleteKnownIdShrinks(ts: seq<Task>, id: TaskId, k: nat)
    requires k < |ts| && ts[k].id == id
    ensures |WithoutId(ts, id)| < |ts|
  {
    FilterDropsSomething(IdIsNot(id), ts, k);
  }

  /** Moving an id no task carries changes nothing. */
  lemma MoveUnknownId(ts: seq<Task>, id: TaskId, s: Status)
    requires forall i :: 0 <= i < |ts| ==> ts[i].id != id
    ensures MoveToStatus(ts, id, s) == ts
  {
  }

  /** Dropping the same task on the same column twice is dropping it once. */
  lemma MoveIdempotent(ts: seq<Task>, id: TaskId, s: Status)
    ensures MoveToStatus(MoveToStatus(ts, id, s), id, s) == MoveToStatus(ts, id, s)
  {
  }

  /** After a drop on `s`, every task with the dragged id sits in column `s`
      (with its other fields unchanged) and in no other column. */
  lemma MoveLandsInColumn(ts: seq<Task>, id: TaskId, s: Status)
    ensures forall i :: 0 <= i < |ts| && ts[i].id == id ==> ts[i].(status := s) in WithStatus(MoveToStatus(ts, id, s), s)
    ensures forall other: Status, t :: other != s && t in WithStatus(MoveToStatus(ts, id, s), other) ==> t.id != id
  {
  }

  /** The three footer counts add up to the total, and so do the three
      column badges, taken in `COLUMNS` order. */
  lemma {:induction false} StatusCountsSum(ts: seq<Task>)
    ensures |WithStatus(ts, Done)| + |WithStatus(ts, InProgress)| + |WithStatus(ts, Todo)| == |ts|
    ensures |WithStatus(ts, Columns[0].status)| + |WithStatus(ts, Columns[1].status)| + |WithStatus(ts, Columns[2].status)| == |ts|
  {
    if ts != [] {
      StatusCountsSum(ts[1..]);
    }
  }

  /** An appended task joins the end of its own column's view and leaves the
      other columns as they were: columns list tasks in creation order. */
  lemma AppendJoinsColumnEnd(ts: seq<Task>, t: Task, s: Status)
    ensures WithStatus(ts + [t], s) == WithStatus(ts, s) + (if t.status == s then [t] else [])
  {
    FilterAppend(HasStatus(s), ts, t);
  }
}
