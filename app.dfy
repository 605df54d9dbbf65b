/** The `App` component's state and its handlers. Each handler is one
    atomic transition of the four state fields; the persistence effect that
    follows every change of `tasks` is outside this model. */
module App {
  import opened SeqOps
  import opened JsString
  import opened Tasks

  datatype Option<T> = None | Some(value: T)

  /** The add-task form, `newTask`. */
  datatype Draft = Draft(title: string, description: string)

  const EmptyDraft: Draft := Draft("", "")

  /** The footer: total, completed, in progress, to do. */
  datatype Footer = Footer(total: nat, completed: nat, inProgress: nat, toDo: nat)

  class Board {
    var tasks: seq<Task>
    /** `null` (idle) or the task whose card was picked up (armed). */
    var draggedTask: Option<Task>
    var isAddingTask: bool
    var newTask: Draft

    /** The initial `useState` values. */
    constructor ()
      ensures tasks == [] && draggedTask == None
      ensures !isAddingTask && newTask == EmptyDraft
    {
      tasks := [];
      draggedTask := None;
      isAddingTask := false;
      newTask := EmptyDraft;
    }

    /** The mount effect. `decode` stands for `JSON.parse` followed by
        `map` rebuilding each `createdAt`; `None` is a payload on which one
        of them throws. A payload that is present, not the empty (falsy)
        string and decodes replaces `tasks` with its decoding. A payload
        that is missing or empty leaves the board as it is, and so does one
        that throws, since the effect stops before `setTasks`. */
    method Load(saved: Option<string>, decode: string -> Option<seq<Task>>)
      modifies this`tasks
      ensures saved.Some? && saved.value != "" && decode(saved.value).Some? ==>
        tasks == decode(saved.value).value
      ensures saved.None? || saved.value == "" || decode(saved.value).None? ==> tasks == old(tasks)
    {
      if saved.Some? && saved.value != "" {
        var decoded := decode(saved.value);
        if decoded.Some? {
          tasks := decoded.value;
        }
      }
    }

    /** `addTask`, with `id` and `now` standing for `Date.now().toString()`
        and `new Date()`. A blank title changes nothing, so the form stays
        open with what was typed. Otherwise the typed (untrimmed) title and
        description become a new `todo` task at the end of the board (and
        so, by `AppendJoinsColumnEnd`, at the end of the To Do column), and
        the form is cleared and closed. */
    method AddTask(id: TaskId, now: Timestamp)
      modifies this`tasks, this`newTask, this`isAddingTask
      ensures IsBlank(old(newTask.title)) ==>
        tasks == old(tasks) && newTask == old(newTask) && isAddingTask == old(isAddingTask)
      ensures !IsBlank(old(newTask.title)) ==>
        tasks == old(tasks) + [Task(id, old(newTask.title), old(newTask.description), Todo, now)]
        && newTask == EmptyDraft && !isAddingTask
    {
      if !IsBlank(newTask.title) {
        var task := Task(id, newTask.title, newTask.description, Todo, now);
        tasks := tasks + [task];
        newTask := EmptyDraft;
        isAddingTask := false;
      }
    }

    /** `deleteTask`: the tasks whose id differs from `taskId`, in their
        order; nothing changes when no task has that id. */
    method DeleteTask(taskId: TaskId)
      modifies this`tasks
      ensures tasks == WithoutId(old(tasks), taskId)
      ensures IsSubsequence(tasks, old(tasks))
      ensures forall t :: t in tasks <==> t in old(tasks) && t.id != taskId
      ensures (forall i :: 0 <= i < |old(tasks)| ==> old(tasks)[i].id != taskId) ==> tasks == old(tasks)
      ensures (exists i :: 0 <= i < |old(tasks)| && old(tasks)[i].id == taskId) ==> |tasks| < |old(tasks)|
    {
      DeleteKeepsOthersInOrder(tasks, taskId);
      if forall i :: 0 <= i < |tasks| ==> tasks[i].id != taskId {
        DeleteUnknownId(tasks, taskId);
      } else {
        var k :| 0 <= k < |tasks| && tasks[k].id == taskId;
        DeleteKnownIdShrinks(tasks, taskId, k);
      }
      tasks := WithoutId(tasks, taskId);
    }

    /** `handleDragStart`: arms the drag with `task`. */
    method HandleDragStart(task: Task)
      modifies this`draggedTask
      ensures draggedTask == Some(task)
    {
      draggedTask := Some(task);
    }

    /** `handleDrop` on the column of `status`. Armed: every task with the
        dragged id takes `status` and keeps its other fields, every other
        task is untouched, and the drag goes idle. Idle: nothing changes. */
    method HandleDrop(status: Status)
      modifies this`tasks, this`draggedTask
      ensures draggedTask == None
      ensures old(draggedTask).None? ==> tasks == old(tasks)
      ensures old(draggedTask).Some? ==> tasks == MoveToStatus(old(tasks), old(draggedTask).value.id, status)
      ensures |tasks| == |old(tasks)|
      ensures old(draggedTask).Some? ==> forall i :: 0 <= i < |tasks| ==>
        tasks[i] == if old(tasks)[i].id == old(draggedTask).value.id then old(tasks)[i].(status := status) else old(tasks)[i]
    {
      if draggedTask.Some? {
        tasks := MoveToStatus(tasks, draggedTask.value.id, status);
        draggedTask := None;
      }
    }

    /** `getTasksByStatus`: the tasks of that status, in board order. */
    function TasksByStatus(status: Status): (r: seq<Task>)
      reads this
      ensures IsSubsequence(r, tasks)
      ensures forall t :: t in r <==> t in tasks && t.status == status
      ensures forall t :: multiset(r)[t] == if t.status == status then multiset(tasks)[t] else 0
    {
      FilterIsSubsequence(HasStatus(status), tasks);
      FilterMultiset(HasStatus(status), tasks);
      WithStatus(tasks, status)
    }

    /** The footer line: the total and the three per-status counts, which
        add up to the total. */
    function Stats(): (f: Footer)
      reads this
      ensures f.total == |tasks|
      ensures f.completed == |TasksByStatus(Done)| && f.inProgress == |TasksByStatus(InProgress)|
              && f.toDo == |TasksByStatus(Todo)|
      ensures f.completed + f.inProgress + f.toDo == f.total
    {
      StatusCountsSum(tasks);
      Footer(|tasks|, |TasksByStatus(Done)|, |TasksByStatus(InProgress)|, |TasksByStatus(Todo)|)
    }
  }

  /** Picking up a card and dropping it on a column is moving that task's id
      to the column's status, whatever the drag held before. */
  method DragAndDrop(b: Board, task: Task, status: Status)
    modifies b
    ensures b.tasks == MoveToStatus(old(b.tasks), task.id, status)
    ensures b.draggedTask == None
    ensures b.newTask == old(b.newTask) && b.isAddingTask == old(b.isAddingTask)
  {
    b.HandleDragStart(task);
    b.HandleDrop(status);
  }

  /** Create "Write spec", drop it on In Progress, delete it. */
  method ScenarioCreateMoveDelete(id: TaskId, now: Timestamp)
  {
    var b := new Board();
    b.isAddingTask := true;
    b.newTask := Draft("Write spec", "");
    VisibleStartNotBlank("Write spec");
    b.AddTask(id, now);
    var t := Task(id, "Write spec", "", Todo, now);
    assert b.tasks == [t];
    assert !b.isAddingTask && b.newTask == EmptyDraft;

    DragAndDrop(b, t, InProgress);
    var moved := t.(status := InProgress);
    assert b.tasks == [moved];
    assert b.TasksByStatus(Todo) == [] by {
      assert moved !in b.TasksByStatus(Todo);
    }
    assert b.TasksByStatus(InProgress) == [moved] by {
      FilterKeepsAll(HasStatus(InProgress), [moved]);
    }

    b.DeleteTask(id);
    assert b.tasks == [];
    var f := b.Stats();
    assert f == Footer(0, 0, 0, 0);
  }

  /** A blank title (such as "" or "   ") adds nothing and keeps the form
      open with what was typed. */
  method ScenarioBlankTitle(title: string, description: string, id: TaskId, now: Timestamp)
    requires forall i :: 0 <= i < |title| ==> IsWhitespace(title[i])
  {
    var b := new Board();
    b.isAddingTask := true;
    b.newTask := Draft(title, description);
    assert IsBlank(b.newTask.title);
    b.AddTask(id, now);
    assert b.tasks == [] && b.isAddingTask && b.newTask == Draft(title, description);
  }

  /** Three tasks added in order, with titles that start with a visible
      character (such as "A", "B", "C"), show in the To Do column in that
      order. */
  method ScenarioCreationOrder(titleA: string, titleB: string, titleC: string,
                               ida: TaskId, idb: TaskId, idc: TaskId, now: Timestamp)
    requires titleA != [] && !IsWhitespace(titleA[0])
    requires titleB != [] && !IsWhitespace(titleB[0])
    requires titleC != [] && !IsWhitespace(titleC[0])
  {
    var b := new Board();
    VisibleStartNotBlank(titleA);
    VisibleStartNotBlank(titleB);
    VisibleStartNotBlank(titleC);
    var ta := Task(ida, titleA, "", Todo, now);
    var tb := Task(idb, titleB, "", Todo, now);
    var tc := Task(idc, titleC, "", Todo, now);
    b.newTask := Draft(titleA, "");
    b.AddTask(ida, now);
    b.newTask := Draft(titleB, "");
    b.AddTask(idb, now);
    b.newTask := Draft(titleC, "");
    b.AddTask(idc, now);
    assert b.tasks == [ta, tb, tc];
    FilterKeepsAll(HasStatus(Todo), b.tasks);
    assert b.TasksByStatus(Todo) == [ta, tb, tc];
  }

  /** No handler ends a drag that is released outside every column, so the
      picked-up task stays armed through later deletes and adds, and a
      later drop on a column (of a file, say, since drag-over always allows
      the drop) still moves it. */
  method ScenarioAbandonedDrag(a: Task, other: TaskId, title: string, id: TaskId, now: Timestamp, s: Status)
    requires other != a.id && id != a.id
    requires title != [] && !IsWhitespace(title[0])
  {
    var b := new Board();
    b.tasks := [a];
    b.HandleDragStart(a);
    DeleteUnknownId([a], other);
    b.DeleteTask(other);
    assert b.tasks == [a];
    VisibleStartNotBlank(title);
    b.newTask := Draft(title, "");
    b.AddTask(id, now);
    var added := Task(id, title, "", Todo, now);
    assert b.tasks == [a, added];
    assert b.draggedTask == Some(a);
    b.HandleDrop(s);
    assert b.tasks == [a.(status := s), added];
    assert b.draggedTask == None;
  }
}
