/**
 * `components/Projects.tsx`: the kanban board splits a project's tasks into three
 * status columns, each card shows its assignee row only when there is an assignee,
 * and each shopping item gets a coloured dot by category.
 */
module Projects {
  import opened Types
  import opened Seqs

  /** `project.tasks.filter(t => t.status === status)`. */
  function Column(tasks: seq<Task>, status: TaskStatus): (col: seq<Task>)
    ensures forall i :: 0 <= i < |col| ==> col[i].status == status
    ensures forall t :: multiset(col)[t] == if t.status == status then multiset(tasks)[t] else 0
  {
    FilterMultiset(tasks, (t: Task) => t.status == status);
    Filter(tasks, (t: Task) => t.status == status)
  }

  datatype Board = Board(toDo: seq<Task>, inProgress: seq<Task>, done: seq<Task>)

  /** The three columns together hold every task exactly once. */
  lemma ColumnsPartition(tasks: seq<Task>)
    ensures multiset(Column(tasks, ToDo)) + multiset(Column(tasks, InProgress)) + multiset(Column(tasks, Done))
            == multiset(tasks)
  {
    var m := multiset(Column(tasks, ToDo)) + multiset(Column(tasks, InProgress)) + multiset(Column(tasks, Done));
    forall t: Task
      ensures m[t] == multiset(tasks)[t]
    {
      assert multiset(Column(tasks, t.status))[t] == multiset(tasks)[t];
    }
  }

  /** The board of `Projects`: the column sizes add up to the number of tasks, and no task is
      lost or duplicated. */
  function Kanban(p: Project): (b: Board)
    ensures b.toDo == Column(p.tasks, ToDo) && b.inProgress == Column(p.tasks, InProgress) && b.done == Column(p.tasks, Done)
    ensures multiset(b.toDo) + multiset(b.inProgress) + multiset(b.done) == multiset(p.tasks)
    ensures |b.toDo| + |b.inProgress| + |b.done| == |p.tasks|
  {
    ColumnsPartition(p.tasks);
    assert |multiset(p.tasks)| == |p.tasks|;
    Board(Column(p.tasks, ToDo), Column(p.tasks, InProgress), Column(p.tasks, Done))
  }

  /** Every task of the project appears in the column of its own status and in no other. */
  lemma TaskInExactlyOneColumn(p: Project, t: Task, s: TaskStatus)
    requires t in p.tasks
    ensures t in Column(p.tasks, s) <==> s == t.status
  {
    assert t in multiset(p.tasks);
    assert t in Column(p.tasks, s) <==> t in multiset(Column(p.tasks, s));
  }

  /** Within a column the tasks keep the project's order. */
  lemma ColumnKeepsOrder(a: seq<Task>, b: seq<Task>, s: TaskStatus)
    ensures Column(a + b, s) == Column(a, s) + Column(b, s)
  {
    FilterConcat(a, b, (t: Task) => t.status == s);
  }

  // ---------------------------------------------------------------------------
  // the kanban card

  datatype AssigneeRow = AssigneeRow(name: string, avatar: string, dueDate: Option<string>)
  datatype CardView = CardView(title: string, description: string, assigneeRow: Option<AssigneeRow>)

  /** `KanbanCard`: the assignee row exists only for an assigned task, and the due date is shown
      only inside that row and only when it is non-empty. */
  function Card(t: Task): (v: CardView)
    ensures v.title == t.title && v.description == t.description
    ensures v.assigneeRow.Some? <==> t.assignee.Some?
    ensures v.assigneeRow.Some? ==> v.assigneeRow.value.name == t.assignee.value.name
    ensures (v.assigneeRow.Some? && v.assigneeRow.value.dueDate.Some?) <==> (t.assignee.Some? && t.dueDate.Some? && t.dueDate.value != [])
  {
    var row :=
      if t.assignee.Some? then
        var due := if t.dueDate.Some? && t.dueDate.value != [] then t.dueDate else None;
        Some(AssigneeRow(t.assignee.value.name, t.assignee.value.avatar, due))
      else None;
    CardView(t.title, t.description, row)
  }

  // ---------------------------------------------------------------------------
  // the shopping list

  datatype DotColour = Green | Blue | Yellow | Red

  /** The nested conditional on `item.category`. */
  function CategoryColour(c: ShoppingCategory): (colour: DotColour)
    ensures colour == Green <==> c == Groceries
    ensures colour == Blue <==> c == Supplies
    ensures colour == Yellow <==> c == Pet
    ensures colour == Red <==> c !in {Groceries, Supplies, Pet}
  {
    if c == Groceries then Green
    else if c == Supplies then Blue
    else if c == Pet then Yellow
    else Red
  }
}
