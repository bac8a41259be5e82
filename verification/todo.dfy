/**
 * The TODO item of the to-do list application: its fields, the defaults of a
 * new item, its string form and whether it is overdue.  Date-times are integer
 * instants and the current time is passed in as `now`.
 */
module Todo {
  import opened Values

  datatype Todo = Todo(
    title: string,
    description: string,
    dueDate: Option<int>,
    isResolved: bool,
    createdAt: int,
    updatedAt: int)

  /** A new item as the model's field defaults make it: unresolved, both stamps at creation time. */
  function NewTodo(title: string, description: string, dueDate: Option<int>, now: int): (t: Todo)
    ensures !t.isResolved
    ensures Str(t) == title && t.description == description && t.dueDate == dueDate
    ensures t.createdAt == now && t.updatedAt == now
  {
    Todo(title, description, dueDate, false, now, now)
  }

  /** `__str__`: an item shows as its title, whatever its other fields. */
  function Str(t: Todo): (s: string)
    ensures s == t.title
  {
    t.title
  }

  /** `is_overdue`: an open item with a due date strictly before now. */
  predicate IsOverdue(t: Todo, now: int)
    ensures IsOverdue(t, now) ==> t.dueDate.Some? && !t.isResolved && t.dueDate.value < now
  {
    if t.dueDate.Some? && !t.isResolved then now > t.dueDate.value else false
  }

  /** Without a due date an item is never overdue. */
  lemma NoDueDateNeverOverdue(t: Todo, now: int)
    requires t.dueDate.None?
    ensures !IsOverdue(t, now)
  {
  }

  /** A resolved item is never overdue, however long ago it was due. */
  lemma ResolvedNeverOverdue(t: Todo, now: int)
    requires t.isResolved
    ensures !IsOverdue(t, now)
  {
  }

  /** An open item with a due date is overdue exactly when now is strictly past it; at the due instant it is not. */
  lemma OverdueExactlyPastDue(t: Todo, now: int)
    requires t.dueDate.Some? && !t.isResolved
    ensures IsOverdue(t, now) <==> now > t.dueDate.value
    ensures !IsOverdue(t, t.dueDate.value)
  {
  }

  /** Once overdue, an item stays overdue as time passes, until it is resolved. */
  lemma OverdueStaysOverdue(t: Todo, now: int, later: int)
    requires IsOverdue(t, now) && now <= later
    ensures IsOverdue(t, later)
    ensures !IsOverdue(t.(isResolved := true), later)
  {
  }

  /** A new item is overdue only if it was created already past its due date. */
  lemma NewTodoOverdue(title: string, description: string, dueDate: Option<int>, now: int)
    ensures IsOverdue(NewTodo(title, description, dueDate, now), now) <==> dueDate.Some? && now > dueDate.value
  {
  }
}
