/** TasksService: the in-memory task list of the API and its operations. A
    missing id is the `NotFoundException` the service throws, returned here as
    a failure carrying its message. */
module TasksService {
  import opened Wrappers
  import Decimal
  import Store

  datatype Status = Pending | InProgress | Completed
  datatype Priority = Low | Medium | High

  /** A stored task; the two timestamps are not modelled. */
  datatype Task = Task(
    id: int,
    title: string,
    description: Option<string>,
    categoryId: int,
    status: Status,
    priority: Priority)

  /** The body of a create request. */
  datatype CreateTask = CreateTask(
    title: string,
    description: Option<string>,
    categoryId: int,
    status: Option<Status>,
    priority: Option<Priority>)

  /** The body of an update request: every key optional. */
  datatype UpdateTask = UpdateTask(
    title: Option<string>,
    description: Option<string>,
    categoryId: Option<int>,
    status: Option<Status>,
    priority: Option<Priority>)

  /** The four tasks the service starts with. */
  const Seed: seq<Task> := [
    Task(1, "Complete project documentation",
         Some("Write comprehensive documentation for the task manager project"), 2, InProgress, High),
    Task(2, "Review code changes", Some("Review pull requests and provide feedback"), 2, Pending, Medium),
    Task(3, "Exercise routine", Some("Complete 30-minute workout session"), 5, Completed, Medium),
    Task(4, "Study blockchain concepts", Some("Learn about smart contracts and Solidity"), 4, InProgress, High)
  ]

  function Id(t: Task): int {
    t.id
  }

  function Category(t: Task): int {
    t.categoryId
  }

  function NotFound(id: int): string {
    "Task with ID " + Decimal.IntToString(id) + " not found"
  }

  /** `findOne(id)`: the first task with the id; the same lookup as
      `CategoriesService.FindOne`, over tasks. */
  function FindOne(tasks: seq<Task>, id: int): (r: Result<Task, string>)
    ensures r.Failure? <==> forall i :: 0 <= i < |tasks| ==> tasks[i].id != id
    ensures r.Failure? ==> r.error == NotFound(id)
    ensures r.Success? ==> r.value.id == id
    ensures r.Success? ==>
              exists i :: 0 <= i < |tasks| && tasks[i] == r.value && forall j :: 0 <= j < i ==> tasks[j].id != id
  {
    match Store.FirstIndex(tasks, Id, id)
    case None => Failure(NotFound(id))
    case Some(i) => Success(tasks[i])
  }

  /** `findByCategory(categoryId)`: the tasks of that category in stored order. */
  function FindByCategory(tasks: seq<Task>, categoryId: int): (r: seq<Task>)
    ensures forall k :: 0 <= k < |r| ==> r[k].categoryId == categoryId
    ensures forall t :: t in r <==> t in tasks && t.categoryId == categoryId
    ensures multiset(r) <= multiset(tasks)
  {
    Store.Filter(tasks, Category, categoryId)
  }

  /** Nothing of the category is missed, and the order of the list is kept:
      the tasks of a concatenation are those of each part in turn. */
  lemma FindByCategoryComplete(tasks: seq<Task>, more: seq<Task>, categoryId: int, i: nat)
    requires i < |tasks| && tasks[i].categoryId == categoryId
    ensures tasks[i] in FindByCategory(tasks, categoryId)
    ensures FindByCategory(tasks + more, categoryId) == FindByCategory(tasks, categoryId) + FindByCategory(more, categoryId)
  {
    Store.FilterKeeps(tasks, Category, categoryId, i);
    Store.FilterAppend(tasks, more, Category, categoryId);
  }

  /** The task `create` builds at id `id`. */
  function NewTask(id: int, dto: CreateTask): (t: Task)
    ensures t.id == id && t.title == dto.title && t.description == dto.description
    ensures t.categoryId == dto.categoryId
    ensures dto.status.None? ==> t.status == Pending
    ensures dto.status.Some? ==> t.status == dto.status.value
    ensures dto.priority.None? ==> t.priority == Medium
    ensures dto.priority.Some? ==> t.priority == dto.priority.value
  {
    Task(id, dto.title, dto.description, dto.categoryId, dto.status.GetOr(Pending), dto.priority.GetOr(Medium))
  }

  /** `create(dto)`: appends the new task with id `length + 1`. */
  function Create(tasks: seq<Task>, dto: CreateTask): (r: (seq<Task>, Task))
    ensures r.0 == tasks + [r.1] && r.1 == NewTask(|tasks| + 1, dto)
  {
    var t := NewTask(|tasks| + 1, dto);
    (tasks + [t], t)
  }

  /** While ids stay within the list's length, a created task is found under
      its id and can be removed again, which restores the list. */
  lemma CreateThenFind(tasks: seq<Task>, dto: CreateTask)
    requires forall i :: 0 <= i < |tasks| ==> tasks[i].id <= |tasks|
    ensures FindOne(Create(tasks, dto).0, |tasks| + 1) == Success(Create(tasks, dto).1)
    ensures Remove(Create(tasks, dto).0, |tasks| + 1) == Success(tasks)
  {
    var (list, t) := Create(tasks, dto);
    assert list[|tasks|] == t;
    assert forall i :: 0 <= i < |tasks| ==> list[i] == tasks[i];
    Store.RemoveAtUndoesAppend(tasks, t);
  }

  /** Ids are not unique: after a removal, `create` reuses the length of the
      shorter list and hands out an id another task still has, and `findOne`
      then answers with the older task. */
  lemma CreateAfterRemoveReusesId(dto: CreateTask)
    ensures Remove(Seed, 1).Success?
    ensures var (list, t) := Create(Remove(Seed, 1).value, dto);
            && t.id == 4
            && list[2].id == 4
            && FindOne(list, 4) == Success(Seed[3])
  {
    var after := Remove(Seed, 1).value;
    assert after == Seed[1..];
    var (list, t) := Create(after, dto);
    assert list[2] == Seed[3];
  }

  /** The task with `dto`'s keys written over it. */
  function Patched(t: Task, dto: UpdateTask): (r: Task)
    ensures r.id == t.id
    ensures r.title == dto.title.GetOr(t.title)
    ensures r.categoryId == dto.categoryId.GetOr(t.categoryId)
    ensures r.status == dto.status.GetOr(t.status)
    ensures r.priority == dto.priority.GetOr(t.priority)
    ensures dto.description.Some? ==> r.description == dto.description
    ensures dto.description.None? ==> r.description == t.description
  {
    Task(t.id,
         dto.title.GetOr(t.title),
         if dto.description.Some? then dto.description else t.description,
         dto.categoryId.GetOr(t.categoryId),
         dto.status.GetOr(t.status),
         dto.priority.GetOr(t.priority))
  }

  /** `update(id, dto)`: the first task with the id is replaced by its patched
      copy, which is returned. */
  function Update(tasks: seq<Task>, id: int, dto: UpdateTask): (r: Result<(seq<Task>, Task), string>)
    ensures r.Failure? <==> forall i :: 0 <= i < |tasks| ==> tasks[i].id != id
    ensures r.Failure? ==> r.error == NotFound(id)
    ensures r.Success? ==>
              && |r.value.0| == |tasks|
              && exists i :: 0 <= i < |tasks| && tasks[i].id == id
                   && (forall j :: 0 <= j < i ==> tasks[j].id != id)
                   && r.value.1 == Patched(tasks[i], dto)
                   && r.value.0 == tasks[i := r.value.1]
  {
    match Store.FirstIndex(tasks, Id, id)
    case None => Failure(NotFound(id))
    case Some(i) =>
      var t := Patched(tasks[i], dto);
      Success((tasks[i := t], t))
  }

  /** After an update, `findOne` returns the updated task, and an update with
      no keys changes nothing. */
  lemma UpdateThenFind(tasks: seq<Task>, id: int, dto: UpdateTask)
    requires Update(tasks, id, dto).Success?
    ensures FindOne(Update(tasks, id, dto).value.0, id) == Success(Update(tasks, id, dto).value.1)
    ensures Update(tasks, id, UpdateTask(None, None, None, None, None)).value.0 == tasks
  {
    var i := Store.FirstIndex(tasks, Id, id).value;
    var list := Update(tasks, id, dto).value.0;
    Store.FirstIndexIsFirst(list, Id, id, i);
  }

  /** `remove(id)`: the first task with the id is deleted; the same splice
      as `CategoriesService.Remove`, over tasks. */
  function Remove(tasks: seq<Task>, id: int): (r: Result<seq<Task>, string>)
    ensures r.Failure? <==> forall i :: 0 <= i < |tasks| ==> tasks[i].id != id
    ensures r.Failure? ==> r.error == NotFound(id)
    ensures r.Success? ==>
              && |r.value| == |tasks| - 1
              && exists i :: 0 <= i < |tasks| && tasks[i].id == id
                   && (forall j :: 0 <= j < i ==> tasks[j].id != id)
                   && r.value == tasks[..i] + tasks[i + 1..]
  {
    match Store.FirstIndex(tasks, Id, id)
    case None => Failure(NotFound(id))
    case Some(i) => Success(Store.RemoveAt(tasks, i))
  }

  /** Completed becomes pending; any other status becomes completed. */
  function Toggled(s: Status): (r: Status)
    ensures (r == Completed) <==> (s != Completed)
    ensures r != InProgress
  {
    if s == Completed then Pending else Completed
  }

  /** `toggleComplete(id)`: the status of the first task with the id flips;
      the task is changed in place, so the list holds the new status too. */
  function ToggleComplete(tasks: seq<Task>, id: int): (r: Result<(seq<Task>, Task), string>)
    ensures r.Failure? <==> FindOne(tasks, id).Failure?
    ensures r.Failure? ==> r.error == NotFound(id)
    ensures r.Success? ==>
              && r.value.1 == FindOne(tasks, id).value.(status := Toggled(FindOne(tasks, id).value.status))
              && |r.value.0| == |tasks|
              && exists i :: 0 <= i < |tasks| && tasks[i].id == id
                   && (forall j :: 0 <= j < i ==> tasks[j].id != id)
                   && r.value.0 == tasks[i := r.value.1]
  {
    match Store.FirstIndex(tasks, Id, id)
    case None => Failure(NotFound(id))
    case Some(i) =>
      var t := tasks[i].(status := Toggled(tasks[i].status));
      Success((tasks[i := t], t))
  }

  /** Toggling twice restores the list exactly when the task was not in
      progress: an in-progress task comes back as pending. */
  lemma ToggleTwice(tasks: seq<Task>, id: int)
    requires FindOne(tasks, id).Success?
    ensures ToggleComplete(ToggleComplete(tasks, id).value.0, id).Success?
    ensures ToggleComplete(ToggleComplete(tasks, id).value.0, id).value.0 == tasks
            <==> FindOne(tasks, id).value.status != InProgress
  {
    var i := Store.FirstIndex(tasks, Id, id).value;
    var once := ToggleComplete(tasks, id).value.0;
    assert Store.FirstIndex(once, Id, id) == Some(i) by {
      Store.FirstIndexIsFirst(once, Id, id, i);
    }
    var twice := ToggleComplete(once, id).value.0;
    assert twice[i].status == Toggled(Toggled(tasks[i].status));
    if tasks[i].status == InProgress {
      assert twice[i] != tasks[i];
    }
  }
}
