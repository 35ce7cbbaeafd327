/**
 * The task repository (server/src/app/task/task.repository.ts): task and
 * progress records created and updated in the store. A write on an id the
 * table does not hold fails inside the database; callers check first.
 */
module TaskRepository {
  import opened Wrappers
  import opened Domain
  import opened Persistence

  /** `create`: a new OPEN task owned by `userId`, with the request's fields. */
  method Create(db: Store, data: TaskInput, userId: Id) returns (task: Task)
    requires db.Valid()
    modifies db`tasks
    ensures db.Valid()
    ensures task.id !in old(db.tasks) && db.tasks == old(db.tasks)[task.id := task]
    ensures task.status == TaskStatus.Open && task.userId == userId
    ensures task.providerId.None? && task.completedAt.None?
    ensures task.name == data.name && task.category == data.category
    ensures task.description == data.description && task.currency == data.currency
    ensures task.expectedStartDate == data.expectedStartDate
    ensures task.expectedHours == data.expectedHours && task.hourlyRate == data.hourlyRate
  {
    var id := NewId(db.tasks.Keys);
    task := Task(id, data.name, data.category, data.description, data.expectedStartDate,
                 data.expectedHours, data.hourlyRate, data.currency, TaskStatus.Open, userId, None, None);
    db.tasks := db.tasks[id := task];
  }

  /** `findByUserId`: the tasks the user owns (joined offers and progress are not modelled). */
  function FindByUserId(tasks: map<Id, Task>, userId: Id): (r: set<Task>)
    ensures forall t :: t in r <==> t in tasks.Values && t.userId == userId
  {
    set id | id in tasks && tasks[id].userId == userId :: tasks[id]
  }

  /** `findByProviderId`: the tasks assigned to the provider; unassigned tasks never match. */
  function FindByProviderId(tasks: map<Id, Task>, providerId: Id): (r: set<Task>)
    ensures forall t :: t in r <==> t in tasks.Values && t.providerId == Some(providerId)
    ensures forall t :: t in r ==> t.providerId.Some?
  {
    set id | id in tasks && tasks[id].providerId == Some(providerId) :: tasks[id]
  }

  /**
   * `update`: overwrites name, category, description, start date, hours, rate
   * and currency; id, status, owner, provider and completion time stay.
   */
  method Update(db: Store, id: Id, data: TaskInput) returns (task: Task)
    requires db.Valid() && id in db.tasks
    modifies db`tasks
    ensures db.Valid()
    ensures task == old(db.tasks[id]).(name := data.name, category := data.category,
      description := data.description, expectedStartDate := data.expectedStartDate,
      expectedHours := data.expectedHours, hourlyRate := data.hourlyRate, currency := data.currency)
    ensures db.tasks == old(db.tasks)[id := task]
  {
    task := db.tasks[id].(name := data.name, category := data.category,
      description := data.description, expectedStartDate := data.expectedStartDate,
      expectedHours := data.expectedHours, hourlyRate := data.hourlyRate, currency := data.currency);
    db.tasks := db.tasks[id := task];
  }

  /** The value a field takes under a patch: the patch's, when present. */
  function Patched<T>(field: Option<T>, current: T): T
  {
    if field.Some? then field.value else current
  }

  /** A task after a `Partial<Task>` update: id and owner never change. */
  function ApplyPatch(task: Task, patch: TaskPatch): (r: Task)
    ensures r.id == task.id && r.userId == task.userId
    ensures patch.status.None? ==> r.status == task.status
    ensures patch.status.Some? ==> r.status == patch.status.value
    ensures patch.providerId.None? ==> r.providerId == task.providerId
    ensures patch.providerId.Some? ==> r.providerId == patch.providerId.value
    ensures patch.completedAt.None? ==> r.completedAt == task.completedAt
    ensures patch.completedAt.Some? ==> r.completedAt == patch.completedAt.value
    ensures patch.name.Some? ==> r.name == patch.name.value
    ensures patch.name.None? ==> r.name == task.name
    ensures patch.category.Some? ==> r.category == patch.category.value
    ensures patch.category.None? ==> r.category == task.category
    ensures patch.description.Some? ==> r.description == patch.description.value
    ensures patch.description.None? ==> r.description == task.description
    ensures patch.expectedStartDate.Some? ==> r.expectedStartDate == patch.expectedStartDate.value
    ensures patch.expectedStartDate.None? ==> r.expectedStartDate == task.expectedStartDate
    ensures patch.expectedHours.Some? ==> r.expectedHours == patch.expectedHours.value
    ensures patch.expectedHours.None? ==> r.expectedHours == task.expectedHours
    ensures patch.hourlyRate.Some? ==> r.hourlyRate == patch.hourlyRate.value
    ensures patch.hourlyRate.None? ==> r.hourlyRate == task.hourlyRate
    ensures patch.currency.Some? ==> r.currency == patch.currency.value
    ensures patch.currency.None? ==> r.currency == task.currency
  {
    task.(
      name := Patched(patch.name, task.name),
      category := Patched(patch.category, task.category),
      description := Patched(patch.description, task.description),
      expectedStartDate := Patched(patch.expectedStartDate, task.expectedStartDate),
      expectedHours := Patched(patch.expectedHours, task.expectedHours),
      hourlyRate := Patched(patch.hourlyRate, task.hourlyRate),
      currency := Patched(patch.currency, task.currency),
      status := Patched(patch.status, task.status),
      providerId := Patched(patch.providerId, task.providerId),
      completedAt := Patched(patch.completedAt, task.completedAt))
  }

  /** A patch with no fields leaves the task as it is. */
  lemma EmptyPatchKeepsTask(task: Task)
    ensures ApplyPatch(task, TaskPatch(None, None, None, None, None, None, None, None, None, None)) == task
  {
  }

  /** A status-only patch changes the status and nothing else. */
  lemma StatusPatchOnlySetsStatus(task: Task, status: TaskStatus)
    ensures ApplyPatch(task, StatusPatch(status)) == task.(status := status)
  {
  }

  /** The acceptance patch changes the status and the provider and nothing else. */
  lemma AssignPatchSetsStatusAndProvider(task: Task, status: TaskStatus, providerId: Id)
    ensures ApplyPatch(task, AssignPatch(status, providerId)) == task.(status := status, providerId := Some(providerId))
  {
  }

  /** `updateTask`: applies a partial record to one task. */
  method UpdateTask(db: Store, id: Id, patch: TaskPatch) returns (task: Task)
    requires db.Valid() && id in db.tasks
    modifies db`tasks
    ensures db.Valid()
    ensures task == ApplyPatch(old(db.tasks[id]), patch)
    ensures db.tasks == old(db.tasks)[id := task]
  {
    task := ApplyPatch(db.tasks[id], patch);
    db.tasks := db.tasks[id := task];
  }

  /** `deleteTask`: removes one task and returns it. */
  method DeleteTask(db: Store, id: Id) returns (task: Task)
    requires db.Valid() && id in db.tasks
    modifies db`tasks
    ensures db.Valid()
    ensures task == old(db.tasks[id]) && db.tasks == old(db.tasks) - {id}
  {
    task := db.tasks[id];
    db.tasks := db.tasks - {id};
  }

  /** `markAsCompleted`: status TASK_COMPLETED, completed at `now`. */
  method MarkAsCompleted(db: Store, id: Id, now: Date) returns (task: Task)
    requires db.Valid() && id in db.tasks
    modifies db`tasks
    ensures db.Valid()
    ensures task == old(db.tasks[id]).(status := TaskStatus.TaskCompleted, completedAt := Some(now))
    ensures db.tasks == old(db.tasks)[id := task]
  {
    task := db.tasks[id].(status := TaskStatus.TaskCompleted, completedAt := Some(now));
    db.tasks := db.tasks[id := task];
  }

  /** `rejectCompletion`: back to IN_PROGRESS; the completion time is left as it was. */
  method RejectCompletion(db: Store, id: Id) returns (task: Task)
    requires db.Valid() && id in db.tasks
    modifies db`tasks
    ensures db.Valid()
    ensures task == old(db.tasks[id]).(status := TaskStatus.InProgress)
    ensures task.completedAt == old(db.tasks[id]).completedAt
    ensures db.tasks == old(db.tasks)[id := task]
  {
    task := db.tasks[id].(status := TaskStatus.InProgress);
    db.tasks := db.tasks[id := task];
  }

  /** `createTaskProgress`: appends one IN_PROGRESS entry for the task and provider. */
  method CreateTaskProgress(db: Store, taskId: Id, providerId: Id, data: TaskProgressInput) returns (entry: TaskProgress)
    requires db.Valid()
    modifies db`progress
    ensures db.Valid()
    ensures entry.id !in old(db.progress) && db.progress == old(db.progress)[entry.id := entry]
    ensures entry.taskId == taskId && entry.providerId == providerId
    ensures entry.description == data.description && entry.hoursSpent == data.hoursSpent
    ensures entry.status == ProgressStatus.InProgress
  {
    var id := NewId(db.progress.Keys);
    entry := TaskProgress(id, taskId, providerId, data.description, data.hoursSpent, ProgressStatus.InProgress);
    db.progress := db.progress[id := entry];
  }
}
