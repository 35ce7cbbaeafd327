/**
 * The task service (server/src/app/task/task.services.ts): the guards that
 * decide who may change a task and when, in front of the repository writes.
 */
module TaskServices {
  import opened Wrappers
  import opened Exception
  import opened Domain
  import opened Persistence
  import TaskRepository
  import opened Marketplace

  const TaskNotFound := Fail("NOT FOUND", "Task not found", NOT_FOUND)
  const EditConflict := Fail("CONFLICT", "Cannot update task that is already in progress or completed", CONFLICT)
  const ProgressForbidden := Fail("FORBIDDEN", "You are not authorized to update this task", FORBIDDEN)
  const CompleteForbidden := Fail("FORBIDDEN", "You are not authorized to complete this task", FORBIDDEN)

  /** `createTask`: a new OPEN task owned by the caller, with no provider. */
  method CreateTask(db: Store, data: TaskInput, userId: Id) returns (task: Task)
    requires db.Valid()
    modifies db`tasks
    ensures db.Valid()
    ensures task.id !in old(db.tasks) && db.tasks == old(db.tasks)[task.id := task]
    ensures task.status == TaskStatus.Open && task.userId == userId && task.providerId.None?
    ensures MarketInvariant(old(db.tasks), db.offers, db.progress) ==> MarketInvariant(db.tasks, db.offers, db.progress)
  {
    task := TaskRepository.Create(db, data, userId);
    if MarketInvariant(old(db.tasks), db.offers, db.progress) {
      AddTaskPreserves(old(db.tasks), db.offers, db.progress, task);
    }
  }

  /** `getTasksByUserId`: the tasks the user owns. */
  method GetTasksByUserId(db: Store, userId: Id) returns (r: set<Task>)
    ensures forall t :: t in r <==> t in db.tasks.Values && t.userId == userId
  {
    r := TaskRepository.FindByUserId(db.tasks, userId);
  }

  /** `getTasksByProviderId`: the tasks assigned to the provider. */
  method GetTasksByProviderId(db: Store, providerId: Id) returns (r: set<Task>)
    ensures forall t :: t in r <==> t in db.tasks.Values && t.providerId == Some(providerId)
  {
    r := TaskRepository.FindByProviderId(db.tasks, providerId);
  }

  /**
   * `updateTask`: NOT FOUND for a missing task, CONFLICT for a task that is
   * not OPEN (nothing written in either case); otherwise the editable fields
   * are overwritten and status, owner and provider are kept.
   */
  method UpdateTask(db: Store, taskId: Id, data: TaskInput) returns (r: Result<Task, Thrown>)
    requires db.Valid()
    modifies db`tasks
    ensures db.Valid()
    ensures taskId !in old(db.tasks) ==> r == Err(TaskNotFound)
    ensures taskId in old(db.tasks) && old(db.tasks[taskId]).status != TaskStatus.Open ==> r == Err(EditConflict)
    ensures r.Ok? <==> taskId in old(db.tasks) && old(db.tasks[taskId]).status == TaskStatus.Open
    ensures r.Err? ==> db.tasks == old(db.tasks)
    ensures r.Ok? ==>
      && r.value == old(db.tasks[taskId]).(name := data.name, category := data.category,
           description := data.description, expectedStartDate := data.expectedStartDate,
           expectedHours := data.expectedHours, hourlyRate := data.hourlyRate, currency := data.currency)
      && db.tasks == old(db.tasks)[taskId := r.value]
    ensures r.Ok? ==>
      && r.value.status == TaskStatus.Open
      && r.value.userId == old(db.tasks[taskId]).userId
      && r.value.providerId == old(db.tasks[taskId]).providerId
    ensures MarketInvariant(old(db.tasks), db.offers, db.progress) ==> MarketInvariant(db.tasks, db.offers, db.progress)
  {
    var task := Lookup(db.tasks, taskId);
    if task.None? {
      return Err(TaskNotFound);
    }
    if task.value.status != TaskStatus.Open {
      return Err(EditConflict);
    }
    var updated := TaskRepository.Update(db, taskId, data);
    r := Ok(updated);
    if MarketInvariant(old(db.tasks), db.offers, db.progress) {
      EditTaskPreserves(old(db.tasks), db.offers, db.progress, taskId, updated);
    }
  }

  /**
   * `updateTaskProgress`: NOT FOUND for a missing task, then FORBIDDEN unless
   * the caller is the assigned provider (nothing written in either case);
   * otherwise the task is forced to IN_PROGRESS, whatever its status was, and
   * exactly one progress entry is appended.
   */
  method UpdateTaskProgress(db: Store, taskId: Id, providerId: Id, data: TaskProgressInput)
    returns (r: Result<TaskProgress, Thrown>)
    requires db.Valid()
    modifies db`tasks, db`progress
    ensures db.Valid()
    ensures taskId !in old(db.tasks) ==> r == Err(TaskNotFound)
    ensures taskId in old(db.tasks) && old(db.tasks[taskId]).providerId != Some(providerId) ==> r == Err(ProgressForbidden)
    ensures r.Ok? <==> taskId in old(db.tasks) && old(db.tasks[taskId]).providerId == Some(providerId)
    ensures r.Err? ==> db.tasks == old(db.tasks) && db.progress == old(db.progress)
    ensures r.Ok? ==>
      && db.tasks == old(db.tasks)[taskId := old(db.tasks[taskId]).(status := TaskStatus.InProgress)]
      && r.value.id !in old(db.progress)
      && db.progress == old(db.progress)[r.value.id := r.value]
      && r.value == TaskProgress(r.value.id, taskId, providerId, data.description, data.hoursSpent, ProgressStatus.InProgress)
    ensures MarketInvariant(old(db.tasks), db.offers, old(db.progress)) ==>
      && MarketInvariant(db.tasks, db.offers, db.progress)
      && (r.Ok? ==> old(db.tasks[taskId]).status != TaskStatus.Open)
  {
    var task := Lookup(db.tasks, taskId);
    if task.None? {
      return Err(TaskNotFound);
    }
    if task.value.providerId != Some(providerId) {
      return Err(ProgressForbidden);
    }
    var _ := TaskRepository.UpdateTask(db, taskId, StatusPatch(TaskStatus.InProgress));
    TaskRepository.StatusPatchOnlySetsStatus(task.value, TaskStatus.InProgress);
    var entry := TaskRepository.CreateTaskProgress(db, taskId, providerId, data);
    r := Ok(entry);
    if MarketInvariant(old(db.tasks), db.offers, old(db.progress)) {
      RestatusPreserves(old(db.tasks), db.offers, old(db.progress), taskId, TaskStatus.InProgress);
      AddProgressPreserves(db.tasks, db.offers, old(db.progress), entry);
    }
  }

  /**
   * `markTaskAsProviderCompleted`: the same NOT FOUND and FORBIDDEN guards;
   * otherwise the status becomes PROVIDER_COMPLETED, whatever it was, and
   * nothing is returned.
   */
  method MarkTaskAsProviderCompleted(db: Store, taskId: Id, providerId: Id) returns (r: Result<(), Thrown>)
    requires db.Valid()
    modifies db`tasks
    ensures db.Valid()
    ensures taskId !in old(db.tasks) ==> r == Err(TaskNotFound)
    ensures taskId in old(db.tasks) && old(db.tasks[taskId]).providerId != Some(providerId) ==> r == Err(CompleteForbidden)
    ensures r.Ok? <==> taskId in old(db.tasks) && old(db.tasks[taskId]).providerId == Some(providerId)
    ensures r.Err? ==> db.tasks == old(db.tasks)
    ensures r.Ok? ==> db.tasks == old(db.tasks)[taskId := old(db.tasks[taskId]).(status := TaskStatus.ProviderCompleted)]
    ensures MarketInvariant(old(db.tasks), db.offers, db.progress) ==> MarketInvariant(db.tasks, db.offers, db.progress)
  {
    var task := Lookup(db.tasks, taskId);
    if task.None? {
      return Err(TaskNotFound);
    }
    if task.value.providerId != Some(providerId) {
      return Err(CompleteForbidden);
    }
    var _ := TaskRepository.UpdateTask(db, taskId, StatusPatch(TaskStatus.ProviderCompleted));
    TaskRepository.StatusPatchOnlySetsStatus(task.value, TaskStatus.ProviderCompleted);
    r := Ok(());
    if MarketInvariant(old(db.tasks), db.offers, db.progress) {
      RestatusPreserves(old(db.tasks), db.offers, db.progress, taskId, TaskStatus.ProviderCompleted);
    }
  }

  /** Every error the task service raises reaches the client with its own status. */
  lemma TaskErrorStatuses()
    ensures StatusOf(TaskNotFound) == NOT_FOUND
    ensures StatusOf(EditConflict) == CONFLICT
    ensures StatusOf(ProgressForbidden) == FORBIDDEN && StatusOf(CompleteForbidden) == FORBIDDEN
  {
  }
}
