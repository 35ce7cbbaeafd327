/**
 * The records the server stores (its Prisma models) and the inputs its
 * services accept, after the HTTP layer has parsed numbers and dates.
 */
module Domain {
  import opened Wrappers

  /** Record ids are strings chosen by the database. */
  type Id = string

  /** A JavaScript `Date`, as milliseconds since the epoch. */
  type Date = int

  datatype TaskStatus = Open | Accepted | InProgress | ProviderCompleted | TaskCompleted
  datatype OfferStatus = Pending | Accepted | Rejected
  datatype ProgressStatus = InProgress

  /** A task posted by a user; `providerId` is set when an offer is accepted. */
  datatype Task = Task(
    id: Id,
    name: string,
    category: string,
    description: string,
    expectedStartDate: Date,
    expectedHours: int,
    hourlyRate: real,
    currency: string,
    status: TaskStatus,
    userId: Id,
    providerId: Option<Id>,
    completedAt: Option<Date>)

  /** The fields of a create or update request for a task, already parsed. */
  datatype TaskInput = TaskInput(
    name: string,
    category: string,
    description: string,
    expectedStartDate: Date,
    expectedHours: int,
    hourlyRate: real,
    currency: string)

  /**
   * A `Partial<Task>`: each present field replaces the stored one. The two
   * nullable columns take `Some(None)` to be set to null.
   */
  datatype TaskPatch = TaskPatch(
    name: Option<string>,
    category: Option<string>,
    description: Option<string>,
    expectedStartDate: Option<Date>,
    expectedHours: Option<int>,
    hourlyRate: Option<real>,
    currency: Option<string>,
    status: Option<TaskStatus>,
    providerId: Option<Option<Id>>,
    completedAt: Option<Option<Date>>)

  /** `{ status }` */
  function StatusPatch(status: TaskStatus): TaskPatch
  {
    TaskPatch(None, None, None, None, None, None, None, Some(status), None, None)
  }

  /** `{ status, providerId }` */
  function AssignPatch(status: TaskStatus, providerId: Id): TaskPatch
  {
    TaskPatch(None, None, None, None, None, None, None, Some(status), Some(Some(providerId)), None)
  }

  datatype TaskProgressInput = TaskProgressInput(description: string, hoursSpent: real)

  /** One entry of a task's append-only progress log. */
  datatype TaskProgress = TaskProgress(
    id: Id,
    taskId: Id,
    providerId: Id,
    description: string,
    hoursSpent: real,
    status: ProgressStatus)

  /** A provider's bid on a task. */
  datatype Offer = Offer(
    id: Id,
    taskId: Id,
    providerId: Id,
    hourlyRate: real,
    currency: string,
    status: OfferStatus)

  /** A skill a provider advertises. */
  datatype Skill = Skill(
    id: Id,
    category: string,
    experience: int,
    workNature: string,
    hourlyRate: real,
    providerId: Id)

  /** A `Partial<Skill>` as the skill services receive it. */
  datatype SkillDraft = SkillDraft(
    category: Option<string>,
    experience: Option<int>,
    workNature: Option<string>,
    hourlyRate: Option<real>,
    providerId: Option<Id>)

  /** The body of a provider sign-up request, field by field in schema order. */
  datatype ProviderBody = ProviderBody(
    email: string,
    password: string,
    firstName: string,
    lastName: string,
    fullName: string,
    mobileNumber: string,
    streetNumber: string,
    streetName: string,
    city: string,
    state: string,
    postCode: string,
    role: string,
    providerType: string,
    companyName: Option<string>,
    businessTaxNumber: Option<string>,
    skills: Option<seq<string>>,
    experience: Option<real>,
    education: Option<string>,
    certifications: Option<seq<string>>)

  /** A stored provider: the sign-up body as given, under a new id. */
  datatype Provider = Provider(id: Id, data: ProviderBody)

  /** The body of a user sign-up request. */
  datatype UserInput = UserInput(
    email: string,
    password: string,
    firstName: string,
    lastName: string,
    mobileNumber: string,
    streetNumber: string,
    streetName: string,
    city: string,
    state: string,
    postCode: string)

  /** A stored user. */
  datatype User = User(
    id: Id,
    email: string,
    password: string,
    firstName: string,
    lastName: string,
    fullName: string,
    mobileNumber: string,
    streetNumber: string,
    streetName: string,
    city: string,
    state: string,
    postCode: string,
    role: string)
}
