# Skill-share marketplace server core, in Dafny

This project models the server side of a skill-sharing marketplace.

- Users post **tasks**.
- **Providers** (individuals or companies) publish **skills** and make **offers** on open tasks.
- The task owner accepts one offer. That assigns the provider, who then records **progress** and marks the task done.

The model covers these parts of the server:

- the task, offer and skill services with their guards;
- the task, offer, skill, provider and user repositories, as writes on an in-memory store;
- the provider, task and user request schemas;
- the `AppError` type and its normalisation.

The store is one class, `Persistence.Store`, with one map per table. The repositories are methods that change only the maps their `modifies` clause names. A service is a method that returns `Result<T, Thrown>`: either its value, or the error it throws. `Thrown` separates an `AppError` (type, message, status) from a plain JavaScript `Error` and from a thrown non-error value.

Beside the per-call contracts, the model carries a global consistency property, `Marketplace.MarketInvariant`. Every service that writes preserves it. It says:

- a task has at most one ACCEPTED offer;
- a provider has at most one PENDING offer per task;
- every offer refers to an existing task;
- an accepted offer's provider is the task's assigned provider, and an assigned task has an accepted offer;
- an OPEN task has no provider;
- progress is recorded only by the assigned provider.

Four behaviours of the code worth noting:

- `acceptOffer` moves the task to ACCEPTED, not to IN_PROGRESS (server/src/app/offer/offer.services.ts:157).
- A caller who is not the task owner is refused acceptance with 400, not 403 (server/src/app/offer/offer.services.ts:124-130).
- `rejectCompletion` does not clear `completedAt` (server/src/app/task/task.repository.ts:97-104).
- The routes import `acceptTaskCompletion` and `rejectTaskCompletion` from the task service, but that service does not define them. Only the repository transitions `markAsCompleted` and `rejectCompletion` are modelled.

## Model

| member | source | states |
|---|---|---|
| Exception.NewAppError | server/src/utils/exception/index.ts:6-14 | type and message are kept; the status is the given one, or 500 when none is given |
| Exception.NormalizeError | server/src/utils/exception/index.ts:16-40 | an AppError passes unchanged; another Error becomes an AppError with its name, its message, status 500 and its stack when non-empty; any other value becomes GENERAL_ERROR, 500, with the type-and-value message |
| Exception.HandleError | server/src/utils/exception/index.ts:42-46 | a status other than 500 reaches the client only from a thrown AppError, unchanged; everything else is a 500 |
| Exception.NormalizeIdempotent | server/src/utils/exception/index.ts:16-19 | normalising an already normalised error gives it back |
| Exception.FailReachesClient | server/src/utils/exception/index.ts:6-19 | an AppError thrown with a status reaches the client with that type, message and status |
| Exception.PlainErrorIsInternal | server/src/utils/exception/index.ts:20-29 | a plain `new Error(msg)` reaches the client as type "Error", status 500 |
| Persistence.Lookup | server/src/app/task/task.repository.ts:30-34 | `findById`: the stored record when the id is present, null otherwise |
| Persistence.NewId | server/src/app/task/task.repository.ts:10-28 | the id a create assigns is not already in use |
| TaskRepository.Create | server/src/app/task/task.repository.ts:10-28 | a new task under a fresh id: status OPEN, owned by the user, no provider, the input fields copied; no other task changes |
| TaskRepository.FindByUserId | server/src/app/task/task.repository.ts:36-48 | exactly the stored tasks whose owner is the user |
| TaskRepository.FindByProviderId | server/src/app/task/task.repository.ts:50-57 | exactly the stored tasks assigned to the provider |
| TaskRepository.Update | server/src/app/task/task.repository.ts:59-72 | overwrites exactly the seven editable fields; id, status, owner, provider and completedAt are kept |
| TaskRepository.ApplyPatch | server/src/app/task/task.repository.ts:74-79 | for every field, a value present in the partial record replaces the stored one and an absent one keeps it; id and owner never change |
| TaskRepository.EmptyPatchKeepsTask | server/src/app/task/task.repository.ts:74-79 | a partial record with no fields leaves the task unchanged |
| TaskRepository.StatusPatchOnlySetsStatus | server/src/app/task/task.services.ts:69-72 | a status-only patch changes the status and nothing else |
| TaskRepository.AssignPatchSetsStatusAndProvider | server/src/app/offer/offer.services.ts:156-159 | the acceptance patch changes status and provider and nothing else |
| TaskRepository.UpdateTask | server/src/app/task/task.repository.ts:74-79 | only that task changes, to the patched record |
| TaskRepository.DeleteTask | server/src/app/task/task.repository.ts:81-85 | only that task is removed, and it is returned |
| TaskRepository.MarkAsCompleted | server/src/app/task/task.repository.ts:87-95 | status TASK_COMPLETED and completedAt set to the given time; every other field kept |
| TaskRepository.RejectCompletion | server/src/app/task/task.repository.ts:97-104 | status back to IN_PROGRESS; completedAt and every other field kept |
| TaskRepository.CreateTaskProgress | server/src/app/task/task.repository.ts:115-137 | appends one IN_PROGRESS entry linked to the task and provider; the tasks are not touched |
| TaskServices.CreateTask | server/src/app/task/task.services.ts:11-16 | the new task is OPEN, owned by the caller and unassigned; the market invariant is preserved |
| TaskServices.GetTasksByUserId | server/src/app/task/task.services.ts:18-20 | exactly the caller's tasks |
| TaskServices.GetTasksByProviderId | server/src/app/task/task.services.ts:22-26 | exactly the tasks assigned to the provider |
| TaskServices.UpdateTask | server/src/app/task/task.services.ts:28-44 | 404 for a missing task, then 409 exactly when it is not OPEN, with nothing written; on success only the editable fields change; the invariant is preserved |
| TaskServices.UpdateTaskProgress | server/src/app/task/task.services.ts:50-74 | 404 before 403; 403 exactly when the caller is not the assigned provider; no write on failure; on success the status becomes IN_PROGRESS from any prior status and exactly one entry is appended; the invariant is preserved |
| TaskServices.MarkTaskAsProviderCompleted | server/src/app/task/task.services.ts:76-97 | the same 404/403 guards; on success only the status changes, to PROVIDER_COMPLETED, and nothing is returned; the invariant is preserved |
| TaskServices.TaskErrorStatuses | server/src/app/task/task.services.ts:31-66 | the task errors reach the client as 404, 409 and 403 |
| OfferRepository.Create | server/src/app/offer/offer.repository.ts:5-17 | a new PENDING offer with the given fields under a fresh id; no other offer changes |
| OfferRepository.FindByTaskId | server/src/app/offer/offer.repository.ts:25-29 | exactly the offers on the task |
| OfferRepository.FindByProviderId | server/src/app/offer/offer.repository.ts:31-35 | exactly the provider's offers |
| OfferRepository.FindPendingOffersByTaskId | server/src/app/offer/offer.repository.ts:79-83 | exactly the PENDING offers on the task |
| OfferRepository.FindAcceptedOfferByTaskId | server/src/app/offer/offer.repository.ts:85-89 | null exactly when the task has no ACCEPTED offer; otherwise one such offer |
| OfferRepository.Update | server/src/app/offer/offer.repository.ts:37-50 | overwrites only the given fields of that offer |
| OfferRepository.DeleteOffer | server/src/app/offer/offer.repository.ts:52-56 | removes only that offer |
| OfferRepository.UpdateStatus | server/src/app/offer/offer.repository.ts:58-63 | only that offer's status changes |
| OfferRepository.AcceptOffer | server/src/app/offer/offer.repository.ts:65-70 | only that offer changes, to ACCEPTED |
| OfferRepository.RejectOffer | server/src/app/offer/offer.repository.ts:72-77 | only that offer changes, to REJECTED |
| OfferServices.CreateOffer | server/src/app/offer/offer.services.ts:8-73 | the first failing check decides the error: task missing 404, task not OPEN 400, provider missing 404, rate not positive 400, pending offer from this provider already on the task 400; it succeeds exactly when all pass and then adds exactly one PENDING offer from the caller; the invariant is preserved |
| OfferServices.GetOfferById | server/src/app/offer/offer.services.ts:75-89 | a missing or empty id and an unknown offer are refused; otherwise the stored offer |
| OfferServices.GetOffersByTaskId | server/src/app/offer/offer.services.ts:91-99 | a plain error for an unknown task; otherwise exactly its offers |
| OfferServices.GetOffersByProviderId | server/src/app/offer/offer.services.ts:101-109 | a plain error for an unknown provider; otherwise exactly its offers |
| OfferServices.AcceptOffer | server/src/app/offer/offer.services.ts:111-163 | plain errors for a missing offer or task; 400 for a caller who is not the owner, for an offer that is not PENDING, and for a task that already has an accepted offer; on success the offer is ACCEPTED and the task is ACCEPTED with the offer's provider assigned; at most one accepted offer per task, and the whole invariant, are preserved |
| OfferServices.RejectOffer | server/src/app/offer/offer.services.ts:165-188 | the same guards raised as plain errors; on success only the offer changes, to REJECTED, and the task is never touched; the invariant is preserved |
| OfferServices.AcceptErrorStatuses | server/src/app/offer/offer.services.ts:113-151 | the owner and state errors of acceptance reach the client as 400; the plain errors as 500 |
| Marketplace.EmptyStoreIsConsistent | server/src/app/offer/offer.services.ts:142-151 | the empty store satisfies the market invariant |
| Marketplace.UnacceptedTaskIsUnassigned | server/src/app/offer/offer.services.ts:154-160 | under the invariant, a task without an accepted offer has no provider |
| Marketplace.OpenTaskHasNoAcceptedOffer | server/src/app/offer/offer.services.ts:25-32 | under the invariant, an OPEN task has no accepted offer |
| Marketplace.OpenTaskHasNoProgress | server/src/app/task/task.services.ts:61-73 | under the invariant, no progress entry belongs to an OPEN task |
| Marketplace.AddTaskPreserves | server/src/app/task/task.repository.ts:10-28 | adding an OPEN, unassigned task preserves the invariant |
| Marketplace.EditTaskPreserves | server/src/app/task/task.repository.ts:59-72 | an edit that keeps status and provider preserves the invariant |
| Marketplace.RestatusPreserves | server/src/app/task/task.services.ts:69-72 | moving a task to any status other than OPEN preserves the invariant |
| Marketplace.AddProgressPreserves | server/src/app/task/task.repository.ts:115-137 | an entry by the assigned provider preserves the invariant |
| Marketplace.AddOfferPreserves | server/src/app/offer/offer.services.ts:53-72 | a PENDING offer from a provider with no pending offer on that task preserves the invariant |
| Marketplace.RejectOfferPreserves | server/src/app/offer/offer.services.ts:183-187 | rejecting a pending offer preserves the invariant |
| Marketplace.AcceptOfferPreserves | server/src/app/offer/offer.services.ts:142-162 | accepting a pending offer on a task without an accepted one, and assigning its provider, preserves the invariant |
| SkillRepository.Create | server/src/app/skill/skill.repository.ts:3-6 | a new skill with the given fields under a fresh id |
| SkillRepository.FindByProviderId | server/src/app/skill/skill.repository.ts:12-16 | exactly the provider's skills |
| SkillRepository.FindByCategory | server/src/app/skill/skill.repository.ts:29-31 | exactly the skills of the category |
| SkillRepository.FindByProviderAndCategory | server/src/app/skill/skill.repository.ts:33-38 | the intersection of the two filters |
| SkillRepository.ApplyDraft | server/src/app/skill/skill.repository.ts:18-23 | for each of the five fields, a present value replaces the stored one and an absent one keeps it; the id never changes |
| SkillRepository.EmptyDraftKeepsSkill | server/src/app/skill/skill.repository.ts:18-23 | an update with no fields leaves the skill unchanged |
| SkillRepository.Update | server/src/app/skill/skill.repository.ts:18-23 | null and no write for an unknown id; otherwise only that skill changes, to the updated one |
| SkillRepository.DeleteSkill | server/src/app/skill/skill.repository.ts:25-27 | returns the removed skill, or null for an unknown id; only that id is removed |
| SkillServices.Required | server/src/app/skill/skill.services.ts:8-39 | a missing or empty value fails with the given error; otherwise it is returned unchanged |
| SkillServices.ValidateId | server/src/app/skill/skill.services.ts:8-17 | 400 "ID is required" exactly for a missing or empty id; otherwise the id unchanged |
| SkillServices.ValidateProviderId | server/src/app/skill/skill.services.ts:19-28 | 400 "Provider ID is required" exactly for a missing or empty id; otherwise the id unchanged |
| SkillServices.ValidateCategory | server/src/app/skill/skill.services.ts:30-39 | 400 "Category is required" exactly for a missing or empty category; otherwise the category unchanged |
| SkillServices.CreateSkill | server/src/app/skill/skill.services.ts:41-84 | 400 when a required field is falsy, then 404 for an unknown provider, then 400 for negative experience, then 400 for a rate that is not positive; it succeeds exactly when all pass and stores one skill with the given fields |
| SkillServices.ZeroIsMissing | server/src/app/skill/skill.services.ts:43-55 | zero experience or a zero rate fails the required-field check |
| SkillServices.GetSkillById | server/src/app/skill/skill.services.ts:86-95 | 400 for a missing id, 404 for an unknown skill, otherwise the stored skill |
| SkillServices.GetSkillsByProviderId | server/src/app/skill/skill.services.ts:97-109 | 400 for a missing id, 404 for an unknown provider, otherwise exactly its skills |
| SkillServices.UpdateSkill | server/src/app/skill/skill.services.ts:111-150 | 400, 404 and then 403 for a caller who does not own the skill, with nothing written; then 400 for a present negative experience, then 400 for a present rate that is not positive, each only when present; on success only that skill changes, to the updated one |
| SkillServices.DeleteSkill | server/src/app/skill/skill.services.ts:152-172 | 400, 404, 403 with nothing written; on success exactly that skill is removed and returned |
| SkillServices.GetSkillsByCategory | server/src/app/skill/skill.services.ts:174-179 | 400 exactly for a missing category; otherwise exactly its skills |
| SkillServices.GetSkillsByProviderAndCategory | server/src/app/skill/skill.services.ts:181-199 | the provider id is checked before the category, both before the provider lookup; on success exactly the provider's skills of that category |
| ProviderRepository.CreateProvider | server/src/app/provider/provider.repository.ts:22-29 | the body is stored unchanged under a fresh id |
| ProviderServices.CheckProviderFields | server/src/app/provider/provider.services.ts:7-24 | an INDIVIDUAL fails with 400 exactly when a name field is empty; a COMPANY fails with 400 exactly when a company field is missing or empty; any other type passes |
| ProviderServices.CheckIsRefinement | server/src/app/provider/provider.services.ts:7-24 | the service check passes exactly when the schema's refinement holds |
| ProviderServices.SchemaImpliesCheck | server/src/app/provider/provider.validator.ts:29-68 | a body the sign-up schema accepts never fails the service check |
| ProviderServices.CreateProvider | server/src/app/provider/provider.services.ts:6-27 | fails exactly when the field check fails, with its error and no write; otherwise the body is stored unchanged |
| ProviderValidator.ScanPasswordFinds | server/src/app/provider/provider.validator.ts:10-12 | one pass over the password finds a character class exactly when some character is in it, and finds every character allowed exactly when each one is |
| ProviderValidator.PasswordPatternIsRule | server/src/app/provider/provider.validator.ts:10-12 | the password pattern accepts exactly the passwords of length 8 or more, with a lower-case letter, an upper-case letter, a digit and one of `@$!%*?&`, and nothing else |
| ProviderValidator.PasswordIssues | server/src/app/provider/provider.validator.ts:6-12 | no issue exactly for a strong password; a short one gets both messages, in order |
| ProviderValidator.MobileIssues | server/src/app/provider/provider.validator.ts:16-20 | no issue exactly for 10 to 15 characters that are digits or `+`; the messages for too short, too long and a wrong character |
| ProviderValidator.FieldIssues | server/src/app/provider/provider.validator.ts:4-55 | no issue exactly when every field rule holds: e-mail, password, names of at least 2, mobile, the role literal, the type enum, and the optional tax number, skills, experience and education when present |
| ProviderValidator.ProviderIssues | server/src/app/provider/provider.validator.ts:29-68 | no issue exactly when the schema holds; the refinement message appears exactly when role and type are valid and the refinement fails |
| ProviderValidator.IndividualRefineIsImplied | server/src/app/provider/provider.validator.ts:56-60 | for an individual, the field rules already imply the refinement |
| ProviderValidator.CompanyRefineRequiresCompanyFields | server/src/app/provider/provider.validator.ts:60-62 | an accepted company body has a non-empty company name and a valid tax number |
| TaskValidator.TaskIssues | server/src/app/task/task.validator.ts:5-13 | no issue exactly when the name has at least 3 characters, the category at least 2, the description at least 10 and the currency exactly 3 |
| TaskValidator.FreeFieldsUnchecked | server/src/app/task/task.validator.ts:9-11 | the start date, hours and rate strings never change the verdict |
| TaskValidator.UpdateTaskIssues | server/src/app/task/task.validator.ts:15-16 | the update schema gives the same verdict and messages as the create schema |
| TaskValidator.ProgressIssues | server/src/app/task/task.validator.ts:18-22 | no issue exactly when the description has at least 10 characters and the hours are positive |
| UserValidator.UserIssues | server/src/app/user/user.validator.ts:5-21 | no issue exactly when the e-mail passes, the password has at least 8 characters, both names at least 2 and the mobile number at least 10; the address fields are free |
| UserValidator.LoginIssues | server/src/app/user/user.validator.ts:27-30 | no issue exactly when the e-mail passes and the password is non-empty |
| UserValidator.ProviderSchemaIsStricter | server/src/app/user/user.validator.ts:5-16 | the contact fields of any accepted provider body pass the user schema |
| UserValidator.PasswordRulesDiffer | server/src/app/user/user.validator.ts:7 | an 8-letter lower-case password passes the user length rule but not the provider rule |
| UserRepository.FullName | server/src/app/user/user.repository.ts:67 | the first name, one space, then the last name |
| UserRepository.NewUserRecord | server/src/app/user/user.repository.ts:60-71 | the full name is derived from the two names, the role is always USER, and every input field is copied unchanged |
| UserRepository.CreateUser | server/src/app/user/user.repository.ts:60-71 | stores exactly that record under a fresh id |
| UserRepository.GetUserById | server/src/app/user/user.repository.ts:6-12 | the stored user when the id is present, null otherwise |
| UserRepository.FullNameInjective | server/src/app/user/user.repository.ts:67 | when first names contain no space, the full name determines both names |
| UserRepository.FullNameAmbiguous | server/src/app/user/user.repository.ts:67 | otherwise it does not: "Mary Ann" + "Lee" and "Mary" + "Ann Lee" share a full name |

## Left out

- Parsing and dates: the repositories' `parseFloat`, `parseInt` and `new Date(...)` are not modelled. Rates, hours and dates arrive already parsed. `markAsCompleted` takes the current time as a parameter.
- The e-mail format check of the schemas is a library rule. It enters as a boolean parameter.
- The ORM's own failures are not modelled: a write on a missing id, a broken relation connect, a duplicate unique e-mail. The repository writes require the id to exist, because every service checks that first.
- Result order: `find*` calls return lists in database order. The model returns sets, so order and duplicates are not captured.
- The related records that some reads join in (the owner and provider of a task, the skills of a provider) are not modelled.
- `getAllTasks`/`findAll`, `getProviderByEmail` and `getUserByEmail` are plain reads with no guard and are not modelled.
- `HandleError` also logs the message. That side effect is not modelled, and neither is the stack a fresh `AppError` captures.
- `acceptOffer` runs its two writes together. The model runs them one after the other, and two concurrent acceptances of offers on one task are not modelled.
- TaskRepository.ApplyPatch: a patch covers the fields the services write (all task fields except id and owner), not every column of the table.
- String lengths are counted in characters. The schemas count UTF-16 code units, which differs for characters outside the Basic Multilingual Plane.
- ProviderValidator.ProviderIssues: zod's default messages for a wrong `role` literal and a wrong `providerType` value end with the value received. The model keeps only the fixed part.
- The request-body middleware that turns the first schema message into a 400 response is HTTP plumbing and is not part of this model. The same goes for the routes, the authentication middleware and the client.
- `acceptTaskCompletion` and `rejectTaskCompletion` are used by the task routes but not defined in the task service, so they are not part of this model.
