# A verified model of the todo app's task and account core

The application is an Express/Mongoose todo list. Users register and log in;
a logged-in user keeps a list of tasks, each with a title, a description, a
priority (`low`, `medium`, `high`) and a status (`pending`, `completed`,
`deleted`, where `deleted` means "in the trash"). This project models the
server core in Dafny:

- `routes/tasks.js`: the dashboard, creating a task, changing its status,
  permanently deleting a task from the trash, and loading and submitting
  the edit form;
- `models/Task.js`: the task document, its enumerations, defaults and
  length limits;
- `routes/auth.js`: registration, login and logout;
- `middleware/auth.js`: the two guards `requireAuth` and `redirectIfAuth`.

Layout:

| file | module | contents |
|---|---|---|
| `wrappers.dfy` | `Wrappers` | `Option` and `Result` |
| `text.dfy` | `Text` | JavaScript `String.prototype.trim` over the ECMAScript white-space and line-terminator characters; truthiness of form fields; code-point string order |
| `task_model.dfy` | `TaskModel` | the `Task` record, status and priority enumerations with their names, the schema's limits |
| `dashboard.dfy` | `Dashboard` | the dashboard's filter, its sort order and its counters, as functions |
| `task_store.dfy` | `TaskStore` | the store calls `findOne`, `findOneAndUpdate` and `findOneAndDelete` as functions over the stored tasks; one step function per handler; the invariant the handlers keep; owner isolation; the class `TaskStore` that runs the handlers in place |
| `accounts.dfy` | `Accounts` | users, an abstract bcrypt, registration and login as functions; the classes `Session` and `Accounts` |
| `guards.dfy` | `Guards` | the two middleware guards over a `Session` |
| `scenarios.dfy` | `Scenarios` | the sample data of `scripts/seed.js`, a sort example, and a task walked from creation to purge |

The collection of tasks is a `seq<Task>` field of `TaskStore.TaskStore`.
Each handler method is proved equal to a step function of the old contents:
`Step(r, tasks) == StatusStep(old(tasks), ...)`. The properties are then
proved about those functions:

- every handler keeps the store invariant `StoreInvariant`: ids are
  distinct and below the next id, titles are non-empty and trimmed, and
  descriptions are trimmed;
- **owner isolation**: what a handler answers, and what it does to the
  caller's tasks, depends only on the caller's own tasks (`Owned(tasks,
  owner)`). It never changes another user's tasks;
- a task of another user with the requested id is indistinguishable from
  no task at all (`ForeignTaskIsInvisible`).

Clock values (`createdAt`, `updatedAt`) are a parameter `now` of each
handler. bcrypt is an arbitrary function `Digest` of salt and password. The
salt it draws is a parameter.

Behaviour of the code worth knowing:

- **Sort order.** The dashboard sorts the stored priority STRING in
  descending order. That order is "medium", then "low", then "high", so
  medium tasks come first and high ones last (`Dashboard.MediumListedBeforeHigh`).
  `Scenarios.DashboardOrderExample` lists A(high, t1), B(medium, t2) and
  C(high, t3), with t1 the oldest, as [B, C, A].
- **No transition table.** `POST /tasks/:id/status` accepts any of the
  three statuses from any status (`TaskStore.AnyStatusFromAnyStatus`).
- **No separate transition error for purge.** Purging a task that is not in
  the trash gives the same "not found or cannot be deleted" answer as a
  missing or foreign task.
- **Unknown filters.** An unknown dashboard filter value is not an error.
  It shows pending and completed tasks, like `all`.
- **Deleted tasks on edit.** Loading the edit form refuses deleted tasks.
  Submitting the edit does not, and it can set any status.

## Model

| member | source | states |
|---|---|---|
| Text.Trim | routes/tasks.js:84-85 | the trimmed string has no white space at either end and is no longer than the input |
| Text.TrimSplits | routes/tasks.js:84 | trimming removes white space from both ends and nothing else: the result is a slice of the input with only white space before and after it |
| Text.TrimmedIffUnpadded | routes/tasks.js:84 | trimming leaves a string unchanged iff it has no white space at either end |
| Text.TrimIdempotent | models/Task.js:7 | trimming twice gives the same result as once, so the schema's own `trim` adds nothing to an already trimmed title |
| Text.TrimEmptyIffAllSpace | routes/tasks.js:78 | `title.trim() === ''` holds exactly when the title is all white space |
| Text.OrEmpty | routes/tasks.js:85 | `description \|\| ''` is the field when it is a non-empty string and "" otherwise |
| Text.Blank | routes/tasks.js:78 | `!title \|\| title.trim() === ''`: the field is absent, empty, or only white space |
| TaskModel.ParseStatus | models/Task.js:15-19 | the status enum accepts exactly "pending", "completed" and "deleted", and the accepted name is the status's name |
| TaskModel.ParseStatusName | models/Task.js:17 | every status's name is accepted back as that status |
| TaskModel.ParsePriority | models/Task.js:20-24 | the priority enum accepts exactly "low", "medium" and "high", and the accepted name is the priority's name |
| TaskModel.ParsePriorityName | models/Task.js:22 | every priority's name is accepted back as that priority |
| TaskModel.ValidTask | models/Task.js:4-14 | what a document saved through the schema satisfies, its title having been trimmed by the schema's setter: a non-empty title with no surrounding white space, at most 200 characters, and a description of at most 1000 |
| TaskModel.PriorityNameOrder | routes/tasks.js:30 | comparing stored priority strings ranks medium above low above high, and two names are equal iff the priorities are |
| Dashboard.FilterValue | routes/tasks.js:12 | a missing filter is "all"; a given one is kept as it is |
| Dashboard.Shows | routes/tasks.js:17-26 | the status condition the filter puts on the query: one status for "pending", "completed" or "deleted", and pending or completed for any other value |
| Dashboard.FilterSemantics | routes/tasks.js:17-26 | a status name selects exactly that status; any other filter value selects every status except deleted |
| Dashboard.Select | routes/tasks.js:15-29 | the query returns each of the owner's tasks the filter shows, as often as it is stored, and nothing else |
| Dashboard.Precedes | routes/tasks.js:30 | `a` may be listed before `b`: its priority string is larger, or the strings are equal and `a` is not older |
| Dashboard.PrecedesByRank | routes/tasks.js:30 | the listing order is higher rank first (medium, low, high), then newest first among equal priorities |
| Dashboard.PrecedesTotal | routes/tasks.js:30 | any two tasks are ordered one way or the other |
| Dashboard.PrecedesTransitive | routes/tasks.js:30 | the listing order is transitive |
| Dashboard.MediumListedBeforeHigh | routes/tasks.js:30 | a medium task is listed before a high one, whatever their creation times, and never after |
| Dashboard.Insert | routes/tasks.js:29-31 | inserting into the listing adds exactly that task |
| Dashboard.SortForDashboard | routes/tasks.js:29-31 | sorting keeps exactly the selected tasks (a permutation) |
| Dashboard.InsertSorted | routes/tasks.js:29-31 | inserting into a sorted listing keeps it sorted |
| Dashboard.SortSorted | routes/tasks.js:29-31 | the sorted listing is in dashboard order |
| Dashboard.CountWhere | routes/tasks.js:34-45 | one `countDocuments` call: the number of the owner's stored tasks whose status is in the given set |
| Dashboard.ComputeStats | routes/tasks.js:34-45 | the three counters: the owner's tasks that are pending or completed, those pending, and those completed, whatever the filter |
| Dashboard.CountSplits | routes/tasks.js:34-45 | the count over pending and completed is the pending count plus the completed count |
| Dashboard.StatsTotal | routes/tasks.js:34-45 | the counters satisfy total = pending + completed for every store |
| Dashboard.CountIsSelectLength | routes/tasks.js:15-45 | counting over a status set equals the length of the listing for a filter showing the same statuses |
| Dashboard.StatsMatchListings | routes/tasks.js:15-45 | total, pending and completed are the lengths of the "all", "pending" and "completed" listings |
| TaskStore.Apply | routes/tasks.js:113-117 | an update never touches id, owner or creation time; it sets the status and update time, and only an edit changes title, description and priority |
| TaskStore.FindOne | routes/tasks.js:172-176 | a lookup returns a stored task matching the filter, and none exactly when no stored task matches |
| TaskStore.UpdateOne | routes/tasks.js:113-117 | a find-and-update keeps the length and changes at most one position; each task is either unchanged or a matching task patched; nothing changes when nothing matches; otherwise the task the lookup finds is stored patched at its own position |
| TaskStore.DeleteOne | routes/tasks.js:145-149 | a find-and-delete removes exactly the task the lookup finds, or changes nothing when there is none |
| TaskStore.Owned | routes/tasks.js:15 | the tasks carrying the user's id are exactly the stored tasks of that user |
| TaskStore.FindOneScoped | routes/tasks.js:172-176 | a lookup scoped on the owner finds in the whole store what it finds among the owner's tasks |
| TaskStore.UpdateOneScoped | routes/tasks.js:113-117 | an update scoped on the owner does to the owner's tasks what it would do to them alone |
| TaskStore.UpdateOneOthers | routes/tasks.js:113-117 | an update scoped on one owner leaves every other user's tasks unchanged |
| TaskStore.DeleteOneScoped | routes/tasks.js:145-149 | a delete scoped on the owner does to the owner's tasks what it would do to them alone |
| TaskStore.DeleteOneOthers | routes/tasks.js:145-149 | a delete scoped on one owner leaves every other user's tasks unchanged |
| TaskStore.SelectScoped | routes/tasks.js:15-29 | the dashboard query sees only the owner's tasks |
| TaskStore.CountScoped | routes/tasks.js:34-45 | the counters see only the owner's tasks |
| TaskStore.PriorityField | routes/tasks.js:86 | `priority \|\| 'medium'` is the given priority when non-empty and "medium" otherwise |
| TaskStore.StatusAccepted | routes/tasks.js:109 | the status field is present and one of "pending", "completed" and "deleted" |
| TaskStore.BuildTask | routes/tasks.js:83-90 | the new document is saved iff the trimmed title is non-empty and at most 200 characters, the trimmed description at most 1000, and the priority is in the enum; a saved task is valid, pending, stamped with `now`, and holds the trimmed fields, with the empty description when none is given |
| TaskStore.CreateStep | routes/tasks.js:74-101 | a blank title gives "Task title is required" and a refused document "Failed to create task", both with no change; otherwise exactly the document BuildTask makes (trimmed fields, default priority, the next id, stamped with `now`) is appended and returned |
| TaskStore.StatusStep | routes/tasks.js:104-138 | an unknown status is rejected before the store is touched; the call succeeds iff the caller owns a task with that id; otherwise it gives not found with no change; on success the found task is stored with the new status, stamped `now`, and returned; no other task changes |
| TaskStore.PurgeStep | routes/tasks.js:141-165 | the purge succeeds iff the caller owns a task with that id that is in the trash, and then removes exactly that task; otherwise it gives one error and no change |
| TaskStore.EditFormLookup | routes/tasks.js:168-181 | the edit form finds a task iff the caller owns a pending or completed task with that id |
| TaskStore.EditStep | routes/tasks.js:203-228 | a blank title gives "Task title is required" with no change; the call succeeds iff the caller owns a task with that id, whatever its status; on success the found task is stored with the new title, description, priority and status, stamped `now`, and returned; no other task changes |
| TaskStore.CreatePreserves | routes/tasks.js:83-90 | creating keeps the store invariant, with the next id advanced on success |
| TaskStore.StatusPreserves | routes/tasks.js:113-117 | a status change keeps the store invariant |
| TaskStore.EditPreserves | routes/tasks.js:214-223 | an edit keeps the store invariant |
| TaskStore.StatusRewritesThatTask | routes/tasks.js:113-117 | with distinct ids, a successful status change rewrites exactly the stored task with that id into the returned document, and every other position is unchanged |
| TaskStore.EditRewritesThatTask | routes/tasks.js:214-223 | with distinct ids, a successful edit rewrites exactly the stored task with that id into the returned document, and every other position is unchanged |
| TaskStore.DeleteOnePreserves | routes/tasks.js:145-149 | removing a task keeps the store invariant |
| TaskStore.PurgePreserves | routes/tasks.js:145-149 | a purge keeps the store invariant |
| TaskStore.DashboardIsolated | routes/tasks.js:15-45 | two stores with the same tasks for the owner give the owner the same listing and counters |
| TaskStore.CreateIsolated | routes/tasks.js:83-88 | creating leaves every other user's tasks unchanged and adds the new task to the end of the owner's |
| TaskStore.StatusIsolated | routes/tasks.js:113-121 | the status answer and the owner's tasks afterwards depend only on the owner's tasks |
| TaskStore.StatusLeavesOthers | routes/tasks.js:113-117 | a status change never alters another user's tasks |
| TaskStore.PurgeIsolated | routes/tasks.js:145-154 | the purge answer and the owner's tasks afterwards depend only on the owner's tasks |
| TaskStore.PurgeLeavesOthers | routes/tasks.js:145-149 | a purge never removes another user's task |
| TaskStore.EditFormIsolated | routes/tasks.js:172-181 | the edit form's lookup depends only on the owner's tasks |
| TaskStore.EditIsolated | routes/tasks.js:214-228 | the edit answer and the owner's tasks afterwards depend only on the owner's tasks |
| TaskStore.EditLeavesOthers | routes/tasks.js:214-223 | an edit never alters another user's tasks |
| TaskStore.ForeignTaskIsInvisible | routes/tasks.js:114 | adding another user's task with the requested id changes no listing, counter or answer of any handler |
| TaskStore.AnyStatusFromAnyStatus | routes/tasks.js:109-117 | the owner can set any of the three statuses on any of their tasks, whatever its current status |
| TaskStore.TaskStore.ListTasks | routes/tasks.js:10-45 | the listing is sorted for the dashboard, a permutation of the query's result, and only the owner's tasks the filter shows; the counters are the listing lengths for "all", "pending" and "completed", with total = pending + completed |
| TaskStore.TaskStore.CreateTask | routes/tasks.js:74-101 | the response and new contents are those of CreateStep; the invariant is kept and the next id advances on success |
| TaskStore.TaskStore.UpdateStatus | routes/tasks.js:104-138 | the response and new contents are those of StatusStep; the invariant is kept; on success exactly the task with that id is replaced by the returned document |
| TaskStore.TaskStore.PermanentDelete | routes/tasks.js:141-165 | the response and new contents are those of PurgeStep; the invariant is kept |
| TaskStore.TaskStore.LoadForEdit | routes/tasks.js:168-181 | the task found is EditFormLookup's: one of the caller's tasks that is not in the trash |
| TaskStore.TaskStore.SubmitEdit | routes/tasks.js:203-239 | the response and new contents are those of EditStep; the invariant is kept; on success exactly the task with that id is replaced by the returned document |
| Accounts.Hash | routes/auth.js:122 | the stored hash carries the salt it was made with |
| Accounts.Compare | routes/auth.js:49 | `bcrypt.compare`: the password hashed with the stored salt gives the stored digest |
| Accounts.CompareHash | routes/auth.js:49 | a password always matches its own hash, whatever the salt |
| Accounts.RegistrationError | routes/auth.js:95-119 | the registration checks run in order (missing field, mismatch, shorter than 6, name taken), each error iff its check is the first to fail, none iff all pass |
| Accounts.RegisterStep | routes/auth.js:95-129 | registration either fails with the first failing check and no change, or adds exactly one new user under that name with the password stored hashed |
| Accounts.Authenticate | routes/auth.js:32-57 | a missing field gives "Username and password are required"; login succeeds iff the name is registered and the password matches its hash, yielding that user; every other failure gives the same "Invalid username or password" |
| Accounts.UnknownUserLooksLikeWrongPassword | routes/auth.js:42-57 | an unknown username and a wrong password give the same answer |
| Accounts.RegisterThenLogin | routes/auth.js:122-129 | after a successful registration, logging in with the same name and password succeeds and yields the new user |
| Accounts.Session.Destroy | routes/auth.js:143-148 | after logout the session holds no user, whatever it held before |
| Accounts.Accounts.Register | routes/auth.js:83-140 | the response and new users are those of RegisterStep; every user stays stored under its own name, and user ids stay distinct; the next id advances on success |
| Accounts.Accounts.Login | routes/auth.js:25-72 | the response is Authenticate's; on success the session names the user, on failure it is left as it was |
| Guards.RequireAuth | middleware/auth.js:2-8 | a request passes iff the session has a user id; otherwise it is sent to /login, and the login notice is set only when `req.flash` is empty |
| Guards.RedirectIfAuth | middleware/auth.js:11-16 | a logged-in user is sent to /dashboard; everyone else passes |
| Guards.ExactlyOneGuardPasses | middleware/auth.js:2-16 | for every session, exactly one of the two guards lets the request through |
| Scenarios.SeedStats | scripts/seed.js:29-67 | the sample user's counters are 5 in total, 3 pending and 2 completed; any other user's are all zero |
| Scenarios.DashboardOrderExample | routes/tasks.js:29-31 | with high A older than medium B and than high C, the listing is [B, C, A] |
| Scenarios.StatusOnSingle | routes/tasks.js:113-117 | the owner's status change on a one-task store rewrites that task's status and update time |
| Scenarios.PurgeOnSingle | routes/tasks.js:145-154 | the owner's purge of a trashed task empties a one-task store; a stranger's changes nothing |
| Scenarios.CreateMilk | routes/tasks.js:74-94 | "Buy milk" with priority low is created pending and listed under "pending" |
| Scenarios.Complete | routes/tasks.js:104-132 | the completed task leaves the "pending" listing and is listed under "completed" |
| Scenarios.Trash | routes/tasks.js:104-132 | the trashed task leaves the default listing and is listed under "deleted" |
| Scenarios.Purge | routes/tasks.js:141-158 | a stranger cannot purge the task; its owner can; a later status change gives not found |

## Left out

- Rendering, redirects to pages and flash-message plumbing are not modelled beyond the error each handler reports. This covers the flash middleware of `routes/auth.js`, the login and register pages, and `res.render`.
- Console logging is not modelled.
- Storage failures that fall into a handler's `catch` are not modelled: "Failed to load dashboard", "Failed to update task", "Failed to delete task", "Failed to load task" and "Something went wrong". The one exception is the schema validation on `save()` when creating a task, which is modelled as `SaveFailed`.
- TaskStore.FindOne: a malformed task id makes Mongoose throw a cast error, which the handlers answer with their generic failure. The model's ids are numbers, so a malformed id cannot be expressed. Every non-matching id is simply "no match".
- Concurrency and interleaving of requests are not modelled. Each store call is one atomic function.
- Real time is not modelled: timestamps are the parameter `now`.
- bcrypt's cost factor and salt generation are not modelled. The digest is an abstract function and the salt a parameter.
- `models/User.js` is not part of this model. Usernames are matched exactly, and a failing `save()` of a new user ("Registration failed") is not modelled.
- Accounts.RegistrationError: the password length is counted in Unicode characters, not in the UTF-16 code units of JavaScript's `length`.
- TaskStore.BuildTask: the 200 and 1000 limits are counted in Unicode characters, not UTF-16 code units.
- TaskStore.EditStep: takes priority and status already parsed as enum values. The update path runs no schema validators, so an out-of-enum or missing value from the form, which Mongoose would store or drop, is not modelled.
- TaskStore.EditStep: the title and description of an edit are not checked against the 200 and 1000 limits, as in the code. The store invariant therefore leaves the lengths out.
- Dashboard.SortForDashboard: tasks equal in both priority and creation time are in no defined order in the store. The model keeps them in store order.
- The JSON body of the status route lists only some fields of the task. The model returns the whole task.
- Non-string request-body values (arrays, objects from form parsing) are not modelled. Form fields are optional strings.
- Session cookies, expiry and the session store (`index.js`) are not part of this model, and neither is the browser script `public/js/app.js`.
- The compound index of `models/Task.js` is not modelled. It affects speed only.
