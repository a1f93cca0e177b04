# Production tracker — verified model of the in-memory core

This project models, in Dafny, the logic of a React production-tracking application for a video studio. The modelled core covers:

- the users and projects held at the application root;
- the login, registration and team handlers;
- the project page (comments, time logs, deliverable versions, status changes, grouping by module);
- the project create/edit form with its deliverable builder;
- the derived views: dashboard filters and counts, the critical alert, the hours chart and colour, the Kanban columns, the hours report;
- the quick time-log dialog, the team and settings forms;
- the record/row conversions of the storage layer.

One Dafny module corresponds to each source file:

| module | source |
|---|---|
| `Types` | `types.ts`: users, projects, deliverables, versions, comments, time logs. Optional fields are `Option`. Hours are exact reals. Dates are opaque strings. |
| `App` | `App.tsx`: class `AppState` with the fields `users`, `projects`, `currentUser`, `authError`, `view` and `selectedProject`, and one method per handler. |
| `ProjectDetails` | `components/ProjectDetails.tsx`: the handlers that build the updated project (`None` is the early return). `GroupDeliverables` fills a map in a loop. Class `DetailsForm` holds the page's input fields. |
| `ProjectForm` | `components/ProjectForm.tsx`: class `ProjectFormState` (form values, module names, builder rows) with one method per handler. `Submission` is the project assembled on submit. |
| `Dashboard` | `components/Dashboard.tsx`: pure derived views. |
| `Reports` | `components/Reports.tsx`: flattening, filtering, the stable newest-first sort and the total. Class `ReportFilters` holds the four filter fields. |
| `QuickTimeLog` | `components/QuickTimeLogModal.tsx`: available projects, the opening reset and the submit. Class `QuickLogForm` holds the fields. |
| `Team` | `components/Team.tsx`: member search, the add form, and who sees which action. |
| `Settings` | `components/Settings.tsx`: the password-confirmation check and the form fields. |
| `Api` | `services/api.ts`: the project row ↔ `Project` mapping and the password-free profile rows. |
| `Seqs`, `Text` | `Array.prototype.filter`, and the string operations the code relies on (`trim`, `toLowerCase`, `includes`, string `<=`, `split('T')[0]`, `replace(' ', '+')`). |

Fresh ids, the current time, today's date and the answer of a confirmation dialog are parameters. The invariant the application means to keep, `hoursUsed` equal to the sum of a project's time-log hours, is `Types.HoursConsistent`. Every handler that touches projects is shown to preserve it. The report total under cleared filters is shown to equal the sum of `hoursUsed` whenever it holds.

Behaviour of the code worth noting:

- The critical test is `hoursUsed / hoursBudgeted > 0.9` with a status other than finished. It does not look at the deadline, so paused and cancelled projects can be critical.
- The status filter has no 'critical' value.
- The dashboard counts active projects, critical projects and the total. It counts no finished projects and sums no hours.
- The chart shows the first ten filtered projects, unsorted, with names cut at ten characters.
- A log whose author is not a known user is reported with the role 'Desconhecido'.
- Time logs and versions are put at the front of their lists. Comments go at the end.

## Model

| member | source | states |
|---|---|---|
| App.FindCredentials | App.tsx:76 | Finds a user iff some user has exactly that email and stored password. The result is the first such user. |
| App.LoginFindsAccount | App.tsx:75-86 | When emails are unique, an account's own email and password always select that account. |
| App.AppState.constructor | App.tsx:18-41 | The saved users, projects and signed-in user are restored. The dashboard shows iff a user was saved, otherwise the login screen. No error, no selection. |
| App.AppState.HandleLogin | App.tsx:75-86 | On a match: the first matching user is signed in, the error is cleared and the view is the dashboard. Otherwise: the current user and view are kept and the error message is set. Lists are untouched. |
| App.AppState.HandleRegister | App.tsx:88-108 | A taken email changes nothing. Otherwise exactly one new user is appended at the end and becomes the current user, and the view is the dashboard. Email uniqueness is preserved. |
| App.AppState.HandleLogout | App.tsx:110-117 | Clears the user, the selection and the error, and shows the login screen. The lists are kept. |
| App.AppState.HandleAddUser | App.tsx:121-136 | A taken email changes nothing. Otherwise one user with the given role and password '123' is appended. The signed-in user is unchanged and email uniqueness is preserved. |
| App.RemoveUsersById | App.tsx:140 | Removes exactly the users with that id. The others are kept in order, as a subsequence. |
| App.FilterKeepsUnique | App.tsx:140 | Removing users keeps emails and ids unique. |
| App.AppState.HandleDeleteUser | App.tsx:138-144 | Without confirmation nothing changes. With it, only `users` changes (every project, including its editor ids, is untouched), and uniqueness is kept. |
| App.ProfileEdit | App.tsx:151-156 | Sets the name and regenerates the avatar. The password changes only when a non-empty one is supplied. Id, email and role are kept. |
| App.ReplaceUsersById | App.tsx:158 | Entries with the id become the new record. All others are unchanged, and the length is unchanged. |
| App.ProfileEditKeepsUnique | App.tsx:148-161 | Replacing the signed-in user's stored record changes no id and, when that record is the stored one, no email. |
| App.AppState.HandleUpdateProfile | App.tsx:148-161 | Without a signed-in user nothing changes. Otherwise only the entry with the user's id is replaced, and the current user equals the new entry. Unique ids and emails are kept. |
| App.AppState.HandleSelectProject | App.tsx:165-168 | Selects the project and shows its page. Nothing else changes. |
| App.AppState.HandleBackToDashboard | App.tsx:170-173 | Clears the selection and shows the dashboard. |
| App.AppState.HandleNewProjectClick | App.tsx:176-179 | Clears the selection (new-project mode) and shows the form. |
| App.AppState.HandleEditProjectClick | App.tsx:182-185 | Selects the project and shows the form. |
| App.AppState.Navigate | App.tsx:227-285 | The login/register links and the team/settings menu buttons switch only the view, to the screen they name. Users, projects, the signed-in user, the selection and the error are kept. |
| App.ReplaceProjectsById | App.tsx:190 | Same length and ids. Entries with the id become the update; the others are unchanged. Hours consistency is preserved. |
| App.AppState.HandleUpdateProject | App.tsx:189-195 | Projects are replaced by id. The selection is refreshed iff it had that id. Consistency is kept. |
| App.RemoveProjectsById | App.tsx:199 | Exactly the projects with that id go. The rest are kept in order, and consistency is kept. |
| App.AppState.HandleDeleteProject | App.tsx:197-204 | Without confirmation nothing changes. With it, the project is removed, the selection is cleared and the dashboard shows. |
| App.AppState.HandleSaveForm | App.tsx:206-217 | A known id: update as above, then the project page shows. A new id: the project is put first (length + 1) and the dashboard shows. |
| ProjectDetails.InitialSelection | components/ProjectDetails.tsx:42-46 | With no selection and some deliverables, selects the first deliverable. Otherwise keeps the selection. |
| ProjectDetails.DetailsForm.SelectInitialDeliverable | components/ProjectDetails.tsx:42-46 | The selection field becomes the initial selection. |
| ProjectDetails.AddComment | components/ProjectDetails.tsx:52-66 | No save iff the text is blank after trimming. Otherwise exactly one comment with the user's id and name is appended at the end, and nothing else changes. |
| ProjectDetails.DetailsForm.SubmitComment | components/ProjectDetails.tsx:52-66 | Saves what `AddComment` gives. The field is cleared only when something was saved. |
| ProjectDetails.WithTimeLog | components/ProjectDetails.tsx:79-83 | `hoursUsed` grows by the log's hours and the log becomes `timeLogs[0]`, with the old logs after it. Nothing else changes. Consistency is preserved. |
| ProjectDetails.AddTime | components/ProjectDetails.tsx:68-86 | No save iff hours ≤ 0. Otherwise a log of today with the user's id and name is recorded as in `WithTimeLog`. |
| ProjectDetails.DetailsForm.SubmitTime | components/ProjectDetails.tsx:68-86 | Saves what `AddTime` gives. Both fields are reset only after a save. |
| ProjectDetails.WithVersion | components/ProjectDetails.tsx:103-109 | The version goes first in the history. A Final version sets the deliverable to finished; V1, V2 and V3 keep its status. |
| ProjectDetails.AddVersion | components/ProjectDetails.tsx:88-119 | No save iff the link is empty or no deliverable is selected. Otherwise only deliverables with the selected id change, as in `WithVersion`. Count, order, the other deliverables and the project's own fields are kept. |
| ProjectDetails.DetailsForm.SubmitVersion | components/ProjectDetails.tsx:88-119 | Saves what `AddVersion` gives. Link and notes are cleared after a save and the version type is kept. |
| ProjectDetails.ChangeStatus | components/ProjectDetails.tsx:121-123 | Only the status field changes. |
| ProjectDetails.PageUpdatesKeepHours | components/ProjectDetails.tsx:52-123 | Every update the page makes keeps `hoursUsed` equal to the sum of the logs. |
| ProjectDetails.BucketsPartition | components/ProjectDetails.tsx:130-135 | Each deliverable is listed under its group (or 'Geral') and under no other key. A bucket is a subsequence of the list. |
| ProjectDetails.BucketAppend | components/ProjectDetails.tsx:132-133 | Pushing a deliverable extends exactly its own bucket. |
| ProjectDetails.BucketEmpty | components/ProjectDetails.tsx:133 | A key no deliverable uses has an empty bucket. |
| ProjectDetails.GroupDeliverables | components/ProjectDetails.tsx:130-135 | A key is present iff some deliverable uses it. Each bucket holds exactly the deliverables with that key, in list order. |
| ProjectDetails.GroupAsWrittenSpec | components/ProjectDetails.tsx:130-135 | The grouping as written, into a plain `{}`, throws iff some deliverable's module is a name that `Object.prototype` provides (the standard methods, `__proto__` and the four legacy accessor helpers). Otherwise it gives the same buckets as `GroupDeliverables`. |
| ProjectDetails.InheritedModuleNameThrows | components/ProjectDetails.tsx:131-133 | One lesson in a module named 'constructor' makes the grouping as written throw, while the intended grouping lists it under that module. |
| ProjectForm.ProjectFormState.constructor | components/ProjectForm.tsx:26-48 | Blank form values (today's start date, 'Simples', in progress, 'Média'), modules ['Módulo 1'], no rows. |
| ProjectForm.DateInput | components/ProjectForm.tsx:53-54 | The edit copy of a date contains no 'T' and is a prefix of the stored value. A date already in day form is shown unchanged. |
| ProjectForm.EditableCopy | components/ProjectForm.tsx:51-60 | Only the dates change: they are cut to their day part, and an absent V2 deadline shows as ''. |
| ProjectForm.NonEmptyGroups | components/ProjectForm.tsx:65 | Exactly the set, non-empty group values of the rows. |
| ProjectForm.Dedup | components/ProjectForm.tsx:65 | No duplicates, and the same values as the input. |
| ProjectForm.DedupPrefix | components/ProjectForm.tsx:65 | First-occurrence order: deduplicating a prefix gives a prefix of the result. |
| ProjectForm.ProjectFormState.LoadProject | components/ProjectForm.tsx:49-72 | Editing: the form is the editable copy and the rows are the project's deliverables. For a course with groups, the modules are its distinct groups; otherwise the modules are kept. New: one main-video row 'd-init'. |
| ProjectForm.ProjectFormState.SetName | components/ProjectForm.tsx:206 | The name input changes the name and nothing else. |
| ProjectForm.ProjectFormState.SetClient | components/ProjectForm.tsx:216 | The client input changes the client and nothing else. |
| ProjectForm.ProjectFormState.SetProjectType | components/ProjectForm.tsx:227 | The type select changes the project type and nothing else. |
| ProjectForm.ProjectFormState.SetPriority | components/ProjectForm.tsx:249 | The priority select changes the priority and nothing else. |
| ProjectForm.ProjectFormState.SetDescription | components/ProjectForm.tsx:265 | The description changes and nothing else. |
| ProjectForm.ProjectFormState.SetHoursBudgeted | components/ProjectForm.tsx:390 | The budget changes and nothing else. |
| ProjectForm.ProjectFormState.SetStartDate | components/ProjectForm.tsx:422 | The start date changes and nothing else. |
| ProjectForm.ProjectFormState.SetV1Deadline | components/ProjectForm.tsx:432-435 | Only the V1 version deadline changes. The project deadline, V2 and the final deadline are kept. |
| ProjectForm.ProjectFormState.SetFinalDeadline | components/ProjectForm.tsx:445-449 | Both the project deadline and the final version deadline become the typed date, so they agree afterwards. Every other field, V1 and V2 included, is kept. |
| ProjectForm.ProjectFormState.ChangeStructure | components/ProjectForm.tsx:75-85 | 'Simples' gives one ungrouped row titled by the name or 'Vídeo Principal'. 'Campanha' clears a single row with no group. 'Curso' clears a single row with an absent or empty group. Otherwise the rows are kept. |
| ProjectForm.ProjectFormState.AddDeliverable | components/ProjectForm.tsx:87-96 | One untitled, in-progress row without versions is appended in the given group. |
| ProjectForm.Retitle | components/ProjectForm.tsx:98-100 | Only the titles of rows with that id change. |
| ProjectForm.ProjectFormState.UpdateDeliverableTitle | components/ProjectForm.tsx:98-100 | The rows become `Retitle` of the old rows. |
| ProjectForm.ProjectFormState.RemoveDeliverable | components/ProjectForm.tsx:102-104 | Exactly the rows with that id go; the others are kept. |
| ProjectForm.ProjectFormState.AddModule | components/ProjectForm.tsx:106-108 | Appends 'Módulo n+1', where n is the current count. |
| ProjectForm.Regroup | components/ProjectForm.tsx:116 | Exactly the rows whose group was the old name move to the new name. |
| ProjectForm.RegroupBack | components/ProjectForm.tsx:110-117 | Renaming back restores the rows when the new name was unused. |
| ProjectForm.ProjectFormState.UpdateModuleName | components/ProjectForm.tsx:110-117 | Same count. Only entry i changes, and the rows follow the rename. |
| ProjectForm.ProjectFormState.RemoveModule | components/ProjectForm.tsx:119-124 | Entry i goes, together with every row whose group is its name. The other rows are kept in order. |
| ProjectForm.Toggle | components/ProjectForm.tsx:171-178 | The user is in the result iff they were not before. Other ids are unchanged. Removal drops every occurrence; otherwise the id is appended at the end. |
| ProjectForm.ToggleTwice | components/ProjectForm.tsx:171-178 | Toggling an unassigned editor twice restores the list. |
| ProjectForm.ProjectFormState.ToggleEditor | components/ProjectForm.tsx:171-178 | Only `editorIds` changes, as in `Toggle`. |
| ProjectForm.Submission | components/ProjectForm.tsx:126-169 | Rejected iff the structure is not 'Simples' and there are no rows. Otherwise every row keeps its place and gets a non-empty title ('Sem título' by default). An edited project keeps its id, and hours, comments, logs, editors and status are carried over. |
| ProjectForm.ProjectFormState.Submit | components/ProjectForm.tsx:126-169 | Hands over the `Submission` of the current state. |
| ProjectForm.ResubmitIsStable | components/ProjectForm.tsx:136-160 | Submission is idempotent: given its own result under the same edit target, it returns that result unchanged. |
| ProjectForm.UneditedSaveKeepsProject | components/ProjectForm.tsx:49-60 | Opening a saved project for editing and submitting with no change returns the saved project. This needs the dates in day form, V2 absent or set, every deliverable titled and the deliverables check passed. |
| ProjectForm.NewProjectStartsEmpty | components/ProjectForm.tsx:26-48 | A new project is saved with a fresh id, no hours, comments or logs, and consistent hours. |
| Dashboard.FilteredProjectsSpec | components/Dashboard.tsx:37-55 | The filter chain is one order-preserving filter by role scope, then search (skipped for an empty term), then status. The result is a subsequence of the input. |
| Dashboard.EmptySearchKeepsAll | components/Dashboard.tsx:42-48 | An empty term matches every project. |
| Dashboard.ComputeStats | components/Dashboard.tsx:58-64 | The total is the filtered count. Active is the number of filtered projects 'Em andamento' and critical the number passing the critical test. Each count plus the number of filtered projects failing its test is the total. |
| Dashboard.CriticalWithBudget | components/Dashboard.tsx:61 | With a positive budget: critical iff used exceeds 90% of the budget and the status is not finished. |
| Dashboard.CriticalExamples | components/Dashboard.tsx:61 | At 9.5 of 10 hours an in-progress, paused or cancelled project is critical. A finished one is not. |
| Dashboard.ChartName | components/Dashboard.tsx:68 | Names over ten characters become their first ten plus '...'. Shorter names are kept. |
| Dashboard.ChartData | components/Dashboard.tsx:67-71 | At most ten entries, entry i coming from filtered project i. |
| Dashboard.PercentageThreshold | components/Dashboard.tsx:25-27 | The percentage reaches 100·t iff the hours reach t times the budget. |
| Dashboard.HoursColorBands | components/Dashboard.tsx:24-29 | With a positive budget: rose at ≥ 100% of the budget, amber from 80% up to 100%, emerald below 80%. |
| Dashboard.KanbanPartition | components/Dashboard.tsx:209-228 | Each filtered project is in exactly the column of its status. Cancelled ones are in none. The column sizes plus the cancelled count equal the total. |
| Reports.FindUser | components/Reports.tsx:26 | The first user with the log's user id, if any. |
| Reports.UserRole | components/Reports.tsx:26-31 | The first matching user's role, or 'Desconhecido' when no user matches. |
| Reports.ProjectLogs | components/Reports.tsx:25-33 | Each of a project's logs, in order, carrying the project's id and name. |
| Reports.AllLogsSpec | components/Reports.tsx:23-35 | The length is the total number of logs. Every entry carries its parent project. Every log of every project appears. |
| Reports.InsertByDate | components/Reports.tsx:48 | Insertion keeps newest-first order and adds exactly one entry. |
| Reports.SortNewestFirst | components/Reports.tsx:48 | The result is ordered newest first and is a permutation of the input. |
| Reports.FilteredLogsSpec | components/Reports.tsx:38-49 | Only entries meeting all four criteria, and all of them, newest first. The result is a sub-multiset of the flattened logs. |
| Reports.TotalHoursAppend | components/Reports.tsx:52 | The total of a concatenation is the sum of the totals. |
| Reports.TotalHoursInsert | components/Reports.tsx:52 | Inserting a log adds exactly its hours. |
| Reports.TotalHoursSorted | components/Reports.tsx:48-52 | Sorting does not change the total. |
| Reports.ProjectLogsHours | components/Reports.tsx:25-33 | A project's enriched logs total the sum of its log hours. |
| Reports.AllLogsHours | components/Reports.tsx:23-35 | The flattened logs total the hours of every project's logs. |
| Reports.ConsistentHoursUsed | components/Reports.tsx:23-35 | When every project is consistent, the logged hours equal the sum of `hoursUsed`. |
| Reports.ClearedTotal | components/Reports.tsx:52-63 | With the filters cleared, the total is every hour ever logged. When every project is consistent, this is the sum of `hoursUsed`. |
| Reports.ReportFilters.constructor | components/Reports.tsx:17-20 | The filters start cleared. |
| Reports.ReportFilters.Clear | components/Reports.tsx:58-63 | Project and user become 'all' and both dates become ''. |
| QuickTimeLog.AvailableProjects | components/QuickTimeLogModal.tsx:29-31 | Exactly the in-progress projects, restricted for a non-admin to those they edit, in order. |
| QuickTimeLog.OpeningSelection | components/QuickTimeLogModal.tsx:35-41 | The preselected id if given, else the only available project, else ''. |
| QuickTimeLog.QuickLogForm.constructor | components/QuickTimeLogModal.tsx:22-26 | Empty fields, today's date, not submitting. |
| QuickTimeLog.QuickLogForm.Open | components/QuickTimeLogModal.tsx:33-47 | Selection as above. Hours and description are cleared, the date is today and not submitting. |
| QuickTimeLog.FindProject | components/QuickTimeLogModal.tsx:57 | The first project with the selected id, if any. |
| QuickTimeLog.QuickLog | components/QuickTimeLogModal.tsx:51-81 | Saves iff a project is selected, the hours are non-empty and non-zero (the sign is not checked), the description is non-empty, and a project has that id. The saved project's hours grow by exactly the hours, and the handed-over log is `timeLogs[0]`. Nothing else changes. |
| QuickTimeLog.QuickLogForm.Submit | components/QuickTimeLogModal.tsx:51-81 | Hands over `QuickLog`. Marks the dialog busy whenever the guard passes, even with no matching project. |
| QuickTimeLog.SameAsProjectPage | components/QuickTimeLogModal.tsx:59-72 | For positive hours the dialog saves exactly what the project page saves. |
| Team.FilteredUsers | components/Team.tsx:23-26 | The members whose lower-cased name or email contains the lower-cased term, in order. |
| Team.EmptySearchKeepsEveryone | components/Team.tsx:23-26 | An empty term keeps every member. |
| Team.RemoveButtons | components/Team.tsx:151-153 | The listed members with a remove button: none when the viewer is not an admin; for an admin, every listed member except the viewer's own card, in list order. |
| Team.DeleteKeepsViewer | components/Team.tsx:151 | Removing an offered member never removes the viewer. |
| Team.TeamForm.constructor | components/Team.tsx:13-19 | The form starts closed and empty, with role 'editor'. |
| Team.TeamForm.OpenForm | components/Team.tsx:49 | The add button opens the form. |
| Team.TeamForm.Submit | components/Team.tsx:28-37 | A request is made iff name and email are both non-empty. Then the form resets to empty fields and role 'editor' and closes. Otherwise nothing changes. |
| Settings.ProfileUpdate | components/Settings.tsx:15-24 | Refused iff a non-empty password differs from the confirmation. An empty password sends no password. A matching one sends it, with the typed name. |
| Settings.UpdateEffect | components/Settings.tsx:21 | Applied to the profile, the password changes only when a matching one was typed. Id, email and role never change. |
| Settings.SettingsForm.constructor | components/Settings.tsx:11-13 | The name starts as the user's and both password fields start empty. |
| Settings.SettingsForm.Submit | components/Settings.tsx:15-24 | Hands over `ProfileUpdate`. Both password fields are empty after an accepted submit and untouched after a refusal. |
| Api.StringOr | services/api.ts:84-85 | A null or empty column falls back. |
| Api.HoursOr | services/api.ts:89-90 | A null column gives 0. |
| Api.ListOr | services/api.ts:91-94 | A null list column gives the empty list. Any stored list is kept. |
| Api.FromRow | services/api.ts:74-95 | Each field comes from its column. Missing or empty dates become the current time, missing version deadlines become `{v1:'', final:''}`, and missing hours and lists become 0 and empty. |
| Api.ToRow | services/api.ts:100-121 | Each compound field goes to exactly one snake_case column, and nothing is null. |
| Api.RoundTrip | services/api.ts:74-121 | Saving and reading back gives the same project when both dates are non-empty. Otherwise only the empty dates change, to the time of reading. |
| Api.ReadIsStable | services/api.ts:74-121 | A project read once survives any further save/read cycle unchanged. |
| Api.ToProfileRow | services/api.ts:44-50 | The profile row carries every user field but the password. |
| Api.StripPassword | services/api.ts:53-59 | The profile update carries every field of the patch but the password. |
| Api.PasswordNeverWritten | services/api.ts:45-59 | Rows and updates do not depend on the password. |
| Text.BlankIffAllWhitespace | components/ProjectDetails.tsx:53 | `trim()` is empty iff every character is whitespace. |
| Text.ContainsIffOccurs | components/Dashboard.tsx:45-46 | `includes` holds iff the term occurs at some position. |
| Text.LexLeTransitive | components/Reports.tsx:44-45 | String `<=` is transitive. |
| Text.DatePart | components/ProjectForm.tsx:53 | `split('T')[0]` is the prefix before the first 'T'. |
| Text.ReplaceFirst | App.tsx:101 | `replace(' ', '+')` changes only the first occurrence. |
| Seqs.FilterIsSubseq | components/Dashboard.tsx:40 | A filter returns a subsequence of its input. |
| Seqs.FilterFilter | components/Dashboard.tsx:38-52 | Two filters in a row equal one filter by the conjunction. |
| Seqs.FilterSubMultiset | components/Reports.tsx:39 | A filter returns a sub-multiset of its input. |
| Types.SumHoursAppend | components/ProjectDetails.tsx:79-83 | The hours of concatenated logs add up. |

## Findings

| source | as written | input that shows it | evidently intended | confidence | as-written member | corrected member |
|---|---|---|---|---|---|---|
| components/ProjectDetails.tsx:130-135 | Deliverables are grouped into a plain object `{}`. For a group name that the object inherits from `Object.prototype` (e.g. 'constructor', 'toString', '__proto__'), `!acc[group]` is false, so no array is created and `acc[group].push` throws a TypeError while the page renders (modelled by `GroupAsWritten`, characterised by `GroupAsWrittenSpec`). | A course whose module was renamed to 'constructor' in the form (components/ProjectForm.tsx:110-117 accepts any name), with one lesson in it. | Every deliverable listed under its module, whatever the module is called. | not executed; high that the code throws, medium that such names occur | ProjectDetails.InheritedModuleNameThrows | ProjectDetails.GroupDeliverables |

## Left out

- Rendering, CSS classes, icons, the chart drawing, toasts and their timers, the dialog's delayed close, `alert` and `print`: presentation only.
- Browser storage and JSON parsing (App.tsx:18-61): the saved values are constructor parameters.
- The backend queries, authentication and their asynchronous error paths (services/api.ts): only the pure row mappings are modelled. Columns other than those with `||` defaults are assumed present. The cast of status, priority and structure strings is taken as well-typed.
- Id generation (`Date.now`, `Math.random`, `crypto.randomUUID`) and the clock: fresh ids, `now` and `today` are parameters.
- `new Date(x).toISOString()` on submit and the date formatting for display: dates are passed through unchanged. The edit form's `split('T')[0]` is modelled.
- Dashboard.ChartName: the cut at ten characters counts Unicode characters. JavaScript's `length` and `substring` count UTF-16 code units, so names with characters outside the Basic Multilingual Plane (emoji, say) are cut at a different place.
- Unicode `toLowerCase` and `trim`: the model lower-cases ASCII letters only and trims ASCII whitespace and the no-break space.
- Floating-point rounding: hours are exact reals. The display percentages with `Math.round`/`Math.min` are left out. JavaScript's division by a zero budget is written out: +Infinity when hours were used, NaN when none were.
- The order of keys in the grouped-deliverables object: the model returns a map.
- Team.FilteredUsers and Dashboard.FilteredProjectsSpec: the search and status inputs themselves are parameters, not fields.
- ProjectForm.ProjectFormState.UpdateModuleName and ProjectForm.ProjectFormState.RemoveModule: they require an existing index, which is all the form ever passes. An out-of-range index in JavaScript would grow or leave the array, and that is not modelled.
- ProjectForm.ProjectFormState.SetHoursBudgeted: the `Number(...)` conversion of the typed text (empty text gives 0, other text may give NaN) is left out. The number is the parameter.
- Builder rows (`Partial<Deliverable>`) are full deliverables: every code path creates them with a status and a versions list, so only the title default of submit is observable.
- Reports.SortNewestFirst: stability (ties keep the flattened order) is how it is built but is not stated as a property. Dates that do not parse are not modelled.
- The handlers of the project page and the quick dialog are modelled as functions returning the project handed to the root (`None` when they return early). The field resets around them are the methods of the small form classes.
