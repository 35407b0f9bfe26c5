# projman4 in Dafny

This is a model of the core of projman4, a task, project and objective tracker written in TypeScript with React and Next.js. It covers the following:

- **Client stores.**
  - The local task store.
  - The three server-backed stores for projects, tasks and objectives. Each has a list, a loading flag and an error. The task and objective stores keep whatever JSON the server answered, so an error object can take the list's place.
- **Server routes.** The two collection routes, which list records and create them with defaults.
- **Shared vocabulary.** The status and priority vocabulary, with its labels and colours.
- **Add dialogs.** These keep a pending item, date fields and an open flag:
  - the generic table's dialog;
  - the card group's dialog;
  - the dashboard header's dialog.
- **Action popovers.** The row and card popovers, each keeping an edit draft.
- **Dashboard.**
  - The action sets and the stat figures.
  - The "in progress", "recent" and "high priority" lists.
  - The card/table view toggle.
- **Objectives table.** Its renderer, actions and add projection.

**How JavaScript objects are represented.** A JavaScript object is a `Values.Record`, a map from field names to `Values.Value`.
- A missing field reads as `Undefined`.
- `||`, truthiness, `String(v)` and `new Date(v).getTime()` are written out in `Values`.

**Imperative and pure parts.**
- State that React or zustand updates in place is a class. Its methods carry `modifies` clauses and state the whole new state:
  - stores;
  - dialog forms;
  - popovers;
  - the dashboard's view modes.
- Filters, sorts, projections, configuration arrays and the route payload are functions with lemmas.

**How an asynchronous store operation is modelled.** It is two steps:
- `Begin()`, the `set({isLoading: true, error: null})` before the request;
- `Complete...(outcome)`, what happens once the request has settled.

The network is not modelled. The outcome of a request is a parameter: `Responded(ok, body)` or `Thrown`. Likewise, the database's answer is a parameter of the routes. The clock, the UUID generator and date parsing are parameters too.

## Model

| member | source | states |
|---|---|---|
| Values.InputText | components/base/BaseTableSystem/BaseTable.tsx:195 | `String(r[key] \|\| '')`: the empty text for a falsy field, the string itself for a string field |
| Values.NumberOrZero | components/dashboard/DashboardObjectives/DashboardObjectives.tsx:25 | `x \|\| 0` on a numeric field: 0 for a falsy value, the number itself for a number |
| Values.TimeOf | components/dashboard/DashboardTasks/DashboardTasks.tsx:22 | `new Date(v).getTime()` keeps a Date's time and a number as they are, reads `null` as 0 and a boolean as 0 or 1 |
| Remote.Serialized | store/objectiveStore.ts:41 | `JSON.stringify` drops exactly the `undefined` fields, writes each Date as the ISO string of its time, and keeps every other value; reading a field that is not a Date gives what the original gives |
| EntityList.ReplaceById | store/projectStore.ts:65-68 | same length; every element with the id becomes the server's record, every other element is kept in place |
| EntityList.RemoveById | store/projectStore.ts:82-85 | no survivor has the id, every survivor was in the list, every element without the id survives |
| EntityList.Merged | app/store/taskStore.ts:27 | `{...task, ...updates, updatedAt}`: the update's fields win over the task's, every other field of the task is kept, and `updatedAt` is the clock's |
| EntityList.MergeById | app/store/taskStore.ts:25-29 | a matching task gets the update's fields over its own and `updatedAt` from the clock; other tasks are untouched; length kept |
| EntityList.ReplaceAbsentId | store/objectiveStore.ts:59-64 | replacing by an id that no element has leaves the list unchanged |
| EntityList.RemoveKeepsOrder | store/objectiveStore.ts:76-79 | deleting distributes over concatenation, so survivors keep their order |
| EntityList.RemoveAbsentId | store/taskStore.ts:76-79 | deleting an absent id is a no-op |
| EntityList.RemoveIdempotent | store/taskStore.ts:76-79 | deleting twice equals deleting once |
| EntityList.RemovePresentDistinct | store/projectStore.ts:82-85 | with distinct ids, deleting a present id shortens the list by exactly one |
| EntityList.AppendFreshKeepsDistinct | store/projectStore.ts:44-47 | appending or prepending a record with a fresh id keeps ids distinct |
| EntityList.RemoveKeepsDistinct | store/projectStore.ts:82-85 | deletion preserves distinct ids |
| LocalTaskStore.TaskStore.constructor | app/store/taskStore.ts:16 | the store starts with no tasks |
| LocalTaskStore.NewTask | app/store/taskStore.ts:18-23 | the new task has the given fields plus the UUID as id and the two clock readings as timestamps, and nothing else |
| LocalTaskStore.TaskStore.AddTask | app/store/taskStore.ts:17-24 | appends the new task, keeping the old list as a prefix |
| LocalTaskStore.TaskStore.UpdateTask | app/store/taskStore.ts:25-29 | the list becomes the merge by id |
| LocalTaskStore.TaskStore.DeleteTask | app/store/taskStore.ts:30-32 | the list becomes the removal by id |
| LocalTaskStore.AddFreshKeepsDistinct | app/store/taskStore.ts:17-24 | adding under a UUID that no task carries keeps ids distinct |
| LocalTaskStore.UpdatedAtAlwaysFromClock | app/store/taskStore.ts:27 | `updatedAt` is the clock's value even if the update carries its own |
| LocalTaskStore.UpdateAbsentId | app/store/taskStore.ts:25-29 | updating an absent id leaves the list unchanged |
| LocalTaskStore.UpdateKeepsIds | app/store/taskStore.ts:25-29 | an update without `id` keeps every id, and so keeps ids distinct |
| ProjectStore.ProjectStore.constructor | store/projectStore.ts:17-19 | no projects, not loading, no error |
| ProjectStore.ProjectStore.Begin | store/projectStore.ts:22 | loading, no error, list kept |
| ProjectStore.ProjectStore.CompleteFetch | store/projectStore.ts:23-31 | an ok response replaces the list; a non-ok response or a throw keeps it and sets 'Failed to fetch projects'; loading ends |
| ProjectStore.ProjectStore.CompleteAdd | store/projectStore.ts:36-52 | an ok response prepends the created project and asks for a re-fetch; otherwise the list is kept and 'Failed to add project' is set |
| ProjectStore.ProjectStore.CompleteUpdate | store/projectStore.ts:57-72 | an ok response replaces by id; otherwise the list is kept and 'Failed to update project' is set |
| ProjectStore.ProjectStore.CompleteDelete | store/projectStore.ts:77-89 | an ok response removes by id; otherwise the list is kept and 'Failed to delete project' is set |
| ProjectStore.AddProjectScenario | store/projectStore.ts:34-53 | a whole successful add puts the created project first, keeps the old list after it, clears the error and starts the re-fetch, which leaves the store loading |
| ProjectStore.FailedDeleteScenario | store/projectStore.ts:75-90 | a whole delete with a non-ok response keeps the list and reports the delete error |
| TaskStore.TaskStore.constructor | store/taskStore.ts:20-22 | an empty list, not loading, no error |
| TaskStore.TaskStore.Begin | store/taskStore.ts:25 | loading, no error, stored value kept |
| TaskStore.TaskStore.CompleteFetch | store/taskStore.ts:26-32 | any decoded body is stored as it came, a list or an error object, whatever the status; only a throw keeps the stored value and sets the fetch error |
| TaskStore.TaskStore.CompleteAdd | store/taskStore.ts:37-47 | a decoded response is appended to a stored list; a throw, or a stored object that cannot be spread, keeps the stored value and sets the add error |
| TaskStore.TaskStore.CompleteUpdate | store/taskStore.ts:52-67 | a decoded response replaces by id in a stored list; a throw, or a stored object without `map`, keeps the stored value and sets the update error |
| TaskStore.TaskStore.CompleteDelete | store/taskStore.ts:72-82 | any response removes by id from a stored list; a throw, or a stored object without `filter`, keeps the stored value and sets the delete error |
| TaskStore.DeleteDespiteServerError | store/taskStore.ts:70-83 | with a list stored, a delete that the server answers with an error status still removes the task and reports no error |
| ObjectiveStore.ObjectiveStore.constructor | store/objectiveStore.ts:20-22 | an empty list, not loading, no error |
| ObjectiveStore.ObjectiveStore.Begin | store/objectiveStore.ts:25 | loading, no error, stored value kept |
| ObjectiveStore.ObjectiveStore.CompleteFetch | store/objectiveStore.ts:26-32 | any decoded body is stored as it came, a list or an error object, whatever the status; only a throw keeps the stored value and sets 'Failed to fetch objectives' |
| ObjectiveStore.ObjectiveStore.CompleteAdd | store/objectiveStore.ts:37-47 | a decoded response is appended to a stored list; a throw, or a stored object that cannot be spread, keeps the stored value and sets the add error |
| ObjectiveStore.ObjectiveStore.CompleteUpdate | store/objectiveStore.ts:52-67 | a decoded response replaces by id in a stored list; a throw, or a stored object without `map`, keeps the stored value and sets the update error |
| ObjectiveStore.ObjectiveStore.CompleteDelete | store/objectiveStore.ts:72-82 | any response removes by id from a stored list; a throw, or a stored object without `filter`, keeps the stored value and sets the delete error |
| ObjectiveStore.DeleteDespiteServerError | store/objectiveStore.ts:70-83 | with a list stored, a delete that the server answers with an error status still removes the objective and reports no error |
| ObjectiveStore.FailedFetchBlocksEdits | store/objectiveStore.ts:24-47 | after the GET route fails, the store holds the route's `{error: 'Failed to fetch objectives', details}` object in place of the list and reports no error; the next add then fails with 'Failed to add objective' |
| ObjectiveTypes.StatusName | types/objectives.ts:4 | each status has one of the three stored names |
| ObjectiveTypes.IsValidStatus | types/objectives.ts:23-25 | true exactly for the names of the three statuses |
| ObjectiveTypes.IsValidPriority | types/objectives.ts:28-30 | true exactly for the names of the four priorities |
| ObjectiveTypes.FormatStatus | types/objectives.ts:33-40 | 'in_progress' reads 'In Progress'; any other status keeps its length, with the first character upper-cased and the rest unchanged |
| ObjectiveTypes.FormatPriority | types/objectives.ts:42-44 | same length; first character upper-cased, rest unchanged |
| ObjectiveTypes.PriorityColor | types/objectives.ts:47-58 | a colour exactly for the four priorities; `undefined` for anything else |
| ObjectiveTypes.PriorityColorTotalAndDistinct | types/objectives.ts:47-58 | a colour exists exactly for the four priorities, and different priorities get different colours |
| ObjectiveTypes.StatusColor | types/objectives.ts:60-69 | green exactly for 'completed', blue exactly for 'in_progress', gray otherwise |
| ObjectiveTypes.StatusColorCases | types/objectives.ts:60-69 | gray exactly for strings other than completed and in_progress, and those two differ |
| ObjectiveTypes.FormatStatusLabels | types/objectives.ts:33-40 | the labels 'Todo', 'Completed' and 'In Progress' |
| ObjectiveTypes.DefaultObjectiveIsValid | types/objectives.ts:72-79 | the `DEFAULT_OBJECTIVE` constant has a valid status ('todo') and priority ('medium'), progress 0 and a null due date |
| BaseTableSystem.FinalColumns | components/BaseTableSystem/BaseTable.tsx:25-34 | the given columns in order, followed by one 'actions' column with an empty header and its own cell |
| BaseTableSystem.FormatCellValue | components/BaseTableSystem/BaseTable.tsx:36-54 | 'actions' gives ''; a truthy custom rendering wins; otherwise a Date shows its locale date and anything else shows `String(value)` |
| BaseTableSystem.Row | components/BaseTableSystem/BaseTable.tsx:79-90 | one cell per final column |
| BaseTableSystem.RowShape | components/BaseTableSystem/BaseTable.tsx:25-54 | the last cell is the action popover; a column's own renderer wins; otherwise a truthy custom rendering is shown |
| DateFields.PatchField | components/base/BaseTableSystem/BaseTable.tsx:57-64 | disabling clears the value; a patch with a value sets it; otherwise the old value is kept; an absent flag keeps the flag |
| DateFields.UpdateDates | components/base/BaseTableSystem/BaseTable.tsx:56-65 | only the patched field changes |
| DateFields.MergeIntoItem | components/base/BaseTableSystem/BaseTable.tsx:67-76 | a patch with `enabled: true` writes `value \|\| null`; any other patch removes the key; other fields are kept |
| DateFields.DisableClears | components/base/BaseTableSystem/BaseTable.tsx:63 | disabling clears the value, and a later value-only patch leaves the field disabled |
| DateFields.PickedDateNotInItem | components/base/BaseTableSystem/BaseTable.tsx:56-76 | "enable, then pick a date" shows the date in the selector but leaves the pending item without the key |
| BaseTable.Normalize | components/base/BaseTableSystem/BaseTable.tsx:80-92 | the input unchanged or a valid status; a valid status is kept |
| BaseTable.Denormalize | components/base/BaseTableSystem/BaseTable.tsx:95-106 | the input unchanged or one of the three labels; a valid status gets its `formatStatus` label |
| BaseTable.NormalizeValid | components/base/BaseTableSystem/BaseTable.tsx:80-92 | normalising gives a valid status exactly for the accepted spellings (in any case) and for the stored names |
| BaseTable.NormalizeIdempotent | components/base/BaseTableSystem/BaseTable.tsx:80-92 | normalising twice equals normalising once |
| BaseTable.LabelRoundTrip | components/base/BaseTableSystem/BaseTable.tsx:80-106 | every stored status survives label-then-normalise; labels are fixed points; the label equals `formatStatus` |
| BaseTable.FormatCellValue | components/base/BaseTableSystem/BaseTable.tsx:119-135 | like the plain table, except that the status column shows the denormalised label |
| BaseTable.AddFieldColumns | components/base/BaseTableSystem/BaseTable.tsx:150-158 | exactly the column keys not on the skip list get an input |
| BaseTable.SubmittedItem | components/base/BaseTableSystem/BaseTable.tsx:140-143 | the pending item with the status set; every other field kept |
| BaseTable.SubmittedStatus | components/base/BaseTableSystem/BaseTable.tsx:142 | 'todo' for a falsy status, otherwise the normal form; always valid when the status comes from the select or is left at its default |
| BaseTable.FieldDisplay | components/base/BaseTableSystem/BaseTable.tsx:164-199 | the status select falls back to 'todo', the priority select to 'medium', and text inputs to '' |
| BaseTable.ShownStatusIsSubmitted | components/base/BaseTableSystem/BaseTable.tsx:142-168 | the status the dialog shows is the status it submits |
| BaseTable.ShownPriorityNotSubmitted | components/base/BaseTableSystem/BaseTable.tsx:140-181 | the priority select shows 'medium' for an item without a priority, yet no priority is submitted |
| BaseTable.AddForm.constructor | components/base/BaseTableSystem/BaseTable.tsx:47-53 | closed, pending item from `defaultNewItem \|\| {}`, three disabled date fields |
| BaseTable.AddForm.Open | components/base/BaseTableSystem/BaseTable.tsx:216-217 | opens, keeping the item and the dates |
| BaseTable.AddForm.SetField | components/base/BaseTableSystem/BaseTable.tsx:170-197 | writes the typed text to the key; nothing else changes |
| BaseTable.AddForm.UpdateDate | components/base/BaseTableSystem/BaseTable.tsx:56-77 | the dates are patched and the item is merged as described under DateFields |
| BaseTable.AddForm.AddNew | components/base/BaseTableSystem/BaseTable.tsx:137-148 | with a callback: submits the normalised item, resets the item, closes, and keeps the dates; without one nothing happens |
| BaseTable.AddForm.Dismiss | components/base/BaseTableSystem/BaseTable.tsx:249 | closing by `onOpenChange` keeps the item and the dates |
| BaseTable.AddForm.Cancel | components/base/BaseTableSystem/BaseTable.tsx:258-266 | closes and resets the item and the dates |
| CardControlGroup.AddFieldKeys | components/base/CardControlGroup/CardControlGroup.tsx:94-98 | an input exactly for the keys of `defaultNewItem` that are not system or date keys |
| CardControlGroup.CardGroupForm.constructor | components/base/CardControlGroup/CardControlGroup.tsx:56-66 | closed, item = default, dates from `dateFields` or the three disabled fields |
| CardControlGroup.CardGroupForm.Open | components/base/CardControlGroup/CardControlGroup.tsx:134-135 | opens, keeping the item and the dates |
| CardControlGroup.CardGroupForm.SetField | components/base/CardControlGroup/CardControlGroup.tsx:104-108 | writes the text, which the input then shows |
| CardControlGroup.CardGroupForm.UpdateDate | components/base/CardControlGroup/CardControlGroup.tsx:69-90 | patches the dates and merges the item |
| CardControlGroup.CardGroupForm.AddNew | components/base/CardControlGroup/CardControlGroup.tsx:115-127 | submits the pending item unchanged, resets it, closes, and resets the dates only when `dateFields` was given |
| CardControlGroup.CardGroupForm.Dismiss | components/base/CardControlGroup/CardControlGroup.tsx:151 | closing by `onOpenChange` keeps the item and the dates |
| CardControlGroup.CardGroupForm.Cancel | components/base/CardControlGroup/CardControlGroup.tsx:166-175 | closes and resets the item; resets the dates only when `dateFields` was given |
| CardControlGroup.TypeThenAdd | components/base/CardControlGroup/CardControlGroup.tsx:104-127 | typing a field and adding submits the default item with that field, then the dialog is closed and reset |
| DashboardHeader.StartForm | components/dashboard/DashboardLayout/DashboardHeader.tsx:108-118 | a task form is `{status:'todo'}`; a project or objective form also has priority 'medium' and progress 0 |
| DashboardHeader.FormDateValue | components/dashboard/DashboardLayout/DashboardHeader.tsx:41 | `null` unless the patch itself enables the field; otherwise a date or `null` |
| DashboardHeader.Header.constructor | components/dashboard/DashboardLayout/DashboardHeader.tsx:22-28 | no dialog open, an empty form, three disabled date fields |
| DashboardHeader.Header.Open | components/dashboard/DashboardLayout/DashboardHeader.tsx:108-118 | sets the kind and a fresh form; the dates are kept from earlier dialogs |
| DashboardHeader.Header.SetField | components/dashboard/DashboardLayout/DashboardHeader.tsx:69-88 | writes title, description or priority |
| DashboardHeader.Header.UpdateDate | components/dashboard/DashboardLayout/DashboardHeader.tsx:30-43 | patches the dates; writes the form's date key only while adding a project or objective |
| DashboardHeader.Header.Submit | components/dashboard/DashboardLayout/DashboardHeader.tsx:45-59 | calls the callback of the open kind with the form; only when it did not throw does the dialog close and the form clear |
| DashboardHeader.Header.Cancel | components/dashboard/DashboardLayout/DashboardHeader.tsx:121-132 | clears only the kind; form and dates are kept |
| DashboardHeader.PickedDateIsNullInForm | components/dashboard/DashboardLayout/DashboardHeader.tsx:30-43 | "enable, then pick a date" shows the date, but the form holds `null` |
| DashboardHeader.AddTaskScenario | components/dashboard/DashboardLayout/DashboardHeader.tsx:45-108 | adding a task sends `{status:'todo', title}`, then closes with an empty form |
| Popover.ButtonVariant | components/BaseTableSystem/BaseTableActionPopover.tsx:132 | the action's variant when given, otherwise "ghost" |
| Popover.FindModify | components/BaseTableSystem/BaseTableActionPopover.tsx:56 | the first index labelled 'Modify', or None exactly when there is none |
| Popover.EditableKeys | components/BaseTableSystem/BaseTableActionPopover.tsx:74-76 | every item key except id, createdAt and updatedAt |
| Popover.PlainDispatch | components/base/BaseCardSystem/BaseCardActionPopover.tsx:96-101 | 'Modify' opens the editor exactly when it is the label; any other action gets the item as it is |
| TableActionPopover.TableDispatch | components/BaseTableSystem/BaseTableActionPopover.tsx:134-143 | 'Modify' opens the editor; the two 'Mark' labels pass the item with that status; others pass the item |
| TableActionPopover.SavePayload | components/BaseTableSystem/BaseTableActionPopover.tsx:59-62 | the draft with a truthy status normalised and a falsy one `undefined`; every other field kept |
| TableActionPopover.SavedStatusValid | components/BaseTableSystem/BaseTableActionPopover.tsx:26-62 | a stored status or its display label is saved as the stored status |
| TableActionPopover.TablePopover.constructor | components/BaseTableSystem/BaseTableActionPopover.tsx:45-46 | closed, with the draft a copy of the item |
| TableActionPopover.TablePopover.Click | components/BaseTableSystem/BaseTableActionPopover.tsx:49-143 | opening snapshots the item into the draft (unless the dialog is already open); other actions are invoked with their payload |
| TableActionPopover.TablePopover.ItemChanged | components/BaseTableSystem/BaseTableActionPopover.tsx:49-53 | while open, the draft follows the item |
| TableActionPopover.TablePopover.Edit | components/BaseTableSystem/BaseTableActionPopover.tsx:86-109 | writes the typed value into the draft |
| TableActionPopover.TablePopover.Save | components/BaseTableSystem/BaseTableActionPopover.tsx:55-66 | the first 'Modify' action gets the normalised draft and the dialog closes; without one nothing happens |
| TableActionPopover.TablePopover.Cancel | components/BaseTableSystem/BaseTableActionPopover.tsx:68-71 | closes and resets the draft to the item |
| TableActionPopover.TablePopover.Dismiss | components/BaseTableSystem/BaseTableActionPopover.tsx:119 | closes and keeps the draft |
| TableActionPopover.EditStatusScenario | components/BaseTableSystem/BaseTableActionPopover.tsx:55-91 | open, choose 'in_progress', save: the Modify action gets the item with status 'in_progress' |
| CardActionPopover.ActiveIsNotAStatus | components/base/BaseCardSystem/BaseCardActionPopover.tsx:57-62 | the select's 'active' option is not a valid status, while 'completed' is |
| CardActionPopover.CardPopover.constructor | components/base/BaseCardSystem/BaseCardActionPopover.tsx:31-32 | closed, with the draft a copy of the item |
| CardActionPopover.CardPopover.Click | components/base/BaseCardSystem/BaseCardActionPopover.tsx:34-101 | opening snapshots the item; other actions get the item |
| CardActionPopover.CardPopover.ItemChanged | components/base/BaseCardSystem/BaseCardActionPopover.tsx:34-38 | while open, the draft follows the item |
| CardActionPopover.CardPopover.Edit | components/base/BaseCardSystem/BaseCardActionPopover.tsx:61-71 | writes the typed value into the draft |
| CardActionPopover.CardPopover.Save | components/base/BaseCardSystem/BaseCardActionPopover.tsx:40-46 | the first 'Modify' action gets the draft unchanged |
| CardActionPopover.CardPopover.Cancel | components/base/BaseCardSystem/BaseCardActionPopover.tsx:118 | closes only; the draft is kept |
| CardActionPopover.CancelledEditsDiscarded | components/base/BaseCardSystem/BaseCardActionPopover.tsx:34-118 | edits abandoned by Cancel are gone on the next opening |
| DataTableActionPopover.InProgressOptionNotAStatus | components/base/DataTableControlGroup/DataTableActionPopover.tsx:50-59 | the select's 'in-progress' option is not a valid status and is sent as is, although normalising would map it to 'in_progress' |
| DataTableActionPopover.DataTablePopover.constructor | components/base/DataTableControlGroup/DataTableActionPopover.tsx:30-31 | closed, with the draft a copy of the item it was created with |
| DataTableActionPopover.DataTablePopover.Click | components/base/DataTableControlGroup/DataTableActionPopover.tsx:90-96 | 'Modify' opens the dialog without touching the draft; other actions get the item |
| DataTableActionPopover.DataTablePopover.ItemChanged | components/base/DataTableControlGroup/DataTableActionPopover.tsx:31 | the draft never follows the item |
| DataTableActionPopover.DataTablePopover.Edit | components/base/DataTableControlGroup/DataTableActionPopover.tsx:54-65 | writes the typed value into the draft |
| DataTableActionPopover.DataTablePopover.Save | components/base/DataTableControlGroup/DataTableActionPopover.tsx:33-39 | the first 'Modify' action gets the draft unchanged |
| DataTableActionPopover.DataTablePopover.Cancel | components/base/DataTableControlGroup/DataTableActionPopover.tsx:112 | closes; the draft is kept |
| DataTableActionPopover.StaleDraftScenario | components/base/DataTableControlGroup/DataTableActionPopover.tsx:31-39 | after the row's item changes, saving without edits sends the item the popover was created with |
| ActionConfigs.Actions | components/dashboard/shared/actionConfigs.tsx:13-100 | tasks: Mark In Progress, Mark Complete, Delete; projects and objectives: Mark In Progress, Update Progress, Delete; only Delete is destructive |
| ActionConfigs.NextProgress | components/dashboard/shared/actionConfigs.tsx:55-87 | at most 100; +10 up to 90, then 100 |
| ActionConfigs.Run | components/dashboard/shared/actionConfigs.tsx:16-96 | the whole item with the new status or progress, or a delete by id; then a re-fetch, unless the awaited call threw |
| ActionConfigs.UpdatesKeepOtherFields | components/dashboard/shared/actionConfigs.tsx:17-88 | every update keeps the item's other fields |
| ActionConfigs.PressedReaches100 | components/dashboard/shared/actionConfigs.tsx:55-57 | k presses from p give `min(p + 10k, 100)` |
| ActionConfigs.ProgressStaysInRange | components/dashboard/shared/actionConfigs.tsx:55-87 | progress within 0..100 stays within it and never decreases |
| StatsConfig.StatFor | components/dashboard/shared/statsConfig.tsx:13-33 | total is the length; active is the count not completed, never above the total |
| StatsConfig.DashboardStats | components/dashboard/shared/statsConfig.tsx:12-34 | three entries: Tasks, Projects, Objectives, in that order |
| StatsConfig.ActivePlusCompleted | components/dashboard/shared/statsConfig.tsx:16-30 | active plus completed is the total |
| StatsConfig.AppendItem | components/dashboard/shared/statsConfig.tsx:15-16 | a new item raises the total, and raises the active count exactly when it is not completed |
| DashboardStats.CeilDiv | components/dashboard/DashboardStats/DashboardStats.tsx:45 | `Math.ceil(a/b)`: the least r with `a <= b*r` |
| DashboardStats.RoundHalfUp | components/dashboard/DashboardStats/DashboardStats.tsx:33 | `Math.round(s/n)`: within half of s/n, with halves going up |
| DashboardStats.MeanProgress | components/dashboard/DashboardStats/DashboardStats.tsx:32-34 | 0 for no objectives, otherwise the half-up rounded mean progress |
| DashboardStats.Figures | components/dashboard/DashboardStats/DashboardStats.tsx:15-52 | the four figures with their counts: completed tasks, active and high-priority projects, mean progress and achieved objectives, items due soon |
| DashboardStats.DueSoon | components/dashboard/DashboardStats/DashboardStats.tsx:41-47 | only an item with a due date later than now can be due soon |
| DashboardStats.DueSoonWindow | components/dashboard/DashboardStats/DashboardStats.tsx:41-47 | an item with a due date is due soon exactly when that date is after now and at most 7 days ahead |
| DashboardStats.SumProgress | components/dashboard/DashboardStats/DashboardStats.tsx:33 | with every progress in 0..100, the sum lies within 0..100 per objective |
| DashboardStats.RoundBetween | components/dashboard/DashboardStats/DashboardStats.tsx:33 | rounding a mean keeps it between the per-item bounds |
| DashboardStats.MeanProgressInRange | components/dashboard/DashboardStats/DashboardStats.tsx:32-34 | with every progress in 0..100, the figure is in 0..100 |
| DashboardStats.MeanOfEqualProgress | components/dashboard/DashboardStats/DashboardStats.tsx:32-34 | objectives that all have progress p show p |
| ListOps.Filter | components/dashboard/DashboardTasks/DashboardTasks.tsx:21 | no longer than the input; exactly the input's elements that pass the predicate appear |
| ListOps.Take | components/dashboard/DashboardProjects/DashboardProjects.tsx:27 | the first min(n, length) elements, in order |
| ListOps.SortDesc | components/dashboard/DashboardTasks/DashboardTasks.tsx:22 | a permutation of the input in non-increasing key order |
| ListOps.TopBy | components/dashboard/DashboardTasks/DashboardTasks.tsx:20-23 | filter, sort descending, keep n: min(n, count) passing elements, sorted, with no element more often than the filtered input has it |
| ListOps.TopByHoldsLargest | components/dashboard/DashboardObjectives/DashboardObjectives.tsx:23-26 | a passing element left out has a key no larger than any element kept |
| DashboardObjectives.Shown | components/dashboard/DashboardObjectives/DashboardObjectives.tsx:23-26 | min(3, number in progress) objectives, all in progress and taken from the store no more often than it holds them, in non-increasing progress |
| DashboardObjectives.ShownAreTheMostAdvanced | components/dashboard/DashboardObjectives/DashboardObjectives.tsx:23-26 | an in-progress objective left out has no more progress than any shown one |
| DashboardObjectives.UpdateProgress | components/dashboard/DashboardObjectives/DashboardObjectives.tsx:15-18 | sends only `{progress}`, clamped as in the action configs |
| DashboardTasks.Recent | components/dashboard/DashboardTasks/DashboardTasks.tsx:20-23 | min(6, number open) tasks, none completed, taken from the store no more often than it holds them, newest update first |
| DashboardTasks.RecentAreTheNewest | components/dashboard/DashboardTasks/DashboardTasks.tsx:20-23 | an open task left out was updated no later than any task shown |
| DashboardTasks.MarkComplete | components/dashboard/DashboardTasks/DashboardTasks.tsx:15 | a status-only patch 'completed' for the task's id |
| DashboardTasks.CompletedTaskLeavesRecent | components/dashboard/DashboardTasks/DashboardTasks.tsx:15-23 | once the store holds the completed task, no task with that id is listed |
| DashboardProjects.Shown | components/dashboard/DashboardProjects/DashboardProjects.tsx:25-27 | the first min(3, count) high or critical projects, in store order |
| DashboardProjects.FewAreAllShown | components/dashboard/DashboardProjects/DashboardProjects.tsx:25-27 | with at most three high-priority projects, all are shown |
| DashboardProjects.StatusAction | components/dashboard/DashboardProjects/DashboardProjects.tsx:12-23 | status-only patches 'in_progress' and 'completed' for the project's id |
| IntegratedDashboard.Toggled | components/dashboard/IntegratedDashboard/IntegratedDashboard.tsx:111-114 | the toggled section's mode flips; the other two are unchanged |
| IntegratedDashboard.ToggleLaws | components/dashboard/IntegratedDashboard/IntegratedDashboard.tsx:111-114 | toggling twice restores the modes; toggles of different sections commute |
| IntegratedDashboard.PropName | components/dashboard/IntegratedDashboard/IntegratedDashboard.tsx:136 | the title lower-cased without its last character |
| IntegratedDashboard.SectionPropNames | components/dashboard/IntegratedDashboard/IntegratedDashboard.tsx:136-188 | the sections' card props are 'project', 'objective' and 'task' |
| IntegratedDashboard.RenderSection | components/dashboard/IntegratedDashboard/IntegratedDashboard.tsx:118-146 | the table exactly in table mode; otherwise one card per item, with the section's actions |
| IntegratedDashboard.Dashboard.constructor | components/dashboard/IntegratedDashboard/IntegratedDashboard.tsx:74-78 | all three sections start as cards |
| IntegratedDashboard.Dashboard.Toggle | components/dashboard/IntegratedDashboard/IntegratedDashboard.tsx:111-114 | the modes become the toggled modes |
| IntegratedDashboard.ToggleProjectsScenario | components/dashboard/IntegratedDashboard/IntegratedDashboard.tsx:74-114 | from the start, toggling projects shows only the projects table |
| ObjectiveTable.StatusClass | components/ObjectiveTable/ObjectiveTable.tsx:42-46 | green exactly for 'completed', blue exactly for 'in_progress', gray otherwise |
| ObjectiveTable.PriorityClass | components/ObjectiveTable/ObjectiveTable.tsx:54-58 | red, orange and yellow exactly for critical, high and medium; green for anything else |
| ObjectiveTable.StatusText | components/ObjectiveTable/ObjectiveTable.tsx:47-48 | 'In Progress' for 'in_progress'; otherwise the status with its first character upper-cased |
| ObjectiveTable.RenderCustomCell | components/ObjectiveTable/ObjectiveTable.tsx:39-78 | null exactly for keys other than status, priority and progress, and for a falsy due date; otherwise a span, a bar or a locale date |
| ObjectiveTable.CellStylesAgreeWithTypes | components/ObjectiveTable/ObjectiveTable.tsx:42-60 | the inline classes and labels equal `getStatusColor`, `formatStatus`, `formatPriority` and, on the four priorities, `getPriorityColor` |
| ObjectiveTable.RowOfObjective | components/ObjectiveTable/ObjectiveTable.tsx:8-78 | over the table's seven `columns`: eight cells; the status shows its label; a set due date shows the locale date; a null due date shows the text "null"; the popover comes last |
| ObjectiveTable.ActionCall | components/ObjectiveTable/ObjectiveTable.tsx:80-101 | Modify sends the whole objective; the Mark actions send status-only patches; Delete sends the id |
| ObjectiveTable.ActionsThroughPopover | components/ObjectiveTable/ObjectiveTable.tsx:80-101 | through the row popover, the Mark buttons send a valid status for the row's id and Save sends the normalised draft |
| ObjectiveTable.ProjectForAdd | components/ObjectiveTable/ObjectiveTable.tsx:103-112 | exactly the six fields, read as they are |
| ObjectiveTable.AddNewAsWritten | components/BaseTableSystem/BaseTable.tsx:60-65 | a click event projects to six `undefined` fields, the body sent is `{}`, and the create data the route builds from it carries no title |
| ObjectiveTable.DefaultItemProjectsToDefault | components/ObjectiveTable/ObjectiveTable.tsx:103-121 | the table's default item, submitted untouched, projects to `DEFAULT_OBJECTIVE` |
| ObjectiveTable.DefaultObjectiveKeptByRoute | app/api/objectives/route.ts:29-38 | `DEFAULT_OBJECTIVE` survives `JSON.stringify`, and the route's defaults leave it as it is |
| ObjectiveTable.AddThroughDialog | components/ObjectiveTable/ObjectiveTable.tsx:114-121 | through the add dialog, an untouched default item is sent as `DEFAULT_OBJECTIVE`, and the create data the route builds is exactly that |
| ApiRoutes.CreateData | app/api/objectives/route.ts:29-38 | exactly six fields; title and description as given; falsy status, priority and progress default to 'todo', 'medium' and 0; a falsy due date becomes null, otherwise a date |
| ApiRoutes.CreateDataIdempotent | app/api/projects/route.ts:19-26 | applying the defaults twice equals applying them once |
| ApiRoutes.CreateFromEmptyBody | app/api/objectives/route.ts:29-38 | an empty body gets every default and no title |
| ApiRoutes.Details | app/api/objectives/route.ts:44 | the thrown error's message, or 'An unknown error occurred' when it carries none |
| ApiRoutes.ObjectiveError | app/api/objectives/route.ts:15-19 | `{error, details}`, with the message or 'An unknown error occurred' |
| ApiRoutes.GetObjectives | app/api/objectives/route.ts:5-21 | the database's answer to `findMany` ordered by `createdAt` descending: 200 with that list, or 500 `{error: 'Failed to fetch objectives', details}` with the database's message |
| ApiRoutes.GetProjects | app/api/projects/route.ts:4-13 | the same query: 200 with the list, or 500 `{error: 'Failed to fetch projects'}` without details |
| ApiRoutes.GetListsNewestFirst | app/api/objectives/route.ts:8-12 | when the database honours the ordering, both GET routes answer with the same list, newest `createdAt` first |
| ApiRoutes.Fields | app/api/objectives/route.ts:31-36 | the fields `json.title`, ... read: an object's own fields, none from a string, number, boolean or array, and a throw for `null` |
| ApiRoutes.ReadError | app/api/objectives/route.ts:26-31 | the error thrown before `create`: the parse error's message for an undecodable body, the TypeError's for `null`, none otherwise |
| ApiRoutes.PostObjective | app/api/objectives/route.ts:23-50 | an undecodable or `null` body gives 500 'Failed to create objective' with the thrown error's message as details; any other body reaches `create` with the defaulted data, whose record gives 200 and whose failure gives 500 with its message |
| ApiRoutes.PostProject | app/api/projects/route.ts:15-32 | the same routing as for objectives; every failure gives 500 `{error: 'Failed to create project'}` |
| ApiRoutes.NonObjectBodyIsEmptyObject | app/api/projects/route.ts:17-26 | a body that parses to a string, number, boolean or array is answered by both routes exactly as `{}` is |
| ApiRoutes.PostStatus | app/api/objectives/route.ts:23-50 | both POST routes answer 200 exactly when the body parses to a non-null value and `create` succeeds, and otherwise 500 with an error field; for an undecodable body the objectives route's details are the parse error's message |

## Left out

- **Network, persistence and UI frameworks.** HTTP, `fetch` URLs and headers, zustand's `create`/`get`, and the Prisma client are not modelled. What a request or query yields is a parameter. The model cannot say whether Prisma accepts a record without a title.
- **Async interleaving.** Each store operation is one atomic transition applied on completion. Un-awaited re-fetches, races between concurrent calls, and `Promise.all` on mount are not modelled.
- **Logging.** Console logging is left out.
- **Clock, UUIDs and date formatting.**
  - `new Date()` and `crypto.randomUUID()` are parameters.
  - `toLocaleDateString` is a `LocaleDate(time)` node.
  - Date-string parsing is a `parse` parameter.
  - `String(date)` is rendered as the time value.
  - The ISO string `JSON.stringify` writes for a Date is an `iso` parameter.
- **Floating point.** Progress, the mean and the due-date difference are integers. NaN and fractional progress are not modelled, and a truthy non-numeric progress is read as 0.
- **Case mapping.** `toLowerCase`/`toUpperCase` are mapped on ASCII letters only.
- **JSX and styling.**
  - Rendering, Tailwind classes, and the Dialog, Popover and Select widgets are not modelled. Only state and the data handed to callbacks are.
  - Cell contents are `BaseTableSystem.Node` values.
  - React's own handling of rendered values is not modelled.
- **Effects and closures.**
  - React effect scheduling and object identity are not modelled. The popover effects are folded into `Click` and `ItemChanged`.
  - The stale `newItem` closure read at components/base/BaseTableSystem/BaseTable.tsx:74 and components/base/CardControlGroup/CardControlGroup.tsx:87 is modelled as the current item.
- **Duplicate status normaliser.** The `normalizeStatus` of components/BaseTableSystem/BaseTableActionPopover.tsx:26-39 has the same cases as the one in components/base/BaseTableSystem/BaseTable.tsx. The model uses `BaseTable.Normalize` for both.
- **Unused dashboard props.** IntegratedDashboard passes `viewModes` and `onToggleView` to a DashboardHeader that declares neither, so no control of the header triggers `IntegratedDashboard.Dashboard.Toggle`. The toggle is modelled as the callback the dashboard defines. Likewise IntegratedDashboard passes `stats` and `isLoading` to a DashboardStats that takes no props (components/dashboard/IntegratedDashboard/IntegratedDashboard.tsx:152-155 against components/dashboard/DashboardStats/DashboardStats.tsx:10). So the figures of `createDashboardStats`, modelled as `StatsConfig.DashboardStats`, are never displayed; the figures shown are the ones `DashboardStats.Figures` computes from the stores.
- **A stored error object on the dashboard.** `StatsConfig.DashboardStats`, `DashboardStats.Figures`, `DashboardTasks.Recent`, `DashboardObjectives.Shown` and `IntegratedDashboard.RenderSection` take the stores' lists. They are modelled for a stored list only. When a failed fetch has left an error object in the task or objective store (`ObjectiveStore.FailedFetchBlocksEdits`), the source throws during render. It throws at `.filter` in components/dashboard/shared/statsConfig.tsx:16, components/dashboard/DashboardStats/DashboardStats.tsx:20, components/dashboard/DashboardTasks/DashboardTasks.tsx:21 and components/dashboard/DashboardObjectives/DashboardObjectives.tsx:24. It throws at `.map` in components/dashboard/IntegratedDashboard/IntegratedDashboard.tsx:133 and components/BaseTableSystem/BaseTable.tsx:79. That render failure is not modelled.
- **Loading flag and header dialog.** The combined loading flag and the header's dialog title are plain expressions, and are not stated separately.
- DashboardStats.Figures: the due-soon count uses an integer ceiling of an integer millisecond difference, where the source uses the clock and a floating-point `Math.ceil`.
- ListOps.SortDesc: the model is an insertion sort into non-increasing key order. Its stability is not proved, so the order among equal keys is not stated.
- ObjectiveTable.RenderCustomCell: a status or priority that is not a string makes the source throw at `charAt`. The model formats its `String(...)` form instead.
- ApiRoutes.ReadError: the TypeError message for a `null` body is the text Node.js gives for reading `title`; other JavaScript engines word it differently. Errors the database raises are taken to be `Error` objects, so their details are their messages.

## Findings

| source | as written | input that shows it | evidently intended | confidence | as-written member | corrected member |
|---|---|---|---|---|---|---|
| components/BaseTableSystem/BaseTable.tsx:60-65 with components/ObjectiveTable/ObjectiveTable.tsx:103-112 | The plain table's 'Add New' button is `onClick={addNewItem}`, so the objectives table's add callback receives the click event. There is no add dialog, and `defaultNewItem` is never read. | A click on 'Add New' in the objectives table. The event has none of title, description, status, priority, progress or dueDate, so the request body is `{}`. The create data the route builds from it carries no title and every default. Whether the database accepts that data is not modelled. | Open an add dialog seeded with `defaultNewItem`, as the table in components/base/BaseTableSystem/BaseTable.tsx does. Submitting it untouched then sends the default objective. | high that the body is empty; not executed | ObjectiveTable.AddNewAsWritten | ObjectiveTable.AddThroughDialog |

