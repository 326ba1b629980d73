# FlowUp reminder lifecycle, in Dafny

FlowUp is an Android to-do app. A user adds *activities*. Each activity has a title, a description, a due date, a category and a priority. It may also carry a reminder some whole days before it is due. This project models the part of the app that keeps activities and reminders in step:

- **The `activities` table** behind `ActivityDao`: rows keyed by an auto-generated primary key. Insert uses REPLACE on conflict. There are update, delete, lookup by id, and listings ordered by due date (`activity_dao.dfy`, `activity_entity.dfy`).
- **Reminder scheduling** (`NotificationManager.scheduleReminder` / `cancelReminder`) over WorkManager's unique one-shot work named `reminder_<id>`. It includes the worker `ReminderWorker.doWork`, which posts the notification (`notifications.dfy`).
- **The five view models** that drive the lifecycle:
  - add (`add_activity.dfy`) and edit (`edit_activity.dfy`), which share form validation (`activity_form.dfy`);
  - the home list with its toggle and delete actions (`home.dfy`);
  - the completed list with its own toggle and delete (`completed.dfy`).
- **A global invariant** (`lifecycle.dfy`): every pending reminder belongs to a stored, still-pending activity whose id it carries. The model proves which actions preserve it and which break it.
- **The supporting pure code**:
  - the DataStore preference keys, defaults, readers and setters (`preferences.dfy`);
  - the theme choice made in `MainActivity` (`theme.dfy`);
  - the card's labels, reminder chip and visible controls (`activity_card.dfy`);
  - the navigation routes (`nav_routes.dfy`);
  - the Kotlin string operations they rely on: `trim`, `isBlank`, `uppercase`, `Long.toString` and null interpolation (`kotlin_text.dfy`).

**How the app maps onto the model:**

- **The world.** A `World` is the table together with the reminder queue.
- **Queue keys.** The queue is a map from activity id to pending work. Work names are unique per id (`Notifications.WorkNameInjective`), so keying by id is keying by name.
- **Time.** `System.currentTimeMillis()` becomes a parameter `now`.
- **Failures.** Whether a Room call returns or throws is a parameter `Outcome`. An exception's message may be null, and Kotlin's `"${e.message}"` then renders `null`.
- **Permission.** The worker's notification permission check becomes a boolean parameter.
- **Atomic steps.** Each `viewModelScope.launch` block is treated as one atomic step.
- **Flows.** Each `Flow` emission is modelled as one call.

The code keeps no generation counter, no separate reminder table and no per-id lock, and neither does the model.

## Model

| member | source | states |
|---|---|---|
| ActivityEntity.NewActivity | app/src/main/java/com/app/flowup/data/local/ActivityEntity.kt:7-28 | A new entity has id 0, which asks for a generated key, and is not completed. The other fields are as given. |
| ActivityEntity.EnumsComplete | app/src/main/java/com/app/flowup/data/local/ActivityEntity.kt:30-36 | There are exactly five categories and three priorities, each listed once, and distinct constants have distinct names. |
| ActivityDao.InsertedId | app/src/main/java/com/app/flowup/data/local/ActivityEntity.kt:8-9 | In a valid table, an entity with id 0 is stored under a fresh key that is neither in use nor 0. Any other id is kept. |
| ActivityDao.Insert | app/src/main/java/com/app/flowup/data/local/ActivityDao.kt:20-21 | REPLACE insert: the row ends up under its generated or given key with that key as its id. No other row changes. Table validity is preserved. |
| ActivityDao.Update | app/src/main/java/com/app/flowup/data/local/ActivityDao.kt:24-25 | `@Update` overwrites the row with the entity's key. A missing key changes nothing. The set of keys never changes, no other row does, and the AUTOINCREMENT counter is kept. |
| ActivityDao.Delete | app/src/main/java/com/app/flowup/data/local/ActivityDao.kt:28-29 | `@Delete` removes the row with the entity's key and leaves all other rows. The AUTOINCREMENT counter is kept, so a deleted id is never handed out again. |
| ActivityDao.DeletedIdNeverReused | app/src/main/java/com/app/flowup/data/local/ActivityEntity.kt:8-9 | After a delete, the next generated id is not the deleted one, and the table holds the old keys minus the deleted one plus the new one. |
| ActivityDao.GetById | app/src/main/java/com/app/flowup/data/local/ActivityDao.kt:32-33 | `getActivityById` returns a row exactly when the key is stored, and the row carries that id. Otherwise it returns null. |
| ActivityDao.InsertByDueDate | app/src/main/java/com/app/flowup/data/local/ActivityDao.kt:16 | Placing a row into a listing adds exactly that row: the result is the old listing plus the row, as a multiset. |
| ActivityDao.InsertByDueDateSorted | app/src/main/java/com/app/flowup/data/local/ActivityDao.kt:16 | Placing a row into a listing ordered by due date keeps it ordered. |
| ActivityDao.InsertByDueDateDistinct | app/src/main/java/com/app/flowup/data/local/ActivityDao.kt:16 | Placing a row whose id is not yet listed keeps every id listed once. |
| ActivityDao.QueryRows | app/src/main/java/com/app/flowup/data/local/ActivityDao.kt:16-17 | A `SELECT ... ORDER BY dueDate ASC` returns exactly the stored rows that match the filter, each once, ordered by due date. |
| ActivityDao.PendingActivities | app/src/main/java/com/app/flowup/data/local/ActivityDao.kt:16-17 | `getPendingActivities` returns exactly the stored rows with `isCompleted = 0`, each once, ordered by due date. |
| ActivityDao.CompletedActivities | app/src/main/java/com/app/flowup/ui/screens/completed/CompletedActivitiesViewModel.kt:32 | The completed listing returns exactly the stored completed rows, each once, ordered by due date. |
| ActivityDao.AllActivities | app/src/main/java/com/app/flowup/ui/screens/home/HomeViewModel.kt:46-51 | The listing the home screen needs returns every stored row once, ordered by due date. |
| KotlinText.Trim | app/src/main/java/com/app/flowup/ui/screens/addactivity/AddActivityViewModel.kt:77-78 | `trim()` returns a contiguous slice of the input. The removed ends are all whitespace, and the result neither starts nor ends with whitespace. |
| KotlinText.BlankIffTrimEmpty | app/src/main/java/com/app/flowup/ui/screens/addactivity/AddActivityViewModel.kt:61-78 | `isBlank()` holds exactly when trimming leaves nothing. |
| KotlinText.TrimIdempotent | app/src/main/java/com/app/flowup/ui/screens/editactivity/EditActivityViewModel.kt:125-126 | Trimming an already trimmed string changes nothing. |
| KotlinText.Uppercase | app/src/main/java/com/app/flowup/ui/components/ActivityCard.kt:203 | `uppercase()` works character by character and never shortens a string; sharp s and the Latin ligatures expand to several letters. |
| KotlinText.UppercaseKeepsCapitals | app/src/main/java/com/app/flowup/ui/components/ActivityCard.kt:203-208 | A string of capital letters, such as an enum name, is its own upper case. |
| KotlinText.UppercaseIdempotent | app/src/main/java/com/app/flowup/ui/components/ActivityCard.kt:228 | Upper-casing twice is upper-casing once. |
| KotlinText.Decimal | app/src/main/java/com/app/flowup/navigation/NavRoutes.kt:23 | `Long.toString()` is non-empty and has no space or brace. It starts with a digit exactly when the number is non-negative. |
| KotlinText.DecimalRoundTrip | app/src/main/java/com/app/flowup/notifications/NotificationManager.kt:111 | Parsing the rendered decimal gives the number back. |
| KotlinText.DecimalInjective | app/src/main/java/com/app/flowup/notifications/NotificationManager.kt:120 | Two numbers render alike exactly when they are equal. |
| KotlinText.Interpolate | app/src/main/java/com/app/flowup/ui/screens/addactivity/AddActivityViewModel.kt:95 | `"${x}"` over a nullable string gives the string, or `null` when there is none. |
| Notifications.FireTime | app/src/main/java/com/app/flowup/notifications/NotificationManager.kt:94 | The reminder fires exactly `daysNotice` days of 86,400,000 ms before the due date. |
| Notifications.FireTimeMonotone | app/src/main/java/com/app/flowup/notifications/NotificationManager.kt:94 | More days of notice give an earlier fire time, earlier by whole days. |
| Notifications.InitialDelay | app/src/main/java/com/app/flowup/notifications/NotificationManager.kt:97-102 | A fire time at or before now is skipped. Otherwise the delay is positive and lands exactly on the fire time. |
| Notifications.WorkNameInjective | app/src/main/java/com/app/flowup/notifications/NotificationManager.kt:110-120 | Two activities share a unique work name `reminder_<id>` only when their ids are equal. |
| Notifications.ReminderMessage | app/src/main/java/com/app/flowup/notifications/NotificationManager.kt:106 | The message is never empty. It is the description unless the description is empty. |
| Notifications.ReminderInput | app/src/main/java/com/app/flowup/notifications/NotificationManager.kt:103-107 | The work payload carries the activity's id, its title and the reminder message. |
| Notifications.ScheduleReminder | app/src/main/java/com/app/flowup/notifications/NotificationManager.kt:93-115 | A past fire time leaves the queue unchanged. Otherwise exactly the entry for the activity's id is set, with that fire time and payload, and every other entry is kept. |
| Notifications.CancelReminder | app/src/main/java/com/app/flowup/notifications/NotificationManager.kt:119-121 | Cancelling removes the id's entry and keeps all others. |
| Notifications.CancelIdempotent | app/src/main/java/com/app/flowup/notifications/NotificationManager.kt:119-121 | Cancelling twice equals cancelling once. Cancelling an absent id is a no-op. |
| Notifications.ScheduleTwiceKeepsLatest | app/src/main/java/com/app/flowup/notifications/NotificationManager.kt:110-114 | REPLACE policy: when the later request is armed, it alone survives. When the later request is already past, it is skipped and the earlier request stays. |
| Notifications.CancelAfterSchedule | app/src/main/java/com/app/flowup/notifications/NotificationManager.kt:110-121 | Cancel after schedule, for the same id, undoes the schedule for that id. |
| Notifications.ToInt32 | app/src/main/java/com/app/flowup/notifications/NotificationManager.kt:187 | `Long.toInt()` yields a 32-bit value congruent to the input modulo 2^32. It is the identity on values that fit. |
| Notifications.DoWork | app/src/main/java/com/app/flowup/notifications/NotificationManager.kt:145-193 | A missing title, or an id that is missing or equal to -1, fails without posting. Otherwise the run succeeds and posts exactly when permitted. The post has the title "Recordatorio: <title>", the message ("" if missing) and the id truncated to Int. |
| Notifications.RunDue | app/src/main/java/com/app/flowup/notifications/NotificationManager.kt:99-102 | Work runs exactly when it is pending and its fire time has been reached. Running consumes the entry and runs the worker once. Otherwise nothing changes. |
| Notifications.ScheduledReminderDelivers | app/src/main/java/com/app/flowup/notifications/NotificationManager.kt:93-192 | A reminder armed for an activity with a non-sentinel id, run at or after its fire time, succeeds. It posts exactly the expected notification when permitted and nothing otherwise. |
| Notifications.CancelledNeverFires | app/src/main/java/com/app/flowup/notifications/NotificationManager.kt:119-121 | After cancelling, the worker never runs for that id. |
| ActivityForm.Validate | app/src/main/java/com/app/flowup/ui/screens/addactivity/AddActivityViewModel.kt:60-69 | The form is accepted exactly when the title is not blank and a due date is set. A blank title is reported first, then a missing date. |
| ActivityForm.FormEntity | app/src/main/java/com/app/flowup/ui/screens/addactivity/AddActivityViewModel.kt:76-83 | The saved entity has the title and description trimmed, the other fields copied, and is not completed. |
| ActivityForm.SavedEntityIsWellFormed | app/src/main/java/com/app/flowup/ui/screens/addactivity/AddActivityViewModel.kt:60-78 | An accepted form is stored with a non-blank title. Its stored description is empty exactly when the typed one was blank, which is when the reminder falls back to the default message. |
| AddActivity.OnTitleChange | app/src/main/java/com/app/flowup/ui/screens/addactivity/AddActivityViewModel.kt:29-31 | Sets the title and leaves every other field alone. |
| AddActivity.OnDescriptionChange | app/src/main/java/com/app/flowup/ui/screens/addactivity/AddActivityViewModel.kt:33-35 | Sets the description and leaves every other field alone. |
| AddActivity.OnDueDateChange | app/src/main/java/com/app/flowup/ui/screens/addactivity/AddActivityViewModel.kt:37-39 | Sets the due date and leaves every other field alone. |
| AddActivity.OnCategoryChange | app/src/main/java/com/app/flowup/ui/screens/addactivity/AddActivityViewModel.kt:41-43 | Sets the category and leaves every other field alone. |
| AddActivity.OnPriorityChange | app/src/main/java/com/app/flowup/ui/screens/addactivity/AddActivityViewModel.kt:45-47 | Sets the priority and leaves every other field alone. |
| AddActivity.OnReminderDaysChange | app/src/main/java/com/app/flowup/ui/screens/addactivity/AddActivityViewModel.kt:49-51 | Sets the reminder days, possibly to null, and leaves every other field alone. |
| AddActivity.ClearError | app/src/main/java/com/app/flowup/ui/screens/addactivity/AddActivityViewModel.kt:103-105 | Drops the error message and nothing else. |
| AddActivity.DraftEntity | app/src/main/java/com/app/flowup/ui/screens/addactivity/AddActivityViewModel.kt:76-83 | The entity built from the form still has the default id 0 and is pending. |
| AddActivity.SavedWorld | app/src/main/java/com/app/flowup/ui/screens/addactivity/AddActivityViewModel.kt:84-89 | After a successful insert the form's row is in the table. When a reminder is wanted and its fire time is still in the future, the entry under the given key is exactly that fire time with the form's row, carrying the key as its id. When none is wanted, or its fire time is already past, the queue is unchanged. |
| AddActivity.SaveActivity | app/src/main/java/com/app/flowup/ui/screens/addactivity/AddActivityViewModel.kt:56-101 | As written: a rejected form sets only the error. A throwing insert sets "Error al guardar: …" and changes nothing stored. On success the row is inserted and the form is marked saved. A wanted reminder whose fire time is still in the future is armed under id 0: its fire time, with the form's row with id 0 as payload. A wanted reminder whose fire time is already past leaves the queue unchanged. |
| AddActivity.SaveActivityFixed | app/src/main/java/com/app/flowup/ui/screens/addactivity/AddActivityViewModel.kt:76-89 | Corrected: the screen state is the same as as written. A reminder still in the future is armed under the id the insert generated: its fire time, with the stored row as payload. A reminder already past leaves the queue unchanged. |
| AddActivity.UntouchedFormIsRejected | app/src/main/java/com/app/flowup/ui/screens/addactivity/AddActivityUiState.kt:16-26 | A fresh form is rejected for its title. With only a title filled in, it is rejected for its date, and nothing is stored. |
| EditActivity.RouteActivityId | app/src/main/java/com/app/flowup/ui/screens/editactivity/EditActivityViewModel.kt:27 | The id comes from the route argument, or is 0 when the argument is absent. |
| EditActivity.LoadActivity | app/src/main/java/com/app/flowup/ui/screens/editactivity/EditActivityViewModel.kt:38-75 | A found row's six editable fields are copied into the form. A missing row gives "No se encontró la actividad". A throwing lookup gives "Error al cargar: …". Loading always ends, and no other field changes. |
| EditActivity.OnTitleChange | app/src/main/java/com/app/flowup/ui/screens/editactivity/EditActivityViewModel.kt:77-79 | Sets the title and leaves every other field alone. |
| EditActivity.OnDescriptionChange | app/src/main/java/com/app/flowup/ui/screens/editactivity/EditActivityViewModel.kt:81-83 | Sets the description and leaves every other field alone. |
| EditActivity.OnDueDateChange | app/src/main/java/com/app/flowup/ui/screens/editactivity/EditActivityViewModel.kt:85-87 | Sets the due date and leaves every other field alone. |
| EditActivity.OnCategoryChange | app/src/main/java/com/app/flowup/ui/screens/editactivity/EditActivityViewModel.kt:89-91 | Sets the category and leaves every other field alone. |
| EditActivity.OnPriorityChange | app/src/main/java/com/app/flowup/ui/screens/editactivity/EditActivityViewModel.kt:93-95 | Sets the priority and leaves every other field alone. |
| EditActivity.OnReminderDaysChange | app/src/main/java/com/app/flowup/ui/screens/editactivity/EditActivityViewModel.kt:97-99 | Sets the reminder days and leaves every other field alone. |
| EditActivity.ClearError | app/src/main/java/com/app/flowup/ui/screens/editactivity/EditActivityViewModel.kt:154-156 | Drops the error message and nothing else. |
| EditActivity.UpdatedEntity | app/src/main/java/com/app/flowup/ui/screens/editactivity/EditActivityViewModel.kt:123-132 | The written record has the route's id and is always pending. |
| EditActivity.RescheduledWork | app/src/main/java/com/app/flowup/ui/screens/editactivity/EditActivityViewModel.kt:136-140 | The old reminder is always cancelled. A new one is armed only when wanted and still in the future. Other activities' reminders are untouched. |
| EditActivity.UpdateActivity | app/src/main/java/com/app/flowup/ui/screens/editactivity/EditActivityViewModel.kt:103-152 | A rejected form sets only the error. A throwing update sets "Error al actualizar: …" and changes nothing stored. On success the row is overwritten, the reminder is rescheduled, and the form is marked saved. |
| EditActivity.SavingWithoutReminderClearsIt | app/src/main/java/com/app/flowup/ui/screens/editactivity/EditActivityViewModel.kt:136-140 | Saving a form with no reminder, or with zero or fewer days, leaves no reminder pending for the activity. |
| EditActivity.UpdateWithSameRow | app/src/main/java/com/app/flowup/data/local/ActivityDao.kt:24-25 | Updating a row with itself leaves the table unchanged. |
| EditActivity.LoadedFormRebuildsRow | app/src/main/java/com/app/flowup/ui/screens/editactivity/EditActivityViewModel.kt:45-57 | A loaded pending row whose texts are already trimmed is rebuilt exactly by the untouched form. |
| EditActivity.SavingStoredRowKeepsTable | app/src/main/java/com/app/flowup/ui/screens/editactivity/EditActivityViewModel.kt:123-134 | Saving a form that rebuilds the stored row leaves the table unchanged. |
| EditActivity.LoadedFormIsValid | app/src/main/java/com/app/flowup/ui/screens/editactivity/EditActivityViewModel.kt:107-116 | A loaded row with a non-blank title passes validation. |
| EditActivity.LoadThenSaveIsIdentity | app/src/main/java/com/app/flowup/ui/screens/editactivity/EditActivityViewModel.kt:38-152 | Loading a stored pending activity and saving the untouched form writes back the same table. |
| HomeScreen.WithStatus | app/src/main/java/com/app/flowup/ui/screens/home/HomeViewModel.kt:59-61 | `filter` keeps exactly the activities with the wanted status, in their original order. |
| HomeScreen.PartitionIsPermutation | app/src/main/java/com/app/flowup/ui/screens/home/HomeViewModel.kt:59-61 | The pending and completed filters together are a permutation of the input: nothing is lost or duplicated. |
| HomeScreen.HomeState | app/src/main/java/com/app/flowup/ui/screens/home/HomeViewModel.kt:58-74 | The state is `Empty` exactly when both sections would be empty. Otherwise it is `Success`, holding the pending activities and, only when the preference is on, the completed ones. Both keep the input's order. |
| HomeScreen.SectionsAreDisjoint | app/src/main/java/com/app/flowup/ui/screens/home/HomeViewModel.kt:59-64 | No activity appears in both sections. |
| HomeScreen.LoadError | app/src/main/java/com/app/flowup/ui/screens/home/HomeViewModel.kt:52-57 | A failing load shows the exception's message, or "Error desconocido al cargar actividades" when it has none. |
| HomeScreen.PendingInputHidesCompleted | app/src/main/java/com/app/flowup/ui/screens/home/HomeViewModel.kt:47-64 | Fed only pending rows, the completed section is empty whatever the preference says. |
| HomeScreen.LoadActivities | app/src/main/java/com/app/flowup/ui/screens/home/HomeViewModel.kt:44-77 | As written: the pending section is exactly the stored pending rows, ordered by due date. The completed section is always empty, and the screen is `Empty` exactly when no row is pending. |
| HomeScreen.LoadActivitiesFixed | app/src/main/java/com/app/flowup/ui/screens/home/HomeViewModel.kt:44-77 | Corrected: the completed section is exactly the stored completed rows when the preference is on. The screen is `Empty` exactly when nothing would be shown. Both sections are ordered by due date. |
| HomeScreen.SubsequenceKeepsOrder | app/src/main/java/com/app/flowup/data/local/ActivityDao.kt:16 | Filtering a list ordered by due date keeps it ordered. |
| HomeScreen.RefreshActivities | app/src/main/java/com/app/flowup/ui/screens/home/HomeViewModel.kt:110-113 | As written: a refresh shows `Loading`, then what `loadActivities` produces for the current table. That is the load error when the read throws. Otherwise the screen is `Empty` exactly when no row is pending, or the pending section is exactly the stored pending rows, ordered by due date, and the completed section is empty. |
| HomeScreen.RefreshActivitiesFixed | app/src/main/java/com/app/flowup/ui/screens/home/HomeViewModel.kt:110-113 | Corrected: a refresh shows `Loading`, then the corrected load of the current table. That is the load error when the read throws. Otherwise the screen is `Empty` exactly when nothing would be shown, or both sections hold exactly the stored pending rows and (preference on) the stored completed rows, ordered by due date. |
| HomeScreen.ToggleCompletion | app/src/main/java/com/app/flowup/ui/screens/home/HomeViewModel.kt:84-94 | The passed activity is written with its flag flipped, overwriting the stored row with that (possibly stale) snapshot. Its reminder is cancelled when it becomes completed, and the queue is unchanged when it becomes pending. |
| HomeScreen.ToggleTwiceRestoresRow | app/src/main/java/com/app/flowup/ui/screens/home/HomeViewModel.kt:84-94 | Toggling a stored activity twice gives the table back. |
| HomeScreen.DeleteActivity | app/src/main/java/com/app/flowup/ui/screens/home/HomeViewModel.kt:101-106 | The row is removed and its reminder cancelled. Nothing else changes. |
| CompletedScreen.LoadError | app/src/main/java/com/app/flowup/ui/screens/completed/CompletedActivitiesViewModel.kt:33-37 | A failing load shows "Error al cargar actividades: " followed by the message, or `null` when there is none. |
| CompletedScreen.CompletedState | app/src/main/java/com/app/flowup/ui/screens/completed/CompletedActivitiesViewModel.kt:38-44 | The state is `Empty` exactly when the list is empty. Otherwise it is `Success` holding that same list. |
| CompletedScreen.LoadCompletedActivities | app/src/main/java/com/app/flowup/ui/screens/completed/CompletedActivitiesViewModel.kt:30-46 | The screen shows exactly the stored completed rows, ordered by due date. It is `Empty` exactly when none is completed, or shows the error when the query throws. |
| CompletedScreen.ToggleCompletion | app/src/main/java/com/app/flowup/ui/screens/completed/CompletedActivitiesViewModel.kt:48-54 | The passed activity is written with its flag flipped, overwriting the stored row with that (possibly stale) snapshot. The reminder queue is left alone. |
| CompletedScreen.DeleteActivity | app/src/main/java/com/app/flowup/ui/screens/completed/CompletedActivitiesViewModel.kt:56-60 | The row is removed and the reminder queue is left alone. |
| ReminderLifecycle.EmptyWorldIsConsistent | app/src/main/java/com/app/flowup/data/local/ActivityEntity.kt:8-9 | An empty table with no reminders is in step. |
| ReminderLifecycle.SaveFixedPreserves | app/src/main/java/com/app/flowup/ui/screens/addactivity/AddActivityViewModel.kt:84-89 | Adding with the reminder keyed by the generated id keeps every reminder attached to a stored pending row that carries its id. |
| ReminderLifecycle.SaveAsWrittenBreaksConsistency | app/src/main/java/com/app/flowup/ui/screens/addactivity/AddActivityViewModel.kt:76-88 | Adding as written, with a future reminder, leaves a reminder for id 0, which no stored row has. |
| ReminderLifecycle.SecondAddReplacesFirstReminder | app/src/main/java/com/app/flowup/ui/screens/addactivity/AddActivityViewModel.kt:84-88 | Two adds as written, both with future reminders, leave one reminder under id 0, carrying the second activity. The first reminder is lost. |
| ReminderLifecycle.UpdatePreserves | app/src/main/java/com/app/flowup/ui/screens/editactivity/EditActivityViewModel.kt:123-140 | Editing a stored activity keeps the queue in step, whatever the form holds and however the update ends. |
| ReminderLifecycle.HomeTogglePreserves | app/src/main/java/com/app/flowup/ui/screens/home/HomeViewModel.kt:84-94 | Toggling from the home screen keeps the queue in step. |
| ReminderLifecycle.HomeDeletePreserves | app/src/main/java/com/app/flowup/ui/screens/home/HomeViewModel.kt:101-106 | Deleting from the home screen keeps the queue in step. |
| ReminderLifecycle.CompletedTogglePreserves | app/src/main/java/com/app/flowup/ui/screens/completed/CompletedActivitiesViewModel.kt:48-54 | Toggling a completed activity back to pending from the completed screen keeps the queue in step, although nothing is cancelled. |
| ReminderLifecycle.CompletedDeletePreserves | app/src/main/java/com/app/flowup/ui/screens/completed/CompletedActivitiesViewModel.kt:56-60 | Deleting a completed activity from the completed screen keeps the queue in step, although nothing is cancelled. |
| ReminderLifecycle.CompletedToggleOfPendingRowBreaksConsistency | app/src/main/java/com/app/flowup/ui/screens/completed/CompletedActivitiesViewModel.kt:48-54 | The completed screen's toggle never cancels. Applied to a pending row with an armed reminder, it leaves that reminder on a completed row. |
| ReminderLifecycle.RunDuePreserves | app/src/main/java/com/app/flowup/notifications/NotificationManager.kt:99-114 | WorkManager running a due reminder keeps the queue in step. |
| Preferences.KeyNamed | app/src/main/java/com/app/flowup/data/preferences/PreferencesRepository.kt:43-55 | Looking up a stored key name gives the key with that name. |
| Preferences.KeyNamesDistinct | app/src/main/java/com/app/flowup/data/preferences/PreferencesRepository.kt:43-55 | The nine keys have distinct names, and every name reads back to its key. |
| Preferences.Put | app/src/main/java/com/app/flowup/data/preferences/PreferencesRepository.kt:80-82 | One edit stores the value under its key, keeps every value of the key's declared type, and changes no other key. |
| Preferences.SetThemeMode | app/src/main/java/com/app/flowup/data/preferences/PreferencesRepository.kt:79-83 | The theme mode reads back as written. No other key changes. |
| Preferences.SetDefaultView | app/src/main/java/com/app/flowup/data/preferences/PreferencesRepository.kt:99-103 | The default view reads back as written. No other key changes. |
| Preferences.SetSortOrder | app/src/main/java/com/app/flowup/data/preferences/PreferencesRepository.kt:115-119 | The sort order reads back as written. No other key changes. |
| Preferences.SetShowCompleted | app/src/main/java/com/app/flowup/data/preferences/PreferencesRepository.kt:131-135 | The show-completed flag reads back as written. No other key changes. |
| Preferences.SetNotificationsEnabled | app/src/main/java/com/app/flowup/data/preferences/PreferencesRepository.kt:151-155 | The notifications flag reads back as written. No other key changes. |
| Preferences.SetNotificationTime | app/src/main/java/com/app/flowup/data/preferences/PreferencesRepository.kt:174-179 | Hours and minutes read back as written, with no range check. No other key changes. |
| Preferences.SetAutoDeleteCompleted | app/src/main/java/com/app/flowup/data/preferences/PreferencesRepository.kt:195-199 | The auto-delete flag reads back as written. No other key changes. |
| Preferences.SetLastSyncTimestamp | app/src/main/java/com/app/flowup/data/preferences/PreferencesRepository.kt:211-215 | The timestamp reads back as written. No other key changes. |
| Preferences.ClearAllPreferences | app/src/main/java/com/app/flowup/data/preferences/PreferencesRepository.kt:224-228 | Clearing leaves no key stored. |
| Preferences.AllPreferencesAgrees | app/src/main/java/com/app/flowup/data/preferences/PreferencesRepository.kt:233-245 | The combined record holds the same nine values, with the same defaults, as the individual readers. |
| Preferences.AbsentKeysReadDefaults | app/src/main/java/com/app/flowup/data/preferences/PreferencesRepository.kt:58-206 | An unwritten key reads as its default: SYSTEM, PENDING, DATE_ASC, enabled, 9, 0, show completed, no auto-delete, no timestamp. |
| Preferences.ClearRestoresDefaults | app/src/main/java/com/app/flowup/data/preferences/PreferencesRepository.kt:224-245 | After clearing, every reader is back at its declared default. |
| Preferences.SetThemeModeLeavesOthers | app/src/main/java/com/app/flowup/data/preferences/PreferencesRepository.kt:79-83 | Writing the theme changes the combined record only in its theme. |
| Preferences.SetNotificationTimeLeavesOthers | app/src/main/java/com/app/flowup/data/preferences/PreferencesRepository.kt:174-179 | Writing the notification time changes the combined record only in its hours and minutes. |
| Theme.DarkTheme | app/src/main/java/com/app/flowup/MainActivity.kt:63-68 | "LIGHT" is never dark and "DARK" always is. Every other mode, "SYSTEM" included, follows the system setting. |
| Theme.OnlyExplicitModesIgnoreSystem | app/src/main/java/com/app/flowup/MainActivity.kt:63-68 | The system setting is irrelevant exactly for the modes "LIGHT" and "DARK". |
| Theme.ClearedPreferencesFollowSystem | app/src/main/java/com/app/flowup/MainActivity.kt:66-67 | With preferences cleared, the theme follows the system. |
| Theme.StoredModeDecidesTheme | app/src/main/java/com/app/flowup/MainActivity.kt:64-65 | After storing "DARK" the app is dark, and after storing "LIGHT" it is light, whatever the system says. |
| ActivityCard.CategoryLabel | app/src/main/java/com/app/flowup/ui/components/ActivityCard.kt:202-211 | A string naming a category in any case is shown as that category's Spanish label. Any other string is shown as it is. |
| ActivityCard.PriorityLabel | app/src/main/java/com/app/flowup/ui/components/ActivityCard.kt:227-234 | A string naming a priority in any case is shown as that priority's Spanish label. Any other string is shown as it is. |
| ActivityCard.StoredNamesGetLabels | app/src/main/java/com/app/flowup/ui/components/ActivityCard.kt:202-234 | The enum names the forms store all get their own labels. |
| ActivityCard.LabelsIgnoreCase | app/src/main/java/com/app/flowup/ui/components/ActivityCard.kt:203 | A category name and its upper-case spelling get the same label. |
| ActivityCard.PriorityLabelsIgnoreCase | app/src/main/java/com/app/flowup/ui/components/ActivityCard.kt:228 | A priority name and its upper-case spelling get the same label. |
| ActivityCard.LabelsDistinguish | app/src/main/java/com/app/flowup/ui/components/ActivityCard.kt:204-231 | Different categories, and different priorities, get different labels. |
| ActivityCard.ChipText | app/src/main/java/com/app/flowup/ui/components/ActivityCard.kt:141 | The chip text is the day count in decimal followed by " día antes", or " días antes" for more than one day. |
| ActivityCard.ReminderChip | app/src/main/java/com/app/flowup/ui/components/ActivityCard.kt:138-150 | The chip is shown exactly when the activity has a reminder, with that day count's text. |
| ActivityCard.ChipRoundTrip | app/src/main/java/com/app/flowup/ui/components/ActivityCard.kt:141 | The day count can be read back from the chip text. |
| ActivityCard.ChipInjective | app/src/main/java/com/app/flowup/ui/components/ActivityCard.kt:141 | Two chips read alike exactly when their day counts are equal. |
| ActivityCard.Card | app/src/main/java/com/app/flowup/ui/components/ActivityCard.kt:80-183 | The title is struck through exactly when completed. The edit button shows exactly while pending, and delete always. The description shows exactly when it is not blank. The chip shows exactly when a reminder is set, and its text is the reminder chip for the stored day count. |
| ActivityCard.HomeCardsFollowSections | app/src/main/java/com/app/flowup/ui/components/ActivityCard.kt:160-171 | On the home screen, pending-section cards can be edited and are not struck through. Completed-section cards are struck through and cannot be edited. |
| NavRoutes.EditActivity | app/src/main/java/com/app/flowup/navigation/NavRoutes.kt:22-24 | The edit route is "edit_activity/" followed by the id in decimal. |
| NavRoutes.EditRouteFillsPattern | app/src/main/java/com/app/flowup/navigation/NavRoutes.kt:18-24 | The built route is the registered pattern with `{activityId}` replaced by the id. |
| NavRoutes.EditRouteRoundTrip | app/src/main/java/com/app/flowup/navigation/NavRoutes.kt:22-24 | The id can be read back from its edit route. |
| NavRoutes.EditRouteInjective | app/src/main/java/com/app/flowup/navigation/NavRoutes.kt:22-24 | Two edit routes are equal exactly when their ids are. |
| NavRoutes.RoutesDistinct | app/src/main/java/com/app/flowup/navigation/NavRoutes.kt:9-24 | Home, add and every edit route are pairwise distinct. No edit route is the unfilled pattern, and neither home nor add parses as an edit route. |

## Left out

- **Compose UI.** The screens, dialogs, snackbars, date picker, navigation graph and `formatDate` are not modelled. Only the card's pure decisions are, in `ActivityCard.Card`. `getCategoryColor` and `getPriorityColor` only choose theme colours.
- **Background sync.** The settings screen and view model, `SyncForegroundService`, dependency injection, `AppDatabase` and the pass-through `ActivityRepository` are outside the lifecycle modelled here.
- **Notification plumbing.** The channel, the `PendingIntent`, the SDK version check and the permission check are reduced to the boolean `permitted` passed to `Notifications.DoWork`. `hasPermission` is that boolean.
- **WorkManager.** Its timing, retries, persistence across reboots and process death are not modelled. `Notifications.RunDue` runs work exactly once its fire time is reached.
- Notifications.FireTime: does not model Kotlin `Long` overflow of `dueDate - days * 86400000`, because due dates are epoch milliseconds far from the bounds.
- AddActivity.SaveActivity: assumes `scheduleReminder` itself never throws. Only the Room write can fail. The transient `isSaving = true` state inside the coroutine is not observable in the model, because each launch is one atomic step.
- EditActivity.UpdateActivity: assumes `cancelReminder` and `scheduleReminder` never throw. The transient `isSaving = true` state is not observable.
- EditActivity.LoadActivity: the transient `isLoading = true` is not observable. The result always has `isLoading = false`.
- **Flows.** `HomeScreen.LoadActivities` and `CompletedScreen.LoadCompletedActivities` model one emission of their flows. Re-emission on later table changes is the same function applied again. `refreshActivities` on the completed screen is the same load again. `HomeScreen.RefreshActivities` ends at the reload's first emission.
- HomeScreen.ToggleCompletion: assumes the Room update completes. In the code a throwing `updateActivity` escapes the coroutine uncaught (HomeViewModel.kt lines 84-94 have no try/catch), and the `cancelReminder` after it is then skipped.
- HomeScreen.DeleteActivity: assumes the Room delete completes. In the code a throwing `deleteActivity` escapes the coroutine uncaught (HomeViewModel.kt lines 101-106), and the `cancelReminder` after it is then skipped.
- CompletedScreen.ToggleCompletion: assumes the Room update completes. In the code a throwing `updateActivity` escapes the coroutine uncaught (CompletedActivitiesViewModel.kt lines 48-54 have no try/catch).
- CompletedScreen.DeleteActivity: assumes the Room delete completes. In the code a throwing `deleteActivity` escapes the coroutine uncaught (CompletedActivitiesViewModel.kt lines 56-60).
- **Preferences readers.** The `Preferences` readers require `WellTyped`: a value of the wrong type under a key would throw in DataStore. Every write in the app goes through the typed keys, so this cannot arise from the app's own code. DataStore I/O failures are left out.
- KotlinText.Uppercase: maps ASCII letters, and the non-ASCII characters whose upper-case form is made of ASCII letters; every other character is kept as it is rather than given its Unicode upper case. Those upper cases are never ASCII, so whether a string upper-cases to a category or priority name is decided correctly.
- KotlinText.Trim: whitespace is the JVM set (`Character.isWhitespace` or `Character.isSpaceChar`) written out as a fixed list of characters; code points outside the Basic Multilingual Plane are not considered.
- ActivityDao.QueryRows: rows with equal due dates come in some order, not a particular one, since `ORDER BY dueDate` leaves ties to SQLite.
- ActivityDao.CompletedActivities: `ActivityRepository` declares no `getCompletedActivities`, although the completed screen calls it. The model takes it to be the rows with `isCompleted = 1` ordered by due date, the counterpart of the pending query.
- ActivityCard.ReminderChip: a stored reminder of zero or negative days is shown as "0 día antes" or "-1 día antes", as the template renders it. The model does not claim the form prevents such values.
- The navigation argument `{activityId}` is parsed by the navigation library as a `Long`. `NavRoutes.ParseEditRoute` stands in for that parser on the routes the app builds.

## Findings

| source | as written | input that shows it | evidently intended | confidence | as-written member | corrected member |
|---|---|---|---|---|---|---|
| app/src/main/java/com/app/flowup/ui/screens/addactivity/AddActivityViewModel.kt:76-88 | The reminder is scheduled with the entity built before the insert. That entity still has the default id 0, since `insertActivity` returns nothing, so the work is named `reminder_0` and its payload id is 0. | Add an activity with a valid title, a due date three days ahead, and `reminderDaysBefore = 1`. The row gets id 1, but the reminder is `reminder_0`. Deleting or completing activity 1 cancels `reminder_1`, so the reminder still fires. A second such add replaces the first reminder. | Schedule the reminder under the id the insert generated. | high (not executed) | AddActivity.SaveActivity, ReminderLifecycle.SaveAsWrittenBreaksConsistency, ReminderLifecycle.SecondAddReplacesFirstReminder | AddActivity.SaveActivityFixed, ReminderLifecycle.SaveFixedPreserves |
| app/src/main/java/com/app/flowup/ui/screens/home/HomeViewModel.kt:47-64 | The completed section is filtered out of `getPendingActivities()`, which returns only rows with `isCompleted = 0`. The section is therefore always empty, although `ui/screens/home/HomeScreen.kt` lines 210-215 render a "Completadas" section and the preference `showCompleted` defaults to true. | The table holds one completed activity and no pending one, with `showCompleted = true`. The home screen shows `Empty` instead of the completed activity. | Feed the home screen a listing of all rows, so that the completed section shows the completed rows when the preference is on. | medium (not executed) | HomeScreen.LoadActivities, HomeScreen.PendingInputHidesCompleted, HomeScreen.RefreshActivities | HomeScreen.LoadActivitiesFixed, HomeScreen.RefreshActivitiesFixed |
