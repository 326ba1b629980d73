/** `EditActivityUiState` and `EditActivityViewModel`. */
module EditActivity {
  import opened Nullable
  import opened KotlinText
  import opened ActivityEntity
  import opened ActivityDao
  import opened Notifications
  import opened AppWorld
  import opened ActivityForm

  datatype EditActivityUiState = EditActivityUiState(
    title: string,
    description: string,
    dueDate: Option<int>,
    category: string,
    priority: string,
    reminderDaysBefore: Option<int>,
    isLoading: bool,
    loadError: Option<string>,
    errorMessage: Option<string>,
    isSaving: bool,
    isSaved: bool
  )

  /** `EditActivityUiState()`: every field at its declared default. */
  const InitialState: EditActivityUiState :=
    EditActivityUiState("", "", None, "PERSONAL", "MEDIUM", None, false, None, None, false, false)

  const NotFoundMessage: string := "No se encontró la actividad"

  /** The activity id taken from the navigation arguments; 0 when absent. */
  function RouteActivityId(argument: Option<int>): (id: int)
    ensures argument.Some? ==> id == argument.value
    ensures argument.None? ==> id == DefaultId
  {
    argument.GetOr(0)
  }

  /** The fields of the edit state, for saying which ones an operation leaves alone. */
  datatype Field = Title | Description | DueDate | CategoryField | PriorityField | ReminderDays
                 | Loading | LoadError | ErrorMessage | Saving | Saved

  /** Only the fields in `changed` may differ between `s` and `t`. */
  predicate OnlyChanged(s: EditActivityUiState, t: EditActivityUiState, changed: set<Field>) {
    && (Title !in changed ==> s.title == t.title)
    && (Description !in changed ==> s.description == t.description)
    && (DueDate !in changed ==> s.dueDate == t.dueDate)
    && (CategoryField !in changed ==> s.category == t.category)
    && (PriorityField !in changed ==> s.priority == t.priority)
    && (ReminderDays !in changed ==> s.reminderDaysBefore == t.reminderDaysBefore)
    && (Loading !in changed ==> s.isLoading == t.isLoading)
    && (LoadError !in changed ==> s.loadError == t.loadError)
    && (ErrorMessage !in changed ==> s.errorMessage == t.errorMessage)
    && (Saving !in changed ==> s.isSaving == t.isSaving)
    && (Saved !in changed ==> s.isSaved == t.isSaved)
  }

  /** The six editable fields. */
  const FormFields: set<Field> := {Title, Description, DueDate, CategoryField, PriorityField, ReminderDays}

  // ---------------------------------------------------------------------
  // loadActivity
  // ---------------------------------------------------------------------

  /**
   * `loadActivity` for `activityId`, with `read` saying whether the lookup
   * returns or throws. A found row's six editable fields are copied into
   * the form.
   */
  function LoadActivity(s: EditActivityUiState, db: Db, activityId: int, read: Outcome): (r: EditActivityUiState)
    ensures !r.isLoading
    ensures read.Completes? && activityId in db.rows ==>
      var a := db.rows[activityId];
      && r.title == a.title && r.description == a.description && r.dueDate == Some(a.dueDate)
      && r.category == a.category && r.priority == a.priority
      && r.reminderDaysBefore == a.reminderDaysBefore
      && r.loadError.None?
      && OnlyChanged(s, r, FormFields + {Loading, LoadError})
    ensures read.Completes? && activityId !in db.rows ==>
      r.loadError == Some(NotFoundMessage) && OnlyChanged(s, r, {Loading, LoadError})
    ensures read.Throws? ==>
      r.loadError == Some("Error al cargar: " + Interpolate(read.message)) && OnlyChanged(s, r, {Loading, LoadError})
  {
    match read
    case Throws(message) => s.(isLoading := false, loadError := Some("Error al cargar: " + Interpolate(message)))
    case Completes =>
      match GetById(db, activityId)
      case Some(a) =>
        s.(title := a.title, description := a.description, dueDate := Some(a.dueDate),
           category := a.category, priority := a.priority, reminderDaysBefore := a.reminderDaysBefore,
           isLoading := false, loadError := None)
      case None => s.(isLoading := false, loadError := Some(NotFoundMessage))
  }

  // ---------------------------------------------------------------------
  // Setters
  // ---------------------------------------------------------------------

  function OnTitleChange(s: EditActivityUiState, title: string): (r: EditActivityUiState)
    ensures r.title == title && OnlyChanged(s, r, {Title})
  {
    s.(title := title)
  }

  function OnDescriptionChange(s: EditActivityUiState, description: string): (r: EditActivityUiState)
    ensures r.description == description && OnlyChanged(s, r, {Description})
  {
    s.(description := description)
  }

  function OnDueDateChange(s: EditActivityUiState, dueDate: int): (r: EditActivityUiState)
    ensures r.dueDate == Some(dueDate) && OnlyChanged(s, r, {DueDate})
  {
    s.(dueDate := Some(dueDate))
  }

  function OnCategoryChange(s: EditActivityUiState, category: string): (r: EditActivityUiState)
    ensures r.category == category && OnlyChanged(s, r, {CategoryField})
  {
    s.(category := category)
  }

  function OnPriorityChange(s: EditActivityUiState, priority: string): (r: EditActivityUiState)
    ensures r.priority == priority && OnlyChanged(s, r, {PriorityField})
  {
    s.(priority := priority)
  }

  function OnReminderDaysChange(s: EditActivityUiState, days: Option<int>): (r: EditActivityUiState)
    ensures r.reminderDaysBefore == days && OnlyChanged(s, r, {ReminderDays})
  {
    s.(reminderDaysBefore := days)
  }

  /** `clearError`: drops the error message and nothing else. */
  function ClearError(s: EditActivityUiState): (r: EditActivityUiState)
    ensures r.errorMessage.None? && OnlyChanged(s, r, {ErrorMessage})
  {
    s.(errorMessage := None)
  }

  // ---------------------------------------------------------------------
  // updateActivity
  // ---------------------------------------------------------------------

  /** The screen state and the world after one `updateActivity` call. */
  datatype EditResult = EditResult(state: EditActivityUiState, world: World)

  /** The record a valid form is written as: the route's id, always pending. */
  function UpdatedEntity(s: EditActivityUiState, activityId: int): (a: Activity)
    requires s.dueDate.Some?
    ensures a.id == activityId && !a.isCompleted
  {
    FormEntity(activityId, s.title, s.description, s.dueDate.value, s.category, s.priority, s.reminderDaysBefore)
  }

  /**
   * The reminder queue after a successful update: the old reminder is
   * always cancelled, and a new one is scheduled only when wanted.
   */
  function RescheduledWork(q: WorkQueue, updated: Activity, days: Option<int>, now: int): (q': WorkQueue)
    ensures SameWorkExcept(q, q', updated.id)
    ensures !WantsReminder(days) ==> updated.id !in q'
    ensures WantsReminder(days) && FireTime(updated.dueDate, days.value) <= now ==> updated.id !in q'
    ensures WantsReminder(days) && FireTime(updated.dueDate, days.value) > now ==>
      updated.id in q' && q'[updated.id] == PendingWork(FireTime(updated.dueDate, days.value), ReminderInput(updated))
  {
    var cancelled := CancelReminder(q, updated.id);
    if WantsReminder(days) then ScheduleReminder(cancelled, updated, days.value, now) else cancelled
  }

  /**
   * `updateActivity` for the route's `activityId` at time `now`, with
   * `write` saying how the update ends. A failed validation or a throwing
   * update leaves the table and the reminders alone.
   */
  function UpdateActivity(s: EditActivityUiState, activityId: int, w: World, now: int, write: Outcome): (r: EditResult)
    ensures Validate(s.title, s.dueDate).Some? ==>
      && r.world == w
      && r.state.errorMessage == Validate(s.title, s.dueDate)
      && OnlyChanged(s, r.state, {ErrorMessage})
    ensures Validate(s.title, s.dueDate).None? && write.Throws? ==>
      && r.world == w
      && r.state.errorMessage == Some("Error al actualizar: " + Interpolate(write.message))
      && !r.state.isSaving
      && OnlyChanged(s, r.state, {ErrorMessage, Saving})
    ensures Validate(s.title, s.dueDate).None? && write.Completes? ==>
      && r.state.isSaved && !r.state.isSaving
      && OnlyChanged(s, r.state, {Saved, Saving})
      && r.world.db == Update(w.db, UpdatedEntity(s, activityId))
      && r.world.work == RescheduledWork(w.work, UpdatedEntity(s, activityId), s.reminderDaysBefore, now)
  {
    match Validate(s.title, s.dueDate)
    case Some(error) => EditResult(s.(errorMessage := Some(error)), w)
    case None =>
      match write
      case Throws(message) =>
        EditResult(s.(errorMessage := Some("Error al actualizar: " + Interpolate(message)), isSaving := false), w)
      case Completes =>
        var updated := UpdatedEntity(s, activityId);
        var world := World(Update(w.db, updated), RescheduledWork(w.work, updated, s.reminderDaysBefore, now));
        EditResult(s.(isSaved := true, isSaving := false), world)
  }

  /** Removing the reminder in the form and saving leaves no reminder pending for the activity. */
  lemma SavingWithoutReminderClearsIt(s: EditActivityUiState, activityId: int, w: World, now: int)
    requires Validate(s.title, s.dueDate).None?
    requires !WantsReminder(s.reminderDaysBefore)
    ensures activityId !in UpdateActivity(s, activityId, w, now, Completes).world.work
  {
  }

  /** Writing a row back unchanged leaves the table as it was. */
  lemma UpdateWithSameRow(db: Db, a: Activity)
    requires a.id in db.rows && db.rows[a.id] == a
    ensures Update(db, a) == db
  {
    assert db.rows[a.id := a] == db.rows;
  }

  /** Loading a stored row and rebuilding the entity from the untouched form gives the row back. */
  lemma LoadedFormRebuildsRow(s: EditActivityUiState, db: Db, activityId: int)
    requires activityId in db.rows && db.rows[activityId].id == activityId
    requires var a := db.rows[activityId];
      !a.isCompleted && Trim(a.title) == a.title && Trim(a.description) == a.description
    ensures LoadActivity(s, db, activityId, Completes).dueDate.Some?
    ensures UpdatedEntity(LoadActivity(s, db, activityId, Completes), activityId) == db.rows[activityId]
  {
  }

  /** Saving a form that rebuilds the stored row exactly leaves the table as it was. */
  lemma SavingStoredRowKeepsTable(s: EditActivityUiState, activityId: int, w: World, now: int)
    requires Validate(s.title, s.dueDate).None?
    requires activityId in w.db.rows && UpdatedEntity(s, activityId) == w.db.rows[activityId]
    ensures UpdateActivity(s, activityId, w, now, Completes).world.db == w.db
  {
    UpdateWithSameRow(w.db, w.db.rows[activityId]);
  }

  /** A loaded row with a non-blank title passes validation. */
  lemma LoadedFormIsValid(s: EditActivityUiState, db: Db, activityId: int)
    requires activityId in db.rows && !IsBlank(db.rows[activityId].title)
    ensures Validate(LoadActivity(s, db, activityId, Completes).title, LoadActivity(s, db, activityId, Completes).dueDate).None?
  {
  }

  /**
   * Round trip: loading a stored pending activity whose title and
   * description are already trimmed, then saving without touching the
   * form, writes back exactly the stored row.
   */
  lemma LoadThenSaveIsIdentity(s: EditActivityUiState, activityId: int, w: World, now: int)
    requires activityId in w.db.rows && w.db.rows[activityId].id == activityId
    requires var a := w.db.rows[activityId];
      !a.isCompleted && Trim(a.title) == a.title && Trim(a.description) == a.description && !IsBlank(a.title)
    ensures UpdateActivity(LoadActivity(s, w.db, activityId, Completes), activityId, w, now, Completes).world.db == w.db
  {
    LoadedFormIsValid(s, w.db, activityId);
    LoadedFormRebuildsRow(s, w.db, activityId);
    SavingStoredRowKeepsTable(LoadActivity(s, w.db, activityId, Completes), activityId, w, now);
  }
}
