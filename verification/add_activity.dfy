/** `AddActivityUiState` and `AddActivityViewModel`. */
module AddActivity {
  import opened Nullable
  import opened KotlinText
  import opened ActivityEntity
  import opened ActivityDao
  import opened Notifications
  import opened AppWorld
  import opened ActivityForm

  datatype AddActivityUiState = AddActivityUiState(
    title: string,
    description: string,
    dueDate: Option<int>,
    category: string,
    priority: string,
    reminderDaysBefore: Option<int>,
    errorMessage: Option<string>,
    isSaving: bool,
    isSaved: bool
  )

  /** `AddActivityUiState()`: every field at its declared default. */
  const InitialState: AddActivityUiState :=
    AddActivityUiState("", "", None, "PERSONAL", "MEDIUM", None, None, false, false)

  /** The fields of the form state, for saying which ones an operation leaves alone. */
  datatype Field = Title | Description | DueDate | CategoryField | PriorityField
                 | ReminderDays | ErrorMessage | Saving | Saved

  /** Only the fields in `changed` may differ between `s` and `t`. */
  predicate OnlyChanged(s: AddActivityUiState, t: AddActivityUiState, changed: set<Field>) {
    && (Title !in changed ==> s.title == t.title)
    && (Description !in changed ==> s.description == t.description)
    && (DueDate !in changed ==> s.dueDate == t.dueDate)
    && (CategoryField !in changed ==> s.category == t.category)
    && (PriorityField !in changed ==> s.priority == t.priority)
    && (ReminderDays !in changed ==> s.reminderDaysBefore == t.reminderDaysBefore)
    && (ErrorMessage !in changed ==> s.errorMessage == t.errorMessage)
    && (Saving !in changed ==> s.isSaving == t.isSaving)
    && (Saved !in changed ==> s.isSaved == t.isSaved)
  }

  // ---------------------------------------------------------------------
  // Setters
  // ---------------------------------------------------------------------

  function OnTitleChange(s: AddActivityUiState, title: string): (r: AddActivityUiState)
    ensures r.title == title && OnlyChanged(s, r, {Title})
  {
    s.(title := title)
  }

  function OnDescriptionChange(s: AddActivityUiState, description: string): (r: AddActivityUiState)
    ensures r.description == description && OnlyChanged(s, r, {Description})
  {
    s.(description := description)
  }

  function OnDueDateChange(s: AddActivityUiState, dueDate: int): (r: AddActivityUiState)
    ensures r.dueDate == Some(dueDate) && OnlyChanged(s, r, {DueDate})
  {
    s.(dueDate := Some(dueDate))
  }

  function OnCategoryChange(s: AddActivityUiState, category: string): (r: AddActivityUiState)
    ensures r.category == category && OnlyChanged(s, r, {CategoryField})
  {
    s.(category := category)
  }

  function OnPriorityChange(s: AddActivityUiState, priority: string): (r: AddActivityUiState)
    ensures r.priority == priority && OnlyChanged(s, r, {PriorityField})
  {
    s.(priority := priority)
  }

  function OnReminderDaysChange(s: AddActivityUiState, days: Option<int>): (r: AddActivityUiState)
    ensures r.reminderDaysBefore == days && OnlyChanged(s, r, {ReminderDays})
  {
    s.(reminderDaysBefore := days)
  }

  /** `clearError`: drops the error message and nothing else. */
  function ClearError(s: AddActivityUiState): (r: AddActivityUiState)
    ensures r.errorMessage.None? && OnlyChanged(s, r, {ErrorMessage})
  {
    s.(errorMessage := None)
  }

  // ---------------------------------------------------------------------
  // saveActivity
  // ---------------------------------------------------------------------

  /** The screen state and the world after one `saveActivity` call. */
  datatype AddResult = AddResult(state: AddActivityUiState, world: World)

  /** The entity built from a valid form: id still the default 0. */
  function DraftEntity(s: AddActivityUiState): (a: Activity)
    requires s.dueDate.Some?
    ensures a.id == DefaultId && !a.isCompleted
  {
    FormEntity(DefaultId, s.title, s.description, s.dueDate.value, s.category, s.priority, s.reminderDaysBefore)
  }

  /** The error message a failed insert shows. */
  function SaveErrorMessage(message: Option<string>): string {
    "Error al guardar: " + Interpolate(message)
  }

  /**
   * The world after a successful insert of the form, with the reminder (if
   * one is wanted) scheduled under `reminderId`.
   */
  function SavedWorld(s: AddActivityUiState, w: World, now: int, reminderId: int): (w': World)
    requires s.dueDate.Some?
    ensures w'.db == Insert(w.db, DraftEntity(s))
    ensures SameWorkExcept(w.work, w'.work, reminderId)
    ensures !WantsReminder(s.reminderDaysBefore) ==> w'.work == w.work
    ensures WantsReminder(s.reminderDaysBefore) && FireTime(s.dueDate.value, s.reminderDaysBefore.value) <= now ==>
      w'.work == w.work
    ensures WantsReminder(s.reminderDaysBefore) && FireTime(s.dueDate.value, s.reminderDaysBefore.value) > now ==>
      && reminderId in w'.work
      && w'.work[reminderId] == PendingWork(FireTime(s.dueDate.value, s.reminderDaysBefore.value),
                                            ReminderInput(DraftEntity(s).(id := reminderId)))
  {
    var activity := DraftEntity(s);
    var work := if WantsReminder(s.reminderDaysBefore)
                then ScheduleReminder(w.work, activity.(id := reminderId), s.reminderDaysBefore.value, now)
                else w.work;
    World(Insert(w.db, activity), work)
  }

  /** `saveActivity` with the reminder keyed by `reminderId`. */
  function SaveWith(s: AddActivityUiState, w: World, now: int, write: Outcome, reminderId: int): AddResult
  {
    match Validate(s.title, s.dueDate)
    case Some(error) => AddResult(s.(errorMessage := Some(error)), w)
    case None =>
      match write
      case Throws(message) =>
        AddResult(s.(errorMessage := Some(SaveErrorMessage(message)), isSaving := false), w)
      case Completes =>
        AddResult(s.(isSaved := true, isSaving := false), SavedWorld(s, w, now, reminderId))
  }

  /**
   * `saveActivity` as written, at time `now`, with `write` saying how the
   * insert ends. The reminder is scheduled with the entity built before
   * the insert, so it is keyed by the default id 0, not by the id the
   * table generated.
   */
  function SaveActivity(s: AddActivityUiState, w: World, now: int, write: Outcome): (r: AddResult)
    ensures Validate(s.title, s.dueDate).Some? ==>
      && r.world == w
      && r.state.errorMessage == Validate(s.title, s.dueDate)
      && OnlyChanged(s, r.state, {ErrorMessage})
    ensures Validate(s.title, s.dueDate).None? && write.Throws? ==>
      && r.world == w
      && r.state.errorMessage == Some(SaveErrorMessage(write.message))
      && !r.state.isSaving
      && OnlyChanged(s, r.state, {ErrorMessage, Saving})
    ensures Validate(s.title, s.dueDate).None? && write.Completes? ==>
      && r.state.isSaved && !r.state.isSaving
      && OnlyChanged(s, r.state, {Saved, Saving})
      && r.world.db == Insert(w.db, DraftEntity(s))
      && SameWorkExcept(w.work, r.world.work, DefaultId)
      && (!WantsReminder(s.reminderDaysBefore) ==> r.world.work == w.work)
      && (WantsReminder(s.reminderDaysBefore) && FireTime(s.dueDate.value, s.reminderDaysBefore.value) <= now ==>
            r.world.work == w.work)
      && (WantsReminder(s.reminderDaysBefore) && FireTime(s.dueDate.value, s.reminderDaysBefore.value) > now ==>
            && DefaultId in r.world.work
            && r.world.work[DefaultId] == PendingWork(FireTime(s.dueDate.value, s.reminderDaysBefore.value),
                                                      ReminderInput(DraftEntity(s)))
            && r.world.work[DefaultId].input.activityId == Some(DefaultId))
  {
    SaveWith(s, w, now, write, DefaultId)
  }

  /**
   * `saveActivity` as evidently intended: the reminder is keyed by the id
   * the insert generated, so it belongs to the saved row.
   */
  function SaveActivityFixed(s: AddActivityUiState, w: World, now: int, write: Outcome): (r: AddResult)
    ensures Validate(s.title, s.dueDate).Some? || write.Throws? ==>
      r == SaveActivity(s, w, now, write)
    ensures Validate(s.title, s.dueDate).None? && write.Completes? ==>
      var id := InsertedId(w.db, DraftEntity(s));
      && r.state == SaveActivity(s, w, now, write).state
      && r.world.db == Insert(w.db, DraftEntity(s))
      && SameWorkExcept(w.work, r.world.work, id)
      && (!WantsReminder(s.reminderDaysBefore) ==> r.world.work == w.work)
      && (WantsReminder(s.reminderDaysBefore) && FireTime(s.dueDate.value, s.reminderDaysBefore.value) <= now ==>
            r.world.work == w.work)
      && (WantsReminder(s.reminderDaysBefore) && FireTime(s.dueDate.value, s.reminderDaysBefore.value) > now ==>
            && id in r.world.work
            && r.world.work[id] == PendingWork(FireTime(s.dueDate.value, s.reminderDaysBefore.value),
                                               ReminderInput(DraftEntity(s).(id := id)))
            && r.world.work[id].input == ReminderInput(r.world.db.rows[id]))
  {
    if s.dueDate.Some? then SaveWith(s, w, now, write, InsertedId(w.db, DraftEntity(s)))
    else SaveWith(s, w, now, write, DefaultId)
  }

  /** An untouched form fails validation: first on the blank title, then on the missing date. */
  lemma UntouchedFormIsRejected(w: World, now: int, write: Outcome, title: string)
    requires !IsBlank(title)
    ensures SaveActivity(InitialState, w, now, write).state.errorMessage == Some(TitleRequired)
    ensures SaveActivity(OnTitleChange(InitialState, title), w, now, write).state.errorMessage == Some(DueDateRequired)
    ensures SaveActivity(OnTitleChange(InitialState, title), w, now, write).world == w
  {
  }
}
