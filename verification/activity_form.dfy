/**
 * The rules the add and edit screens share: form validation, building the
 * entity from the form, and when a reminder is wanted.
 */
module ActivityForm {
  import opened Nullable
  import opened KotlinText
  import opened ActivityEntity

  const TitleRequired: string := "El título es obligatorio"
  const DueDateRequired: string := "La fecha de vencimiento es obligatoria"

  /**
   * The validation `when`: a blank title is reported first, then a missing
   * due date; `None` means the form may be saved.
   */
  function Validate(title: string, dueDate: Option<int>): (error: Option<string>)
    ensures error.None? <==> !IsBlank(title) && dueDate.Some?
    ensures IsBlank(title) ==> error == Some(TitleRequired)
    ensures !IsBlank(title) && dueDate.None? ==> error == Some(DueDateRequired)
  {
    if IsBlank(title) then Some(TitleRequired)
    else if dueDate.None? then Some(DueDateRequired)
    else None
  }

  /** `reminderDaysBefore != null && reminderDaysBefore > 0`. */
  predicate WantsReminder(days: Option<int>) {
    days.Some? && days.value > 0
  }

  /**
   * The entity a valid form is saved as: title and description trimmed,
   * the other fields copied, not completed.
   */
  function FormEntity(id: int, title: string, description: string, dueDate: int,
                      category: string, priority: string, days: Option<int>): (a: Activity)
    ensures a.id == id && !a.isCompleted
    ensures a.title == Trim(title) && a.description == Trim(description)
    ensures a.dueDate == dueDate && a.category == category && a.priority == priority
    ensures a.reminderDaysBefore == days
  {
    Activity(id, Trim(title), Trim(description), dueDate, days, category, priority, false)
  }

  /**
   * A form that passes validation is saved with a non-blank title, and the
   * reminder message falls back to the default text exactly when the
   * description was blank.
   */
  lemma SavedEntityIsWellFormed(id: int, title: string, description: string, dueDate: int,
                                category: string, priority: string, days: Option<int>)
    requires Validate(title, Some(dueDate)).None?
    ensures var a := FormEntity(id, title, description, dueDate, category, priority, days);
      && !IsBlank(a.title)
      && (a.description == [] <==> IsBlank(description))
  {
    BlankIffTrimEmpty(title);
    BlankIffTrimEmpty(Trim(title));
    BlankIffTrimEmpty(description);
    TrimIdempotent(title);
  }
}
