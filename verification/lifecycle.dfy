/**
 * The reminder lifecycle across all screens: which view-model actions keep
 * the reminder queue in step with the activity table, and which break it.
 */
module ReminderLifecycle {
  import opened Nullable
  import opened ActivityEntity
  import opened ActivityDao
  import opened Notifications
  import opened AppWorld
  import opened ActivityForm
  import AddActivity
  import EditActivity
  import HomeScreen
  import CompletedScreen

  /**
   * The queue is in step with the table: every pending reminder belongs to
   * a stored activity that is still pending, and its payload names that
   * activity. The table itself is valid.
   */
  ghost predicate Consistent(w: World) {
    && Valid(w.db)
    && forall k :: k in w.work ==>
         && k in w.db.rows
         && !w.db.rows[k].isCompleted
         && w.work[k].input.activityId == Some(k)
  }

  /** Nothing stored and nothing scheduled is in step. */
  lemma EmptyWorldIsConsistent()
    ensures Consistent(EmptyWorld)
  {
  }

  /** Adding an activity the intended way keeps the queue in step. */
  lemma SaveFixedPreserves(s: AddActivity.AddActivityUiState, w: World, now: int, write: Outcome)
    requires Consistent(w)
    ensures Consistent(AddActivity.SaveActivityFixed(s, w, now, write).world)
  {
    var r := AddActivity.SaveActivityFixed(s, w, now, write);
    if Validate(s.title, s.dueDate).None? && write.Completes? {
      var id := InsertedId(w.db, AddActivity.DraftEntity(s));
      forall k | k in r.world.work
        ensures k in r.world.db.rows && !r.world.db.rows[k].isCompleted
        ensures r.world.work[k].input.activityId == Some(k)
      {
        if k != id {
          assert k in w.work;
        }
      }
    }
  }

  /**
   * Adding an activity as written, with a reminder that is still in the
   * future, leaves a reminder under id 0, which no stored row ever has:
   * the queue falls out of step.
   */
  lemma SaveAsWrittenBreaksConsistency(s: AddActivity.AddActivityUiState, w: World, now: int)
    requires Valid(w.db)
    requires Validate(s.title, s.dueDate).None?
    requires WantsReminder(s.reminderDaysBefore)
    requires FireTime(s.dueDate.value, s.reminderDaysBefore.value) > now
    ensures !Consistent(AddActivity.SaveActivity(s, w, now, Completes).world)
  {
    var r := AddActivity.SaveActivity(s, w, now, Completes);
    assert DefaultId in r.world.work;
    assert DefaultId !in r.world.db.rows;
  }

  /**
   * Two activities added as written, both with future reminders, end with
   * a single reminder: the second one replaces the first under id 0.
   */
  lemma SecondAddReplacesFirstReminder(s1: AddActivity.AddActivityUiState, s2: AddActivity.AddActivityUiState,
                                       w: World, now: int)
    requires Validate(s1.title, s1.dueDate).None? && Validate(s2.title, s2.dueDate).None?
    requires WantsReminder(s1.reminderDaysBefore) && WantsReminder(s2.reminderDaysBefore)
    requires FireTime(s1.dueDate.value, s1.reminderDaysBefore.value) > now
    requires FireTime(s2.dueDate.value, s2.reminderDaysBefore.value) > now
    ensures var w1 := AddActivity.SaveActivity(s1, w, now, Completes).world;
      var w2 := AddActivity.SaveActivity(s2, w1, now, Completes).world;
      && w2.work.Keys == w.work.Keys + {DefaultId}
      && w2.work[DefaultId].input == ReminderInput(AddActivity.DraftEntity(s2))
  {
    var w1 := AddActivity.SaveActivity(s1, w, now, Completes).world;
    var w2 := AddActivity.SaveActivity(s2, w1, now, Completes).world;
    assert w1.work.Keys == w.work.Keys + {DefaultId};
  }

  /**
   * Editing a stored activity keeps the queue in step, whatever the form
   * says. The activity must be stored: the edit screen shows its form only
   * when the load found the row (EditActivityScreen.kt lines 49-51 show the
   * error content instead when `loadError` is set), so the app never saves
   * through a no-op `@Update` and then arms a reminder for an id with no row.
   */
  lemma UpdatePreserves(s: EditActivity.EditActivityUiState, activityId: int, w: World, now: int, write: Outcome)
    requires Consistent(w)
    requires activityId in w.db.rows
    ensures Consistent(EditActivity.UpdateActivity(s, activityId, w, now, write).world)
  {
    var r := EditActivity.UpdateActivity(s, activityId, w, now, write);
    if Validate(s.title, s.dueDate).None? && write.Completes? {
      forall k | k in r.world.work
        ensures k in r.world.db.rows && !r.world.db.rows[k].isCompleted
        ensures r.world.work[k].input.activityId == Some(k)
      {
        if k != activityId {
          assert k in w.work;
        }
      }
    }
  }

  /** Toggling from the home screen keeps the queue in step. */
  lemma HomeTogglePreserves(w: World, a: Activity)
    requires Consistent(w)
    ensures Consistent(HomeScreen.ToggleCompletion(w, a))
  {
    var w' := HomeScreen.ToggleCompletion(w, a);
    forall k | k in w'.work
      ensures k in w'.db.rows && !w'.db.rows[k].isCompleted
      ensures w'.work[k].input.activityId == Some(k)
    {
      assert k in w.work;
    }
  }

  /** Deleting from the home screen keeps the queue in step. */
  lemma HomeDeletePreserves(w: World, a: Activity)
    requires Consistent(w)
    ensures Consistent(HomeScreen.DeleteActivity(w, a))
  {
    var w' := HomeScreen.DeleteActivity(w, a);
    forall k | k in w'.work
      ensures k in w'.db.rows && !w'.db.rows[k].isCompleted
      ensures w'.work[k].input.activityId == Some(k)
    {
      assert k in w.work;
    }
  }

  /**
   * Toggling from the completed screen cancels nothing, yet keeps the queue
   * in step for the activities that screen lists (completed ones): they
   * become pending, and pending rows may have reminders.
   */
  lemma CompletedTogglePreserves(w: World, a: Activity)
    requires Consistent(w)
    requires a.isCompleted
    ensures Consistent(CompletedScreen.ToggleCompletion(w, a))
  {
    var w' := CompletedScreen.ToggleCompletion(w, a);
    forall k | k in w'.work
      ensures k in w'.db.rows && !w'.db.rows[k].isCompleted
    {
      assert k in w.work;
    }
  }

  /**
   * Deleting from the completed screen cancels nothing, which is harmless
   * exactly because a completed stored row has no pending reminder.
   */
  lemma CompletedDeletePreserves(w: World, a: Activity)
    requires Consistent(w)
    requires a.id in w.db.rows ==> w.db.rows[a.id].isCompleted
    ensures Consistent(CompletedScreen.DeleteActivity(w, a))
  {
    var w' := CompletedScreen.DeleteActivity(w, a);
    forall k | k in w'.work
      ensures k in w'.db.rows && !w'.db.rows[k].isCompleted
    {
      assert k in w.work;
    }
  }

  /**
   * Toggling a pending activity to completed from the completed screen
   * (the flip side of the requirement above) can leave its reminder armed
   * for a completed row.
   */
  lemma CompletedToggleOfPendingRowBreaksConsistency(w: World, a: Activity)
    requires a.id in w.db.rows && w.db.rows[a.id] == a && !a.isCompleted
    requires a.id in w.work
    ensures !Consistent(CompletedScreen.ToggleCompletion(w, a))
  {
    var w' := CompletedScreen.ToggleCompletion(w, a);
    assert w'.db.rows[a.id].isCompleted;
  }

  /** WorkManager running a due reminder keeps the queue in step. */
  lemma RunDuePreserves(w: World, id: int, now: int, permitted: bool)
    requires Consistent(w)
    ensures Consistent(World(w.db, RunDue(w.work, id, now, permitted).queue))
  {
    var q := RunDue(w.work, id, now, permitted).queue;
    forall k | k in q
      ensures k in w.db.rows && !w.db.rows[k].isCompleted && q[k].input.activityId == Some(k)
    {
      assert k in w.work;
    }
  }
}
