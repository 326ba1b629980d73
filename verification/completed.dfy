/** `CompletedActivitiesUiState` and `CompletedActivitiesViewModel`. */
module CompletedScreen {
  import opened Nullable
  import opened KotlinText
  import opened ActivityEntity
  import opened ActivityDao
  import opened Notifications
  import opened AppWorld

  datatype CompletedActivitiesUiState =
    | Loading
    | Empty
    | Success(completedActivities: seq<Activity>)
    | Error(message: string)

  /** The view model's state before the first load. */
  const InitialState: CompletedActivitiesUiState := Loading

  /** The `catch` branch: a fixed prefix and the message, "null" when it has none. */
  function LoadError(message: Option<string>): (st: CompletedActivitiesUiState)
    ensures st.Error?
    ensures message.Some? ==> st.message == "Error al cargar actividades: " + message.value
    ensures message.None? ==> st.message == "Error al cargar actividades: null"
  {
    Error("Error al cargar actividades: " + Interpolate(message))
  }

  /** One emission of the completed list: `Empty` for no rows, else `Success` with that same list. */
  function CompletedState(xs: seq<Activity>): (st: CompletedActivitiesUiState)
    ensures st.Empty? || st.Success?
    ensures st.Empty? <==> |xs| == 0
    ensures st.Success? ==> st.completedActivities == xs
  {
    if |xs| == 0 then Empty else CompletedActivitiesUiState.Success(xs)
  }

  /**
   * `loadCompletedActivities`, for one emission of `getCompletedActivities`
   * (with `read` saying whether the query throws).
   */
  method LoadCompletedActivities(db: Db, read: Outcome) returns (st: CompletedActivitiesUiState)
    requires Keyed(db)
    ensures read.Throws? ==> st == LoadError(read.message)
    ensures read.Completes? ==> (st.Empty? <==> forall k :: k in db.rows ==> !db.rows[k].isCompleted)
    ensures read.Completes? ==> st.Empty? || st.Success?
    ensures st.Success? ==>
      && (forall a :: a in st.completedActivities <==> a.id in db.rows && db.rows[a.id] == a && a.isCompleted)
      && SortedByDueDate(st.completedActivities)
  {
    if read.Throws? {
      return LoadError(read.message);
    }
    var rows := CompletedActivities(db);
    st := CompletedState(rows);
    if !st.Empty? {
      assert rows[0] in rows;
    }
  }

  /**
   * `toggleActivityCompletion(activity)` on this screen: writes the flag
   * flipped and leaves the reminder queue alone, in both directions.
   */
  function ToggleCompletion(w: World, a: Activity): (w': World)
    ensures a.id in w.db.rows ==> a.id in w'.db.rows && w'.db.rows[a.id] == a.(isCompleted := !a.isCompleted)
    ensures SameRowsExcept(w.db, w'.db, a.id) && w'.db.rows.Keys == w.db.rows.Keys
    ensures w'.work == w.work
  {
    World(Update(w.db, a.(isCompleted := !a.isCompleted)), w.work)
  }

  /** `deleteActivity(activity)` on this screen: removes the row and cancels nothing. */
  function DeleteActivity(w: World, a: Activity): (w': World)
    ensures a.id !in w'.db.rows
    ensures SameRowsExcept(w.db, w'.db, a.id)
    ensures w'.work == w.work
  {
    World(Delete(w.db, a), w.work)
  }
}
