/** `HomeUiState` and `HomeViewModel`: the main list and its two actions. */
module HomeScreen {
  import opened Nullable
  import opened ActivityEntity
  import opened ActivityDao
  import opened Notifications
  import opened AppWorld

  datatype HomeUiState =
    | Loading
    | Success(pendingActivities: seq<Activity>, completedActivities: seq<Activity>)
    | Error(message: string)
    | Empty

  /** The view model's state before the first load. */
  const InitialState: HomeUiState := Loading

  /** Shown when the load fails with an exception that has no message. */
  const UnknownLoadError: string := "Error desconocido al cargar actividades"

  // ---------------------------------------------------------------------
  // Partitioning a list
  // ---------------------------------------------------------------------

  /** `r` is `xs` with some elements dropped, the rest in their original order. */
  ghost predicate IsSubsequence(r: seq<Activity>, xs: seq<Activity>)
    decreases |xs|
  {
    if r == [] then true
    else if xs == [] then false
    else if r[0] == xs[0] then IsSubsequence(r[1..], xs[1..])
    else IsSubsequence(r, xs[1..])
  }

  /** `filter { it.isCompleted == completed }`. */
  function WithStatus(xs: seq<Activity>, completed: bool): (r: seq<Activity>)
    ensures forall a :: a in r <==> a in xs && a.isCompleted == completed
    ensures IsSubsequence(r, xs)
    ensures |r| <= |xs|
  {
    if xs == [] then []
    else if xs[0].isCompleted == completed then [xs[0]] + WithStatus(xs[1..], completed)
    else WithStatus(xs[1..], completed)
  }

  /** Splitting by status loses nothing and duplicates nothing. */
  lemma {:induction false} PartitionIsPermutation(xs: seq<Activity>)
    ensures multiset(WithStatus(xs, false)) + multiset(WithStatus(xs, true)) == multiset(xs)
  {
    if xs != [] {
      PartitionIsPermutation(xs[1..]);
      assert xs == [xs[0]] + xs[1..];
    }
  }

  /**
   * The state one emission of `(activities, showCompleted)` produces: the
   * pending ones, the completed ones when they are to be shown, and `Empty`
   * when both lists would be empty.
   */
  function HomeState(xs: seq<Activity>, showCompleted: bool): (st: HomeUiState)
    ensures st.Empty? || st.Success?
    ensures st.Empty? <==>
      (forall a :: a in xs ==> a.isCompleted) && (showCompleted ==> forall a :: a in xs ==> !a.isCompleted)
    ensures st.Success? ==>
      && (forall a :: a in st.pendingActivities <==> a in xs && !a.isCompleted)
      && (forall a :: a in st.completedActivities <==> showCompleted && a in xs && a.isCompleted)
      && IsSubsequence(st.pendingActivities, xs)
      && IsSubsequence(st.completedActivities, xs)
  {
    var pending := WithStatus(xs, false);
    var completed := if showCompleted then WithStatus(xs, true) else [];
    if pending == [] && completed == [] then Empty
    else
      assert IsSubsequence([], xs);
      HomeUiState.Success(pending, completed)
  }

  /** Shown lists: the pending and completed sections never share an activity. */
  lemma SectionsAreDisjoint(xs: seq<Activity>, showCompleted: bool)
    ensures var st := HomeState(xs, showCompleted);
      st.Success? ==> forall a :: a in st.pendingActivities ==> a !in st.completedActivities
  {
  }

  /** The `catch` branch: the exception's message, or a fixed text when it has none. */
  function LoadError(message: Option<string>): (st: HomeUiState)
    ensures st.Error?
    ensures message.Some? ==> st.message == message.value
    ensures message.None? ==> st.message == UnknownLoadError
  {
    Error(message.GetOr(UnknownLoadError))
  }

  /**
   * When the input holds only pending activities, the completed section is
   * empty whatever `showCompleted` says.
   */
  lemma PendingInputHidesCompleted(xs: seq<Activity>, showCompleted: bool)
    requires forall a :: a in xs ==> !a.isCompleted
    ensures HomeState(xs, showCompleted).Success? ==> HomeState(xs, showCompleted).completedActivities == []
  {
  }

  // ---------------------------------------------------------------------
  // loadActivities
  // ---------------------------------------------------------------------

  /**
   * `loadActivities` as written, for one emission: the list comes from
   * `getPendingActivities`, which holds no completed row, so the completed
   * section is always empty and the screen is `Empty` exactly when no row
   * is pending.
   */
  method LoadActivities(db: Db, showCompleted: bool, read: Outcome) returns (st: HomeUiState)
    requires Keyed(db)
    ensures read.Throws? ==> st == LoadError(read.message)
    ensures read.Completes? ==> st.Empty? || st.Success?
    ensures read.Completes? ==> (st.Empty? <==> forall k :: k in db.rows ==> db.rows[k].isCompleted)
    ensures st.Success? ==>
      && (forall a :: a in st.pendingActivities <==> a.id in db.rows && db.rows[a.id] == a && !a.isCompleted)
      && SortedByDueDate(st.pendingActivities)
      && st.completedActivities == []
  {
    if read.Throws? {
      return LoadError(read.message);
    }
    var rows := PendingActivities(db);
    PendingInputHidesCompleted(rows, showCompleted);
    st := HomeState(rows, showCompleted);
    assert st.Success? ==> st.pendingActivities == WithStatus(rows, false);
    SortedSubsequence(st, rows);
    if !st.Empty? {
      assert exists a :: a in rows;
    }
  }

  /**
   * `loadActivities` with the listing it evidently needs: every row, so
   * the completed section shows exactly the completed rows when the
   * preference asks for them.
   */
  method LoadActivitiesFixed(db: Db, showCompleted: bool, read: Outcome) returns (st: HomeUiState)
    requires Keyed(db)
    ensures read.Throws? ==> st == LoadError(read.message)
    ensures read.Completes? ==> st.Empty? || st.Success?
    ensures read.Completes? ==>
      (st.Empty? <==> forall k :: k in db.rows ==> db.rows[k].isCompleted && !showCompleted)
    ensures st.Success? ==>
      && (forall a :: a in st.pendingActivities <==> a.id in db.rows && db.rows[a.id] == a && !a.isCompleted)
      && (forall a :: a in st.completedActivities <==>
            showCompleted && a.id in db.rows && db.rows[a.id] == a && a.isCompleted)
      && SortedByDueDate(st.pendingActivities)
      && SortedByDueDate(st.completedActivities)
  {
    if read.Throws? {
      return LoadError(read.message);
    }
    var rows := AllActivities(db);
    st := HomeState(rows, showCompleted);
    SortedSubsequence(st, rows);
    if st.Empty? {
      forall k | k in db.rows
        ensures db.rows[k].isCompleted && !showCompleted
      {
        assert db.rows[k] in rows;
      }
    }
  }

  /** A subsequence of a list sorted by due date is sorted by due date. */
  lemma {:induction false} SubsequenceKeepsOrder(r: seq<Activity>, xs: seq<Activity>)
    requires IsSubsequence(r, xs) && SortedByDueDate(xs)
    ensures SortedByDueDate(r)
    ensures forall a :: a in r ==> a in xs
    decreases |xs|
  {
    if r != [] {
      assert xs != [];
      assert SortedByDueDate(xs[1..]);
      if r[0] == xs[0] {
        SubsequenceKeepsOrder(r[1..], xs[1..]);
        forall j | 0 < j < |r|
          ensures r[0].dueDate <= r[j].dueDate
        {
          assert r[1..][j - 1] in xs[1..];
        }
        assert r == [r[0]] + r[1..];
      } else {
        SubsequenceKeepsOrder(r, xs[1..]);
      }
    }
  }

  /** Both sections of a state built from a sorted list are sorted. */
  lemma SortedSubsequence(st: HomeUiState, rows: seq<Activity>)
    requires SortedByDueDate(rows)
    requires st.Success? ==> IsSubsequence(st.pendingActivities, rows) && IsSubsequence(st.completedActivities, rows)
    ensures st.Success? ==> SortedByDueDate(st.pendingActivities) && SortedByDueDate(st.completedActivities)
  {
    if st.Success? {
      SubsequenceKeepsOrder(st.pendingActivities, rows);
      SubsequenceKeepsOrder(st.completedActivities, rows);
    }
  }

  /**
   * `refreshActivities` as written: `Loading` first, then the first emission
   * of `loadActivities` over the current table, so the completed section
   * stays empty whatever the preference.
   */
  method RefreshActivities(db: Db, showCompleted: bool, read: Outcome) returns (emitted: seq<HomeUiState>)
    requires Keyed(db)
    ensures |emitted| == 2 && emitted[0] == Loading
    ensures read.Throws? ==> emitted[1] == LoadError(read.message)
    ensures read.Completes? ==> emitted[1].Empty? || emitted[1].Success?
    ensures read.Completes? ==> (emitted[1].Empty? <==> forall k :: k in db.rows ==> db.rows[k].isCompleted)
    ensures emitted[1].Success? ==>
      && (forall a :: a in emitted[1].pendingActivities <==>
            a.id in db.rows && db.rows[a.id] == a && !a.isCompleted)
      && SortedByDueDate(emitted[1].pendingActivities)
      && emitted[1].completedActivities == []
  {
    var reloaded := LoadActivities(db, showCompleted, read);
    emitted := [Loading, reloaded];
  }

  /**
   * `refreshActivities` over the corrected load: `Loading` first, then both
   * sections exactly as the table and the preference say.
   */
  method RefreshActivitiesFixed(db: Db, showCompleted: bool, read: Outcome) returns (emitted: seq<HomeUiState>)
    requires Keyed(db)
    ensures |emitted| == 2 && emitted[0] == Loading
    ensures read.Throws? ==> emitted[1] == LoadError(read.message)
    ensures read.Completes? ==> emitted[1].Empty? || emitted[1].Success?
    ensures read.Completes? ==>
      (emitted[1].Empty? <==> forall k :: k in db.rows ==> db.rows[k].isCompleted && !showCompleted)
    ensures emitted[1].Success? ==>
      && (forall a :: a in emitted[1].pendingActivities <==>
            a.id in db.rows && db.rows[a.id] == a && !a.isCompleted)
      && (forall a :: a in emitted[1].completedActivities <==>
            showCompleted && a.id in db.rows && db.rows[a.id] == a && a.isCompleted)
      && SortedByDueDate(emitted[1].pendingActivities)
      && SortedByDueDate(emitted[1].completedActivities)
  {
    var reloaded := LoadActivitiesFixed(db, showCompleted, read);
    emitted := [Loading, reloaded];
  }

  // ---------------------------------------------------------------------
  // Actions
  // ---------------------------------------------------------------------

  /**
   * `toggleActivityCompletion(activity)`: writes the activity with its
   * completion flag flipped, and cancels its reminder only when it has just
   * become completed. Marking it pending again schedules nothing.
   */
  function ToggleCompletion(w: World, a: Activity): (w': World)
    ensures a.id in w.db.rows ==> a.id in w'.db.rows && w'.db.rows[a.id] == a.(isCompleted := !a.isCompleted)
    ensures SameRowsExcept(w.db, w'.db, a.id) && w'.db.rows.Keys == w.db.rows.Keys
    ensures !a.isCompleted ==> a.id !in w'.work && SameWorkExcept(w.work, w'.work, a.id)
    ensures a.isCompleted ==> w'.work == w.work
  {
    var updated := a.(isCompleted := !a.isCompleted);
    World(Update(w.db, updated), if updated.isCompleted then CancelReminder(w.work, a.id) else w.work)
  }

  /** Toggling a stored activity twice gives the table back unchanged. */
  lemma ToggleTwiceRestoresRow(w: World, a: Activity)
    requires a.id in w.db.rows && w.db.rows[a.id] == a
    ensures ToggleCompletion(ToggleCompletion(w, a), a.(isCompleted := !a.isCompleted)).db == w.db
  {
    var w2 := ToggleCompletion(ToggleCompletion(w, a), a.(isCompleted := !a.isCompleted));
    assert w2.db.rows == w.db.rows;
  }

  /**
   * `deleteActivity(activity)`: removes the row and cancels its reminder;
   * afterwards nothing is stored or pending for that id.
   */
  function DeleteActivity(w: World, a: Activity): (w': World)
    ensures a.id !in w'.db.rows && a.id !in w'.work
    ensures SameRowsExcept(w.db, w'.db, a.id)
    ensures SameWorkExcept(w.work, w'.work, a.id)
  {
    World(Delete(w.db, a), CancelReminder(w.work, a.id))
  }
}
