/**
 * The `activities` table behind `ActivityDao`: rows keyed by primary key,
 * plus the AUTOINCREMENT high-water mark SQLite keeps for the table.
 */
module ActivityDao {
  import opened Nullable
  import opened ActivityEntity

  /**
   * `rows` maps each primary key to its row; `lastId` is the largest id the
   * table has ever held (SQLite's `sqlite_sequence` entry), from which the
   * next generated id is taken.
   */
  datatype Db = Db(rows: map<int, Activity>, lastId: int)

  /** An empty table. */
  const EmptyDb: Db := Db(map[], 0)

  /** Every row is stored under its own id. */
  ghost predicate Keyed(db: Db) {
    forall k :: k in db.rows ==> db.rows[k].id == k
  }

  /**
   * The table's integrity invariant: rows are keyed by id, no id exceeds
   * the high-water mark, and id 0 is never stored (on insert, 0 means
   * "generate one").
   */
  ghost predicate Valid(db: Db) {
    && Keyed(db)
    && db.lastId >= 0
    && DefaultId !in db.rows
    && forall k :: k in db.rows ==> k <= db.lastId
  }

  /** Rows other than `id` are the same in both tables. */
  ghost predicate SameRowsExcept(db: Db, db': Db, id: int) {
    forall k :: k != id ==> (k in db.rows <==> k in db'.rows) && (k in db.rows ==> db.rows[k] == db'.rows[k])
  }

  /** The primary key an insert of `a` ends up under. */
  function InsertedId(db: Db, a: Activity): (id: int)
    ensures Valid(db) && a.id == DefaultId ==> id !in db.rows && id != DefaultId
    ensures a.id != DefaultId ==> id == a.id
  {
    if a.id == DefaultId then db.lastId + 1 else a.id
  }

  /**
   * `insertActivity` with `OnConflictStrategy.REPLACE`: an entity whose id
   * is 0 gets a fresh generated id; any other id overwrites the row with
   * that key, or creates it.
   */
  function Insert(db: Db, a: Activity): (db': Db)
    ensures InsertedId(db, a) in db'.rows && db'.rows[InsertedId(db, a)] == a.(id := InsertedId(db, a))
    ensures SameRowsExcept(db, db', InsertedId(db, a))
    ensures Valid(db) ==> Valid(db')
  {
    var id := InsertedId(db, a);
    Db(db.rows[id := a.(id := id)], if id > db.lastId then id else db.lastId)
  }

  /** `updateActivity` (`@Update`): overwrites the row with `a.id`; no row, no change. */
  function Update(db: Db, a: Activity): (db': Db)
    ensures a.id in db.rows ==> a.id in db'.rows && db'.rows[a.id] == a
    ensures a.id !in db.rows ==> db' == db
    ensures SameRowsExcept(db, db', a.id)
    ensures db'.rows.Keys == db.rows.Keys
    ensures db'.lastId == db.lastId
    ensures Valid(db) && a.id in db.rows ==> Valid(db')
  {
    if a.id in db.rows then db.(rows := db.rows[a.id := a]) else db
  }

  /** `deleteActivity` (`@Delete`): removes the row with the entity's primary key. */
  function Delete(db: Db, a: Activity): (db': Db)
    ensures a.id !in db'.rows
    ensures SameRowsExcept(db, db', a.id)
    ensures db'.lastId == db.lastId
    ensures Valid(db) ==> Valid(db')
  {
    db.(rows := db.rows - {a.id})
  }

  /**
   * AUTOINCREMENT never hands a deleted id out again: after a delete, the
   * next generated id differs from the deleted one.
   */
  lemma DeletedIdNeverReused(db: Db, gone: Activity, a: Activity)
    requires Valid(db) && gone.id in db.rows && a.id == DefaultId
    ensures InsertedId(Delete(db, gone), a) != gone.id
    ensures Insert(Delete(db, gone), a).rows.Keys == db.rows.Keys - {gone.id} + {InsertedId(Delete(db, gone), a)}
  {
  }

  /** `getActivityById`: the row with that id, or null. */
  function GetById(db: Db, id: int): (r: Option<Activity>)
    ensures r.Some? <==> id in db.rows
    ensures r.Some? ==> r.value == db.rows[id]
    ensures Keyed(db) && r.Some? ==> r.value.id == id
  {
    if id in db.rows then Some(db.rows[id]) else None
  }

  // ---------------------------------------------------------------------
  // Queries
  // ---------------------------------------------------------------------

  /** The `WHERE` clause of a listing query. */
  datatype RowFilter = PendingRows | CompletedRows | AllRows

  /** `isCompleted = 0`, `isCompleted = 1`, or no condition. */
  predicate Selected(a: Activity, filter: RowFilter) {
    match filter
    case PendingRows => !a.isCompleted
    case CompletedRows => a.isCompleted
    case AllRows => true
  }

  /** `ORDER BY dueDate ASC`. */
  ghost predicate SortedByDueDate(s: seq<Activity>) {
    forall i, j :: 0 <= i < j < |s| ==> s[i].dueDate <= s[j].dueDate
  }

  ghost predicate DistinctIds(s: seq<Activity>) {
    forall i, j :: 0 <= i < j < |s| ==> s[i].id != s[j].id
  }

  /** Places `a` before the first row that is due no earlier than it. */
  function InsertByDueDate(s: seq<Activity>, a: Activity): (r: seq<Activity>)
    ensures |r| == |s| + 1
    ensures multiset(r) == multiset(s) + multiset{a}
    ensures forall x :: x in r <==> x in s || x == a
  {
    if s == [] || a.dueDate <= s[0].dueDate then [a] + s
    else
      assert s == [s[0]] + s[1..];
      [s[0]] + InsertByDueDate(s[1..], a)
  }

  /** Placing a row into a list sorted by due date keeps it sorted. */
  lemma {:induction false} InsertByDueDateSorted(s: seq<Activity>, a: Activity)
    requires SortedByDueDate(s)
    ensures SortedByDueDate(InsertByDueDate(s, a))
    decreases |s|
  {
    if s != [] && a.dueDate > s[0].dueDate {
      var rest := InsertByDueDate(s[1..], a);
      assert SortedByDueDate(s[1..]);
      InsertByDueDateSorted(s[1..], a);
      forall j | 0 <= j < |rest|
        ensures s[0].dueDate <= rest[j].dueDate
      {
        assert rest[j] in multiset(rest);
        if rest[j] != a {
          assert rest[j] in s[1..];
          var k :| 0 <= k < |s[1..]| && s[1..][k] == rest[j];
          assert s[k + 1] == rest[j];
        }
      }
      assert InsertByDueDate(s, a) == [s[0]] + rest;
    }
  }

  /** Placing a row whose id is not yet listed keeps the ids distinct. */
  lemma {:induction false} InsertByDueDateDistinct(s: seq<Activity>, a: Activity)
    requires DistinctIds(s)
    requires forall x :: x in s ==> x.id != a.id
    ensures DistinctIds(InsertByDueDate(s, a))
    decreases |s|
  {
    if s != [] && a.dueDate > s[0].dueDate {
      var rest := InsertByDueDate(s[1..], a);
      assert DistinctIds(s[1..]);
      InsertByDueDateDistinct(s[1..], a);
      forall j | 0 <= j < |rest|
        ensures s[0].id != rest[j].id
      {
        assert rest[j] in multiset(rest);
        if rest[j] != a {
          assert rest[j] in s[1..];
          var k :| 0 <= k < |s[1..]| && s[1..][k] == rest[j];
          assert s[k + 1] == rest[j];
        } else {
          assert s[0] in s;
        }
      }
      assert InsertByDueDate(s, a) == [s[0]] + rest;
    }
  }

  /**
   * The rows a `SELECT ... ORDER BY dueDate ASC` returns: exactly the
   * selected rows, each once, earliest due first. Rows due at the same
   * instant come in no particular order, as in SQL.
   */
  method QueryRows(db: Db, filter: RowFilter) returns (r: seq<Activity>)
    requires Keyed(db)
    ensures SortedByDueDate(r)
    ensures DistinctIds(r)
    ensures forall a :: a in r <==> a.id in db.rows && db.rows[a.id] == a && Selected(a, filter)
  {
    var todo := db.rows.Keys;
    r := [];
    while todo != {}
      invariant todo <= db.rows.Keys
      invariant SortedByDueDate(r)
      invariant DistinctIds(r)
      invariant forall a :: a in r <==>
        a.id in db.rows && a.id !in todo && db.rows[a.id] == a && Selected(a, filter)
      decreases todo
    {
      if forall x :: x !in todo {
        assert false;  // todo is not empty
      }
      var k :| k in todo;
      todo := todo - {k};
      if Selected(db.rows[k], filter) {
        InsertByDueDateSorted(r, db.rows[k]);
        InsertByDueDateDistinct(r, db.rows[k]);
        r := InsertByDueDate(r, db.rows[k]);
      }
    }
  }

  /** `getPendingActivities`: the rows with `isCompleted = 0`, by due date. */
  method PendingActivities(db: Db) returns (r: seq<Activity>)
    requires Keyed(db)
    ensures SortedByDueDate(r)
    ensures DistinctIds(r)
    ensures forall a :: a in r <==> a.id in db.rows && db.rows[a.id] == a && !a.isCompleted
  {
    r := QueryRows(db, PendingRows);
  }

  /**
   * `getCompletedActivities`, which the completed screen calls: the rows
   * with `isCompleted = 1`, by due date.
   */
  method CompletedActivities(db: Db) returns (r: seq<Activity>)
    requires Keyed(db)
    ensures SortedByDueDate(r)
    ensures DistinctIds(r)
    ensures forall a :: a in r <==> a.id in db.rows && db.rows[a.id] == a && a.isCompleted
  {
    r := QueryRows(db, CompletedRows);
  }

  /** Every row, by due date. */
  method AllActivities(db: Db) returns (r: seq<Activity>)
    requires Keyed(db)
    ensures SortedByDueDate(r)
    ensures DistinctIds(r)
    ensures forall a :: a in r <==> a.id in db.rows && db.rows[a.id] == a
  {
    r := QueryRows(db, AllRows);
  }
}
