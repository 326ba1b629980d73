/**
 * The state the view models act on: the activity table and WorkManager's
 * reminder queue, plus the ways a Room call can end.
 */
module AppWorld {
  import opened Nullable
  import opened ActivityDao
  import opened Notifications

  datatype World = World(db: Db, work: WorkQueue)

  /** Nothing stored, nothing scheduled. */
  const EmptyWorld: World := World(EmptyDb, map[])

  /** How a Room call ends: normally, or by throwing with a (nullable) message. */
  datatype Outcome = Completes | Throws(message: Option<string>)
}
