/**
 * `NotificationManager.scheduleReminder` / `cancelReminder` and
 * `ReminderWorker.doWork`, over WorkManager's queue of unique one-shot
 * work. The queue is a map from activity id to the pending work enqueued
 * under the unique name `reminder_<id>`; `WorkNameInjective` shows that
 * keying by id and keying by name are the same thing.
 */
module Notifications {
  import opened Nullable
  import opened KotlinText
  import opened ActivityEntity

  /** `TimeUnit.DAYS.toMillis(1)`. */
  const MillisPerDay: int := 86_400_000

  /** Message used when the activity has an empty description. */
  const DefaultMessage: string := "Tienes una actividad pendiente"

  /** Prefix of the posted notification's title. */
  const TitlePrefix: string := "Recordatorio: "

  /** Prefix of the unique work name. */
  const WorkNamePrefix: string := "reminder_"

  /** What `getLong("activity_id", -1L)` yields for a missing id. */
  const MissingActivityId: int := -1

  // ---------------------------------------------------------------------
  // Fire time
  // ---------------------------------------------------------------------

  /**
   * The instant the reminder should fire: `daysNotice` whole days before
   * the due date. Long overflow is not modelled.
   */
  function FireTime(dueDate: int, daysNotice: int): (t: int)
    ensures t + daysNotice * MillisPerDay == dueDate
  {
    dueDate - daysNotice * MillisPerDay
  }

  /** More notice means an earlier reminder: one day is exactly 86,400,000 ms. */
  lemma FireTimeMonotone(dueDate: int, d1: int, d2: int)
    requires d1 <= d2
    ensures FireTime(dueDate, d2) <= FireTime(dueDate, d1)
    ensures FireTime(dueDate, d1) - FireTime(dueDate, d2) == (d2 - d1) * MillisPerDay
  {
  }

  /**
   * The initial delay given to WorkManager: none when the fire time is not
   * strictly in the future (the reminder is skipped), otherwise the
   * positive distance from `now`.
   */
  function InitialDelay(fireAt: int, now: int): (delay: Option<int>)
    ensures delay.None? <==> fireAt <= now
    ensures delay.Some? ==> delay.value > 0 && now + delay.value == fireAt
  {
    if fireAt <= now then None else Some(fireAt - now)
  }

  // ---------------------------------------------------------------------
  // Work requests
  // ---------------------------------------------------------------------

  /** The unique work name `"reminder_$id"`. */
  function WorkName(id: int): string {
    WorkNamePrefix + Decimal(id)
  }

  /** Two ids share a unique work name only if they are the same id. */
  lemma WorkNameInjective(a: int, b: int)
    ensures WorkName(a) == WorkName(b) <==> a == b
  {
    if WorkName(a) == WorkName(b) {
      assert Decimal(a) == WorkName(a)[|WorkNamePrefix|..];
      assert Decimal(b) == WorkName(b)[|WorkNamePrefix|..];
      DecimalInjective(a, b);
    }
  }

  /**
   * The work request's input `Data`. Each entry may be absent; the worker
   * reads whatever is there.
   */
  datatype WorkData = WorkData(activityId: Option<int>, title: Option<string>, message: Option<string>)

  /** One enqueued one-shot work request and the instant it becomes runnable. */
  datatype PendingWork = PendingWork(fireAt: int, input: WorkData)

  /** WorkManager's unique work, by the id in its name `reminder_<id>`. */
  type WorkQueue = map<int, PendingWork>

  /** Entries other than `id` are the same in both queues. */
  ghost predicate SameWorkExcept(q: WorkQueue, q': WorkQueue, id: int) {
    forall k :: k != id ==> (k in q <==> k in q') && (k in q ==> q[k] == q'[k])
  }

  /** The reminder message: the description, or a fixed text when it is empty. */
  function ReminderMessage(description: string): (m: string)
    ensures m != []
    ensures description != [] ==> m == description
  {
    if description == [] then DefaultMessage else description
  }

  /** The input data `scheduleReminder` attaches: id, title and message. */
  function ReminderInput(a: Activity): (d: WorkData)
    ensures d.activityId == Some(a.id) && d.title == Some(a.title)
    ensures d.message == Some(ReminderMessage(a.description))
  {
    WorkData(Some(a.id), Some(a.title), Some(ReminderMessage(a.description)))
  }

  /**
   * `scheduleReminder(activity, daysNotice)` at time `now`: a fire time
   * already reached is skipped silently; otherwise the work is enqueued
   * under `reminder_<id>` with policy REPLACE, superseding any pending
   * work of that name.
   */
  function ScheduleReminder(q: WorkQueue, a: Activity, daysNotice: int, now: int): (q': WorkQueue)
    ensures FireTime(a.dueDate, daysNotice) <= now ==> q' == q
    ensures FireTime(a.dueDate, daysNotice) > now ==>
      && a.id in q'
      && q'[a.id] == PendingWork(FireTime(a.dueDate, daysNotice), ReminderInput(a))
      && q'.Keys == q.Keys + {a.id}
    ensures SameWorkExcept(q, q', a.id)
  {
    match InitialDelay(FireTime(a.dueDate, daysNotice), now)
    case None => q
    case Some(delay) => q[a.id := PendingWork(now + delay, ReminderInput(a))]
  }

  /** `cancelReminder(id)`: `cancelUniqueWork("reminder_$id")`. */
  function CancelReminder(q: WorkQueue, id: int): (q': WorkQueue)
    ensures id !in q'
    ensures SameWorkExcept(q, q', id)
    ensures q'.Keys == q.Keys - {id}
  {
    q - {id}
  }

  /** Cancelling twice is cancelling once; cancelling nothing changes nothing. */
  lemma CancelIdempotent(q: WorkQueue, id: int)
    ensures CancelReminder(CancelReminder(q, id), id) == CancelReminder(q, id)
    ensures id !in q ==> CancelReminder(q, id) == q
  {
  }

  /**
   * REPLACE semantics: scheduling twice for one activity leaves one entry,
   * the later request's when it is armed; a later request that is already
   * past leaves the earlier one in place.
   */
  lemma {:induction false} ScheduleTwiceKeepsLatest(q: WorkQueue, a: Activity, d1: int, t1: int,
                                                   b: Activity, d2: int, t2: int)
    requires a.id == b.id
    ensures FireTime(b.dueDate, d2) > t2 ==>
      ScheduleReminder(ScheduleReminder(q, a, d1, t1), b, d2, t2) == ScheduleReminder(q, b, d2, t2)
    ensures FireTime(b.dueDate, d2) <= t2 ==>
      ScheduleReminder(ScheduleReminder(q, a, d1, t1), b, d2, t2) == ScheduleReminder(q, a, d1, t1)
  {
    var q1 := ScheduleReminder(q, a, d1, t1);
    if FireTime(b.dueDate, d2) > t2 {
      var lhs := ScheduleReminder(q1, b, d2, t2);
      var rhs := ScheduleReminder(q, b, d2, t2);
      assert lhs.Keys == rhs.Keys;
      forall k | k in lhs
        ensures lhs[k] == rhs[k]
      {
      }
    }
  }

  /** A reminder scheduled then cancelled for the same id leaves nothing behind for it. */
  lemma CancelAfterSchedule(q: WorkQueue, a: Activity, d: int, now: int)
    ensures CancelReminder(ScheduleReminder(q, a, d, now), a.id) == CancelReminder(q, a.id)
  {
    var lhs := CancelReminder(ScheduleReminder(q, a, d, now), a.id);
    var rhs := CancelReminder(q, a.id);
    assert lhs.Keys == rhs.Keys;
  }

  // ---------------------------------------------------------------------
  // The worker
  // ---------------------------------------------------------------------

  datatype WorkerResult = Success | Failure

  /** A posted notification: its id, title and text. */
  datatype Notification = Notification(notificationId: int, title: string, text: string)

  /** What one `doWork` call returns and posts (at most one notification). */
  datatype WorkerRun = WorkerRun(result: WorkerResult, posted: Option<Notification>)

  /** Kotlin `Long.toInt()`: keeps the low 32 bits, as a signed value. */
  function ToInt32(x: int): (r: int)
    ensures -0x8000_0000 <= r < 0x8000_0000
    ensures (x - r) % 0x1_0000_0000 == 0
    ensures -0x8000_0000 <= x < 0x8000_0000 ==> r == x
  {
    var low := x % 0x1_0000_0000;
    if low >= 0x8000_0000 then low - 0x1_0000_0000 else low
  }

  /**
   * `ReminderWorker.doWork`. A missing title or an activity id equal to the
   * sentinel -1 fails without posting. Otherwise the result is success;
   * with the notification permission granted (`permitted`) one
   * notification is posted under the id truncated to Int, titled
   * "Recordatorio: " + title, with the message (empty when missing).
   */
  function DoWork(input: WorkData, permitted: bool): (run: WorkerRun)
    ensures input.title.None? ==> run == WorkerRun(Failure, None)
    ensures input.activityId.GetOr(MissingActivityId) == MissingActivityId ==> run == WorkerRun(Failure, None)
    ensures input.title.Some? && input.activityId.GetOr(MissingActivityId) != MissingActivityId ==>
      && run.result == Success
      && (run.posted.Some? <==> permitted)
    ensures run.posted.Some? ==>
      && input.title.Some?
      && run.posted.value.title == TitlePrefix + input.title.value
      && run.posted.value.text == input.message.GetOr("")
      && run.posted.value.notificationId == ToInt32(input.activityId.value)
  {
    var activityId := input.activityId.GetOr(MissingActivityId);
    match input.title
    case None => WorkerRun(Failure, None)
    case Some(title) =>
      var message := input.message.GetOr("");
      if activityId == MissingActivityId then WorkerRun(Failure, None)
      else if !permitted then WorkerRun(Success, None)
      else WorkerRun(Success, Some(Notification(ToInt32(activityId), TitlePrefix + title, message)))
  }

  /** A queue step and what (if anything) ran in it. */
  datatype Step = Step(queue: WorkQueue, ran: Option<WorkerRun>)

  /**
   * WorkManager runs the work for `id` once its fire time is reached: the
   * entry leaves the queue and the worker runs once. Before that, or when
   * nothing is pending for `id`, nothing happens.
   */
  function RunDue(q: WorkQueue, id: int, now: int, permitted: bool): (s: Step)
    ensures s.ran.Some? <==> id in q && q[id].fireAt <= now
    ensures s.ran.Some? ==> s.queue == CancelReminder(q, id) && s.ran.value == DoWork(q[id].input, permitted)
    ensures s.ran.None? ==> s.queue == q
  {
    if id in q && q[id].fireAt <= now then Step(q - {id}, Some(DoWork(q[id].input, permitted)))
    else Step(q, None)
  }

  /**
   * End to end: a reminder armed for an activity whose id is not the
   * sentinel, run at or after its fire time with permission, posts exactly
   * the notification "Recordatorio: <title>" with the reminder message;
   * without permission it posts nothing and still succeeds.
   */
  lemma ScheduledReminderDelivers(q: WorkQueue, a: Activity, d: int, now: int, later: int, permitted: bool)
    requires FireTime(a.dueDate, d) > now
    requires later >= FireTime(a.dueDate, d)
    requires a.id != MissingActivityId
    ensures var s := RunDue(ScheduleReminder(q, a, d, now), a.id, later, permitted);
      && s.ran.Some?
      && s.ran.value.result == Success
      && a.id !in s.queue
      && (permitted ==>
            s.ran.value.posted == Some(Notification(ToInt32(a.id), TitlePrefix + a.title, ReminderMessage(a.description))))
      && (!permitted ==> s.ran.value.posted.None?)
  {
  }

  /** After cancelling, running the queue for that id never posts anything. */
  lemma CancelledNeverFires(q: WorkQueue, id: int, now: int, permitted: bool)
    ensures RunDue(CancelReminder(q, id), id, now, permitted).ran.None?
  {
  }
}
