/**
  What one run of the daily reminder command (tasks:send-reminders) does,
  stated as functions of the injected current instant, the task table and
  the notifier's answers.  The command itself, as a loop over the tasks that
  calls a notifier, is in module SendTaskReminders and is proved to follow
  these definitions.
 */
module ReminderSpec {
  import opened Wrappers
  import opened Calendar

  type UserId = int
  type TaskId = int

  /**
    A task row as the command sees it: the due_date column (a date, so a day
    number), the status column, and the owner and assignee relations as
    eager-loaded (None when the relation finds no user).
   */
  datatype TaskSnapshot = TaskSnapshot(
    id: TaskId,
    status: string,
    dueDay: Option<int>,
    owner: Option<UserId>,
    assignee: Option<UserId>)

  /** The three reminder windows; WindowKey gives the reminder type string the notification receives. */
  datatype Window = SevenDays | TwentyFourHours | TwelveHours

  function WindowKey(w: Window): string
  {
    match w
    case SevenDays => "7_days"
    case TwentyFourHours => "24_hours"
    case TwelveHours => "12_hours"
  }

  datatype NoticeKind = Reminder(window: Window) | Overdue

  /** One notify() call: a TaskReminderNotification or a TaskOverdueNotification sent to one user. */
  datatype Notice = Notice(recipient: UserId, task: TaskId, kind: NoticeKind)

  /** The query's where-clauses and the loop's own guard: a due date is set and the task is not completed. */
  predicate IsCandidate(t: TaskSnapshot)
  {
    t.dueDay.Some? && t.status != "completed"
  }

  /** Carbon::parse($task->due_date)->startOfDay() */
  function DueStart(dueDay: int): Instant
  {
    At(dueDay, 0)
  }

  /** $dueDate->isPast(): the start of the due day is before the current instant, not before today. */
  predicate IsOverdue(now: Instant, dueDay: int)
  {
    IsPast(DueStart(dueDay), now)
  }

  /** A task due today is already overdue, unless the run happens at exactly midnight. */
  lemma OverdueIffDueTodayOrEarlier(now: Instant, dueDay: int)
    ensures IsOverdue(now, dueDay) <==> dueDay < now.day || (dueDay == now.day && now.second > 0)
  {
    if dueDay < now.day {
      assert dueDay * SecondsPerDay <= now.day * SecondsPerDay - SecondsPerDay;
    } else if dueDay > now.day {
      assert dueDay * SecondsPerDay >= now.day * SecondsPerDay + SecondsPerDay;
    }
  }

  // ---------------------------------------------------------------------
  // Reminder windows and the reminder date
  // ---------------------------------------------------------------------

  /** $daysUntilDue === 7 */
  predicate SevenDayWindow(now: Instant, dueDay: int)
  {
    DiffInDays(StartOfDay(now), DueStart(dueDay)) == 7
  }

  /** $daysUntilDue === 1 && $dueDate->isTomorrow() */
  predicate TwentyFourHourWindow(now: Instant, dueDay: int)
  {
    DiffInDays(StartOfDay(now), DueStart(dueDay)) == 1 && IsTomorrow(DueStart(dueDay), now)
  }

  /** $hoursUntilDue <= 12 && $hoursUntilDue > 11, the hours truncated toward zero */
  predicate TwelveHourWindow(now: Instant, dueDay: int)
  {
    var hours := DiffInHours(now, DueStart(dueDay));
    hours <= 12 && hours > 11
  }

  predicate InWindow(now: Instant, dueDay: int, w: Window)
  {
    match w
    case SevenDays => SevenDayWindow(now, dueDay)
    case TwentyFourHours => TwentyFourHourWindow(now, dueDay)
    case TwelveHours => TwelveHourWindow(now, dueDay)
  }

  /**
    The 12-hour window holds exactly when the run falls after 11:00 and no
    later than 12:00 on the day before the due day.
   */
  lemma TwelveHourBand(now: Instant, dueDay: int)
    ensures TwelveHourWindow(now, dueDay) <==> now.day + 1 == dueDay && 39600 < now.second <= 43200
  {
    var diff := Seconds(DueStart(dueDay)) - Seconds(now);
    assert diff == (dueDay - now.day) * SecondsPerDay - now.second;
    if dueDay - now.day >= 2 {
      assert diff > 86400;
    } else if dueDay - now.day <= 0 {
      assert diff <= 0;
    } else {
      assert diff == 86400 - now.second;
    }
  }

  /** The 7-day and the 24-hour windows never hold together. */
  lemma DayWindowsExclusive(now: Instant, dueDay: int)
    ensures !(SevenDayWindow(now, dueDay) && TwentyFourHourWindow(now, dueDay))
    ensures SevenDayWindow(now, dueDay) <==> dueDay == now.day + 7
    ensures TwentyFourHourWindow(now, dueDay) <==> dueDay == now.day + 1
  {
  }

  /** Where each window starts: the due instant minus 7 days, 1 day or 12 hours. */
  function WindowStart(due: Instant, w: Window): (r: Instant)
    ensures Seconds(due) - Seconds(r) == match w
      case SevenDays => 7 * SecondsPerDay
      case TwentyFourHours => SecondsPerDay
      case TwelveHours => 12 * SecondsPerHour
  {
    match w
    case SevenDays => SubDays(due, 7)
    case TwentyFourHours => SubDays(due, 1)
    case TwelveHours => SubHours(due, 12)
  }

  /**
    getReminderDate: the window's start, moved back off Saturday or Sunday,
    at the start of its day.  The result is a working day, never later than
    the window's start and at most two days earlier, and unchanged when the
    window starts on a working day.
   */
  function GetReminderDate(due: Instant, w: Window): (r: Instant)
    ensures r.second == 0
    ensures !IsWeekend(r.day)
    ensures WindowStart(due, w).day - 2 <= r.day <= WindowStart(due, w).day
    ensures forall d :: r.day < d <= WindowStart(due, w).day ==> IsWeekend(d)
    ensures !IsWeekend(WindowStart(due, w).day) ==> r.day == WindowStart(due, w).day
  {
    StartOfDay(ShiftOffWeekend(WindowStart(due, w)))
  }

  /**
    Inside a run the weekend shift never matters: the run only happens on a
    working day, and whenever a window holds, its unshifted start is today,
    so the reminder date is today.
   */
  lemma WeekendShiftNeverChangesOutcome(now: Instant, dueDay: int, w: Window)
    requires !IsWeekend(now.day)
    requires InWindow(now, dueDay, w)
    ensures WindowStart(DueStart(dueDay), w).day == now.day
    ensures IsSameDay(GetReminderDate(DueStart(dueDay), w), now)
  {
    match w
    case SevenDays =>
    case TwentyFourHours =>
    case TwelveHours =>
      TwelveHourBand(now, dueDay);
      var s := WindowStart(DueStart(dueDay), w);
      assert Seconds(s) == (dueDay - 1) * SecondsPerDay + 43200;
      assert s.day * SecondsPerDay + s.second == (dueDay - 1) * SecondsPerDay + 43200;
      assert s.day == dueDay - 1;
  }

  // ---------------------------------------------------------------------
  // Recipients and notifier answers
  // ---------------------------------------------------------------------

  /**
    The users notified about a task, in order: the assignee if there is
    one, then the owner unless the owner is that same user.
   */
  function Recipients(t: TaskSnapshot): (rs: seq<UserId>)
    ensures |rs| <= 2
    ensures forall u :: u in rs <==> t.assignee == Some(u) || t.owner == Some(u)
    ensures |rs| == 2 ==> rs[0] != rs[1]
    ensures t.assignee.Some? ==> |rs| > 0 && rs[0] == t.assignee.value
    ensures t.owner.Some? && t.owner == t.assignee ==> |rs| == 1
    ensures t.owner.Some? ==> |rs| > 0
  {
    (if t.assignee.Some? then [t.assignee.value] else [])
    + (if t.owner.Some? && Some(t.owner.value) != t.assignee then [t.owner.value] else [])
  }

  /** One notice of the given kind per recipient, in the recipients' order. */
  function NoticesTo(rs: seq<UserId>, id: TaskId, kind: NoticeKind): (ns: seq<Notice>)
    ensures |ns| == |rs|
    ensures forall i :: 0 <= i < |rs| ==> ns[i] == Notice(rs[i], id, kind)
  {
    if rs == [] then [] else [Notice(rs[0], id, kind)] + NoticesTo(rs[1..], id, kind)
  }

  predicate AllAccepted(ns: seq<Notice>, accepts: Notice -> bool)
  {
    forall i :: 0 <= i < |ns| ==> accepts(ns[i])
  }

  predicate AnyAccepted(ns: seq<Notice>, accepts: Notice -> bool)
  {
    exists i :: 0 <= i < |ns| && accepts(ns[i])
  }

  /**
    The notices attempted when a failing notify() is not caught: all of
    them if every one is accepted, otherwise those up to and including the
    first one refused.
   */
  function UntilFirstFailure(ns: seq<Notice>, accepts: Notice -> bool): (r: seq<Notice>)
    ensures r <= ns
    ensures AllAccepted(ns, accepts) ==> r == ns
    ensures !AllAccepted(ns, accepts) ==>
      |r| > 0 && !accepts(r[|r| - 1]) && AllAccepted(r[..|r| - 1], accepts)
  {
    if ns == [] then []
    else if accepts(ns[0]) then
      var rest := UntilFirstFailure(ns[1..], accepts);
      assert !AllAccepted(ns[1..], accepts) ==> (ns[0..1] + rest)[..|rest|] == [ns[0]] + rest[..|rest| - 1];
      [ns[0]] + rest
    else [ns[0]]
  }

  // ---------------------------------------------------------------------
  // One reminder, one task, one run
  // ---------------------------------------------------------------------

  /** What sendReminder does: the notices it attempts and whether it reports the reminder as sent. */
  datatype Attempt = Attempt(log: seq<Notice>, sent: bool)

  /**
    sendReminder: nothing unless the reminder date is today; otherwise every
    recipient is tried in turn, whatever the earlier ones answered, and the
    reminder counts as sent when at least one recipient accepted it.
   */
  function ReminderAttempt(now: Instant, t: TaskSnapshot, w: Window, due: Instant, accepts: Notice -> bool): (a: Attempt)
    ensures a.log == if IsSameDay(GetReminderDate(due, w), now)
      then NoticesTo(Recipients(t), t.id, Reminder(w)) else []
    ensures a.sent <==> (IsSameDay(GetReminderDate(due, w), now)
      && exists u :: u in Recipients(t) && accepts(Notice(u, t.id, Reminder(w))))
  {
    var notices := NoticesTo(Recipients(t), t.id, Reminder(w));
    if !IsSameDay(GetReminderDate(due, w), now) then Attempt([], false)
    else
      assert forall u :: u in Recipients(t) ==> exists i :: 0 <= i < |notices| && notices[i] == Notice(u, t.id, Reminder(w));
      Attempt(notices, AnyAccepted(notices, accepts))
  }

  function Count(b: bool): nat
  {
    if b then 1 else 0
  }

  /** What handling one task adds to the run: notices attempted, counter increments, and whether an exception escaped. */
  datatype Effect = Effect(log: seq<Notice>, reminders: nat, overdue: nat, aborted: bool)

  const NoEffect := Effect([], 0, 0, false)
  const NoAttempt := Attempt([], false)

  /** The three window checks for a task whose due day has not started yet. */
  function WindowEffect(now: Instant, t: TaskSnapshot, due: Instant, accepts: Notice -> bool): Effect
    requires IsCandidate(t)
  {
    var dueDay := t.dueDay.value;
    var seven := if SevenDayWindow(now, dueDay) then ReminderAttempt(now, t, SevenDays, due, accepts) else NoAttempt;
    var day := if TwentyFourHourWindow(now, dueDay) then ReminderAttempt(now, t, TwentyFourHours, due, accepts) else NoAttempt;
    var twelve := if TwelveHourWindow(now, dueDay) then ReminderAttempt(now, t, TwelveHours, due, accepts) else NoAttempt;
    Effect(seven.log + day.log + twelve.log, Count(seven.sent) + Count(day.sent) + Count(twelve.sent), 0, false)
  }

  /** The body of handle's foreach loop for one task. */
  function TaskEffect(now: Instant, t: TaskSnapshot, accepts: Notice -> bool): Effect
  {
    if !IsCandidate(t) then NoEffect
    else if IsOverdue(now, t.dueDay.value) then
      var notices := NoticesTo(Recipients(t), t.id, Overdue);
      Effect(UntilFirstFailure(notices, accepts), 0, 1, !AllAccepted(notices, accepts))
    else
      WindowEffect(now, t, DueStart(t.dueDay.value), accepts)
  }

  /** The loop over the tasks in order, stopping at the first escaping exception. */
  function Scan(now: Instant, tasks: seq<TaskSnapshot>, accepts: Notice -> bool): Effect
  {
    if tasks == [] then NoEffect
    else
      var before := Scan(now, tasks[..|tasks| - 1], accepts);
      if before.aborted then before
      else
        var e := TaskEffect(now, tasks[|tasks| - 1], accepts);
        Effect(before.log + e.log, before.reminders + e.reminders, before.overdue + e.overdue, e.aborted)
  }

  /**
    How a run ends: skipped on a weekend, finished with its two counters
    (both reported and exit code 0), or failed by an exception from an
    overdue notice.
   */
  datatype Outcome = Skipped | Finished(remindersSent: nat, overdueSent: nat) | Failed

  datatype Run = Run(outcome: Outcome, log: seq<Notice>)

  /** handle */
  function RunOf(now: Instant, tasks: seq<TaskSnapshot>, accepts: Notice -> bool): Run
  {
    if IsWeekend(now.day) then Run(Skipped, [])
    else
      var s := Scan(now, tasks, accepts);
      Run(if s.aborted then Failed else Finished(s.reminders, s.overdue), s.log)
  }
}
