/**
  Properties of a run of the reminder command, proved about the
  definitions in ReminderSpec: what a weekend run, a closed task and an
  overdue task produce, that the weekend shift never matters inside a run,
  how the counters relate to the tasks, and that a refused overdue notice
  ends the run.
 */
module ReminderProperties {
  import opened Wrappers
  import opened Calendar
  import opened ReminderSpec

  /** On Saturday and Sunday the run is skipped before any task is looked at. */
  lemma WeekendRunSendsNothing(now: Instant, tasks: seq<TaskSnapshot>, accepts: Notice -> bool)
    requires IsWeekend(now.day)
    ensures RunOf(now, tasks, accepts) == Run(Skipped, [])
  {
  }

  /** A completed task, or one without a due date, is never notified about and counts for nothing. */
  lemma ClosedTaskSendsNothing(now: Instant, t: TaskSnapshot, accepts: Notice -> bool)
    requires !IsCandidate(t)
    ensures TaskEffect(now, t, accepts) == NoEffect
  {
  }

  /**
    An overdue task gets overdue notices only, to its recipients in order,
    counts exactly once towards overdueSent however many recipients it has,
    and raises an exception exactly when some recipient refuses.
   */
  lemma OverdueTaskEffect(now: Instant, t: TaskSnapshot, accepts: Notice -> bool)
    requires IsCandidate(t) && IsOverdue(now, t.dueDay.value)
    ensures TaskEffect(now, t, accepts).overdue == 1
    ensures TaskEffect(now, t, accepts).reminders == 0
    ensures TaskEffect(now, t, accepts).log <= NoticesTo(Recipients(t), t.id, Overdue)
    ensures TaskEffect(now, t, accepts).aborted <==>
      exists u :: u in Recipients(t) && !accepts(Notice(u, t.id, Overdue))
    ensures !TaskEffect(now, t, accepts).aborted ==>
      TaskEffect(now, t, accepts).log == NoticesTo(Recipients(t), t.id, Overdue)
  {
    var notices := NoticesTo(Recipients(t), t.id, Overdue);
    if !AllAccepted(notices, accepts) {
      var i :| 0 <= i < |notices| && !accepts(notices[i]);
      assert notices[i].recipient in Recipients(t);
    }
  }

  /** The notices a window adds on a working day, once the date gate is known to pass. */
  function WindowLog(now: Instant, t: TaskSnapshot, w: Window): seq<Notice>
    requires IsCandidate(t)
  {
    if InWindow(now, t.dueDay.value, w) then NoticesTo(Recipients(t), t.id, Reminder(w)) else []
  }

  predicate Delivered(now: Instant, t: TaskSnapshot, w: Window, accepts: Notice -> bool)
    requires IsCandidate(t)
  {
    InWindow(now, t.dueDay.value, w) && exists u :: u in Recipients(t) && accepts(Notice(u, t.id, Reminder(w)))
  }

  /**
    For a task that is not overdue, on a working day: each window whose
    condition holds notifies every recipient (one refusal does not stop the
    next attempt), counts one reminder when someone accepted, and the
    reminder date check never suppresses anything.
   */
  lemma WorkingDayTaskEffect(now: Instant, t: TaskSnapshot, accepts: Notice -> bool)
    requires !IsWeekend(now.day) && IsCandidate(t) && !IsOverdue(now, t.dueDay.value)
    ensures TaskEffect(now, t, accepts) == Effect(
      WindowLog(now, t, SevenDays) + WindowLog(now, t, TwentyFourHours) + WindowLog(now, t, TwelveHours),
      Count(Delivered(now, t, SevenDays, accepts)) + Count(Delivered(now, t, TwentyFourHours, accepts))
        + Count(Delivered(now, t, TwelveHours, accepts)),
      0, false)
  {
    var dueDay := t.dueDay.value;
    if SevenDayWindow(now, dueDay) { WeekendShiftNeverChangesOutcome(now, dueDay, SevenDays); }
    if TwentyFourHourWindow(now, dueDay) { WeekendShiftNeverChangesOutcome(now, dueDay, TwentyFourHours); }
    if TwelveHourWindow(now, dueDay) { WeekendShiftNeverChangesOutcome(now, dueDay, TwelveHours); }
  }

  /** The 7-day and 24-hour windows exclude each other, so a task adds at most two reminders to a run. */
  lemma AtMostTwoRemindersPerTask(now: Instant, t: TaskSnapshot, accepts: Notice -> bool)
    ensures TaskEffect(now, t, accepts).reminders <= 2
  {
    if IsCandidate(t) {
      DayWindowsExclusive(now, t.dueDay.value);
    }
  }

  /** What a notice in a task's effect says about that task and the run's instant. */
  predicate Justified(now: Instant, t: TaskSnapshot, n: Notice)
  {
    IsCandidate(t) && n.task == t.id && n.recipient in Recipients(t)
    && (n.kind == Overdue <==> IsOverdue(now, t.dueDay.value))
    && (n.kind.Reminder? ==> InWindow(now, t.dueDay.value, n.kind.window))
  }

  lemma TaskNoticesJustified(now: Instant, t: TaskSnapshot, accepts: Notice -> bool)
    ensures forall n :: n in TaskEffect(now, t, accepts).log ==> Justified(now, t, n)
  {
    if IsCandidate(t) {
      var rs := Recipients(t);
      forall w: Window, i | 0 <= i < |rs| ensures NoticesTo(rs, t.id, Reminder(w))[i].recipient in rs {
      }
      if IsOverdue(now, t.dueDay.value) {
        forall i | 0 <= i < |rs| ensures NoticesTo(rs, t.id, Overdue)[i].recipient in rs {
        }
      }
    }
  }

  /** Every notice of a run comes from handling one of the run's tasks. */
  lemma {:induction false} ScanNoticesComeFromTasks(now: Instant, tasks: seq<TaskSnapshot>, accepts: Notice -> bool)
    ensures forall n :: n in Scan(now, tasks, accepts).log ==>
      exists t :: t in tasks && n in TaskEffect(now, t, accepts).log
  {
    if tasks != [] {
      var init, last := tasks[..|tasks| - 1], tasks[|tasks| - 1];
      ScanNoticesComeFromTasks(now, init, accepts);
      forall n | n in Scan(now, tasks, accepts).log
        ensures exists t :: t in tasks && n in TaskEffect(now, t, accepts).log
      {
        if n in Scan(now, init, accepts).log {
          var t :| t in init && n in TaskEffect(now, t, accepts).log;
          assert t in tasks;
        } else {
          assert last in tasks && n in TaskEffect(now, last, accepts).log;
        }
      }
    }
  }

  /**
    Every notice of a run is about an open task with a due date, goes to
    one of that task's recipients, is an overdue notice exactly when the
    task is overdue, and is a reminder only inside that reminder's window.
   */
  lemma NoticesOnlyForOpenTasks(now: Instant, tasks: seq<TaskSnapshot>, accepts: Notice -> bool)
    ensures forall n :: n in RunOf(now, tasks, accepts).log ==> exists t :: t in tasks && Justified(now, t, n)
  {
    if !IsWeekend(now.day) {
      ScanNoticesComeFromTasks(now, tasks, accepts);
      forall n | n in RunOf(now, tasks, accepts).log ensures exists t :: t in tasks && Justified(now, t, n) {
        var t :| t in tasks && n in TaskEffect(now, t, accepts).log;
        TaskNoticesJustified(now, t, accepts);
      }
    }
  }

  /** A 7-day reminder only goes out on a working day exactly seven days before its task's due day. */
  lemma SevenDayReminderOnlySevenDaysAhead(now: Instant, tasks: seq<TaskSnapshot>, accepts: Notice -> bool)
    ensures forall n :: n in RunOf(now, tasks, accepts).log && n.kind == Reminder(SevenDays) ==>
      !IsWeekend(now.day)
      && exists t :: t in tasks && t.id == n.task && IsCandidate(t) && t.dueDay.value == now.day + 7
  {
    NoticesOnlyForOpenTasks(now, tasks, accepts);
    forall n | n in RunOf(now, tasks, accepts).log && n.kind == Reminder(SevenDays)
      ensures exists t :: t in tasks && t.id == n.task && IsCandidate(t) && t.dueDay.value == now.day + 7
    {
      var t :| t in tasks && Justified(now, t, n);
      DayWindowsExclusive(now, t.dueDay.value);
    }
  }

  /**
    So a task whose due day minus seven is a Saturday or a Sunday never gets
    a 7-day reminder, whatever day the command runs: the Friday the weekend
    shift points to is eight or nine days before the due day, outside the
    7-day window.
   */
  lemma SevenDayReminderNeverForWeekendDate(now: Instant, tasks: seq<TaskSnapshot>, accepts: Notice -> bool, t: TaskSnapshot)
    requires t in tasks && IsCandidate(t) && IsWeekend(t.dueDay.value - 7)
    requires forall u :: u in tasks && u.id == t.id ==> u == t
    ensures forall n :: n in RunOf(now, tasks, accepts).log ==> !(n.task == t.id && n.kind == Reminder(SevenDays))
  {
    SevenDayReminderOnlySevenDaysAhead(now, tasks, accepts);
  }

  /**
    No 12-hour reminder goes out unless the run happens after 11:00 and no
    later than 12:00; in particular none from a run at 10:00.
   */
  lemma TwelveHourReminderOnlyBetweenElevenAndNoon(now: Instant, tasks: seq<TaskSnapshot>, accepts: Notice -> bool)
    requires !(39600 < now.second <= 43200)
    ensures forall n :: n in RunOf(now, tasks, accepts).log ==> n.kind != Reminder(TwelveHours)
  {
    NoticesOnlyForOpenTasks(now, tasks, accepts);
    forall n | n in RunOf(now, tasks, accepts).log ensures n.kind != Reminder(TwelveHours) {
      var t :| t in tasks && Justified(now, t, n);
      TwelveHourBand(now, t.dueDay.value);
    }
  }

  /** The number of tasks that the run treats as overdue. */
  function CountOverdue(now: Instant, tasks: seq<TaskSnapshot>): nat
  {
    if tasks == [] then 0
    else
      var last := tasks[|tasks| - 1];
      CountOverdue(now, tasks[..|tasks| - 1]) + Count(IsCandidate(last) && IsOverdue(now, last.dueDay.value))
  }

  /**
    overdueSent counts the overdue tasks, one each, and remindersSent is at
    most two per task.
   */
  lemma {:induction false} ScanCounters(now: Instant, tasks: seq<TaskSnapshot>, accepts: Notice -> bool)
    ensures Scan(now, tasks, accepts).reminders <= 2 * |tasks|
    ensures Scan(now, tasks, accepts).overdue <= CountOverdue(now, tasks)
    ensures !Scan(now, tasks, accepts).aborted ==> Scan(now, tasks, accepts).overdue == CountOverdue(now, tasks)
  {
    if tasks != [] {
      var init, last := tasks[..|tasks| - 1], tasks[|tasks| - 1];
      ScanCounters(now, init, accepts);
      AtMostTwoRemindersPerTask(now, last, accepts);
      if IsCandidate(last) && IsOverdue(now, last.dueDay.value) {
        OverdueTaskEffect(now, last, accepts);
      }
    }
  }

  /** Handling this task raises an exception: it is overdue and one of its overdue notices is refused. */
  predicate OverdueRefused(now: Instant, t: TaskSnapshot, accepts: Notice -> bool)
  {
    IsCandidate(t) && IsOverdue(now, t.dueDay.value)
    && exists u :: u in Recipients(t) && !accepts(Notice(u, t.id, Overdue))
  }

  /** Handling one task raises an exception exactly when an overdue notice is refused, the last one it attempts. */
  lemma TaskAbortsIffOverdueRefused(now: Instant, t: TaskSnapshot, accepts: Notice -> bool)
    ensures TaskEffect(now, t, accepts).aborted <==> OverdueRefused(now, t, accepts)
    ensures TaskEffect(now, t, accepts).aborted ==>
      var log := TaskEffect(now, t, accepts).log;
      |log| > 0 && log[|log| - 1].kind == Overdue && !accepts(log[|log| - 1])
  {
    if IsCandidate(t) && IsOverdue(now, t.dueDay.value) {
      OverdueTaskEffect(now, t, accepts);
      var notices := NoticesTo(Recipients(t), t.id, Overdue);
      if !AllAccepted(notices, accepts) {
        var e := UntilFirstFailure(notices, accepts);
        assert e[|e| - 1] == notices[|e| - 1];
      }
    }
  }

  /** Some task of the run is overdue and has a recipient who refuses its overdue notice. */
  predicate SomeOverdueRefused(now: Instant, tasks: seq<TaskSnapshot>, accepts: Notice -> bool)
  {
    exists i :: 0 <= i < |tasks| && OverdueRefused(now, tasks[i], accepts)
  }

  lemma SomeOverdueRefusedStep(now: Instant, tasks: seq<TaskSnapshot>, accepts: Notice -> bool)
    requires tasks != []
    ensures SomeOverdueRefused(now, tasks, accepts) <==>
      SomeOverdueRefused(now, tasks[..|tasks| - 1], accepts) || OverdueRefused(now, tasks[|tasks| - 1], accepts)
  {
    var init := tasks[..|tasks| - 1];
    if SomeOverdueRefused(now, init, accepts) {
      var i :| 0 <= i < |init| && OverdueRefused(now, init[i], accepts);
      assert tasks[i] == init[i];
    }
    if SomeOverdueRefused(now, tasks, accepts) {
      var i :| 0 <= i < |tasks| && OverdueRefused(now, tasks[i], accepts);
      if i < |init| {
        assert tasks[i] == init[i];
      }
    }
  }

  /**
    A refused overdue notice is fatal: the loop aborts exactly when some task
    is overdue with a refusing recipient.
   */
  lemma {:induction false} OverdueFailureIsFatal(now: Instant, tasks: seq<TaskSnapshot>, accepts: Notice -> bool)
    ensures Scan(now, tasks, accepts).aborted <==> SomeOverdueRefused(now, tasks, accepts)
  {
    if tasks != [] {
      OverdueFailureIsFatal(now, tasks[..|tasks| - 1], accepts);
      TaskAbortsIffOverdueRefused(now, tasks[|tasks| - 1], accepts);
      SomeOverdueRefusedStep(now, tasks, accepts);
    }
  }

  /** When the loop aborts, the refused overdue notice is the last notice attempted in the run. */
  lemma {:induction false} AbortEndsWithRefusedOverdue(now: Instant, tasks: seq<TaskSnapshot>, accepts: Notice -> bool)
    ensures Scan(now, tasks, accepts).aborted ==>
      var log := Scan(now, tasks, accepts).log;
      |log| > 0 && log[|log| - 1].kind == Overdue && !accepts(log[|log| - 1])
  {
    if tasks != [] {
      var init, last := tasks[..|tasks| - 1], tasks[|tasks| - 1];
      AbortEndsWithRefusedOverdue(now, init, accepts);
      TaskAbortsIffOverdueRefused(now, last, accepts);
      var before := Scan(now, init, accepts);
      if !before.aborted {
        var e := TaskEffect(now, last, accepts);
        if e.aborted {
          assert (before.log + e.log)[|before.log + e.log| - 1] == e.log[|e.log| - 1];
        }
      }
    }
  }

  /** One more step of the loop, while it has not aborted, appends that task's effect. */
  lemma ScanStep(now: Instant, tasks: seq<TaskSnapshot>, i: nat, accepts: Notice -> bool)
    requires i < |tasks| && !Scan(now, tasks[..i], accepts).aborted
    ensures var before, e := Scan(now, tasks[..i], accepts), TaskEffect(now, tasks[i], accepts);
      Scan(now, tasks[..i + 1], accepts)
        == Effect(before.log + e.log, before.reminders + e.reminders, before.overdue + e.overdue, e.aborted)
  {
    assert tasks[..i + 1][..i] == tasks[..i];
  }

  /** Once the loop has aborted, the tasks after that point change nothing. */
  lemma {:induction false} AbortedScanIsFinal(now: Instant, tasks: seq<TaskSnapshot>, k: nat, accepts: Notice -> bool)
    requires k <= |tasks| && Scan(now, tasks[..k], accepts).aborted
    ensures Scan(now, tasks, accepts) == Scan(now, tasks[..k], accepts)
  {
    if k < |tasks| {
      var init := tasks[..|tasks| - 1];
      assert init[..k] == tasks[..k];
      AbortedScanIsFinal(now, init, k, accepts);
    } else {
      assert tasks[..k] == tasks;
    }
  }

  /**
    How a run ends: skipped exactly on weekends, failed exactly when an
    overdue notice is refused, and otherwise finished with overdueSent equal
    to the number of overdue tasks and remindersSent at most two per task.
   */
  lemma RunOutcome(now: Instant, tasks: seq<TaskSnapshot>, accepts: Notice -> bool)
    ensures RunOf(now, tasks, accepts).outcome.Skipped? <==> IsWeekend(now.day)
    ensures RunOf(now, tasks, accepts).outcome.Failed? <==>
      !IsWeekend(now.day) && SomeOverdueRefused(now, tasks, accepts)
    ensures RunOf(now, tasks, accepts).outcome.Finished? ==>
      RunOf(now, tasks, accepts).outcome.overdueSent == CountOverdue(now, tasks)
      && RunOf(now, tasks, accepts).outcome.remindersSent <= 2 * |tasks|
  {
    ScanCounters(now, tasks, accepts);
    OverdueFailureIsFatal(now, tasks, accepts);
  }
}
