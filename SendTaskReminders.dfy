/**
  The tasks:send-reminders console command: a loop over the task table that
  sends reminder and overdue notices through a notifier and counts them.
  Each method is proved to do what module ReminderSpec says.
 */
module SendTaskReminders {
  import opened Wrappers
  import opened Calendar
  import opened ReminderSpec
  import ReminderProperties

  /**
    The notification channel.  Every notify() call is appended to log; a call
    the channel refuses (accepts answers false) stands for notify() throwing.
   */
  class Notifier {
    var log: seq<Notice>
    const accepts: Notice -> bool

    constructor (accepts: Notice -> bool)
      ensures this.accepts == accepts && log == []
    {
      this.accepts := accepts;
      log := [];
    }

    method Notify(n: Notice) returns (ok: bool)
      modifies this
      ensures log == old(log) + [n]
      ensures ok == accepts(n)
    {
      log := log + [n];
      ok := accepts(n);
    }
  }

  /**
    sendReminder: gives up unless the reminder date is today, then tries the
    assignee and the owner (unless the owner is the assignee), each failure
    caught so that the next recipient is still tried; sent tells whether at
    least one notify() succeeded.
   */
  method SendReminder(task: TaskSnapshot, w: Window, dueDate: Instant, now: Instant, notifier: Notifier)
    returns (sent: bool)
    modifies notifier
    ensures notifier.log == old(notifier.log) + ReminderAttempt(now, task, w, dueDate, notifier.accepts).log
    ensures sent == ReminderAttempt(now, task, w, dueDate, notifier.accepts).sent
  {
    var reminderDate := GetReminderDate(dueDate, w);
    var today := StartOfDay(now);
    if !IsSameDay(reminderDate, today) {
      return false;
    }
    sent := false;
    if task.assignee.Some? {
      var ok := notifier.Notify(Notice(task.assignee.value, task.id, Reminder(w)));
      if ok {
        sent := true;
      }
    }
    if task.owner.Some? && Some(task.owner.value) != task.assignee {
      var ok := notifier.Notify(Notice(task.owner.value, task.id, Reminder(w)));
      if ok {
        sent := true;
      }
    }
    ghost var notices := NoticesTo(Recipients(task), task.id, Reminder(w));
    assert sent == AnyAccepted(notices, notifier.accepts);
  }

  /**
    sendOverdueNotification: notifies the assignee, then the owner unless the
    owner is the assignee, with no exception handling; ok is false when a
    notify() threw, which ends the method (and the run) at once.
   */
  method SendOverdueNotification(task: TaskSnapshot, notifier: Notifier) returns (ok: bool)
    modifies notifier
    ensures notifier.log == old(notifier.log)
      + UntilFirstFailure(NoticesTo(Recipients(task), task.id, Overdue), notifier.accepts)
    ensures ok == AllAccepted(NoticesTo(Recipients(task), task.id, Overdue), notifier.accepts)
  {
    ghost var notices := NoticesTo(Recipients(task), task.id, Overdue);
    if task.assignee.Some? {
      ok := notifier.Notify(Notice(task.assignee.value, task.id, Overdue));
      if !ok {
        return;
      }
    }
    if task.owner.Some? && Some(task.owner.value) != task.assignee {
      ok := notifier.Notify(Notice(task.owner.value, task.id, Overdue));
      if !ok {
        assert notices[|notices| - 1] == Notice(task.owner.value, task.id, Overdue);
        return;
      }
    }
    ok := true;
  }

  lemma AppendAssoc(a: seq<Notice>, b: seq<Notice>, c: seq<Notice>)
    ensures a + b + c == a + (b + c)
  {
  }

  /**
    The 7-day, 24-hour and 12-hour checks of handle's loop for a task whose
    due day has not started: each window that holds goes through
    sendReminder, and reminders counts those that report success.
   */
  method SendDueReminders(now: Instant, task: TaskSnapshot, dueDate: Instant, notifier: Notifier)
    returns (reminders: nat)
    requires IsCandidate(task) && dueDate == DueStart(task.dueDay.value)
    modifies notifier
    ensures notifier.log == old(notifier.log) + WindowEffect(now, task, dueDate, notifier.accepts).log
    ensures reminders == WindowEffect(now, task, dueDate, notifier.accepts).reminders
  {
    reminders := 0;
    var today := StartOfDay(now);
    var daysUntilDue := DiffInDays(today, dueDate);
    ghost var logBefore := notifier.log;
    ghost var seven, day, twelve := NoAttempt, NoAttempt, NoAttempt;
    if daysUntilDue == 7 {
      var sent := SendReminder(task, SevenDays, dueDate, now, notifier);
      seven := ReminderAttempt(now, task, SevenDays, dueDate, notifier.accepts);
      if sent {
        reminders := reminders + 1;
      }
    }
    assert notifier.log == logBefore + seven.log && reminders == Count(seven.sent);
    if daysUntilDue == 1 && IsTomorrow(dueDate, now) {
      var sent := SendReminder(task, TwentyFourHours, dueDate, now, notifier);
      day := ReminderAttempt(now, task, TwentyFourHours, dueDate, notifier.accepts);
      if sent {
        reminders := reminders + 1;
      }
    }
    AppendAssoc(logBefore, seven.log, day.log);
    assert notifier.log == logBefore + (seven.log + day.log) && reminders == Count(seven.sent) + Count(day.sent);
    var hoursUntilDue := DiffInHours(now, dueDate);
    if hoursUntilDue <= 12 && hoursUntilDue > 11 {
      var sent := SendReminder(task, TwelveHours, dueDate, now, notifier);
      twelve := ReminderAttempt(now, task, TwelveHours, dueDate, notifier.accepts);
      if sent {
        reminders := reminders + 1;
      }
    }
    AppendAssoc(logBefore, seven.log + day.log, twelve.log);
  }

  /**
    The body of handle's foreach loop for one task: skip it without a due
    date or when completed; if its due day has started, send the overdue
    notices (ok is false when one of them threw); otherwise check the
    reminder windows.
   */
  method HandleTask(now: Instant, task: TaskSnapshot, notifier: Notifier)
    returns (reminders: nat, overdue: nat, ok: bool)
    modifies notifier
    ensures notifier.log == old(notifier.log) + TaskEffect(now, task, notifier.accepts).log
    ensures ok == !TaskEffect(now, task, notifier.accepts).aborted
    ensures ok ==> reminders == TaskEffect(now, task, notifier.accepts).reminders
    ensures ok ==> overdue == TaskEffect(now, task, notifier.accepts).overdue
  {
    reminders, overdue, ok := 0, 0, true;
    if task.dueDay.None? || task.status == "completed" {
      return;
    }
    var dueDate := DueStart(task.dueDay.value);
    if IsPast(dueDate, now) {
      ok := SendOverdueNotification(task, notifier);
      overdue := 1;
      return;
    }
    reminders := SendDueReminders(now, task, dueDate, notifier);
  }

  /**
    handle: skips the run on a weekend; otherwise walks the tasks in order
    and counts what each one sent.  A refused overdue notice escapes as an
    exception and the run fails.
   */
  method Handle(now: Instant, tasks: seq<TaskSnapshot>, notifier: Notifier) returns (outcome: Outcome)
    modifies notifier
    ensures notifier.log == old(notifier.log) + RunOf(now, tasks, notifier.accepts).log
    ensures outcome == RunOf(now, tasks, notifier.accepts).outcome
  {
    if IsWeekend(now.day) {
      return Skipped;
    }
    var remindersSent := 0;
    var overdueSent := 0;
    for i := 0 to |tasks|
      invariant notifier.log == old(notifier.log) + Scan(now, tasks[..i], notifier.accepts).log
      invariant remindersSent == Scan(now, tasks[..i], notifier.accepts).reminders
      invariant overdueSent == Scan(now, tasks[..i], notifier.accepts).overdue
      invariant !Scan(now, tasks[..i], notifier.accepts).aborted
    {
      ReminderProperties.ScanStep(now, tasks, i, notifier.accepts);
      AppendAssoc(old(notifier.log), Scan(now, tasks[..i], notifier.accepts).log, TaskEffect(now, tasks[i], notifier.accepts).log);
      var reminders, overdue, ok := HandleTask(now, tasks[i], notifier);
      if !ok {
        ReminderProperties.AbortedScanIsFinal(now, tasks, i + 1, notifier.accepts);
        return Failed;
      }
      remindersSent := remindersSent + reminders;
      overdueSent := overdueSent + overdue;
    }
    assert tasks[..|tasks|] == tasks;
    outcome := Finished(remindersSent, overdueSent);
  }
}
