# Task reminders, policies and audit trail

A model of the core of a Laravel task tracker:

- the `tasks:send-reminders` console command, which runs on working days. For each open task with a due date it sends overdue notices to the assignee and the owner, or 7-day, 24-hour and 12-hour reminders when the reminder date computed from the due date is today;
- the reminder notification: its mail lines and its stored array form;
- the task and comment authorization policies;
- the `LogsActivity` trait, which writes an audit record for each created, updated or deleted model.

Modules:

- `Calendar`: instants as a day number (days since 1970-01-01) and a second of the day, with Carbon's weekday numbering. It provides `subDays`, `subHours`, `startOfDay`, `isPast`, `isSameDay` and `isTomorrow`. It also has the signed `diffInDays` and `diffInHours`, truncated toward zero as the `(int)` casts do, and the weekend shift.
- `ReminderSpec`: the specification of the command, written as functions.
  - Which tasks the query yields, and when a task is overdue.
  - The three window tests.
  - `getReminderDate`.
  - Who is notified, and what one reminder attempt does.
  - The effect of handling one task (`TaskEffect`), the loop up to the first escaping exception (`Scan`), and the whole run (`RunOf`).
- `ReminderProperties`: lemmas about the specification.
- `SendTaskReminders`: the command written imperatively.
  - A `Notifier` class appends every `notify()` call to its `log`. A call it refuses stands for `notify()` throwing.
  - The methods `SendReminder`, `SendOverdueNotification`, `HandleTask` and `Handle` each keep the source's control flow.
  - Each method is proved to append exactly the notices that `ReminderSpec` says, and to return the counters it says.
- `TaskPolicy` and `CommentPolicy`: the authorization rules as boolean functions.
- `LogsActivity`: action names, the action map, and the audit record each hook writes.
- `TaskReminderNotification`: the reminder line, the status and priority labels, the `Y-m-d` date text (Hinnant's civil-from-days conversion), the mail, and the array payload.

Where the written design and the code disagree, the model follows the code:

- A task due today is overdue. The due date is taken at the start of its day, and `isPast` compares it with the current time, so any moment after midnight makes it past.
- A failing overdue notice is not isolated. `sendOverdueNotification` has no `try`/`catch`, so the exception leaves `handle` and the run ends. The model's outcome is then `Failed`, and the log keeps the notices attempted so far.
- The weekend shift in `getReminderDate` never changes anything inside `handle`. A window only holds when its reminder date falls on today, and the command never runs on a weekend. So a 7-day reminder whose date minus seven days is a Saturday or Sunday is never sent (`SevenDayReminderNeverForWeekendDate`).
- The 12-hour reminder is sent only when the command runs after 11:00 and at or before 12:00 on the day before the due date. A run at the scheduled 10:00 never sends it (`TwelveHourReminderOnlyBetweenElevenAndNoon`).

## Model

| member | source | states |
|---|---|---|
| Calendar.DayOfWeek | app/Console/Commands/SendTaskReminders.php:22 | the weekday of a day number is in 0..6, with Sunday 0 and Saturday 6; the anchoring is stated by WeekdaysCycle |
| Calendar.WeekdaysCycle | app/Console/Commands/SendTaskReminders.php:22 | day 0 (1970-01-01) is a Thursday, each next day is the next weekday modulo 7, and weekdays repeat every seven days; together these fix the weekday of every day |
| Calendar.WeekendFollowsFriday | app/Console/Commands/SendTaskReminders.php:126-130 | after a Friday come a Saturday and a Sunday, and then a weekday again |
| Calendar.SubDays | app/Console/Commands/SendTaskReminders.php:120-121 | the result lies exactly n days earlier, in seconds |
| Calendar.SubHours | app/Console/Commands/SendTaskReminders.php:122 | the result lies exactly h hours earlier, in seconds, carried across midnight |
| Calendar.TruncDiv | app/Console/Commands/SendTaskReminders.php:41 | the quotient rounds toward zero, like PHP's (int) cast, for both signs |
| Calendar.DiffInHours | app/Console/Commands/SendTaskReminders.php:61 | the signed whole hours between two instants, truncated toward zero: bounded by the seconds difference on both sides, for either sign |
| Calendar.DiffInDays | app/Console/Commands/SendTaskReminders.php:41 | between two midnights the signed difference is the difference of the day numbers |
| Calendar.ShiftOffWeekend | app/Console/Commands/SendTaskReminders.php:126-130 | the result is a weekday at most two days earlier, every skipped day is a weekend day, and a weekday is left unchanged |
| ReminderSpec.IsCandidate | app/Console/Commands/SendTaskReminders.php:27-38 | a task the query yields: it has a due date and is not completed; ClosedTaskSendsNothing states that any other task has no effect |
| ReminderSpec.IsOverdue | app/Console/Commands/SendTaskReminders.php:40-43 | the start of the due day is past; characterised by OverdueIffDueTodayOrEarlier |
| ReminderSpec.OverdueIffDueTodayOrEarlier | app/Console/Commands/SendTaskReminders.php:40-43 | a task is overdue exactly when its due day is before today, or is today and midnight has passed |
| ReminderSpec.SevenDayWindow | app/Console/Commands/SendTaskReminders.php:41-49 | the 7-day test on the whole days from today to the due day; DayWindowsExclusive proves it holds iff the task is due in seven days |
| ReminderSpec.TwentyFourHourWindow | app/Console/Commands/SendTaskReminders.php:55 | the 24-hour test; DayWindowsExclusive proves it holds iff the task is due tomorrow |
| ReminderSpec.TwelveHourWindow | app/Console/Commands/SendTaskReminders.php:61-62 | the 12-hour test on the truncated hours until the due date; characterised by TwelveHourBand |
| ReminderSpec.TwelveHourBand | app/Console/Commands/SendTaskReminders.php:61-62 | the 12-hour test holds exactly on the day before the due day, after 11:00 and at or before 12:00 |
| ReminderSpec.DayWindowsExclusive | app/Console/Commands/SendTaskReminders.php:49-59 | the 7-day test holds exactly when the task is due in seven days, the 24-hour test exactly when it is due tomorrow, and never both |
| ReminderSpec.WindowStart | app/Console/Commands/SendTaskReminders.php:119-124 | the unshifted reminder date is 7 days, 1 day or 12 hours before the due date |
| ReminderSpec.GetReminderDate | app/Console/Commands/SendTaskReminders.php:117-133 | the reminder date is a midnight on a weekday, at most two days before the window start; only weekend days are skipped, and a weekday window start is kept |
| ReminderSpec.WeekendShiftNeverChangesOutcome | app/Console/Commands/SendTaskReminders.php:22-25 | on a working day, whenever a window test holds, the reminder date is today |
| ReminderSpec.Recipients | app/Console/Commands/SendTaskReminders.php:85-101 | at most two recipients, each the assignee or the owner, the assignee first, and the owner not twice |
| ReminderSpec.NoticesTo | app/Console/Commands/SendTaskReminders.php:87 | one notice per recipient, in order, about the task and of the given kind |
| ReminderSpec.UntilFirstFailure | app/Console/Commands/SendTaskReminders.php:106-115 | the attempted notices form a prefix; all are attempted when all are accepted, and otherwise the attempts end with the first refused one |
| ReminderSpec.ReminderAttempt | app/Console/Commands/SendTaskReminders.php:74-104 | if the reminder date is not today nothing is sent; otherwise every recipient is tried, and the reminder counts as sent iff some recipient accepted it |
| ReminderSpec.WindowEffect | app/Console/Commands/SendTaskReminders.php:49-66 | the three window checks of a task that is not overdue; WorkingDayTaskEffect and AtMostTwoRemindersPerTask state what they send and count, and SendDueReminders is proved to do it |
| ReminderSpec.TaskEffect | app/Console/Commands/SendTaskReminders.php:35-66 | one loop iteration: no effect, the overdue notices, or the window checks; stated by ClosedTaskSendsNothing, OverdueTaskEffect, WorkingDayTaskEffect and TaskNoticesJustified, and HandleTask is proved to do it |
| ReminderSpec.Scan | app/Console/Commands/SendTaskReminders.php:35-67 | the loop over the tasks in order, stopping at the first escaping exception; stated by ScanCounters, ScanNoticesComeFromTasks, OverdueFailureIsFatal and AbortedScanIsFinal |
| ReminderSpec.RunOf | app/Console/Commands/SendTaskReminders.php:17-72 | the whole run: skipped on a weekend, otherwise the loop with its outcome; stated by RunOutcome and NoticesOnlyForOpenTasks, and Handle is proved to do it |
| ReminderProperties.WeekendRunSendsNothing | app/Console/Commands/SendTaskReminders.php:22-25 | a weekend run sends nothing and is skipped |
| ReminderProperties.ClosedTaskSendsNothing | app/Console/Commands/SendTaskReminders.php:27-38 | a task without a due date, or a completed one, has no effect |
| ReminderProperties.OverdueTaskEffect | app/Console/Commands/SendTaskReminders.php:43-47 | an overdue task counts one overdue notice and no reminder; it attempts a prefix of its overdue notices, and it aborts iff some recipient refuses |
| ReminderProperties.WorkingDayTaskEffect | app/Console/Commands/SendTaskReminders.php:49-66 | a task that is not overdue sends, for each window whose test holds, the notices of that window, in 7-day, 24-hour, 12-hour order, and counts the windows delivered to somebody |
| ReminderProperties.AtMostTwoRemindersPerTask | app/Console/Commands/SendTaskReminders.php:49-66 | one task adds at most two to the reminder counter |
| ReminderProperties.TaskNoticesJustified | app/Console/Commands/SendTaskReminders.php:35-66 | every notice a task causes goes to one of its recipients; it is an overdue notice iff the task is overdue, and a reminder only for a window whose test holds |
| ReminderProperties.ScanNoticesComeFromTasks | app/Console/Commands/SendTaskReminders.php:35-67 | every notice of the loop comes from the effect of one of the tasks |
| ReminderProperties.NoticesOnlyForOpenTasks | app/Console/Commands/SendTaskReminders.php:17-72 | every notice of a run is justified by an open task with a due date |
| ReminderProperties.SevenDayReminderOnlySevenDaysAhead | app/Console/Commands/SendTaskReminders.php:49-53 | a 7-day reminder is only sent for a task due exactly seven days after today |
| ReminderProperties.SevenDayReminderNeverForWeekendDate | app/Console/Commands/SendTaskReminders.php:126-130 | no 7-day reminder is ever sent for a task whose date seven days before the due date is a weekend day |
| ReminderProperties.TwelveHourReminderOnlyBetweenElevenAndNoon | app/Console/Commands/SendTaskReminders.php:61-66 | a run outside 11:00 to 12:00 sends no 12-hour reminder |
| ReminderProperties.ScanCounters | app/Console/Commands/SendTaskReminders.php:32-66 | the reminder counter is at most twice the number of tasks; the overdue counter is at most the number of overdue open tasks, and equal to it when the loop completes |
| ReminderProperties.TaskAbortsIffOverdueRefused | app/Console/Commands/SendTaskReminders.php:106-115 | handling a task throws iff it is overdue and one of its recipients refuses the overdue notice |
| ReminderProperties.OverdueFailureIsFatal | app/Console/Commands/SendTaskReminders.php:43-47 | the loop stops with an exception iff some task's overdue notice is refused |
| ReminderProperties.AbortEndsWithRefusedOverdue | app/Console/Commands/SendTaskReminders.php:106-115 | when the loop stops, the last attempted notice is a refused overdue notice |
| ReminderProperties.AbortedScanIsFinal | app/Console/Commands/SendTaskReminders.php:35-67 | once a task throws, the tasks after it change nothing |
| ReminderProperties.RunOutcome | app/Console/Commands/SendTaskReminders.php:17-72 | a run is skipped iff it is a weekend; it fails iff it is a working day and some overdue notice is refused; when it finishes, the overdue count is the number of overdue open tasks and the reminder count is at most twice the number of tasks |
| SendTaskReminders.Notifier.Notify | app/Console/Commands/SendTaskReminders.php:87 | a notify() call is appended to the log, and its success is the channel's answer |
| SendTaskReminders.SendReminder | app/Console/Commands/SendTaskReminders.php:74-104 | appends exactly the attempt ReminderSpec.ReminderAttempt describes, and returns whether it was sent |
| SendTaskReminders.SendOverdueNotification | app/Console/Commands/SendTaskReminders.php:106-115 | appends the overdue notices up to and including the first refused one, and succeeds iff all were accepted |
| SendTaskReminders.SendDueReminders | app/Console/Commands/SendTaskReminders.php:49-66 | appends the three window attempts in order and counts the successful ones, as ReminderSpec.WindowEffect describes |
| SendTaskReminders.HandleTask | app/Console/Commands/SendTaskReminders.php:35-66 | one loop iteration appends what ReminderSpec.TaskEffect describes, returns its counters, and fails iff an exception escapes |
| SendTaskReminders.Handle | app/Console/Commands/SendTaskReminders.php:17-72 | the run appends exactly ReminderSpec.RunOf's notices and ends with RunOf's outcome: skipped, failed, or finished with both counters |
| TaskPolicy.ViewAny | app/Policies/TaskPolicy.php:10-13 | every user may list tasks |
| TaskPolicy.View | app/Policies/TaskPolicy.php:15-20 | a user may view a task iff they own its project, created it, or are its assignee |
| TaskPolicy.Create | app/Policies/TaskPolicy.php:22-25 | every user may create a task |
| TaskPolicy.Update | app/Policies/TaskPolicy.php:27-30 | a user may update a task iff they own its project or created it |
| TaskPolicy.Delete | app/Policies/TaskPolicy.php:32-35 | a user may delete a task iff they own its project or created it |
| TaskPolicy.Assign | app/Policies/TaskPolicy.php:37-40 | a user may assign a task iff they own its project or created it |
| TaskPolicy.ManagingRulesAgreeAndImplyView | app/Policies/TaskPolicy.php:15-40 | update, delete and assign always agree, and each implies view |
| TaskPolicy.AssigneeAloneMayOnlyView | app/Policies/TaskPolicy.php:15-40 | an assignee who neither created the task nor owns its project may view it and nothing more |
| TaskPolicy.StrangerIsDenied | app/Policies/TaskPolicy.php:10-40 | a user with no role on a task may only list and create tasks |
| CommentPolicy.ViewAny | app/Policies/CommentPolicy.php:11-14 | every user may list comments |
| CommentPolicy.View | app/Policies/CommentPolicy.php:16-19 | every user may view any comment |
| CommentPolicy.Create | app/Policies/CommentPolicy.php:21-24 | a user may comment on a task iff they created it or are its assignee |
| CommentPolicy.Update | app/Policies/CommentPolicy.php:26-29 | only a comment's author may edit it |
| CommentPolicy.Delete | app/Policies/CommentPolicy.php:31-34 | only a comment's author may delete it |
| CommentPolicy.UpdateAndDeleteAgree | app/Policies/CommentPolicy.php:26-34 | editing and deleting a comment are allowed to the same users |
| CommentPolicy.ProjectOwnerAloneCannotComment | app/Policies/CommentPolicy.php:21-24 | a project owner who neither created the task nor is assigned to it may not comment, although they may view the task |
| CommentPolicy.CommenterMayViewTask | app/Policies/CommentPolicy.php:21-24 | whoever may comment on a task may also view it |
| LogsActivity.Coalesce | app/Traits/LogsActivity.php:21 | `??` gives the left value unless it is null, and the right value when it is |
| LogsActivity.CreatedAction | app/Traits/LogsActivity.php:50-62 | task_created iff a task, comment_added iff a comment, image_uploaded iff either image model, and created otherwise |
| LogsActivity.UpdatedAction | app/Traits/LogsActivity.php:64-75 | task_status_changed iff a task's status changed to a non-null value; task_assigned iff its assignee did and its status did not; updated otherwise |
| LogsActivity.DeletedAction | app/Traits/LogsActivity.php:77-83 | task_deleted iff a task, deleted otherwise |
| LogsActivity.MappedAction | app/Traits/LogsActivity.php:32-38 | created, updated and deleted map to the model's own action, and any other name passes through |
| LogsActivity.LogActivity | app/Traits/LogsActivity.php:30-48 | the record carries the mapped action, the class name, the user, both values, and the given id or else the model's id |
| LogsActivity.OnCreated | app/Traits/LogsActivity.php:12-14 | the created hook's record; stated by HookRecords |
| LogsActivity.OnUpdated | app/Traits/LogsActivity.php:16-18 | the updated hook's record; stated by HookRecords |
| LogsActivity.OnDeleted | app/Traits/LogsActivity.php:20-27 | the deleted hook's record; stated by HookRecords and DeletedRecordKeepsOriginalId |
| LogsActivity.HookRecords | app/Traits/LogsActivity.php:12-27 | what each hook records: its action, its old and new values, and its id; the deleted hook uses the model's id, or the original id when that is null |
| LogsActivity.DeletedRecordKeepsOriginalId | app/Traits/LogsActivity.php:20-27 | a deleted model with no attributes left is logged under its original id, with its original attributes |
| LogsActivity.HookActionsDistinct | app/Traits/LogsActivity.php:12-27 | the three hooks never record the same action for one model |
| LogsActivity.UnassigningIsPlainUpdate | app/Traits/LogsActivity.php:70-74 | a task whose assignee changed to null is logged as updated, not as task_assigned |
| TaskReminderNotification.ReminderLine | app/Notifications/TaskReminderNotification.php:28-36 | a known reminder type gets its message, and any other gets the generic line |
| TaskReminderNotification.WindowsHaveTheirOwnLine | app/Notifications/TaskReminderNotification.php:28-36 | each window the command sends has its own distinct line, never the fallback |
| TaskReminderNotification.Ucfirst | app/Notifications/TaskReminderNotification.php:39 | only the first character changes, and it is upper-cased |
| TaskReminderNotification.ReplaceUnderscores | app/Notifications/TaskReminderNotification.php:41 | every underscore becomes a space, and every other character stays |
| TaskReminderNotification.PriorityLabel | app/Notifications/TaskReminderNotification.php:39 | the priority with its first character upper-cased and the rest unchanged |
| TaskReminderNotification.StatusLabel | app/Notifications/TaskReminderNotification.php:41 | the label has no underscore, the status's length, the first letter capitalised, and the other characters unchanged except underscores |
| TaskReminderNotification.NatToString | app/Notifications/TaskReminderNotification.php:42 | the decimal text of the task id is non-empty, all digits, and starts with 0 only for the number 0 |
| TaskReminderNotification.ParseNatToString | app/Notifications/TaskReminderNotification.php:42 | the decimal text reads back as the number |
| TaskReminderNotification.ZeroPad | app/Notifications/TaskReminderNotification.php:40 | the padded text has the width, ends with the original, and starts with zeros only |
| TaskReminderNotification.ParseNatIgnoresLeadingZeros | app/Notifications/TaskReminderNotification.php:40 | leading zeros do not change the value read back |
| TaskReminderNotification.CivilFromDays | app/Notifications/TaskReminderNotification.php:40 | a day number maps to a month in 1..12 and a day in 1..31 |
| TaskReminderNotification.WeekdaysMatchTheCalendar | app/Console/Commands/SendTaskReminders.php:22 | the command's weekday numbering agrees with the calendar: day 0 is Thursday 1970-01-01 and day 19893 is Wednesday 2024-06-19 |
| TaskReminderNotification.EpochIsFirstOfJanuary1970 | app/Notifications/TaskReminderNotification.php:40 | day 0 is 1970-01-01 |
| TaskReminderNotification.CivilFromDaysExample | app/Notifications/TaskReminderNotification.php:40 | day 19893 is 2024-06-19 |
| TaskReminderNotification.DateString | app/Notifications/TaskReminderNotification.php:54 | toDateString(): the year padded to four digits, then the month and day as two digits each, separated by dashes; stated by DateStringReadsBack |
| TaskReminderNotification.DateStringReadsBack | app/Notifications/TaskReminderNotification.php:54 | for years 0 to 9999, Y-m-d is ten characters with dashes at 4 and 7, and its three fields read back as the year, month and day |
| TaskReminderNotification.DueDateText | app/Notifications/TaskReminderNotification.php:40 | the due-date text is "Not set" exactly when there is no due date; otherwise it is the date as Y-m-d followed by 00:00, since the due date is cast to a date |
| TaskReminderNotification.DueDateTextExample | app/Notifications/TaskReminderNotification.php:40 | day 19893 is shown as 2024-06-19 00:00 |
| TaskReminderNotification.ToMail | app/Notifications/TaskReminderNotification.php:26-46 | the subject names the task; the six lines before the button are the reminder line, the task title, the project name, the priority label, the due-date text and the status label; the button reads View Task and links to the task; one closing line follows |
| TaskReminderNotification.ToArray | app/Notifications/TaskReminderNotification.php:48-56 | the payload carries the id, the title, and the reminder type unchanged; the date is null iff the task has none, and otherwise is Y-m-d |

## Left out

- The database query is an input sequence of task snapshots. The `whereNotNull`/`where` filter is applied as a skip inside the loop, which gives the same notices and counters. Eager loading is not modelled.
- The clock is an input. The command reads Carbon's clock several times: `now()` in `handle` and in `sendReminder`, and implicitly in `isPast()` and `isTomorrow()`. The model uses one instant for all of these reads.
- Time has second precision, with no time zones or daylight saving. Carbon's microseconds only move the exact-midnight edge of `isPast` and the edges of the 12-hour band.
- Mail delivery, queueing, `via()` and the `url()` prefix are not modelled. The mail's action is the path `/tasks/{id}`.
- Console output (`info`, `error`) and exception messages are left out. A refused `notify()` stands for any exception it throws.
- Notifier: the channel's answer is a fixed function of the notice. Answers that change over time or are random are not modelled.
- The `default` branch of `getReminderDate` is not modelled. The command only passes the three window keys, so `Window` has exactly three values.
- Saving the audit row and `Auth::id()` are left out. The user id is a parameter, and the record is returned as a value.
- PHP's loose typing is left out. Ids are integers, and `===` is plain equality.
- The controllers, form requests, seeders, other notifications and models are not part of this model.
- CivilFromDays: the conversion is checked on two dates (1970-01-01 and 2024-06-19), and its month and day are proved in range. Its agreement with the Gregorian calendar for every day number is not proved.
- DateStringReadsBack: proved for years 0 to 9999 only. Years outside that range are not modelled beyond the text they produce.
- SevenDayReminderNeverForWeekendDate: assumes task ids are unique in the table, as the primary key guarantees.
