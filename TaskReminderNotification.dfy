/**
  The reminder notification a user receives: the line chosen by reminder
  type (with a generic fallback), the labels shown for status and priority,
  the due-date line, the mail's content and the array form stored for the
  notification.
 */
module TaskReminderNotification {
  import opened Wrappers
  import ReminderSpec
  import Calendar

  /** The task fields the notification reads; the due date is a day number (a date cast, so midnight). */
  datatype NotifiedTask = NotifiedTask(
    id: nat,
    title: string,
    projectName: string,
    priority: string,
    status: string,
    dueDay: Option<int>)

  const FallbackMessage := "This is a reminder for your task."

  const ReminderMessages: map<string, string> := map[
    "7_days" := "This task is due in 7 days.",
    "24_hours" := "This task is due in 24 hours.",
    "12_hours" := "This task is due in 12 hours."]

  /** $reminderMessages[$this->reminderType] ?? 'This is a reminder for your task.' */
  function ReminderLine(reminderType: string): (line: string)
    ensures reminderType in ReminderMessages ==> line == ReminderMessages[reminderType]
    ensures reminderType !in ReminderMessages ==> line == FallbackMessage
  {
    if reminderType in ReminderMessages then ReminderMessages[reminderType] else FallbackMessage
  }

  /**
    Each window the command sends gets its own line, never the fallback, and
    no two windows share one.
   */
  lemma WindowsHaveTheirOwnLine(w: ReminderSpec.Window, v: ReminderSpec.Window)
    ensures ReminderLine(ReminderSpec.WindowKey(w)) != FallbackMessage
    ensures w != v ==> ReminderLine(ReminderSpec.WindowKey(w)) != ReminderLine(ReminderSpec.WindowKey(v))
    ensures ReminderLine(ReminderSpec.WindowKey(ReminderSpec.SevenDays)) == "This task is due in 7 days."
    ensures ReminderLine(ReminderSpec.WindowKey(ReminderSpec.TwentyFourHours)) == "This task is due in 24 hours."
    ensures ReminderLine(ReminderSpec.WindowKey(ReminderSpec.TwelveHours)) == "This task is due in 12 hours."
  {
  }

  // ---------------------------------------------------------------------
  // Labels
  // ---------------------------------------------------------------------

  predicate IsLower(c: char) { 'a' <= c <= 'z' }

  function ToUpper(c: char): char
  {
    if IsLower(c) then (c as int - 'a' as int + 'A' as int) as char else c
  }

  /** ucfirst: the first character upper-cased when it is an ASCII lower-case letter. */
  function Ucfirst(s: string): (r: string)
    ensures |r| == |s|
    ensures |s| > 0 ==> r[0] == ToUpper(s[0]) && r[1..] == s[1..]
  {
    if s == [] then [] else [ToUpper(s[0])] + s[1..]
  }

  /** str_replace('_', ' ', s) */
  function ReplaceUnderscores(s: string): (r: string)
    ensures |r| == |s|
    ensures forall i :: 0 <= i < |s| ==> r[i] == if s[i] == '_' then ' ' else s[i]
  {
    if s == [] then []
    else [if s[0] == '_' then ' ' else s[0]] + ReplaceUnderscores(s[1..])
  }

  /** The status as shown: underscores become spaces and the first letter is capitalised. */
  function StatusLabel(status: string): (shown: string)
    ensures |shown| == |status|
    ensures '_' !in shown
    ensures |status| > 0 && status[0] != '_' ==> shown[0] == ToUpper(status[0])
    ensures forall i :: 0 < i < |status| ==> shown[i] == if status[i] == '_' then ' ' else status[i]
  {
    Ucfirst(ReplaceUnderscores(status))
  }

  /** ucfirst of the priority: low, medium and high show as Low, Medium and High. */
  function PriorityLabel(priority: string): (shown: string)
    ensures |shown| == |priority|
    ensures |priority| > 0 ==> shown[0] == ToUpper(priority[0]) && shown[1..] == priority[1..]
  {
    Ucfirst(priority)
  }

  // ---------------------------------------------------------------------
  // Numbers and dates as text
  // ---------------------------------------------------------------------

  predicate IsDigit(c: char) { '0' <= c <= '9' }

  predicate AllDigits(s: string) { forall i :: 0 <= i < |s| ==> IsDigit(s[i]) }

  function DigitChar(d: nat): (c: char)
    requires d < 10
    ensures IsDigit(c) && DigitValue(c) == d
  {
    ('0' as int + d) as char
  }

  function DigitValue(c: char): nat
    requires IsDigit(c)
  {
    c as int - '0' as int
  }

  /** The decimal digits of n, without leading zeros. */
  function NatToString(n: nat): (s: string)
    ensures |s| > 0 && AllDigits(s)
    ensures n < 10 ==> |s| == 1
    ensures s[0] == '0' <==> n == 0
  {
    if n < 10 then [DigitChar(n)] else NatToString(n / 10) + [DigitChar(n % 10)]
  }

  /** Reads a string of decimal digits back as a number. */
  function ParseNat(s: string): nat
    requires AllDigits(s)
  {
    if s == [] then 0 else ParseNat(s[..|s| - 1]) * 10 + DigitValue(s[|s| - 1])
  }

  lemma {:induction false} ParseNatToString(n: nat)
    ensures ParseNat(NatToString(n)) == n
  {
    if n >= 10 {
      var s := NatToString(n / 10) + [DigitChar(n % 10)];
      assert s[..|s| - 1] == NatToString(n / 10);
      ParseNatToString(n / 10);
    }
  }

  /** Left-pads with zeros to the given width. */
  function ZeroPad(s: string, width: nat): (r: string)
    ensures |r| == if |s| < width then width else |s|
    ensures r[|r| - |s|..] == s
    ensures forall i :: 0 <= i < |r| - |s| ==> r[i] == '0'
  {
    if |s| < width then seq(width - |s|, _ => '0') + s else s
  }


  lemma {:induction false} ParseNatIgnoresLeadingZeros(z: string, s: string)
    requires forall i :: 0 <= i < |z| ==> z[i] == '0'
    requires AllDigits(s)
    ensures ParseNat(z + s) == ParseNat(s)
  {
    if s == [] {
      assert z + s == z;
      ParseNatOfZeros(z);
    } else {
      var t := z + s;
      assert t[..|t| - 1] == z + s[..|s| - 1];
      ParseNatIgnoresLeadingZeros(z, s[..|s| - 1]);
    }
  }

  lemma {:induction false} ParseNatOfZeros(z: string)
    requires forall i :: 0 <= i < |z| ==> z[i] == '0'
    ensures ParseNat(z) == 0
  {
    if z != [] {
      ParseNatOfZeros(z[..|z| - 1]);
    }
  }

  /** A calendar date in the proleptic Gregorian calendar. */
  datatype Date = Date(year: int, month: int, day: int)

  /** The calendar date of a day number (days since 1970-01-01), counted in 400-year eras from 0000-03-01. */
  function CivilFromDays(dayNumber: int): (d: Date)
    ensures 1 <= d.month <= 12 && 1 <= d.day <= 31
  {
    var z := dayNumber + 719468;
    var era := z / 146097;
    CivilFromDayOfEra(era, z - era * 146097)
  }

  /** The year within its era of a day of a 400-year era. */
  function YearOfEra(doe: int): int
  {
    (doe - doe / 1460 + doe / 36524 - doe / 146096) / 365
  }

  /** The date of day doe of a 400-year era, years starting on the first of March. */
  function CivilFromDayOfEra(era: int, doe: int): (d: Date)
    requires 0 <= doe < 146097
    ensures 1 <= d.month <= 12 && 1 <= d.day <= 31
  {
    var yoe := YearOfEra(doe);
    var doy := doe - (365 * yoe + yoe / 4 - yoe / 100);
    var mp := (5 * doy + 2) / 153;
    var day := doy - (153 * mp + 2) / 5 + 1;
    var month := if mp < 10 then mp + 3 else mp - 9;
    var year := yoe + era * 400;
    Date(if month <= 2 then year + 1 else year, month, day)
  }


  /** Carbon's 'Y': at least four digits, with a minus sign before years before year 0. */
  function YearString(y: int): string
  {
    if y < 0 then "-" + ZeroPad(NatToString(-y), 4) else ZeroPad(NatToString(y), 4)
  }

  /** A month or a day of the month, as two digits with a leading zero below ten. */
  function TwoDigits(n: nat): string
    requires n < 100
  {
    [DigitChar(n / 10), DigitChar(n % 10)]
  }


  /** toDateString(): Y-m-d */
  function DateString(d: Date): (s: string)
    requires 1 <= d.month <= 12 && 1 <= d.day <= 31
  {
    YearString(d.year) + "-" + TwoDigits(d.month) + "-" + TwoDigits(d.day)
  }

  /** A number padded with zeros is still all digits and still reads back as the number. */
  lemma PaddedNumberReadsBack(n: nat, width: nat)
    ensures var r := ZeroPad(NatToString(n), width);
      AllDigits(r) && ParseNat(r) == n
  {
    var s := NatToString(n);
    ParseNatToString(n);
    if |s| < width {
      var z := seq(width - |s|, _ => '0');
      ParseNatIgnoresLeadingZeros(z, s);
    }
  }


  /** Where the three fields sit in yyyy-mm-dd. */
  lemma DateLayout(ys: string, ms: string, ds: string)
    requires |ys| == 4 && |ms| == 2 && |ds| == 2
    ensures var s := ys + "-" + ms + "-" + ds;
      |s| == 10 && s[4] == '-' && s[7] == '-' && s[..4] == ys && s[5..7] == ms && s[8..] == ds
  {
  }

  /** A year from 0 to 9999 is written as four digits that read back as the year. */
  lemma YearStringReadsBack(y: int)
    requires 0 <= y <= 9999
    ensures var ys := YearString(y);
      |ys| == 4 && AllDigits(ys) && ParseNat(ys) == y
  {
    NatToStringShort(y);
    PaddedNumberReadsBack(y, 4);
  }

  /** A month or a day is written as two digits that read back as the number. */
  lemma TwoDigitsReadsBack(n: nat)
    requires n < 100
    ensures var ds := TwoDigits(n);
      |ds| == 2 && AllDigits(ds) && ParseNat(ds) == n
  {
    var ds := TwoDigits(n);
    assert ds[..1] == [DigitChar(n / 10)];
    assert ParseNat(ds[..1]) == n / 10;
  }


  /**
    For years 0 to 9999 the date string is ten characters, yyyy-mm-dd, and
    reading its three fields back gives the date.
   */
  lemma DateStringReadsBack(d: Date)
    requires 0 <= d.year <= 9999 && 1 <= d.month <= 12 && 1 <= d.day <= 31
    ensures var s := DateString(d);
      |s| == 10 && s[4] == '-' && s[7] == '-'
      && AllDigits(s[..4]) && AllDigits(s[5..7]) && AllDigits(s[8..])
      && ParseNat(s[..4]) == d.year && ParseNat(s[5..7]) == d.month && ParseNat(s[8..]) == d.day
  {
    var ys, ms, ds := YearString(d.year), TwoDigits(d.month), TwoDigits(d.day);
    YearStringReadsBack(d.year);
    TwoDigitsReadsBack(d.month);
    TwoDigitsReadsBack(d.day);
    DateLayout(ys, ms, ds);
    var s := DateString(d);
    assert s == ys + "-" + ms + "-" + ds;
    assert s[..4] == ys && s[5..7] == ms && s[8..] == ds;
    assert ParseNat(s[5..7]) == ParseNat(ms);
    assert ParseNat(s[8..]) == ParseNat(ds);
  }

  lemma NatToStringShort(n: nat)
    requires n < 10000
    ensures |NatToString(n)| <= 4
  {
    if n >= 10 {
      NatToStringShort(n / 10);
    }
  }

  /** The due date as the mail shows it: format('Y-m-d H:i') of a midnight date, or "Not set". */
  function DueDateText(dueDay: Option<int>): (text: string)
    ensures dueDay.None? <==> text == "Not set"
    ensures dueDay.Some? ==> text == DateString(CivilFromDays(dueDay.value)) + " 00:00"
  {
    match dueDay
    case None => "Not set"
    case Some(day) => DateString(CivilFromDays(day)) + " 00:00"
  }

  lemma EpochIsFirstOfJanuary1970()
    ensures CivilFromDays(0) == Date(1970, 1, 1)
  {
    assert 719468 / 146097 == 4;
    DayOfEraExample(4, 135080, 369, 1970, 1, 1);
  }

  /** Evaluates one day of an era, given the year of the era. */
  lemma DayOfEraExample(era: int, doe: int, yoe: int, year: int, month: int, day: int)
    requires 0 <= doe < 146097 && YearOfEra(doe) == yoe
    requires var doy := doe - (365 * yoe + yoe / 4 - yoe / 100);
      var mp := (5 * doy + 2) / 153;
      month == (if mp < 10 then mp + 3 else mp - 9) && day == doy - (153 * mp + 2) / 5 + 1
      && year == (if month <= 2 then yoe + era * 400 + 1 else yoe + era * 400)
    ensures CivilFromDayOfEra(era, doe) == Date(year, month, day)
  {
  }

  lemma CivilFromDaysExample()
    ensures CivilFromDays(19893) == Date(2024, 6, 19)
  {
    assert (19893 + 719468) / 146097 == 5;
    assert YearOfEra(8876) == 24;
    DayOfEraExample(5, 8876, 24, 2024, 6, 19);
  }

  lemma YearStringExample(y: int)
    requires y == 2024
    ensures YearString(y) == "2024"
  {
    assert NatToString(20) == "20";
    assert NatToString(202) == NatToString(20) + "2";
    assert NatToString(y) == NatToString(202) + "4";
  }

  lemma TwoDigitsExample(m: nat, d: nat)
    requires m == 6 && d == 19
    ensures TwoDigits(m) == "06" && TwoDigits(d) == "19"
  {
    assert m / 10 == 0 && m % 10 == 6 && d / 10 == 1 && d % 10 == 9;
  }

  /**
    The date string of 2024-06-19.  Here and in the lemmas around it the
    example values come in as parameters, so that the verifier does not
    unfold the text functions on literal arguments.
   */
  lemma DateStringExample(date: Date)
    requires date == Date(2024, 6, 19)
    ensures DateString(date) == "2024-06-19"
  {
    YearStringExample(date.year);
    TwoDigitsExample(date.month, date.day);
    DateFieldsExample(YearString(date.year), TwoDigits(date.month), TwoDigits(date.day));
  }

  lemma DateFieldsExample(ys: string, ms: string, ds: string)
    requires ys == "2024" && ms == "06" && ds == "19"
    ensures ys + "-" + ms + "-" + ds == "2024-06-19"
  {
    var s := ys + "-" + ms + "-" + ds;
    DateLayout(ys, ms, ds);
    assert s[..4] == "2024"[..4] && s[4..] == "2024-06-19"[4..];
  }

  lemma MidnightExample(date: string)
    requires date == "2024-06-19"
    ensures date + " 00:00" == "2024-06-19 00:00"
  {
  }

  lemma DueDateTextExample()
    ensures DueDateText(Some(19893)) == "2024-06-19 00:00"
  {
    CivilFromDaysExample();
    DateStringExample(CivilFromDays(19893));
    MidnightExample(DateString(CivilFromDays(19893)));
  }

  /**
    The weekday numbering of the reminder command and the calendar date of
    the notification agree: day 0 is Thursday 1970-01-01 and day 19893 is
    Wednesday 2024-06-19.
   */
  lemma WeekdaysMatchTheCalendar()
    ensures Calendar.DayOfWeek(0) == 4 && CivilFromDays(0) == Date(1970, 1, 1)
    ensures Calendar.DayOfWeek(19893) == 3 && CivilFromDays(19893) == Date(2024, 6, 19)
  {
    EpochIsFirstOfJanuary1970();
    CivilFromDaysExample();
  }

  // ---------------------------------------------------------------------
  // toMail and toArray
  // ---------------------------------------------------------------------

  /** The mail: subject, the lines before the button, the button, the lines after it. */
  datatype Mail = Mail(subject: string, introLines: seq<string>, actionText: string, actionPath: string, outroLines: seq<string>)

  function ToMail(task: NotifiedTask, reminderType: string): (m: Mail)
    ensures m.subject == "Task Reminder: " + task.title
    ensures |m.introLines| == 6 && m.introLines[0] == ReminderLine(reminderType)
    ensures m.introLines[1] == "Task: " + task.title && m.introLines[2] == "Project: " + task.projectName
    ensures m.introLines[3] == "Priority: " + PriorityLabel(task.priority)
    ensures m.introLines[4] == "Due Date: " + DueDateText(task.dueDay)
    ensures m.introLines[5] == "Status: " + StatusLabel(task.status)
    ensures m.actionText == "View Task" && m.actionPath == "/tasks/" + NatToString(task.id)
    ensures m.outroLines == ["Please complete this task before the due date."]
  {
    Mail(
      "Task Reminder: " + task.title,
      [ ReminderLine(reminderType),
        "Task: " + task.title,
        "Project: " + task.projectName,
        "Priority: " + PriorityLabel(task.priority),
        "Due Date: " + DueDateText(task.dueDay),
        "Status: " + StatusLabel(task.status)],
      "View Task",
      "/tasks/" + NatToString(task.id),
      ["Please complete this task before the due date."])
  }

  /** The stored form of the notification. */
  datatype Payload = Payload(taskId: nat, taskTitle: string, reminderType: string, dueDate: Option<string>)

  /**
    toArray: the task's id and title, the reminder type exactly as given,
    and the due date as yyyy-mm-dd or null.
   */
  function ToArray(task: NotifiedTask, reminderType: string): (p: Payload)
    ensures p.taskId == task.id && p.taskTitle == task.title && p.reminderType == reminderType
    ensures p.dueDate.None? <==> task.dueDay.None?
    ensures task.dueDay.Some? ==> p.dueDate == Some(DateString(CivilFromDays(task.dueDay.value)))
  {
    Payload(task.id, task.title, reminderType,
      match task.dueDay
      case None => None
      case Some(day) => Some(DateString(CivilFromDays(day))))
  }
}
