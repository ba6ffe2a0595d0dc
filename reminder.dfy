/** The daily reminder check of the dashboard's tick (App.tsx:145-160).
    The current time is a parameter: the calendar-date key the dashboard
    takes from `toISOString()` and the hour and minute of the local clock. */
module Reminder {
  import opened JsText
  import opened Records
  import opened Organizer
  import TelegramService

  /** The moment a tick runs: milliseconds since the epoch, the date key
      (`YYYY-MM-DD`) and the local hour and minute. */
  datatype Clock = Clock(millis: nat, dateKey: string, hour: int, minute: int)

  /** The configured time as `time.split(':').map(Number)` destructured
      into `[hour, minute]`; a missing minute is `undefined`, which equals
      no hour or minute, like NaN. */
  function ReminderTime(time: string): (r: (JsNumber, JsNumber))
  {
    var parts := Split(time, ':');
    (ToNumber(parts[0]), if |parts| >= 2 then ToNumber(parts[1]) else NaN)
  }

  /** `n === v` for a JavaScript number and an integer clock reading. */
  predicate NumberIs(n: JsNumber, v: int) {
    n.Finite? && n.value == v as real
  }

  /** The firing condition: reminders on, a time set, the clock's hour and
      minute equal to it, and no reminder yet on this date. */
  predicate ShouldFire(settings: Settings, lastReminderDate: string, now: Clock) {
    && settings.enableDailyReminders
    && settings.dailyReminderTime != ""
    && NumberIs(ReminderTime(settings.dailyReminderTime).0, now.hour)
    && NumberIs(ReminderTime(settings.dailyReminderTime).1, now.minute)
    && lastReminderDate != now.dateKey
  }

  /** The reminder text: every open task in list order, or the "no tasks"
      variant when nothing is open. */
  function ReminderMessage(tasks: seq<Task>): (m: Message)
    ensures m == ReminderNoTasks <==> Active(tasks) == []
    ensures m.Reminder? ==> m.items == Texts(Active(tasks))
  {
    if |Active(tasks)| > 0 then Reminder(Texts(Active(tasks))) else ReminderNoTasks
  }

  /** The outcome of one reminder check: the new watermark and what was
      sent. */
  datatype Check = Check(lastReminderDate: string, sent: seq<Outgoing>)

  /** One reminder check: when it fires, the reminder goes to the configured
      chat (subject to the send guard) and the watermark becomes today, even
      when the send guard dropped the message; otherwise nothing happens. */
  function CheckReminder(settings: Settings, tasks: seq<Task>, lastReminderDate: string, now: Clock): (r: Check)
    ensures ShouldFire(settings, lastReminderDate, now) ==>
      r == Check(now.dateKey, TelegramService.Send(settings.telegramBotToken, settings.telegramChatId, ReminderMessage(tasks)))
    ensures !ShouldFire(settings, lastReminderDate, now) ==> r == Check(lastReminderDate, [])
  {
    if settings.enableDailyReminders && settings.dailyReminderTime != "" then
      var (hour, minute) := ReminderTime(settings.dailyReminderTime);
      if NumberIs(hour, now.hour) && NumberIs(minute, now.minute) && lastReminderDate != now.dateKey then
        Check(now.dateKey, TelegramService.Send(settings.telegramBotToken, settings.telegramChatId, ReminderMessage(tasks)))
      else Check(lastReminderDate, [])
    else Check(lastReminderDate, [])
  }

  /** The watermark moves exactly when the reminder fires, and only to
      today's date. */
  lemma WatermarkMovesIffFired(settings: Settings, tasks: seq<Task>, lastReminderDate: string, now: Clock)
    ensures CheckReminder(settings, tasks, lastReminderDate, now).lastReminderDate != lastReminderDate
        <==> ShouldFire(settings, lastReminderDate, now)
    ensures CheckReminder(settings, tasks, lastReminderDate, now).lastReminderDate in {lastReminderDate, now.dateKey}
  {
  }

  /** At most once a day: after a check on some date, a further check on
      the same date, at any time and with any tasks, sends nothing. */
  lemma AtMostOncePerDay(settings: Settings, tasks: seq<Task>, later: seq<Task>, lastReminderDate: string, now: Clock, again: Clock)
    requires ShouldFire(settings, lastReminderDate, now)
    requires again.dateKey == now.dateKey
    ensures var first := CheckReminder(settings, tasks, lastReminderDate, now);
            CheckReminder(settings, later, first.lastReminderDate, again) == Check(now.dateKey, [])
  {
    var first := CheckReminder(settings, tasks, lastReminderDate, now);
    assert first.lastReminderDate == again.dateKey;
    assert !ShouldFire(settings, first.lastReminderDate, again);
  }

  /** A new day re-arms the reminder: two checks at the configured time on
      two different dates both fire. */
  lemma FiresOnEachDay(settings: Settings, tasks: seq<Task>, later: seq<Task>, lastReminderDate: string, day1: Clock, day2: Clock)
    requires ShouldFire(settings, lastReminderDate, day1)
    requires day2.dateKey != day1.dateKey && day2.hour == day1.hour && day2.minute == day1.minute
    ensures var first := CheckReminder(settings, tasks, lastReminderDate, day1);
            && first.lastReminderDate == day1.dateKey
            && CheckReminder(settings, later, first.lastReminderDate, day2).lastReminderDate == day2.dateKey
  {
  }

  /** An `HH:MM` setting made of digits reads as that hour and minute. */
  lemma DigitTimeReads(hh: string, mm: string)
    requires hh != [] && AllDigits(hh) && mm != [] && AllDigits(mm)
    ensures ReminderTime(hh + ":" + mm) == (Finite(DigitsValue(hh, 10) as real), Finite(DigitsValue(mm, 10) as real))
  {
    var s := hh + ":" + mm;
    assert forall k :: 0 <= k < |hh| ==> hh[k] != ':';
    assert forall k :: 0 <= k < |mm| ==> mm[k] != ':';
    assert s[|hh|] == ':';
    var i := IndexOfChar(s, ':');
    assert forall k :: 0 <= k < |hh| ==> s[k] == hh[k];
    assert i == |hh|;
    assert s[..i] == hh;
    assert s[i + 1..] == mm;
    assert Split(s, ':') == [hh] + Split(mm, ':');
    ToNumberOfDigits(hh);
    ToNumberOfDigits(mm);
  }

  /** The default setting "09:00" is nine o'clock sharp. */
  lemma NineOClock()
    ensures ReminderTime("09:00") == (Finite(9.0), Finite(0.0))
  {
    var hh, mm := "09", "00";
    assert hh[0] == '0' && hh[1] == '9' && mm[0] == '0' && mm[1] == '0';
    assert hh + ":" + mm == "09:00";
    assert hh[..1] == "0" && mm[..1] == "0" && hh[..1][..0] == [];
    assert DigitsValue(hh[..1], 10) == 0;
    assert DigitsValue(hh, 10) == 9;
    assert DigitsValue(mm, 10) == 0;
    DigitTimeReads(hh, mm);
  }

  /** Switching reminders off on the organizer page silences the check,
      whatever the clock says. */
  lemma DisabledNeverFires(p: Page, lastReminderDate: string, now: Clock)
    ensures !ShouldFire(SetDailyReminders(p, false).settings, lastReminderDate, now)
  {
  }

  /** Switching them on at a time that matches the clock on a new day
      makes the check fire. */
  lemma EnabledFiresAtTime(p: Page, lastReminderDate: string, now: Clock)
    requires lastReminderDate != now.dateKey
    requires now.hour == 9 && now.minute == 0
    ensures ShouldFire(SetReminderTime(SetDailyReminders(p, true), "09:00").settings, lastReminderDate, now)
  {
    NineOClock();
  }
}
