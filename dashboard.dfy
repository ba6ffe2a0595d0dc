/** The dashboard's monitoring tick (App.tsx:86-166) and its trend scan
    (App.tsx:71-83). One tick stores the poll cursor, runs at most one chat
    command against the task and note lists, and then runs the daily
    reminder check. The command phase and the reminder phase read the lists
    and the watermark as they were when the tick started: a React state
    setter does not change the values the running callback already holds. */
module Dashboard {
  import opened JsText
  import opened Records
  import opened Organizer
  import opened TelegramService
  import opened Reminder

  // ---------------------------------------------------------------------------
  // The pure list work of the command handlers

  /** `prev.map(t => t.id === id ? {...t, completed: true} : t)`. */
  function CompleteById(tasks: seq<Task>, id: string): (r: seq<Task>)
    ensures |r| == |tasks|
    ensures forall k :: 0 <= k < |r| ==> tasks[k].id == id ==> r[k] == tasks[k].(completed := true)
    ensures forall k :: 0 <= k < |r| ==> tasks[k].id != id ==> r[k] == tasks[k]
  {
    if tasks == [] then []
    else
      var t := tasks[0];
      [if t.id == id then t.(completed := true) else t] + CompleteById(tasks[1..], id)
  }

  /** Completing by id takes exactly the tasks with that id off the open
      list and keeps the order of the others. */
  lemma {:induction false} CompleteByIdActive(tasks: seq<Task>, id: string)
    ensures Active(CompleteById(tasks, id)) == Filter(Active(tasks), AllBut(id))
    decreases |tasks|
  {
    if tasks != [] {
      CompleteByIdActive(tasks[1..], id);
      var t := tasks[0];
      var r := CompleteById(tasks, id);
      assert r[1..] == CompleteById(tasks[1..], id);
      if !t.completed && t.id != id {
        assert Active(tasks) == [t] + Active(tasks[1..]);
        assert Filter(Active(tasks), AllBut(id)) == [t] + Filter(Active(tasks[1..]), AllBut(id));
      }
    }
  }

  /** Filtering with `Keeps` keeps distinct ids distinct. */
  lemma {:induction false} FilterUnique(tasks: seq<Task>, f: TaskFilter)
    requires UniqueIds(tasks)
    ensures UniqueIds(Filter(tasks, f))
    decreases |tasks|
  {
    if tasks != [] {
      FilterUnique(tasks[1..], f);
      var rest := Filter(tasks[1..], f);
      forall t | t in rest ensures t.id != tasks[0].id {
        var k :| 0 <= k < |tasks[1..]| && tasks[1..][k] == t;
        assert tasks[k + 1] == t;
      }
    }
  }

  /** In a list with distinct ids, dropping the id of the element at `i`
      drops that element alone. */
  lemma {:induction false} DropUniqueId(xs: seq<Task>, i: nat)
    requires i < |xs| && UniqueIds(xs)
    ensures Filter(xs, AllBut(xs[i].id)) == xs[..i] + xs[i + 1..]
    decreases |xs|
  {
    var id := xs[i].id;
    if i == 0 {
      FilterKeepsAll(xs[1..], AllBut(id));
      assert xs[..0] + xs[1..] == xs[1..];
    } else {
      DropUniqueId(xs[1..], i - 1);
      assert xs[1..][i - 1] == xs[i];
      assert xs[..i] == [xs[0]] + xs[1..][..i - 1];
      assert xs[i + 1..] == xs[1..][i..];
    }
  }

  /** With distinct ids, completing the `i`-th open task by its id leaves
      exactly the other open tasks, in order. */
  lemma CompleteNthOpen(tasks: seq<Task>, i: nat)
    requires UniqueIds(tasks) && i < |Active(tasks)|
    ensures Active(CompleteById(tasks, Active(tasks)[i].id)) == Active(tasks)[..i] + Active(tasks)[i + 1..]
  {
    CompleteByIdActive(tasks, Active(tasks)[i].id);
    FilterUnique(tasks, OpenOnly);
    DropUniqueId(Active(tasks), i);
  }

  /** The numbered open-task lines `1. …`, `2. …`, starting after `offset`. */
  function NumberedFrom(tasks: seq<Task>, offset: nat): (r: seq<ListEntry>)
    ensures |r| == |tasks|
    ensures forall k :: 0 <= k < |r| ==> r[k] == ListEntry(offset + k + 1, tasks[k].text)
  {
    if tasks == [] then [] else [ListEntry(offset + 1, tasks[0].text)] + NumberedFrom(tasks[1..], offset + 1)
  }

  /** The `list_tasks` reply: open tasks numbered from 1 in list order, or
      the placeholder when none is open, then the completed tasks,
      unnumbered. */
  function TaskListing(tasks: seq<Task>): (m: Message)
    ensures m.TaskList?
    ensures m.todo == NoActiveTasks <==> Active(tasks) == []
    ensures m.todo.Numbered? ==> |m.todo.entries| == |Active(tasks)|
    ensures m.todo.Numbered? ==> forall k :: 0 <= k < |m.todo.entries| ==>
              m.todo.entries[k] == ListEntry(k + 1, Active(tasks)[k].text)
    ensures m.done == Texts(Filter(tasks, CompletedOnly))
  {
    var open := Active(tasks);
    TaskList(if open == [] then NoActiveTasks else Numbered(NumberedFrom(open, 0)),
             Texts(Filter(tasks, CompletedOnly)))
  }

  /** The open-list position `done_task` picks: `parseInt(payload) - 1`
      when that is a number within the open list. */
  function DoneIndex(payload: string, openCount: nat): (r: Option<nat>)
    ensures r.Some? <==> ParseInt(payload).Some? && 1 <= ParseInt(payload).value <= openCount
    ensures r.Some? ==> r.value == ParseInt(payload).value - 1 && r.value < openCount
  {
    match ParseInt(payload)
    case None => None
    case Some(n) => if n - 1 >= 0 && n - 1 < openCount then Some(n - 1) else None
  }

  /** The number a task is listed under is the number `/done` takes to
      complete it. */
  lemma ListedNumberCompletes(tasks: seq<Task>, k: nat)
    requires TaskListing(tasks).todo.Numbered? && k < |TaskListing(tasks).todo.entries|
    ensures var e := TaskListing(tasks).todo.entries[k];
            && DoneIndex(IntegerString(e.number), |Active(tasks)|) == Some(k)
            && Active(tasks)[k].text == e.text
  {
    var e := TaskListing(tasks).todo.entries[k];
    assert e == ListEntry(k + 1, Active(tasks)[k].text);
    DoneIndexOfNumber(k + 1, |Active(tasks)|);
  }

  /** A rendered number from 1 to the open count picks the position just
      before it. */
  lemma DoneIndexOfNumber(n: int, openCount: nat)
    requires 1 <= n <= openCount
    ensures DoneIndex(IntegerString(n), openCount) == Some(n - 1)
  {
    ParseIntRoundTrip(n);
  }

  // ---------------------------------------------------------------------------
  // Command dispatch

  /** What one command does to the lists and the outgoing log, and whether
      it starts a silent trend scan. */
  datatype Effect = Effect(tasks: seq<Task>, notes: seq<Note>, sent: seq<Outgoing>, scan: bool)

  /** The `if (command && chatId)` branch of the tick: `chat` is the
      command's chat id as text; `now` gives the new id and creation time;
      `idea` is what the generation service answered. A payload that is
      missing or empty matches no branch. */
  function Dispatch(token: string, command: Command, payload: Option<string>, chat: string,
                    tasks: seq<Task>, notes: seq<Note>, now: Clock, idea: string): Effect
  {
    var text := if payload.Some? then payload.value else "";
    if command == AddTask && text != "" then
      Effect([Task(DecimalString(now.millis), text, false, false, now.millis)] + tasks, notes,
             Send(token, chat, TaskAdded(text)), false)
    else if command == AddNote && text != "" then
      Effect(tasks, [Note(DecimalString(now.millis), text, now.millis)] + notes,
             Send(token, chat, NoteSaved), false)
    else if command == ListTasks then
      Effect(tasks, notes, Send(token, chat, TaskListing(tasks)), false)
    else if command == DoneTask && text != "" then
      var open := Active(tasks);
      match DoneIndex(text, |open|)
      case Some(i) =>
        Effect(CompleteById(tasks, open[i].id), notes, Send(token, chat, TaskCompleted(open[i].text)), false)
      case None =>
        Effect(tasks, notes, Send(token, chat, InvalidTaskNumber), false)
    else if command == CheckTrends then
      Effect(tasks, notes, Send(token, chat, ScanningTrends), true)
    else if command == GetIdea then
      Effect(tasks, notes, Send(token, chat, GeneratingIdea) + Send(token, chat, Idea(idea)), false)
    else if command == GetHelp || command == Start then
      Effect(tasks, notes, Send(token, chat, Help), false)
    else if command == GetStatus then
      Effect(tasks, notes, Send(token, chat, Status), false)
    else
      Effect(tasks, notes, [], false)
  }

  /** `add_task` with text puts one open, non-daily task with that text in
      front of the list and acknowledges it; the notes stay. */
  lemma DispatchAddTask(token: string, text: string, chat: string, tasks: seq<Task>, notes: seq<Note>, now: Clock, idea: string)
    requires text != ""
    ensures var e := Dispatch(token, AddTask, Some(text), chat, tasks, notes, now, idea);
            && |e.tasks| == |tasks| + 1 && e.tasks[1..] == tasks
            && e.tasks[0].text == text && !e.tasks[0].completed && !e.tasks[0].isDaily
            && e.notes == notes && !e.scan
            && (token != "" && chat != "" ==> e.sent == [Outgoing(chat, TaskAdded(text))])
  {
  }

  /** `add_note` with text puts one note with that text in front of the
      list and acknowledges it; the tasks stay. */
  lemma DispatchAddNote(token: string, text: string, chat: string, tasks: seq<Task>, notes: seq<Note>, now: Clock, idea: string)
    requires text != ""
    ensures var e := Dispatch(token, AddNote, Some(text), chat, tasks, notes, now, idea);
            && e.notes == [Note(DecimalString(now.millis), text, now.millis)] + notes
            && e.tasks == tasks && !e.scan
            && e.sent == Send(token, chat, NoteSaved)
  {
  }

  /** `check_trends` is the one command that starts a silent scan: it
      announces the scan and leaves both lists alone. */
  lemma DispatchCheckTrends(token: string, command: Command, payload: Option<string>, chat: string,
                            tasks: seq<Task>, notes: seq<Note>, now: Clock, idea: string)
    ensures var e := Dispatch(token, command, payload, chat, tasks, notes, now, idea);
            && (e.scan <==> command == CheckTrends)
            && (command == CheckTrends ==>
                  e.tasks == tasks && e.notes == notes && e.sent == Send(token, chat, ScanningTrends))
  {
  }

  /** `list_tasks`, `get_idea`, `get_help`, `start` and `get_status` only
      reply to the chat: the listing of the current tasks, the progress
      notice and then the idea, the help text, or the status. */
  lemma DispatchRepliesOnly(token: string, command: Command, payload: Option<string>, chat: string,
                            tasks: seq<Task>, notes: seq<Note>, now: Clock, idea: string)
    requires command in {ListTasks, GetIdea, GetHelp, Start, GetStatus}
    ensures var e := Dispatch(token, command, payload, chat, tasks, notes, now, idea);
            && e.tasks == tasks && e.notes == notes && !e.scan
            && e.sent == match command
                         case ListTasks => Send(token, chat, TaskListing(tasks))
                         case GetIdea => Send(token, chat, GeneratingIdea) + Send(token, chat, Idea(idea))
                         case GetStatus => Send(token, chat, Status)
                         case _ => Send(token, chat, Help)
  {
  }

  /** An add or done command without text changes nothing and sends
      nothing. */
  lemma DispatchEmptyPayload(token: string, command: Command, payload: Option<string>, chat: string,
                             tasks: seq<Task>, notes: seq<Note>, now: Clock, idea: string)
    requires CarriesPayload(command) && (payload.None? || payload.value == "")
    ensures Dispatch(token, command, payload, chat, tasks, notes, now, idea) == Effect(tasks, notes, [], false)
  {
  }

  /** `done_task n` for an open-list position: exactly the task with the
      id of the `n`-th open task is completed, and its text acknowledged. */
  lemma DispatchDoneValid(token: string, text: string, chat: string, tasks: seq<Task>, notes: seq<Note>, now: Clock, idea: string)
    requires DoneIndex(text, |Active(tasks)|).Some?
    ensures var i := DoneIndex(text, |Active(tasks)|).value;
            var target := Active(tasks)[i];
            var e := Dispatch(token, DoneTask, Some(text), chat, tasks, notes, now, idea);
            && |e.tasks| == |tasks|
            && (forall k :: 0 <= k < |tasks| ==>
                  e.tasks[k] == if tasks[k].id == target.id then tasks[k].(completed := true) else tasks[k])
            && e.sent == Send(token, chat, TaskCompleted(target.text))
            && (UniqueIds(tasks) ==> Active(e.tasks) == Active(tasks)[..i] + Active(tasks)[i + 1..])
  {
    var i := DoneIndex(text, |Active(tasks)|).value;
    if UniqueIds(tasks) {
      CompleteNthOpen(tasks, i);
    }
  }

  /** `done_task` with no number, or one outside 1..(open count), leaves
      the tasks alone and says the number is invalid. */
  lemma DispatchDoneInvalid(token: string, text: string, chat: string, tasks: seq<Task>, notes: seq<Note>, now: Clock, idea: string)
    requires text != "" && DoneIndex(text, |Active(tasks)|).None?
    ensures Dispatch(token, DoneTask, Some(text), chat, tasks, notes, now, idea)
         == Effect(tasks, notes, Send(token, chat, InvalidTaskNumber), false)
  {
  }

  // ---------------------------------------------------------------------------
  // The dashboard state, the scan and the tick as functions

  /** The dashboard state a tick reads and writes. */
  datatype State = State(
    tasks: seq<Task>,
    notes: seq<Note>,
    trends: seq<TrendItem>,
    activeTrendCategory: TrendCategory,
    isScanning: bool,
    lastUpdateId: int,
    lastReminderDate: string,
    outbox: seq<Outgoing>)

  /** `performScan(silent)`: the trend list is replaced by a non-empty scan
      result only; a silent scan with a bot token also sends the top trend. */
  function ScanStep(s: State, silent: bool, settings: Settings, generated: Option<seq<TrendItem>>): (r: State)
    ensures r.(trends := s.trends, outbox := s.outbox, isScanning := s.isScanning) == s
    ensures r.trends == s.trends || (r.trends != [] && r.trends == AnalyzeTrends(s.activeTrendCategory, generated))
    ensures r.outbox != s.outbox ==> silent && settings.telegramBotToken != "" && r.trends != []
                                     && r.outbox == s.outbox + Notify(settings, r.trends[0])
    ensures r.isScanning == (silent && s.isScanning)
    ensures AnalyzeTrends(s.activeTrendCategory, generated) != [] ==>
      r.trends == AnalyzeTrends(s.activeTrendCategory, generated)
    ensures var result := AnalyzeTrends(s.activeTrendCategory, generated);
            r.outbox == s.outbox + (if result != [] && silent && settings.telegramBotToken != ""
                                    then Notify(settings, result[0]) else [])
  {
    var result := AnalyzeTrends(s.activeTrendCategory, generated);
    var done := s.(isScanning := if silent then s.isScanning else false);
    if |result| > 0 then
      done.(trends := result,
            outbox := s.outbox + (if silent && settings.telegramBotToken != "" then Notify(settings, result[0]) else []))
    else done
  }

  /** `command && chatId`: a command was recognised and the update names a
      chat (a chat id of 0 is falsy). */
  predicate Actionable(resp: CommandResponse) {
    resp.command.Some? && resp.chatId.Some? && resp.chatId.value != 0
  }

  /** Part A of the tick: store the cursor, then run the command, if any. */
  function CommandPhase(s: State, settings: Settings, poll: Poll, now: Clock,
                        generated: Option<seq<TrendItem>>, idea: string): (r: State)
    ensures var resp := CheckCommands(settings.telegramBotToken, s.lastUpdateId, poll);
            && r.lastUpdateId == resp.nextUpdateId
            && r.lastReminderDate == s.lastReminderDate
            && r.activeTrendCategory == s.activeTrendCategory
            && (!Actionable(resp) ==> r == s.(lastUpdateId := resp.nextUpdateId))
  {
    var resp := CheckCommands(settings.telegramBotToken, s.lastUpdateId, poll);
    var stored := s.(lastUpdateId := resp.nextUpdateId);
    if Actionable(resp) then
      var e := Dispatch(settings.telegramBotToken, resp.command.value, resp.payload,
                        IntegerString(resp.chatId.value), s.tasks, s.notes, now, idea);
      var applied := stored.(tasks := e.tasks, notes := e.notes, outbox := stored.outbox + e.sent);
      if e.scan then ScanStep(applied, true, settings, generated) else applied
    else stored
  }

  /** One tick. No interval runs without a bot token. The reminder check
      sees the tasks and the watermark the tick started with. */
  function TickStep(s: State, settings: Settings, poll: Poll, now: Clock,
                generated: Option<seq<TrendItem>>, idea: string): State
  {
    if settings.telegramBotToken == "" then s
    else
      var a := CommandPhase(s, settings, poll, now, generated, idea);
      var b := CheckReminder(settings, s.tasks, s.lastReminderDate, now);
      a.(lastReminderDate := b.lastReminderDate, outbox := a.outbox + b.sent)
  }

  /** Every tick stores the poll's cursor, so the cursor never moves back
      when the channel honours the offset. */
  lemma TickStoresCursor(s: State, settings: Settings, poll: Poll, now: Clock,
                         generated: Option<seq<TrendItem>>, idea: string)
    requires settings.telegramBotToken != ""
    requires AfterCursor(s.lastUpdateId, poll)
    ensures TickStep(s, settings, poll, now, generated, idea).lastUpdateId
         == CheckCommands(settings.telegramBotToken, s.lastUpdateId, poll).nextUpdateId
    ensures TickStep(s, settings, poll, now, generated, idea).lastUpdateId >= s.lastUpdateId
  {
    CursorMonotone(settings.telegramBotToken, s.lastUpdateId, poll);
  }

  /** Without a recognised command from a chat, the lists, the trends and
      the category stay as they were. */
  lemma TickWithoutCommand(s: State, settings: Settings, poll: Poll, now: Clock,
                           generated: Option<seq<TrendItem>>, idea: string)
    requires !Actionable(CheckCommands(settings.telegramBotToken, s.lastUpdateId, poll))
    ensures var r := TickStep(s, settings, poll, now, generated, idea);
            r.tasks == s.tasks && r.notes == s.notes && r.trends == s.trends
            && r.activeTrendCategory == s.activeTrendCategory
  {
  }

  /** The tick's reminder fires at most once a day: after a tick that fired
      it, a later tick on the same date runs no reminder. */
  lemma TickReminderOncePerDay(s: State, settings: Settings, poll: Poll, poll2: Poll, now: Clock, again: Clock,
                               generated: Option<seq<TrendItem>>, idea: string)
    requires settings.telegramBotToken != ""
    requires ShouldFire(settings, s.lastReminderDate, now)
    requires again.dateKey == now.dateKey
    ensures var s1 := TickStep(s, settings, poll, now, generated, idea);
            && s1.lastReminderDate == now.dateKey
            && CheckReminder(settings, s1.tasks, s1.lastReminderDate, again) == Check(now.dateKey, [])
            && TickStep(s1, settings, poll2, again, generated, idea).lastReminderDate == now.dateKey
  {
    var s1 := TickStep(s, settings, poll, now, generated, idea);
    assert s1.lastReminderDate == now.dateKey;
    assert !ShouldFire(settings, s1.lastReminderDate, again);
  }

  /** A reminder in the same tick as an add lists the tasks the tick
      started with, not the one the command added. */
  lemma ReminderSeesTickStart(s: State, settings: Settings, poll: Poll, now: Clock,
                              generated: Option<seq<TrendItem>>, idea: string)
    requires settings.telegramBotToken != ""
    requires ShouldFire(settings, s.lastReminderDate, now)
    ensures var a := CommandPhase(s, settings, poll, now, generated, idea);
            TickStep(s, settings, poll, now, generated, idea).outbox
              == a.outbox + Send(settings.telegramBotToken, settings.telegramChatId, ReminderMessage(s.tasks))
  {
  }

  // ---------------------------------------------------------------------------
  // The dashboard component

  /** The part of the dashboard that the monitoring loop drives. */
  class App {
    var tasks: seq<Task>
    var notes: seq<Note>
    var trends: seq<TrendItem>
    var activeTrendCategory: TrendCategory
    var isScanning: bool
    var lastUpdateId: int
    var lastReminderDate: string
    var outbox: seq<Outgoing>

    function Current(): State
      reads this
    {
      State(tasks, notes, trends, activeTrendCategory, isScanning, lastUpdateId, lastReminderDate, outbox)
    }

    /** A fresh page: the persisted lists, no trends, the General category,
        cursor 0 and no reminder sent yet. */
    constructor (savedTasks: seq<Task>, savedNotes: seq<Note>)
      ensures Current() == State(savedTasks, savedNotes, [], General, false, 0, "", [])
    {
      tasks, notes, trends := savedTasks, savedNotes, [];
      activeTrendCategory, isScanning := General, false;
      lastUpdateId, lastReminderDate, outbox := 0, "", [];
    }

    /** `performScan`. */
    method PerformScan(silent: bool, settings: Settings, generated: Option<seq<TrendItem>>)
      modifies this
      ensures Current() == ScanStep(old(Current()), silent, settings, generated)
    {
      if !silent {
        isScanning := true;
      }
      var result := AnalyzeTrends(activeTrendCategory, generated);
      if |result| > 0 {
        trends := result;
        if silent && settings.telegramBotToken != "" {
          outbox := outbox + Notify(settings, result[0]);
        }
      }
      if !silent {
        isScanning := false;
      }
    }

    /** The interval callback. */
    method Tick(settings: Settings, poll: Poll, now: Clock, generated: Option<seq<TrendItem>>, idea: string)
      modifies this
      ensures Current() == TickStep(old(Current()), settings, poll, now, generated, idea)
    {
      if settings.telegramBotToken == "" {
        return;
      }
      var heldTasks, heldReminderDate := tasks, lastReminderDate;

      // A. chat commands
      var resp := CheckCommands(settings.telegramBotToken, lastUpdateId, poll);
      lastUpdateId := resp.nextUpdateId;
      if Actionable(resp) {
        var chat := IntegerString(resp.chatId.value);
        var e := Dispatch(settings.telegramBotToken, resp.command.value, resp.payload, chat, tasks, notes, now, idea);
        tasks, notes := e.tasks, e.notes;
        outbox := outbox + e.sent;
        if e.scan {
          PerformScan(true, settings, generated);
        }
      }

      // B. daily reminder
      var check := CheckReminder(settings, heldTasks, heldReminderDate, now);
      outbox := outbox + check.sent;
      lastReminderDate := check.lastReminderDate;
    }
  }
}
