/** The organizer page (components/TaskManager.tsx): the task and note
    lists with their input fields, and the two reminder settings it edits.
    Every handler builds new lists and hands them up; nothing is changed in
    place, so each handler is a function from the page state to the page
    state. `Date.now()` is the parameter `now`. */
module Organizer {
  import opened JsText
  import opened Records

  // ---------------------------------------------------------------------------
  // Filters over the task list

  /** The task filters the dashboard uses: open tasks, completed tasks,
      and every task but those with a given id. */
  datatype TaskFilter = OpenOnly | CompletedOnly | AllBut(id: string)

  predicate Keeps(f: TaskFilter, t: Task) {
    match f
    case OpenOnly => !t.completed
    case CompletedOnly => t.completed
    case AllBut(id) => t.id != id
  }

  /** `tasks.filter(...)`: the kept tasks, in list order. */
  function Filter(tasks: seq<Task>, f: TaskFilter): (r: seq<Task>)
    ensures |r| <= |tasks|
    ensures forall t :: t in r <==> t in tasks && Keeps(f, t)
  {
    if tasks == [] then []
    else
      var rest := Filter(tasks[1..], f);
      assert forall t :: t in tasks <==> t == tasks[0] || t in tasks[1..];
      if Keeps(f, tasks[0]) then [tasks[0]] + rest else rest
  }

  /** Filtering distributes over concatenation, so it keeps the order. */
  lemma {:induction false} FilterConcat(xs: seq<Task>, ys: seq<Task>, f: TaskFilter)
    ensures Filter(xs + ys, f) == Filter(xs, f) + Filter(ys, f)
    decreases |xs|
  {
    if xs != [] {
      var zs := xs + ys;
      assert zs[0] == xs[0] && zs[1..] == xs[1..] + ys;
      FilterConcat(xs[1..], ys, f);
    } else {
      assert xs + ys == ys;
    }
  }

  /** A filter that keeps every task is the identity. */
  lemma {:induction false} FilterKeepsAll(tasks: seq<Task>, f: TaskFilter)
    requires forall k :: 0 <= k < |tasks| ==> Keeps(f, tasks[k])
    ensures Filter(tasks, f) == tasks
    decreases |tasks|
  {
    if tasks != [] {
      FilterKeepsAll(tasks[1..], f);
    }
  }

  /** The open tasks in list order (`tasks.filter(t => !t.completed)`). */
  function Active(tasks: seq<Task>): seq<Task> {
    Filter(tasks, OpenOnly)
  }

  /** The texts of a list of tasks, in order. */
  function Texts(tasks: seq<Task>): (r: seq<string>)
    ensures |r| == |tasks|
    ensures forall k :: 0 <= k < |r| ==> r[k] == tasks[k].text
  {
    if tasks == [] then [] else [tasks[0].text] + Texts(tasks[1..])
  }

  /** The ids of a list of tasks. */
  function TaskIds(tasks: seq<Task>): set<string> {
    set t | t in tasks :: t.id
  }

  /** No two tasks share an id. */
  predicate UniqueIds(tasks: seq<Task>) {
    forall i, j :: 0 <= i < j < |tasks| ==> tasks[i].id != tasks[j].id
  }

  // ---------------------------------------------------------------------------
  // The page state and its handlers

  /** The task and note lists, the settings, and the page's own input
      fields. */
  datatype Page = Page(
    tasks: seq<Task>,
    notes: seq<Note>,
    settings: Settings,
    taskInput: string,
    taskIsDaily: bool,
    noteInput: string)

  /** The task `addTask` creates at time `now`. */
  function NewTask(text: string, isDaily: bool, now: nat): Task {
    Task(DecimalString(now), text, false, isDaily, now)
  }

  /** `addTask`: white-space-only input changes nothing; otherwise one task
      carrying the input as typed (untrimmed), open, with the page's daily
      flag, goes to the front, and the input and the flag are reset. */
  function AddTask(p: Page, now: nat): (r: Page)
    ensures AllSpace(p.taskInput) ==> r == p
    ensures !AllSpace(p.taskInput) ==>
      && r.tasks == [NewTask(p.taskInput, p.taskIsDaily, now)] + p.tasks
      && r.taskInput == "" && !r.taskIsDaily
      && r.notes == p.notes && r.settings == p.settings && r.noteInput == p.noteInput
  {
    TrimEmptyIffAllSpace(p.taskInput);
    if Trim(p.taskInput) == "" then p
    else p.(tasks := [NewTask(p.taskInput, p.taskIsDaily, now)] + p.tasks, taskInput := "", taskIsDaily := false)
  }

  /** Adding a task puts it at the head of the open list: the open count
      grows by exactly one. */
  lemma AddTaskOpensOne(p: Page, now: nat)
    requires !AllSpace(p.taskInput)
    ensures Active(AddTask(p, now).tasks) == [NewTask(p.taskInput, p.taskIsDaily, now)] + Active(p.tasks)
    ensures |Active(AddTask(p, now).tasks)| == |Active(p.tasks)| + 1
  {
    var t := NewTask(p.taskInput, p.taskIsDaily, now);
    FilterConcat([t], p.tasks, OpenOnly);
  }

  /** Flips `completed` on exactly the tasks with the given id
      (`tasks.map(t => t.id === id ? {...t, completed: !t.completed} : t)`). */
  function ToggleById(tasks: seq<Task>, id: string): (r: seq<Task>)
    ensures |r| == |tasks|
    ensures forall k :: 0 <= k < |r| ==> tasks[k].id == id ==> r[k] == tasks[k].(completed := !tasks[k].completed)
    ensures forall k :: 0 <= k < |r| ==> tasks[k].id != id ==> r[k] == tasks[k]
  {
    if tasks == [] then []
    else
      var t := tasks[0];
      [if t.id == id then t.(completed := !t.completed) else t] + ToggleById(tasks[1..], id)
  }

  /** `toggleTask`: only the task list changes. */
  function ToggleTask(p: Page, id: string): (r: Page)
    ensures r.(tasks := p.tasks) == p
    ensures r.tasks == ToggleById(p.tasks, id)
  {
    p.(tasks := ToggleById(p.tasks, id))
  }

  /** Toggling the same id twice restores the list. */
  lemma ToggleTwice(tasks: seq<Task>, id: string)
    ensures ToggleById(ToggleById(tasks, id), id) == tasks
  {
    var once := ToggleById(tasks, id);
    var twice := ToggleById(once, id);
    assert forall k :: 0 <= k < |tasks| ==> twice[k] == tasks[k];
  }

  /** `deleteTask`: every task with the id is removed, the rest keep their
      order, and nothing else on the page changes. */
  function DeleteTask(p: Page, id: string): (r: Page)
    ensures r.(tasks := p.tasks) == p
    ensures forall t :: t in r.tasks <==> t in p.tasks && t.id != id
    ensures id !in TaskIds(p.tasks) ==> r == p
    ensures r.tasks == Filter(p.tasks, AllBut(id))
  {
    if id !in TaskIds(p.tasks) then
      FilterKeepsAll(p.tasks, AllBut(id));
      p.(tasks := Filter(p.tasks, AllBut(id)))
    else p.(tasks := Filter(p.tasks, AllBut(id)))
  }

  /** Deleting what was just added restores the list, when the new id is
      not already in use. */
  lemma AddThenDeleteTask(p: Page, now: nat)
    requires !AllSpace(p.taskInput)
    requires DecimalString(now) !in TaskIds(p.tasks)
    ensures DeleteTask(AddTask(p, now), DecimalString(now)).tasks == p.tasks
  {
    var id := DecimalString(now);
    var t := NewTask(p.taskInput, p.taskIsDaily, now);
    FilterConcat([t], p.tasks, AllBut(id));
    FilterKeepsAll(p.tasks, AllBut(id));
    assert [t][1..] == [];
  }

  /** The note `addNote` creates at time `now`. */
  function NewNote(text: string, now: nat): Note {
    Note(DecimalString(now), text, now)
  }

  /** `addNote`: white-space-only input changes nothing; otherwise one note
      with the input as typed goes to the front and the input is reset. */
  function AddNote(p: Page, now: nat): (r: Page)
    ensures AllSpace(p.noteInput) ==> r == p
    ensures !AllSpace(p.noteInput) ==>
      && r.notes == [NewNote(p.noteInput, now)] + p.notes
      && r.noteInput == ""
      && r.(notes := p.notes, noteInput := p.noteInput) == p
  {
    TrimEmptyIffAllSpace(p.noteInput);
    if Trim(p.noteInput) == "" then p
    else p.(notes := [NewNote(p.noteInput, now)] + p.notes, noteInput := "")
  }

  /** Every note but those with the given id, in order. */
  function WithoutNote(notes: seq<Note>, id: string): (r: seq<Note>)
    ensures |r| <= |notes|
    ensures forall n :: n in r <==> n in notes && n.id != id
  {
    if notes == [] then []
    else
      var rest := WithoutNote(notes[1..], id);
      assert forall n :: n in notes <==> n == notes[0] || n in notes[1..];
      if notes[0].id != id then [notes[0]] + rest else rest
  }

  /** `deleteNote`: the notes with that id go, nothing else changes. */
  function DeleteNote(p: Page, id: string): (r: Page)
    ensures r.(notes := p.notes) == p
    ensures forall n :: n in r.notes <==> n in p.notes && n.id != id
    ensures r.notes == WithoutNote(p.notes, id)
  {
    p.(notes := WithoutNote(p.notes, id))
  }

  /** Removing notes with an id keeps the order of the others: it
      distributes over concatenation. */
  lemma {:induction false} WithoutNoteConcat(xs: seq<Note>, ys: seq<Note>, id: string)
    ensures WithoutNote(xs + ys, id) == WithoutNote(xs, id) + WithoutNote(ys, id)
    decreases |xs|
  {
    if xs != [] {
      var zs := xs + ys;
      assert zs[0] == xs[0] && zs[1..] == xs[1..] + ys;
      WithoutNoteConcat(xs[1..], ys, id);
      var rest := WithoutNote(zs[1..], id);
      assert WithoutNote(zs, id) == (if xs[0].id != id then [xs[0]] + rest else rest);
      assert WithoutNote(xs, id) == (if xs[0].id != id then [xs[0]] + WithoutNote(xs[1..], id) else WithoutNote(xs[1..], id));
    } else {
      assert xs + ys == ys;
    }
  }

  /** `toggleDailyReminders`: only the reminder flag changes. */
  function SetDailyReminders(p: Page, checked: bool): (r: Page)
    ensures r.settings.enableDailyReminders == checked
    ensures r.settings.(enableDailyReminders := p.settings.enableDailyReminders) == p.settings
    ensures r.(settings := p.settings) == p
  {
    p.(settings := p.settings.(enableDailyReminders := checked))
  }

  /** `handleTimeChange`: only the reminder time changes. */
  function SetReminderTime(p: Page, value: string): (r: Page)
    ensures r.settings.dailyReminderTime == value
    ensures r.settings.(dailyReminderTime := p.settings.dailyReminderTime) == p.settings
    ensures r.(settings := p.settings) == p
  {
    p.(settings := p.settings.(dailyReminderTime := value))
  }
}
