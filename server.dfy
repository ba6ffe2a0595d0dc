/** The server-side bot (server.js:14-111): module-level task and note
    lists and a poll cursor, driven by a loop over every update of a
    getUpdates batch. Unlike the dashboard it handles the whole batch,
    appends instead of prepending, and completes a task by setting `done`
    on the task object reached through a filtered view of the list, so the
    task objects are modelled as heap cells. `Date.now()` and the answer of
    the generation service are inputs, one `Env` per update. */
module ServerBot {
  import opened JsText
  import opened Records
  import TelegramService

  /** A server task as plain data. */
  datatype ServerTask = ServerTask(id: int, text: string, done: bool)

  /** A server note. */
  datatype ServerNote = ServerNote(id: int, text: string)

  /** The environment variables the loop reads; an unset variable is `""`. */
  datatype Config = Config(token: string, chat: string)

  /** What the outside world supplies while one update is handled: the
      clock reading for a new id and the generation service's answer. */
  datatype Env = Env(stamp: nat, idea: string)

  /** The module-level state of the server, plus the messages sent. */
  datatype BotState = BotState(tasks: seq<ServerTask>, notes: seq<ServerNote>, lastUpdateId: int, outbox: seq<Outgoing>)

  // ---------------------------------------------------------------------------
  // The open view of the task list

  /** The positions of the not-done tasks, in insertion order: the tasks
      `tasks.filter(t => !t.done)` refers to. */
  function OpenPositions(vals: seq<ServerTask>): (r: seq<nat>)
    ensures forall k :: 0 <= k < |r| ==> r[k] < |vals| && !vals[r[k]].done
  {
    if vals == [] then []
    else
      var n := |vals| - 1;
      var p := OpenPositions(vals[..n]);
      assert forall i :: 0 <= i < n ==> vals[..n][i] == vals[i];
      p + (if vals[n].done then [] else [n])
  }

  /** The `/list` reply: the open tasks numbered from 1 in insertion order,
      or the placeholder, then the done tasks unnumbered. */
  function ServerListing(vals: seq<ServerTask>): Message {
    var pos := OpenPositions(vals);
    TaskList(if pos == [] then NoActiveTasks
             else Numbered(seq(|pos|, k requires 0 <= k < |pos| => ListEntry(k + 1, vals[pos[k]].text))),
             DoneTexts(vals))
  }

  /** The texts of the done tasks, in insertion order. */
  function DoneTexts(vals: seq<ServerTask>): seq<string> {
    if vals == [] then []
    else DoneTexts(vals[..|vals| - 1]) + (if vals[|vals| - 1].done then [vals[|vals| - 1].text] else [])
  }

  /** A done text is the text of a done task, and every done task's text
      is listed. */
  lemma {:induction false} DoneTextsAreDone(vals: seq<ServerTask>)
    ensures forall t :: t in DoneTexts(vals) <==> exists i :: 0 <= i < |vals| && vals[i].done && vals[i].text == t
    decreases |vals|
  {
    if vals != [] {
      var n := |vals| - 1;
      DoneTextsAreDone(vals[..n]);
      assert forall i :: 0 <= i < n ==> vals[..n][i] == vals[i];
    }
  }

  /** `/list` shows the placeholder exactly when nothing is open; otherwise
      line `k + 1` holds the `k`-th open task; the done part lists exactly
      the done tasks. */
  lemma ServerListingShows(vals: seq<ServerTask>)
    ensures var m := ServerListing(vals);
            && m.TaskList?
            && (m.todo == NoActiveTasks <==> OpenPositions(vals) == [])
            && (m.todo.Numbered? ==> |m.todo.entries| == |OpenPositions(vals)| && forall k :: 0 <= k < |m.todo.entries| ==>
                  m.todo.entries[k] == ListEntry(k + 1, vals[OpenPositions(vals)[k]].text))
            && (forall t :: t in m.done <==> exists i :: 0 <= i < |vals| && vals[i].done && vals[i].text == t)
  {
    DoneTextsAreDone(vals);
  }

  /** The open-view index `/done` picks: `parseInt(content) - 1` when it
      names an element of the view (`active[index]` is then an object). */
  function DoneTarget(content: string, openCount: nat): (r: Option<nat>)
    ensures r.Some? <==> ParseInt(content).Some? && 1 <= ParseInt(content).value <= openCount
    ensures r.Some? ==> r.value == ParseInt(content).value - 1
  {
    match ParseInt(content)
    case None => None
    case Some(n) => if 0 <= n - 1 < openCount then Some(n - 1) else None
  }

  /** The open view holds every open task, each once, in insertion
      order. */
  lemma {:induction false} OpenPositionsComplete(vals: seq<ServerTask>)
    ensures forall i :: 0 <= i < |vals| && !vals[i].done ==> i in OpenPositions(vals)
    ensures forall k, l :: 0 <= k < l < |OpenPositions(vals)| ==> OpenPositions(vals)[k] < OpenPositions(vals)[l]
    decreases |vals|
  {
    if vals != [] {
      var n := |vals| - 1;
      OpenPositionsComplete(vals[..n]);
      assert forall i :: 0 <= i < n ==> vals[..n][i] == vals[i];
    }
  }

  /** The open view of a list with one more task at the end. */
  lemma OpenPositionsSnoc(front: seq<ServerTask>, x: ServerTask)
    ensures OpenPositions(front + [x]) == OpenPositions(front) + (if x.done then [] else [|front|])
  {
    assert (front + [x])[..|front|] == front;
  }

  /** Marking the last task done, when it is open, leaves the open view of
      the tasks before it. */
  lemma MarkLastOpen(vals: seq<ServerTask>)
    requires vals != [] && !vals[|vals| - 1].done
    ensures var n := |vals| - 1;
            OpenPositions(vals[n := vals[n].(done := true)]) == OpenPositions(vals[..n])
  {
    var n := |vals| - 1;
    assert vals[n := vals[n].(done := true)] == vals[..n] + [vals[n].(done := true)];
    OpenPositionsSnoc(vals[..n], vals[n].(done := true));
  }

  /** Marking a task before the last one leaves the last task's part of the
      open view alone. */
  lemma MarkBeforeLast(vals: seq<ServerTask>, p: nat)
    requires p < |vals| - 1
    ensures var n := |vals| - 1;
            OpenPositions(vals[p := vals[p].(done := true)])
              == OpenPositions(vals[..n][p := vals[p].(done := true)]) + (if vals[n].done then [] else [n])
  {
    var n := |vals| - 1;
    var markedFront := vals[..n][p := vals[p].(done := true)];
    assert vals[p := vals[p].(done := true)] == markedFront + [vals[n]];
    OpenPositionsSnoc(markedFront, vals[n]);
  }

  /** Marking the `k`-th open task done takes exactly that position off
      the open view. */
  lemma {:induction false} MarkOpen(vals: seq<ServerTask>, k: nat)
    requires k < |OpenPositions(vals)|
    ensures var pos := OpenPositions(vals);
            OpenPositions(vals[pos[k] := vals[pos[k]].(done := true)]) == pos[..k] + pos[k + 1..]
    decreases |vals|
  {
    var pos := OpenPositions(vals);
    var n := |vals| - 1;
    var fp := OpenPositions(vals[..n]);
    var tail := if vals[n].done then [] else [n];
    assert pos == fp + tail;
    if k == |fp| {
      assert pos[k] == n && pos[..k] + pos[k + 1..] == fp;
      MarkLastOpen(vals);
    } else {
      var p := fp[k];
      assert pos[k] == p && p < n;
      assert OpenPositions(vals[p := vals[p].(done := true)]) == fp[..k] + fp[k + 1..] + tail by {
        MarkOpen(vals[..n], k);
        MarkBeforeLast(vals, p);
      }
      assert pos[..k] + pos[k + 1..] == fp[..k] + fp[k + 1..] + tail;
    }
  }

  // ---------------------------------------------------------------------------
  // One update and one batch, as functions

  /** What the loop makes of an update's text: nothing for empty text,
      else the first command prefix it starts with, in the order `/task`,
      `/note`, `/list`, `/done`, `/idea`, `/help`, together with the
      trimmed text after the prefix where that command uses it. */
  datatype Input = NoText | TaskText(content: string) | NoteText(content: string) | ListText
                 | DoneText(content: string) | IdeaText | HelpText | OtherText

  function Parse(text: string): Input {
    if text == "" then NoText
    else if StartsWith(text, "/task") then TaskText(TelegramService.PayloadAfter(text, "/task"))
    else if StartsWith(text, "/note") then NoteText(TelegramService.PayloadAfter(text, "/note"))
    else if StartsWith(text, "/list") then ListText
    else if StartsWith(text, "/done") then DoneText(TelegramService.PayloadAfter(text, "/done"))
    else if StartsWith(text, "/idea") then IdeaText
    else if StartsWith(text, "/help") then HelpText
    else OtherText
  }

  /** A text starting with `/done` is a done command with the trimmed
      rest of the text. */
  lemma ParseDoneText(text: string)
    requires StartsWith(text, "/done")
    ensures Parse(text) == DoneText(TelegramService.PayloadAfter(text, "/done"))
  {
    assert text[..5] == "/done" && text[1] == 'd';
  }

  /** A number after one space trims to itself. */
  lemma TrimSpacedNumber(ds: string)
    requires ds != [] && (ds[0] == '-' || IsDigit(ds[0])) && IsDigit(ds[|ds| - 1])
    ensures Trim(" " + ds) == ds
  {
    assert TrimStart(" " + ds) == TrimStart(ds) == ds by {
      assert (" " + ds)[1..] == ds;
    }
    TrimEndOfDigits(ds);
  }

  /** `/done` followed by a space and a number reads as that number. */
  lemma ParseDoneNumber(n: int)
    ensures Parse("/done " + IntegerString(n)) == DoneText(IntegerString(n))
  {
    var ds := IntegerString(n);
    var text := "/done " + ds;
    assert text[..5] == "/done";
    ParseDoneText(text);
    assert RemoveFirst(text, "/done") == " " + ds by {
      RemoveLeadingToken(text, "/done");
      assert text[5..] == " " + ds;
    }
    IntegerStringEnds(n);
    TrimSpacedNumber(ds);
  }

  /** A string ending in a digit loses nothing to `TrimEnd`. */
  lemma TrimEndOfDigits(ds: string)
    requires ds != [] && IsDigit(ds[|ds| - 1])
    ensures TrimEnd(ds) == ds
  {
  }

  /** The state with one more message to the configured chat. */
  function WithReply(st: BotState, config: Config, m: Message): BotState {
    st.(outbox := st.outbox + TelegramService.Send(config.token, config.chat, m))
  }

  /** The effect of one parsed update on the lists and the outgoing log. */
  function Apply(st: BotState, config: Config, input: Input, env: Env): (r: BotState)
    ensures r.lastUpdateId == st.lastUpdateId
    ensures |r.tasks| >= |st.tasks| && |r.notes| >= |st.notes|
  {
    match input
    case NoText => st
    case TaskText(content) =>
      if content != "" then WithReply(st.(tasks := st.tasks + [ServerTask(env.stamp, content, false)]), config, TaskAdded(content))
      else WithReply(st, config, TaskTextMissing)
    case NoteText(content) => WithReply(st.(notes := st.notes + [ServerNote(env.stamp, content)]), config, NoteSaved)
    case ListText => WithReply(st, config, ServerListing(st.tasks))
    case DoneText(content) => DoneCommand(st, config, content)
    case IdeaText => WithReply(WithReply(st, config, GeneratingIdea), config, Idea(env.idea))
    case HelpText => WithReply(st, config, ServerHelp)
    case OtherText => st
  }

  /** `/done`: the task the open view holds at the picked index is marked
      done; without such an index the number is reported invalid. */
  function DoneCommand(st: BotState, config: Config, content: string): (r: BotState)
    ensures |r.tasks| == |st.tasks| && r.notes == st.notes && r.lastUpdateId == st.lastUpdateId
  {
    var pos := OpenPositions(st.tasks);
    match DoneTarget(content, |pos|)
    case Some(k) =>
      var t := st.tasks[pos[k]];
      WithReply(st.(tasks := st.tasks[pos[k] := t.(done := true)]), config, TaskCompleted(t.text))
    case None =>
      WithReply(st, config, InvalidTaskNumber)
  }

  /** One update: the cursor moves to its id before anything else. */
  function Step(st: BotState, config: Config, id: int, input: Input, env: Env): (r: BotState)
    ensures r.lastUpdateId == id
  {
    Apply(st.(lastUpdateId := id), config, input, env)
  }

  /** The ids and parsed texts of a batch's updates. */
  function Inputs(updates: seq<Update>): (r: seq<(int, Input)>)
    ensures |r| == |updates|
  {
    seq(|updates|, i requires 0 <= i < |updates| => (updates[i].updateId, Parse(updates[i].text)))
  }

  /** The updates of a batch handled in order. */
  function Batch(st: BotState, config: Config, inputs: seq<(int, Input)>, envs: seq<Env>): BotState
    requires |envs| == |inputs|
    decreases |inputs|
  {
    if inputs == [] then st
    else
      var n := |inputs| - 1;
      Step(Batch(st, config, inputs[..n], envs[..n]), config, inputs[n].0, inputs[n].1, envs[n])
  }

  /** `processCommands`: nothing without a token; otherwise a successful,
      non-empty answer is handled as a batch, and anything else changes
      nothing. */
  function Run(st: BotState, config: Config, poll: Poll, envs: seq<Env>): BotState
    requires poll.PollAnswer? ==> |envs| == |poll.result|
  {
    if config.token == "" then st
    else match poll
      case PollFailed => st
      case PollAnswer(ok, result) => if ok && |result| > 0 then Batch(st, config, Inputs(result), envs) else st
  }

  /** Without a token the call returns at once: tasks, notes, cursor and
      outgoing log are untouched. */
  lemma NoTokenNoOp(st: BotState, config: Config, poll: Poll, envs: seq<Env>)
    requires config.token == ""
    requires poll.PollAnswer? ==> |envs| == |poll.result|
    ensures Run(st, config, poll, envs) == st
  {
  }

  /** After any non-empty prefix of a batch the cursor is the id of the
      prefix's last update, whatever that update said: progress survives
      a failure later in the batch. */
  lemma CursorAfterPrefix(st: BotState, config: Config, updates: seq<Update>, envs: seq<Env>, i: nat)
    requires |envs| == |updates| && 0 < i <= |updates|
    ensures Batch(st, config, Inputs(updates)[..i], envs[..i]).lastUpdateId == updates[i - 1].updateId
  {
    assert Inputs(updates)[..i][i - 1] == Inputs(updates)[i - 1];
  }

  /** A poll that fails, answers not-ok or brings no update leaves the
      whole state alone; one that brings a batch leaves the cursor at the
      batch's last id. When Telegram only delivers updates after the
      cursor, the cursor therefore never moves back. */
  lemma RunCursorMonotone(st: BotState, config: Config, poll: Poll, envs: seq<Env>)
    requires poll.PollAnswer? ==> |envs| == |poll.result|
    requires TelegramService.AfterCursor(st.lastUpdateId, poll)
    ensures !(config.token != "" && poll.PollAnswer? && poll.ok && |poll.result| > 0) ==> Run(st, config, poll, envs) == st
    ensures config.token != "" && poll.PollAnswer? && poll.ok && |poll.result| > 0 ==>
              Run(st, config, poll, envs).lastUpdateId == poll.result[|poll.result| - 1].updateId
    ensures Run(st, config, poll, envs).lastUpdateId >= st.lastUpdateId
  {
    if config.token != "" && poll.PollAnswer? && poll.ok && |poll.result| > 0 {
      var n := |poll.result|;
      CursorAfterPrefix(st, config, poll.result, envs, n);
      assert Inputs(poll.result)[..n] == Inputs(poll.result) && envs[..n] == envs;
    }
  }

  /** An update without text moves the cursor and does nothing else. */
  lemma EmptyTextOnlyMovesCursor(st: BotState, config: Config, id: int, env: Env)
    ensures Step(st, config, id, Parse(""), env) == st.(lastUpdateId := id)
  {
  }

  /** `/task` with text appends one open task at the end and acknowledges
      it; without text it adds nothing and asks for the text. */
  lemma TaskAppends(st: BotState, config: Config, content: string, env: Env)
    ensures var r := Apply(st, config, TaskText(content), env);
            && r.notes == st.notes
            && (content != "" ==> r.tasks == st.tasks + [ServerTask(env.stamp, content, false)]
                                  && r.outbox == st.outbox + TelegramService.Send(config.token, config.chat, TaskAdded(content)))
            && (content == "" ==> r.tasks == st.tasks
                                  && r.outbox == st.outbox + TelegramService.Send(config.token, config.chat, TaskTextMissing))
  {
  }

  /** `/note` appends a note even when its text is empty, acknowledges
      it, and leaves the tasks alone. */
  lemma NoteAlwaysAppends(st: BotState, config: Config, content: string, env: Env)
    ensures Apply(st, config, NoteText(content), env)
              == st.(notes := st.notes + [ServerNote(env.stamp, content)],
                     outbox := st.outbox + TelegramService.Send(config.token, config.chat, NoteSaved))
  {
  }

  /** `/list`, `/idea` and `/help` only reply: `/list` sends the listing
      of the current tasks, `/idea` the progress notice and then the
      service's answer, `/help` the command summary; a text that starts
      with no known command does nothing at all. */
  lemma RepliesOnly(st: BotState, config: Config, env: Env)
    ensures Apply(st, config, ListText, env)
              == st.(outbox := st.outbox + TelegramService.Send(config.token, config.chat, ServerListing(st.tasks)))
    ensures Apply(st, config, IdeaText, env)
              == st.(outbox := st.outbox + TelegramService.Send(config.token, config.chat, GeneratingIdea)
                                         + TelegramService.Send(config.token, config.chat, Idea(env.idea)))
    ensures Apply(st, config, HelpText, env)
              == st.(outbox := st.outbox + TelegramService.Send(config.token, config.chat, ServerHelp))
    ensures Apply(st, config, OtherText, env) == st
  {
  }

  /** `/done n` for 1 <= n <= (open count) marks the `n`-th open task in
      insertion order done, in place, and nothing else in the list; the
      open view loses exactly that task. Any other number leaves the list
      alone and says the number is invalid. */
  lemma DoneMarksNth(st: BotState, config: Config, content: string)
    ensures var pos := OpenPositions(st.tasks);
            var target := DoneTarget(content, |pos|);
            var r := DoneCommand(st, config, content);
            && (target.Some? ==>
                  && r.tasks[pos[target.value]] == st.tasks[pos[target.value]].(done := true)
                  && (forall i :: 0 <= i < |st.tasks| && i != pos[target.value] ==> r.tasks[i] == st.tasks[i])
                  && OpenPositions(r.tasks) == pos[..target.value] + pos[target.value + 1..]
                  && r.outbox == st.outbox + TelegramService.Send(config.token, config.chat, TaskCompleted(st.tasks[pos[target.value]].text)))
            && (target.None? ==>
                  r.tasks == st.tasks
                  && r.outbox == st.outbox + TelegramService.Send(config.token, config.chat, InvalidTaskNumber))
  {
    var pos := OpenPositions(st.tasks);
    var target := DoneTarget(content, |pos|);
    if target.Some? {
      MarkOpen(st.tasks, target.value);
    }
  }

  /** The number `/list` shows for a task is the number `/done` takes to
      complete it: `/done k` marks the task listed as `k`. */
  lemma ListedNumberCompletes(vals: seq<ServerTask>, k: nat)
    requires ServerListing(vals).todo.Numbered? && k < |ServerListing(vals).todo.entries|
    ensures var e := ServerListing(vals).todo.entries[k];
            && Parse("/done " + IntegerString(e.number)) == DoneText(IntegerString(e.number))
            && DoneTarget(IntegerString(e.number), |OpenPositions(vals)|) == Some(k)
            && vals[OpenPositions(vals)[k]].text == e.text
  {
    var e := ServerListing(vals).todo.entries[k];
    assert e == ListEntry(k + 1, vals[OpenPositions(vals)[k]].text) by {
      ServerListingShows(vals);
    }
    DoneTargetOfNumber(k + 1, |OpenPositions(vals)|);
    ParseDoneNumber(k + 1);
  }

  /** A rendered number from 1 to the open count picks the element just
      before it. */
  lemma DoneTargetOfNumber(n: int, openCount: nat)
    requires 1 <= n <= openCount
    ensures DoneTarget(IntegerString(n), openCount) == Some(n - 1)
  {
    ParseIntRoundTrip(n);
  }

  /** The texts of a list of server tasks. */
  function TaskTexts(vals: seq<ServerTask>): seq<string> {
    if vals == [] then [] else TaskTexts(vals[..|vals| - 1]) + [vals[|vals| - 1].text]
  }

  /** The task texts of a batch of `/task` inputs, in batch order. */
  function TaskContents(inputs: seq<(int, Input)>): seq<string>
    requires forall i :: 0 <= i < |inputs| ==> inputs[i].1.TaskText?
  {
    if inputs == [] then []
    else TaskContents(inputs[..|inputs| - 1]) + [inputs[|inputs| - 1].1.content]
  }

  /** Every update of the batch counts: a batch of `/task` commands with
      text appends all of their texts, in batch order, where the dashboard
      would act on the last update alone. */
  lemma {:induction false} TaskBatchAppendsAll(st: BotState, config: Config, inputs: seq<(int, Input)>, envs: seq<Env>)
    requires |envs| == |inputs|
    requires forall i :: 0 <= i < |inputs| ==> inputs[i].1.TaskText? && inputs[i].1.content != ""
    ensures TaskTexts(Batch(st, config, inputs, envs).tasks) == TaskTexts(st.tasks) + TaskContents(inputs)
    decreases |inputs|
  {
    if inputs != [] {
      var n := |inputs| - 1;
      var front, frontEnvs := inputs[..n], envs[..n];
      var c := inputs[n].1.content;
      var prior := Batch(st, config, front, frontEnvs);
      assert TaskTexts(Batch(st, config, inputs, envs).tasks) == TaskTexts(prior.tasks) + [c] by {
        BatchSnocTask(st, config, inputs, envs);
        TaskTextsSnoc(prior.tasks, ServerTask(envs[n].stamp, c, false));
      }
      assert TaskTexts(prior.tasks) == TaskTexts(st.tasks) + TaskContents(front) by {
        assert forall i :: 0 <= i < n ==> front[i] == inputs[i];
        TaskBatchAppendsAll(st, config, front, frontEnvs);
      }
      assert TaskContents(inputs) == TaskContents(front) + [c];
    }
  }

  /** A batch that ends in a `/task` with text ends by appending that task. */
  lemma BatchSnocTask(st: BotState, config: Config, inputs: seq<(int, Input)>, envs: seq<Env>)
    requires |envs| == |inputs| && inputs != []
    requires inputs[|inputs| - 1].1.TaskText? && inputs[|inputs| - 1].1.content != ""
    ensures var n := |inputs| - 1;
            Batch(st, config, inputs, envs).tasks
              == Batch(st, config, inputs[..n], envs[..n]).tasks + [ServerTask(envs[n].stamp, inputs[n].1.content, false)]
  {
    var n := |inputs| - 1;
    var prior := Batch(st, config, inputs[..n], envs[..n]);
    TaskAppends(prior.(lastUpdateId := inputs[n].0), config, inputs[n].1.content, envs[n]);
  }

  /** The texts of a list with one more task at the end. */
  lemma TaskTextsSnoc(vals: seq<ServerTask>, x: ServerTask)
    ensures TaskTexts(vals + [x]) == TaskTexts(vals) + [x.text]
  {
    assert (vals + [x])[..|vals|] == vals;
  }

  // ---------------------------------------------------------------------------
  // The server as objects

  /** A list of task objects as values. */
  function Values(cells: seq<TaskCell>): (r: seq<ServerTask>)
    reads cells
    ensures |r| == |cells|
    ensures forall i :: 0 <= i < |cells| ==> r[i] == ServerTask(cells[i].id, cells[i].text, cells[i].done)
  {
    seq(|cells|, i reads cells requires 0 <= i < |cells| => ServerTask(cells[i].id, cells[i].text, cells[i].done))
  }

  /** A task object of the server's list; `done` is the only field that
      changes after creation. */
  class TaskCell {
    const id: int
    const text: string
    var done: bool

    constructor (id: int, text: string)
      ensures this.id == id && this.text == text && !done
    {
      this.id := id;
      this.text := text;
      done := false;
    }
  }

  /** The server's module state. */
  class Server {
    const config: Config
    var tasks: seq<TaskCell>
    var notes: seq<ServerNote>
    var lastUpdateId: int
    var outbox: seq<Outgoing>

    /** Every list entry is its own object. */
    ghost predicate Valid()
      reads this
    {
      forall i, j :: 0 <= i < j < |tasks| ==> tasks[i] != tasks[j]
    }

    function Current(): BotState
      reads this, tasks
    {
      BotState(Values(tasks), notes, lastUpdateId, outbox)
    }

    /** Process start: empty lists and cursor 0. */
    constructor (config: Config)
      ensures Valid() && this.config == config && Current() == BotState([], [], 0, [])
    {
      this.config := config;
      tasks, notes, lastUpdateId, outbox := [], [], 0, [];
    }

    /** `sendTelegram`. */
    method Reply(m: Message)
      modifies this
      ensures tasks == old(tasks) && Current() == WithReply(old(Current()), config, m)
    {
      outbox := outbox + TelegramService.Send(config.token, config.chat, m);
    }

    /** `tasks.push(...)` of a new task object. */
    method PushTask(content: string, stamp: nat)
      requires Valid()
      modifies this
      ensures Valid() && |tasks| == |old(tasks)| + 1 && tasks[..|old(tasks)|] == old(tasks) && fresh(tasks[|old(tasks)|])
      ensures Current() == old(Current()).(tasks := old(Current()).tasks + [ServerTask(stamp, content, false)])
    {
      var cell := new TaskCell(stamp, content);
      tasks := tasks + [cell];
      assert tasks[..|old(tasks)|] == old(tasks);
    }

    /** The `/done` branch: `active[index].done = true` on the object the
        open view shares with the list. */
    method MarkDone(content: string)
      requires Valid()
      modifies this, tasks
      ensures Valid() && tasks == old(tasks)
      ensures Current() == DoneCommand(old(Current()), config, content)
    {
      ghost var before := Current();
      var active := OpenPositions(Values(tasks));
      var index := DoneTarget(content, |active|);
      if index.Some? {
        var p := active[index.value];
        var cell := tasks[p];
        cell.done := true;
        assert Values(tasks) == before.tasks[p := before.tasks[p].(done := true)];
        Reply(TaskCompleted(cell.text));
      } else {
        Reply(InvalidTaskNumber);
      }
    }

    /** The body of the `for` loop for one update. */
    method Handle(u: Update, env: Env)
      requires Valid()
      modifies this, tasks
      ensures Valid()
      ensures forall k :: 0 <= k < |tasks| ==> tasks[k] in old(tasks) || fresh(tasks[k])
      ensures Current() == Step(old(Current()), config, u.updateId, Parse(u.text), env)
    {
      lastUpdateId := u.updateId;
      Perform(Parse(u.text), env);
    }

    /** The command branches of the loop body. */
    method Perform(input: Input, env: Env)
      requires Valid()
      modifies this, tasks
      ensures Valid()
      ensures forall k :: 0 <= k < |tasks| ==> tasks[k] in old(tasks) || fresh(tasks[k])
      ensures Current() == Apply(old(Current()), config, input, env)
    {
      match input {
        case NoText =>
        case TaskText(content) =>
          if content != "" {
            PushTask(content, env.stamp);
            Reply(TaskAdded(content));
          } else {
            Reply(TaskTextMissing);
          }
        case NoteText(content) =>
          notes := notes + [ServerNote(env.stamp, content)];
          Reply(NoteSaved);
        case ListText =>
          Reply(ServerListing(Values(tasks)));
        case DoneText(content) =>
          MarkDone(content);
        case IdeaText =>
          Reply(GeneratingIdea);
          Reply(Idea(env.idea));
        case HelpText =>
          Reply(ServerHelp);
        case OtherText =>
      }
    }

    /** `processCommands`, for one poll answer and one `Env` per update. */
    method ProcessCommands(poll: Poll, envs: seq<Env>)
      requires Valid()
      requires poll.PollAnswer? ==> |envs| == |poll.result|
      modifies this, tasks
      ensures Valid()
      ensures Current() == Run(old(Current()), config, poll, envs)
    {
      if config.token == "" {
        return;
      }
      if poll.PollFailed? || !poll.ok || |poll.result| == 0 {
        return;
      }
      var updates := poll.result;
      var i := 0;
      while i < |updates|
        invariant 0 <= i <= |updates|
        invariant Valid()
        invariant forall k :: 0 <= k < |tasks| ==> tasks[k] in old(tasks) || fresh(tasks[k])
        invariant Current() == Batch(old(Current()), config, Inputs(updates)[..i], envs[..i])
      {
        Handle(updates[i], envs[i]);
        assert Inputs(updates)[..i + 1][..i] == Inputs(updates)[..i] && envs[..i + 1][..i] == envs[..i];
        assert Inputs(updates)[i] == (updates[i].updateId, Parse(updates[i].text));
        i := i + 1;
      }
      assert Inputs(updates)[..i] == Inputs(updates) && envs[..i] == envs;
    }
  }
}
