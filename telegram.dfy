/** The pure logic of the dashboard's service layer (services/aiService.ts):
    the chat-command classifier and poll cursor, the category-driven trend
    search and tagging, the alert emoji, and the send guards. The network
    calls themselves are inputs (the poll answer, the generated trends) or
    an appended log of outgoing messages. */
module TelegramService {
  import opened JsText
  import opened Records

  /** The command kinds `checkTelegramCommands` reports. */
  datatype Command = AddTask | AddNote | ListTasks | DoneTask | CheckTrends | GetIdea | GetHelp | Start | GetStatus

  /** A classified message text: the command, if any, and its payload. */
  datatype Classified = Classified(command: Option<Command>, payload: Option<string>)

  /** What one poll reports to the dashboard's tick. */
  datatype CommandResponse = CommandResponse(
    command: Option<Command>, payload: Option<string>, nextUpdateId: int, chatId: Option<int>)

  /** The text after the first occurrence of `token`, trimmed
      (`text.replace(token, "").trim()`). */
  function PayloadAfter(text: string, token: string): string {
    Trim(RemoveFirst(text, token))
  }

  /** The prefix chain of `checkTelegramCommands`, tried in source order. */
  function Classify(text: string): Classified {
    if StartsWith(text, "/task") then Classified(Some(AddTask), Some(PayloadAfter(text, "/task")))
    else if StartsWith(text, "/note") then Classified(Some(AddNote), Some(PayloadAfter(text, "/note")))
    else if StartsWith(text, "/list") || StartsWith(text, "/tasks") then Classified(Some(ListTasks), None)
    else if StartsWith(text, "/done") then Classified(Some(DoneTask), Some(PayloadAfter(text, "/done")))
    else if StartsWith(text, "/trends") || StartsWith(text, "/check") then Classified(Some(CheckTrends), None)
    else if StartsWith(text, "/idea") then Classified(Some(GetIdea), None)
    else if StartsWith(text, "/help") then Classified(Some(GetHelp), None)
    else if StartsWith(text, "/start") then Classified(Some(Start), None)
    else if StartsWith(text, "/status") then Classified(Some(GetStatus), None)
    else Classified(None, None)
  }

  // ---------------------------------------------------------------------------
  // An independent description of the classifier: a table of command
  // tokens, the first token that prefixes the text decides.

  /** Every command token with the command it names, in priority order. */
  const CommandTokens: seq<(string, Command)> := [
    ("/task", AddTask), ("/note", AddNote), ("/list", ListTasks), ("/tasks", ListTasks),
    ("/done", DoneTask), ("/trends", CheckTrends), ("/check", CheckTrends), ("/idea", GetIdea),
    ("/help", GetHelp), ("/start", Start), ("/status", GetStatus)]

  /** The first table entry whose token prefixes `text`. */
  function FirstMatch(table: seq<(string, Command)>, text: string): (r: Option<(string, Command)>)
    ensures r.Some? ==> r.value in table && StartsWith(text, r.value.0)
    ensures r.None? ==> forall k :: 0 <= k < |table| ==> !StartsWith(text, table[k].0)
  {
    if table == [] then None
    else if StartsWith(text, table[0].0) then Some(table[0])
    else FirstMatch(table[1..], text)
  }

  /** The commands whose payload is the rest of the text. */
  predicate CarriesPayload(c: Command) {
    c == AddTask || c == AddNote || c == DoneTask
  }

  /** The classifier is exactly "first matching token wins": the command
      is the one of the first token that prefixes the text, the payload is
      the trimmed text after that token for add-task, add-note and done, and
      there is no payload otherwise. */
  lemma ClassifyIsFirstMatch(text: string)
    ensures match FirstMatch(CommandTokens, text)
            case None => Classify(text) == Classified(None, None)
            case Some(entry) =>
              && Classify(text).command == Some(entry.1)
              && Classify(text).payload == (if CarriesPayload(entry.1) then Some(Trim(text[|entry.0|..])) else None)
  {
    var t := CommandTokens;
    assert t[0].0 == "/task" && t[1].0 == "/note" && t[2].0 == "/list" && t[3].0 == "/tasks";
    assert t[4].0 == "/done" && t[5].0 == "/trends" && t[6].0 == "/check" && t[7].0 == "/idea";
    assert t[8].0 == "/help" && t[9].0 == "/start" && t[10].0 == "/status";
    TaskTokenPrefixesTasks(text);
    var k := FirstTokenIndex(t, text);
    FirstMatchAt(t, text, k);
    if k == 0 {
      RemoveLeadingToken(text, "/task");
    } else if k == 1 {
      RemoveLeadingToken(text, "/note");
    } else if k == 4 {
      RemoveLeadingToken(text, "/done");
    }
  }

  lemma TaskTokenPrefixesTasks(text: string)
    ensures StartsWith(text, "/tasks") ==> StartsWith(text, "/task")
  {
    if StartsWith(text, "/tasks") {
      assert text[..5] == "/tasks"[..5];
    }
  }

  /** The index of the first entry whose token prefixes `text`, or the
      table's length when there is none. */
  function FirstTokenIndex(table: seq<(string, Command)>, text: string): (k: nat)
    ensures k <= |table|
    ensures forall j :: 0 <= j < k ==> !StartsWith(text, table[j].0)
    ensures k < |table| ==> StartsWith(text, table[k].0)
  {
    if table == [] then 0
    else if StartsWith(text, table[0].0) then 0
    else 1 + FirstTokenIndex(table[1..], text)
  }

  /** `FirstMatch` finds the entry at the first matching index, and nothing
      when no token matches. */
  lemma {:induction false} FirstMatchAt(table: seq<(string, Command)>, text: string, k: nat)
    requires k <= |table|
    requires forall j :: 0 <= j < k ==> !StartsWith(text, table[j].0)
    requires k < |table| ==> StartsWith(text, table[k].0)
    ensures FirstMatch(table, text) == if k < |table| then Some(table[k]) else None
    decreases k
  {
    if k > 0 {
      FirstMatchAt(table[1..], text, k - 1);
    }
  }

  /** "/tasks" is shadowed by "/task": a text starting with it is an
      add-task whose payload begins with "s", and a list is requested only
      by "/list". */
  lemma TasksAliasIsShadowed(rest: string)
    ensures Classify("/tasks" + rest) == Classified(Some(AddTask), Some(Trim("s" + rest)))
  {
    var text := "/tasks" + rest;
    assert text[..5] == "/task";
    RemoveLeadingToken(text, "/task");
    assert text[5..] == "s" + rest;
  }

  lemma ListOnlyByListToken(text: string)
    ensures Classify(text).command == Some(ListTasks) <==> StartsWith(text, "/list")
  {
    if StartsWith(text, "/list") {
      assert text[..5] == "/list";
      assert text[4] == 't' && !StartsWith(text, "/task") && !StartsWith(text, "/note");
    }
    if StartsWith(text, "/tasks") {
      assert text[..5] == "/task";
    }
  }

  /** `checkTelegramCommands`: with no bot token, a failed request, a
      not-ok answer or an empty batch, nothing is reported and the cursor
      stays; otherwise the last update of the batch alone is classified and
      its `update_id` becomes the cursor. */
  function CheckCommands(token: string, lastUpdateId: int, poll: Poll): CommandResponse {
    if token == "" then CommandResponse(None, None, lastUpdateId, None)
    else
      match poll
      case PollAnswer(true, result) =>
        if |result| > 0 then
          var last := result[|result| - 1];
          var c := Classify(last.text);
          CommandResponse(c.command, c.payload, last.updateId, last.chatId)
        else CommandResponse(None, None, lastUpdateId, None)
      case _ => CommandResponse(None, None, lastUpdateId, None)
  }

  /** A batch that holds something reportable: token set, answer ok,
      at least one update. */
  predicate Delivered(token: string, poll: Poll) {
    token != "" && poll.PollAnswer? && poll.ok && |poll.result| > 0
  }

  /** With no token, or nothing delivered, the answer is empty and the
      cursor is the one passed in. */
  lemma NothingDeliveredKeepsCursor(token: string, lastUpdateId: int, poll: Poll)
    requires !Delivered(token, poll)
    ensures CheckCommands(token, lastUpdateId, poll) == CommandResponse(None, None, lastUpdateId, None)
  {
  }

  /** Only the last update of a delivered batch matters: the earlier ones
      are never classified, and the cursor becomes the last update's id even
      when its text is no command at all. */
  lemma OnlyLastUpdateCounts(token: string, lastUpdateId: int, earlier: seq<Update>, other: seq<Update>, last: Update)
    requires token != ""
    ensures CheckCommands(token, lastUpdateId, PollAnswer(true, earlier + [last]))
         == CheckCommands(token, lastUpdateId, PollAnswer(true, other + [last]))
    ensures CheckCommands(token, lastUpdateId, PollAnswer(true, earlier + [last])).nextUpdateId == last.updateId
    ensures CheckCommands(token, lastUpdateId, PollAnswer(true, earlier + [last])).command
         == Classify(last.text).command
  {
    assert (earlier + [last])[|earlier + [last]| - 1] == last;
    assert (other + [last])[|other + [last]| - 1] == last;
  }

  /** The getUpdates contract: every update returned for offset
      `lastUpdateId + 1` has a larger id. */
  predicate AfterCursor(lastUpdateId: int, poll: Poll) {
    poll.PollAnswer? ==> forall k :: 0 <= k < |poll.result| ==> poll.result[k].updateId > lastUpdateId
  }

  /** The cursor never moves backward, and it moves strictly forward
      exactly when a batch was delivered. */
  lemma CursorMonotone(token: string, lastUpdateId: int, poll: Poll)
    requires AfterCursor(lastUpdateId, poll)
    ensures CheckCommands(token, lastUpdateId, poll).nextUpdateId >= lastUpdateId
    ensures CheckCommands(token, lastUpdateId, poll).nextUpdateId > lastUpdateId <==> Delivered(token, poll)
  {
  }

  // ---------------------------------------------------------------------------
  // Trend search (analyzeTrends)

  /** The system instruction and search query pair `analyzeTrends` picks. */
  datatype TrendSearch = GeneralSearch | AudioSearch | FormatsSearch | PlotsSearch

  /** Audio, Formats and Plots have their own search; everything else
      falls back to the general one. */
  function SearchFor(category: TrendCategory): (r: TrendSearch)
    ensures r == GeneralSearch <==> category == General
  {
    if category == Audio then AudioSearch
    else if category == Formats then FormatsSearch
    else if category == Plots then PlotsSearch
    else assert category.General?; GeneralSearch
  }

  /** The category a search is for. */
  function SearchedCategory(s: TrendSearch): TrendCategory {
    match s
    case GeneralSearch => General
    case AudioSearch => Audio
    case FormatsSearch => Formats
    case PlotsSearch => Plots
  }

  /** Each category has a search of its own: reading the category back
      from the chosen search gives the category. */
  lemma SearchRoundTrip(category: TrendCategory)
    ensures SearchedCategory(SearchFor(category)) == category
  {
  }

  /** Tags every trend with the requested category (`{...t, category}`),
      leaving every other field and the order as they were. */
  function TagTrends(items: seq<TrendItem>, category: TrendCategory): (r: seq<TrendItem>)
    ensures |r| == |items|
    ensures forall k :: 0 <= k < |r| ==> r[k].category == Some(category)
    ensures forall k :: 0 <= k < |r| ==> r[k].(category := items[k].category) == items[k]
  {
    if items == [] then [] else [items[0].(category := Some(category))] + TagTrends(items[1..], category)
  }

  /** `analyzeTrends`: the trends the generation service returned, tagged
      with the category, or nothing when the call or the decoding failed. */
  function AnalyzeTrends(category: TrendCategory, generated: Option<seq<TrendItem>>): (r: seq<TrendItem>)
    ensures generated.None? ==> r == []
    ensures generated.Some? ==> |r| == |generated.value|
    ensures forall k :: 0 <= k < |r| ==> r[k].category == Some(category)
    ensures generated.Some? ==> r == TagTrends(generated.value, category)
  {
    match generated
    case None => []
    case Some(items) => TagTrends(items, category)
  }

  // ---------------------------------------------------------------------------
  // Sending

  /** The fire emoji, the default of `sendTelegramNotification`. */
  const Fire: string := "\U{1F525}"

  /** The alert emoji of a trend's category. */
  function EmojiFor(category: Option<TrendCategory>): (r: string)
    ensures r == Fire <==> category.None? || category == Some(General)
  {
    if category == Some(Audio) then "\U{1F3B5}"
    else if category == Some(Formats) then "\U{1F3AC}"
    else if category == Some(Plots) then "\U{1F4DD}"
    else assert category.None? || category.value.General?; Fire
  }

  /** The three special categories have three different emoji. */
  lemma EmojiDistinguishesCategories(a: TrendCategory, b: TrendCategory)
    requires a != General && b != General
    ensures EmojiFor(Some(a)) == EmojiFor(Some(b)) <==> a == b
  {
  }

  /** A send (`sendTelegramMessage`, `sendTelegramNotification`): nothing
      happens without a bot token and a chat id; otherwise exactly this
      message goes to that chat. */
  function Send(token: string, chat: string, message: Message): (r: seq<Outgoing>)
    ensures r == [] <==> token == "" || chat == ""
    ensures r != [] ==> r == [Outgoing(chat, message)]
  {
    if token == "" || chat == "" then [] else [Outgoing(chat, message)]
  }

  /** `sendTelegramNotification`: the trend alert to the configured chat. */
  function Notify(settings: Settings, trend: TrendItem): (r: seq<Outgoing>)
    ensures r != [] ==> r == [Outgoing(settings.telegramChatId, TrendAlert(EmojiFor(trend.category), trend))]
    ensures r == [] <==> settings.telegramBotToken == "" || settings.telegramChatId == ""
  {
    Send(settings.telegramBotToken, settings.telegramChatId, TrendAlert(EmojiFor(trend.category), trend))
  }
}
