/** The record shapes shared by the dashboard, the organizer and the two
    chat bots (types.ts), the poll result of the chat channel, and the
    outgoing chat messages, compared by kind rather than by wording. */
module Records {
  import opened JsText

  /** An organizer task (types.ts:72-78); `id` is the decimal rendering of
      the creation time in milliseconds, `createdAt` that time. */
  datatype Task = Task(id: string, text: string, completed: bool, isDaily: bool, createdAt: int)

  /** An organizer note (types.ts:80-84). */
  datatype Note = Note(id: string, text: string, createdAt: int)

  datatype LlmSource = CloudGemini | LocalLlm | CustomApi

  /** The dashboard settings (types.ts:35-46). */
  datatype Settings = Settings(
    userStyle: string,
    targetLanguage: string,
    llmSource: LlmSource,
    customApiUrl: string,
    customApiKey: string,
    telegramBotToken: string,
    telegramChatId: string,
    enableDailyReminders: bool,
    dailyReminderTime: string)

  /** The social platforms (types.ts:2-11). */
  datatype Platform = Instagram | Twitter | LinkedIn | ArtStation | Telegram | TikTok | Pinterest | Threads

  /** The trend categories (types.ts:28-33). */
  datatype TrendCategory = General | Audio | Formats | Plots

  /** A trend as produced by the generation service (types.ts:55-64). The
      platform is kept as the text the service returned. */
  datatype TrendItem = TrendItem(
    platform: string,
    trendName: string,
    description: string,
    hypeReason: string,
    category: Option<TrendCategory>,
    growthMetric: Option<string>,
    difficulty: Option<string>,
    vibe: Option<string>)

  /** One update of the bot's getUpdates answer: its `update_id`, the
      message text (`""` when the update carries no text) and the chat id
      when the update carries one. */
  datatype Update = Update(updateId: int, text: string, chatId: Option<int>)

  /** The outcome of one getUpdates request: either the request or the
      decoding of its body failed, or the body decoded to `{ok, result}`. */
  datatype Poll = PollFailed | PollAnswer(ok: bool, result: seq<Update>)

  /** One numbered line of a task listing. */
  datatype ListEntry = ListEntry(number: nat, text: string)

  /** The open-task part of a task listing: the placeholder when there is
      nothing to do, otherwise the numbered lines. */
  datatype TodoSection = NoActiveTasks | Numbered(entries: seq<ListEntry>)

  /** The kinds of chat message the two bots send. */
  datatype Message =
    | TaskAdded(text: string)
    | TaskTextMissing
    | NoteSaved
    | TaskList(todo: TodoSection, done: seq<string>)
    | TaskCompleted(text: string)
    | InvalidTaskNumber
    | ScanningTrends
    | GeneratingIdea
    | Idea(text: string)
    | Help
    | ServerHelp
    | Status
    | Reminder(items: seq<string>)
    | ReminderNoTasks
    | TrendAlert(emoji: string, trend: TrendItem)

  /** A message handed to the send-message endpoint for one chat. */
  datatype Outgoing = Outgoing(chat: string, message: Message)
}
