# WarehouseBot in Dafny

WarehouseBot is a Telegram bot that walks a warehouse worker through a short
questionnaire and appends each completed answer set as one row to a Google
Sheets report. The project models its two core pieces:

- **The per-chat conversation** (`Flow/ChatState.cs`, module `Flow`). This is a
  Stateless state machine with the states AskPass, AskSupervisor, AskClient,
  AskDepartment, AskItem, AskQuantity, AskDateTime and Completed, and one
  trigger that carries the received text.
  - The pure function `Flow.Step` specifies one `FireAsync`.
  - The class `Flow.ChatState` holds the current state and the six record
    fields. Its method `Fire` is proved to change the fields, the sent-message
    log and the sheet exactly as `Step` says.
- **The dispatcher** (`BotWorker.cs`, module `Worker`). `_sessions` maps each
  chat id to its session.
  - The pure function `Worker.Dispatch` specifies `HandleUpdate` over the
    registry's contents.
  - The class `Worker.BotWorker` holds `sessions: map<int, ChatState>`. Its
    `HandleUpdate` is proved against `Dispatch`.
  - `EnsureHeaderAsync` and `ExecuteAsync` are modelled as well, together with
    the invariant that updates are received only once the header is in place.

Two modules model what the core takes from its environment:

- `DotNet` gives a concrete `int.TryParse` (leading and trailing white space,
  an optional sign, decimal digits, the 32-bit range) and `DateTime`, with the
  custom format `"yyyy-MM-dd HH:mm"`.
- `Collaborators` reduces the Telegram client to a log of delivered messages
  and the spreadsheet to rows per tab.

Whether a send or a sheet call succeeds is an input of each step: `Io` for a
fire, `HeaderIo` for the header. A failure is the exception that the C# call
would throw.

The Stateless behaviour the source relies on is modelled explicitly:

- a fire sets the destination first;
- the destination's entry actions then run in order: the prompt, then the
  `OnEntryFrom` store;
- an exception in one entry action skips the rest;
- the AskPass self-transition is a re-entry, so it re-sends the prompt.

Consequences of the code as written, which the lemmas state:

- **Every field is shifted by one answer.** `OnEntryFrom` stores the text that
  *caused* the entry. So `_supervisor` receives the password, `_client` the
  supervisor's name, and so on, and the last answer (the date) is stored
  nowhere (`Flow.ColumnShift`, `Flow.RecordCycle`).
- **Completed does not re-arm on its own.** It waits for one more text, which
  becomes the next record's supervisor.

Answering the prompts with `"654"`, `"Sup1"`, `"ClientX"`, `"DeptY"`,
`"Widget"`, `"10"`, `"2024-01-01 10:00"` leaves the session in Completed and
appends `("654", "Sup1", "ClientX", "DeptY", 0, fmt(D("10")))`
(`Flow.ExampleConversation`). The header the program writes
(BotWorker.cs:98-103) labels these columns Supervisor ... Date/time, so each
answer lands one column to the right of its label.

The two sheet tabs are kept apart:

- the header is checked and written in `Отчёт` (range `'Отчёт'!A1:F1`);
- rows are appended to `Отчёт.csv` (range `'Отчёт.csv'!A:F`).

## Model

| member | source | states |
|---|---|---|
| DotNet.TryParseInt32 | Flow/ChatState.cs:91 | the definition is the model of `int.TryParse`; its properties are stated by Int32RoundTrip, OverflowRefused, NegativeOverflowRefused, NonNumericRefused and LeadingWhiteIgnored |
| DotNet.Int32RoundTrip | Flow/ChatState.cs:91 | parsing inverts printing: every C# int comes back from its decimal text |
| DotNet.OverflowRefused | Flow/ChatState.cs:91 | a decimal value above Int32.MaxValue is refused, not wrapped |
| DotNet.NegativeOverflowRefused | Flow/ChatState.cs:91 | a negative decimal value below Int32.MinValue is refused, not wrapped |
| DotNet.NonNumericRefused | Flow/ChatState.cs:91 | a text without one digit does not parse |
| DotNet.LeadingWhiteIgnored | Flow/ChatState.cs:91 | a leading white-space character does not change the result |
| DotNet.DecimalValue | Flow/ChatState.cs:91 | the decimal text of n is non-empty, all digits, and has value n |
| DotNet.DecimalParsesWhole | Flow/ChatState.cs:91 | the whole decimal text is consumed as digits, with no white space before it |
| DotNet.DigitsCounted | Flow/ChatState.cs:91 | on an all-digit text the digit prefix is the whole text |
| DotNet.CountWhite | Flow/ChatState.cs:91 | the result is the length of the longest all-white prefix |
| DotNet.CountDigits | Flow/ChatState.cs:91 | the result is the length of the longest all-digit prefix |
| DotNet.Pad | Flow/ChatState.cs:121 | exactly `width` characters, all digits |
| DotNet.PadValue | Flow/ChatState.cs:121 | a number below 10^width reads back from its padded digits |
| DotNet.Format | Flow/ChatState.cs:121 | "yyyy-MM-dd HH:mm" is 16 characters with '-', '-', ' ', ':' at positions 4, 7, 10, 13 |
| DotNet.FormatFields | Flow/ChatState.cs:121 | year, month, day, hour and minute read back from their places in the formatted text |
| DotNet.FormatUpToMinute | Flow/ChatState.cs:121 | two DateTimes format alike iff they agree on year, month, day, hour and minute (seconds are dropped) |
| Collaborators.Appended | Flow/ChatState.cs:123-126 | the tab ends with the appended rows, every other tab is unchanged, and appending nothing changes nothing |
| Collaborators.Overwrite | BotWorker.cs:106-112 | the written cells come first and the cells after them are kept |
| Collaborators.WithFirstRow | BotWorker.cs:106-112 | the first row begins with the written row and keeps its later cells, the other rows are kept, and an empty tab becomes exactly that one row |
| Collaborators.Transport.Send | Flow/ChatState.cs:110 | a delivered message is appended to the log |
| Collaborators.Spreadsheet.Append | Flow/ChatState.cs:123-126 | `Values.Append`: the tab is extended by the row, other tabs unchanged |
| Collaborators.Spreadsheet.UpdateFirstRow | BotWorker.cs:106-112 | `Values.Update` of A1:F1: only that tab's first row is overwritten |
| Flow.EntryText | Flow/ChatState.cs:64-103 | the definition is the model of the prompt of each state and of the confirmation; Flow.ChatState.Say delivers it |
| Flow.Next | Flow/ChatState.cs:63-105 | the definition is the model of the Permit/PermitDynamic table; its properties are stated by PasswordGate and FixedSuccessor |
| Flow.QuantityOf | Flow/ChatState.cs:91 | the definition is the model of `int.TryParse(txt, out var q) ? q : 0`; its properties are stated by QuantityOfIntText, QuantityOfNonNumeric and QuantityOfOverflow |
| Flow.DateTimeOf | Flow/ChatState.cs:96 | the definition is the model of `DateTime.TryParse(txt, out var dt) ? dt : DateTime.UtcNow`; DateTimeFallback states it |
| Flow.Store | Flow/ChatState.cs:71-96 | the definition is the model of the OnEntryFrom stores; ColumnShift and EntryPromptsThenStores state what they write |
| Flow.Step | Flow/ChatState.cs:63-105 | the definition is the model of one FireAsync; its properties are stated by FreshSession, PasswordGate, WrongPasswordsRetry, OneTransitionPerFire, EntryPromptsThenStores, ColumnShift, NoFieldCleared, CompletionAppendsThenConfirms, FailedAppendNoRollback and RecordCycle, and Flow.ChatState.Fire is proved against it |
| Flow.ValidatePassword | Flow/ChatState.cs:108 | the definition is the model of `txt == "654"`; PasswordGate states the gate it guards |
| Flow.CellOf | Flow/ChatState.cs:116-119 | the definition is the model of a string field in the row: null as a blank cell, otherwise its text; RowOf and RecordCycle state the row it builds |
| Flow.RowOf | Flow/ChatState.cs:114-122 | the row has exactly six columns (null strings as blank cells, the quantity as a number, the date formatted) |
| Flow.FreshSession | Flow/ChatState.cs:55-58 | the constructor's fire of "" re-enters AskPass: one password prompt, no field written, no row |
| Flow.PasswordGate | Flow/ChatState.cs:63-67 | from AskPass: AskSupervisor iff the text is "654"; otherwise the session is unchanged and the prompt re-sent |
| Flow.WrongPasswordsRetry | Flow/ChatState.cs:63-67 | any number of wrong passwords leaves the session as it was and sends the prompt once per attempt (no attempt limit) |
| Flow.FixedSuccessor | Flow/ChatState.cs:69-105 | outside AskPass the successor ignores the text: the next state of the enum, and AskSupervisor after Completed |
| Flow.OneTransitionPerFire | Flow/ChatState.cs:63-105 | one transition per fire, at most one message, and a row only on entering Completed with a working sheet |
| Flow.EntryPromptsThenStores | Flow/ChatState.cs:69-97 | entering a question sends exactly its prompt and then stores the text; if the prompt fails the store is skipped |
| Flow.ColumnShift | Flow/ChatState.cs:71-97 | each fire stores its text into the field of the state it enters: the password into supervisor, and so on; nothing stores the date answer |
| Flow.NoFieldCleared | Flow/ChatState.cs:71-105 | a string field once written is never reset to null |
| Flow.CompletionAppendsThenConfirms | Flow/ChatState.cs:99-105 | entering Completed appends the current record and then sends the confirmation; the fields are kept |
| Flow.FailedAppendNoRollback | Flow/ChatState.cs:99-105 | a failed append sends no confirmation, yet the state is Completed and the next text moves to AskSupervisor |
| Flow.QuantityOfIntText | Flow/ChatState.cs:91 | the quantity of the decimal text of any int is that int |
| Flow.QuantityOfNonNumeric | Flow/ChatState.cs:91 | a text without digits gives quantity 0 |
| Flow.QuantityOfOverflow | Flow/ChatState.cs:91 | a number beyond the int32 range, above Int32.MaxValue or below Int32.MinValue, gives quantity 0 |
| Flow.DateTimeFallback | Flow/ChatState.cs:96 | the parsed DateTime when TryParse succeeds, DateTime.UtcNow otherwise |
| Flow.RecordCycle | Flow/ChatState.cs:63-122 | from Completed, or from AskPass starting with "654", seven texts reach Completed, append exactly the row (x0, x1, x2, x3, Q(x4), fmt(D(x5))), send six prompts and the confirmation, and store x6 nowhere |
| Flow.RunFromSupervisor | Flow/ChatState.cs:74-105 | from AskSupervisor, six texts complete the record with the client through the date taken from them |
| Flow.RunFromClient | Flow/ChatState.cs:79-105 | from AskClient, five texts complete the record with the department through the date taken from them |
| Flow.RunFromDepartment | Flow/ChatState.cs:84-105 | from AskDepartment, four texts complete the record with the item through the date taken from them |
| Flow.RunFromItem | Flow/ChatState.cs:89-105 | from AskItem, three texts complete the record with the quantity and the date taken from them |
| Flow.RunFromQuantity | Flow/ChatState.cs:94-105 | from AskQuantity, two texts complete the record with the date taken from the first |
| Flow.RunFromDateTime | Flow/ChatState.cs:99-105 | from AskDateTime, one text appends the record as it stands and confirms |
| Flow.ExampleConversation | Flow/ChatState.cs:55-122 | the conversation "", "654", "Sup1", "ClientX", "DeptY", "Widget", "10", "2024-01-01 10:00" on a new session ends in Completed and appends ("654", "Sup1", "ClientX", "DeptY", 0, fmt(D("10"))) |
| Flow.ChatState.constructor | Flow/ChatState.cs:48-59 | keeps its collaborators; the fields are those of the initial fire of "" from AskPass with default fields |
| Flow.ChatState.Fire | Flow/ChatState.cs:63-105 | the new state and fields, the fault, the messages delivered and the rows appended are exactly those of Step |
| Flow.ChatState.Say | Flow/ChatState.cs:110 | delivers the state's entry text to the chat, or throws when the send fails |
| Flow.ChatState.WriteToSheet | Flow/ChatState.cs:112-127 | appends the six-field row to 'Отчёт.csv', or throws when the append fails |
| Worker.IsRestart | BotWorker.cs:49 | the definition is the model of the "/start" test (ordinal prefix); RestartResets and RestartThenMessage state its effect |
| Worker.ResolveChat | BotWorker.cs:61-66 | the definition is the model of the chat-id switch; ChatZeroIgnored and CallbackWithoutMessageThrows state its cases |
| Worker.TextOf | BotWorker.cs:76 | the definition is the model of `upd.Message!.Text ?? string.Empty`; NullTextIsEmpty states it |
| Worker.Dispatch | BotWorker.cs:47-87 | the definition is the model of HandleUpdate on the registry's contents; its properties are stated by RestartResets, ChatZeroIgnored, CallbackWithoutMessageThrows, GetOrCreate, Isolation, CallbackCreatesWithoutAdvancing, NullTextIsEmpty, MessageFiresOnce, FirstMessage and RestartThenMessage, and Worker.BotWorker.HandleUpdate is proved against it |
| Worker.Routed | BotWorker.cs:69-86 | the definition is the model of the part of HandleUpdate after the chat id is known; Worker.BotWorker.Route is proved against it |
| Worker.Created | BotWorker.cs:69-72 | the existing session is used unchanged with nothing sent; a new one is Fresh after sending just the password prompt (when the send succeeds), and nothing is appended |
| Worker.RestartResets | BotWorker.cs:49-58 | "/start" removes only that chat's entry, sends one acknowledgement that removes the keyboard, and creates or advances nothing; a failed send escapes |
| Worker.ChatZeroIgnored | BotWorker.cs:61-67 | an update of another kind, or a message from chat 0, changes and sends nothing |
| Worker.CallbackWithoutMessageThrows | BotWorker.cs:64 | a callback query without a message throws and changes nothing |
| Worker.GetOrCreate | BotWorker.cs:69-80 | no key disappears, at most the update's chat is added, and an existing session is the one used |
| Worker.Isolation | BotWorker.cs:52-80 | every other chat's entry is unchanged and all messages go to the update's own chat |
| Worker.CallbackCreatesWithoutAdvancing | BotWorker.cs:64-74 | a callback query creates an unseen chat's session (which asks for the password) and never fires it |
| Worker.NullTextIsEmpty | BotWorker.cs:76 | a message with null text is handled as the empty text |
| Worker.MessageFiresOnce | BotWorker.cs:74-86 | a message fires its session exactly once; the exception is caught and the session stays registered |
| Worker.FirstMessage | BotWorker.cs:69-80 | an unseen chat's first text meets a session that has already asked for the password: "654" leads to AskSupervisor with "654" as supervisor |
| Worker.RestartThenMessage | BotWorker.cs:49-80 | after "/start" the chat's next text starts from the password gate with no old field left |
| Worker.HeaderPresent | BotWorker.cs:94 | the definition is the model of `cur.Values?.Count > 0`: some of the first six cells of the first row holds a value |
| Worker.EnsureHeader | BotWorker.cs:89-113 | the definition is the model of EnsureHeaderAsync on the sheet's rows; HeaderWrittenWhenMissing and HeaderIdempotent state its properties |
| Worker.HeaderWrittenWhenMissing | BotWorker.cs:89-113 | the header is written iff A1:F1 was found empty and both calls succeed; a normal return leaves the header present |
| Worker.HeaderIdempotent | BotWorker.cs:89-113 | after a call that returned normally, a second call writes nothing |
| Worker.BotWorker.constructor | BotWorker.cs:26-34 | an empty registry, not yet receiving |
| Worker.BotWorker.ExecuteAsync | BotWorker.cs:36-45 | the header step first; receiving starts only when it returns normally, which keeps "receiving implies header present" |
| Worker.BotWorker.EnsureHeaderAsync | BotWorker.cs:89-114 | reads 'Отчёт'!A1:F1 and writes the header only there and only when it was empty, as EnsureHeader says |
| Worker.BotWorker.HandleUpdate | BotWorker.cs:47-87 | runs only once receiving has started (BotWorker.cs:40-44) and keeps the header present; the new registry contents, messages, appended rows and escaping exception are exactly those of Dispatch; existing sessions are kept and new ones are fresh |
| Worker.BotWorker.Route | BotWorker.cs:69-86 | get-or-create, then fire only for a message, exactly as Routed says |
| Worker.BotWorker.RouteMessage | BotWorker.cs:69-86 | a message: get-or-create and one fire of its text |
| Worker.BotWorker.RouteOther | BotWorker.cs:69-72 | a callback query: get-or-create only |
| Worker.BotWorker.Restart | BotWorker.cs:49-58 | TryRemove of the chat, then the acknowledgement, which throws when it fails |
| Worker.BotWorker.GetOrAdd | BotWorker.cs:69-72 | returns the registered session, or registers a fresh one that has fired "" |
| Worker.BotWorker.FireSession | BotWorker.cs:74-86 | one Step of that session only, its exception caught |

## Left out

- `Program.cs` (dependency injection, configuration, credentials) and
  `Flow/ChatContext.cs` (an unused data class) carry no logic and are not
  part of this model.
- Telegram and Google Sheets are modelled only as a message log and rows per
  tab. Whether a call succeeds is an input; the HTTP layer, value types other
  than string and int, and the Sheets table detection of `Values.Append` are
  not modelled.
- Sheets are assumed to exist. A missing tab reads as empty, while the service
  would instead fail the call.
- Concurrency is not modelled. Each update and each fire is one sequential
  step, and the constructor's unawaited fire of "" completes before the next
  text. The following are left out:
  - the atomicity of `ConcurrentDictionary`;
  - the `GetOrAdd` factory running more than once (each extra run would send
    another prompt);
  - Stateless's queued firing;
  - the `CancellationToken`;
  - the polling of `StartReceiving`.
- `DateTime.TryParse` (culture-dependent) and `DateTime.UtcNow` (the clock) are
  inputs, the `DateParser` and `Io.now`. DateTime carries no sub-second ticks
  and no Kind, because "yyyy-MM-dd HH:mm" drops both.
- `int.TryParse` is modelled with the invariant culture's signs `+` and `-`.
  Culture-specific signs and full-width digits are not modelled.
- Worker.IsRestart: `StartsWith("/start")` is culture-sensitive in .NET. The
  model uses an ordinal prefix test, which agrees with it for this ASCII
  prefix except for culture-specific ignorable characters.
- DotNet.Format: `ToString("yyyy-MM-dd HH:mm")` uses the current culture, whose
  time separator replaces ':' and whose calendar counts yyyy, MM and dd (th-TH
  writes the Buddhist year). The model assumes the Gregorian calendar and ':'.
- The SpreadsheetId lookup of the BotWorker constructor and its
  `ArgumentNullException` (BotWorker.cs:32-33) are configuration; the sheet
  id is not modelled, the model has the one spreadsheet.
- Console logging and `HandleError` only print, so they are left out.
- `_password` (Flow/ChatState.cs:40) is never used.
- As written the source does not compile, and the model resolves this as
  follows:
  - BotWorker.cs:80 fires `session.GotText`, which ChatState does not declare;
    it is modelled as firing `_textTrigger`.
  - The public `Fsm` property exposes a machine over a private enum (Flow/ChatState.cs:33).
