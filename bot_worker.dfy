/** BotWorker.cs: the dispatcher that routes Telegram updates to per-chat
    sessions kept in a dictionary keyed by chat id, and the start-up step that
    makes sure the report sheet has its header row. Each update is handled as
    one sequential step. */
module Worker {
  import opened Wrappers
  import opened Collaborators
  import opened DotNet
  import opened Flow

  /** An incoming update, reduced to what HandleUpdate reads: a message with
      its chat and its possibly null text, a callback query with the chat of
      its message (None when that message is null), or any other kind. */
  datatype Update =
    | MessageUpdate(chat: int, text: Option<string>)
    | CallbackQueryUpdate(message: Option<int>)
    | OtherUpdate

  const RestartCommand: string := "/start"
  const RestartAck: string := "Начинаем…"

  /** The tab whose range 'Отчёт'!A1:F1 holds the header. It is not the tab
      the sessions append to (ReportCsvTab). */
  const ReportSheetTab: string := "Отчёт"

  const Header: Row :=
    [Text("Супервайзер"), Text("Клиент"), Text("Отдел"), Text("Товар"), Text("Кол‑во"), Text("Дата/время")]

  /** Ordinal prefix test. */
  predicate StartsWith(s: string, prefix: string)
  {
    |prefix| <= |s| && s[..|prefix|] == prefix
  }

  /** A message whose text starts with "/start". */
  predicate IsRestart(upd: Update)
  {
    upd.MessageUpdate? && upd.text.Some? && StartsWith(upd.text.value, RestartCommand)
  }

  /** The chat id of an update, or the NullReferenceException that reading it
      throws for a callback query without a message. */
  datatype ChatRef = ChatId(id: int) | NullReference

  /** The `switch` on the update type; other kinds give 0. */
  function ResolveChat(upd: Update): ChatRef
  {
    match upd
    case MessageUpdate(chat, _) => ChatId(chat)
    case CallbackQueryUpdate(message) => if message.Some? then ChatId(message.value) else NullReference
    case OtherUpdate => ChatId(0)
  }

  /** The one chat an update can concern. */
  function Target(upd: Update): int
  {
    match ResolveChat(upd)
    case ChatId(id) => id
    case NullReference => 0
  }

  /** The result of handling an update: the new registry, the messages sent
      and the rows appended to the report tab, in order, and whether an
      exception escaped HandleUpdate. */
  datatype Dispatched = Dispatched(registry: map<int, Session>, sent: seq<Outgoing>, appended: seq<Row>, threw: bool)

  /** HandleUpdate on the registry's contents. `createIo` is what the world
      answers to the constructor's first fire when a session is created, `io`
      what it answers to the fire of the message text (or to the restart
      acknowledgement). */
  function Dispatch(reg: map<int, Session>, upd: Update, createIo: Io, io: Io, parse: DateParser): Dispatched
  {
    if IsRestart(upd) then
      // TryRemove, then the acknowledgement, whose failure is not caught
      Dispatched(reg - {upd.chat}, if io.sendOk then [Outgoing(upd.chat, RestartAck, true)] else [], [], !io.sendOk)
    else
      match ResolveChat(upd)
      case NullReference => Dispatched(reg, [], [], true)
      case ChatId(id) =>
        if id == 0 then Dispatched(reg, [], [], false)
        else Routed(reg, id, upd.MessageUpdate?, TextOf(upd), createIo, io, parse)
  }

  /** The text a message carries; a null text reads as "". */
  function TextOf(upd: Update): string
  {
    if upd.MessageUpdate? then upd.text.GetOr("") else ""
  }

  // Three plain map and sequence facts, stated apart so that RouteMessage's
  // proof stays small; they model nothing of the source.

  lemma UpdatedTwice(m: map<int, Session>, k: int, a: Session, b: Session)
    ensures m[k := a][k := b] == m[k := b]
  {
  }

  lemma Associative(a: seq<Outgoing>, b: seq<Outgoing>, c: seq<Outgoing>)
    ensures a + b + c == a + (b + c)
  {
  }

  lemma NoRowsFirst(a: seq<Row>, b: seq<Row>)
    requires a == []
    ensures a + b == b
  {
  }

  /** GetOrAdd: the existing session, or a new one that has fired "". */
  function Created(reg: map<int, Session>, id: int, createIo: Io, parse: DateParser): (r: Outcome)
    ensures r.appended == []
    ensures id in reg ==> r.after == reg[id] && r.sent == []
    ensures id !in reg ==> r == Outcome(Fresh, if createIo.sendOk then [AskPass] else [], [], !createIo.sendOk)
  {
    if id in reg then Outcome(reg[id], [], [], false) else Step(Fresh, "", createIo, parse)
  }

  /** The part of HandleUpdate after the chat id is known: get-or-create the
      session, then fire `txt` at it when the update is a message. */
  function Routed(reg: map<int, Session>, id: int, fire: bool, txt: string, createIo: Io, io: Io,
                  parse: DateParser): Dispatched
  {
    var created := Created(reg, id, createIo, parse);
    if fire then
      // the fire's exception is caught and logged
      var fired := Step(created.after, txt, io, parse);
      Dispatched(reg[id := fired.after], Addressed(id, created.sent + fired.sent),
                 created.appended + fired.appended, false)
    else
      Dispatched(reg[id := created.after], Addressed(id, created.sent), created.appended, false)
  }

  // ---------------------------------------------------------------------------
  // Properties of the dispatcher
  // ---------------------------------------------------------------------------

  /** "/start" removes that chat's session, if any, and nothing else; it sends
      one acknowledgement that removes the keyboard and creates or advances
      no session. */
  lemma RestartResets(reg: map<int, Session>, upd: Update, createIo: Io, io: Io, parse: DateParser)
    requires IsRestart(upd)
    ensures var d := Dispatch(reg, upd, createIo, io, parse);
      d.registry.Keys == reg.Keys - {upd.chat} &&
      (forall c :: c in d.registry ==> d.registry[c] == reg[c]) &&
      d.sent == (if io.sendOk then [Outgoing(upd.chat, RestartAck, true)] else []) &&
      d.appended == [] && d.threw == !io.sendOk
  {
  }

  /** An update that is neither a message nor a callback query resolves to
      chat 0 and is ignored; so is a message from chat 0. */
  lemma ChatZeroIgnored(reg: map<int, Session>, upd: Update, createIo: Io, io: Io, parse: DateParser)
    requires upd.OtherUpdate? || (upd.MessageUpdate? && upd.chat == 0 && !IsRestart(upd))
    ensures Dispatch(reg, upd, createIo, io, parse) == Dispatched(reg, [], [], false)
  {
  }

  /** A callback query without a message throws before the registry is read. */
  lemma CallbackWithoutMessageThrows(reg: map<int, Session>, createIo: Io, io: Io, parse: DateParser)
    ensures Dispatch(reg, CallbackQueryUpdate(None), createIo, io, parse) == Dispatched(reg, [], [], true)
  {
  }

  /** Get-or-create: apart from a restart no key disappears, at most the
      update's own chat is added, and a session that exists is the one used. */
  lemma GetOrCreate(reg: map<int, Session>, upd: Update, createIo: Io, io: Io, parse: DateParser)
    requires !IsRestart(upd)
    ensures var d := Dispatch(reg, upd, createIo, io, parse);
      reg.Keys <= d.registry.Keys <= reg.Keys + {Target(upd)} &&
      (Target(upd) != 0 && Target(upd) in reg && upd.CallbackQueryUpdate? ==> d.registry == reg) &&
      (Target(upd) != 0 && Target(upd) in reg && upd.MessageUpdate? ==>
        d.registry[Target(upd)] == Step(reg[Target(upd)], upd.text.GetOr(""), io, parse).after)
  {
  }

  /** Isolation: handling an update leaves every other chat's entry as it was
      and sends messages to the update's own chat only. */
  lemma Isolation(reg: map<int, Session>, upd: Update, createIo: Io, io: Io, parse: DateParser, c: int)
    requires c != Target(upd)
    ensures var d := Dispatch(reg, upd, createIo, io, parse);
      (c in d.registry <==> c in reg) && (c in reg ==> d.registry[c] == reg[c]) &&
      forall k :: 0 <= k < |d.sent| ==> d.sent[k].chat == Target(upd)
  {
  }

  /** A callback query creates the session of an unseen chat, which asks for
      the password, but never fires it. */
  lemma CallbackCreatesWithoutAdvancing(reg: map<int, Session>, c: int, createIo: Io, io: Io, parse: DateParser)
    requires c != 0
    ensures var d := Dispatch(reg, CallbackQueryUpdate(Some(c)), createIo, io, parse);
      d.registry == (if c in reg then reg else reg[c := Fresh]) &&
      d.sent == (if c !in reg && createIo.sendOk then [Outgoing(c, EntryText(AskPass), false)] else []) &&
      d.appended == [] && !d.threw
  {
    FreshSession(createIo, parse);
  }

  /** A message with null text is handled as the empty text. */
  lemma NullTextIsEmpty(reg: map<int, Session>, c: int, createIo: Io, io: Io, parse: DateParser)
    ensures Dispatch(reg, MessageUpdate(c, None), createIo, io, parse)
         == Dispatch(reg, MessageUpdate(c, Some("")), createIo, io, parse)
  {
  }

  /** A message for a chat fires its session exactly once; whatever the fire
      throws is caught, and the session stays registered. */
  lemma MessageFiresOnce(reg: map<int, Session>, upd: Update, createIo: Io, io: Io, parse: DateParser)
    requires upd.MessageUpdate? && upd.chat != 0 && !IsRestart(upd)
    ensures var d := Dispatch(reg, upd, createIo, io, parse);
      var before := if upd.chat in reg then reg[upd.chat] else Fresh;
      !d.threw && upd.chat in d.registry &&
      d.registry[upd.chat] == Step(before, upd.text.GetOr(""), io, parse).after
  {
    FreshSession(createIo, parse);
  }

  /** The first message of an unseen chat meets a session that has already
      asked for the password: "654" takes it straight to AskSupervisor (with
      "654" stored as supervisor), anything else leaves it in AskPass; no
      other field carries a value. */
  lemma FirstMessage(reg: map<int, Session>, c: int, t: string, createIo: Io, io: Io, parse: DateParser)
    requires c != 0 && c !in reg && !StartsWith(t, RestartCommand)
    ensures var d := Dispatch(reg, MessageUpdate(c, Some(t)), createIo, io, parse);
      d.registry == reg[c := Session(Next(AskPass, t),
        if t == Password && io.sendOk then Record(Some(Password), None, None, None, 0, MinValue) else EmptyRecord)] &&
      d.sent == Addressed(c, (if createIo.sendOk then [AskPass] else []) +
                             (if io.sendOk then [Next(AskPass, t)] else [])) &&
      d.appended == []
  {
    FreshSession(createIo, parse);
  }

  /** After "/start" the next text of that chat starts over from the password
      prompt with no value left from the previous conversation. */
  lemma RestartThenMessage(reg: map<int, Session>, c: int, cmd: string, t: string,
                           createIo: Io, io1: Io, io2: Io, parse: DateParser)
    requires c != 0 && StartsWith(cmd, RestartCommand) && !StartsWith(t, RestartCommand)
    ensures var d1 := Dispatch(reg, MessageUpdate(c, Some(cmd)), createIo, io1, parse);
      var d2 := Dispatch(d1.registry, MessageUpdate(c, Some(t)), createIo, io2, parse);
      d2.registry[c].state == Next(AskPass, t) &&
      d2.registry[c].rec == (if t == Password && io2.sendOk then Record(Some(Password), None, None, None, 0, MinValue)
                             else EmptyRecord)
  {
    var d1 := Dispatch(reg, MessageUpdate(c, Some(cmd)), createIo, io1, parse);
    RestartResets(reg, MessageUpdate(c, Some(cmd)), createIo, io1, parse);
    FirstMessage(d1.registry, c, t, createIo, io2, parse);
  }

  // ---------------------------------------------------------------------------
  // The header of the report sheet
  // ---------------------------------------------------------------------------

  /** `Values.Get` of A1:F1 returns at least one row: some cell of the first
      six in the first row holds a value. */
  predicate HeaderPresent(rows: seq<Row>)
  {
    |rows| > 0 && exists j :: 0 <= j < |rows[0]| && j < 6 && !IsEmptyCell(rows[0][j])
  }

  /** Whether the Get and the Update of EnsureHeaderAsync succeed. */
  datatype HeaderIo = HeaderIo(getOk: bool, updateOk: bool)

  datatype HeaderResult = HeaderResult(rows: seq<Row>, wrote: bool, threw: bool)

  /** EnsureHeaderAsync on the rows of the report sheet. */
  function EnsureHeader(rows: seq<Row>, hio: HeaderIo): HeaderResult
  {
    if !hio.getOk then HeaderResult(rows, false, true)
    else if HeaderPresent(rows) then HeaderResult(rows, false, false)
    else if !hio.updateOk then HeaderResult(rows, false, true)
    else HeaderResult(WithFirstRow(rows, Header), true, false)
  }

  /** The header is written exactly when the range is found empty; once the
      call returns normally the header is there. */
  lemma HeaderWrittenWhenMissing(rows: seq<Row>, hio: HeaderIo)
    ensures var r := EnsureHeader(rows, hio);
      (r.wrote <==> hio.getOk && hio.updateOk && !HeaderPresent(rows)) &&
      (!r.wrote ==> r.rows == rows) &&
      (r.wrote ==> r.rows[0][..6] == Header) &&
      (!r.threw ==> HeaderPresent(r.rows))
  {
    var r := EnsureHeader(rows, hio);
    if r.wrote {
      assert r.rows[0][..6][0] == Text("Супервайзер");
    }
  }

  /** A second call after one that returned normally writes nothing. */
  lemma HeaderIdempotent(rows: seq<Row>, first: HeaderIo, second: HeaderIo)
    requires !EnsureHeader(rows, first).threw
    ensures var r1 := EnsureHeader(rows, first);
      !EnsureHeader(r1.rows, second).wrote && EnsureHeader(r1.rows, second).rows == r1.rows
  {
    HeaderWrittenWhenMissing(rows, first);
  }

  // ---------------------------------------------------------------------------
  // The BotWorker object
  // ---------------------------------------------------------------------------

  class BotWorker {
    const bot: Transport
    const sheets: Spreadsheet
    const parseDate: DateParser

    /** _sessions */
    var sessions: map<int, ChatState>
    /** Whether StartReceiving has been called. */
    var receiving: bool

    /** Each registered session belongs to its key's chat and shares the
        worker's collaborators (so distinct keys hold distinct sessions), and
        updates are received only once the header is in place. */
    ghost predicate Valid()
      reads this, sheets
    {
      (forall c :: c in sessions ==>
        sessions[c].chatId == c && sessions[c].bot == bot && sessions[c].sheets == sheets &&
        sessions[c].parseDate == parseDate) &&
      (receiving ==> HeaderPresent(sheets.Rows(ReportSheetTab)))
    }

    /** The registry's contents: each chat's session as a value. */
    function Registry(): map<int, Session>
      reads this, sessions.Values
    {
      map c | c in sessions :: sessions[c].Snapshot()
    }

    constructor (bot: Transport, sheets: Spreadsheet, parseDate: DateParser)
      ensures Valid()
      ensures this.bot == bot && this.sheets == sheets && this.parseDate == parseDate
      ensures sessions == map[] && !receiving
    {
      this.bot := bot;
      this.sheets := sheets;
      this.parseDate := parseDate;
      sessions := map[];
      receiving := false;
    }

    /** ExecuteAsync: the header first, then StartReceiving; an exception of
        EnsureHeaderAsync ends it before receiving starts. */
    method ExecuteAsync(hio: HeaderIo) returns (threw: bool)
      requires Valid()
      modifies this`receiving, sheets
      ensures Valid()
      ensures threw == EnsureHeader(old(sheets.Rows(ReportSheetTab)), hio).threw
      ensures receiving == (old(receiving) || !threw)
      ensures sheets.tabs ==
        if EnsureHeader(old(sheets.Rows(ReportSheetTab)), hio).wrote
        then old(sheets.tabs)[ReportSheetTab := EnsureHeader(old(sheets.Rows(ReportSheetTab)), hio).rows]
        else old(sheets.tabs)
    {
      HeaderWrittenWhenMissing(sheets.Rows(ReportSheetTab), hio);
      threw := EnsureHeaderAsync(hio);
      if !threw {
        receiving := true;
      }
    }

    /** EnsureHeaderAsync: read 'Отчёт'!A1:F1 and write the header there when
        it holds nothing. */
    method EnsureHeaderAsync(hio: HeaderIo) returns (threw: bool)
      modifies sheets
      ensures threw == EnsureHeader(old(sheets.Rows(ReportSheetTab)), hio).threw
      ensures sheets.tabs ==
        if EnsureHeader(old(sheets.Rows(ReportSheetTab)), hio).wrote
        then old(sheets.tabs)[ReportSheetTab := EnsureHeader(old(sheets.Rows(ReportSheetTab)), hio).rows]
        else old(sheets.tabs)
    {
      if !hio.getOk {
        return true;
      }
      var cur := sheets.Rows(ReportSheetTab);
      if HeaderPresent(cur) {
        return false;
      }
      if !hio.updateOk {
        return true;
      }
      sheets.UpdateFirstRow(ReportSheetTab, Header);
      threw := false;
    }

    /** HandleUpdate, the callback given to StartReceiving: it runs only once
        receiving has started, so the header is in place throughout. */
    method HandleUpdate(upd: Update, createIo: Io, io: Io) returns (threw: bool)
      requires Valid() && receiving
      modifies this`sessions, sessions.Values, bot, sheets
      ensures Valid() && receiving && HeaderPresent(sheets.Rows(ReportSheetTab))
      ensures Registry() == Dispatch(old(Registry()), upd, createIo, io, parseDate).registry
      ensures bot.sent == old(bot.sent) + Dispatch(old(Registry()), upd, createIo, io, parseDate).sent
      ensures sheets.tabs ==
        Appended(old(sheets.tabs), ReportCsvTab, Dispatch(old(Registry()), upd, createIo, io, parseDate).appended)
      ensures threw == Dispatch(old(Registry()), upd, createIo, io, parseDate).threw
      ensures forall c :: c in sessions && c in old(sessions) ==> sessions[c] == old(sessions[c])
      ensures forall c :: c in sessions && c !in old(sessions) ==> fresh(sessions[c])
    {
      if IsRestart(upd) {
        threw := Restart(upd.chat, io);
        return;
      }
      var ref := ResolveChat(upd);
      if ref.NullReference? {
        return true;
      }
      var chatId := ref.id;
      threw := false;
      if chatId == 0 {
        return;
      }
      Route(chatId, upd.MessageUpdate?, TextOf(upd), createIo, io);
    }

    /** Get-or-create the session of `chatId`, then fire `txt` at it when
        `fire` holds. */
    method Route(chatId: int, fire: bool, txt: string, createIo: Io, io: Io)
      requires Valid()
      modifies this`sessions, sessions.Values, bot, sheets
      ensures Valid()
      ensures Registry() == Routed(old(Registry()), chatId, fire, txt, createIo, io, parseDate).registry
      ensures bot.sent == old(bot.sent) + Routed(old(Registry()), chatId, fire, txt, createIo, io, parseDate).sent
      ensures sheets.tabs ==
        Appended(old(sheets.tabs), ReportCsvTab, Routed(old(Registry()), chatId, fire, txt, createIo, io, parseDate).appended)
      ensures forall c :: c in sessions && c in old(sessions) ==> sessions[c] == old(sessions[c])
      ensures forall c :: c in sessions && c !in old(sessions) ==> fresh(sessions[c])
    {
      if fire {
        RouteMessage(chatId, txt, createIo, io);
      } else {
        RouteOther(chatId, createIo, io);
      }
    }

    /** A message: get-or-create the session, then fire the text at it. */
    method RouteMessage(chatId: int, txt: string, createIo: Io, io: Io)
      requires Valid()
      modifies this`sessions, sessions.Values, bot, sheets
      ensures Valid()
      ensures Registry() == Routed(old(Registry()), chatId, true, txt, createIo, io, parseDate).registry
      ensures bot.sent == old(bot.sent) + Routed(old(Registry()), chatId, true, txt, createIo, io, parseDate).sent
      ensures sheets.tabs ==
        Appended(old(sheets.tabs), ReportCsvTab, Routed(old(Registry()), chatId, true, txt, createIo, io, parseDate).appended)
      ensures forall c :: c in sessions && c in old(sessions) ==> sessions[c] == old(sessions[c])
      ensures forall c :: c in sessions && c !in old(sessions) ==> fresh(sessions[c])
    {
      ghost var before := Registry();
      ghost var created := Created(before, chatId, createIo, parseDate);
      ghost var sent0 := bot.sent;
      var session := GetOrAdd(chatId, createIo);
      ghost var fired := Step(created.after, txt, io, parseDate);
      ghost var tabs := sheets.tabs;
      FireSession(session, txt, io);
      UpdatedTwice(before, chatId, created.after, fired.after);
      AddressedConcat(chatId, created.sent, fired.sent);
      Associative(sent0, Addressed(chatId, created.sent), Addressed(chatId, fired.sent));
      NoRowsFirst(created.appended, fired.appended);
    }

    /** Any other update: get-or-create the session and nothing more. */
    method RouteOther(chatId: int, createIo: Io, io: Io)
      requires Valid()
      modifies this`sessions, sessions.Values, bot, sheets
      ensures Valid()
      ensures Registry() == Routed(old(Registry()), chatId, false, "", createIo, io, parseDate).registry
      ensures bot.sent == old(bot.sent) + Routed(old(Registry()), chatId, false, "", createIo, io, parseDate).sent
      ensures sheets.tabs ==
        Appended(old(sheets.tabs), ReportCsvTab, Routed(old(Registry()), chatId, false, "", createIo, io, parseDate).appended)
      ensures forall c :: c in sessions && c in old(sessions) ==> sessions[c] == old(sessions[c])
      ensures forall c :: c in sessions && c !in old(sessions) ==> fresh(sessions[c])
    {
      ghost var before := Registry();
      ghost var created := Created(before, chatId, createIo, parseDate);
      var session := GetOrAdd(chatId, createIo);
      assert session.Snapshot() == Registry()[chatId] == created.after;
    }

    /** `_sessions.TryRemove(chat, out _)`, then the acknowledgement. */
    method Restart(chat: int, io: Io) returns (threw: bool)
      requires Valid()
      modifies this`sessions, bot
      ensures Valid()
      ensures sessions == old(sessions) - {chat}
      ensures Registry() == old(Registry()) - {chat}
      ensures threw == !io.sendOk
      ensures bot.sent == old(bot.sent) + (if io.sendOk then [Outgoing(chat, RestartAck, true)] else [])
    {
      sessions := sessions - {chat};
      if io.sendOk {
        bot.Send(chat, RestartAck, true);
        threw := false;
      } else {
        threw := true;
      }
    }

    /** `_sessions.GetOrAdd(chatId, id => new ChatState(...))`. */
    method GetOrAdd(chatId: int, createIo: Io) returns (session: ChatState)
      requires Valid()
      modifies this`sessions, bot, sheets
      ensures Valid()
      ensures chatId in sessions && session == sessions[chatId]
      ensures session.Snapshot() == Created(old(Registry()), chatId, createIo, parseDate).after
      ensures Registry() == old(Registry())[chatId := Created(old(Registry()), chatId, createIo, parseDate).after]
      ensures bot.sent == old(bot.sent) + Addressed(chatId, Created(old(Registry()), chatId, createIo, parseDate).sent)
      ensures chatId in old(sessions) ==> sessions == old(sessions)
      ensures chatId !in old(sessions) ==> fresh(session) && sessions == old(sessions)[chatId := session]
      ensures sheets.tabs == old(sheets.tabs)
    {
      if chatId in sessions {
        session := sessions[chatId];
      } else {
        session := new ChatState(bot, chatId, sheets, parseDate, createIo);
        sessions := sessions[chatId := session];
      }
    }

    /** `session.Fsm.FireAsync(_textTrigger, txt)` inside the try; the
        exception, if any, is caught and logged. */
    method FireSession(session: ChatState, txt: string, io: Io)
      requires Valid() && session.chatId in sessions && sessions[session.chatId] == session
      modifies session, bot, sheets
      ensures Valid()
      ensures Registry() == old(Registry())[session.chatId := Step(old(session.Snapshot()), txt, io, parseDate).after]
      ensures bot.sent == old(bot.sent) + Addressed(session.chatId, Step(old(session.Snapshot()), txt, io, parseDate).sent)
      ensures sheets.tabs ==
        Appended(old(sheets.tabs), ReportCsvTab, Step(old(session.Snapshot()), txt, io, parseDate).appended)
    {
      ghost var id := session.chatId;
      ghost var was := Registry();
      var _ := session.Fire(txt, io);
      forall c | c in sessions && c != id
        ensures sessions[c].Snapshot() == was[c]
      {
        assert sessions[c].chatId == c;
      }
      assert Registry() == was[id := session.Snapshot()];
    }
  }
}
