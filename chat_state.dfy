/** The per-chat conversation of Flow/ChatState.cs: a Stateless state machine
    with one trigger, TextReceived(string), whose entry actions send the next
    prompt and store the triggering text in a record field.

    The Stateless semantics the source relies on are modelled as follows.
    Firing sets the destination state first and then runs the destination's
    entry actions in registration order (the prompt, then the
    OnEntryFrom store); an exception in one entry action skips the rest and
    leaves the state advanced. The AskPass self-transition is a re-entry and
    runs AskPass's entry action again. */
module Flow {
  import opened Wrappers
  import opened DotNet
  import opened Collaborators

  /** ChatState.States. */
  datatype State =
    | AskPass
    | AskSupervisor
    | AskClient
    | AskDepartment
    | AskItem
    | AskQuantity
    | AskDateTime
    | Completed

  /** The states whose entry stores the triggering text in a record field. */
  predicate IsQuestion(st: State) { st != AskPass && st != Completed }

  /** The hard-coded password of ValidatePassword. */
  const Password: string := "654"

  /** The tab WriteToSheet appends to, through the range 'Отчёт.csv'!A:F. */
  const ReportCsvTab: string := "Отчёт.csv"

  /** The message each state's entry action sends; for Completed it is the
      confirmation sent once the row is written. */
  function EntryText(st: State): string
  {
    match st
    case AskPass => "Введите пароль:"
    case AskSupervisor => "Кто супервизор?"
    case AskClient => "Укажите имя клиента:"
    case AskDepartment => "Отдел клиента:"
    case AskItem => "Какой товар?"
    case AskQuantity => "Укажите количество:"
    case AskDateTime => "Введите дату и время (yyyy-MM-dd HH:mm), или оставьте пустым:"
    case Completed => "Запись успешно сохранена в таблице."
  }

  predicate ValidatePassword(txt: string) { txt == Password }

  /** The destination of TextReceived(txt), as Permit and PermitDynamic
      configure it. */
  function Next(st: State, txt: string): State
  {
    match st
    case AskPass => if ValidatePassword(txt) then AskSupervisor else AskPass
    case AskSupervisor => AskClient
    case AskClient => AskDepartment
    case AskDepartment => AskItem
    case AskItem => AskQuantity
    case AskQuantity => AskDateTime
    case AskDateTime => Completed
    case Completed => AskSupervisor
  }

  /** The place of a state in the declaration of the enum. */
  function Position(st: State): nat
  {
    match st
    case AskPass => 0
    case AskSupervisor => 1
    case AskClient => 2
    case AskDepartment => 3
    case AskItem => 4
    case AskQuantity => 5
    case AskDateTime => 6
    case Completed => 7
  }

  /** The fields _supervisor ... _dateTime; the strings start as C# null. */
  datatype Record = Record(
    supervisor: Option<string>,
    client: Option<string>,
    department: Option<string>,
    item: Option<string>,
    quantity: int32,
    dateTime: DateTime)

  /** The fields of a newly constructed ChatState: default values. */
  const EmptyRecord: Record := Record(None, None, None, None, 0, MinValue)

  /** What a ChatState holds: the machine's state and the record fields. */
  datatype Session = Session(state: State, rec: Record)

  /** A ChatState before its constructor fires the initial empty text. */
  const Fresh: Session := Session(AskPass, EmptyRecord)

  /** `DateTime.TryParse(string, out DateTime)` under the process culture. */
  type DateParser = string -> Option<DateTime>

  /** What the outside world answers during one fire: whether a send to the
      chat and an append to the sheet succeed, and DateTime.UtcNow. */
  datatype Io = Io(sendOk: bool, appendOk: bool, now: DateTime)

  /** `int.TryParse(txt, out var q) ? q : 0`. */
  function QuantityOf(txt: string): int32
  {
    TryParseInt32(txt).GetOr(0)
  }

  /** `DateTime.TryParse(txt, out var dt) ? dt : DateTime.UtcNow`. */
  function DateTimeOf(txt: string, io: Io, parse: DateParser): DateTime
  {
    parse(txt).GetOr(io.now)
  }

  /** The OnEntryFromAsync action of a question state: the triggering text
      written into that state's field. */
  function Store(dest: State, rec: Record, txt: string, io: Io, parse: DateParser): Record
    requires IsQuestion(dest)
  {
    match dest
    case AskSupervisor => rec.(supervisor := Some(txt))
    case AskClient => rec.(client := Some(txt))
    case AskDepartment => rec.(department := Some(txt))
    case AskItem => rec.(item := Some(txt))
    case AskQuantity => rec.(quantity := QuantityOf(txt))
    case AskDateTime => rec.(dateTime := DateTimeOf(txt, io, parse))
  }

  function CellOf(field: Option<string>): Cell
  {
    match field
    case None => Blank
    case Some(s) => Text(s)
  }

  /** The six-column row WriteToSheet builds. */
  function RowOf(rec: Record): (r: Row)
    ensures |r| == 6
  {
    [CellOf(rec.supervisor), CellOf(rec.client), CellOf(rec.department), CellOf(rec.item),
     Number(rec.quantity), Text(Format(rec.dateTime))]
  }

  /** The result of firing: the new session, the states whose entry message
      reached the chat (see EntryText), the rows appended to the report tab,
      both in order, and whether the fire ended in an exception. */
  datatype Outcome = Outcome(after: Session, sent: seq<State>, appended: seq<Row>, faulted: bool)

  /** One `FireAsync(_textTrigger, txt)`. */
  function Step(s: Session, txt: string, io: Io, parse: DateParser): Outcome
  {
    var dest := Next(s.state, txt);
    var entered := s.(state := dest);
    if dest == Completed then
      // WriteToSheet, then the confirmation; a failing append skips the confirmation
      if !io.appendOk then Outcome(entered, [], [], true)
      else Outcome(entered, if io.sendOk then [Completed] else [], [RowOf(s.rec)], !io.sendOk)
    else if !io.sendOk then
      // the prompt throws and the OnEntryFrom store does not run
      Outcome(entered, [], [], true)
    else if dest == AskPass then
      Outcome(entered, [AskPass], [], false)
    else
      Outcome(entered.(rec := Store(dest, s.rec, txt, io, parse)), [dest], [], false)
  }

  /** Several fires in a row, each under the same `io`. */
  function Run(s: Session, txts: seq<string>, io: Io, parse: DateParser): Outcome
    decreases |txts|
  {
    if txts == [] then Outcome(s, [], [], false)
    else
      var first := Step(s, txts[0], io, parse);
      var rest := Run(first.after, txts[1..], io, parse);
      Outcome(rest.after, first.sent + rest.sent, first.appended + rest.appended,
              first.faulted || rest.faulted)
  }

  function Repeat<T>(x: T, n: nat): (r: seq<T>)
    ensures |r| == n && forall i :: 0 <= i < n ==> r[i] == x
  {
    if n == 0 then [] else [x] + Repeat(x, n - 1)
  }

  /** A session's sends, as the messages its chat receives. */
  function Addressed(chat: int, sent: seq<State>): (r: seq<Outgoing>)
    ensures |r| == |sent|
    ensures forall i :: 0 <= i < |sent| ==> r[i] == Outgoing(chat, EntryText(sent[i]), false)
  {
    seq(|sent|, i requires 0 <= i < |sent| => Outgoing(chat, EntryText(sent[i]), false))
  }

  lemma AddressedConcat(chat: int, a: seq<State>, b: seq<State>)
    ensures Addressed(chat, a + b) == Addressed(chat, a) + Addressed(chat, b)
  {
  }

  // ---------------------------------------------------------------------------
  // Properties of the machine
  // ---------------------------------------------------------------------------

  /** The constructor's fire of the empty text fails the password gate and
      re-enters AskPass: one password prompt, no field written. */
  lemma FreshSession(io: Io, parse: DateParser)
    ensures Step(Fresh, "", io, parse).after == Fresh
    ensures Step(Fresh, "", io, parse).sent == (if io.sendOk then [AskPass] else [])
    ensures Step(Fresh, "", io, parse).appended == []
  {
  }

  /** The password gate: only "654" leaves AskPass; anything else re-enters
      AskPass, re-sends the prompt and changes no field. */
  lemma PasswordGate(s: Session, txt: string, io: Io, parse: DateParser)
    requires s.state == AskPass
    ensures Step(s, txt, io, parse).after.state == AskSupervisor <==> txt == Password
    ensures txt != Password ==>
      Step(s, txt, io, parse).after == s && Step(s, txt, io, parse).appended == [] &&
      Step(s, txt, io, parse).sent == (if io.sendOk then [AskPass] else [])
  {
  }

  /** Any number of wrong passwords keeps the session where it is and sends
      the prompt once per attempt: there is no attempt limit. */
  lemma {:induction false} WrongPasswordsRetry(s: Session, ws: seq<string>, io: Io, parse: DateParser)
    requires s.state == AskPass
    requires forall i :: 0 <= i < |ws| ==> ws[i] != Password
    ensures Run(s, ws, io, parse).after == s
    ensures Run(s, ws, io, parse).appended == []
    ensures Run(s, ws, io, parse).sent == (if io.sendOk then Repeat(AskPass, |ws|) else [])
  {
    if ws != [] {
      PasswordGate(s, ws[0], io, parse);
      WrongPasswordsRetry(s, ws[1..], io, parse);
      if io.sendOk {
        assert [AskPass] + Repeat(AskPass, |ws| - 1) == Repeat(AskPass, |ws|);
      }
    }
  }

  /** Outside AskPass a state has one successor, whatever the text: the next
      state of the enum, and AskSupervisor after Completed. */
  lemma FixedSuccessor(st: State, txt: string, other: string)
    requires st != AskPass
    ensures Next(st, txt) == Next(st, other)
    ensures Position(Next(st, txt)) == if st == Completed then 1 else Position(st) + 1
  {
  }

  /** Each fire makes exactly one transition, sends at most one message and
      appends at most one row, the latter only on entering Completed. */
  lemma OneTransitionPerFire(s: Session, txt: string, io: Io, parse: DateParser)
    ensures Step(s, txt, io, parse).after.state == Next(s.state, txt)
    ensures |Step(s, txt, io, parse).sent| <= 1
    ensures Step(s, txt, io, parse).appended != [] <==> Next(s.state, txt) == Completed && io.appendOk
    ensures |Step(s, txt, io, parse).appended| <= 1
  {
  }

  /** Entering a question state sends exactly its prompt and then stores the
      text; when the prompt fails the store is skipped and the fire faults. */
  lemma EntryPromptsThenStores(s: Session, txt: string, io: Io, parse: DateParser)
    requires IsQuestion(Next(s.state, txt))
    ensures var o := Step(s, txt, io, parse);
      if io.sendOk then
        o.sent == [Next(s.state, txt)] && !o.faulted &&
        o.after.rec == Store(Next(s.state, txt), s.rec, txt, io, parse)
      else
        o.sent == [] && o.faulted && o.after.rec == s.rec
  {
  }

  /** OnEntryFrom stores the text that caused the entry, which answers the
      previous prompt: the password lands in supervisor, the supervisor's name
      in client, and so on; the timestamp answer is stored nowhere. */
  lemma ColumnShift(s: Session, txt: string, io: Io, parse: DateParser)
    requires io.sendOk
    ensures var r := Step(s, txt, io, parse).after.rec;
      (s.state == AskPass && txt == Password ==> r == s.rec.(supervisor := Some(txt))) &&
      (s.state == AskPass && txt != Password ==> r == s.rec) &&
      (s.state == AskSupervisor ==> r == s.rec.(client := Some(txt))) &&
      (s.state == AskClient ==> r == s.rec.(department := Some(txt))) &&
      (s.state == AskDepartment ==> r == s.rec.(item := Some(txt))) &&
      (s.state == AskItem ==> r == s.rec.(quantity := QuantityOf(txt))) &&
      (s.state == AskQuantity ==> r == s.rec.(dateTime := DateTimeOf(txt, io, parse))) &&
      (s.state == AskDateTime ==> r == s.rec) &&
      (s.state == Completed ==> r == s.rec.(supervisor := Some(txt)))
  {
  }

  /** No fire ever clears a field: a string field that has been written stays
      written until it is overwritten. */
  lemma NoFieldCleared(s: Session, txt: string, io: Io, parse: DateParser)
    ensures var r := Step(s, txt, io, parse).after.rec;
      (s.rec.supervisor.Some? ==> r.supervisor.Some?) &&
      (s.rec.client.Some? ==> r.client.Some?) &&
      (s.rec.department.Some? ==> r.department.Some?) &&
      (s.rec.item.Some? ==> r.item.Some?)
  {
  }

  /** Entering Completed appends the current record and then confirms; the
      record itself is left as it is. */
  lemma CompletionAppendsThenConfirms(s: Session, txt: string, io: Io, parse: DateParser)
    requires s.state == AskDateTime && io.appendOk
    ensures var o := Step(s, txt, io, parse);
      o.after == Session(Completed, s.rec) && o.appended == [RowOf(s.rec)] &&
      o.sent == (if io.sendOk then [Completed] else []) && o.faulted == !io.sendOk
  {
  }

  /** A failing append sends no confirmation yet leaves the state Completed,
      and the next text still moves on to AskSupervisor: nothing rolls back. */
  lemma FailedAppendNoRollback(s: Session, txt: string, io: Io, later: string, io2: Io, parse: DateParser)
    requires s.state == AskDateTime && !io.appendOk
    ensures var o := Step(s, txt, io, parse);
      o.after == Session(Completed, s.rec) && o.sent == [] && o.appended == [] && o.faulted &&
      Step(o.after, later, io2, parse).after.state == AskSupervisor
  {
  }

  /** The quantity is the value of the decimal text of any C# int, and 0 for
      text that does not parse. */
  lemma QuantityOfIntText(n: int32)
    ensures QuantityOf(Int32ToString(n)) == n
  {
    Int32RoundTrip(n);
  }

  lemma QuantityOfNonNumeric(txt: string)
    requires forall i :: 0 <= i < |txt| ==> !IsDigit(txt[i])
    ensures QuantityOf(txt) == 0
  {
    NonNumericRefused(txt);
  }

  lemma QuantityOfOverflow(n: nat)
    requires n > Int32Max
    ensures QuantityOf(Decimal(n)) == 0
    ensures n > -Int32Min ==> QuantityOf("-" + Decimal(n)) == 0
  {
    OverflowRefused(n);
    if n > -Int32Min {
      NegativeOverflowRefused(n);
    }
  }

  /** The timestamp is the parsed value when DateTime.TryParse succeeds and
      the current UTC time otherwise. */
  lemma DateTimeFallback(txt: string, io: Io, parse: DateParser)
    ensures parse(txt).Some? ==> DateTimeOf(txt, io, parse) == parse(txt).value
    ensures parse(txt).None? ==> DateTimeOf(txt, io, parse) == io.now
  {
  }

  /** One full record: from Completed, or from AskPass with the right password
      first, seven texts x0..x6 end in Completed having appended exactly one
      row (x0, x1, x2, x3, Q(x4), fmt(D(x5))) built from these texts alone;
      x6 is stored nowhere. */
  lemma RecordCycle(s: Session, x: seq<string>, io: Io, parse: DateParser)
    requires |x| == 7 && io.sendOk && io.appendOk
    requires s.state == Completed || (s.state == AskPass && x[0] == Password)
    ensures var o := Run(s, x, io, parse);
      o.after == Session(Completed,
        Record(Some(x[0]), Some(x[1]), Some(x[2]), Some(x[3]), QuantityOf(x[4]), DateTimeOf(x[5], io, parse))) &&
      o.appended == [[Text(x[0]), Text(x[1]), Text(x[2]), Text(x[3]),
                      Number(QuantityOf(x[4])), Text(Format(DateTimeOf(x[5], io, parse)))]] &&
      o.sent == [AskSupervisor, AskClient, AskDepartment, AskItem, AskQuantity, AskDateTime, Completed] &&
      !o.faulted
  {
    var s1 := Session(AskSupervisor, s.rec.(supervisor := Some(x[0])));
    assert Step(s, x[0], io, parse) == Outcome(s1, [AskSupervisor], [], false);
    var y := x[1..];
    assert y[0] == x[1] && y[1] == x[2] && y[2] == x[3] && y[3] == x[4] && y[4] == x[5];
    var rec := Record(Some(x[0]), Some(x[1]), Some(x[2]), Some(x[3]), QuantityOf(x[4]), DateTimeOf(x[5], io, parse));
    RunFromSupervisor(s1, y, io, parse);
    assert Run(s1, y, io, parse) == Outcome(Session(Completed, rec),
      [AskClient, AskDepartment, AskItem, AskQuantity, AskDateTime, Completed], [RowOf(rec)], false);
  }

  /** The conversation "", "654", "Sup1", "ClientX", "DeptY", "Widget", "10",
      "2024-01-01 10:00" on a new session ends in Completed, and the row it
      appends is shifted by one column: "654" as supervisor, "Widget" parsed
      as the quantity (0), "10" given to DateTime.TryParse, and the last text
      stored nowhere. */
  lemma ExampleConversation(io: Io, parse: DateParser)
    requires io.sendOk && io.appendOk
    ensures var o := Run(Fresh, ["", "654", "Sup1", "ClientX", "DeptY", "Widget", "10", "2024-01-01 10:00"], io, parse);
      o.after.state == Completed &&
      o.appended == [[Text("654"), Text("Sup1"), Text("ClientX"), Text("DeptY"), Number(0),
                      Text(Format(DateTimeOf("10", io, parse)))]]
  {
    var x := ["654", "Sup1", "ClientX", "DeptY", "Widget", "10", "2024-01-01 10:00"];
    assert ["", "654", "Sup1", "ClientX", "DeptY", "Widget", "10", "2024-01-01 10:00"] == [""] + x;
    FreshSession(io, parse);
    assert x[0] == Password;
    QuantityOfNonNumeric(x[4]);
    RecordCycle(Fresh, x, io, parse);
  }

  // The rest of a record, one question at a time.

  lemma RunFromSupervisor(s: Session, y: seq<string>, io: Io, parse: DateParser)
    requires s.state == AskSupervisor && |y| == 6 && io.sendOk && io.appendOk
    ensures var rec := Record(s.rec.supervisor, Some(y[0]), Some(y[1]), Some(y[2]),
                              QuantityOf(y[3]), DateTimeOf(y[4], io, parse));
      Run(s, y, io, parse) == Outcome(Session(Completed, rec),
        [AskClient, AskDepartment, AskItem, AskQuantity, AskDateTime, Completed], [RowOf(rec)], false)
  {
    RunFromClient(Session(AskClient, s.rec.(client := Some(y[0]))), y[1..], io, parse);
  }

  lemma RunFromClient(s: Session, y: seq<string>, io: Io, parse: DateParser)
    requires s.state == AskClient && |y| == 5 && io.sendOk && io.appendOk
    ensures var rec := Record(s.rec.supervisor, s.rec.client, Some(y[0]), Some(y[1]),
                              QuantityOf(y[2]), DateTimeOf(y[3], io, parse));
      Run(s, y, io, parse) == Outcome(Session(Completed, rec),
        [AskDepartment, AskItem, AskQuantity, AskDateTime, Completed], [RowOf(rec)], false)
  {
    RunFromDepartment(Session(AskDepartment, s.rec.(department := Some(y[0]))), y[1..], io, parse);
  }

  lemma RunFromDepartment(s: Session, y: seq<string>, io: Io, parse: DateParser)
    requires s.state == AskDepartment && |y| == 4 && io.sendOk && io.appendOk
    ensures var rec := Record(s.rec.supervisor, s.rec.client, s.rec.department, Some(y[0]),
                              QuantityOf(y[1]), DateTimeOf(y[2], io, parse));
      Run(s, y, io, parse) == Outcome(Session(Completed, rec),
        [AskItem, AskQuantity, AskDateTime, Completed], [RowOf(rec)], false)
  {
    RunFromItem(Session(AskItem, s.rec.(item := Some(y[0]))), y[1..], io, parse);
  }

  lemma RunFromItem(s: Session, y: seq<string>, io: Io, parse: DateParser)
    requires s.state == AskItem && |y| == 3 && io.sendOk && io.appendOk
    ensures var rec := Record(s.rec.supervisor, s.rec.client, s.rec.department, s.rec.item,
                              QuantityOf(y[0]), DateTimeOf(y[1], io, parse));
      Run(s, y, io, parse) == Outcome(Session(Completed, rec),
        [AskQuantity, AskDateTime, Completed], [RowOf(rec)], false)
  {
    RunFromQuantity(Session(AskQuantity, s.rec.(quantity := QuantityOf(y[0]))), y[1..], io, parse);
  }

  lemma RunFromQuantity(s: Session, y: seq<string>, io: Io, parse: DateParser)
    requires s.state == AskQuantity && |y| == 2 && io.sendOk && io.appendOk
    ensures var rec := s.rec.(dateTime := DateTimeOf(y[0], io, parse));
      Run(s, y, io, parse) == Outcome(Session(Completed, rec), [AskDateTime, Completed], [RowOf(rec)], false)
  {
    RunFromDateTime(Session(AskDateTime, s.rec.(dateTime := DateTimeOf(y[0], io, parse))), y[1..], io, parse);
  }

  lemma RunFromDateTime(s: Session, y: seq<string>, io: Io, parse: DateParser)
    requires s.state == AskDateTime && |y| == 1 && io.sendOk && io.appendOk
    ensures Run(s, y, io, parse) == Outcome(Session(Completed, s.rec), [Completed], [RowOf(s.rec)], false)
  {
    assert y[1..] == [];
  }

  // ---------------------------------------------------------------------------
  // The ChatState object
  // ---------------------------------------------------------------------------

  /** One chat's session: the Stateless machine's current state and the
      record fields, with the chat it talks to and the sheet it writes. */
  class ChatState {
    const chatId: int
    const bot: Transport
    const sheets: Spreadsheet
    const parseDate: DateParser

    var state: State
    var supervisor: Option<string>
    var client: Option<string>
    var department: Option<string>
    var item: Option<string>
    var quantity: int32
    var dateTime: DateTime

    /** The session as a value. */
    function Snapshot(): Session
      reads this
    {
      Session(state, Record(supervisor, client, department, item, quantity, dateTime))
    }

    /** `new ChatState(bot, chatId, sheets, sheetId)`: the machine starts in
        AskPass with default fields and is fired once with the empty text.
        The task of that fire is discarded, so its failure is not reported. */
    constructor (bot: Transport, chatId: int, sheets: Spreadsheet, parseDate: DateParser, io: Io)
      modifies bot, sheets
      ensures this.bot == bot && this.chatId == chatId && this.sheets == sheets
      ensures this.parseDate == parseDate
      ensures Snapshot() == Step(Fresh, "", io, parseDate).after
      ensures bot.sent == old(bot.sent) + Addressed(chatId, Step(Fresh, "", io, parseDate).sent)
      ensures sheets.tabs == old(sheets.tabs)
    {
      this.chatId := chatId;
      this.bot := bot;
      this.sheets := sheets;
      this.parseDate := parseDate;
      state := AskPass;
      supervisor, client, department, item := None, None, None, None;
      quantity, dateTime := 0, MinValue;
      new;
      var _ := Fire("", io);
    }

    /** `FireAsync(_textTrigger, txt)`: one transition, then the destination's
        entry actions; `faulted` tells that one of them threw. */
    method Fire(txt: string, io: Io) returns (faulted: bool)
      modifies this, bot, sheets
      ensures Snapshot() == Step(old(Snapshot()), txt, io, parseDate).after
      ensures faulted == Step(old(Snapshot()), txt, io, parseDate).faulted
      ensures bot.sent == old(bot.sent) + Addressed(chatId, Step(old(Snapshot()), txt, io, parseDate).sent)
      ensures sheets.tabs == Appended(old(sheets.tabs), ReportCsvTab, Step(old(Snapshot()), txt, io, parseDate).appended)
    {
      var dest := Next(state, txt);
      state := dest;
      if dest == Completed {
        faulted := WriteToSheet(io);
        if !faulted {
          faulted := Say(Completed, io);
        }
      } else {
        faulted := Say(dest, io);
        if !faulted {
          match dest
          case AskSupervisor => supervisor := Some(txt);
          case AskClient => client := Some(txt);
          case AskDepartment => department := Some(txt);
          case AskItem => item := Some(txt);
          case AskQuantity => quantity := QuantityOf(txt);
          case AskDateTime => dateTime := DateTimeOf(txt, io, parseDate);
          case _ =>
        }
      }
    }

    /** SendAsync of the entry message of `st`; it throws when the send fails. */
    method Say(st: State, io: Io) returns (faulted: bool)
      modifies bot
      ensures faulted == !io.sendOk
      ensures bot.sent == old(bot.sent) + Addressed(chatId, if io.sendOk then [st] else [])
    {
      if io.sendOk {
        bot.Send(chatId, EntryText(st), false);
        faulted := false;
      } else {
        faulted := true;
      }
    }

    /** WriteToSheet: the six fields as one row appended to 'Отчёт.csv'!A:F. */
    method WriteToSheet(io: Io) returns (faulted: bool)
      modifies sheets
      ensures faulted == !io.appendOk
      ensures sheets.tabs == Appended(old(sheets.tabs), ReportCsvTab, if io.appendOk then [RowOf(Snapshot().rec)] else [])
    {
      if io.appendOk {
        var row := [CellOf(supervisor), CellOf(client), CellOf(department), CellOf(item),
                    Number(quantity), Text(Format(dateTime))];
        sheets.Append(ReportCsvTab, row);
        faulted := false;
      } else {
        faulted := true;
      }
    }
  }
}
