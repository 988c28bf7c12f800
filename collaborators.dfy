/** The two external services the bot talks to, reduced to what they record:
    the Telegram client as a log of delivered messages, and the Google
    spreadsheet as rows per sheet tab. Whether a call succeeds is decided by
    the caller's inputs; these classes only record the calls that succeed. */
module Collaborators {

  /** One value of a row sent with `ValueInputOption.RAW`: a C# `null`, a
      string or an integer. */
  datatype Cell = Blank | Text(text: string) | Number(value: int)

  type Row = seq<Cell>

  /** A cell that the Sheets API reports as having no value. */
  predicate IsEmptyCell(c: Cell) { c == Blank || c == Text("") }

  /** A message delivered to a chat; `removeKeyboard` is the
      `ReplyKeyboardRemove` markup. */
  datatype Outgoing = Outgoing(chat: int, text: string, removeKeyboard: bool)

  /** The rows of `tab`, none when the tab holds nothing yet. */
  function RowsOf(tabs: map<string, seq<Row>>, tab: string): seq<Row>
  {
    if tab in tabs then tabs[tab] else []
  }

  /** `tabs` after appending `rows` at the end of `tab`. */
  function Appended(tabs: map<string, seq<Row>>, tab: string, rows: seq<Row>): (r: map<string, seq<Row>>)
    ensures RowsOf(r, tab) == RowsOf(tabs, tab) + rows
    ensures forall t :: t != tab ==> RowsOf(r, t) == RowsOf(tabs, t)
    ensures rows == [] ==> r == tabs
  {
    if rows == [] then tabs else tabs[tab := RowsOf(tabs, tab) + rows]
  }

  /** `row` written over the first cells of `current`, later cells kept. */
  function Overwrite(current: Row, row: Row): (r: Row)
    ensures |r| >= |row| && r[..|row|] == row
    ensures |current| > |row| ==> r[|row|..] == current[|row|..]
    ensures |current| <= |row| ==> r == row
  {
    row + (if |current| > |row| then current[|row|..] else [])
  }

  /** `rows` after an update of the range that starts at A1 with `row`. */
  function WithFirstRow(rows: seq<Row>, row: Row): (r: seq<Row>)
    ensures |r| > 0 && |r[0]| >= |row| && r[0][..|row|] == row
    ensures |rows| > 0 ==> |r| == |rows| && r[1..] == rows[1..]
    ensures rows == [] ==> r == [row]
    ensures |rows| > 0 && |rows[0]| > |row| ==> r[0][|row|..] == rows[0][|row|..]
  {
    if rows == [] then [row] else [Overwrite(rows[0], row)] + rows[1..]
  }

  /** The Telegram bot client. */
  class Transport {
    ghost var sent: seq<Outgoing>

    constructor ()
      ensures sent == []
    {
      sent := [];
    }

    /** A successful `SendTextMessageAsync` / `SendMessage`. */
    method Send(chat: int, text: string, removeKeyboard: bool)
      modifies this
      ensures sent == old(sent) + [Outgoing(chat, text, removeKeyboard)]
    {
      sent := sent + [Outgoing(chat, text, removeKeyboard)];
    }
  }

  /** The spreadsheet named by the configured SpreadsheetId. */
  class Spreadsheet {
    var tabs: map<string, seq<Row>>

    constructor (tabs: map<string, seq<Row>>)
      ensures this.tabs == tabs
    {
      this.tabs := tabs;
    }

    function Rows(tab: string): seq<Row>
      reads this
    {
      RowsOf(tabs, tab)
    }

    /** A successful `Values.Append` of one row to the columns A:F of `tab`. */
    method Append(tab: string, row: Row)
      modifies this
      ensures tabs == Appended(old(tabs), tab, [row])
    {
      tabs := Appended(tabs, tab, [row]);
    }

    /** A successful `Values.Update` of the range starting at A1 of `tab`. */
    method UpdateFirstRow(tab: string, row: Row)
      modifies this
      ensures tabs == old(tabs)[tab := WithFirstRow(old(Rows(tab)), row)]
    {
      tabs := tabs[tab := WithFirstRow(Rows(tab), row)];
    }
  }
}
