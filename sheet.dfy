/**
 * The progress recorder's route: POST /api/log-to-sheet. It builds an eight-column
 * row from the request, reads column A of the sheet, and overwrites the first row
 * whose key is the workflow id or appends the row when there is none.
 */
module LogToSheet {
  import opened Wrappers
  import opened Web

  /** The JSON body the route reads. */
  datatype SheetRequest = SheetRequest(workflowId: string, topic: string, rhyme: Option<string>,
                                       timestamp: string, audioUrl: Option<string>, videoUrl: Option<string>,
                                       youtubeUrl: Option<string>, status: Option<string>)

  /** The JSON body of a 200 reply. */
  datatype SheetBody = SheetBody(success: bool, workflowId: string)

  /**
   * The store as the route meets it: the configured spreadsheet id (from the
   * environment) and whether the column-A read and the row write throw, with what message.
   */
  datatype Backend = Backend(sheetId: Option<string>, readError: Option<string>, writeError: Option<string>)

  /** One sheet row, column A first. */
  type Row = seq<string>

  const Columns := 8
  const NotConfigured := "Google Sheet ID not configured"
  const LogFailed := "Failed to log to Google Sheets"
  const InProgress := "in-progress"

  /** The row written for a request: id, timestamp, topic, rhyme, audio, video, YouTube, status. */
  function RowOf(req: SheetRequest): (row: Row)
    ensures |row| == Columns
    ensures row[0] == req.workflowId && row[1] == req.timestamp && row[2] == req.topic
    // optional fields that are missing or empty become empty cells
    ensures row[3] == (if Truthy(req.rhyme) then req.rhyme.value else "")
    ensures row[4] == (if Truthy(req.audioUrl) then req.audioUrl.value else "")
    ensures row[5] == (if Truthy(req.videoUrl) then req.videoUrl.value else "")
    ensures row[6] == (if Truthy(req.youtubeUrl) then req.youtubeUrl.value else "")
    // the status cell is never empty: a missing status reads 'in-progress'
    ensures row[7] == (if Truthy(req.status) then req.status.value else InProgress) && row[7] != ""
  {
    [req.workflowId, req.timestamp, req.topic,
     OrElse(req.rhyme, ""), OrElse(req.audioUrl, ""), OrElse(req.videoUrl, ""), OrElse(req.youtubeUrl, ""),
     OrElse(req.status, InProgress)]
  }

  /** The value column A yields for a row: `row[0]`, undefined for an empty row. */
  function Key(row: Row): Option<string> {
    if |row| == 0 then None else Some(row[0])
  }

  /** Column A as the read returns it. */
  function ColumnA(rows: seq<Row>): (keys: seq<Option<string>>)
    ensures |keys| == |rows| && forall i :: 0 <= i < |rows| ==> keys[i] == Key(rows[i])
  {
    seq(|rows|, i requires 0 <= i < |rows| => Key(rows[i]))
  }

  /** `keys.findIndex(k => k === id)`: the first position holding the id, or -1. */
  function FindIndex(keys: seq<Option<string>>, id: string): (i: int)
    ensures -1 <= i < |keys|
    ensures i >= 0 ==> keys[i] == Some(id)
    ensures forall j :: 0 <= j < |keys| && (i < 0 || j < i) ==> keys[j] != Some(id)
  {
    if |keys| == 0 then -1
    else if keys[0] == Some(id) then 0
    else
      var k := FindIndex(keys[1..], id);
      assert forall j :: 1 <= j < |keys| ==> keys[j] == keys[1..][j - 1];
      if k < 0 then -1 else k + 1
  }

  /** Writing an eight-cell row over range A:H of an existing row: cells after column H survive. */
  function Overwrite(existing: Row, row: Row): (r: Row)
    requires |row| == Columns
    ensures |r| >= Columns && r[..Columns] == row && Key(r) == Key(row)
    ensures r[Columns..] == (if |existing| > Columns then existing[Columns..] else [])
  {
    row + (if |existing| > Columns then existing[Columns..] else [])
  }

  /** The table after the route's write of `row`. */
  function Upserted(rows: seq<Row>, row: Row): (r: seq<Row>)
    requires |row| == Columns
    // the first row keyed by the id takes the new cells and no other row changes ...
    ensures var i := FindIndex(ColumnA(rows), row[0]);
      i >= 0 ==> |r| == |rows| && |r[i]| >= Columns && r[i][..Columns] == row
                 && forall j :: 0 <= j < |rows| && j != i ==> r[j] == rows[j]
    // ... and without such a row the new row is appended after the existing ones
    ensures FindIndex(ColumnA(rows), row[0]) < 0 ==> r == rows + [row]
  {
    var i := FindIndex(ColumnA(rows), row[0]);
    if i > -1 then rows[i := Overwrite(rows[i], row)] else rows + [row]
  }

  /** The store answers when it is configured and neither of its calls throws. */
  predicate Healthy(b: Backend) {
    Truthy(b.sheetId) && b.readError.None? && b.writeError.None?
  }

  /** The route's reply and the table it leaves behind. */
  function Respond(rows: seq<Row>, req: SheetRequest, b: Backend): (res: (Reply<SheetBody>, seq<Row>))
    // a missing spreadsheet id is a 500 that leaves the table alone
    ensures !Truthy(b.sheetId) ==> res == (ErrorJson(500, NotConfigured), rows)
    ensures res.0.Json? <==> Healthy(b)
    ensures res.0.Json? ==> res.0.body == SheetBody(true, req.workflowId) && res.1 == Upserted(rows, RowOf(req))
    // every failure is a 500 with a non-empty message, and nothing is written
    ensures res.0.ErrorJson? ==> res.0.status == 500 && res.0.error != "" && res.1 == rows
  {
    if !Truthy(b.sheetId) then (ErrorJson(500, NotConfigured), rows)
    else if b.readError.Some? then (ErrorJson(500, OrElse(b.readError, LogFailed)), rows)
    else if b.writeError.Some? then (ErrorJson(500, OrElse(b.writeError, LogFailed)), rows)
    else (Json(SheetBody(true, req.workflowId)), Upserted(rows, RowOf(req)))
  }

  /** After an upsert the id's first row sits where it was (or at the end) and holds the new cells. */
  lemma {:induction false} UpsertFinds(rows: seq<Row>, row: Row)
    requires |row| == Columns
    ensures var i := FindIndex(ColumnA(rows), row[0]);
      var r := Upserted(rows, row);
      FindIndex(ColumnA(r), row[0]) == (if i >= 0 then i else |rows|)
  {
    var i := FindIndex(ColumnA(rows), row[0]);
    var r := Upserted(rows, row);
    var k := FindIndex(ColumnA(r), row[0]);
    var at := if i >= 0 then i else |rows|;
    assert Key(r[at]) == Some(row[0]);
    assert ColumnA(r)[at] == Some(row[0]);
    assert forall j :: 0 <= j < at ==> ColumnA(r)[j] == ColumnA(rows)[j];
  }

  /**
   * Two upserts for the same id into a table without that id leave exactly one row
   * for it, after the original rows, holding the second call's cells.
   */
  lemma TwoUpserts(rows: seq<Row>, first: Row, second: Row)
    requires |first| == Columns && |second| == Columns && first[0] == second[0]
    requires forall j :: 0 <= j < |rows| ==> Key(rows[j]) != Some(first[0])
    ensures Upserted(Upserted(rows, first), second) == rows + [second]
    ensures var r := Upserted(Upserted(rows, first), second);
      forall j :: 0 <= j < |r| && Key(r[j]) == Some(first[0]) ==> j == |rows|
  {
    var once := Upserted(rows, first);
    assert FindIndex(ColumnA(rows), first[0]) < 0;
    assert once == rows + [first];
    UpsertFinds(rows, first);
    assert FindIndex(ColumnA(once), second[0]) == |rows|;
    assert Overwrite(first, second) == second;
    assert Upserted(once, second) == once[|rows| := second];
    assert once[|rows| := second] == rows + [second];
  }

  /** The table the route writes to: other workflows' rows and this one's. */
  class Spreadsheet {
    var rows: seq<Row>

    constructor (rows: seq<Row>)
      ensures this.rows == rows
    {
      this.rows := rows;
    }
  }

  /** The route handler, writing through to the table. */
  method Post(sheet: Spreadsheet, req: SheetRequest, b: Backend) returns (reply: Reply<SheetBody>)
    modifies sheet
    ensures (reply, sheet.rows) == Respond(old(sheet.rows), req, b)
  {
    if !Truthy(b.sheetId) {
      return ErrorJson(500, NotConfigured);
    }
    var values := RowOf(req);
    if b.readError.Some? {
      return ErrorJson(500, OrElse(b.readError, LogFailed));
    }
    var existingRows := ColumnA(sheet.rows);
    var rowIndex := FindIndex(existingRows, req.workflowId);
    if b.writeError.Some? {
      return ErrorJson(500, OrElse(b.writeError, LogFailed));
    }
    if rowIndex > -1 {
      sheet.rows := sheet.rows[rowIndex := Overwrite(sheet.rows[rowIndex], values)];
    } else {
      sheet.rows := sheet.rows + [values];
    }
    reply := Json(SheetBody(true, req.workflowId));
  }
}
