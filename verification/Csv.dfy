/** The CSV forms of the call log and of the audit export, and a strict reader of
    RFC 4180 section 2 records (each ended by a line feed) that inverts them. */
module Csv {
  import opened Wrappers
  import opened Json
  import opened AuditChain

  // ---- printing ---------------------------------------------------------------------

  predicate NeedsQuotes(value: string) {
    ',' in value || '"' in value || '\n' in value || '\r' in value
  }

  function Doubled(value: string): string {
    if value == "" then ""
    else (if value[0] == '"' then "\"\"" else [value[0]]) + Doubled(value[1..])
  }

  function Field(value: string): string {
    if NeedsQuotes(value) then "\"" + Doubled(value) + "\"" else value
  }

  function Record(cells: seq<string>): string
    requires cells != []
  {
    Field(cells[0]) + if |cells| == 1 then "\n" else "," + Record(cells[1..])
  }

  predicate NoEmptyRecord(rows: seq<seq<string>>) {
    forall i | 0 <= i < |rows| :: rows[i] != []
  }

  function Records(rows: seq<seq<string>>): string
    requires NoEmptyRecord(rows)
  {
    if rows == [] then "" else Record(rows[0]) + Records(rows[1..])
  }

  /** `csv_field`: the value at the end of the buffer. */
  method PushField(out: string, value: string) returns (grown: string)
    ensures grown == out + Field(value)
  {
    grown := out;
    if ',' in value || '"' in value || '\n' in value || '\r' in value {
      grown := grown + "\"";
      var doubled := "";
      for i := 0 to |value|
        invariant doubled + Doubled(value[i..]) == Doubled(value)
      {
        assert value[i..][1..] == value[i + 1..];
        doubled := doubled + if value[i] == '"' then "\"\"" else [value[i]];
      }
      grown := grown + doubled;
      grown := grown + "\"";
    } else {
      grown := grown + value;
    }
  }

  /** What follows a cell. */
  function Rest(cells: seq<string>): string {
    if cells == [] then "\n" else "," + Record(cells)
  }

  lemma RestOf(before: string, cells: seq<string>, i: nat)
    requires i < |cells|
    ensures before + Record(cells[i..]) == before + Field(cells[i]) + Rest(cells[i + 1..])
  {
    assert cells[i..][1..] == cells[i + 1..];
  }

  lemma CommaFirst(before: string, after: string)
    ensures before + ("," + after) == before + "," + after
  {
  }

  lemma NextCell(before: string, cells: seq<string>, i: nat)
    requires i < |cells|
    ensures before + Rest(cells[i..]) == before + "," + Field(cells[i]) + Rest(cells[i + 1..])
  {
    RestOf(before + ",", cells, i);
    CommaFirst(before, Record(cells[i..]));
  }

  method PushRecord(out: string, cells: seq<string>) returns (grown: string)
    requires cells != []
    ensures grown == out + Record(cells)
  {
    grown := PushField(out, cells[0]);
    RestOf(out, cells, 0);
    assert cells[0..] == cells;
    for i := 1 to |cells|
      invariant grown + Rest(cells[i..]) == out + Record(cells)
    {
      NextCell(grown, cells, i);
      grown := grown + ",";
      grown := PushField(grown, cells[i]);
    }
    grown := grown + "\n";
  }

  // ---- reading ------------------------------------------------------------------------

  /** A quoted field, from behind its opening quote, and what is behind its closing one. */
  function ReadQuoted(t: string): (r: Read<string>)
    ensures r.Got? ==> |r.rest| < |t|
    decreases |t|
  {
    if t == "" then Nothing
    else if t[0] != '"' then
      match ReadQuoted(t[1..])
      case Nothing => Nothing
      case Got(s, rest) => Got([t[0]] + s, rest)
    else if |t| > 1 && t[1] == '"' then
      match ReadQuoted(t[2..])
      case Nothing => Nothing
      case Got(s, rest) => Got("\"" + s, rest)
    else Got("", t[1..])
  }

  function ReadPlain(t: string): (r: Read<string>)
    ensures r.Got? ==> |r.rest| <= |t|
  {
    if t == "" || t[0] == '"' || t[0] == '\r' then Nothing
    else if t[0] == ',' || t[0] == '\n' then Got("", t)
    else
      match ReadPlain(t[1..])
      case Nothing => Nothing
      case Got(s, rest) => Got([t[0]] + s, rest)
  }

  function ReadField(t: string): (r: Read<string>)
    ensures r.Got? ==> |r.rest| <= |t|
  {
    if t != "" && t[0] == '"' then ReadQuoted(t[1..]) else ReadPlain(t)
  }

  function ReadRecord(t: string): (r: Read<seq<string>>)
    ensures r.Got? ==> |r.rest| < |t|
    decreases |t|
  {
    match ReadField(t)
    case Nothing => Nothing
    case Got(cell, rest) =>
      if rest == "" then Nothing
      else if rest[0] == '\n' then Got([cell], rest[1..])
      else if rest[0] == ',' then
        match ReadRecord(rest[1..])
        case Nothing => Nothing
        case Got(cells, rest') => Got([cell] + cells, rest')
      else Nothing
  }

  function ReadCsv(t: string): Option<seq<seq<string>>>
    decreases |t|
  {
    if t == "" then Some([])
    else
      match ReadRecord(t)
      case Nothing => None
      case Got(cells, rest) =>
        match ReadCsv(rest)
        case None => None
        case Some(rows) => Some([cells] + rows)
  }

  // ---- the reader inverts the printer ----------------------------------------------------

  lemma Closed(tail: string)
    requires tail != "" && tail[0] != '"'
    ensures ReadQuoted("" + "\"" + tail) == Got("", tail)
  {
    var t := "" + "\"" + tail;
    assert t[1..] == tail && t[1] == tail[0];
  }

  lemma QuoteBehind(front: string, body: string, tail: string)
    ensures front + body + "\"" + tail == front + (body + "\"" + tail)
  {
  }

  lemma Behind(front: string, more: string)
    ensures (front + more)[|front|..] == more
    ensures forall i | 0 <= i < |front| :: (front + more)[i] == front[i]
  {
  }

  /** One character in front of what reads back. */
  lemma ReadQuotedOne(c: char, body: string, tail: string)
    ensures var t := (if c == '"' then "\"\"" else [c]) + body + "\"" + tail;
      ReadQuoted(t) ==
        match ReadQuoted(body + "\"" + tail)
        case Nothing => Nothing
        case Got(s, rest) => Got([c] + s, rest)
  {
    var front := if c == '"' then "\"\"" else [c];
    QuoteBehind(front, body, tail);
    Behind(front, body + "\"" + tail);
  }

  lemma {:induction false} ReadQuotedBack(value: string, tail: string)
    requires tail != "" && tail[0] != '"'
    ensures ReadQuoted(Doubled(value) + "\"" + tail) == Got(value, tail)
  {
    if value == "" {
      Closed(tail);
    } else {
      ReadQuotedBack(value[1..], tail);
      ReadQuotedOne(value[0], Doubled(value[1..]), tail);
      assert value == [value[0]] + value[1..];
    }
  }

  lemma {:induction false} ReadPlainBack(value: string, tail: string)
    requires !NeedsQuotes(value) && tail != "" && (tail[0] == ',' || tail[0] == '\n')
    ensures ReadPlain(value + tail) == Got(value, tail)
  {
    if value == "" {
      assert value + tail == tail;
    } else {
      assert (value + tail)[1..] == value[1..] + tail;
      assert !NeedsQuotes(value[1..]);
      ReadPlainBack(value[1..], tail);
      assert value == [value[0]] + value[1..];
    }
  }

  lemma QuotedFront(body: string, tail: string)
    ensures ("\"" + body + "\"" + tail)[0] == '"' && ("\"" + body + "\"" + tail)[1..] == body + "\"" + tail
  {
  }

  lemma PlainFront(value: string, tail: string)
    requires !NeedsQuotes(value) && tail != "" && tail[0] != '"'
    ensures (value + tail)[0] != '"'
  {
    if value != "" {
      assert (value + tail)[0] == value[0];
    }
  }

  lemma ReadFieldBack(value: string, tail: string)
    requires tail != "" && (tail[0] == ',' || tail[0] == '\n')
    ensures ReadField(Field(value) + tail) == Got(value, tail)
  {
    if NeedsQuotes(value) {
      QuotedFront(Doubled(value), tail);
      ReadQuotedBack(value, tail);
    } else {
      ReadPlainBack(value, tail);
      PlainFront(value, tail);
    }
  }

  lemma CellThen(value: string, mark: string, more: string, rest: string)
    ensures Field(value) + (mark + more) + rest == Field(value) + (mark + (more + rest))
  {
  }

  /** One cell and the mark behind it. */
  lemma ReadCellBack(value: string, mark: char, rest: string)
    requires mark == ',' || mark == '\n'
    ensures ReadRecord(Field(value) + ([mark] + rest)) ==
      if mark == '\n' then Got([value], rest)
      else
        match ReadRecord(rest)
        case Nothing => Nothing
        case Got(cells, more) => Got([value] + cells, more)
  {
    ReadFieldBack(value, [mark] + rest);
    assert ([mark] + rest)[1..] == rest;
  }

  lemma {:induction false} ReadRecordBack(cells: seq<string>, rest: string)
    requires cells != []
    ensures ReadRecord(Record(cells) + rest) == Got(cells, rest)
    decreases |cells|
  {
    if |cells| == 1 {
      assert "\n" + "" == "\n" && "" + rest == rest;
      CellThen(cells[0], "\n", "", rest);
      ReadCellBack(cells[0], '\n', rest);
      assert cells == [cells[0]];
    } else {
      CellThen(cells[0], ",", Record(cells[1..]), rest);
      ReadCellBack(cells[0], ',', Record(cells[1..]) + rest);
      ReadRecordBack(cells[1..], rest);
      assert cells == [cells[0]] + cells[1..];
    }
  }

  lemma ReadOneMore(row: seq<string>, more: string, rows: seq<seq<string>>)
    requires row != [] && ReadCsv(more) == Some(rows)
    ensures ReadCsv(Record(row) + more) == Some([row] + rows)
  {
    ReadRecordBack(row, more);
  }

  lemma RecordsFirst(rows: seq<seq<string>>)
    requires rows != [] && NoEmptyRecord(rows)
    ensures NoEmptyRecord(rows[1..]) && Records(rows) == Record(rows[0]) + Records(rows[1..])
  {
  }

  lemma ReadNoRecord()
    ensures ReadCsv(Records([])) == Some([])
  {
  }

  /** Reading gives back exactly the cells that were printed, whatever characters they hold. */
  lemma {:induction false} ReadCsvBack(rows: seq<seq<string>>)
    requires NoEmptyRecord(rows)
    ensures ReadCsv(Records(rows)) == Some(rows)
  {
    if rows == [] {
      ReadNoRecord();
    } else {
      RecordsFirst(rows);
      var text := Records(rows[1..]);
      assert ReadCsv(text) == Some(rows[1..]) by {
        ReadCsvBack(rows[1..]);
      }
      assert ReadCsv(Record(rows[0]) + text) == Some([rows[0]] + rows[1..]) by {
        ReadOneMore(rows[0], text, rows[1..]);
      }
      assert rows == [rows[0]] + rows[1..];
    }
  }

  // ---- the audit export -------------------------------------------------------------------

  const COLUMNS: seq<string> :=
    ["ts", "table", "id", "subject", "action", "detail", "prev", "hash", "root_hash", "signature", "kid"]

  function LineCells(l: AuditLine): (cells: seq<string>)
    ensures |cells| == 11
  {
    [Decimal(l.row.ts), l.row.table, Decimal(l.row.id), l.row.subject, l.row.action,
     CanonicalJson(l.row.detail), l.prev, l.hash, "", "", ""]
  }

  function TrailerCells(root: string, rows: nat, signature: string, kid: string): (cells: seq<string>)
    ensures |cells| == 11
  {
    ["", "trailer", Decimal(rows), "", "", "", "", "", root, signature, kid]
  }

  /** Where a column stands. */
  predicate Under(cells: seq<string>, name: string, cell: string) {
    exists i :: 0 <= i < |cells| && i < |COLUMNS| && COLUMNS[i] == name && cells[i] == cell
  }

  /** Every field of a line stands under its own name, and nothing under the trailer's. */
  lemma LineUnderNames(l: AuditLine)
    ensures
      var cells := LineCells(l);
      && Under(cells, "ts", Decimal(l.row.ts)) && Under(cells, "table", l.row.table)
      && Under(cells, "id", Decimal(l.row.id)) && Under(cells, "subject", l.row.subject)
      && Under(cells, "action", l.row.action) && Under(cells, "detail", CanonicalJson(l.row.detail))
      && Under(cells, "prev", l.prev) && Under(cells, "hash", l.hash)
      && Under(cells, "root_hash", "") && Under(cells, "signature", "") && Under(cells, "kid", "")
  {
    var cells := LineCells(l);
    assert forall i | 0 <= i < 11 :: Under(cells, COLUMNS[i], cells[i]);
    assert COLUMNS[0] == "ts" && COLUMNS[1] == "table" && COLUMNS[2] == "id" && COLUMNS[3] == "subject";
    assert COLUMNS[4] == "action" && COLUMNS[5] == "detail" && COLUMNS[6] == "prev" && COLUMNS[7] == "hash";
    assert COLUMNS[8] == "root_hash" && COLUMNS[9] == "signature" && COLUMNS[10] == "kid";
  }

  /** The trailer names itself under the table, the number of rows under the id, and the root,
      the signature and the key under their own names. */
  lemma TrailerUnderNames(root: string, rows: nat, signature: string, kid: string)
    ensures
      var cells := TrailerCells(root, rows, signature, kid);
      && Under(cells, "table", "trailer") && Under(cells, "id", Decimal(rows)) && Under(cells, "root_hash", root)
      && Under(cells, "signature", signature) && Under(cells, "kid", kid)
      && Under(cells, "ts", "") && Under(cells, "subject", "") && Under(cells, "action", "")
      && Under(cells, "detail", "") && Under(cells, "prev", "") && Under(cells, "hash", "")
  {
    var cells := TrailerCells(root, rows, signature, kid);
    assert forall i | 0 <= i < 11 :: Under(cells, COLUMNS[i], cells[i]);
    assert COLUMNS[0] == "ts" && COLUMNS[1] == "table" && COLUMNS[2] == "id" && COLUMNS[3] == "subject";
    assert COLUMNS[4] == "action" && COLUMNS[5] == "detail" && COLUMNS[6] == "prev" && COLUMNS[7] == "hash";
    assert COLUMNS[8] == "root_hash" && COLUMNS[9] == "signature" && COLUMNS[10] == "kid";
  }

  function LineRows(lines: seq<AuditLine>): (rows: seq<seq<string>>)
    ensures NoEmptyRecord(rows) && |rows| == |lines|
  {
    seq(|lines|, i requires 0 <= i < |lines| => LineCells(lines[i]))
  }

  function AuditRows(lines: seq<AuditLine>, root: string, rows: nat, signature: string,
                     kid: string): (r: seq<seq<string>>)
    ensures NoEmptyRecord(r)
  {
    LineRows(lines) + [TrailerCells(root, rows, signature, kid)]
  }

  function Join(names: seq<string>): string
    requires names != []
  {
    if |names| == 1 then names[0] else names[0] + "," + Join(names[1..])
  }

  predicate Plain(names: seq<string>) {
    forall i | 0 <= i < |names| :: !NeedsQuotes(names[i])
  }

  /** Plain names joined by commas are a record. */
  lemma {:induction false} JoinIsRecord(names: seq<string>)
    requires names != [] && Plain(names)
    ensures Join(names) + "\n" == Record(names)
  {
    if |names| > 1 {
      JoinIsRecord(names[1..]);
      assert Join(names) + "\n" == names[0] + "," + (Join(names[1..]) + "\n");
    }
  }

  predicate Lettered(name: string) {
    forall i | 0 <= i < |name| :: 'a' <= name[i] <= 'z' || name[i] == '_'
  }

  lemma ColumnsPlain()
    ensures Plain(COLUMNS)
  {
    assert Lettered("ts") && Lettered("table") && Lettered("id") && Lettered("subject");
    assert Lettered("action") && Lettered("detail") && Lettered("prev") && Lettered("hash");
    assert Lettered("root_hash") && Lettered("signature") && Lettered("kid");
    forall i | 0 <= i < |COLUMNS| ensures !NeedsQuotes(COLUMNS[i]) {
      assert Lettered(COLUMNS[i]);
    }
  }

  lemma {:induction false} RecordsAppend(rows: seq<seq<string>>, last: seq<string>)
    requires NoEmptyRecord(rows) && last != []
    ensures Records(rows + [last]) == Records(rows) + Record(last)
  {
    if rows == [] {
      assert rows + [last] == [last];
      assert Records([last]) == Record(last) + Records([]);
    } else {
      assert (rows + [last])[1..] == rows[1..] + [last];
      RecordsAppend(rows[1..], last);
    }
  }

  method RenderRows(header: string, rows: seq<seq<string>>) returns (out: string)
    requires NoEmptyRecord(rows)
    ensures out == header + Records(rows)
  {
    out := header;
    for i := 0 to |rows|
      invariant out == header + Records(rows[..i])
    {
      assert rows[..i + 1] == rows[..i] + [rows[i]];
      RecordsAppend(rows[..i], rows[i]);
      out := PushRecord(out, rows[i]);
    }
    assert rows[..|rows|] == rows;
  }

  lemma HeaderJoined(names: seq<string>, rows: seq<seq<string>>)
    requires names != [] && Plain(names) && NoEmptyRecord(rows)
    ensures Join(names) + "\n" + Records(rows) == Records([names] + rows)
  {
    JoinIsRecord(names);
    HeaderFirst(names, rows);
  }

  /** The header names the columns, joined; the lines follow, and last the trailer. */
  method RenderAuditCsv(lines: seq<AuditLine>, root: string, rows: nat, signature: string, kid: string)
    returns (out: string)
    ensures out == Records([COLUMNS] + AuditRows(lines, root, rows, signature, kid))
  {
    out := RenderRows(Join(COLUMNS) + "\n", AuditRows(lines, root, rows, signature, kid));
    ColumnsPlain();
    HeaderJoined(COLUMNS, AuditRows(lines, root, rows, signature, kid));
  }

  lemma HeaderFirst(names: seq<string>, rows: seq<seq<string>>)
    requires names != [] && NoEmptyRecord(rows)
    ensures Records([names] + rows) == Record(names) + Records(rows)
  {
    assert ([names] + rows)[1..] == rows;
  }

  lemma DecimalInjective(m: int, n: int)
    requires Decimal(m) == Decimal(n)
    ensures m == n
  {
    ReadNumberBack(m, "");
    ReadNumberBack(n, "");
  }

  predicate SameLine(a: AuditLine, b: AuditLine) {
    SameRow(a.row, b.row) && a.prev == b.prev && a.hash == b.hash
  }

  lemma SameCellsSameLine(a: AuditLine, b: AuditLine)
    requires WellFormed(a.row.detail) && WellFormed(b.row.detail)
    ensures LineCells(a) == LineCells(b) <==> SameLine(a, b)
  {
    CanonicalSameIff(a.row.detail, b.row.detail);
    if LineCells(a) == LineCells(b) {
      var x, y := LineCells(a), LineCells(b);
      assert x[0] == y[0] && x[1] == y[1] && x[2] == y[2] && x[3] == y[3];
      assert x[4] == y[4] && x[5] == y[5] && x[6] == y[6] && x[7] == y[7];
      DecimalInjective(a.row.ts, b.row.ts);
      DecimalInjective(a.row.id, b.row.id);
    }
  }

  predicate LinesWellFormed(lines: seq<AuditLine>) {
    forall i | 0 <= i < |lines| :: WellFormed(lines[i].row.detail)
  }

  lemma SameLinesSameRows(a: seq<AuditLine>, b: seq<AuditLine>)
    requires LinesWellFormed(a) && LinesWellFormed(b)
    ensures LineRows(a) == LineRows(b) <==> |a| == |b| && forall i | 0 <= i < |a| :: SameLine(a[i], b[i])
  {
    forall i | 0 <= i < |a| && i < |b| ensures LineRows(a)[i] == LineRows(b)[i] <==> SameLine(a[i], b[i]) {
      SameCellsSameLine(a[i], b[i]);
    }
  }

  lemma SameTrailer(root: string, n: nat, signature: string, kid: string,
                    root': string, n': nat, signature': string, kid': string)
    ensures TrailerCells(root, n, signature, kid) == TrailerCells(root', n', signature', kid')
      <==> root == root' && n == n' && signature == signature' && kid == kid'
  {
    var u, v := TrailerCells(root, n, signature, kid), TrailerCells(root', n', signature', kid');
    if u == v {
      assert u[2] == v[2] && u[8] == v[8] && u[9] == v[9] && u[10] == v[10];
      DecimalInjective(n, n');
    }
  }

  lemma SameParts(x: seq<seq<string>>, u: seq<string>, y: seq<seq<string>>, v: seq<string>)
    ensures x + [u] == y + [v] <==> x == y && u == v
  {
    if x + [u] == y + [v] {
      assert x == (x + [u])[..|x|] && y == (y + [v])[..|y|];
      assert u == (x + [u])[|x|] && v == (y + [v])[|y|];
    }
  }

  /** The CSV form loses nothing: two exports print the same text exactly when they hold
      the same lines and the same trailer. */
  lemma SameCsvIff(a: seq<AuditLine>, root: string, n: nat, signature: string, kid: string,
                                      b: seq<AuditLine>, root': string, n': nat, signature': string, kid': string)
    requires LinesWellFormed(a) && LinesWellFormed(b)
    ensures Records([COLUMNS] + AuditRows(a, root, n, signature, kid))
      == Records([COLUMNS] + AuditRows(b, root', n', signature', kid'))
      <==> (|a| == |b| && (forall i | 0 <= i < |a| :: SameLine(a[i], b[i]))
            && root == root' && n == n' && signature == signature' && kid == kid')
  {
    SameTextSameRows(COLUMNS, AuditRows(a, root, n, signature, kid), AuditRows(b, root', n', signature', kid'));
    SameParts(LineRows(a), TrailerCells(root, n, signature, kid), LineRows(b),
              TrailerCells(root', n', signature', kid'));
    SameLinesSameRows(a, b);
    SameTrailer(root, n, signature, kid, root', n', signature', kid');
  }

  lemma SameTextSameRows(names: seq<string>, x: seq<seq<string>>, y: seq<seq<string>>)
    requires names != [] && NoEmptyRecord(x) && NoEmptyRecord(y)
    ensures Records([names] + x) == Records([names] + y) <==> x == y
  {
    ReadCsvBack([names] + x);
    ReadCsvBack([names] + y);
    assert ([names] + x)[1..] == x && ([names] + y)[1..] == y;
  }
}
