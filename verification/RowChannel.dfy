/** internal/storage/mysql/store.go: rows as the mysql client prints them, one line a row, base64
    columns separated by tabs, and how they are taken apart again. */
module RowChannel {
  import opened Wrappers
  import opened Text
  import opened Octets
  import opened Base64
  import opened Utf8

  // ---------- Printing ----------

  // base64ColumnExpr: TO_BASE64 with line feeds and carriage returns replaced by nothing.
  function Column(field: Bytes): string {
    DropBreaks(ToBase64(field))
  }

  function Columns(row: seq<Bytes>): seq<string> {
    if row == [] then [] else [Column(row[0])] + Columns(row[1..])
  }

  function Line(row: seq<Bytes>): string {
    Join(Columns(row), '\t')
  }

  function Print(rows: seq<seq<Bytes>>): string {
    if rows == [] then "" else Line(rows[0]) + "\n" + Print(rows[1..])
  }

  // ---------- Taking apart ----------

  function UnixLineEnds(s: string): string {
    if s == "" then ""
    else if |s| >= 2 && s[0] == '\r' && s[1] == '\n' then "\n" + UnixLineEnds(s[2..])
    else [s[0]] + UnixLineEnds(s[1..])
  }

  function TrimReturns(s: string): string {
    if s != "" && s[|s| - 1] == '\r' then TrimReturns(s[..|s| - 1]) else s
  }

  function KeepLines(raw: seq<string>): seq<string> {
    if raw == [] then []
    else (if Blank(raw[0]) then [] else [TrimReturns(raw[0])]) + KeepLines(raw[1..])
  }

  function OutputLines(out: string): seq<string> {
    KeepLines(Split(UnixLineEnds(out), '\n'))
  }

  // outputLines
  method CollectOutputLines(out: string) returns (lines: seq<string>)
    ensures lines == OutputLines(out)
  {
    var raw := Split(UnixLineEnds(out), '\n');
    hide Split, UnixLineEnds, Blank, TrimReturns;
    lines := [];
    for i := 0 to |raw|
      invariant lines + KeepLines(raw[i..]) == KeepLines(raw)
    {
      assert raw[i..][1..] == raw[i + 1..];
      if Blank(raw[i]) { continue; }
      lines := lines + [TrimReturns(raw[i])];
    }
    assert raw[|raw|..] == [];
  }

  function DecodeField(s: string): Option<Bytes> {
    if s == "" || s == "NULL" then Some([]) else Decode(s)
  }

  function DecodeFields(fields: seq<string>): Option<seq<Bytes>> {
    if fields == [] then Some([])
    else match (DecodeField(fields[0]), DecodeFields(fields[1..]))
      case (Some(field), Some(later)) => Some([field] + later)
      case _ => None
  }

  function ParseLine(line: string): Option<seq<Bytes>> {
    DecodeFields(Split(line, '\t'))
  }

  function ParseLines(lines: seq<string>): Option<seq<seq<Bytes>>> {
    if lines == [] then Some([])
    else match (ParseLine(lines[0]), ParseLines(lines[1..]))
      case (Some(row), Some(later)) => Some([row] + later)
      case _ => None
  }

  // ---------- The two things the channel cannot carry ----------

  // The byte string whose base64 is the word the client prints for a null column.
  const NULL_BYTES: Bytes := [0x35, 0x42, 0xCB]

  predicate AllEmpty(row: seq<Bytes>) {
    row == [] || (row[0] == [] && AllEmpty(row[1..]))
  }

  // What arrives for a field, for a row, for a list of rows.
  function SeenField(field: Bytes): Bytes {
    if field == NULL_BYTES then [] else field
  }

  function SeenRow(row: seq<Bytes>): seq<Bytes> {
    if row == [] then [] else [SeenField(row[0])] + SeenRow(row[1..])
  }

  function Seen(rows: seq<seq<Bytes>>): seq<seq<Bytes>> {
    if rows == [] then []
    else (if AllEmpty(rows[0]) then [] else [SeenRow(rows[0])]) + Seen(rows[1..])
  }

  // ---------- One field ----------

  lemma ColumnIsPlain(field: Bytes)
    ensures Column(field) == Encode(field)
    ensures AllPlain(Column(field))
    ensures Column(field) == "" <==> field == []
  {
    EncodedIsPlain(field);
    DropUnwraps(Encode(field));
  }

  lemma NullBytes(field: Bytes)
    ensures Column(field) == "NULL" <==> field == NULL_BYTES
  {
    ColumnIsPlain(field);
    QuadsRoundTrip(field);
    NullDecodes();
    NullEncodes();
  }

  lemma NullSextets()
    ensures SextetOf('N') == Some(13) && SextetOf('U') == Some(20) && SextetOf('L') == Some(11)
  {
  }

  lemma NullSymbols()
    ensures Symbol(13) == 'N' && Symbol(20) == 'U' && Symbol(11) == 'L'
  {
  }

  lemma NullOctets()
    ensures First8(13, 20) == 0x35 && Second8(20, 11) == 0x42 && Third8(11, 11) == 0xCB
  {
  }

  lemma NullGroups()
    ensures First6(0x35) == 13 && Second6(0x35, 0x42) == 20 && Third6(0x42, 0xCB) == 11 && Fourth6(0xCB) == 11
  {
  }

  lemma NullDecodes()
    ensures DecodeQuads("NULL") == Some(NULL_BYTES)
  {
    hide SextetOf, First8, Second8, Third8;
    NullSextets();
    NullOctets();
    var s := "NULL";
    assert s[0] == 'N' && s[1] == 'U' && s[2] == 'L' && s[3] == 'L' && s[4..] == "";
    assert DecodeQuads(s[4..]) == Some([]);
    assert [0x35, 0x42, 0xCB] + [] == NULL_BYTES;
  }

  lemma NullEncodes()
    ensures Encode(NULL_BYTES) == "NULL"
  {
    hide Symbol, First6, Second6, Third6, Fourth6;
    NullSymbols();
    NullGroups();
    assert NULL_BYTES[3..] == [] && Encode([]) == "";
  }

  /** A field arrives unchanged exactly when it is not the byte string whose base64 reads NULL. */
  lemma FieldArrives(field: Bytes)
    ensures DecodeField(Column(field)) == Some(SeenField(field))
    ensures DecodeField(Column(field)) == Some(field) <==> field != NULL_BYTES
  {
    ColumnIsPlain(field);
    NullBytes(field);
    DecodesToBase64(field);
  }

  // ---------- One line ----------

  lemma {:induction false} ColumnsArePlain(row: seq<Bytes>)
    ensures |Columns(row)| == |row|
    ensures forall k :: 0 <= k < |row| ==> AllPlain(Columns(row)[k])
  {
    hide Column, AllPlain;
    if row != [] {
      ColumnIsPlain(row[0]);
      ColumnsArePlain(row[1..]);
    }
  }

  lemma {:induction false} FieldsArrive(row: seq<Bytes>)
    ensures DecodeFields(Columns(row)) == Some(SeenRow(row))
  {
    if row != [] {
      hide DecodeField, Column, SeenField;
      FieldArrives(row[0]);
      FieldsArrive(row[1..]);
      assert Columns(row)[1..] == Columns(row[1..]);
    }
  }

  // A line holds base64 symbols and tabs only.
  predicate PlainOrTabs(s: string) {
    forall i :: 0 <= i < |s| ==> IsPlain(s[i]) || s[i] == '\t'
  }

  lemma {:induction false} JoinedIsPlain(columns: seq<string>)
    requires forall k :: 0 <= k < |columns| ==> AllPlain(columns[k])
    ensures PlainOrTabs(Join(columns, '\t'))
  {
    hide IsPlain;
    if |columns| == 1 {
      assert AllPlain(columns[0]);
    } else if |columns| > 1 {
      JoinedIsPlain(columns[1..]);
      assert AllPlain(columns[0]);
    }
  }

  lemma LineIsPlain(row: seq<Bytes>)
    ensures PlainOrTabs(Line(row))
    ensures '\r' !in Line(row) && '\n' !in Line(row)
  {
    ColumnsArePlain(row);
    JoinedIsPlain(Columns(row));
    hide Line;
    assert !IsPlain('\r') && !IsPlain('\n');
  }

  lemma LineArrives(row: seq<Bytes>)
    requires row != []
    ensures ParseLine(Line(row)) == Some(SeenRow(row))
  {
    ColumnsArePlain(row);
    forall c | c in Columns(row) ensures '\t' !in c {
      assert AllPlain(c) && !IsPlain('\t');
    }
    SplitJoin(Columns(row), '\t');
    FieldsArrive(row);
  }

  lemma {:induction false} BlankAppend(s: string, t: string)
    ensures Blank(s + t) <==> Blank(s) && Blank(t)
  {
    if s == "" {
      assert s + t == t;
    } else {
      assert (s + t)[1..] == s[1..] + t;
      BlankAppend(s[1..], t);
    }
  }

  lemma PlainIsNotBlank(s: string)
    requires s != "" && IsPlain(s[0])
    ensures !Blank(s)
  {
  }

  /** A line is blank exactly when every field of the row is empty. */
  lemma {:induction false} BlankLine(row: seq<Bytes>)
    ensures Blank(Line(row)) <==> AllEmpty(row)
  {
    if row != [] {
      ColumnIsPlain(row[0]);
      if row[0] != [] {
        PlainIsNotBlank(Column(row[0]));
      }
      BlankLine(row[1..]);
      if |row| > 1 {
        assert Columns(row)[1..] == Columns(row[1..]);
        BlankAppend(Column(row[0]) + ['\t'], Line(row[1..]));
        BlankAppend(Column(row[0]), ['\t']);
      }
    }
  }

  // ---------- The whole output ----------

  predicate NoReturns(s: string) {
    '\r' !in s
  }

  lemma {:induction false} UnixAlready(s: string)
    requires NoReturns(s)
    ensures UnixLineEnds(s) == s
  {
    if s != "" {
      UnixAlready(s[1..]);
      assert s == [s[0]] + s[1..];
    }
  }

  lemma NothingToTrim(s: string)
    requires NoReturns(s)
    ensures TrimReturns(s) == s
  {
    if s != "" {
      assert s[|s| - 1] in s;
    }
  }

  lemma {:induction false} PrintedIsPlain(rows: seq<seq<Bytes>>)
    ensures NoReturns(Print(rows))
  {
    if rows != [] {
      LineIsPlain(rows[0]);
      PrintedIsPlain(rows[1..]);
    }
  }

  lemma {:induction false} LinesSplit(rows: seq<seq<Bytes>>)
    ensures KeepLines(Split(Print(rows), '\n')) == KeepPrinted(rows)
  {
    if rows == [] {
      var empty: seq<string> := [""];
      assert Split("", '\n') == empty && empty[1..] == [];
    } else {
      LineIsPlain(rows[0]);
      SplitAtFirst(Line(rows[0]), '\n', Print(rows[1..]));
      LinesSplit(rows[1..]);
      NothingToTrim(Line(rows[0]));
      BlankLine(rows[0]);
      var parts := Split(Print(rows[1..]), '\n');
      assert ([Line(rows[0])] + parts)[1..] == parts;
    }
  }

  // The lines of the rows that do not print as blank lines.
  function KeepPrinted(rows: seq<seq<Bytes>>): seq<string> {
    if rows == [] then []
    else (if AllEmpty(rows[0]) then [] else [Line(rows[0])]) + KeepPrinted(rows[1..])
  }

  lemma {:induction false} KeptArrive(rows: seq<seq<Bytes>>)
    ensures ParseLines(KeepPrinted(rows)) == Some(Seen(rows))
  {
    if rows != [] {
      KeptArrive(rows[1..]);
      if AllEmpty(rows[0]) {
        assert [] + KeepPrinted(rows[1..]) == KeepPrinted(rows[1..]);
        assert [] + Seen(rows[1..]) == Seen(rows[1..]);
      } else {
        hide ParseLine, Line, AllEmpty;
        LineArrives(rows[0]);
        assert KeepPrinted(rows)[1..] == KeepPrinted(rows[1..]);
      }
    }
  }

  /** Whatever rows are printed, what arrives is those rows without the ones whose fields are all
      empty, and with the null-reading byte string emptied. Trailing empty fields arrive. */
  lemma RowsArrive(rows: seq<seq<Bytes>>)
    ensures ParseLines(OutputLines(Print(rows))) == Some(Seen(rows))
  {
    PrintedIsPlain(rows);
    UnixAlready(Print(rows));
    LinesSplit(rows);
    KeptArrive(rows);
  }

  // ---------- When rows arrive unchanged ----------

  predicate Carried(rows: seq<seq<Bytes>>) {
    forall i :: 0 <= i < |rows| ==> !AllEmpty(rows[i]) && NULL_BYTES !in rows[i]
  }

  lemma {:induction false} SeenRowSame(row: seq<Bytes>)
    ensures |SeenRow(row)| == |row|
    ensures SeenRow(row) == row <==> NULL_BYTES !in row
  {
    if row != [] {
      SeenRowSame(row[1..]);
      assert row == [row[0]] + row[1..];
      assert SeenRow(row)[1..] == SeenRow(row[1..]);
    }
  }

  lemma {:induction false} SeenShrinks(rows: seq<seq<Bytes>>)
    ensures |Seen(rows)| <= |rows|
  {
    if rows != [] {
      SeenShrinks(rows[1..]);
    }
  }

  lemma {:induction false} SeenSame(rows: seq<seq<Bytes>>)
    ensures Seen(rows) == rows <==> Carried(rows)
  {
    if rows != [] {
      SeenSame(rows[1..]);
      SeenRowSame(rows[0]);
      SeenShrinks(rows[1..]);
      CarriedTail(rows);
      if AllEmpty(rows[0]) {
        assert |Seen(rows)| < |rows|;
      } else {
        assert Seen(rows)[0] == SeenRow(rows[0]) && Seen(rows)[1..] == Seen(rows[1..]);
        assert rows == [rows[0]] + rows[1..];
      }
    }
  }

  lemma CarriedTail(rows: seq<seq<Bytes>>)
    requires rows != []
    ensures Carried(rows) <==> !AllEmpty(rows[0]) && NULL_BYTES !in rows[0] && Carried(rows[1..])
  {
    if Carried(rows[1..]) {
      forall i | 1 <= i < |rows| ensures !AllEmpty(rows[i]) && NULL_BYTES !in rows[i] {
        assert rows[i] == rows[1..][i - 1];
      }
    }
  }

  /** The row channel gives back exactly what was printed if and only if every row has a non-empty
      field and no field is the byte string that reads NULL. */
  lemma RowRoundTrip(rows: seq<seq<Bytes>>)
    ensures ParseLines(OutputLines(Print(rows))) == Some(rows) <==> Carried(rows)
  {
    RowsArrive(rows);
    SeenSame(rows);
  }

  // ---------- Text fields ----------

  /** Rows of text, each with a non-empty first field such as its key, always arrive. */
  lemma TextRowsRoundTrip(rows: seq<seq<Bytes>>)
    requires forall i :: 0 <= i < |rows| ==> |rows[i]| > 0 && rows[i][0] != []
    requires forall i, j :: 0 <= i < |rows| && 0 <= j < |rows[i]| ==> ValidUtf8(rows[i][j])
    ensures ParseLines(OutputLines(Print(rows))) == Some(rows)
  {
    assert !ValidUtf8(NULL_BYTES) by {
      assert NULL_BYTES[1..] == [0x42, 0xCB] && [0x42, 0xCB][1..] == [0xCB];
      assert CharLength(NULL_BYTES) == CharLength([0x42, 0xCB]) == 1 && CharLength([0xCB]) == 0;
    }
    RowRoundTrip(rows);
  }

  // ---------- A row of two tables ----------

  // The fields of a line from the k-th on, joined again and handed to another parser.
  function Rejoined(line: string, k: nat): string
    requires k < |Split(line, '\t')|
  {
    Join(Split(line, '\t')[k..], '\t')
  }

  /** A joined session and user line is split, its user part joined again and split again: the user
      parser finds exactly the fields that followed the session's, empty ones included. */
  lemma RejoinedFields(line: string, k: nat)
    requires k < |Split(line, '\t')|
    ensures Split(Rejoined(line, k), '\t') == Split(line, '\t')[k..]
    ensures ParseLine(Rejoined(line, k)) == DecodeFields(Split(line, '\t')[k..])
  {
    JoinSplit(line, '\t');
    var fields := Split(line, '\t')[k..];
    assert forall p :: p in fields ==> p in Split(line, '\t');
    SplitJoin(fields, '\t');
  }

  // ---------- Whatever the client prints ----------

  /** A line is taken apart exactly when every field decodes, and then into those fields in order. */
  lemma {:induction false} FieldsInOrder(fields: seq<string>)
    ensures DecodeFields(fields).Some? <==> forall k :: 0 <= k < |fields| ==> DecodeField(fields[k]).Some?
    ensures DecodeFields(fields).Some? ==>
              && |DecodeFields(fields).value| == |fields|
              && forall k :: 0 <= k < |fields| ==> DecodeField(fields[k]) == Some(DecodeFields(fields).value[k])
  {
    if fields != [] {
      hide DecodeField;
      FieldsInOrder(fields[1..]);
      forall k | 1 <= k < |fields| ensures fields[k] == fields[1..][k - 1] {
      }
    }
  }

  function Returns(k: nat): string {
    if k == 0 then "" else "\r" + Returns(k - 1)
  }

  // A line of output as outputLines should see it: no line feed in it, no carriage return at its end.
  predicate IsLine(s: string) {
    '\n' !in s && (s != "" ==> s[|s| - 1] != '\r')
  }

  // Lines, each ended by some carriage returns and a line feed.
  function Terminated(lines: seq<string>, ends: seq<nat>): string
    requires |lines| == |ends|
  {
    if lines == [] then "" else lines[0] + (Returns(ends[0]) + ("\n" + Terminated(lines[1..], ends[1..])))
  }

  function NonBlank(lines: seq<string>): seq<string> {
    if lines == [] then [] else (if Blank(lines[0]) then [] else [lines[0]]) + NonBlank(lines[1..])
  }

  lemma UnixHead(c: char, rest: string)
    requires c == '\r' ==> rest == "" || rest[0] != '\n'
    ensures UnixLineEnds([c] + rest) == [c] + UnixLineEnds(rest)
  {
    assert ([c] + rest)[1..] == rest;
  }

  lemma UnixPair(rest: string)
    ensures UnixLineEnds("\r" + ("\n" + rest)) == "\n" + UnixLineEnds(rest)
  {
    assert ("\r" + ("\n" + rest))[2..] == rest;
  }

  lemma {:induction false} UnixReturns(k: nat, rest: string)
    ensures UnixLineEnds(Returns(k) + ("\n" + rest)) == Returns(if k == 0 then 0 else k - 1) + ("\n" + UnixLineEnds(rest))
  {
    hide UnixLineEnds;
    if k == 0 {
      UnixHead('\n', rest);
      assert Returns(0) + ("\n" + rest) == ['\n'] + rest;
    } else if k == 1 {
      UnixPair(rest);
      assert Returns(1) == "\r";
    } else {
      UnixReturns(k - 1, rest);
      var tail := Returns(k - 1) + ("\n" + rest);
      assert tail[0] == '\r';
      UnixHead('\r', tail);
      assert Returns(k) + ("\n" + rest) == ['\r'] + tail;
    }
  }

  lemma {:induction false} UnixLine(line: string, tail: string)
    requires IsLine(line)
    ensures UnixLineEnds(line + tail) == line + UnixLineEnds(tail)
  {
    hide UnixLineEnds;
    if line == "" {
      assert line + tail == tail;
    } else {
      var rest := line[1..];
      UnixLine(rest, tail);
      assert rest != "" ==> (rest + tail)[0] == rest[0] && rest[|rest| - 1] == line[|line| - 1];
      UnixHead(line[0], rest + tail);
      assert line + tail == [line[0]] + (rest + tail);
      assert line + UnixLineEnds(tail) == [line[0]] + (rest + UnixLineEnds(tail));
    }
  }

  lemma {:induction false} ReturnsAreBlank(k: nat)
    ensures Blank(Returns(k)) && '\n' !in Returns(k)
  {
    if k > 0 {
      ReturnsAreBlank(k - 1);
    }
  }

  lemma {:induction false} ReturnsAreTrimmed(line: string, k: nat)
    requires IsLine(line)
    ensures TrimReturns(line + Returns(k)) == line
  {
    if k == 0 {
      assert line + Returns(0) == line;
    } else {
      ReturnsAreTrimmed(line, k - 1);
      ReturnsEnd(k);
      var s := line + Returns(k);
      assert s[..|s| - 1] == line + Returns(k - 1);
    }
  }

  lemma {:induction false} ReturnsEnd(k: nat)
    requires k > 0
    ensures Returns(k) == Returns(k - 1) + "\r"
  {
    if k > 1 {
      ReturnsEnd(k - 1);
    }
  }

  /** However its lines are ended, by line feeds or with carriage returns before them, output gives back
      its lines that are not blank, untouched and in order. */
  lemma {:induction false} LineEndsDoNotMatter(lines: seq<string>, ends: seq<nat>)
    requires |lines| == |ends| && forall i :: 0 <= i < |lines| ==> IsLine(lines[i])
    ensures OutputLines(Terminated(lines, ends)) == NonBlank(lines)
  {
    hide UnixLineEnds, KeepLines, Split, Blank, TrimReturns, Returns, IsLine;
    if lines == [] {
      NoOutput();
    } else {
      LineEndsDoNotMatter(lines[1..], ends[1..]);
      FirstTerminated(lines[0], ends[0], Terminated(lines[1..], ends[1..]));
    }
  }

  lemma NoOutput()
    ensures OutputLines("") == []
  {
    var empty: seq<string> := [""];
    assert Split("", '\n') == empty && empty[1..] == [];
  }

  lemma FirstTerminated(line: string, n: nat, tail: string)
    requires IsLine(line)
    ensures OutputLines(line + (Returns(n) + ("\n" + tail))) == (if Blank(line) then [] else [line]) + OutputLines(tail)
  {
    hide UnixLineEnds, KeepLines, Split, Blank, TrimReturns, Returns, IsLine;
    var k := if n == 0 then 0 else n - 1;
    var first, rest := line + Returns(k), UnixLineEnds(tail);
    UnixLine(line, Returns(n) + ("\n" + tail));
    UnixReturns(n, tail);
    assert line + (Returns(k) + ("\n" + rest)) == first + ['\n'] + rest;
    ReturnsAreBlank(k);
    NoFeed(line, Returns(k));
    FirstLine(first, rest);
    BlankAppend(line, Returns(k));
    ReturnsAreTrimmed(line, k);
  }

  lemma NoFeed(line: string, more: string)
    requires IsLine(line) && '\n' !in more
    ensures '\n' !in line + more
  {
  }

  lemma FirstLine(line: string, rest: string)
    requires '\n' !in line
    ensures KeepLines(Split(line + ['\n'] + rest, '\n')) ==
            (if Blank(line) then [] else [TrimReturns(line)]) + KeepLines(Split(rest, '\n'))
  {
    hide Split, Blank, TrimReturns;
    SplitAtFirst(line, '\n', rest);
    assert ([line] + Split(rest, '\n'))[1..] == Split(rest, '\n');
  }
}
