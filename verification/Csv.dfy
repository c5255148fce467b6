/**
 The CSV pair of the migration scripts: the exporter's printer and the importers' parser,
 with the round trip between them. Strings are sequences of Unicode scalar values.
 */
module Csv {
  import opened Sums
  import opened Ledger

  const QUOTE := '\"'
  const COMMA := ','
  const LF := '\n'
  const CR := '\r'

  // ----- printing -----

  predicate NeedsQuotes(v: string) { QUOTE in v || COMMA in v || LF in v || CR in v }

  /** Every quote twice. */
  function Doubled(v: string): string {
    if |v| == 0 then []
    else if v[0] == QUOTE then [QUOTE, QUOTE] + Doubled(v[1..])
    else [v[0]] + Doubled(v[1..])
  }

  function Quoted(v: string): string { [QUOTE] + Doubled(v) + [QUOTE] }

  /** `esc`, on a value that is not null. */
  function Esc(v: string): string { if NeedsQuotes(v) then Quoted(v) else v }

  function Join(parts: seq<string>, separator: char): string {
    if |parts| == 0 then []
    else if |parts| == 1 then parts[0]
    else parts[0] + [separator] + Join(parts[1..], separator)
  }

  function EscAll(values: seq<string>): (r: seq<string>)
    ensures |r| == |values| && forall i :: 0 <= i < |r| ==> r[i] == Esc(values[i])
  {
    seq(|values|, i requires 0 <= i < |values| => Esc(values[i]))
  }

  type Record = map<string, Option<string>>

  /** A missing or null field prints as nothing. */
  function FieldText(r: Record, h: string): string { if h in r && r[h].Some? then r[h].value else "" }

  function Fields(headers: seq<string>, r: Record): (s: seq<string>)
    ensures |s| == |headers| && forall i :: 0 <= i < |s| ==> s[i] == FieldText(r, headers[i])
  {
    seq(|headers|, i requires 0 <= i < |headers| => FieldText(r, headers[i]))
  }

  function RowLine(headers: seq<string>, r: Record): string { Join(EscAll(Fields(headers, r)), COMMA) }

  function RowLines(headers: seq<string>, rows: seq<Record>): seq<string> {
    seq(|rows|, i requires 0 <= i < |rows| => RowLine(headers, rows[i]))
  }

  /** `toCsv`; the headers are the keys of the first row, in their order, and are not escaped. */
  function ToCsv(headers: seq<string>, rows: seq<Record>): string {
    if |rows| == 0 then [] else Join([Join(headers, COMMA)] + RowLines(headers, rows), LF) + [LF]
  }

  // ----- splitting a line -----

  /** What the splitter makes of the rest of a line, given the open cell and the quote state. */
  function Scan(s: string, cur: string, inside: bool): seq<string>
    decreases |s|
  {
    if |s| == 0 then [cur]
    else if inside then
      if s[0] == QUOTE && |s| > 1 && s[1] == QUOTE then Scan(s[2..], cur + [QUOTE], true)
      else if s[0] == QUOTE then Scan(s[1..], cur, false)
      else Scan(s[1..], cur + [s[0]], true)
    else if s[0] == COMMA then [cur] + Scan(s[1..], [], false)
    else if s[0] == QUOTE then Scan(s[1..], cur, true)
    else Scan(s[1..], cur + [s[0]], false)
  }

  function Split(line: string): seq<string> { Scan(line, [], false) }

  method SplitCsvLine(line: string) returns (out: seq<string>)
    ensures out == Split(line)
  {
    out := [];
    var cur: string, inside, i := [], false, 0;
    while i < |line|
      invariant 0 <= i <= |line|
      invariant Split(line) == out + Scan(line[i..], cur, inside)
    {
      var ch, rest := line[i], line[i..];
      assert rest[0] == ch && rest[1..] == line[i + 1..];
      if inside {
        if ch == QUOTE && i + 1 < |line| && line[i + 1] == QUOTE {
          assert rest[1] == QUOTE && rest[2..] == line[i + 2..];
          cur := cur + [QUOTE];
          i := i + 1;
        } else if ch == QUOTE {
          inside := false;
        } else {
          cur := cur + [ch];
        }
      } else {
        if ch == COMMA {
          out := out + [cur];
          cur := [];
        } else if ch == QUOTE {
          inside := true;
        } else {
          cur := cur + [ch];
        }
      }
      i := i + 1;
    }
    out := out + [cur];
  }

  // ----- the line round trip -----

  lemma {:induction false} ScanPlain(v: string, rest: string, cur: string)
    requires COMMA !in v && QUOTE !in v
    ensures Scan(v + rest, cur, false) == Scan(rest, cur + v, false)
  {
    if |v| == 0 {
      assert v + rest == rest && cur + v == cur;
    } else {
      assert (v + rest)[1..] == v[1..] + rest && cur + [v[0]] + v[1..] == cur + v;
      ScanPlain(v[1..], rest, cur + [v[0]]);
    }
  }

  lemma {:induction false} ScanDoubled(v: string, rest: string, cur: string)
    requires |rest| > 0 ==> rest[0] != QUOTE
    ensures Scan(Doubled(v) + [QUOTE] + rest, cur, true) == Scan(rest, cur + v, false)
  {
    var s := Doubled(v) + [QUOTE] + rest;
    if |v| == 0 {
      assert s == [QUOTE] + rest && s[1..] == rest && cur + v == cur;
    } else {
      var tail := Doubled(v[1..]) + [QUOTE] + rest;
      assert cur + [v[0]] + v[1..] == cur + v;
      ScanDoubled(v[1..], rest, cur + [v[0]]);
      if v[0] == QUOTE {
        assert s == [QUOTE, QUOTE] + tail && s[2..] == tail;
      } else {
        assert s == [v[0]] + tail && s[1..] == tail;
      }
    }
  }

  lemma ScanOpens(s: string, cur: string)
    requires |s| > 0 && s[0] == QUOTE
    ensures Scan(s, cur, false) == Scan(s[1..], cur, true)
  {
  }

  lemma ScanEsc(v: string, rest: string)
    requires |rest| > 0 ==> rest[0] == COMMA
    ensures Scan(Esc(v) + rest, [], false) == Scan(rest, v, false)
  {
    assert [] + v == v;
    if NeedsQuotes(v) {
      var s := Esc(v) + rest;
      assert s[1..] == Doubled(v) + [QUOTE] + rest;
      ScanOpens(s, []);
      hide Scan, Doubled, NeedsQuotes;
      ScanDoubled(v, rest, []);
    } else {
      hide Scan;
      ScanPlain(v, rest, []);
    }
  }

  /** Splitting a printed line gives back its cells, whatever characters they hold. */
  lemma {:induction false} LineRoundTrip(values: seq<string>)
    requires |values| > 0
    ensures Split(Join(EscAll(values), COMMA)) == values
  {
    var parts := EscAll(values);
    if |values| == 1 {
      ScanEsc(values[0], []);
      assert Join(parts, COMMA) == Esc(values[0]) + [];
      assert values == [values[0]];
    } else {
      var rest := [COMMA] + Join(parts[1..], COMMA);
      assert parts[1..] == EscAll(values[1..]);
      assert Join(parts, COMMA) == Esc(values[0]) + rest;
      ScanEsc(values[0], rest);
      assert rest[1..] == Join(parts[1..], COMMA);
      LineRoundTrip(values[1..]);
      assert values == [values[0]] + values[1..];
    }
  }

  // ----- parsing a file -----

  /** The white space and line terminators of ECMAScript. */
  predicate IsSpace(c: char) {
    || c == '\t' || c == LF || c == '\U{B}' || c == '\U{C}' || c == CR || c == ' ' || c == '\U{A0}' || c == '\U{1680}'
    || '\U{2000}' <= c <= '\U{200A}' || c == '\U{2028}' || c == '\U{2029}' || c == '\U{202F}' || c == '\U{205F}'
    || c == '\U{3000}' || c == '\U{FEFF}'
  }

  const BOM := '\U{FEFF}'

  function TrimStart(s: string): string { if |s| > 0 && IsSpace(s[0]) then TrimStart(s[1..]) else s }

  function TrimEnd(s: string): string { if |s| > 0 && IsSpace(s[|s| - 1]) then TrimEnd(s[..|s| - 1]) else s }

  function Trim(s: string): string { TrimEnd(TrimStart(s)) }

  /** Lower case of the ASCII characters. */
  function LowerChar(c: char): char { if 'A' <= c <= 'Z' then (c as int + 32) as char else c }

  predicate IsAscii(s: string) { forall i :: 0 <= i < |s| ==> s[i] < '\U{80}' }

  function Lower(s: string): (r: string)
    ensures |r| == |s|
  {
    seq(|s|, i requires 0 <= i < |s| => LowerChar(s[i]))
  }

  /** Each run of white space becomes one underscore. */
  function Underscored(s: string): string {
    if |s| == 0 then []
    else if IsSpace(s[0]) then (if |s| > 1 && IsSpace(s[1]) then Underscored(s[1..]) else ['_'] + Underscored(s[1..]))
    else [s[0]] + Underscored(s[1..])
  }

  function HeaderName(h: string): string { Underscored(Lower(Trim(h))) }

  function LastWithoutCr(s: string): string { if |s| > 0 && s[|s| - 1] == CR then s[..|s| - 1] else s }

  /** Splitting at every line feed, taking a carriage return just before it along. */
  function LinesFrom(s: string, cur: string): seq<string> {
    if |s| == 0 then [cur]
    else if s[0] == LF then [LastWithoutCr(cur)] + LinesFrom(s[1..], [])
    else LinesFrom(s[1..], cur + [s[0]])
  }

  predicate Blank(line: string) { Trim(line) == "" }

  function NonBlank(lines: seq<string>): seq<string> {
    if |lines| == 0 then []
    else (if Blank(lines[0]) then [] else [lines[0]]) + NonBlank(lines[1..])
  }

  function WithoutBom(text: string): string { if |text| > 0 && text[0] == BOM then text[1..] else text }

  datatype Table = Table(headers: seq<string>, rows: seq<Record>)

  function CellValue(cells: seq<string>, j: nat): Option<string> {
    var v := Trim(if j < |cells| then cells[j] else "");
    if v == "" then None else Some(v)
  }

  /** Later columns of the same name overwrite earlier ones. */
  function RecordOf(headers: seq<string>, cells: seq<string>, n: nat): Record
    requires n <= |headers|
  {
    if n == 0 then map[] else RecordOf(headers, cells, n - 1)[headers[n - 1] := CellValue(cells, n - 1)]
  }

  function HeaderNames(cells: seq<string>): (r: seq<string>)
    ensures |r| == |cells| && forall i :: 0 <= i < |r| ==> r[i] == HeaderName(cells[i])
  {
    seq(|cells|, i requires 0 <= i < |cells| => HeaderName(cells[i]))
  }

  function RecordLine(headers: seq<string>, line: string): Record { RecordOf(headers, Split(line), |headers|) }

  function Parse(text: string): Table {
    var lines := NonBlank(LinesFrom(WithoutBom(text), []));
    if |lines| == 0 then Table([], [])
    else
      var headers := HeaderNames(Split(lines[0]));
      Table(headers, seq(|lines| - 1, i requires 0 <= i < |lines| - 1 => RecordLine(headers, lines[i + 1])))
  }

  method ReadRecord(headers: seq<string>, line: string) returns (obj: Record)
    ensures obj == RecordLine(headers, line)
  {
    var cells := SplitCsvLine(line);
    obj := map[];
    hide Split, Trim;
    for j := 0 to |headers|
      invariant obj == RecordOf(headers, cells, j)
    {
      var v := Trim(if j < |cells| then cells[j] else "");
      obj := obj[headers[j] := if v == "" then None else Some(v)];
    }
  }

  lemma ParseIs(text: string, headers: seq<string>, rows: seq<Record>)
    requires var lines := NonBlank(LinesFrom(WithoutBom(text), []));
      && |lines| > 0 && headers == HeaderNames(Split(lines[0])) && |rows| == |lines| - 1
      && forall k :: 0 <= k < |rows| ==> rows[k] == RecordLine(headers, lines[k + 1])
    ensures Parse(text) == Table(headers, rows)
  {
    hide NonBlank, LinesFrom, WithoutBom, HeaderNames, Split, RecordLine;
  }

  /** `parseCsv`, on the text of the file. */
  method ParseCsv(text: string) returns (t: Table)
    ensures t == Parse(text)
  {
    var lines := NonBlank(LinesFrom(WithoutBom(text), []));
    if |lines| == 0 {
      return Table([], []);
    }
    var cells := SplitCsvLine(lines[0]);
    var headers := HeaderNames(cells);
    var rows: seq<Record> := [];
    hide Parse, RecordLine, NonBlank, LinesFrom, Split, HeaderName, HeaderNames, WithoutBom;
    for i := 1 to |lines|
      invariant |rows| == i - 1 && forall k :: 0 <= k < i - 1 ==> rows[k] == RecordLine(headers, lines[k + 1])
    {
      var obj := ReadRecord(headers, lines[i]);
      rows := rows + [obj];
    }
    ParseIs(text, headers, rows);
    return Table(headers, rows);
  }

  /** `toCsv` as it runs: a header line, then one line a row. */
  method PrintCsv(headers: seq<string>, rows: seq<Record>) returns (text: string)
    ensures text == ToCsv(headers, rows)
    ensures if rows == [] then text == "" else |text| > 0 && text[|text| - 1] == '\n'
  {
    if |rows| == 0 {
      return [];
    }
    var lines := [Join(headers, COMMA)];
    for i := 0 to |rows|
      invariant lines == [Join(headers, COMMA)] + RowLines(headers, rows[..i])
    {
      assert RowLines(headers, rows[..i + 1]) == RowLines(headers, rows[..i]) + [RowLine(headers, rows[i])];
      lines := lines + [RowLine(headers, rows[i])];
    }
    assert rows[..|rows|] == rows;
    return Join(lines, LF) + [LF];
  }

  // ----- the file round trip -----

  lemma {:induction false} LinesPlain(v: string, rest: string, cur: string)
    requires LF !in v
    ensures LinesFrom(v + rest, cur) == LinesFrom(rest, cur + v)
  {
    if |v| == 0 {
      assert v + rest == rest && cur + v == cur;
    } else {
      assert (v + rest)[1..] == v[1..] + rest && cur + [v[0]] + v[1..] == cur + v;
      LinesPlain(v[1..], rest, cur + [v[0]]);
    }
  }

  predicate Whole(line: string) { LF !in line && LastWithoutCr(line) == line }

  lemma {:induction false} LinesOfJoin(lines: seq<string>)
    requires |lines| > 0 && forall i :: 0 <= i < |lines| ==> Whole(lines[i])
    ensures LinesFrom(Join(lines, LF) + [LF], []) == lines + [""]
  {
    assert [] + lines[0] == lines[0];
    if |lines| == 1 {
      LinesPlain(lines[0], [LF], []);
      assert [LF][1..] == [] && lines + [""] == [lines[0]] + [""];
    } else {
      var rest := [LF] + Join(lines[1..], LF) + [LF];
      assert Join(lines, LF) + [LF] == lines[0] + rest;
      LinesPlain(lines[0], rest, []);
      assert rest[1..] == Join(lines[1..], LF) + [LF];
      LinesOfJoin(lines[1..]);
      assert lines + [""] == [lines[0]] + (lines[1..] + [""]);
    }
  }

  lemma {:induction false} JoinAvoids(parts: seq<string>, separator: char, c: char)
    requires c != separator && forall i :: 0 <= i < |parts| ==> c !in parts[i]
    ensures c !in Join(parts, separator)
  {
    if |parts| > 1 {
      JoinAvoids(parts[1..], separator, c);
    }
  }

  lemma {:induction false} DoubledAvoids(v: string, c: char)
    requires c != QUOTE && c !in v
    ensures c !in Doubled(v)
  {
    if |v| > 0 {
      DoubledAvoids(v[1..], c);
    }
  }

  lemma EscIsWhole(v: string)
    requires LF !in v
    ensures Whole(Esc(v))
  {
    DoubledAvoids(v, LF);
    if |v| > 0 {
      assert v[|v| - 1] in v;
    }
  }

  lemma {:induction false} JoinIsWhole(parts: seq<string>)
    requires |parts| > 0 && forall i :: 0 <= i < |parts| ==> Whole(parts[i])
    ensures Whole(Join(parts, COMMA))
  {
    JoinAvoids(parts, COMMA, LF);
    if |parts| > 1 {
      JoinIsWhole(parts[1..]);
      var tail := Join(parts[1..], COMMA);
      if |tail| > 0 {
        assert Join(parts, COMMA)[|Join(parts, COMMA)| - 1] == tail[|tail| - 1];
      }
    }
  }

  lemma {:induction false} UnderscoredHasNoSpace(s: string)
    ensures forall i :: 0 <= i < |Underscored(s)| ==> !IsSpace(Underscored(s)[i])
  {
    if |s| > 0 {
      UnderscoredHasNoSpace(s[1..]);
    }
  }

  /** Distinct ASCII names that the parser leaves as they are and that need no quotes. */
  predicate PlainHeaders(headers: seq<string>) {
    && |headers| > 0 && headers != [""]
    && (forall i :: 0 <= i < |headers| ==> IsAscii(headers[i]))
    && (forall i, j :: 0 <= i < j < |headers| ==> headers[i] != headers[j])
    && forall i :: 0 <= i < |headers| ==> HeaderName(headers[i]) == headers[i] && COMMA !in headers[i] && QUOTE !in headers[i]
  }

  lemma HeaderHasNoSpace(h: string)
    requires HeaderName(h) == h
    ensures Whole(h) && BOM !in h && CR !in h && (h != "" ==> !Blank(h))
  {
    UnderscoredHasNoSpace(Lower(Trim(h)));
    assert forall i :: 0 <= i < |h| ==> !IsSpace(h[i]);
  }

  lemma {:induction false} TrimStartKeeps(s: string, c: char)
    requires c in s && !IsSpace(c)
    ensures c in TrimStart(s)
  {
    if IsSpace(s[0]) {
      assert s == [s[0]] + s[1..];
      TrimStartKeeps(s[1..], c);
    }
  }

  lemma {:induction false} TrimEndKeeps(s: string, c: char)
    requires c in s && !IsSpace(c)
    ensures c in TrimEnd(s)
  {
    var n := |s| - 1;
    if IsSpace(s[n]) {
      assert s == s[..n] + [s[n]];
      TrimEndKeeps(s[..n], c);
    }
  }

  lemma CommaNotBlank(parts: seq<string>)
    requires |parts| > 1
    ensures !Blank(Join(parts, COMMA))
  {
    var s := Join(parts, COMMA);
    assert s[|parts[0]|] == COMMA;
    TrimStartKeeps(s, COMMA);
    TrimEndKeeps(TrimStart(s), COMMA);
  }

  lemma HeaderLine(headers: seq<string>)
    requires PlainHeaders(headers)
    ensures var line := Join(headers, COMMA);
      && Whole(line) && !Blank(line) && |line| > 0 && line[0] != BOM
      && HeaderNames(Split(line)) == headers
  {
    forall i | 0 <= i < |headers| ensures Whole(headers[i]) && Esc(headers[i]) == headers[i] && BOM !in headers[i] {
      HeaderHasNoSpace(headers[i]);
    }
    JoinIsWhole(headers);
    JoinAvoids(headers, COMMA, BOM);
    if |headers| > 1 {
      CommaNotBlank(headers);
    } else {
      assert headers == [headers[0]];
      HeaderHasNoSpace(headers[0]);
    }
    assert EscAll(headers) == headers;
    LineRoundTrip(headers);
  }

  // Reading one record back.

  /** What a field reads back as: trimmed, with nothing for null. */
  function FieldValue(r: Record, h: string): Option<string> {
    var v := Trim(FieldText(r, h));
    if v == "" then None else Some(v)
  }

  function ReadBack(headers: seq<string>, r: Record): Record { map h | h in headers :: FieldValue(r, h) }

  lemma {:induction false} RecordOfFields(headers: seq<string>, r: Record, n: nat)
    requires n <= |headers| && forall i, j :: 0 <= i < j < |headers| ==> headers[i] != headers[j]
    ensures var obj := RecordOf(headers, Fields(headers, r), n);
      && obj.Keys == (set i | 0 <= i < n :: headers[i])
      && forall i :: 0 <= i < n ==> obj[headers[i]] == FieldValue(r, headers[i])
  {
    hide Trim, FieldText;
    if n > 0 {
      RecordOfFields(headers, r, n - 1);
      assert CellValue(Fields(headers, r), n - 1) == FieldValue(r, headers[n - 1]);
    }
  }

  lemma RowReadsBack(headers: seq<string>, r: Record)
    requires PlainHeaders(headers)
    ensures RecordLine(headers, RowLine(headers, r)) == ReadBack(headers, r)
  {
    LineRoundTrip(Fields(headers, r));
    RecordOfFields(headers, r, |headers|);
    hide Split, Join, EscAll, FieldValue, RecordOf, HeaderName;
    var obj := RecordOf(headers, Fields(headers, r), |headers|);
    forall h ensures h in headers <==> h in obj.Keys {
      if h in headers {
        var i :| 0 <= i < |headers| && headers[i] == h;
      }
    }
    forall h | h in headers ensures obj[h] == FieldValue(r, h) {
      var i :| 0 <= i < |headers| && headers[i] == h;
    }
  }

  /** No field that is printed holds a line feed. */
  predicate OneLine(headers: seq<string>, r: Record) {
    forall i :: 0 <= i < |headers| ==> LF !in FieldText(r, headers[i])
  }

  lemma RowIsWhole(headers: seq<string>, r: Record)
    requires |headers| > 0 && OneLine(headers, r)
    ensures Whole(RowLine(headers, r))
  {
    forall i | 0 <= i < |headers| ensures Whole(EscAll(Fields(headers, r))[i]) {
      EscIsWhole(FieldText(r, headers[i]));
    }
    JoinIsWhole(EscAll(Fields(headers, r)));
  }

  /** The records that come back: those whose line is not blank. */
  function ReadRows(headers: seq<string>, rows: seq<Record>): seq<Record> {
    if |rows| == 0 then []
    else (if Blank(RowLine(headers, rows[0])) then [] else [ReadBack(headers, rows[0])]) + ReadRows(headers, rows[1..])
  }

  lemma NoLines()
    ensures NonBlank([""]) == []
  {
    assert [""][1..] == [];
  }

  lemma NonBlankCons(line: string, rest: seq<string>)
    ensures NonBlank([line] + rest) == (if Blank(line) then [] else [line]) + NonBlank(rest)
  {
    hide Blank;
    assert ([line] + rest)[1..] == rest;
  }

  lemma {:induction false} LinesReadBack(headers: seq<string>, rows: seq<Record>)
    requires PlainHeaders(headers)
    ensures var lines := NonBlank(RowLines(headers, rows) + [""]);
      |lines| == |ReadRows(headers, rows)| && forall i :: 0 <= i < |lines| ==> RecordLine(headers, lines[i]) == ReadRows(headers, rows)[i]
  {
    hide RecordLine, ReadBack, RowLine, PlainHeaders, Trim;
    if |rows| == 0 {
      assert RowLines(headers, rows) + [""] == [""];
      NoLines();
    } else {
      hide Blank;
      var first, tail := RowLine(headers, rows[0]), RowLines(headers, rows[1..]) + [""];
      assert RowLines(headers, rows) + [""] == [first] + tail;
      LinesReadBack(headers, rows[1..]);
      RowReadsBack(headers, rows[0]);
      NonBlankCons(first, tail);
      hide NonBlank, RowLines;
      assert ReadRows(headers, rows) == (if Blank(first) then [] else [ReadBack(headers, rows[0])]) + ReadRows(headers, rows[1..]);
    }
  }

  /** Printing records whose fields hold no line feed and parsing the file gives back the
      headers and, record by record, the trimmed values with nothing read as null; only
      records that print as a blank line are lost. */
  lemma FileReads(headers: seq<string>, rows: seq<Record>)
    requires PlainHeaders(headers) && |rows| > 0
    requires forall i :: 0 <= i < |rows| ==> OneLine(headers, rows[i])
    ensures Parse(ToCsv(headers, rows)) == Table(headers, ReadRows(headers, rows))
  {
    hide LinesFrom, Blank, RecordLine, ReadBack, Split, RowLine, HeaderName, ReadRows;
    var header, text, body := Join(headers, COMMA), ToCsv(headers, rows), RowLines(headers, rows);
    HeaderLine(headers);
    forall i | 0 <= i < |body| ensures Whole(body[i]) {
      RowIsWhole(headers, rows[i]);
    }
    LinesOfJoin([header] + body);
    LinesReadBack(headers, rows);
    var lines := [header] + body + [""];
    assert lines[0] == header && lines[1..] == body + [""];
    assert ([header] + body)[0] == header && text[0] == header[0] && WithoutBom(text) == text;
    NonBlankCons(header, body + [""]);
    assert lines == [header] + (body + [""]);
    hide NonBlank, RowLines, Whole, PlainHeaders;
    assert Parse(text).rows == ReadRows(headers, rows);
  }

  lemma {:induction false} TwoColumnsLoseNothing(headers: seq<string>, rows: seq<Record>)
    requires |headers| >= 2
    ensures |ReadRows(headers, rows)| == |rows| && forall i :: 0 <= i < |rows| ==> ReadRows(headers, rows)[i] == ReadBack(headers, rows[i])
  {
    hide ReadBack, Blank, Join, EscAll;
    if |rows| > 0 {
      TwoColumnsLoseNothing(headers, rows[1..]);
      CommaNotBlank(EscAll(Fields(headers, rows[0])));
    }
  }

  /** With at least two columns no record is lost. */
  lemma FileRoundTrip(headers: seq<string>, rows: seq<Record>)
    requires PlainHeaders(headers) && |headers| >= 2 && |rows| > 0
    requires forall i :: 0 <= i < |rows| ==> OneLine(headers, rows[i])
    ensures var t := Parse(ToCsv(headers, rows));
      t.headers == headers && |t.rows| == |rows| && forall i :: 0 <= i < |rows| ==> t.rows[i] == ReadBack(headers, rows[i])
  {
    FileReads(headers, rows);
    TwoColumnsLoseNothing(headers, rows);
  }

  // ----- where the round trip stops -----

  function CountIn(parts: seq<string>, c: char): nat {
    if |parts| == 0 then 0 else multiset(parts[0])[c] + CountIn(parts[1..], c)
  }

  lemma {:induction false} CountJoin(parts: seq<string>, c: char)
    requires |parts| > 0
    ensures multiset(Join(parts, c))[c] == |parts| - 1 + CountIn(parts, c)
  {
    if |parts| > 1 {
      CountJoin(parts[1..], c);
      assert Join(parts, c) == parts[0] + [c] + Join(parts[1..], c);
    } else {
      assert parts == [parts[0]];
    }
  }

  lemma {:induction false} CountInZero(parts: seq<string>, c: char)
    ensures CountIn(parts, c) == 0 <==> forall i :: 0 <= i < |parts| ==> c !in parts[i]
  {
    if |parts| > 0 {
      CountInZero(parts[1..], c);
      assert forall i :: 1 <= i < |parts| ==> parts[i] == parts[1..][i - 1];
      assert c in multiset(parts[0]) <==> c in parts[0];
      if CountIn(parts[1..], c) != 0 {
        var i :| 0 <= i < |parts[1..]| && c in parts[1..][i];
        assert c in parts[i + 1];
      }
    }
  }

  lemma {:induction false} LineCount(s: string, cur: string)
    ensures |LinesFrom(s, cur)| == 1 + multiset(s)[LF]
  {
    if |s| > 0 {
      assert s == [s[0]] + s[1..];
      LineCount(s[1..], if s[0] == LF then [] else cur + [s[0]]);
    }
  }

  lemma {:induction false} CellCount(s: string, cur: string)
    requires QUOTE !in s
    ensures |Scan(s, cur, false)| == 1 + multiset(s)[COMMA]
  {
    if |s| > 0 {
      assert s == [s[0]] + s[1..];
      CellCount(s[1..], if s[0] == COMMA then [] else cur + [s[0]]);
    }
  }

  /** The characters of the cells, with a separator between any two of them. */
  function Width(cells: seq<string>): int {
    if |cells| == 0 then -1 else |cells[0]| + 1 + Width(cells[1..])
  }

  lemma {:induction false} JoinWidth(cells: seq<string>)
    requires |cells| > 0
    ensures |Join(cells, COMMA)| == Width(cells)
  {
    if |cells| > 1 {
      JoinWidth(cells[1..]);
    } else {
      assert cells[1..] == [];
    }
  }

  lemma WidthCons(cell: string, rest: seq<string>)
    ensures Width([cell] + rest) == |cell| + 1 + Width(rest)
  {
    assert ([cell] + rest)[1..] == rest;
  }

  /** The splitter never adds a character, and it loses one with every quote it reads. */
  lemma {:induction false} ScanLoses(s: string, cur: string, inside: bool)
    ensures Width(Scan(s, cur, inside)) <= |cur| + |s|
    ensures QUOTE in s ==> Width(Scan(s, cur, inside)) < |cur| + |s|
    decreases |s|
  {
    if |s| == 0 {
      WidthCons(cur, []);
      assert [cur] + [] == [cur];
    } else {
      assert s == [s[0]] + s[1..];
      if inside && s[0] == QUOTE && |s| > 1 && s[1] == QUOTE {
        ScanLoses(s[2..], cur + [QUOTE], true);
      } else if s[0] == QUOTE {
        ScanLoses(s[1..], cur, !inside);
      } else if !inside && s[0] == COMMA {
        ScanLoses(s[1..], [], false);
        WidthCons(cur, Scan(s[1..], [], false));
      } else {
        ScanLoses(s[1..], cur + [s[0]], inside);
      }
    }
  }

  /** Cells without commas and quotes split back as they are. */
  lemma {:induction false} PlainSplit(cells: seq<string>)
    requires |cells| > 0 && forall i :: 0 <= i < |cells| ==> COMMA !in cells[i] && QUOTE !in cells[i]
    ensures Split(Join(cells, COMMA)) == cells
  {
    assert [] + cells[0] == cells[0];
    if |cells| == 1 {
      ScanPlain(cells[0], [], []);
      assert cells[0] + [] == cells[0] && cells == [cells[0]];
    } else {
      var rest := [COMMA] + Join(cells[1..], COMMA);
      assert Join(cells, COMMA) == cells[0] + rest && rest[1..] == Join(cells[1..], COMMA);
      ScanPlain(cells[0], rest, []);
      PlainSplit(cells[1..]);
      assert cells == [cells[0]] + cells[1..];
    }
  }

  /** Headers are printed bare, so the header line splits into them if and only if none of them
      holds a comma or a quote. */
  lemma HeaderColumnsIff(headers: seq<string>)
    requires |headers| > 0
    ensures Split(Join(headers, COMMA)) == headers <==>
      forall i :: 0 <= i < |headers| ==> COMMA !in headers[i] && QUOTE !in headers[i]
  {
    var line := Join(headers, COMMA);
    if Split(line) == headers {
      JoinWidth(headers);
      ScanLoses(line, [], false);
      forall i | 0 <= i < |headers| ensures QUOTE !in headers[i] {
        if QUOTE in headers[i] {
          JoinHas(headers, COMMA, QUOTE, i);
        }
      }
      CellCount(line, []);
      CountJoin(headers, COMMA);
      CountInZero(headers, COMMA);
    } else if forall i :: 0 <= i < |headers| ==> COMMA !in headers[i] && QUOTE !in headers[i] {
      PlainSplit(headers);
    }
  }

  lemma LineTotal(headers: seq<string>, rows: seq<Record>)
    requires |rows| > 0
    ensures var lines := [Join(headers, COMMA)] + RowLines(headers, rows);
      |LinesFrom(ToCsv(headers, rows), [])| == |rows| + 2 + CountIn(lines, LF)
  {
    var lines := [Join(headers, COMMA)] + RowLines(headers, rows);
    hide Join, RowLine, LinesFrom, CountIn;
    LineCount(ToCsv(headers, rows), []);
    CountJoin(lines, LF);
    assert multiset(ToCsv(headers, rows)) == multiset(Join(lines, LF)) + multiset{LF};
  }

  /** A quoted line feed still ends a line: the file has one line a record (besides its header
      line and the empty one at the end) exactly when no printed line holds one. */
  lemma RecordLinesIff(headers: seq<string>, rows: seq<Record>)
    requires |rows| > 0
    ensures |LinesFrom(ToCsv(headers, rows), [])| == |rows| + 2
       <==> LF !in Join(headers, COMMA) && forall i :: 0 <= i < |rows| ==> LF !in RowLine(headers, rows[i])
  {
    LineTotal(headers, rows);
    CountInZero([Join(headers, COMMA)] + RowLines(headers, rows), LF);
    NoFeedIff(headers, rows);
    hide *;
  }

  lemma NoFeedIff(headers: seq<string>, rows: seq<Record>)
    ensures var lines := [Join(headers, COMMA)] + RowLines(headers, rows);
      (forall i :: 0 <= i < |lines| ==> LF !in lines[i])
      <==> LF !in Join(headers, COMMA) && forall i :: 0 <= i < |rows| ==> LF !in RowLine(headers, rows[i])
  {
    hide RowLine, Join;
    var lines := [Join(headers, COMMA)] + RowLines(headers, rows);
    assert lines[0] == Join(headers, COMMA) && forall i :: 0 <= i < |rows| ==> lines[i + 1] == RowLine(headers, rows[i]);
    if LF !in lines[0] && forall i :: 0 <= i < |rows| ==> LF !in RowLine(headers, rows[i]) {
      forall i | 0 <= i < |lines| ensures LF !in lines[i] {
        assert i > 0 ==> lines[i] == RowLine(headers, rows[i - 1]);
      }
    }
    if forall i :: 0 <= i < |lines| ==> LF !in lines[i] {
      forall i | 0 <= i < |rows| ensures LF !in RowLine(headers, rows[i]) {
        assert lines[i + 1] == RowLine(headers, rows[i]);
      }
    }
  }

  // A field with a line feed is printed in quotes, so each line it is split into keeps a quote
  // at one end of the record, and counts as a record of its own.

  /** The lines of one printed record, given the line read so far. */
  function Pieces(v: string, cur: string): (r: seq<string>)
    ensures |r| > 0
  {
    if |v| == 0 then [LastWithoutCr(cur)]
    else if v[0] == LF then [LastWithoutCr(cur)] + Pieces(v[1..], [])
    else Pieces(v[1..], cur + [v[0]])
  }

  lemma {:induction false} LinesOfRecord(v: string, rest: string, cur: string)
    ensures LinesFrom(v + [LF] + rest, cur) == Pieces(v, cur) + LinesFrom(rest, [])
  {
    var s := v + [LF] + rest;
    if |v| == 0 {
      assert s == [LF] + rest && s[1..] == rest;
    } else {
      assert s[0] == v[0] && s[1..] == v[1..] + [LF] + rest;
      LinesOfRecord(v[1..], rest, if v[0] == LF then [] else cur + [v[0]]);
    }
  }

  function PiecesOf(lines: seq<string>): seq<string> {
    if |lines| == 0 then [] else Pieces(lines[0], []) + PiecesOf(lines[1..])
  }

  lemma {:induction false} LinesOfRecords(lines: seq<string>)
    requires |lines| > 0
    ensures LinesFrom(Join(lines, LF) + [LF], []) == PiecesOf(lines) + [""]
  {
    if |lines| == 1 {
      LinesOfRecord(lines[0], [], []);
      assert Join(lines, LF) + [LF] == lines[0] + [LF] + [];
      assert PiecesOf(lines) == Pieces(lines[0], []) + [];
    } else {
      var rest := Join(lines[1..], LF) + [LF];
      assert Join(lines, LF) + [LF] == lines[0] + [LF] + rest;
      LinesOfRecord(lines[0], rest, []);
      LinesOfRecords(lines[1..]);
      assert Pieces(lines[0], []) + (PiecesOf(lines[1..]) + [""]) == PiecesOf(lines) + [""];
    }
  }

  lemma {:induction false} OnePiece(v: string, cur: string)
    requires LF !in v
    ensures Pieces(v, cur) == [LastWithoutCr(cur + v)]
  {
    if |v| == 0 {
      assert cur + v == cur;
    } else {
      assert cur + [v[0]] + v[1..] == cur + v;
      OnePiece(v[1..], cur + [v[0]]);
    }
  }

  predicate QuoteBefore(v: string) { forall i :: 0 <= i < |v| && v[i] == LF ==> exists j :: 0 <= j < i && v[j] == QUOTE }

  predicate QuoteAfter(v: string) { forall i :: 0 <= i < |v| && v[i] == LF ==> exists j :: i < j < |v| && v[j] == QUOTE }

  lemma QuotedBothEnds(v: string)
    ensures QuoteBefore(Esc(v)) && QuoteAfter(Esc(v))
  {
    var e := Esc(v);
    if NeedsQuotes(v) {
      assert e[0] == QUOTE && e[|e| - 1] == QUOTE;
    }
  }

  lemma QuotesAround(a: string, b: string)
    requires QuoteBefore(a) && QuoteBefore(b) && QuoteAfter(a) && QuoteAfter(b)
    ensures QuoteBefore(a + [COMMA] + b) && QuoteAfter(a + [COMMA] + b)
  {
    var s, n := a + [COMMA] + b, |a| + 1;
    forall i | 0 <= i < |s| && s[i] == LF ensures (exists j :: 0 <= j < i && s[j] == QUOTE) && exists j :: i < j < |s| && s[j] == QUOTE {
      if i < |a| {
        assert a[i] == LF;
        var j :| 0 <= j < i && a[j] == QUOTE;
        var k :| i < k < |a| && a[k] == QUOTE;
        assert s[j] == QUOTE && s[k] == QUOTE;
      } else {
        assert b[i - n] == LF;
        var j :| 0 <= j < i - n && b[j] == QUOTE;
        var k :| i - n < k < |b| && b[k] == QUOTE;
        assert s[j + n] == QUOTE && s[k + n] == QUOTE;
      }
    }
  }

  lemma {:induction false} RowQuotes(values: seq<string>)
    ensures QuoteBefore(Join(EscAll(values), COMMA)) && QuoteAfter(Join(EscAll(values), COMMA))
  {
    hide QuoteBefore, QuoteAfter;
    if |values| == 0 {
      assert QuoteBefore([]) && QuoteAfter([]) by { NoFeeds(); }
    } else {
      QuotedBothEnds(values[0]);
      if |values| > 1 {
        RowQuotes(values[1..]);
        assert EscAll(values)[1..] == EscAll(values[1..]);
        QuotesAround(Esc(values[0]), Join(EscAll(values[1..]), COMMA));
      }
    }
  }

  lemma NoFeeds()
    ensures QuoteBefore([]) && QuoteAfter([])
  {
  }

  lemma QuoteNotBlank(s: string)
    requires QUOTE in s
    ensures !Blank(LastWithoutCr(s))
  {
    var r := LastWithoutCr(s);
    if r != s {
      assert s == r + [CR];
    }
    assert QUOTE in r;
    TrimStartKeeps(r, QUOTE);
    TrimEndKeeps(TrimStart(r), QUOTE);
  }

  lemma {:induction false} FirstPiece(v: string, cur: string)
    requires LF in v && (QUOTE in cur || QuoteBefore(v))
    ensures |Pieces(v, cur)| >= 2 && !Blank(Pieces(v, cur)[0])
  {
    hide Blank;
    if v[0] == LF {
      assert QUOTE in cur;
      QuoteNotBlank(cur);
    } else {
      assert v == [v[0]] + v[1..];
      if QUOTE !in cur + [v[0]] {
        forall i | 0 <= i < |v[1..]| && v[1..][i] == LF ensures exists j :: 0 <= j < i && v[1..][j] == QUOTE {
          assert v[i + 1] == LF;
          var j :| 0 <= j < i + 1 && v[j] == QUOTE;
          assert v[1..][j - 1] == QUOTE;
        }
      }
      FirstPiece(v[1..], cur + [v[0]]);
    }
  }

  lemma {:induction false} LastPiece(v: string, cur: string)
    requires LF in v && QuoteAfter(v)
    ensures var p := Pieces(v, cur); !Blank(p[|p| - 1])
  {
    hide Blank, QuoteAfter, LastWithoutCr;
    var rest := v[1..];
    assert v == [v[0]] + rest;
    QuoteAfterRest(v);
    if LF in rest {
      LastPiece(rest, if v[0] == LF then [] else cur + [v[0]]);
    } else {
      OnePiece(rest, []);
      assert [] + rest == rest;
      QuoteNotBlank(rest);
    }
  }

  lemma QuoteAfterRest(v: string)
    requires |v| > 0 && QuoteAfter(v)
    ensures QuoteAfter(v[1..]) && (v[0] == LF ==> QUOTE in v[1..])
  {
    var rest := v[1..];
    forall i | 0 <= i < |v| && v[i] == LF ensures exists j :: i <= j < |rest| && rest[j] == QUOTE {
      var j :| i < j < |v| && v[j] == QUOTE;
      assert rest[j - 1] == QUOTE;
    }
    forall i | 0 <= i < |rest| && rest[i] == LF ensures exists j :: i < j < |rest| && rest[j] == QUOTE {
      assert v[i + 1] == LF;
      var j :| i + 1 <= j < |rest| && rest[j] == QUOTE;
    }
  }

  lemma {:induction false} NonBlankCat(a: seq<string>, b: seq<string>)
    ensures NonBlank(a + b) == NonBlank(a) + NonBlank(b)
  {
    hide Blank;
    if |a| == 0 {
      assert a + b == b;
    } else {
      assert (a + b)[1..] == a[1..] + b;
      NonBlankCat(a[1..], b);
    }
  }

  lemma EndsCount(pieces: seq<string>)
    requires |pieces| >= 2 && !Blank(pieces[0]) && !Blank(pieces[|pieces| - 1])
    ensures |NonBlank(pieces)| >= 2
  {
    var n := |pieces| - 1;
    hide Blank;
    assert pieces == pieces[..n] + [pieces[n]];
    NonBlankCat(pieces[..n], [pieces[n]]);
    assert NonBlank([pieces[n]]) == [pieces[n]] + NonBlank([]);
  }

  /** A printed record with a line feed reads as two lines at least. */
  lemma SplitRecord(headers: seq<string>, r: Record)
    requires LF in RowLine(headers, r)
    ensures |NonBlank(Pieces(RowLine(headers, r), []))| >= 2
  {
    var v := RowLine(headers, r);
    hide Blank, Join, EscAll, Pieces, QuoteBefore, QuoteAfter, NonBlank;
    RowQuotes(Fields(headers, r));
    FirstPiece(v, []);
    LastPiece(v, []);
    EndsCount(Pieces(v, []));
  }

  /** A printed record of two columns or more reads as one line if it holds no line feed, and as
      at least two otherwise. */
  lemma RowCount(headers: seq<string>, r: Record)
    requires |headers| >= 2
    ensures var count := |NonBlank(Pieces(RowLine(headers, r), []))|;
      if LF in RowLine(headers, r) then count >= 2 else count == 1
  {
    var v := RowLine(headers, r);
    hide Blank, Join, EscAll, Pieces, QuoteBefore, QuoteAfter, NonBlank;
    if LF in v {
      SplitRecord(headers, r);
    } else {
      OnePiece(v, []);
      assert [] + v == v;
      CommaSurvives(EscAll(Fields(headers, r)));
      OneLeft(LastWithoutCr(v));
    }
  }

  lemma OneLeft(line: string)
    ensures NonBlank([line]) == if Blank(line) then [] else [line]
  {
    assert [line][1..] == [];
    hide Blank;
  }

  lemma CommaSurvives(parts: seq<string>)
    requires |parts| > 1
    ensures !Blank(LastWithoutCr(Join(parts, COMMA)))
  {
    var s := Join(parts, COMMA);
    assert s[|parts[0]|] == COMMA;
    var r := LastWithoutCr(s);
    if r != s {
      assert s == r + [CR];
    }
    assert COMMA in r;
    TrimStartKeeps(r, COMMA);
    TrimEndKeeps(TrimStart(r), COMMA);
  }

  lemma {:induction false} BodyCount(headers: seq<string>, rows: seq<Record>)
    requires |headers| >= 2
    ensures |NonBlank(PiecesOf(RowLines(headers, rows)))| >= |rows|
    ensures |NonBlank(PiecesOf(RowLines(headers, rows)))| == |rows| <==> forall i :: 0 <= i < |rows| ==> LF !in RowLine(headers, rows[i])
  {
    hide Pieces, RowLine, Blank;
    var lines := RowLines(headers, rows);
    if |rows| > 0 {
      assert lines[0] == RowLine(headers, rows[0]) && lines[1..] == RowLines(headers, rows[1..]);
      BodyCount(headers, rows[1..]);
      RowCount(headers, rows[0]);
      NonBlankCat(Pieces(lines[0], []), PiecesOf(lines[1..]));
      assert forall i :: 1 <= i < |rows| ==> rows[i] == rows[1..][i - 1];
      hide NonBlank, RowLines;
      if forall i :: 0 <= i < |rows| ==> LF !in RowLine(headers, rows[i]) {
        assert forall i :: 0 <= i < |rows| - 1 ==> LF !in RowLine(headers, rows[1..][i]);
      }
      if |NonBlank(PiecesOf(lines))| == |rows| {
        forall i | 0 <= i < |rows| ensures LF !in RowLine(headers, rows[i]) {
          if i > 0 { assert LF !in RowLine(headers, rows[1..][i - 1]); }
        }
      }
    }
  }

  lemma {:induction false} JoinHas(parts: seq<string>, separator: char, c: char, i: nat)
    requires i < |parts| && c in parts[i]
    ensures c in Join(parts, separator)
  {
    if i > 0 {
      JoinHas(parts[1..], separator, c, i - 1);
    }
  }

  lemma {:induction false} DoubledHas(v: string, c: char)
    requires c in v
    ensures c in Doubled(v)
  {
    if v[0] != c {
      assert v == [v[0]] + v[1..];
      DoubledHas(v[1..], c);
    }
  }

  lemma OneLineIff(headers: seq<string>, r: Record)
    requires |headers| > 0
    ensures LF !in RowLine(headers, r) <==> OneLine(headers, r)
  {
    if OneLine(headers, r) {
      RowIsWhole(headers, r);
    } else {
      var i :| 0 <= i < |headers| && LF in FieldText(r, headers[i]);
      DoubledHas(FieldText(r, headers[i]), LF);
      JoinHas(EscAll(Fields(headers, r)), COMMA, LF, i);
    }
  }

  /** How many records a printed file parses to. */
  lemma ParsedCount(headers: seq<string>, rows: seq<Record>)
    requires PlainHeaders(headers) && |rows| > 0
    ensures |Parse(ToCsv(headers, rows)).rows| == |NonBlank(PiecesOf(RowLines(headers, rows)))|
  {
    var header, body, text := Join(headers, COMMA), RowLines(headers, rows), ToCsv(headers, rows);
    hide LinesFrom, Blank, RecordLine, RowLine, HeaderName, RowLines, Pieces;
    HeaderLine(headers);
    LinesOfRecords([header] + body);
    assert ([header] + body)[0] == header && ([header] + body)[1..] == body;
    assert text[0] == header[0] && WithoutBom(text) == text;
    OnePiece(header, []);
    assert [] + header == header && Pieces(header, []) == [header];
    var pieces := PiecesOf(body);
    assert PiecesOf([header] + body) + [""] == [header] + (pieces + [""]);
    NonBlankCons(header, pieces + [""]);
    NonBlankCat(pieces, [""]);
    NoLines();
  }

  /** With at least two columns the file gives its records back if and only if no printed field
      holds a line feed; any other file parses to more records than were printed. */
  lemma FileRoundTripIff(headers: seq<string>, rows: seq<Record>)
    requires PlainHeaders(headers) && |headers| >= 2 && |rows| > 0
    ensures var t := Parse(ToCsv(headers, rows)); var whole := forall i :: 0 <= i < |rows| ==> OneLine(headers, rows[i]);
      && |t.rows| >= |rows| && (|t.rows| == |rows| <==> whole)
      && (whole ==> t.headers == headers && forall i :: 0 <= i < |rows| ==> t.rows[i] == ReadBack(headers, rows[i]))
  {
    ParsedCount(headers, rows);
    BodyCount(headers, rows);
    forall i | 0 <= i < |rows| ensures LF !in RowLine(headers, rows[i]) <==> OneLine(headers, rows[i]) {
      OneLineIff(headers, rows[i]);
    }
    hide Parse, NonBlank, PiecesOf, RowLines, OneLine, ReadBack, RowLine, PlainHeaders, ToCsv;
    if forall i :: 0 <= i < |rows| ==> OneLine(headers, rows[i]) {
      FileRoundTrip(headers, rows);
    }
  }

  lemma BlankField(v: string)
    requires LF !in v
    ensures Blank(Esc(v)) <==> Trim(v) == "" && CR !in v
  {
    if NeedsQuotes(v) {
      var e := Esc(v);
      assert e[0] == QUOTE;
      TrimStartKeeps(e, QUOTE);
      TrimEndKeeps(TrimStart(e), QUOTE);
      if QUOTE in v {
        TrimStartKeeps(v, QUOTE);
        TrimEndKeeps(TrimStart(v), QUOTE);
      } else if COMMA in v {
        TrimStartKeeps(v, COMMA);
        TrimEndKeeps(TrimStart(v), COMMA);
      }
    }
  }

  /** The lines a printed record is read as. */
  function LinesRead(headers: seq<string>): Record -> int { (r: Record) => |NonBlank(Pieces(RowLine(headers, r), []))| }

  lemma {:induction false} BodyTotal(headers: seq<string>, rows: seq<Record>)
    ensures |NonBlank(PiecesOf(RowLines(headers, rows)))| == Sum(LinesRead(headers), rows)
  {
    hide Pieces, RowLine, Blank;
    var lines := RowLines(headers, rows);
    if |rows| > 0 {
      assert lines[0] == RowLine(headers, rows[0]) && lines[1..] == RowLines(headers, rows[1..]);
      BodyTotal(headers, rows[1..]);
      NonBlankCat(Pieces(lines[0], []), PiecesOf(lines[1..]));
      assert rows == [rows[0]] + rows[1..] && [] + [rows[0]] == [rows[0]];
      SumCat(LinesRead(headers), [rows[0]], rows[1..]);
      SumSnoc(LinesRead(headers), [], rows[0]);
    }
  }

  /** A field that prints as a blank line: null, empty or white space, but no line break, which
      would bring quotes with it. */
  predicate Vanishes(v: string) { Trim(v) == "" && LF !in v && CR !in v }

  /** A printed record of one column reads as no line if its field vanishes, as two or more if it
      holds a line feed, and as one line otherwise. */
  lemma OneColumnCount(headers: seq<string>, r: Record)
    requires |headers| == 1
    ensures var v, count := FieldText(r, headers[0]), LinesRead(headers)(r);
      if LF in v then count >= 2 else if Vanishes(v) then count == 0 else count == 1
  {
    var v := FieldText(r, headers[0]);
    hide Blank, Pieces, QuoteBefore, QuoteAfter, NonBlank, Trim, FieldText;
    assert EscAll(Fields(headers, r)) == [Esc(v)];
    OneLineIff(headers, r);
    if LF in v {
      assert LF in RowLine(headers, r);
      SplitRecord(headers, r);
    } else {
      OnePiece(Esc(v), []);
      assert [] + Esc(v) == Esc(v);
      EscIsWhole(v);
      BlankField(v);
      OneLeft(Esc(v));
    }
  }

  /** What is missing from a file of one column, and what it has too much. */
  function Lost(headers: seq<string>): Record -> int
    requires |headers| == 1
  {
    (r: Record) => if Vanishes(FieldText(r, headers[0])) then 1 else 0
  }

  function Gained(headers: seq<string>): Record -> int
    requires |headers| == 1
  {
    (r: Record) => if LF in FieldText(r, headers[0]) then LinesRead(headers)(r) - 1 else 0
  }

  /** A file of one column parses to its records, less those that vanish, plus what the line feeds
      of others split off. It keeps their number if and only if the two make up for each other:
      without line feeds, if and only if no field vanishes. */
  lemma OneColumnKeepsIff(headers: seq<string>, rows: seq<Record>)
    requires PlainHeaders(headers) && |headers| == 1 && |rows| > 0
    ensures var parsed := |Parse(ToCsv(headers, rows)).rows|;
      && parsed == |rows| - Sum(Lost(headers), rows) + Sum(Gained(headers), rows)
      && (parsed == |rows| <==> Sum(Lost(headers), rows) == Sum(Gained(headers), rows))
      && ((forall i :: 0 <= i < |rows| ==> LF !in FieldText(rows[i], headers[0])) ==>
            (parsed == |rows| <==> forall i :: 0 <= i < |rows| ==> !Vanishes(FieldText(rows[i], headers[0]))))
  {
    ParsedCount(headers, rows);
    BodyTotal(headers, rows);
    hide Parse, NonBlank, PiecesOf, RowLines, PlainHeaders, ToCsv, LinesRead, FieldText, Vanishes;
    forall i | 0 <= i < |rows| ensures LinesRead(headers)(rows[i]) + Lost(headers)(rows[i]) == One()(rows[i]) + Gained(headers)(rows[i]) {
      OneColumnCount(headers, rows[i]);
    }
    SumPairs(LinesRead(headers), Lost(headers), One(), Gained(headers), rows);
    SumOne(rows);
    if forall i :: 0 <= i < |rows| ==> LF !in FieldText(rows[i], headers[0]) {
      SumZero(Gained(headers), rows);
      NothingLost(headers, rows);
    }
  }

  function One(): Record -> int { (r: Record) => 1 }

  lemma {:induction false} SumOne(rows: seq<Record>)
    ensures Sum(One(), rows) == |rows|
  {
    if |rows| > 0 {
      SumOne(rows[..|rows| - 1]);
    }
  }

  lemma {:induction false} NothingLost(headers: seq<string>, rows: seq<Record>)
    requires |headers| == 1
    ensures Sum(Lost(headers), rows) >= 0
    ensures Sum(Lost(headers), rows) == 0 <==> forall i :: 0 <= i < |rows| ==> !Vanishes(FieldText(rows[i], headers[0]))
  {
    hide Vanishes, FieldText;
    if |rows| > 0 {
      NothingLost(headers, rows[..|rows| - 1]);
    }
  }

  // ----- the pieces of the two programs, on their own -----

  /** Nothing is quoted without need: a value is printed as it is if it holds no quote, comma or
      line break, and between quotes otherwise. */
  lemma EscMeans(v: string)
    ensures (forall i :: 0 <= i < |v| ==> v[i] !in ['\"', ',', '\n', '\r']) ==> Esc(v) == v
    ensures (exists i :: 0 <= i < |v| && v[i] in ['\"', ',', '\n', '\r']) ==>
      var e := Esc(v); |e| >= 2 && e[0] == '\"' && e[|e| - 1] == '\"'
  {
  }

  /** The code points that are trimmed. */
  lemma SpaceIs(c: char)
    ensures IsSpace(c) <==> var n := c as int;
      9 <= n <= 13 || n == 32 || n == 160 || n == 5760 || 8192 <= n <= 8202 || n in [8232, 8233, 8239, 8287, 12288, 65279]
  {
  }

  predicate AllSpace(s: string) { forall i :: 0 <= i < |s| ==> IsSpace(s[i]) }

  /** No white space at either end. */
  predicate Bare(s: string) { |s| > 0 ==> !IsSpace(s[0]) && !IsSpace(s[|s| - 1]) }

  lemma {:induction false} TrimStartMeans(s: string) returns (front: string)
    ensures s == front + TrimStart(s) && AllSpace(front) && (|TrimStart(s)| > 0 ==> !IsSpace(TrimStart(s)[0]))
  {
    if |s| > 0 && IsSpace(s[0]) {
      front := TrimStartMeans(s[1..]);
      front := [s[0]] + front;
      assert s == [s[0]] + s[1..];
    } else {
      front := "";
    }
  }

  lemma {:induction false} TrimEndMeans(s: string) returns (back: string)
    ensures s == TrimEnd(s) + back && AllSpace(back) && (|TrimEnd(s)| > 0 ==> !IsSpace(TrimEnd(s)[|TrimEnd(s)| - 1]))
    ensures |TrimEnd(s)| > 0 ==> TrimEnd(s)[0] == s[0]
  {
    hide IsSpace;
    if |s| > 0 && IsSpace(s[|s| - 1]) {
      var n := |s| - 1;
      var rest := TrimEndMeans(s[..n]);
      back := rest + [s[n]];
      assert s == s[..n] + [s[n]] && s == TrimEnd(s) + back;
    } else {
      back := "";
    }
  }

  /** Trimming takes off the white space at both ends, all of it and nothing else. */
  lemma TrimMeans(s: string) returns (front: string, back: string)
    ensures s == front + Trim(s) + back && AllSpace(front) && AllSpace(back) && Bare(Trim(s))
  {
    front := TrimStartMeans(s);
    back := TrimEndMeans(TrimStart(s));
    assert s == front + (Trim(s) + back);
  }

  lemma {:induction false} TrimStartOf(front: string, s: string)
    requires AllSpace(front) && (|s| > 0 ==> !IsSpace(s[0]))
    ensures TrimStart(front + s) == s
  {
    if |front| > 0 {
      TrimStartOf(front[1..], s);
      assert (front + s)[1..] == front[1..] + s && (front + s)[0] == front[0];
    } else {
      assert front + s == s;
    }
  }

  lemma {:induction false} TrimEndOf(s: string, back: string)
    requires AllSpace(back) && (|s| > 0 ==> !IsSpace(s[|s| - 1]))
    ensures TrimEnd(s + back) == s
  {
    if |back| > 0 {
      var n := |back| - 1;
      TrimEndOf(s, back[..n]);
      assert (s + back)[..|s| + n] == s + back[..n] && (s + back)[|s| + n] == back[n];
    } else {
      assert s + back == s;
    }
  }

  lemma TrimOf(front: string, s: string, back: string)
    requires AllSpace(front) && AllSpace(back) && |s| > 0 && Bare(s)
    ensures Trim(front + s + back) == s
  {
    assert front + s + back == front + (s + back);
    TrimStartOf(front, s + back);
    TrimEndOf(s, back);
  }

  lemma {:induction false} UnderscoredPlain(w: string)
    requires forall i :: 0 <= i < |w| ==> !IsSpace(w[i])
    ensures Underscored(w) == w
  {
    if |w| > 0 {
      UnderscoredPlain(w[1..]);
      assert w == [w[0]] + w[1..];
    }
  }

  lemma {:induction false} UnderscoredGap(gap: string, b: string)
    requires |gap| > 0 && AllSpace(gap) && |b| > 0 && !IsSpace(b[0])
    ensures Underscored(gap + b) == "_" + Underscored(b)
  {
    var s := gap + b;
    assert s[1..] == gap[1..] + b;
    if |gap| > 1 {
      UnderscoredGap(gap[1..], b);
    } else {
      assert gap[1..] + b == b;
    }
  }

  lemma {:induction false} UnderscoredJoin(a: string, gap: string, b: string)
    requires |a| > 0 && !IsSpace(a[|a| - 1]) && |gap| > 0 && AllSpace(gap) && |b| > 0 && !IsSpace(b[0])
    ensures Underscored(a + gap + b) == Underscored(a) + "_" + Underscored(b)
  {
    var s := a + gap + b;
    if |a| == 1 {
      assert s[1..] == gap + b && a[1..] == "";
      UnderscoredGap(gap, b);
      assert Underscored(a) == [a[0]] + Underscored("");
    } else {
      assert s[1..] == a[1..] + gap + b && s[0] == a[0] && s[1] == a[1];
      UnderscoredJoin(a[1..], gap, b);
    }
  }

  lemma LowerKeepsSpace(s: string)
    ensures forall i :: 0 <= i < |s| ==> IsSpace(Lower(s)[i]) == IsSpace(s[i])
  {
  }

  lemma LowerCat(a: string, b: string)
    ensures Lower(a + b) == Lower(a) + Lower(b)
  {
  }

  /** A header without white space is lowered letter by letter. */
  lemma HeaderWord(w: string)
    requires forall i :: 0 <= i < |w| ==> !IsSpace(w[i])
    ensures |HeaderName(w)| == |w|
    ensures forall i :: 0 <= i < |w| ==> HeaderName(w)[i] == if 'A' <= w[i] <= 'Z' then w[i] - 'A' + 'a' else w[i]
  {
    hide IsSpace, Underscored;
    assert Trim(w) == w by {
      if |w| > 0 {
        TrimOf("", w, "");
        assert "" + w + "" == w;
      }
    }
    hide Trim;
    LowerKeepsSpace(w);
    UnderscoredPlain(Lower(w));
  }

  /** White space around a header is dropped, and any run of it between two parts is one
      underscore. */
  lemma HeaderParts(front: string, a: string, gap: string, b: string, back: string)
    requires AllSpace(front) && AllSpace(gap) && AllSpace(back) && |gap| > 0 && |a| > 0 && |b| > 0 && Bare(a) && Bare(b)
    ensures HeaderName(front + a + gap + b + back) == HeaderName(a) + "_" + HeaderName(b)
  {
    var s := a + gap + b;
    assert front + a + gap + b + back == front + s + back;
    TrimOf(front, s, back);
    assert "" + a + "" == a && "" + b + "" == b;
    TrimOf("", a, "");
    TrimOf("", b, "");
    LowerCat(a + gap, b);
    LowerCat(a, gap);
    LowerKeepsSpace(a);
    LowerKeepsSpace(gap);
    LowerKeepsSpace(b);
    hide Lower, Trim;
    UnderscoredJoin(Lower(a), Lower(gap), Lower(b));
  }

  /** A field is the trimmed cell of its column, or nothing where that is empty or missing; where
      columns share a name the last one counts, and cells beyond the headers are ignored. */
  lemma {:induction false} FieldMeans(headers: seq<string>, cells: seq<string>, n: nat, j: nat)
    requires j < n <= |headers| && forall i :: j < i < n ==> headers[i] != headers[j]
    ensures var obj := RecordOf(headers, cells, n);
      headers[j] in obj && obj[headers[j]] == if j >= |cells| || Trim(cells[j]) == "" then None else Some(Trim(cells[j]))
  {
    TrimNothing();
    hide Trim;
    if j < n - 1 {
      FieldMeans(headers, cells, n - 1, j);
    }
  }

  lemma {:induction false} FieldsAre(headers: seq<string>, cells: seq<string>, n: nat, h: string)
    requires n <= |headers|
    ensures h in RecordOf(headers, cells, n) <==> h in headers[..n]
  {
    if n > 0 {
      FieldsAre(headers, cells, n - 1, h);
      assert headers[..n] == headers[..n - 1] + [headers[n - 1]];
    }
  }

  lemma TrimNothing()
    ensures Trim("") == ""
  {
  }

  /** A byte order mark at the start of a file is no part of it. */
  lemma MarkIsDropped(text: string)
    requires text == "" || text[0] != '\U{FEFF}'
    ensures Parse(['\U{FEFF}'] + text) == Parse(text)
  {
    assert (['\U{FEFF}'] + text)[1..] == text;
    assert WithoutBom(['\U{FEFF}'] + text) == text && WithoutBom(text) == text;
    hide NonBlank, LinesFrom, WithoutBom, HeaderNames, Split, RecordLine;
  }

  /** A line ends at a line feed, with the carriage return before it if there is one. */
  lemma LineEnds(v: string, rest: string)
    requires LF !in v && (v == "" || v[|v| - 1] != CR)
    ensures LinesFrom(v + "\n" + rest, "") == [v] + LinesFrom(rest, "")
    ensures LinesFrom(v + "\r\n" + rest, "") == [v] + LinesFrom(rest, "")
  {
    assert v + "\n" + rest == v + ("\n" + rest) && "" + v == v;
    LinesPlain(v, "\n" + rest, "");
    assert ("\n" + rest)[1..] == rest;
    var u := v + "\r";
    assert v + "\r\n" + rest == u + ("\n" + rest) && "" + u == u && u[..|u| - 1] == v;
    LinesPlain(u, "\n" + rest, "");
  }

  /** Blank lines are skipped wherever they stand, and the first other one is the header line. */
  lemma {:induction false} BlankLinesSkipped(before: seq<string>, line: string, after: seq<string>)
    requires forall i :: 0 <= i < |before| ==> AllSpace(before[i])
    ensures NonBlank(before + [line] + after) == NonBlank([line] + after)
    ensures !AllSpace(line) ==> NonBlank([line] + after) == [line] + NonBlank(after)
  {
    if |before| > 0 {
      BlankLinesSkipped(before[1..], line, after);
      assert before + [line] + after == [before[0]] + (before[1..] + [line] + after);
      NonBlankCons(before[0], before[1..] + [line] + after);
      var _, _ := TrimMeans(before[0]);
      SpaceTrims(before[0]);
    } else {
      assert before + [line] + after == [line] + after;
      NonBlankCons(line, after);
      SpaceTrims(line);
    }
  }

  lemma SpaceTrims(s: string)
    ensures AllSpace(s) <==> Blank(s)
  {
    var front, back := TrimMeans(s);
    if AllSpace(s) {
      TrimStartOf(s, "");
      assert s + "" == s;
    }
    if Blank(s) {
      assert s == front + back;
    }
  }
}
