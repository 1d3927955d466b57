/**
 * The CSV text the export routes write: quote doubling inside quoted
 * fields, fields joined by commas, records ended by a line feed. A reader
 * in the style of RFC 4180 (section 2, items 5 to 7) gives the layout a
 * meaning, so that a written document can be shown to read back as the
 * fields it was built from.
 */
module Csv {
  import opened Wrappers

  /** `s.replace(/"/g, '""')`: every double quote is doubled. */
  function Escape(s: string): (r: string)
    ensures |r| >= |s|
    ensures forall i :: 0 <= i < |s| && s[i] != '"' ==> s[i] in r
  {
    if s == [] then []
    else if s[0] == '"' then ['"', '"'] + Escape(s[1..])
    else [s[0]] + Escape(s[1..])
  }

  /** `s.replace(/""/g, '"')`: each pair of double quotes, left to right, becomes one. */
  function Unescape(s: string): (r: string)
    ensures |r| <= |s|
  {
    if s == [] then []
    else if |s| >= 2 && s[0] == '"' && s[1] == '"' then ['"'] + Unescape(s[2..])
    else [s[0]] + Unescape(s[1..])
  }

  /** A field that can stand unquoted: no separator, no quote, no line feed. */
  predicate Clean(s: string) {
    ',' !in s && '"' !in s && '\n' !in s
  }

  /** A field as written: verbatim, or inside quotes with its quotes doubled. */
  datatype Cell = Plain(text: string) | Quoted(text: string)

  function CellText(c: Cell): string {
    match c
    case Plain(s) => s
    case Quoted(s) => ['"'] + Escape(s) + ['"']
  }

  /** The fields of a record joined by commas. */
  function JoinCells(cells: seq<Cell>): string
    requires cells != []
  {
    if |cells| == 1 then CellText(cells[0])
    else CellText(cells[0]) + [','] + JoinCells(cells[1..])
  }

  function RecordText(cells: seq<Cell>): string
    requires cells != []
  {
    JoinCells(cells) + ['\n']
  }

  /** The records one after another. */
  function Document(rows: seq<seq<Cell>>): string
    requires forall i :: 0 <= i < |rows| ==> rows[i] != []
  {
    if rows == [] then [] else RecordText(rows[0]) + Document(rows[1..])
  }

  /** The values a reader should recover from a record. */
  function Texts(cells: seq<Cell>): (r: seq<string>)
    ensures |r| == |cells|
    ensures forall i :: 0 <= i < |cells| ==> r[i] == cells[i].text
  {
    if cells == [] then [] else [cells[0].text] + Texts(cells[1..])
  }

  /** Plain cells must be clean to be read back; quoted cells may hold anything. */
  predicate Readable(cells: seq<Cell>) {
    cells != [] && forall i :: 0 <= i < |cells| ==> cells[i].Plain? ==> Clean(cells[i].text)
  }

  lemma ReadableSlice(cells: seq<Cell>, lo: nat, hi: nat)
    requires Readable(cells) && lo < hi <= |cells|
    ensures Readable(cells[lo..hi])
  {
    forall i | 0 <= i < hi - lo ensures cells[lo..hi][i] == cells[lo + i] { }
  }

  lemma ReadableAfterEmpty(cells: seq<Cell>)
    requires Readable(cells)
    ensures Readable([Plain("")] + cells)
  {
    var r := [Plain("")] + cells;
    forall i | 0 < i < |r| ensures r[i] == cells[i - 1] { }
  }

  /** `Clean` stated character by character. */
  predicate CleanChars(s: string) {
    forall k :: 0 <= k < |s| ==> s[k] != ',' && s[k] != '"' && s[k] != '\n'
  }

  lemma CleanByChars(s: string)
    requires CleanChars(s)
    ensures Clean(s)
  {
  }

  lemma ReadableByChars(cells: seq<Cell>)
    requires cells != [] && forall i :: 0 <= i < |cells| ==> CleanChars(cells[i].text)
    ensures Readable(cells)
  {
    forall i | 0 <= i < |cells| ensures Clean(cells[i].text) {
      CleanByChars(cells[i].text);
    }
  }

  lemma TextsMatch(cells: seq<Cell>, names: seq<string>)
    requires |cells| == |names| && forall i :: 0 <= i < |cells| ==> cells[i].text == names[i]
    ensures Texts(cells) == names
  {
    var t := Texts(cells);
    assert forall i :: 0 <= i < |t| ==> t[i] == names[i];
  }

  // ---------------------------------------------------------------------
  // The reader

  /** An unquoted field: everything up to the next comma or line feed. */
  function ReadPlain(s: string): (r: (string, string))
    ensures r.0 + r.1 == s
    ensures r.1 == [] || r.1[0] == ',' || r.1[0] == '\n'
    ensures forall i :: 0 <= i < |r.0| ==> r.0[i] != ',' && r.0[i] != '\n'
  {
    if s == [] || s[0] == ',' || s[0] == '\n' then ([], s)
    else
      var (v, rest) := ReadPlain(s[1..]);
      var field := [s[0]] + v;
      assert field + rest == s by {
        assert field + rest == [s[0]] + (v + rest);
        assert s == [s[0]] + s[1..];
      }
      assert forall i :: 0 < i < |field| ==> field[i] == v[i - 1];
      (field, rest)
  }

  /** The inside of a quoted field, after its opening quote, through its closing quote. */
  function ReadQuoted(s: string): (r: Option<(string, string)>)
    ensures r.Some? ==> |r.value.1| < |s|
  {
    if s == [] then None
    else if s[0] == '"' then
      if |s| >= 2 && s[1] == '"' then
        match ReadQuoted(s[2..])
        case None => None
        case Some(p) => Some((['"'] + p.0, p.1))
      else Some(([], s[1..]))
    else
      match ReadQuoted(s[1..])
      case None => None
      case Some(p) => Some(([s[0]] + p.0, p.1))
  }

  /** A quoted field when the text starts with a quote, an unquoted one otherwise. */
  function ReadField(s: string): (r: Option<(string, string)>)
    ensures r.Some? ==> |r.value.1| <= |s|
    ensures s == [] || s[0] != '"' ==> r == Some(ReadPlain(s))
  {
    if s != [] && s[0] == '"' then ReadQuoted(s[1..]) else Some(ReadPlain(s))
  }

  /** One record: fields separated by commas, up to a line feed or the end of the text. */
  function ReadRecord(s: string): (r: Option<(seq<string>, string)>)
    ensures r.Some? ==> |r.value.1| <= |s| && (s != [] ==> |r.value.1| < |s|)
    ensures r.Some? ==> r.value.0 != []
    decreases |s|
  {
    match ReadField(s)
    case None => None
    case Some((v, rest)) =>
      if rest == [] then Some(([v], []))
      else if rest[0] == '\n' then Some(([v], rest[1..]))
      else if rest[0] == ',' then
        match ReadRecord(rest[1..])
        case None => None
        case Some((vs, rest')) => Some(([v] + vs, rest'))
      else None
  }

  /** A whole document, record by record; None when some record is malformed. */
  function ReadAll(s: string): (r: Option<seq<seq<string>>>)
    decreases |s|
  {
    if s == [] then Some([])
    else
      match ReadRecord(s)
      case None => None
      case Some((fields, rest)) =>
        match ReadAll(rest)
        case None => None
        case Some(records) => Some([fields] + records)
  }

  // ---------------------------------------------------------------------
  // Round trips

  /** Undoing the doubling gives back the original text. */
  lemma {:induction false} EscapeRoundTrip(s: string)
    ensures Unescape(Escape(s)) == s
  {
    if s != [] {
      EscapeRoundTrip(s[1..]);
      if s[0] == '"' {
        assert Escape(s) == ['"', '"'] + Escape(s[1..]);
        assert Escape(s)[2..] == Escape(s[1..]);
      } else {
        assert Escape(s) == [s[0]] + Escape(s[1..]);
        assert Escape(s)[1..] == Escape(s[1..]);
      }
      assert s == [s[0]] + s[1..];
    }
  }

  /** After escaping, every quote is one of a pair: no lone quote can end the field early. */
  lemma {:induction false} EscapedQuotesArePaired(s: string)
    ensures multiset(Escape(s))['"'] == 2 * multiset(s)['"']
  {
    if s != [] {
      EscapedQuotesArePaired(s[1..]);
      var head := if s[0] == '"' then ['"', '"'] else [s[0]];
      assert Escape(s) == head + Escape(s[1..]);
      assert multiset(Escape(s)) == multiset(head) + multiset(Escape(s[1..]));
      assert s == [s[0]] + s[1..];
      assert multiset(s) == multiset([s[0]]) + multiset(s[1..]);
    }
  }

  lemma {:induction false} ReadPlainClean(v: string, tail: string)
    requires Clean(v)
    requires tail == [] || tail[0] == ',' || tail[0] == '\n'
    ensures ReadPlain(v + tail) == (v, tail)
  {
    if v == [] {
      assert v + tail == tail;
    } else {
      var s := v + tail;
      assert v[0] in v && s[0] == v[0];
      assert s[1..] == v[1..] + tail;
      assert v == [v[0]] + v[1..];
      assert Clean(v[1..]) by {
        assert forall c :: c in v[1..] ==> c in v;
      }
      ReadPlainClean(v[1..], tail);
    }
  }

  /** The escaped text followed by the closing quote reads back as the text. */
  lemma {:induction false} ReadQuotedEscaped(v: string, tail: string)
    requires tail == [] || tail[0] != '"'
    ensures ReadQuoted(Escape(v) + ['"'] + tail) == Some((v, tail))
  {
    if v == [] {
      var s := Escape(v) + ['"'] + tail;
      assert s == ['"'] + tail;
      assert s[1..] == tail;
    } else {
      ReadQuotedEscaped(v[1..], tail);
      var s' := Escape(v[1..]) + ['"'] + tail;
      var head := if v[0] == '"' then ['"', '"'] else [v[0]];
      assert Escape(v) == head + Escape(v[1..]);
      AppendAssoc(head, Escape(v[1..]), ['"'], tail);
      assert Escape(v) + ['"'] + tail == head + s';
      if v[0] == '"' {
        ReadQuotedPair(s');
      } else {
        ReadQuotedChar(v[0], s');
      }
      assert v == [v[0]] + v[1..];
    }
  }

  lemma AppendAssoc(a: string, b: string, c: string, d: string)
    ensures ((a + b) + c) + d == a + ((b + c) + d)
  {
  }

  lemma AppendAssoc5(a: string, b: string, c: string, d: string, e: string)
    ensures (((a + b) + c) + d) + e == a + (b + ((c + d) + e))
  {
  }

  /** A doubled quote inside a quoted field reads as one quote. */
  lemma ReadQuotedPair(s: string)
    requires ReadQuoted(s).Some?
    ensures ReadQuoted(['"', '"'] + s) == Some((['"'] + ReadQuoted(s).value.0, ReadQuoted(s).value.1))
  {
    assert (['"', '"'] + s)[2..] == s;
  }

  /** Any other character inside a quoted field reads as itself. */
  lemma ReadQuotedChar(c: char, s: string)
    requires c != '"' && ReadQuoted(s).Some?
    ensures ReadQuoted([c] + s) == Some(([c] + ReadQuoted(s).value.0, ReadQuoted(s).value.1))
  {
    assert ([c] + s)[1..] == s;
  }

  lemma ReadCell(c: Cell, tail: string)
    requires c.Plain? ==> Clean(c.text)
    requires tail == [] || tail[0] == ',' || tail[0] == '\n'
    ensures ReadField(CellText(c) + tail) == Some((c.text, tail))
  {
    match c
    case Plain(v) =>
      ReadPlainClean(v, tail);
      if v != [] { assert (v + tail)[0] == v[0]; }
    case Quoted(v) =>
      var s := ['"'] + Escape(v) + ['"'] + tail;
      assert s[1..] == Escape(v) + ['"'] + tail;
      ReadQuotedEscaped(v, tail);
  }

  lemma ReadRecordEnd(s: string, v: string, rest: string)
    requires ReadField(s) == Some((v, rest)) && rest != [] && rest[0] == '\n'
    ensures ReadRecord(s) == Some(([v], rest[1..]))
  {
  }

  lemma ReadRecordNext(s: string, v: string, rest: string, vs: seq<string>, more: string)
    requires ReadField(s) == Some((v, rest)) && rest != [] && rest[0] == ','
    requires ReadRecord(rest[1..]) == Some((vs, more))
    ensures ReadRecord(s) == Some(([v] + vs, more))
  {
  }

  /** A written record reads back as the values of its cells, leaving what follows it. */
  lemma {:induction false} ReadRecordText(cells: seq<Cell>, more: string)
    requires Readable(cells)
    ensures ReadRecord(RecordText(cells) + more) == Some((Texts(cells), more))
  {
    if |cells| == 1 {
      ReadLastCell(cells, more);
    } else {
      assert Readable(cells[1..]) by {
        forall i | 0 <= i < |cells[1..]| ensures cells[1..][i] == cells[i + 1] { }
      }
      ReadRecordText(cells[1..], more);
      ReadNextCell(cells, more);
    }
  }

  lemma ReadLastCell(cells: seq<Cell>, more: string)
    requires Readable(cells) && |cells| == 1
    ensures ReadRecord(RecordText(cells) + more) == Some((Texts(cells), more))
  {
    var s := RecordText(cells) + more;
    var tail := ['\n'] + more;
    assert s == CellText(cells[0]) + tail;
    ReadCell(cells[0], tail);
    assert tail[1..] == more;
    ReadRecordEnd(s, cells[0].text, tail);
    assert Texts(cells) == [cells[0].text];
  }

  lemma ReadNextCell(cells: seq<Cell>, more: string)
    requires Readable(cells) && |cells| > 1
    requires ReadRecord(RecordText(cells[1..]) + more) == Some((Texts(cells[1..]), more))
    ensures ReadRecord(RecordText(cells) + more) == Some((Texts(cells), more))
  {
    var s := RecordText(cells) + more;
    var head := CellText(cells[0]);
    var rest := RecordText(cells[1..]) + more;
    var tail := [','] + rest;
    var j := JoinCells(cells[1..]);
    assert JoinCells(cells) == head + [','] + j;
    AppendAssoc5(head, [','], j, ['\n'], more);
    assert s == head + tail;
    ReadCell(cells[0], tail);
    assert tail[1..] == rest;
    ReadRecordNext(s, cells[0].text, tail, Texts(cells[1..]), more);
    assert Texts(cells) == [cells[0].text] + Texts(cells[1..]);
  }

  lemma ReadAllNext(s: string, fields: seq<string>, rest: string, records: seq<seq<string>>)
    requires s != [] && ReadRecord(s) == Some((fields, rest)) && ReadAll(rest) == Some(records)
    ensures ReadAll(s) == Some([fields] + records)
  {
  }

  /** A written document reads back as one record per row, each holding its cells' values. */
  lemma {:induction false} ReadDocument(rows: seq<seq<Cell>>)
    requires forall i :: 0 <= i < |rows| ==> rows[i] != [] && Readable(rows[i])
    ensures ReadAll(Document(rows)) == Some(seq(|rows|, i requires 0 <= i < |rows| => Texts(rows[i])))
  {
    if rows != [] {
      var s := Document(rows);
      var rest := Document(rows[1..]);
      assert s == RecordText(rows[0]) + rest;
      ReadRecordText(rows[0], rest);
      var later := rows[1..];
      assert forall i :: 0 <= i < |later| ==> later[i] == rows[i + 1];
      ReadDocument(later);
      TextRowsCons(rows);
      ReadAllNext(s, Texts(rows[0]), rest, seq(|later|, i requires 0 <= i < |later| => Texts(later[i])));
    } else {
      assert Document(rows) == [];
      assert ReadAll([]) == Some([]);
      assert seq(|rows|, i requires 0 <= i < |rows| => Texts(rows[i])) == [];
    }
  }

  lemma TextRowsCons(rows: seq<seq<Cell>>)
    requires rows != []
    ensures seq(|rows|, i requires 0 <= i < |rows| => Texts(rows[i]))
         == [Texts(rows[0])] + seq(|rows| - 1, i requires 0 <= i < |rows| - 1 => Texts(rows[1..][i]))
  {
    var want := seq(|rows|, i requires 0 <= i < |rows| => Texts(rows[i]));
    var tail := seq(|rows| - 1, i requires 0 <= i < |rows| - 1 => Texts(rows[1..][i]));
    assert forall i :: 0 < i < |want| ==> want[i] == tail[i - 1];
  }

  /** A first record followed by readable rows reads back record by record. */
  lemma ReadDocumentAfter(first: seq<Cell>, rows: seq<seq<Cell>>)
    requires Readable(first)
    requires forall i :: 0 <= i < |rows| ==> rows[i] != [] && Readable(rows[i])
    ensures ReadAll(Document([first] + rows))
         == Some([Texts(first)] + seq(|rows|, i requires 0 <= i < |rows| => Texts(rows[i])))
  {
    var all := [first] + rows;
    assert all[1..] == rows;
    assert forall i :: 0 < i < |all| ==> all[i] == rows[i - 1];
    ReadDocument(all);
    TextRowsCons(all);
  }

  lemma SingleDocument(row: seq<Cell>)
    requires row != []
    ensures Document([row]) == RecordText(row)
  {
    var rows: seq<seq<Cell>> := [row];
    assert rows[1..] == [];
  }

  lemma {:induction false} DocumentSnoc(rows: seq<seq<Cell>>, row: seq<Cell>)
    requires forall i :: 0 <= i < |rows| ==> rows[i] != []
    requires row != []
    ensures Document(rows + [row]) == Document(rows) + RecordText(row)
  {
    if rows == [] {
      assert rows + [row] == [row];
    } else {
      assert (rows + [row])[1..] == rows[1..] + [row];
      DocumentSnoc(rows[1..], row);
    }
  }

  // ---------------------------------------------------------------------
  // Numbers in decimal

  function DigitChar(d: int): (c: char)
    requires 0 <= d < 10
    ensures '0' <= c <= '9'
  {
    "0123456789"[d]
  }

  /** The decimal text of a non-negative number, as JavaScript writes an integer. */
  function NatText(n: nat): (r: string)
    ensures r != []
    ensures forall i :: 0 <= i < |r| ==> '0' <= r[i] <= '9'
  {
    if n < 10 then [DigitChar(n)] else NatText(n / 10) + [DigitChar(n % 10)]
  }

  /** The decimal text of an integer, with a leading minus sign when negative. */
  function IntText(n: int): (r: string)
    ensures Clean(r) && r != []
  {
    if n < 0 then ['-'] + NatText(-n) else NatText(n)
  }

  function DigitsValue(s: string): int
    requires forall i :: 0 <= i < |s| ==> '0' <= s[i] <= '9'
  {
    if s == [] then 0 else DigitsValue(s[..|s| - 1]) * 10 + (s[|s| - 1] - '0') as int
  }

  /** An integer's text reads back as the integer: its digits, after a minus sign when negative. */
  lemma IntTextValue(n: int)
    ensures n >= 0 ==>
      (forall i :: 0 <= i < |IntText(n)| ==> '0' <= IntText(n)[i] <= '9') && DigitsValue(IntText(n)) == n
    ensures n < 0 ==>
      var r := IntText(n);
      |r| > 1 && r[0] == '-' && (forall i :: 1 <= i < |r| ==> '0' <= r[i] <= '9') && DigitsValue(r[1..]) == -n
  {
    if n >= 0 {
      NatTextValue(n);
    } else {
      NatTextValue(-n);
      assert IntText(n)[1..] == NatText(-n);
    }
  }

  /** The decimal text reads back as the number: distinct ids give distinct texts. */
  lemma {:induction false} NatTextValue(n: nat)
    ensures DigitsValue(NatText(n)) == n
  {
    var r := NatText(n);
    if n < 10 {
      assert r[..0] == [];
      assert "0123456789"[n] as int - '0' as int == n;
    } else {
      NatTextValue(n / 10);
      assert r[..|r| - 1] == NatText(n / 10);
      assert "0123456789"[n % 10] as int - '0' as int == n % 10;
    }
  }
}
