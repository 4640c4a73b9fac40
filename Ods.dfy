/**
  The OpenDocument Spreadsheet export plugin: an append-only output buffer
  fed by the header, per-table and footer emitters, and the ladder that turns
  each result cell into a `table:table-cell` of one `office:value-type`.

  The document is described as an element tree (module Xml); the emitters
  append the serialisation of its parts, and the lemmas show that every
  emitted table, and the whole document, is well nested.
 */
module Ods {
  import opened Php
  import opened Xml

  // ---------------------------------------------------------------------
  // Inputs: field metadata, rows, options, aliases
  // ---------------------------------------------------------------------

  /** The column types the ladder asks about with `isType`. */
  datatype FieldType = TypeDate | TypeTime | TypeDateTime | TypeReal | TypeOther

  /** What the driver reports about one result column. */
  datatype FieldMeta = FieldMeta(
    name: string,
    fieldType: FieldType,
    isMappedTypeGeometry: bool,
    isBinary: bool,
    isBlob: bool,
    isNumeric: bool,
    isMappedTypeTimestamp: bool)

  /** A fetched row, by column number; a NULL column is `None`. */
  type Row = seq<Option<string>>

  /** An unbuffered result: its columns and the rows `fetchRow` hands out, in order. */
  datatype ResultSet = ResultSet(fields: seq<FieldMeta>, rows: seq<Row>)

  /** The `<what>_columns` flag (set or not) and the `<what>_null` replacement text. */
  datatype Options = Options(columns: bool, nullText: string)

  /**
    `date(format, strtotime(value))` for the three formats the plugin uses
    ('Y-m-d', 'PTHHiMsS' and 'Y-m-d\TH:i:s'); time zone and locale make these
    opaque.
   */
  datatype Formats = Formats(date: string -> string, time: string -> string, dateTime: string -> string)

  /** The aliases chosen for one table: its own alias and its columns' aliases. */
  datatype TableAliases = TableAliases(alias: string, columns: map<string, string>)

  /** Aliases by database, then by table. */
  type Aliases = map<string, map<string, TableAliases>>

  /** The table name written into `table:name`: a non-empty alias replaces the table's name. */
  function TableAlias(aliases: Aliases, db: string, table: string): (r: string)
    ensures r == table || (db in aliases && table in aliases[db] && r == aliases[db][table].alias && !EmptyString(r))
    ensures aliases == map[] ==> r == table
    ensures db in aliases && table in aliases[db] && !EmptyString(aliases[db][table].alias) ==>
              r == aliases[db][table].alias
  {
    if db in aliases && table in aliases[db] && !EmptyString(aliases[db][table].alias)
    then aliases[db][table].alias
    else table
  }

  /** The heading of a column: its alias when one is given and not empty, else its name. */
  function ColumnAlias(aliases: Aliases, db: string, table: string, name: string): (r: string)
    ensures r == name || (db in aliases && table in aliases[db] && name in aliases[db][table].columns
                          && r == aliases[db][table].columns[name] && !EmptyString(r))
  {
    if db in aliases && table in aliases[db] && name in aliases[db][table].columns
       && !EmptyString(aliases[db][table].columns[name])
    then aliases[db][table].columns[name]
    else name
  }

  lemma ColumnAliasChosen(aliases: Aliases, db: string, table: string, name: string)
    requires db in aliases && table in aliases[db] && name in aliases[db][table].columns
    ensures ColumnAlias(aliases, db, table, name) == name
            <==> EmptyString(aliases[db][table].columns[name]) || aliases[db][table].columns[name] == name
  {
  }

  // ---------------------------------------------------------------------
  // stripslashes and bin2hex
  // ---------------------------------------------------------------------

  /** `stripslashes`: a backslash escapes the next character, `\0` is NUL, a trailing backslash goes. */
  function StripSlashes(s: string): (r: string)
    ensures |r| <= |s|
    ensures '\\' !in s ==> r == s
    decreases |s|
  {
    if s == [] then []
    else if s[0] == '\\' then
      if |s| == 1 then []
      else (if s[1] == '0' then ['\0'] else [s[1]]) + StripSlashes(s[2..])
    else [s[0]] + StripSlashes(s[1..])
  }

  /** `addslashes`, the escaping `stripslashes` undoes. */
  function AddSlashes(s: string): (r: string)
    ensures |s| <= |r| <= 2 * |s|
  {
    if s == [] then []
    else (if s[0] == '\0' then "\\0"
          else if s[0] == '\'' || s[0] == '"' || s[0] == '\\' then ['\\', s[0]]
          else [s[0]]) + AddSlashes(s[1..])
  }

  lemma {:induction false} StripSlashesRoundTrip(s: string)
    ensures StripSlashes(AddSlashes(s)) == s
  {
    if s != [] {
      StripSlashesRoundTrip(s[1..]);
      var head := if s[0] == '\0' then "\\0"
                  else if s[0] == '\'' || s[0] == '"' || s[0] == '\\' then ['\\', s[0]]
                  else [s[0]];
      assert AddSlashes(s) == head + AddSlashes(s[1..]);
      if |head| == 2 {
        assert (head + AddSlashes(s[1..]))[2..] == AddSlashes(s[1..]);
      } else {
        assert (head + AddSlashes(s[1..]))[1..] == AddSlashes(s[1..]);
      }
    }
  }

  const HexDigits: string := "0123456789abcdef"

  predicate IsHexDigit(c: char) {
    ('0' <= c <= '9') || ('a' <= c <= 'f')
  }

  /** A PHP string is a string of bytes: a character here stands for one byte, its code taken mod 256. */
  function ByteOf(c: char): (b: nat)
    ensures b < 256
  {
    (c as int) % 256
  }

  function HexPair(c: char): (r: string)
    ensures |r| == 2 && IsHexDigit(r[0]) && IsHexDigit(r[1])
  {
    [HexDigits[ByteOf(c) / 16], HexDigits[ByteOf(c) % 16]]
  }

  /** `bin2hex`: two lower-case hex digits per byte. */
  function Bin2Hex(s: string): (r: string)
    ensures |r| == 2 * |s|
    ensures forall i :: 0 <= i < |r| ==> IsHexDigit(r[i])
  {
    if s == [] then [] else HexPair(s[0]) + Bin2Hex(s[1..])
  }

  function HexValue(c: char): nat {
    if '0' <= c <= '9' then c as int - '0' as int
    else if 'a' <= c <= 'f' then c as int - 'a' as int + 10
    else 0
  }

  /** `hex2bin`, the inverse of `bin2hex`. */
  function Hex2Bin(h: string): string
    decreases |h|
  {
    if |h| < 2 then [] else [(HexValue(h[0]) * 16 + HexValue(h[1])) as char] + Hex2Bin(h[2..])
  }

  lemma HexValueOfDigit(k: nat)
    requires k < 16
    ensures HexValue(HexDigits[k]) == k
  {
  }

  /** The two digits of a byte read back as that byte. */
  lemma HexPairValue(c: char)
    requires c as int < 256
    ensures (HexValue(HexPair(c)[0]) * 16 + HexValue(HexPair(c)[1])) as char == c
  {
    var b := ByteOf(c);
    HexValueOfDigit(b / 16);
    HexValueOfDigit(b % 16);
  }

  lemma {:induction false} Bin2HexRoundTrip(s: string)
    requires forall i :: 0 <= i < |s| ==> s[i] as int < 256
    ensures Hex2Bin(Bin2Hex(s)) == s
  {
    if s != [] {
      Bin2HexRoundTrip(s[1..]);
      var p, t := HexPair(s[0]), Bin2Hex(s[1..]);
      HexPairValue(s[0]);
      assert Bin2Hex(s) == p + t;
      assert (p + t)[0] == p[0] && (p + t)[1] == p[1] && (p + t)[2..] == t;
    }
  }

  // ---------------------------------------------------------------------
  // The value of a cell
  // ---------------------------------------------------------------------

  /** What rewriting a geometry value yields: a string, or the TypeError a NULL argument raises. */
  datatype Rewritten = Rewritten(value: string) | TypeError

  /**
    The geometry rewrite as written: `'0x' . bin2hex($row[$j])` applied to
    every geometry column, including a NULL one. The file declares
    `strict_types`, under which a NULL argument to `bin2hex` raises a
    TypeError instead of reaching the NULL branch of the ladder.
   */
  function GeometryAsWritten(v: Option<string>): (r: Rewritten)
    ensures r.TypeError? <==> v.None?
  {
    match v
    case None => TypeError
    case Some(s) => Rewritten("0x" + Bin2Hex(s))
  }

  /** The geometry rewrite as intended: a value becomes `0x` and its hex digits, NULL stays NULL. */
  function Geometry(v: Option<string>): (r: Option<string>)
    ensures r.None? <==> v.None?
    ensures v.Some? ==> r.value == "0x" + Bin2Hex(v.value) && GeometryAsWritten(v) == Rewritten(r.value)
  {
    match v
    case None => None
    case Some(s) => Some("0x" + Bin2Hex(s))
  }

  /** The value of column `j` in `row` as the ladder sees it; a column the row does not have is unset. */
  function CellValue(meta: FieldMeta, row: Row, j: nat): (r: Option<string>)
    ensures !meta.isMappedTypeGeometry ==> r == (if j < |row| then row[j] else None)
  {
    var v := if j < |row| then row[j] else None;
    if meta.isMappedTypeGeometry then Geometry(v) else v
  }

  // ---------------------------------------------------------------------
  // The dispatch ladder
  // ---------------------------------------------------------------------

  datatype CellKind = NullCell | BlobCell | DateCell | TimeCell | DateTimeCell | FloatCell | StringCell

  /** The condition of each rung of the ladder. */
  predicate Guard(k: CellKind, meta: FieldMeta, v: Option<string>) {
    match k
    case NullCell => v.None?
    case BlobCell => meta.isBinary && meta.isBlob
    case DateCell => meta.fieldType == TypeDate
    case TimeCell => meta.fieldType == TypeTime
    case DateTimeCell => meta.fieldType == TypeDateTime
    case FloatCell => (meta.isNumeric && !meta.isMappedTypeTimestamp && !meta.isBlob) || meta.fieldType == TypeReal
    case StringCell => true
  }

  /** The position of each rung, top first. */
  function Rung(k: CellKind): nat {
    match k
    case NullCell => 0
    case BlobCell => 1
    case DateCell => 2
    case TimeCell => 3
    case DateTimeCell => 4
    case FloatCell => 5
    case StringCell => 6
  }

  /** The rung a cell takes: the first, from the top, whose condition holds. */
  function Dispatch(meta: FieldMeta, v: Option<string>): (k: CellKind)
    ensures Guard(k, meta, v)
    ensures forall e :: Rung(e) < Rung(k) ==> !Guard(e, meta, v)
  {
    if v.None? then NullCell
    else if meta.isBinary && meta.isBlob then BlobCell
    else if meta.fieldType == TypeDate then DateCell
    else if meta.fieldType == TypeTime then TimeCell
    else if meta.fieldType == TypeDateTime then DateTimeCell
    else if (meta.isNumeric && !meta.isMappedTypeTimestamp && !meta.isBlob) || meta.fieldType == TypeReal then FloatCell
    else StringCell
  }

  /** Exactly one rung applies: any rung whose condition holds with none above it is the one taken. */
  lemma DispatchUnique(meta: FieldMeta, v: Option<string>, k: CellKind)
    requires Guard(k, meta, v)
    requires forall e :: Rung(e) < Rung(k) ==> !Guard(e, meta, v)
    ensures Dispatch(meta, v) == k
  {
  }

  /**
    As written, a NULL geometry column never reaches the NULL rung: the
    rewrite raises a TypeError first, although the corrected rewrite sends
    it to the NULL rung.
   */
  lemma GeometryNullCounterexample(meta: FieldMeta)
    requires meta.isMappedTypeGeometry
    ensures GeometryAsWritten(None) == TypeError
    ensures Dispatch(meta, CellValue(meta, [None], 0)) == NullCell
  {
  }

  /** A geometry value is rewritten before the ladder, so it is NULL only when the column was. */
  lemma GeometryNullOnlyWhenNull(meta: FieldMeta, row: Row, j: nat)
    requires meta.isMappedTypeGeometry
    ensures Dispatch(meta, CellValue(meta, row, j)) == NullCell <==> (j >= |row| || row[j].None?)
  {
  }

  // ---------------------------------------------------------------------
  // The cells
  // ---------------------------------------------------------------------

  const TableCellName: string := "table:table-cell"
  const RowName: string := "table:table-row"
  const TableName: string := "table:table"
  /** The `office:value-type` attribute every cell starts with. */
  function ValueType(t: string): string {
    Attr("office:value-type", t)
  }

  /** `<text:p>text</text:p>` */
  function Para(text: string): Node {
    Element("text:p", "", [Text(text)])
  }

  function StringCellNode(text: string): Node {
    Element(TableCellName, ValueType("string"), [Para(text)])
  }

  /** A date or time cell: its type, the formatted instant, the style it names, and the value as text. */
  function DatedCell(t: string, attr: string, formatted: string, style: string, value: string): Node {
    Element(TableCellName, ValueType(t) + Attr(attr, formatted) + Attr("table:style-name", style), [Para(HtmlEscape(value))])
  }

  /** The cell the ladder writes for value `v` of a column described by `meta`. */
  function CellNode(meta: FieldMeta, v: Option<string>, nullText: string, formats: Formats): (n: Node)
    ensures n.Element? && n.name == TableCellName
    ensures Dispatch(meta, v) == NullCell ==> n == StringCellNode(HtmlEscape(nullText))
    ensures Dispatch(meta, v) == BlobCell ==> n.children == [Element("text:p", "", [])]
    ensures Dispatch(meta, v) in {BlobCell, StringCell} ==> n.attrs == ValueType("string")
    ensures Dispatch(meta, v) !in {NullCell, BlobCell} ==> v.Some? && n.children == [Para(HtmlEscape(v.value))]
    ensures Dispatch(meta, v) == FloatCell ==> n.attrs == ValueType("float") + Attr("office:value", v.value) + " "
    ensures Dispatch(meta, v) == DateCell ==>
              n.attrs == ValueType("date") + Attr("office:date-value", formats.date(v.value)) + Attr("table:style-name", "DateCell")
    ensures Dispatch(meta, v) == TimeCell ==>
              n.attrs == ValueType("time") + Attr("office:time-value", formats.time(v.value)) + Attr("table:style-name", "TimeCell")
    ensures Dispatch(meta, v) == DateTimeCell ==>
              n.attrs == ValueType("date") + Attr("office:date-value", formats.dateTime(v.value)) + Attr("table:style-name", "DateTimeCell")
  {
    match Dispatch(meta, v)
    case NullCell => StringCellNode(HtmlEscape(nullText))
    case BlobCell => Element(TableCellName, ValueType("string"), [Element("text:p", "", [])])
    case DateCell => DatedCell("date", "office:date-value", formats.date(v.value), "DateCell", v.value)
    case TimeCell => DatedCell("time", "office:time-value", formats.time(v.value), "TimeCell", v.value)
    case DateTimeCell => DatedCell("date", "office:date-value", formats.dateTime(v.value), "DateTimeCell", v.value)
    case FloatCell =>
      Element(TableCellName, ValueType("float") + Attr("office:value", v.value) + " ", [Para(HtmlEscape(v.value))])
    case StringCell => StringCellNode(HtmlEscape(v.value))
  }

  /** The text of every cell that holds a value unescapes back to that value. */
  lemma CellTextRoundTrip(meta: FieldMeta, v: Option<string>, nullText: string, formats: Formats)
    requires v.Some? && !(meta.isBinary && meta.isBlob)
    ensures var n := CellNode(meta, v, nullText, formats);
      exists t :: n.children == [Para(t)] && HtmlUnescape(t) == v.value
  {
    HtmlEscapeRoundTrip(v.value);
    var n := CellNode(meta, v, nullText, formats);
    assert n.children == [Para(HtmlEscape(v.value))];
  }

  /** The header row: one string cell per column, holding its heading unslashed and escaped. */
  function HeaderRow(fields: seq<FieldMeta>, aliases: Aliases, db: string, table: string): (n: Node)
    ensures n.Element? && n.name == RowName && |n.children| == |fields|
  {
    Element(RowName, "", seq(|fields|, i requires 0 <= i < |fields| =>
      StringCellNode(HtmlEscape(StripSlashes(ColumnAlias(aliases, db, table, fields[i].name))))))
  }

  /** A data row: one cell per column, whatever the row holds. */
  function DataRow(fields: seq<FieldMeta>, row: Row, nullText: string, formats: Formats): (n: Node)
    ensures n.Element? && n.name == RowName && |n.children| == |fields|
  {
    Element(RowName, "", seq(|fields|, j requires 0 <= j < |fields| =>
      CellNode(fields[j], CellValue(fields[j], row, j), nullText, formats)))
  }

  function DataRows(fields: seq<FieldMeta>, rows: seq<Row>, nullText: string, formats: Formats): (ns: seq<Node>)
    ensures |ns| == |rows|
  {
    seq(|rows|, r requires 0 <= r < |rows| => DataRow(fields, rows[r], nullText, formats))
  }

  lemma HeaderRowAt(fields: seq<FieldMeta>, aliases: Aliases, db: string, table: string, i: nat)
    requires i < |fields|
    ensures HeaderRow(fields, aliases, db, table).children[i]
            == StringCellNode(HtmlEscape(StripSlashes(ColumnAlias(aliases, db, table, fields[i].name))))
  {
  }

  lemma DataRowAt(fields: seq<FieldMeta>, row: Row, j: nat, nullText: string, formats: Formats)
    requires j < |fields|
    ensures DataRow(fields, row, nullText, formats).children[j] == CellNode(fields[j], CellValue(fields[j], row, j), nullText, formats)
  {
  }

  lemma DataRowsAt(fields: seq<FieldMeta>, rows: seq<Row>, r: nat, nullText: string, formats: Formats)
    requires r < |rows|
    ensures DataRows(fields, rows, nullText, formats)[r] == DataRow(fields, rows[r], nullText, formats)
  {
  }

  /** How many rows the fetch loop takes: it stops at the end or at the first empty row. */
  function Fetched(rows: seq<Row>): (n: nat)
    ensures n <= |rows|
    ensures forall i :: 0 <= i < n ==> rows[i] != []
    ensures n < |rows| ==> rows[n] == []
  {
    if rows == [] || rows[0] == [] then 0 else 1 + Fetched(rows[1..])
  }

  /** The header row, when the columns option asks for one. */
  function Heading(columns: bool, fields: seq<FieldMeta>, aliases: Aliases, db: string, table: string): (ns: seq<Node>)
    ensures |ns| == (if columns then 1 else 0)
  {
    if columns then [HeaderRow(fields, aliases, db, table)] else []
  }

  /** The table `exportData` writes. */
  function TableNode(db: string, table: string, rs: ResultSet, options: Options, formats: Formats, aliases: Aliases): (n: Node)
    ensures n.Element? && n.name == TableName
    ensures n.attrs == Attr("table:name", HtmlEscape(TableAlias(aliases, db, table)))
  {
    Element(TableName, Attr("table:name", HtmlEscape(TableAlias(aliases, db, table))),
            Heading(options.columns, rs.fields, aliases, db, table)
            + DataRows(rs.fields, rs.rows[..Fetched(rs.rows)], options.nullText, formats))
  }

  /** The table holds the header row when asked for, then one row per fetched row. */
  lemma TableShape(db: string, table: string, rs: ResultSet, options: Options, formats: Formats, aliases: Aliases)
    ensures var n := TableNode(db, table, rs, options, formats, aliases);
      |n.children| == (if options.columns then 1 else 0) + Fetched(rs.rows)
      && (options.columns ==> n.children[0] == HeaderRow(rs.fields, aliases, db, table))
  {
  }

  /** Each fetched row becomes one table row, with one cell per column. */
  lemma TableRows(db: string, table: string, rs: ResultSet, options: Options, formats: Formats, aliases: Aliases)
    ensures var n := TableNode(db, table, rs, options, formats, aliases);
      var h := if options.columns then 1 else 0;
      forall r :: 0 <= r < Fetched(rs.rows) ==>
        h + r < |n.children|
        && n.children[h + r] == DataRow(rs.fields, rs.rows[r], options.nullText, formats)
        && |n.children[h + r].children| == |rs.fields|
  {
    var head := Heading(options.columns, rs.fields, aliases, db, table);
    var fetched := rs.rows[..Fetched(rs.rows)];
    var body := DataRows(rs.fields, fetched, options.nullText, formats);
    forall r | 0 <= r < Fetched(rs.rows)
      ensures (head + body)[|head| + r] == DataRow(rs.fields, rs.rows[r], options.nullText, formats)
    {
      ConcatRight(head, body, r);
      DataRowsAt(rs.fields, fetched, r, options.nullText, formats);
      assert fetched[r] == rs.rows[r];
    }
  }

  // ---------------------------------------------------------------------
  // Well-formedness of what is written
  // ---------------------------------------------------------------------

  /** The date formats yield no angle bracket (they yield digits and separators). */
  ghost predicate SafeFormats(formats: Formats) {
    forall s :: NoAngle(formats.date(s)) && NoAngle(formats.time(s)) && NoAngle(formats.dateTime(s))
  }

  /** The value of a float cell goes into an attribute unescaped: it must hold no angle bracket. */
  predicate SafeFloat(meta: FieldMeta, v: Option<string>) {
    Dispatch(meta, v) == FloatCell ==> NoAngle(v.value)
  }

  predicate SafeFloats(rs: ResultSet) {
    forall r, j :: 0 <= r < |rs.rows| && 0 <= j < |rs.fields| ==>
      SafeFloat(rs.fields[j], CellValue(rs.fields[j], rs.rows[r], j))
  }

  /** The fixed names and attribute words of the cells hold no angle bracket. */
  lemma CellWords()
    ensures ValidName("text:p") && ValidName(TableCellName) && ValidName(TableName) && ValidName(RowName)
    ensures NoAngle("office:value-type") && NoAngle("string") && NoAngle("float") && NoAngle("office:value")
    ensures NoAngle("table:name")
  {
    NameOf("text:p");
    NameOf(TableCellName);
    NameOf(TableName);
    NameOf(RowName);
    NoAngleOf("office:value-type");
    NoAngleOf("string");
    NoAngleOf("float");
    NoAngleOf("office:value");
    NoAngleOf("table:name");
  }

  lemma DatedCellWords()
    ensures NoAngle("date") && NoAngle("time") && NoAngle("office:date-value") && NoAngle("office:time-value")
    ensures NoAngle("DateCell") && NoAngle("TimeCell") && NoAngle("DateTimeCell") && NoAngle("table:style-name")
  {
    NoAngleOf("date");
    NoAngleOf("time");
    NoAngleOf("office:date-value");
    NoAngleOf("office:time-value");
    NoAngleOf("DateCell");
    NoAngleOf("TimeCell");
    NoAngleOf("DateTimeCell");
    NoAngleOf("table:style-name");
  }

  lemma ParaWellFormed(text: string)
    requires '<' !in text
    ensures WellFormed(Para(text)) && WellFormedAll([Para(text)])
  {
    CellWords();
    WellFormedSingle(Text(text));
    WellFormedSingle(Para(text));
  }

  lemma StringCellWellFormed(text: string)
    requires '<' !in text
    ensures WellFormed(StringCellNode(text))
  {
    assert WellFormedAll([Para(text)]) by {
      ParaWellFormed(text);
    }
    assert ValidAttrs(ValueType("string")) by {
      CellWords();
      AttrValid("office:value-type", "string");
    }
    CellWords();
  }

  lemma DatedCellWellFormed(t: string, attr: string, formatted: string, style: string, value: string)
    requires NoAngle(t) && NoAngle(attr) && NoAngle(formatted) && NoAngle(style)
    ensures WellFormed(DatedCell(t, attr, formatted, style, value))
  {
    CellWords();
    DatedCellWords();
    ThreeAttrsValid("office:value-type", t, attr, formatted, "table:style-name", style);
    ParaCellWellFormed(ValueType(t) + Attr(attr, formatted) + Attr("table:style-name", style), HtmlEscape(value));
  }

  lemma FloatCellWellFormed(value: string)
    requires NoAngle(value)
    ensures WellFormed(Element(TableCellName, ValueType("float") + Attr("office:value", value) + " ", [Para(HtmlEscape(value))]))
  {
    assert ValidAttrs(ValueType("float") + Attr("office:value", value) + " ") by {
      TwoAttrsValid("office:value-type", "float", "office:value", value);
      AttrsConcatValid(ValueType("float") + Attr("office:value", value), " ");
    }
    ParaCellWellFormed(ValueType("float") + Attr("office:value", value) + " ", HtmlEscape(value));
  }

  /** A cell holding one paragraph is well formed when its attributes are and its text has no `<`. */
  lemma ParaCellWellFormed(attrs: string, text: string)
    requires ValidAttrs(attrs) && '<' !in text
    ensures WellFormed(Element(TableCellName, attrs, [Para(text)]))
  {
    ParaWellFormed(text);
      }

  lemma BlobCellWellFormed()
    ensures WellFormed(Element(TableCellName, ValueType("string"), [Element("text:p", "", [])]))
  {
    CellWords();
    assert WellFormedAll([Element("text:p", "", [])]) by {
      WellFormedSingle(Element("text:p", "", []));
    }
    assert ValidAttrs(ValueType("string")) by {
      AttrValid("office:value-type", "string");
    }
  }

  lemma CellWellFormed(meta: FieldMeta, v: Option<string>, nullText: string, formats: Formats)
    requires SafeFormats(formats) && SafeFloat(meta, v)
    ensures WellFormed(CellNode(meta, v, nullText, formats))
  {
    DatedCellWords();
    match Dispatch(meta, v)
    case NullCell =>
      StringCellWellFormed(HtmlEscape(nullText));
    case BlobCell =>
      BlobCellWellFormed();
    case StringCell =>
      StringCellWellFormed(HtmlEscape(v.value));
    case DateCell =>
      DatedCellWellFormed("date", "office:date-value", formats.date(v.value), "DateCell", v.value);
    case TimeCell =>
      DatedCellWellFormed("time", "office:time-value", formats.time(v.value), "TimeCell", v.value);
    case DateTimeCell =>
      DatedCellWellFormed("date", "office:date-value", formats.dateTime(v.value), "DateTimeCell", v.value);
    case FloatCell =>
      FloatCellWellFormed(v.value);
  }

  lemma RowWellFormed(fields: seq<FieldMeta>, row: Row, nullText: string, formats: Formats)
    requires SafeFormats(formats)
    requires forall j :: 0 <= j < |fields| ==> SafeFloat(fields[j], CellValue(fields[j], row, j))
    ensures WellFormed(DataRow(fields, row, nullText, formats))
  {
    var n := DataRow(fields, row, nullText, formats);
    CellWords();
    forall j | 0 <= j < |n.children| ensures WellFormed(n.children[j]) {
      DataRowAt(fields, row, j, nullText, formats);
      CellWellFormed(fields[j], CellValue(fields[j], row, j), nullText, formats);
    }
    WellFormedAllOf(n.children);
  }

  lemma HeaderWellFormed(fields: seq<FieldMeta>, aliases: Aliases, db: string, table: string)
    ensures WellFormed(HeaderRow(fields, aliases, db, table))
  {
    var n := HeaderRow(fields, aliases, db, table);
    CellWords();
    forall i | 0 <= i < |n.children| ensures WellFormed(n.children[i]) {
      HeaderRowAt(fields, aliases, db, table, i);
      StringCellWellFormed(HtmlEscape(StripSlashes(ColumnAlias(aliases, db, table, fields[i].name))));
    }
    WellFormedAllOf(n.children);
  }

  lemma TableWellFormed(db: string, table: string, rs: ResultSet, options: Options, formats: Formats, aliases: Aliases)
    requires SafeFormats(formats) && SafeFloats(rs)
    ensures WellFormed(TableNode(db, table, rs, options, formats, aliases))
  {
    var head := Heading(options.columns, rs.fields, aliases, db, table);
    var fetched := rs.rows[..Fetched(rs.rows)];
    var body := DataRows(rs.fields, fetched, options.nullText, formats);
    forall i | 0 <= i < |head| ensures WellFormed(head[i]) {
      HeaderWellFormed(rs.fields, aliases, db, table);
    }
    forall r | 0 <= r < |body| ensures WellFormed(body[r]) {
      DataRowsAt(rs.fields, fetched, r, options.nullText, formats);
      assert fetched[r] == rs.rows[r];
      RowWellFormed(rs.fields, rs.rows[r], options.nullText, formats);
    }
    WellFormedConcat(head, body);
    CellWords();
    AttrValid("table:name", HtmlEscape(TableAlias(aliases, db, table)));
    ElementWellFormed(TableName, Attr("table:name", HtmlEscape(TableAlias(aliases, db, table))), head + body);
  }


  /** Every table `exportData` writes is well nested: each table, row and cell it opens it closes. */
  lemma TableWellNested(db: string, table: string, rs: ResultSet, options: Options, formats: Formats, aliases: Aliases)
    requires SafeFormats(formats) && SafeFloats(rs)
    ensures WellNested(Render(TableNode(db, table, rs, options, formats, aliases)))
  {
    TableWellFormed(db, table, rs, options, formats, aliases);
    RenderWellNested(TableNode(db, table, rs, options, formats, aliases));
  }

  // ---------------------------------------------------------------------
  // The document around the tables
  // ---------------------------------------------------------------------

  /** The body of the XML declaration: `?xml version="1.0" encoding="utf-8"?`. */
  const DeclarationBody: string := "?xml" + Attr("version", "1.0") + Attr("encoding", "utf-8") + "?"

  /** The fields a number style shows, and the separators between them. */
  datatype Unit = Month | Day | Year | Hours | Minutes | Seconds | AmPm
  datatype Separator = Slash | Colon | Blank
  datatype StylePart = Field(unit: Unit, long: bool) | Sep(sep: Separator)

  function UnitName(u: Unit): string {
    match u
    case Month => "number:month"
    case Day => "number:day"
    case Year => "number:year"
    case Hours => "number:hours"
    case Minutes => "number:minutes"
    case Seconds => "number:seconds"
    case AmPm => "number:am-pm"
  }

  function SeparatorText(s: Separator): string {
    match s
    case Slash => "/"
    case Colon => ":"
    case Blank => " "
  }

  /** `<number:month number:style="long"/>`, `<number:year/>`, `<number:text>/</number:text>` and the like. */
  function PartNode(p: StylePart): Node {
    match p
    case Field(u, long) => EmptyElement(UnitName(u), if long then Attr("number:style", "long") else "")
    case Sep(s) => Element("number:text", "", [Text(SeparatorText(s))])
  }

  /** A number style: its kind, its attributes and its parts in order. */
  function NumberStyle(kind: string, attrs: string, parts: seq<StylePart>): Node {
    Element(kind, attrs, seq(|parts|, i requires 0 <= i < |parts| => PartNode(parts[i])))
  }

  function CellStyle(name: string, dataStyle: string): Node {
    EmptyElement("style:style", Attr("style:name", name) + Attr("style:family", "table-cell")
                                + Attr("style:parent-style-name", "Default") + Attr("style:data-style-name", dataStyle))
  }

  /** N37: month/day/year. */
  function DateStyle(): Node {
    NumberStyle("number:date-style", Attr("style:name", "N37") + Attr("number:automatic-order", "true"),
                [Field(Month, true), Sep(Slash), Field(Day, true), Sep(Slash), Field(Year, false)])
  }

  /** N43: hours:minutes:seconds am/pm. */
  function TimeStyle(): Node {
    NumberStyle("number:time-style", Attr("style:name", "N43"),
                [Field(Hours, true), Sep(Colon), Field(Minutes, true), Sep(Colon), Field(Seconds, true), Sep(Blank),
                 Field(AmPm, false)])
  }

  /** N50: month/day/year hours:minutes am/pm. */
  function DateTimeStyle(): Node {
    NumberStyle("number:date-style",
                Attr("style:name", "N50") + Attr("number:automatic-order", "true") + Attr("number:format-source", "language"),
                [Field(Month, false), Sep(Slash), Field(Day, false), Sep(Slash), Field(Year, false), Sep(Blank),
                 Field(Hours, true), Sep(Colon), Field(Minutes, true), Sep(Blank), Field(AmPm, false)])
  }

  /** The number styles and the three cell styles the dated cells name. */
  function AutomaticStyles(): Node {
    Element("office:automatic-styles", "",
            [DateStyle(), TimeStyle(), DateTimeStyle(),
             CellStyle("DateCell", "N37"), CellStyle("TimeCell", "N43"), CellStyle("DateTimeCell", "N50")])
  }

  /** The attributes of `office:document-content`: the namespace declarations, then the version. */
  function ContentAttrs(ns: string): string {
    " " + ns + Attr("office:version", "1.0")
  }

  const DocumentName: string := "office:document-content"
  const BodyName: string := "office:body"
  const SheetName: string := "office:spreadsheet"

  /** The declaration, the open document with the given styles, the open body and spreadsheet. */
  function Prolog(ns: string, styles: Node): string {
    ("<" + DeclarationBody + ">")
    + ("<" + DocumentName + ContentAttrs(ns) + ">")
    + Render(styles)
    + ("<" + BodyName + ">")
    + ("<" + SheetName + ">")
  }

  /** What `exportHeader` appends: the prolog with the plugin's automatic styles. */
  function HeaderXml(ns: string): string {
    Prolog(ns, AutomaticStyles())
  }

  /** What `exportFooter` appends: the closing tags of what the header opened. */
  const FooterXml: string := ("</" + SheetName + ">") + ("</" + BodyName + ">") + ("</" + DocumentName + ">")

  /** The whole content document as a tree, given the styles and the tables written between header and footer. */
  function DocumentNode(ns: string, styles: Node, tables: seq<Node>): Node {
    Element(DocumentName, ContentAttrs(ns), [styles, BodyNode(tables)])
  }

  function BodyNode(tables: seq<Node>): Node {
    Element(BodyName, "", [Element(SheetName, "", tables)])
  }

  lemma Flatten(d: string, o: string, s: string, b: string, p: string, t: string, pc: string, bc: string, oc: string)
    ensures (d + o + s + b + p) + t + (pc + bc + oc) == d + (o + (s + (b + (p + t + pc) + bc)) + oc)
  {
  }

  /** An element without attributes: its start tag, its children, its end tag. */
  lemma RenderBare(name: string, children: seq<Node>)
    ensures Render(Element(name, "", children)) == ("<" + name + ">") + RenderAll(children) + ("</" + name + ">")
  {
    RenderElement(name, "", children);
    assert name + "" == name;
  }

  lemma BodyRender(tables: seq<Node>)
    ensures Render(BodyNode(tables))
            == ("<" + BodyName + ">") + (("<" + SheetName + ">") + RenderAll(tables) + ("</" + SheetName + ">"))
               + ("</" + BodyName + ">")
  {
    var sheet := Element(SheetName, "", tables);
    RenderBare(SheetName, tables);
    RenderBare(BodyName, [sheet]);
    RenderAllPair(sheet, sheet);
  }

  lemma DocumentNodeRender(ns: string, styles: Node, tables: seq<Node>)
    ensures Render(DocumentNode(ns, styles, tables))
            == ("<" + DocumentName + ContentAttrs(ns) + ">") + (Render(styles) + Render(BodyNode(tables)))
               + ("</" + DocumentName + ">")
  {
    RenderElement(DocumentName, ContentAttrs(ns), [styles, BodyNode(tables)]);
    RenderAllPair(styles, BodyNode(tables));
  }

  /** Header, tables and footer together are the declaration followed by the document tree. */
  lemma DocumentRender(ns: string, styles: Node, tables: seq<Node>)
    ensures Prolog(ns, styles) + RenderAll(tables) + FooterXml == "<" + DeclarationBody + ">" + Render(DocumentNode(ns, styles, tables))
  {
    var d, o, st := "<" + DeclarationBody + ">", "<" + DocumentName + ContentAttrs(ns) + ">", Render(styles);
    var b, p, t := "<" + BodyName + ">", "<" + SheetName + ">", RenderAll(tables);
    var pc, bc, oc := "</" + SheetName + ">", "</" + BodyName + ">", "</" + DocumentName + ">";
    Flatten(d, o, st, b, p, t, pc, bc, oc);
    BodyRender(tables);
    DocumentNodeRender(ns, styles, tables);
  }

  lemma UnitNameValid(u: Unit)
    ensures ValidName(UnitName(u))
  {
    NameOf(UnitName(u));
  }

  lemma FieldWellFormed(u: Unit, long: bool)
    ensures WellFormed(PartNode(Field(u, long)))
  {
    UnitNameValid(u);
    if long {
      AttrValid("number:style", "long");
    }
  }

  lemma SeparatorWellFormed(sep: Separator)
    ensures WellFormed(PartNode(Sep(sep)))
  {
    assert '<' !in SeparatorText(sep);
    WellFormedSingle(Text(SeparatorText(sep)));
    NameOf("number:text");
  }

  lemma PartWellFormed(p: StylePart)
    ensures WellFormed(PartNode(p))
  {
    match p
    case Field(u, long) => FieldWellFormed(u, long);
    case Sep(sep) => SeparatorWellFormed(sep);
  }

  lemma NumberStyleAt(kind: string, attrs: string, parts: seq<StylePart>, i: nat)
    requires i < |parts|
    ensures NumberStyle(kind, attrs, parts).children[i] == PartNode(parts[i])
  {
  }

  lemma NumberStyleWellFormed(kind: string, attrs: string, parts: seq<StylePart>)
    requires ValidName(kind) && ValidAttrs(attrs)
    ensures WellFormed(NumberStyle(kind, attrs, parts))
  {
    var n := NumberStyle(kind, attrs, parts);
    forall i | 0 <= i < |n.children| ensures WellFormed(n.children[i]) {
      NumberStyleAt(kind, attrs, parts, i);
      PartWellFormed(parts[i]);
    }
    ElementWellFormed(kind, attrs, n.children);
  }

  lemma CellStyleWellFormed(name: string, dataStyle: string)
    requires NoAngle(name) && NoAngle(dataStyle)
    ensures WellFormed(CellStyle(name, dataStyle))
  {
    CellStyleWords();
    FourAttrsValid("style:name", name, "style:family", "table-cell",
                   "style:parent-style-name", "Default", "style:data-style-name", dataStyle);
  }

  lemma CellStyleWords()
    ensures ValidName("style:style") && NoAngle("style:name") && NoAngle("style:family") && NoAngle("table-cell")
    ensures NoAngle("style:parent-style-name") && NoAngle("Default") && NoAngle("style:data-style-name")
  {
    NameOf("style:style");
    NoAngleOf("style:name");
    NoAngleOf("style:family");
    NoAngleOf("table-cell");
    NoAngleOf("style:parent-style-name");
    NoAngleOf("Default");
    NoAngleOf("style:data-style-name");
  }

  lemma StyleKindsValid()
    ensures ValidName("number:date-style") && ValidName("number:time-style")
  {
    NameOf("number:date-style");
    NameOf("number:time-style");
  }

  lemma DateStyleWords()
    ensures NoAngle("style:name") && NoAngle("number:automatic-order") && NoAngle("true")
    ensures NoAngle("number:format-source") && NoAngle("language")
    ensures NoAngle("N37") && NoAngle("N43") && NoAngle("N50")
  {
    NoAngleOf("style:name");
    NoAngleOf("number:automatic-order");
    NoAngleOf("true");
    NoAngleOf("number:format-source");
    NoAngleOf("language");
    NoAngleOf("N37");
    NoAngleOf("N43");
    NoAngleOf("N50");
  }

  lemma DateAttrsValid()
    ensures ValidAttrs(Attr("style:name", "N37") + Attr("number:automatic-order", "true"))
    ensures ValidAttrs(Attr("style:name", "N43"))
    ensures ValidAttrs(Attr("style:name", "N50") + Attr("number:automatic-order", "true") + Attr("number:format-source", "language"))
  {
    DateStyleWords();
    TwoAttrsValid("style:name", "N37", "number:automatic-order", "true");
    AttrValid("style:name", "N43");
    ThreeAttrsValid("style:name", "N50", "number:automatic-order", "true", "number:format-source", "language");
  }

  lemma DateStyleWellFormed()
    ensures WellFormed(DateStyle())
  {
    StyleKindsValid();
    DateAttrsValid();
    NumberStyleWellFormed("number:date-style", Attr("style:name", "N37") + Attr("number:automatic-order", "true"),
                          [Field(Month, true), Sep(Slash), Field(Day, true), Sep(Slash), Field(Year, false)]);
  }

  lemma TimeStyleWellFormed()
    ensures WellFormed(TimeStyle())
  {
    StyleKindsValid();
    DateAttrsValid();
    NumberStyleWellFormed("number:time-style", Attr("style:name", "N43"),
                          [Field(Hours, true), Sep(Colon), Field(Minutes, true), Sep(Colon), Field(Seconds, true), Sep(Blank),
                           Field(AmPm, false)]);
  }

  lemma DateTimeStyleWellFormed()
    ensures WellFormed(DateTimeStyle())
  {
    StyleKindsValid();
    DateAttrsValid();
    NumberStyleWellFormed("number:date-style",
                          Attr("style:name", "N50") + Attr("number:automatic-order", "true") + Attr("number:format-source", "language"),
                          [Field(Month, false), Sep(Slash), Field(Day, false), Sep(Slash), Field(Year, false), Sep(Blank),
                           Field(Hours, true), Sep(Colon), Field(Minutes, true), Sep(Blank), Field(AmPm, false)]);
  }

  lemma StylesWellFormed()
    ensures WellFormed(AutomaticStyles())
  {
    DateStyleWellFormed();
    TimeStyleWellFormed();
    DateTimeStyleWellFormed();
    CellStylesWellFormed();
    StylesNameValid();
    SixWellFormed(DateStyle(), TimeStyle(), DateTimeStyle(),
                  CellStyle("DateCell", "N37"), CellStyle("TimeCell", "N43"), CellStyle("DateTimeCell", "N50"));
  }

  lemma CellStylesWellFormed()
    ensures WellFormed(CellStyle("DateCell", "N37"))
    ensures WellFormed(CellStyle("TimeCell", "N43"))
    ensures WellFormed(CellStyle("DateTimeCell", "N50"))
  {
    DatedCellWords();
    DateStyleWords();
    CellStyleWellFormed("DateCell", "N37");
    CellStyleWellFormed("TimeCell", "N43");
    CellStyleWellFormed("DateTimeCell", "N50");
  }

  lemma StylesNameValid()
    ensures ValidName("office:automatic-styles")
  {
    NameOf("office:automatic-styles");
  }

  lemma ContentAttrsValid(ns: string)
    requires NoAngle(ns)
    ensures ValidAttrs(ContentAttrs(ns))
  {
    var version := Attr("office:version", "1.0");
    AttrValid("office:version", "1.0");
    NoAngleConcat(" ", ns);
    NoAngleConcat(" " + ns, version);
    assert ContentAttrs(ns)[|ContentAttrs(ns)| - 1] == version[|version| - 1];
  }

  /** The document tree is well formed when its styles and tables are. */
  lemma DocumentWellFormed(ns: string, styles: Node, tables: seq<Node>)
    requires NoAngle(ns) && WellFormed(styles)
    requires forall i :: 0 <= i < |tables| ==> WellFormed(tables[i])
    ensures WellFormed(DocumentNode(ns, styles, tables))
  {
    BodyWellFormed(tables);
    ContentAttrsValid(ns);
    DocumentNamesValid();
    ElementWellFormed(DocumentName, ContentAttrs(ns), [styles, BodyNode(tables)]);
  }

  lemma DocumentNamesValid()
    ensures ValidName(DocumentName) && ValidName(BodyName) && ValidName(SheetName)
  {
    NameOf(DocumentName);
    NameOf(BodyName);
    NameOf(SheetName);
  }

  lemma BodyWellFormed(tables: seq<Node>)
    requires forall i :: 0 <= i < |tables| ==> WellFormed(tables[i])
    ensures WellFormed(BodyNode(tables))
  {
    DocumentNamesValid();
    ElementWellFormed(SheetName, "", tables);
    WellFormedSingle(Element(SheetName, "", tables));
  }

  lemma DeclarationNoAngle()
    ensures NoAngle(DeclarationBody) && HasPrefix(DeclarationBody, "?")
  {
    AttrValid("version", "1.0");
    AttrValid("encoding", "utf-8");
    NoAngleConcat("?xml", Attr("version", "1.0"));
    NoAngleConcat("?xml" + Attr("version", "1.0"), Attr("encoding", "utf-8"));
    NoAngleConcat("?xml" + Attr("version", "1.0") + Attr("encoding", "utf-8"), "?");
  }

  /** With any well-formed styles, header, well-formed tables and footer are well nested. */
  lemma PrologWellNested(ns: string, styles: Node, tables: seq<Node>)
    requires NoAngle(ns) && WellFormed(styles)
    requires forall i :: 0 <= i < |tables| ==> WellFormed(tables[i])
    ensures WellNested(Prolog(ns, styles) + RenderAll(tables) + FooterXml)
  {
    var doc := DocumentNode(ns, styles, tables);
    DocumentWellFormed(ns, styles, tables);
    RenderWellNested(doc);
    DocumentRender(ns, styles, tables);
    DeclarationNoAngle();
    DeclarationNested(DeclarationBody, Render(doc));
  }

  /**
    The content document (header, any well-formed tables, footer) is well
    nested: the footer closes exactly what the header left open.
   */
  lemma DocumentWellNested(ns: string, tables: seq<Node>)
    requires NoAngle(ns)
    requires forall i :: 0 <= i < |tables| ==> WellFormed(tables[i])
    ensures WellNested(HeaderXml(ns) + RenderAll(tables) + FooterXml)
  {
    StylesWellFormed();
    PrologWellNested(ns, AutomaticStyles(), tables);
  }

  // ---------------------------------------------------------------------
  // The exporter
  // ---------------------------------------------------------------------

  /** A row as the emitters write it: the literal start tag, the cells, the literal end tag. */
  lemma RowTags(prefix: string, cells: seq<Node>)
    ensures prefix + Render(Element(RowName, "", cells))
            == prefix + ("<" + RowName + ">") + RenderAll(cells) + ("</" + RowName + ">")
  {
    RenderElementAfter(prefix, RowName, "", cells);
    assert RowName + "" == RowName;
  }

  /** Appending the next fetched row extends the serialised rows by that row. */
  lemma RowsStep(start: string, fields: seq<FieldMeta>, rows: seq<Row>, r: nat, nullText: string, formats: Formats)
    requires r < |rows|
    ensures start + RenderAll(DataRows(fields, rows[..r], nullText, formats)) + Render(DataRow(fields, rows[r], nullText, formats))
            == start + RenderAll(DataRows(fields, rows[..r + 1], nullText, formats))
  {
    var all := DataRows(fields, rows[..r + 1], nullText, formats);
    var done := DataRows(fields, rows[..r], nullText, formats);
    forall i | 0 <= i < r ensures all[i] == done[i] {
      DataRowsAt(fields, rows[..r + 1], i, nullText, formats);
      DataRowsAt(fields, rows[..r], i, nullText, formats);
      assert rows[..r + 1][i] == rows[..r][i];
    }
    assert all[..r] == done;
    DataRowsAt(fields, rows[..r + 1], r, nullText, formats);
    assert rows[..r + 1][r] == rows[r];
    RenderPrefixStep(start, all, r);
  }

  /** The fetch loop stops exactly at the fetched count. */
  lemma FetchedStop(rows: seq<Row>, r: nat)
    requires r <= Fetched(rows) && !(r < |rows| && rows[r] != [])
    ensures r == Fetched(rows)
  {
  }

  /** The plugin, with the shared output buffer every emitter appends to. */
  class OdsExport {
    var buffer: string

    /** Creating the plugin empties the buffer. */
    constructor()
      ensures buffer == ""
    {
      buffer := "";
    }

    /** Opens the content document; `ns` is the namespace declarations it carries. */
    method ExportHeader(ns: string) returns (ok: bool)
      modifies this
      ensures ok
      ensures buffer == old(buffer) + HeaderXml(ns)
    {
      buffer := buffer + HeaderXml(ns);
      ok := true;
    }

    /** Closes the content document and hands back the content to be packaged. */
    method ExportFooter() returns (content: string)
      modifies this
      ensures buffer == old(buffer) + FooterXml
      ensures content == buffer
    {
      buffer := buffer + FooterXml;
      content := buffer;
    }

    method ExportDBHeader(db: string, dbAlias: string) returns (ok: bool)
      ensures ok
    {
      ok := true;
    }

    method ExportDBFooter(db: string) returns (ok: bool)
      ensures ok
    {
      ok := true;
    }

    method ExportDBCreate(db: string, exportType: string, dbAlias: string) returns (ok: bool)
      ensures ok
    {
      ok := true;
    }

    /** Appends the header row: one string cell per column, holding its heading. */
    method ExportHeaderRow(fields: seq<FieldMeta>, aliases: Aliases, db: string, table: string)
      modifies this
      ensures buffer == old(buffer) + Render(HeaderRow(fields, aliases, db, table))
    {
      ghost var n := HeaderRow(fields, aliases, db, table);
      buffer := buffer + ("<" + RowName + ">");
      ghost var start := buffer;
      assert n.children[..0] == [];
      var i := 0;
      while i < |fields|
        invariant i <= |fields|
        invariant buffer == start + RenderAll(n.children[..i])
      {
        var colAs := ColumnAlias(aliases, db, table, fields[i].name);
        var cell := StringCellNode(HtmlEscape(StripSlashes(colAs)));
        HeaderRowAt(fields, aliases, db, table, i);
        buffer := buffer + Render(cell);
        RenderPrefixStep(start, n.children, i);
        i := i + 1;
      }
      assert n.children[..i] == n.children;
      buffer := buffer + ("</" + RowName + ">");
      RowTags(old(buffer), n.children);
    }

    /** Appends cell `j` of `row`: a geometry value is rewritten first, then the ladder picks the cell. */
    method ExportCell(meta: FieldMeta, row: Row, j: nat, nullText: string, formats: Formats)
      modifies this
      ensures buffer == old(buffer) + Render(CellNode(meta, CellValue(meta, row, j), nullText, formats))
    {
      var v := if j < |row| then row[j] else None;
      if meta.isMappedTypeGeometry {
        v := Geometry(v);
      }
      buffer := buffer + Render(CellNode(meta, v, nullText, formats));
    }

    /** Appends one data row: one cell per column, geometry rewritten first, then the ladder. */
    method ExportRow(fields: seq<FieldMeta>, row: Row, nullText: string, formats: Formats)
      modifies this
      ensures buffer == old(buffer) + Render(DataRow(fields, row, nullText, formats))
    {
      ghost var n := DataRow(fields, row, nullText, formats);
      buffer := buffer + ("<" + RowName + ">");
      ghost var start := buffer;
      assert n.children[..0] == [];
      var j := 0;
      while j < |fields|
        invariant j <= |fields|
        invariant buffer == start + RenderAll(n.children[..j])
      {
        ExportCell(fields[j], row, j, nullText, formats);
        DataRowAt(fields, row, j, nullText, formats);
        RenderPrefixStep(start, n.children, j);
        j := j + 1;
      }
      assert n.children[..j] == n.children;
      buffer := buffer + ("</" + RowName + ">");
      RowTags(old(buffer), n.children);
    }

    /** The fetch loop: appends a row per row fetched, stopping at the end or at the first empty row. */
    method ExportRows(fields: seq<FieldMeta>, rows: seq<Row>, nullText: string, formats: Formats)
      modifies this
      ensures buffer == old(buffer) + RenderAll(DataRows(fields, rows[..Fetched(rows)], nullText, formats))
    {
      ghost var start := buffer;
      assert DataRows(fields, rows[..0], nullText, formats) == [];
      var r := 0;
      while r < |rows| && rows[r] != []
        invariant r <= Fetched(rows)
        invariant buffer == start + RenderAll(DataRows(fields, rows[..r], nullText, formats))
      {
        ExportRow(fields, rows[r], nullText, formats);
        RowsStep(start, fields, rows, r, nullText, formats);
        r := r + 1;
      }
      FetchedStop(rows, r);
    }

    /** Appends one table: its name, the header row when asked for, and a row per fetched row. */
    method ExportData(db: string, table: string, rs: ResultSet, options: Options, formats: Formats, aliases: Aliases)
      returns (ok: bool)
      modifies this
      ensures ok
      ensures buffer == old(buffer) + Render(TableNode(db, table, rs, options, formats, aliases))
    {
      var tableAlias := TableAlias(aliases, db, table);
      buffer := buffer + ("<" + TableName) + Attr("table:name", HtmlEscape(tableAlias)) + ">";
      ExportHeading(options.columns, rs.fields, aliases, db, table);
      ExportRows(rs.fields, rs.rows, options.nullText, formats);
      buffer := buffer + ("</" + TableName + ">");
      ElementPieces(old(buffer), TableName, Attr("table:name", HtmlEscape(tableAlias)),
                    Heading(options.columns, rs.fields, aliases, db, table),
                    DataRows(rs.fields, rs.rows[..Fetched(rs.rows)], options.nullText, formats));
      ok := true;
    }

    /** Appends the header row when the columns option is set, and nothing otherwise. */
    method ExportHeading(columns: bool, fields: seq<FieldMeta>, aliases: Aliases, db: string, table: string)
      modifies this
      ensures buffer == old(buffer) + RenderAll(Heading(columns, fields, aliases, db, table))
    {
      if columns {
        ExportHeaderRow(fields, aliases, db, table);
        RenderAllPair(HeaderRow(fields, aliases, db, table), HeaderRow(fields, aliases, db, table));
      } else {
        assert old(buffer) + RenderAll([]) == old(buffer);
      }
    }

    /** A raw query is exported as a table with no database, no table name and no aliases. */
    method ExportRawQuery(rs: ResultSet, options: Options, formats: Formats) returns (ok: bool)
      modifies this
      ensures ok
      ensures buffer == old(buffer) + Render(TableNode("", "", rs, options, formats, map[]))
    {
      ok := ExportData("", "", rs, options, formats, map[]);
    }
  }
}
