/**
 * app/composables/useCSVExport.ts: `arrayToCSV`, which writes the quoting of
 * section 2 of RFC 4180 (rules 6 and 7: a field holding a comma, a double
 * quote or a line break is enclosed in double quotes, with each double quote
 * inside doubled), and the items column of the orders export. A reader for
 * that format is given here as well, so that the serialiser can be proved
 * against it.
 */
module Csv {
  import opened Wrappers
  import opened Strings

  /** A row: a header's value as its string, absent when it is null or undefined. */
  type Row = map<string, string>

  /** The condition under which `arrayToCSV` quotes a value. A carriage return alone does not. */
  predicate NeedsQuoting(s: string) {
    ',' in s || '"' in s || '\n' in s
  }

  /** `replace(/"/g, '""')` */
  function DoubleQuotes(s: string): (r: string)
    ensures '"' !in s ==> r == s
  {
    if s == [] then []
    else (if s[0] == '"' then "\"\"" else [s[0]]) + DoubleQuotes(s[1..])
  }

  /** A value as `arrayToCSV` writes it. */
  function Escape(v: string): (f: string)
    ensures !NeedsQuoting(v) ==> f == v
    ensures NeedsQuoting(v) ==> |f| >= 2 && f[0] == '"' && f[|f| - 1] == '"'
  {
    if NeedsQuoting(v) then "\"" + DoubleQuotes(v) + "\"" else v
  }

  /** The value written under header `h`: null and undefined become "". */
  function ValueOf(row: Row, h: string): string {
    if h in row then row[h] else ""
  }

  /** The values of one row in header order. */
  function RowValues(row: Row, headers: seq<string>): (vs: seq<string>)
    ensures |vs| == |headers|
    ensures forall i :: 0 <= i < |headers| ==> vs[i] == ValueOf(row, headers[i])
  {
    seq(|headers|, i requires 0 <= i < |headers| => ValueOf(row, headers[i]))
  }

  function EscapeAll(vs: seq<string>): (fs: seq<string>)
    ensures |fs| == |vs|
    ensures forall i :: 0 <= i < |vs| ==> fs[i] == Escape(vs[i])
  {
    seq(|vs|, i requires 0 <= i < |vs| => Escape(vs[i]))
  }

  /** A record's line: its escaped fields joined by `,`. */
  function Line(vs: seq<string>): string {
    Join(EscapeAll(vs), ",")
  }

  function Lines(records: seq<seq<string>>): (ls: seq<string>)
    ensures |ls| == |records|
    ensures forall i :: 0 <= i < |records| ==> ls[i] == Line(records[i])
  {
    seq(|records|, i requires 0 <= i < |records| => Line(records[i]))
  }

  /** `arrayToCSV(data, headers)`: the header line, unescaped, then one line per row. */
  function ArrayToCSV(data: seq<Row>, headers: seq<string>): (csv: string)
    ensures data == [] ==> csv == ""
    ensures data != [] ==> StartsWith(csv, Join(headers, ","))
  {
    if data == [] then ""
    else
      var rows := seq(|data|, i requires 0 <= i < |data| => Line(RowValues(data[i], headers)));
      JoinStartsWithFirst([Join(headers, ",")] + rows, "\n");
      Join([Join(headers, ",")] + rows, "\n")
  }

  lemma JoinStartsWithFirst(parts: seq<string>, sep: string)
    requires parts != []
    ensures StartsWith(Join(parts, sep), parts[0])
  {
  }

  // ---------------------------------------------------------------------------
  // Reading the format back
  // ---------------------------------------------------------------------------

  /** The content of a quoted field after its opening quote: `""` stands for `"`, a lone `"` closes it. */
  function ParseQuoted(s: string): (r: Option<(string, string)>)
    ensures r.Some? ==> |r.value.1| < |s|
  {
    if s == [] then None
    else if s[0] == '"' then
      if |s| >= 2 && s[1] == '"' then
        match ParseQuoted(s[2..])
        case None => None
        case Some(p) => Some(("\"" + p.0, p.1))
      else Some(("", s[1..]))
    else
      match ParseQuoted(s[1..])
      case None => None
      case Some(p) => Some(([s[0]] + p.0, p.1))
  }

  /** An unquoted field: everything up to a `,`, a line break or the end. */
  function ParseUnquoted(s: string): (r: (string, string))
    ensures |r.1| <= |s|
    ensures r.1 == [] || r.1[0] == ',' || r.1[0] == '\n'
  {
    if s == [] || s[0] == ',' || s[0] == '\n' then ("", s)
    else
      var p := ParseUnquoted(s[1..]);
      ([s[0]] + p.0, p.1)
  }

  function ParseField(s: string): (r: Option<(string, string)>)
    ensures r.Some? ==> |r.value.1| <= |s|
  {
    if s != [] && s[0] == '"' then ParseQuoted(s[1..]) else Some(ParseUnquoted(s))
  }

  /** One record: fields separated by `,`, up to a line break outside quotes (left in the remainder) or the end. */
  function ParseRecord(s: string): (r: Option<(seq<string>, string)>)
    ensures r.Some? ==> |r.value.1| <= |s| && (r.value.1 == [] || r.value.1[0] == '\n')
    decreases |s|
  {
    match ParseField(s)
    case None => None
    case Some(p) =>
      var rest := p.1;
      if rest == [] || rest[0] == '\n' then Some(([p.0], rest))
      else if rest[0] == ',' then
        match ParseRecord(rest[1..])
        case None => None
        case Some(q) => Some(([p.0] + q.0, q.1))
      else None
  }

  /** A document: records separated by line breaks. */
  function ParseDocument(s: string): Option<seq<seq<string>>>
    decreases |s|
  {
    match ParseRecord(s)
    case None => None
    case Some(p) =>
      if p.1 == [] then Some([p.0])
      else
        match ParseDocument(p.1[1..])
        case None => None
        case Some(more) => Some([p.0] + more)
  }

  // ---------------------------------------------------------------------------
  // Properties
  // ---------------------------------------------------------------------------

  /** The quoted form of `v`, then its closing quote, reads back as `v`. */
  lemma {:induction false} QuotedRoundTrip(v: string, rest: string)
    requires rest == [] || rest[0] != '"'
    ensures ParseQuoted(DoubleQuotes(v) + "\"" + rest) == Some((v, rest))
  {
    if v == [] {
      var s := DoubleQuotes(v) + "\"" + rest;
      assert s == "\"" + rest;
      assert s[1..] == rest;
    } else {
      var head := if v[0] == '"' then "\"\"" else [v[0]];
      var t := DoubleQuotes(v[1..]) + "\"" + rest;
      Regroup(head, DoubleQuotes(v[1..]), "\"", rest);
      QuotedRoundTrip(v[1..], rest);
      if v[0] == '"' {
        DoubledQuoteStep(t);
        assert "\"" + v[1..] == v;
      } else {
        PlainCharStep(v[0], t);
        assert [v[0]] + v[1..] == v;
      }
    }
  }

  lemma Regroup(a: string, b: string, c: string, d: string)
    ensures (a + b) + c + d == a + (b + c + d)
  {
  }

  /** `""` inside a quoted field stands for one `"`. */
  lemma DoubledQuoteStep(t: string)
    ensures ParseQuoted("\"\"" + t) ==
      match ParseQuoted(t)
      case None => None
      case Some(p) => Some(("\"" + p.0, p.1))
  {
    assert ("\"\"" + t)[2..] == t;
  }

  /** Any other character inside a quoted field is kept. */
  lemma PlainCharStep(c: char, t: string)
    requires c != '"'
    ensures ParseQuoted([c] + t) ==
      match ParseQuoted(t)
      case None => None
      case Some(p) => Some(([c] + p.0, p.1))
  {
    assert ([c] + t)[1..] == t;
  }

  lemma {:induction false} UnquotedRoundTrip(v: string, rest: string)
    requires ',' !in v && '\n' !in v
    requires rest == [] || rest[0] == ',' || rest[0] == '\n'
    ensures ParseUnquoted(v + rest) == (v, rest)
  {
    if v == [] {
      assert v + rest == rest;
    } else {
      assert (v + rest)[1..] == v[1..] + rest;
      UnquotedRoundTrip(v[1..], rest);
      assert [v[0]] + v[1..] == v;
    }
  }

  /** Every escaped value reads back as itself, whatever separator follows it. */
  lemma {:induction false} FieldRoundTrip(v: string, rest: string)
    requires rest == [] || rest[0] == ',' || rest[0] == '\n'
    ensures ParseField(Escape(v) + rest) == Some((v, rest))
  {
    if NeedsQuoting(v) {
      QuotedFieldRoundTrip(v, rest);
    } else {
      PlainFieldRoundTrip(v, rest);
    }
  }

  lemma QuotedFieldRoundTrip(v: string, rest: string)
    requires NeedsQuoting(v) && (rest == [] || rest[0] != '"')
    ensures ParseField(Escape(v) + rest) == Some((v, rest))
  {
    var body := DoubleQuotes(v) + "\"" + rest;
    QuotedLayout(v, rest);
    calc {
      ParseField(Escape(v) + rest);
      ParseField("\"" + body);
      { OpeningQuote(body); }
      ParseQuoted(body);
      { QuotedRoundTrip(v, rest); }
      Some((v, rest));
    }
  }

  /** A quoted field followed by `rest` is an opening quote, the doubled content, a closing quote and `rest`. */
  lemma QuotedLayout(v: string, rest: string)
    requires NeedsQuoting(v)
    ensures Escape(v) + rest == "\"" + (DoubleQuotes(v) + "\"" + rest)
  {
    var d := DoubleQuotes(v);
    assert Escape(v) == "\"" + d + "\"";
    assert ("\"" + d + "\"") + rest == "\"" + (d + "\"" + rest);
  }

  /** A field starting with a double quote is read as a quoted field. */
  lemma OpeningQuote(body: string)
    ensures ParseField("\"" + body) == ParseQuoted(body)
  {
    assert ("\"" + body)[1..] == body;
  }

  lemma PlainFieldRoundTrip(v: string, rest: string)
    requires !NeedsQuoting(v) && (rest == [] || rest[0] == ',' || rest[0] == '\n')
    ensures ParseField(Escape(v) + rest) == Some((v, rest))
  {
    UnquotedRoundTrip(v, rest);
    if v == [] {
      assert v + rest == rest;
    } else {
      assert (v + rest)[0] == v[0] && v[0] in v;
    }
  }

  /** A record line reads back as its values. */
  lemma {:induction false} RecordRoundTrip(vs: seq<string>, rest: string)
    requires |vs| >= 1
    requires rest == [] || rest[0] == '\n'
    ensures ParseRecord(Line(vs) + rest) == Some((vs, rest))
  {
    if |vs| == 1 {
      FieldRoundTrip(vs[0], rest);
      assert Line(vs) == Escape(vs[0]);
      assert [vs[0]] == vs;
    } else {
      var tail := Line(vs[1..]) + rest;
      LineLayout(vs, rest);
      FieldRoundTrip(vs[0], "," + tail);
      RecordRoundTrip(vs[1..], rest);
      NextField(vs[0], tail, Escape(vs[0]) + ("," + tail));
      assert [vs[0]] + vs[1..] == vs;
    }
  }

  /** A line of two or more values is the first escaped field, a comma, and the line of the others. */
  lemma LineLayout(vs: seq<string>, rest: string)
    requires |vs| >= 2
    ensures Line(vs) + rest == Escape(vs[0]) + ("," + (Line(vs[1..]) + rest))
  {
    var fs := EscapeAll(vs);
    assert fs[1..] == EscapeAll(vs[1..]);
    assert Line(vs) == Escape(vs[0]) + "," + Line(vs[1..]);
  }

  /** A field followed by a comma continues the record with what comes after the comma. */
  lemma NextField(v: string, tail: string, s: string)
    requires ParseField(s) == Some((v, "," + tail))
    ensures ParseRecord(s) ==
      match ParseRecord(tail)
      case None => None
      case Some(q) => Some(([v] + q.0, q.1))
  {
    assert ("," + tail)[1..] == tail;
  }

  /** Record lines joined by line breaks read back as the records. */
  lemma {:induction false} DocumentRoundTrip(records: seq<seq<string>>)
    requires |records| >= 1
    requires forall i :: 0 <= i < |records| ==> |records[i]| >= 1
    ensures ParseDocument(Join(Lines(records), "\n")) == Some(records)
  {
    var ls := Lines(records);
    if |records| == 1 {
      RecordRoundTrip(records[0], "");
      assert Line(records[0]) + "" == Line(records[0]);
      assert [records[0]] == records;
    } else {
      assert ls[1..] == Lines(records[1..]);
      var tail := Join(Lines(records[1..]), "\n");
      assert Join(ls, "\n") == Line(records[0]) + ("\n" + tail);
      RecordRoundTrip(records[0], "\n" + tail);
      assert ("\n" + tail)[1..] == tail;
      DocumentRoundTrip(records[1..]);
      assert [records[0]] + records[1..] == records;
    }
  }

  /**
   * When no header needs quoting, reading the output of `arrayToCSV` gives
   * back the headers and, for each row, exactly one value per header in
   * header order, with null and undefined values as "".
   */
  lemma ArrayToCSVRoundTrip(data: seq<Row>, headers: seq<string>)
    requires data != [] && |headers| >= 1
    requires forall i :: 0 <= i < |headers| ==> !NeedsQuoting(headers[i])
    ensures ParseDocument(ArrayToCSV(data, headers)) ==
      Some([headers] + seq(|data|, i requires 0 <= i < |data| => RowValues(data[i], headers)))
  {
    var records := [headers] + seq(|data|, i requires 0 <= i < |data| => RowValues(data[i], headers));
    assert EscapeAll(headers) == headers;
    assert Lines(records) == [Join(headers, ",")] + seq(|data|, i requires 0 <= i < |data| => Line(RowValues(data[i], headers)));
    DocumentRoundTrip(records);
  }

  /** `""` back to `"`: the inverse of `DoubleQuotes`. */
  function CollapseQuotes(s: string): string {
    if s == [] then []
    else if |s| >= 2 && s[0] == '"' && s[1] == '"' then "\"" + CollapseQuotes(s[2..])
    else [s[0]] + CollapseQuotes(s[1..])
  }

  /** Strip the enclosing quotes of a quoted field and collapse its doubled quotes. */
  function Unescape(f: string): string {
    if |f| >= 2 && f[0] == '"' && f[|f| - 1] == '"' then CollapseQuotes(f[1..|f| - 1]) else f
  }

  lemma {:induction false} CollapseDoubled(v: string)
    ensures CollapseQuotes(DoubleQuotes(v)) == v
  {
    if v != [] {
      CollapseDoubled(v[1..]);
      if v[0] == '"' {
        assert DoubleQuotes(v)[2..] == DoubleQuotes(v[1..]);
      } else {
        assert DoubleQuotes(v)[1..] == DoubleQuotes(v[1..]);
      }
      assert [v[0]] + v[1..] == v;
    }
  }

  /** Unescaping an escaped value gives back the value. */
  lemma EscapeRoundTrip(v: string)
    ensures Unescape(Escape(v)) == v
  {
    if NeedsQuoting(v) {
      var f := Escape(v);
      assert f[1..|f| - 1] == DoubleQuotes(v);
      CollapseDoubled(v);
    } else if v != [] {
      assert v[0] in v;
    }
  }

  // ---------------------------------------------------------------------------
  // The items column of `exportOrdersToCSV`
  // ---------------------------------------------------------------------------

  /** An order item as the export sees it: its product's name, if any, and its quantity. */
  datatype ExportItem = ExportItem(productName: Option<string>, quantity: int)

  /** An order as the export sees it: its items, the legacy product's name if it has one, and its quantity. */
  datatype ExportOrder = ExportOrder(items: seq<ExportItem>, legacyProductName: Option<string>, quantity: int)

  const UnknownName: string := "Unknown"
  const NoItemsText: string := "No items"

  /** `${item.product?.name || "Unknown"} x${item.quantity}` */
  function ItemText(it: ExportItem): string {
    (if it.productName.Some? && it.productName.value != "" then it.productName.value else UnknownName)
    + " x" + IntToString(it.quantity)
  }

  /** The text of each item, in order. */
  function ItemTexts(items: seq<ExportItem>): (ts: seq<string>)
    ensures |ts| == |items|
    ensures forall i :: 0 <= i < |items| ==> ts[i] == ItemText(items[i])
  {
    seq(|items|, i requires 0 <= i < |items| => ItemText(items[i]))
  }

  /** The items column: the items joined by "; ", else the legacy product, else "No items". */
  function ItemsText(o: ExportOrder): (t: string)
    ensures o.items != [] ==> t == Join(ItemTexts(o.items), "; ") && StartsWith(t, ItemText(o.items[0]))
    ensures o.items == [] && o.legacyProductName.Some? ==>
      t == o.legacyProductName.value + " x" + IntToString(if o.quantity == 0 then 1 else o.quantity)
    ensures o.items == [] && o.legacyProductName.None? ==> t == NoItemsText
  {
    if |o.items| > 0 then
      JoinStartsWithFirst(ItemTexts(o.items), "; ");
      Join(ItemTexts(o.items), "; ")
    else if o.legacyProductName.Some? then
      o.legacyProductName.value + " x" + IntToString(if o.quantity == 0 then 1 else o.quantity)
    else NoItemsText
  }

  /** An item's text holds no `;` unless its product name does. */
  lemma ItemTextFree(it: ExportItem)
    requires it.productName.Some? ==> ';' !in it.productName.value
    ensures ';' !in ItemText(it)
  {
    var name := if it.productName.Some? && it.productName.value != "" then it.productName.value else UnknownName;
    var digits := IntToString(it.quantity);
    assert ItemText(it) == name + (" x" + digits);
    assert ';' !in digits;
  }

  /**
   * When no product name holds a `;`, splitting the items column at "; "
   * gives back each item's text, in order.
   */
  lemma ItemsTextSplits(o: ExportOrder)
    requires o.items != []
    requires forall i :: 0 <= i < |o.items| && o.items[i].productName.Some? ==> ';' !in o.items[i].productName.value
    ensures Split(ItemsText(o), "; ") == ItemTexts(o.items)
  {
    var ts := ItemTexts(o.items);
    forall t | t in ts ensures "; "[0] !in t {
      var i :| 0 <= i < |ts| && ts[i] == t;
      ItemTextFree(o.items[i]);
    }
    SplitJoin(ts, "; ");
  }

  lemma ItemsTextTwoItems()
    ensures ItemsText(ExportOrder([ExportItem(Some("Box"), 2), ExportItem(None, 3)], None, 0)) == "Box x2; Unknown x3"
  {
    var o := ExportOrder([ExportItem(Some("Box"), 2), ExportItem(None, 3)], None, 0);
    assert ItemTexts(o.items) == ["Box x2", "Unknown x3"] by {
      assert IntToString(2) == "2" && IntToString(3) == "3";
      assert ItemText(o.items[0]) == "Box x2";
      assert ItemText(o.items[1]) == "Unknown x3";
    }
    JoinTwo("Box x2", "Unknown x3", "; ");
  }

  lemma JoinTwo(a: string, b: string, sep: string)
    ensures Join([a, b], sep) == a + sep + b
  {
    assert [a, b][1..] == [b];
  }

  lemma ItemsTextLegacyDefaultsToOne()
    ensures ItemsText(ExportOrder([], Some("Tape"), 0)) == "Tape x1"
  {
    assert IntToString(1) == "1";
  }
}
