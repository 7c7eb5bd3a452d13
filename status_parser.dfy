/**
 * Extraction of client rows `(cn, real, rx, tx, since)` from the lines of an
 * OpenVPN status file, in the two dialects `parse_status` understands:
 * the status-version-3 `CLIENT_LIST` lines (tab or comma separated), and,
 * only when those produced nothing, the version-2 CSV block that follows the
 * `Common Name,...` header line and ends at the routing-table header.
 */
module StatusParser {
  import opened Wrappers
  import opened Text

  /** One extracted client row, in the order `parse_status` returns its tuple. */
  datatype Row = Row(cn: string, realAddress: string, rx: int, tx: int, since: string)

  const ClientListTag: string := "CLIENT_LIST"
  const UndefCn: string := "UNDEF"
  const V2HeaderCn: string := "Common Name"
  /** The exact header line of the version-2 client block. */
  const V2Header: string := V2HeaderCn + ",Real Address,Bytes Received,Bytes Sent,Connected Since"

  /** The pattern `^\s*CLIENT_LIST[\t,]`: optional leading whitespace, the tag,
      then a tab or a comma. */
  predicate IsClientListLine(line: string) {
    var t := LStrip(line);
    |t| > |ClientListTag| && t[..|ClientListTag|] == ClientListTag &&
    (t[|ClientListTag|] == '\t' || t[|ClientListTag|] == ',')
  }

  /** `line.replace("\t", ",")`. */
  function NormalizeTabs(line: string): (r: string)
    ensures |r| == |line|
    ensures '\t' !in r
  {
    seq(|line|, i requires 0 <= i < |line| => if line[i] == '\t' then ',' else line[i])
  }

  /** `[p.strip() for p in parts]`. */
  function StripAll(parts: seq<string>): (r: seq<string>)
    ensures |r| == |parts|
  {
    seq(|parts|, i requires 0 <= i < |parts| => Strip(parts[i]))
  }

  /** Each field of `StripAll` is the stripped field in the same position. */
  lemma StripAllFields(parts: seq<string>)
    ensures forall i :: 0 <= i < |parts| ==> StripAll(parts)[i] == Strip(parts[i])
  {
  }

  /** The stripped fields of a version-3 line, tabs counting as commas. */
  function V3Fields(line: string): seq<string> {
    StripAll(Split(NormalizeTabs(line), ','))
  }

  /** The stripped fields of a version-2 CSV line. */
  function V2Fields(line: string): seq<string> {
    StripAll(Split(line, ','))
  }

  /** The row one version-3 line contributes (monitor.py:64-81): a CLIENT_LIST line
      with at least eight fields and a usable common name; counters that do not both
      parse are both taken as 0, the row itself is kept. */
  function V3Row(line: string): (r: Option<Row>)
    ensures r.Some? <==>
      IsClientListLine(line) && |V3Fields(line)| >= 8 &&
      V3Fields(line)[1] != "" && V3Fields(line)[1] != UndefCn
    ensures r.Some? ==>
      var f := V3Fields(line);
      r.value.cn == f[1] && r.value.realAddress == f[2] && r.value.since == f[7]
    ensures r.Some? && ParseInt(V3Fields(line)[5]).Some? && ParseInt(V3Fields(line)[6]).Some? ==>
      r.value.rx == ParseInt(V3Fields(line)[5]).value && r.value.tx == ParseInt(V3Fields(line)[6]).value
    ensures r.Some? && (ParseInt(V3Fields(line)[5]).None? || ParseInt(V3Fields(line)[6]).None?) ==>
      r.value.rx == 0 && r.value.tx == 0
  {
    if IsClientListLine(line) then FieldsRow(V3Fields(line)) else None
  }

  /** The row the stripped fields of a CLIENT_LIST line make (monitor.py:69-81). */
  function FieldsRow(f: seq<string>): Option<Row> {
    if |f| < 8 || f[1] == "" || f[1] == UndefCn then None
    else
      var rx, tx := ParseInt(f[5]), ParseInt(f[6]);
      if rx.Some? && tx.Some? then Some(Row(f[1], f[2], rx.value, tx.value, f[7]))
      else Some(Row(f[1], f[2], 0, 0, f[7]))
  }

  /** The row one line of the version-2 block contributes (monitor.py:98-110): at
      least five fields, a usable common name that is not the header's, and two
      counters that parse; anything else is skipped. */
  function V2Row(line: string): (r: Option<Row>)
    ensures r.Some? <==>
      var f := V2Fields(line);
      |f| >= 5 && f[0] != "" && f[0] != UndefCn && f[0] != V2HeaderCn &&
      ParseInt(f[2]).Some? && ParseInt(f[3]).Some?
    ensures r.Some? ==>
      var f := V2Fields(line);
      r == Some(Row(f[0], f[1], ParseInt(f[2]).value, ParseInt(f[3]).value, f[4]))
  {
    var f := V2Fields(line);
    if |f| < 5 || f[0] == "" || f[0] == UndefCn || f[0] == V2HeaderCn then None
    else
      var rx, tx := ParseInt(f[2]), ParseInt(f[3]);
      if rx.Some? && tx.Some? then Some(Row(f[0], f[1], rx.value, tx.value, f[4]))
      else None
  }

  /** The rows a line-wise extractor `f` yields from `lines`, in line order. */
  function Collect(f: string -> Option<Row>, lines: seq<string>): (rows: seq<Row>)
    ensures |rows| <= |lines|
  {
    if lines == [] then []
    else
      var init := Collect(f, lines[..|lines| - 1]);
      match f(lines[|lines| - 1])
      case Some(r) => init + [r]
      case None => init
  }

  /** `lines.index(header)`: the first position holding exactly `x`. */
  function FirstIndex(lines: seq<string>, x: string): (r: Option<nat>)
    ensures r.None? <==> x !in lines
    ensures r.Some? ==> r.value < |lines| && lines[r.value] == x && x !in lines[..r.value]
  {
    if lines == [] then None
    else if lines[0] == x then Some(0)
    else
      var rest := FirstIndex(lines[1..], x);
      assert lines == [lines[0]] + lines[1..];
      match rest
      case None => None
      case Some(k) =>
        assert lines[..k + 1] == [lines[0]] + lines[1..][..k];
        Some(k + 1)
  }

  /** A line that ends the version-2 client block. */
  predicate IsRoutingLine(line: string) {
    StartsWith(line, "ROUTING TABLE") || StartsWith(line, "ROUTING_TABLE")
  }

  /** The position of the first routing-table line at or after `k`, or the end. */
  function BlockEnd(lines: seq<string>, k: nat): (e: nat)
    requires k <= |lines|
    ensures k <= e <= |lines|
    decreases |lines| - k
  {
    if k == |lines| || IsRoutingLine(lines[k]) then k else BlockEnd(lines, k + 1)
  }

  /** The lines of `lines` up to, and without, the first routing-table line. */
  function UntilRouting(lines: seq<string>): seq<string> {
    lines[..BlockEnd(lines, 0)]
  }

  /** `BlockEnd` stops at the first routing-table line from `k` on. */
  lemma {:induction false} BlockEndIsFirstRouting(lines: seq<string>, k: nat)
    requires k <= |lines|
    ensures forall m :: k <= m < BlockEnd(lines, k) ==> !IsRoutingLine(lines[m])
    ensures BlockEnd(lines, k) == |lines| || IsRoutingLine(lines[BlockEnd(lines, k)])
    decreases |lines| - k
  {
    if k < |lines| && !IsRoutingLine(lines[k]) {
      BlockEndIsFirstRouting(lines, k + 1);
    }
  }

  /** The lines the version-2 pass reads: those after the first exact header
      line, up to the first routing-table line; nothing without a header. */
  function V2Window(lines: seq<string>): seq<string> {
    match FirstIndex(lines, V2Header)
    case None => []
    case Some(h) => UntilRouting(lines[h + 1..])
  }

  function V3Rows(lines: seq<string>): seq<Row> {
    Collect(V3Row, lines)
  }

  function V2Rows(lines: seq<string>): seq<Row> {
    Collect(V2Row, V2Window(lines))
  }

  /** What `parse_status` returns for the lines of the file: the version-3 rows
      if there are any, otherwise the version-2 rows. */
  function StatusRows(lines: seq<string>): seq<Row> {
    var v3 := V3Rows(lines);
    if |v3| > 0 then v3 else V2Rows(lines)
  }

  /** The first pass of `parse_status` (monitor.py:61-82): every CLIENT_LIST line,
      in order, with `hits` counting the rows it produced. */
  method ParseV3(lines: seq<string>) returns (rows: seq<Row>, hits: nat)
    ensures rows == V3Rows(lines)
    ensures hits == |rows|
  {
    rows, hits := [], 0;
    for i := 0 to |lines|
      invariant rows == Collect(V3Row, lines[..i])
      invariant hits == |rows|
    {
      var line := lines[i];
      assert lines[..i + 1][..i] == lines[..i];
      if IsClientListLine(line) {
        var parts := V3Fields(line);
        if |parts| >= 8 {
          var cn := parts[1];
          if cn != "" && cn != UndefCn {
            var rx, tx := 0, 0;
            var r, t := ParseInt(parts[5]), ParseInt(parts[6]);
            if r.Some? && t.Some? {
              rx, tx := r.value, t.value;
            }
            rows := rows + [Row(cn, parts[2], rx, tx, parts[7])];
            hits := hits + 1;
          }
        }
      }
    }
    assert lines[..|lines|] == lines;
  }

  /** `lines.index(header)`, with -1 standing for the `ValueError` (monitor.py:89-92). */
  method FindHeader(lines: seq<string>) returns (start: int)
    ensures start == -1 <==> V2Header !in lines
    ensures start != -1 ==> FirstIndex(lines, V2Header) == Some(start)
  {
    start := -1;
    for j := 0 to |lines|
      invariant start == -1 ==> V2Header !in lines[..j]
      invariant start != -1 ==> FirstIndex(lines, V2Header) == Some(start)
    {
      if start == -1 && lines[j] == V2Header {
        start := j;
      }
      assert lines[..j + 1] == lines[..j] + [lines[j]];
    }
    assert lines[..|lines|] == lines;
  }

  /** The body of the second pass's loop (monitor.py:98-110) for one line; `None`
      is the `continue` of a skipped line. */
  method ParseV2Line(line: string) returns (row: Option<Row>)
    ensures row == V2Row(line)
  {
    row := None;
    var parts := V2Fields(line);
    if |parts| >= 5 {
      var cn := parts[0];
      if cn != "" && cn != UndefCn && cn != V2HeaderCn {
        var r, t := ParseInt(parts[2]), ParseInt(parts[3]);
        if r.Some? && t.Some? {
          row := Some(Row(cn, parts[1], r.value, t.value, parts[4]));
        }
      }
    }
  }

  /** The loop of the second pass (monitor.py:95-110) over the lines after the
      header: stops at the first routing-table line, skips unusable lines. */
  method ParseV2Block(block: seq<string>) returns (rows: seq<Row>)
    ensures rows == Collect(V2Row, UntilRouting(block))
  {
    rows := [];
    var k := 0;
    while k < |block|
      invariant 0 <= k <= |block|
      invariant BlockEnd(block, k) == BlockEnd(block, 0)
      invariant rows == Collect(V2Row, block[..k])
    {
      var line := block[k];
      if IsRoutingLine(line) {
        break;
      }
      CollectStep(V2Row, block, k);
      var row := ParseV2Line(line);
      if row.Some? {
        rows := rows + [row.value];
      }
      k := k + 1;
    }
  }

  /** Extending the lines by one adds that line's row, if it yields one. */
  lemma CollectStep(f: string -> Option<Row>, lines: seq<string>, k: nat)
    requires k < |lines|
    ensures Collect(f, lines[..k + 1]) ==
      Collect(f, lines[..k]) + (if f(lines[k]).Some? then [f(lines[k]).value] else [])
  {
    assert lines[..k + 1][..k] == lines[..k];
  }

  /** The second pass of `parse_status` (monitor.py:87-110): the CSV rows between the
      first exact header line and the routing-table header. */
  method ParseV2(lines: seq<string>) returns (rows: seq<Row>)
    ensures rows == V2Rows(lines)
  {
    var start := FindHeader(lines);
    if start < 0 {
      return [];
    }
    var block := lines[start + 1..];
    rows := ParseV2Block(block);
    V2RowsOfHeader(lines, start);
  }

  /** With the header first at `h`, the version-2 rows are those of the block after it. */
  lemma V2RowsOfHeader(lines: seq<string>, h: nat)
    requires FirstIndex(lines, V2Header) == Some(h)
    ensures V2Rows(lines) == Collect(V2Row, UntilRouting(lines[h + 1..]))
  {
    assert V2Window(lines) == UntilRouting(lines[h + 1..]);
  }

  /** `parse_status` (monitor.py:47-112) over the lines already read from the file:
      the version-2 block is read only when no version-3 row was found. */
  method ParseStatus(lines: seq<string>) returns (rows: seq<Row>)
    ensures rows == StatusRows(lines)
  {
    var v3Hits;
    rows, v3Hits := ParseV3(lines);
    if v3Hits > 0 {
      return;
    }
    rows := ParseV2(lines);
  }

  // ---------------------------------------------------------------------------
  // What the extraction promises

  /** A row is extracted exactly when some line yields it. */
  lemma {:induction false} CollectMember(f: string -> Option<Row>, lines: seq<string>, r: Row)
    ensures r in Collect(f, lines) <==> exists i :: 0 <= i < |lines| && f(lines[i]) == Some(r)
  {
    if lines != [] {
      var init := lines[..|lines| - 1];
      CollectMember(f, init, r);
      if exists i :: 0 <= i < |lines| && f(lines[i]) == Some(r) {
        var i :| 0 <= i < |lines| && f(lines[i]) == Some(r);
        if i < |lines| - 1 {
          assert init[i] == lines[i];
        }
      }
      if exists i :: 0 <= i < |init| && f(init[i]) == Some(r) {
        var i :| 0 <= i < |init| && f(init[i]) == Some(r);
        assert lines[i] == init[i];
      }
    }
  }

  /** Extraction goes line by line: the rows of two stretches of lines are the
      rows of the first followed by the rows of the second. */
  lemma {:induction false} CollectAppend(f: string -> Option<Row>, a: seq<string>, b: seq<string>)
    ensures Collect(f, a + b) == Collect(f, a) + Collect(f, b)
  {
    if b == [] {
      assert a + b == a;
    } else {
      var b' := b[..|b| - 1];
      CollectAppend(f, a, b');
      assert (a + b)[..|a + b| - 1] == a + b';
      assert (a + b)[|a + b| - 1] == b[|b| - 1];
    }
  }

  /** Dialect selection (monitor.py:84-85): as soon as one line is a usable
      CLIENT_LIST line the version-2 block is not consulted, and otherwise the
      rows are those of the version-2 block. */
  lemma DialectSelection(lines: seq<string>)
    ensures (exists i :: 0 <= i < |lines| && V3Row(lines[i]).Some?) ==> StatusRows(lines) == V3Rows(lines)
    ensures (forall i :: 0 <= i < |lines| ==> V3Row(lines[i]).None?) ==> StatusRows(lines) == V2Rows(lines)
  {
    if exists i :: 0 <= i < |lines| && V3Row(lines[i]).Some? {
      var i :| 0 <= i < |lines| && V3Row(lines[i]).Some?;
      CollectMember(V3Row, lines, V3Row(lines[i]).value);
    }
    if V3Rows(lines) != [] {
      CollectMember(V3Row, lines, V3Rows(lines)[0]);
    }
  }

  /** Line `i` lies in the version-2 block opened by the first exact header at `h`:
      no routing-table line comes after the header up to and including line `i`. */
  predicate InV2Block(lines: seq<string>, h: int, i: int) {
    0 <= h < i < |lines| && lines[h] == V2Header && V2Header !in lines[..h] &&
    forall m :: h < m <= i ==> !IsRoutingLine(lines[m])
  }

  lemma V2WindowPosition(lines: seq<string>, h: int, i: int)
    requires 0 <= h < i < |lines|
    ensures InV2Block(lines, h, i) <==>
      FirstIndex(lines, V2Header) == Some(h) && i - h - 1 < |V2Window(lines)|
    ensures InV2Block(lines, h, i) ==> V2Window(lines)[i - h - 1] == lines[i]
  {
    var block := lines[h + 1..];
    var j := i - h - 1;
    BlockEndIsFirstRouting(block, 0);
    var e := BlockEnd(block, 0);
    if InV2Block(lines, h, i) {
      assert lines[h] == V2Header;
      var f := FirstIndex(lines, V2Header);
      assert f.Some?;
      assert f.value == h;
      forall m | 0 <= m <= j
        ensures !IsRoutingLine(block[m])
      {
        assert block[m] == lines[h + 1 + m];
      }
      assert j < e;
      assert V2Window(lines) == block[..e];
    }
    if FirstIndex(lines, V2Header) == Some(h) && j < |V2Window(lines)| {
      assert V2Window(lines) == block[..e];
      forall m | h < m <= i
        ensures !IsRoutingLine(lines[m])
      {
        assert lines[m] == block[m - h - 1];
      }
    }
  }

  /** A version-2 row comes from a line of the version-2 block. */
  lemma V2RowFromBlock(lines: seq<string>, r: Row)
    requires r in V2Rows(lines)
    ensures exists h, i :: InV2Block(lines, h, i) && V2Row(lines[i]) == Some(r)
  {
    var w := V2Window(lines);
    CollectMember(V2Row, w, r);
    var j :| 0 <= j < |w| && V2Row(w[j]) == Some(r);
    assert FirstIndex(lines, V2Header).Some?;
    var h := FirstIndex(lines, V2Header).value;
    var i := h + 1 + j;
    assert w == UntilRouting(lines[h + 1..]);
    assert i < |lines|;
    V2WindowPosition(lines, h, i);
    assert InV2Block(lines, h, i);
    assert V2Row(lines[i]) == Some(r);
  }

  /** A line of the version-2 block contributes its row. */
  lemma V2RowOfBlock(lines: seq<string>, h: int, i: int, r: Row)
    requires InV2Block(lines, h, i) && V2Row(lines[i]) == Some(r)
    ensures r in V2Rows(lines)
  {
    V2WindowPosition(lines, h, i);
    CollectMember(V2Row, V2Window(lines), r);
  }

  /** Which lines feed the version-2 pass (monitor.py:88-110): a row is a version-2
      row exactly when it is what a line of the version-2 block yields. */
  lemma V2RowsWindow(lines: seq<string>, r: Row)
    ensures r in V2Rows(lines) <==>
      exists h, i :: InV2Block(lines, h, i) && V2Row(lines[i]) == Some(r)
  {
    if r in V2Rows(lines) {
      V2RowFromBlock(lines, r);
    }
    if exists h, i :: InV2Block(lines, h, i) && V2Row(lines[i]) == Some(r) {
      var h, i :| InV2Block(lines, h, i) && V2Row(lines[i]) == Some(r);
      V2RowOfBlock(lines, h, i, r);
    }
  }

  /** Every extracted row carries a usable common name and comes from one line of
      the input (monitor.py:71-72, 102-103). */
  lemma StatusRowsUsable(lines: seq<string>, r: Row)
    requires r in StatusRows(lines)
    ensures r.cn != "" && r.cn != UndefCn
    ensures exists i :: 0 <= i < |lines| && (V3Row(lines[i]) == Some(r) || V2Row(lines[i]) == Some(r))
  {
    if |V3Rows(lines)| > 0 {
      CollectMember(V3Row, lines, r);
    } else {
      V2RowsWindow(lines, r);
    }
  }

  // ---------------------------------------------------------------------------
  // Round trip: the rows of a status file that a server writes are read back

  /** A text field the server can write without it being split or trimmed. */
  predicate PlainField(s: string) {
    Trimmed(s) && ',' !in s && '\t' !in s
  }

  /** A row the status file can carry: plain text fields and a usable common name. */
  predicate WritableRow(row: Row) {
    PlainField(row.cn) && PlainField(row.realAddress) && PlainField(row.since) &&
    row.cn != "" && row.cn != UndefCn
  }

  /** The eight leading fields of a status-version-3 CLIENT_LIST line for `row`,
      with the two virtual addresses left empty. */
  function V3Parts(row: Row): seq<string> {
    V3Layout(row, Decimal(row.rx), Decimal(row.tx))
  }

  /** The eight leading fields with the given counter texts. */
  function V3Layout(row: Row, rxText: string, txText: string): seq<string> {
    [ClientListTag, row.cn, row.realAddress, "", "", rxText, txText, row.since]
  }

  /** A tab-separated CLIENT_LIST line as the server writes it. */
  function FormatV3Line(row: Row): string {
    Join(V3Parts(row), '\t')
  }

  lemma {:induction false} NormalizeTabsJoin(parts: seq<string>)
    requires |parts| >= 1
    requires forall k :: 0 <= k < |parts| ==> '\t' !in parts[k]
    ensures NormalizeTabs(Join(parts, '\t')) == Join(parts, ',')
  {
    if |parts| == 1 {
      assert NormalizeTabs(parts[0]) == parts[0];
    } else {
      NormalizeTabsJoin(parts[1..]);
      var a, b := parts[0], Join(parts[1..], '\t');
      assert NormalizeTabs(a + ['\t'] + b) == NormalizeTabs(a) + [','] + NormalizeTabs(b);
      assert NormalizeTabs(a) == a;
    }
  }

  /** Fields without separators or outer whitespace, joined by tabs, are read
      back as those same fields. */
  lemma JoinedFields(parts: seq<string>)
    requires |parts| >= 1
    requires forall k :: 0 <= k < |parts| ==> PlainField(parts[k])
    ensures V3Fields(Join(parts, '\t')) == parts
  {
    NormalizeTabsJoin(parts);
    SplitJoin(parts, ',');
    StripAllTrimmed(parts);
    calc {
      V3Fields(Join(parts, '\t'));
      StripAll(Split(NormalizeTabs(Join(parts, '\t')), ','));
      StripAll(Split(Join(parts, ','), ','));
      StripAll(parts);
    }
  }

  /** A tab-joined line that starts with the tag field is a client-list line. */
  lemma JoinedIsClientList(parts: seq<string>)
    requires |parts| >= 2 && parts[0] == ClientListTag
    ensures IsClientListLine(Join(parts, '\t'))
  {
    var rest := Join(parts[1..], '\t');
    var line := Join(parts, '\t');
    assert line == ClientListTag + ['\t'] + rest;
    assert line[0] == 'C';
    assert LStrip(line) == line;
    assert line[..|ClientListTag|] == ClientListTag;
    assert line[|ClientListTag|] == '\t';
  }

  /** The client-list layout of plain fields reads back as itself. */
  lemma LayoutFields(row: Row, rxText: string, txText: string)
    requires WritableRow(row) && PlainField(rxText) && PlainField(txText)
    ensures V3Fields(Join(V3Layout(row, rxText, txText), '\t')) == V3Layout(row, rxText, txText)
    ensures IsClientListLine(Join(V3Layout(row, rxText, txText), '\t'))
  {
    var parts := V3Layout(row, rxText, txText);
    assert PlainField(parts[0]) by {
      assert parts[0] == ClientListTag;
    }
    assert forall k :: 0 <= k < |parts| ==> PlainField(parts[k]);
    JoinedFields(parts);
    JoinedIsClientList(parts);
  }

  /** The layout of a row, with counter texts that read as the row's counters, makes
      that row again. */
  lemma LayoutFieldsRow(row: Row, rxText: string, txText: string)
    requires row.cn != "" && row.cn != UndefCn
    requires ParseInt(rxText) == Some(row.rx) && ParseInt(txText) == Some(row.tx)
    ensures FieldsRow(V3Layout(row, rxText, txText)) == Some(row)
  {
  }

  /** A written CLIENT_LIST line reads back as the row it was written from. */
  lemma V3LineRoundTrip(row: Row)
    requires WritableRow(row)
    ensures V3Row(FormatV3Line(row)) == Some(row)
  {
    var a, b := Decimal(row.rx), Decimal(row.tx);
    DecimalShape(row.rx, ',');
    DecimalShape(row.rx, '\t');
    DecimalShape(row.tx, ',');
    DecimalShape(row.tx, '\t');
    ParseDecimal(row.rx);
    ParseDecimal(row.tx);
    LayoutFields(row, a, b);
    LayoutFieldsRow(row, a, b);
  }

  lemma StripAllTrimmed(parts: seq<string>)
    requires forall k :: 0 <= k < |parts| ==> Trimmed(parts[k])
    ensures StripAll(parts) == parts
  {
  }

  /** A status file made of written CLIENT_LIST lines yields exactly its rows,
      in order. */
  lemma V3StatusRoundTrip(rows: seq<Row>)
    requires forall k :: 0 <= k < |rows| ==> WritableRow(rows[k])
    ensures StatusRows(seq(|rows|, k requires 0 <= k < |rows| => FormatV3Line(rows[k]))) == rows
  {
    var lines := seq(|rows|, k requires 0 <= k < |rows| => FormatV3Line(rows[k]));
    forall k | 0 <= k < |rows|
      ensures V3Row(lines[k]) == Some(rows[k])
    {
      V3LineRoundTrip(rows[k]);
    }
    CollectAll(V3Row, lines, rows);
    if rows == [] {
      assert V2Window(lines) == [];
    }
  }

  /** When every line yields a row, the rows are exactly those, in order. */
  lemma {:induction false} CollectAll(f: string -> Option<Row>, lines: seq<string>, rows: seq<Row>)
    requires |lines| == |rows|
    requires forall k :: 0 <= k < |lines| ==> f(lines[k]) == Some(rows[k])
    ensures Collect(f, lines) == rows
  {
    if lines != [] {
      CollectAll(f, lines[..|lines| - 1], rows[..|rows| - 1]);
    }
  }

  /** The five fields of a version-2 CSV client line for `row`. */
  function V2Parts(row: Row): seq<string> {
    [row.cn, row.realAddress, Decimal(row.rx), Decimal(row.tx), row.since]
  }

  /** A version-2 CSV client line as the server writes it. */
  function FormatV2Line(row: Row): string {
    Join(V2Parts(row), ',')
  }

  /** The written fields of a row are plain: no separator, tab or outer whitespace. */
  lemma V2PartsPlain(row: Row)
    requires WritableRow(row)
    ensures forall k :: 0 <= k < |V2Parts(row)| ==> PlainField(V2Parts(row)[k])
  {
    DecimalShape(row.rx, ',');
    DecimalShape(row.rx, '\t');
    DecimalShape(row.tx, ',');
    DecimalShape(row.tx, '\t');
  }

  /** A written version-2 line reads back as its five fields. */
  lemma V2LineFields(row: Row)
    requires WritableRow(row)
    ensures V2Fields(FormatV2Line(row)) == V2Parts(row)
  {
    var parts := V2Parts(row);
    V2PartsPlain(row);
    SplitJoin(parts, ',');
    StripAllTrimmed(parts);
  }

  /** A written version-2 line reads back as the row it was written from, unless its
      common name is the header's. */
  lemma V2LineRoundTrip(row: Row)
    requires WritableRow(row) && row.cn != V2HeaderCn
    ensures V2Row(FormatV2Line(row)) == Some(row)
  {
    V2LineFields(row);
    ParseDecimal(row.rx);
    ParseDecimal(row.tx);
  }

  /** A string without tabs is left alone by `NormalizeTabs`. */
  lemma NormalizeTabsFree(s: string)
    requires '\t' !in s
    ensures NormalizeTabs(s) == s
  {
  }

  /** Joining tab-free fields with commas gives a tab-free line. */
  lemma {:induction false} JoinTabFree(parts: seq<string>)
    requires |parts| >= 1
    requires forall k :: 0 <= k < |parts| ==> '\t' !in parts[k]
    ensures '\t' !in Join(parts, ',')
  {
    if |parts| > 1 {
      JoinTabFree(parts[1..]);
    }
  }

  /** A written version-2 line, with its five fields, is never a usable CLIENT_LIST line. */
  lemma V2LineNotV3(row: Row)
    requires WritableRow(row)
    ensures V3Row(FormatV2Line(row)).None?
  {
    var parts := V2Parts(row);
    V2PartsPlain(row);
    JoinTabFree(parts);
    NormalizeTabsFree(FormatV2Line(row));
    V2LineFields(row);
    assert |V3Fields(FormatV2Line(row))| == 5;
  }

  /** `BlockEnd` is the position of the first routing-table line. */
  lemma BlockEndAt(lines: seq<string>, e: nat)
    requires e < |lines| && IsRoutingLine(lines[e])
    requires forall m :: 0 <= m < e ==> !IsRoutingLine(lines[m])
    ensures BlockEnd(lines, 0) == e
  {
    BlockEndIsFirstRouting(lines, 0);
  }

  /** The routing-table header line the server writes after the client block. */
  const RoutingHeader: string := "ROUTING TABLE"

  /** The client lines of a version-2 file written for `rows`. */
  function V2Lines(rows: seq<Row>): seq<string> {
    seq(|rows|, k requires 0 <= k < |rows| => FormatV2Line(rows[k]))
  }

  /** A status-version-2 file as the server writes it: the header, one line per
      client, then the routing-table header. */
  function V2File(rows: seq<Row>): seq<string> {
    [V2Header] + V2Lines(rows) + [RoutingHeader]
  }

  /** A row the version-2 block can carry: writable, not named like the header, and
      not written as a line that would end the block. */
  predicate V2WritableRow(row: Row) {
    WritableRow(row) && row.cn != V2HeaderCn && !IsRoutingLine(FormatV2Line(row))
  }

  /** A line that does not start with whitespace is its own `lstrip`. */
  lemma LStripUnspaced(s: string)
    requires s != [] && !IsSpace(s[0])
    ensures LStrip(s) == s
  {
  }

  /** The version-2 header line does not match the CLIENT_LIST pattern. */
  lemma V2HeaderNotClientList()
    ensures !IsClientListLine(V2Header)
  {
    var h := V2Header;
    assert h[0] == 'C' && h[1] == 'o' && ClientListTag[1] == 'L';
    LStripUnspaced(h);
    assert h[..|ClientListTag|][1] != ClientListTag[1];
  }

  /** The routing-table header line does not match the CLIENT_LIST pattern. */
  lemma RoutingHeaderNotClientList()
    ensures !IsClientListLine(RoutingHeader)
  {
    var t := RoutingHeader;
    assert t[0] == 'R' && ClientListTag[0] == 'C';
    LStripUnspaced(t);
    assert t[..|ClientListTag|][0] != ClientListTag[0];
  }

  /** No line of a written version-2 file is a usable CLIENT_LIST line. */
  lemma V2FileNoV3(rows: seq<Row>)
    requires forall k :: 0 <= k < |rows| ==> V2WritableRow(rows[k])
    ensures V3Rows(V2File(rows)) == []
  {
    var written := V2Lines(rows);
    V2HeaderNotClientList();
    RoutingHeaderNotClientList();
    forall k | 0 <= k < |written|
      ensures V3Row(written[k]).None?
    {
      V2LineNotV3(rows[k]);
    }
    CollectNone(V3Row, written);
    CollectNone(V3Row, [V2Header]);
    CollectNone(V3Row, [RoutingHeader]);
    CollectAppend(V3Row, [V2Header], written);
    CollectAppend(V3Row, [V2Header] + written, [RoutingHeader]);
  }

  /** Lines none of which yields a row yield no rows. */
  lemma {:induction false} CollectNone(f: string -> Option<Row>, lines: seq<string>)
    requires forall k :: 0 <= k < |lines| ==> f(lines[k]).None?
    ensures Collect(f, lines) == []
  {
    if lines != [] {
      CollectNone(f, lines[..|lines| - 1]);
    }
  }

  /** The version-2 pass of a written file reads exactly its client lines. */
  lemma V2FileWindow(rows: seq<Row>)
    requires forall k :: 0 <= k < |rows| ==> V2WritableRow(rows[k])
    ensures V2Window(V2File(rows)) == V2Lines(rows)
  {
    var lines := V2File(rows);
    var written := V2Lines(rows);
    assert FirstIndex(lines, V2Header) == Some(0);
    var block := lines[1..];
    assert block == written + [RoutingHeader];
    assert IsRoutingLine(block[|rows|]);
    forall m | 0 <= m < |rows|
      ensures !IsRoutingLine(block[m])
    {
      assert block[m] == FormatV2Line(rows[m]);
    }
    BlockEndAt(block, |rows|);
    assert UntilRouting(block) == written;
  }

  /** A written status-version-2 file yields exactly its rows, in order. */
  lemma V2StatusRoundTrip(rows: seq<Row>)
    requires forall k :: 0 <= k < |rows| ==> V2WritableRow(rows[k])
    ensures StatusRows(V2File(rows)) == rows
  {
    var written := V2Lines(rows);
    V2FileNoV3(rows);
    V2FileWindow(rows);
    forall k | 0 <= k < |rows|
      ensures V2Row(written[k]) == Some(rows[k])
    {
      V2LineRoundTrip(rows[k]);
    }
    CollectAll(V2Row, written, rows);
  }
}
