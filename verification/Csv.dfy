/**
CSV export of a cost report, and a reader that follows the quoting rules in section 2 of RFC 4180
with LF between records.
*/
module Csv {
  import opened Options
  import opened Reports

  /* ---- printing ---- */

  function Doubled(v: string): string {
    if v == "" then "" else (if v[0] == '"' then "\"\"" else [v[0]]) + Doubled(v[1..])
  }

  function Escape(v: string): string {
    "\"" + Doubled(v) + "\""
  }

  /** A field as the exporter writes it: quoted always, or bare. */
  datatype Field = Quoted(value: string) | Bare(value: string)

  function FieldText(f: Field): string {
    match f
    case Quoted(v) => Escape(v)
    case Bare(v) => v
  }

  function Join(parts: seq<string>, separator: char): string {
    if parts == [] then ""
    else if |parts| == 1 then parts[0]
    else parts[0] + [separator] + Join(parts[1..], separator)
  }

  function Texts(fs: seq<Field>): seq<string> {
    seq(|fs|, i requires 0 <= i < |fs| => FieldText(fs[i]))
  }

  function Values(fs: seq<Field>): seq<string> {
    seq(|fs|, i requires 0 <= i < |fs| => fs[i].value)
  }

  function RowText(fs: seq<Field>): string {
    Join(Texts(fs), ',')
  }

  const HEADER: seq<Field> := [
    Bare("group_by"), Bare("key"), Bare("label"), Bare("input_tokens"), Bare("output_tokens"),
    Bare("cached_input_tokens"), Bare("total_tokens"), Bare("cost_cents"), Bare("credits"), Bare("calls"),
    Bare("records"), Bare("reported_records"), Bare("estimated_records"), Bare("device_count"),
    Bare("user_count"), Bare("agent_count"), Bare("tenant_count"), Bare("last_activity_at")]

  function DimensionName(d: Dimension): string {
    match d
    case Device => "device" case User => "user" case Agent => "agent"
    case Tenant => "tenant" case Model => "model" case Provider => "provider"
  }

  /** The 18 fields of a group; number printing belongs to the platform. */
  function RowOf(d: Dimension, g: Group, number: real -> string): seq<Field> {
    [Bare(DimensionName(d)), Quoted(g.identity.key), Quoted(g.identity.display),
     Bare(number(g.m.input)), Bare(number(g.m.output)), Bare(number(g.m.cached)), Bare(number(g.m.total)),
     Bare(number(g.m.cost)), Bare(number(g.credits)), Bare(number(g.m.calls)),
     Bare(number(g.m.records as real)), Bare(number(g.m.reported as real)), Bare(number(g.m.estimated as real)),
     Bare(number(g.deviceCount as real)), Bare(number(g.userCount as real)), Bare(number(g.agentCount as real)),
     Bare(number(g.tenantCount as real)), Quoted(g.lastActivity)]
  }

  function TableText(rows: seq<seq<Field>>): string {
    Join(seq(|rows|, i requires 0 <= i < |rows| => RowText(rows[i])), '\n')
  }

  function Rows(d: Dimension, gs: seq<Group>, number: real -> string): seq<seq<Field>> {
    [HEADER] + seq(|gs|, i requires 0 <= i < |gs| => RowOf(d, gs[i], number))
  }

  /** `costTokenReportCsv`. */
  function ReportCsv(d: Dimension, gs: seq<Group>, number: real -> string): string {
    TableText(Rows(d, gs, number))
  }

  /* ---- reading ---- */

  datatype Read<T> = Fail | Done(value: T, rest: string)

  /** A quoted field after its opening quote. */
  function ReadQuoted(s: string): (r: Read<string>)
    ensures r.Done? ==> |r.rest| < |s|
    decreases |s|
  {
    if s == "" then Fail
    else if s[0] != '"' then
      match ReadQuoted(s[1..])
      case Fail => Fail
      case Done(v, rest) => Done([s[0]] + v, rest)
    else if |s| > 1 && s[1] == '"' then
      match ReadQuoted(s[2..])
      case Fail => Fail
      case Done(v, rest) => Done(['"'] + v, rest)
    else Done("", s[1..])
  }

  function BareLength(s: string): (n: nat)
    ensures n <= |s|
  {
    if s == "" || s[0] == ',' || s[0] == '\n' then 0 else 1 + BareLength(s[1..])
  }

  function ReadField(s: string): (r: Read<string>)
    ensures r.Done? ==> |r.rest| <= |s|
  {
    if s != "" && s[0] == '"' then ReadQuoted(s[1..])
    else Done(s[..BareLength(s)], s[BareLength(s)..])
  }

  /** The fields up to the end of the record; the rest starts with its line feed, or is empty. */
  function ReadRecord(s: string): (r: Read<seq<string>>)
    ensures r.Done? ==> |r.rest| <= |s|
    decreases |s|
  {
    match ReadField(s)
    case Fail => Fail
    case Done(v, rest) =>
      if rest == "" || rest[0] == '\n' then Done([v], rest)
      else if rest[0] != ',' then Fail
      else
        match ReadRecord(rest[1..])
        case Fail => Fail
        case Done(vs, rest') => Done([v] + vs, rest')
  }

  function ReadTable(s: string): Option<seq<seq<string>>>
    decreases |s|
  {
    match ReadRecord(s)
    case Fail => None
    case Done(vs, rest) =>
      if rest == "" then Some([vs])
      else
        match ReadTable(rest[1..])
        case None => None
        case Some(more) => Some([vs] + more)
  }

  /* ---- reading back ---- */

  /** Text that needs no quotes. */
  predicate Plain(v: string) {
    forall i | 0 <= i < |v| :: v[i] != '"' && v[i] != ',' && v[i] != '\n'
  }

  predicate Safe(f: Field) {
    f.Bare? ==> Plain(f.value)
  }

  /** What follows a field. */
  predicate Ends(rest: string) {
    rest == "" || rest[0] == ',' || rest[0] == '\n'
  }

  lemma ReadMark(s: string, v: string, rest: string)
    requires ReadQuoted(s) == Done(v, rest)
    ensures ReadQuoted("\"\"" + s) == Done(['"'] + v, rest)
  {
    assert ("\"\"" + s)[2..] == s;
  }

  lemma ReadOther(c: char, s: string, v: string, rest: string)
    requires c != '"' && ReadQuoted(s) == Done(v, rest)
    ensures ReadQuoted([c] + s) == Done([c] + v, rest)
  {
    assert ([c] + s)[1..] == s;
  }

  lemma {:induction false} QuotedBack(v: string, rest: string)
    requires Ends(rest)
    ensures ReadQuoted(Doubled(v) + "\"" + rest) == Done(v, rest)
  {
    if v == "" {
      assert Doubled(v) + "\"" + rest == "\"" + rest && ("\"" + rest)[1..] == rest;
    } else {
      var tail := Doubled(v[1..]) + "\"" + rest;
      QuotedBack(v[1..], rest);
      assert v == [v[0]] + v[1..];
      if v[0] == '"' {
        assert Doubled(v) + "\"" + rest == "\"\"" + tail;
        ReadMark(tail, v[1..], rest);
      } else {
        assert Doubled(v) + "\"" + rest == [v[0]] + tail;
        ReadOther(v[0], tail, v[1..], rest);
      }
    }
  }

  lemma {:induction false} BareLengthAt(v: string, rest: string)
    requires Plain(v) && Ends(rest)
    ensures BareLength(v + rest) == |v|
  {
    if v == "" {
      assert v + rest == rest;
    } else {
      BareLengthAt(v[1..], rest);
      assert (v + rest)[1..] == v[1..] + rest;
    }
  }

  lemma FieldBack(f: Field, rest: string)
    requires Safe(f) && Ends(rest)
    ensures ReadField(FieldText(f) + rest) == Done(f.value, rest)
  {
    hide ReadQuoted, BareLength, Doubled;
    match f
    case Quoted(v) =>
      QuotedBack(v, rest);
      assert Escape(v) + rest == ['"'] + (Doubled(v) + "\"" + rest);
      assert (['"'] + (Doubled(v) + "\"" + rest))[1..] == Doubled(v) + "\"" + rest;
    case Bare(v) =>
      BareLengthAt(v, rest);
      assert (v + rest)[..|v|] == v && (v + rest)[|v|..] == rest;
      if v + rest != "" { assert (v + rest)[0] == if v != "" then v[0] else rest[0]; }
  }

  lemma RecordStep(s: string, v: string, after: string, vs: seq<string>, rest: string)
    requires ReadField(s) == Done(v, after)
    requires if vs == [] then after == rest && (rest == "" || rest[0] == '\n')
             else after != "" && after[0] == ',' && ReadRecord(after[1..]) == Done(vs, rest)
    ensures ReadRecord(s) == Done([v] + vs, rest)
  {
    hide ReadField;
    assert [v] + [] == [v];
  }

  lemma {:induction false} RecordBack(fs: seq<Field>, rest: string)
    requires fs != [] && forall i | 0 <= i < |fs| :: Safe(fs[i])
    requires rest == "" || rest[0] == '\n'
    ensures ReadRecord(RowText(fs) + rest) == Done(Values(fs), rest)
  {
    hide ReadField, ReadRecord, FieldText, Safe;
    assert Values(fs) == [fs[0].value] + Values(fs[1..]);
    if |fs| == 1 {
      FieldBack(fs[0], rest);
      assert RowText(fs) == FieldText(fs[0]);
      RecordStep(RowText(fs) + rest, fs[0].value, rest, [], rest);
      assert Values(fs[1..]) == [];
    } else {
      var tail := RowText(fs[1..]) + rest;
      assert Texts(fs)[1..] == Texts(fs[1..]);
      assert RowText(fs) + rest == FieldText(fs[0]) + ([','] + tail);
      FieldBack(fs[0], [','] + tail);
      RecordBack(fs[1..], rest);
      assert ([','] + tail)[1..] == tail;
      RecordStep(RowText(fs) + rest, fs[0].value, [','] + tail, Values(fs[1..]), rest);
    }
  }

  lemma TableStep(s: string, vs: seq<string>, tail: string, more: seq<seq<string>>)
    requires ReadRecord(s) == Done(vs, ['\n'] + tail) && ReadTable(tail) == Some(more)
    ensures ReadTable(s) == Some([vs] + more)
  {
    hide ReadRecord;
    assert (['\n'] + tail)[1..] == tail;
  }

  function AllValues(rows: seq<seq<Field>>): seq<seq<string>> {
    seq(|rows|, i requires 0 <= i < |rows| => Values(rows[i]))
  }

  lemma {:induction false} TableBack(rows: seq<seq<Field>>)
    requires rows != [] && forall i, j | 0 <= i < |rows| && 0 <= j < |rows[i]| :: Safe(rows[i][j])
    requires forall i | 0 <= i < |rows| :: rows[i] != []
    ensures ReadTable(TableText(rows)) == Some(AllValues(rows))
  {
    hide ReadRecord, RowText, Values, Safe;
    var texts := seq(|rows|, i requires 0 <= i < |rows| => RowText(rows[i]));
    assert AllValues(rows) == [Values(rows[0])] + AllValues(rows[1..]);
    if |rows| == 1 {
      RecordBack(rows[0], "");
      assert TableText(rows) == RowText(rows[0]) == RowText(rows[0]) + "";
      assert [Values(rows[0])] + AllValues(rows[1..]) == [Values(rows[0])];
    } else {
      var tail := TableText(rows[1..]);
      assert texts[1..] == seq(|rows| - 1, i requires 0 <= i < |rows| - 1 => RowText(rows[1..][i]));
      assert TableText(rows) == RowText(rows[0]) + (['\n'] + tail);
      RecordBack(rows[0], ['\n'] + tail);
      TableBack(rows[1..]);
      TableStep(RowText(rows[0]) + (['\n'] + tail), Values(rows[0]), tail, AllValues(rows[1..]));
    }
  }

  /** A name made of letters and underscores. */
  predicate Word(v: string) {
    forall i | 0 <= i < |v| :: 'a' <= v[i] <= 'z' || v[i] == '_'
  }

  lemma HeaderWords()
    ensures Word("group_by") && Word("key") && Word("label") && Word("input_tokens") && Word("output_tokens")
    ensures Word("cached_input_tokens") && Word("total_tokens") && Word("cost_cents") && Word("credits") &&
      Word("calls")
  {}

  lemma MoreHeaderWords()
    ensures Word("records") && Word("reported_records") && Word("estimated_records") && Word("device_count")
    ensures Word("user_count") && Word("agent_count") && Word("tenant_count") && Word("last_activity_at")
  {}

  lemma WordPlain(v: string)
    requires Word(v)
    ensures Plain(v)
  {}

  lemma HeaderSafe()
    ensures forall i | 0 <= i < |HEADER| :: Safe(HEADER[i])
    ensures |HEADER| == 18
  {
    hide Word, Plain;
    HeaderWords();
    MoreHeaderWords();
    forall i | 0 <= i < |HEADER| ensures Safe(HEADER[i]) { WordPlain(HEADER[i].value); }
  }

  lemma RowSafe(d: Dimension, g: Group, number: real -> string)
    requires forall x :: Plain(number(x))
    ensures |RowOf(d, g, number)| == 18 && forall j | 0 <= j < 18 :: Safe(RowOf(d, g, number)[j])
  {
    hide Plain, DimensionName;
    DimensionSafe(d);
  }

  lemma DimensionSafe(d: Dimension)
    ensures Plain(DimensionName(d))
  {}

  /** What the first field says of each way of grouping. */
  ghost function Grouping(d: Dimension): string {
    if d == Device then "device" else if d == User then "user" else if d == Agent then "agent"
    else if d == Tenant then "tenant" else if d == Model then "model" else "provider"
  }

  /** What a reader finds in the record of a group. */
  ghost predicate ShowsGroup(row: seq<string>, d: Dimension, g: Group, number: real -> string) {
    && |row| == 18
    && row[0] == Grouping(d) && row[1] == g.identity.key && row[2] == g.identity.display
    && row[3] == number(g.m.input) && row[4] == number(g.m.output) && row[5] == number(g.m.cached)
    && row[6] == number(g.m.total) && row[7] == number(g.m.cost) && row[8] == number(g.credits)
    && row[9] == number(g.m.calls) && row[10] == number(g.m.records as real)
    && row[11] == number(g.m.reported as real) && row[12] == number(g.m.estimated as real)
    && row[13] == number(g.deviceCount as real) && row[14] == number(g.userCount as real)
    && row[15] == number(g.agentCount as real) && row[16] == number(g.tenantCount as real)
    && row[17] == g.lastActivity
  }

  lemma RowShows(d: Dimension, g: Group, number: real -> string)
    ensures ShowsGroup(Values(RowOf(d, g, number)), d, g, number)
  {}

  /**
  Reading the export back gives the header and, for every group, 18 fields: each number in its own
  column, and the original key, label and last activity, whatever characters they contain.
  */
  lemma CsvReadsBack(d: Dimension, gs: seq<Group>, number: real -> string)
    requires forall x :: Plain(number(x))
    ensures var table := ReadTable(ReportCsv(d, gs, number));
      && table.Some? && |table.value| == 1 + |gs|
      && table.value[0] == ["group_by", "key", "label", "input_tokens", "output_tokens", "cached_input_tokens",
           "total_tokens", "cost_cents", "credits", "calls", "records", "reported_records", "estimated_records",
           "device_count", "user_count", "agent_count", "tenant_count", "last_activity_at"]
      && forall i | 0 <= i < |gs| :: ShowsGroup(table.value[i + 1], d, gs[i], number)
  {
    hide ReadTable, TableText, HEADER, Plain, RowOf, ShowsGroup, Values, Safe;
    var rows := Rows(d, gs, number);
    HeaderSafe();
    forall i | 0 <= i < |rows| ensures rows[i] != [] && forall j | 0 <= j < |rows[i]| :: Safe(rows[i][j]) {
      if i > 0 { RowSafe(d, gs[i - 1], number); }
    }
    TableBack(rows);
    forall i | 0 <= i < |gs| ensures ShowsGroup(AllValues(rows)[i + 1], d, gs[i], number) {
      RowShows(d, gs[i], number);
    }
    HeaderNames();
  }

  lemma HeaderNames()
    ensures Values(HEADER) == ["group_by", "key", "label", "input_tokens", "output_tokens", "cached_input_tokens",
      "total_tokens", "cost_cents", "credits", "calls", "records", "reported_records", "estimated_records",
      "device_count", "user_count", "agent_count", "tenant_count", "last_activity_at"]
  {}

  /* ---- the exact text ---- */

  /** Key, label and last activity stand between quotation marks; name and numbers are bare. */
  lemma LineExactly(d: Dimension, g: Group, number: real -> string)
    ensures exists key, shown, last ::
      && Quotes(key, g.identity.key) && Quotes(shown, g.identity.display) && Quotes(last, g.lastActivity)
      && RowText(RowOf(d, g, number)) == Join([Grouping(d), key, shown, number(g.m.input), number(g.m.output),
           number(g.m.cached), number(g.m.total), number(g.m.cost), number(g.credits), number(g.m.calls),
           number(g.m.records as real), number(g.m.reported as real), number(g.m.estimated as real),
           number(g.deviceCount as real), number(g.userCount as real), number(g.agentCount as real),
           number(g.tenantCount as real), last], ',')
  {
    hide Join, Quotes;
    var key, shown, last := Escape(g.identity.key), Escape(g.identity.display), Escape(g.lastActivity);
    QuotesEscape(g.identity.key);
    QuotesEscape(g.identity.display);
    QuotesEscape(g.lastActivity);
    hide Escape;
    assert Texts(RowOf(d, g, number)) == [Grouping(d), key, shown, number(g.m.input), number(g.m.output),
      number(g.m.cached), number(g.m.total), number(g.m.cost), number(g.credits), number(g.m.calls),
      number(g.m.records as real), number(g.m.reported as real), number(g.m.estimated as real),
      number(g.deviceCount as real), number(g.userCount as real), number(g.agentCount as real),
      number(g.tenantCount as real), last];
  }

  /** The text between its marks, where each of its own marks is written twice and nothing else changes. */
  ghost predicate Quotes(t: string, v: string) {
    exists pieces: seq<string> ::
      |pieces| == |v| && t == "\"" + Concat(pieces) + "\""
      && forall i | 0 <= i < |v| :: pieces[i] == if v[i] == '"' then "\"\"" else [v[i]]
  }

  function Concat(pieces: seq<string>): string {
    if pieces == [] then "" else pieces[0] + Concat(pieces[1..])
  }

  lemma DoubledPieces(v: string) returns (pieces: seq<string>)
    ensures |pieces| == |v| && Doubled(v) == Concat(pieces)
    ensures forall i | 0 <= i < |v| :: pieces[i] == if v[i] == '"' then "\"\"" else [v[i]]
  {
    pieces := [];
    if v != "" {
      var rest := DoubledPieces(v[1..]);
      pieces := [if v[0] == '"' then "\"\"" else [v[0]]] + rest;
    }
  }

  lemma QuotesEscape(v: string)
    ensures Quotes(Escape(v), v)
  {
    var pieces := DoubledPieces(v);
  }
}
