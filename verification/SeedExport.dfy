// export_platform_seed.sql: every table printed as INSERT statements, parents before children, and the
// child-first deletes of 02_platform_bootstrap.sql.
module SeedExport {
  import opened Sequences
  import opened Wrappers
  import SqlText

  datatype Table =
    | Environment | Filter | Activity | Growth | Campaign | Subscriber | Segment | Assignment
    | Pipeline | Signal | CampaignAnalytics | Engagement | Daily

  // The position of the table's statements in the export.
  function Section(t: Table): (n: nat)
    ensures 1 <= n <= 13
  {
    match t
    case Environment => 1 case Filter => 2 case Activity => 3 case Growth => 4 case Campaign => 5
    case Subscriber => 6 case Segment => 7 case Assignment => 8 case Pipeline => 9 case Signal => 10
    case CampaignAnalytics => 11 case Engagement => 12 case Daily => 13
  }

  // The text form of a column value.
  datatype Cell = Null | Text(text: string) | Number(digits: string)

  // A row holds its values under the names of the columns.
  datatype Row = Row(table: Table, values: map<string, Cell>)

  datatype Key = Key(table: Table, cells: seq<Cell>)

  // A foreign key: these columns hold the primary key of a row of the table.
  datatype Reference = Reference(table: Table, columns: seq<string>)

  // The tables: their columns, apart from platform_environment.updated_at, primary and foreign keys.
  datatype Schema = Schema(columns: Table -> seq<string>, key: Table -> seq<string>,
                           references: Table -> seq<Reference>, numeric: (Table, string) -> bool)

  const ENVIRONMENT := "environment"

  // Keys begin with the environment, and references go to earlier sections, which are deleted later.
  ghost predicate Layered(d: Schema) {
    && (forall t :: d.key(t) != [] && d.key(t)[0] == ENVIRONMENT)
    && (forall t :: forall i :: 0 <= i < |d.references(t)| ==> RefersUp(t, d.references(t)[i]))
  }

  predicate RefersUp(t: Table, r: Reference) {
    && Section(r.table) < Section(t) && DeleteRank(r.table) > DeleteRank(t)
    && r.columns != [] && r.columns[0] == ENVIRONMENT
  }

  predicate IsNumberChar(c: char) {
    '0' <= c <= '9' || c == '.' || c == '-'
  }

  predicate ValidCell(c: Cell) {
    c.Number? ==> c.digits != "" && forall i :: 0 <= i < |c.digits| ==> IsNumberChar(c.digits[i])
  }

  ghost predicate WellTyped(d: Schema, r: Row) {
    && (forall name :: name in r.values <==> name in d.columns(r.table))
    && (forall name :: name in r.values ==>
          ValidCell(r.values[name]) && (r.values[name].Number? <==> d.numeric(r.table, name)))
  }

  function Under(values: map<string, Cell>, name: string): Cell {
    if name in values then values[name] else Null
  }

  function Picked(values: map<string, Cell>, names: seq<string>): seq<Cell> {
    seq(|names|, i requires 0 <= i < |names| => Under(values, names[i]))
  }

  function KeyOf(d: Schema, r: Row): Key {
    Key(r.table, Picked(r.values, d.key(r.table)))
  }

  // The rows a row's foreign keys refer to.
  function Parents(d: Schema, r: Row): seq<Key> {
    var references := d.references(r.table);
    seq(|references|, i requires 0 <= i < |references| =>
      Key(references[i].table, Picked(r.values, references[i].columns)))
  }

  ghost predicate Consistent(d: Schema, rows: map<Key, Row>) {
    forall k :: k in rows ==>
      && WellTyped(d, rows[k]) && KeyOf(d, rows[k]) == k
      && forall i :: 0 <= i < |Parents(d, rows[k])| ==> Parents(d, rows[k])[i] in rows
  }

  predicate InEnvironment(k: Key, env: Cell) {
    k.cells != [] && k.cells[0] == env
  }

  lemma ParentsComeFirst(d: Schema, r: Row, i: nat)
    requires Layered(d) && i < |Parents(d, r)|
    ensures Section(Parents(d, r)[i].table) < Section(r.table)
    ensures DeleteRank(Parents(d, r)[i].table) > DeleteRank(r.table)
    ensures forall env :: InEnvironment(Parents(d, r)[i], env) <==> InEnvironment(KeyOf(d, r), env)
  {
    assert RefersUp(r.table, d.references(r.table)[i]);
  }

  // ---------- the text of a statement ----------

  // Doubles quotes and backslashes.
  function EscapeBoth(s: string): string {
    if s == "" then ""
    else if s[0] == '\'' then "''" + EscapeBoth(s[1..])
    else if s[0] == '\\' then "\\\\" + EscapeBoth(s[1..])
    else [s[0]] + EscapeBoth(s[1..])
  }

  // %L: quote_literal, which switches to the E'' form when there is a backslash
  function QuoteLiteral(s: string): string {
    if '\\' in s then "E'" + EscapeBoth(s) + "'" else SqlText.SqlString(s)
  }

  function PrintCell(c: Cell): string {
    match c
    case Null => "NULL"
    case Text(s) => QuoteLiteral(s)
    case Number(digits) => digits
  }

  function PrintCells(cells: seq<Cell>): string {
    if cells == [] then ""
    else if |cells| == 1 then PrintCell(cells[0])
    else PrintCell(cells[0]) + ", " + PrintCells(cells[1..])
  }

  // The templates: what every statement begins with, the table's name, the columns listed in the text, the
  // columns whose values are the arguments, in the order of the values, and the assignments of the on
  // conflict clause, as column and excluded column; without any there is no such clause.
  datatype Layout = Layout(lead: string, name: Table -> string, columns: Table -> seq<string>,
                           arguments: Table -> seq<string>, updates: Table -> seq<(string, string)>)

  // A table can be told by its name, which has no space in it; each argument stands at its own column; the
  // columns are those of the table; and a conflict sets every column outside the key from itself.
  ghost predicate Fits(l: Layout, d: Schema) {
    && (forall t, u :: l.name(t) == l.name(u) ==> t == u)
    && (forall t :: ' ' !in l.name(t))
    && (forall t :: FitsTable(l.columns(t), l.arguments(t), d.columns(t)))
    && (forall t :: Restores(l.updates(t), d.columns(t), d.key(t)))
  }

  ghost predicate FitsTable(columns: seq<string>, arguments: seq<string>, known: seq<string>) {
    && SqlText.ValidNames(columns) && Distinct(columns) && arguments == columns
    && forall name :: name in columns <==> name in known
  }

  ghost predicate Restores(updates: seq<(string, string)>, known: seq<string>, key: seq<string>) {
    updates != [] ==>
      && (forall i :: 0 <= i < |updates| ==> updates[i].0 == updates[i].1 && updates[i].0 in known)
      && (forall name :: name in known ==> name in key || (name, name) in updates)
  }

  function PrintSets(updates: seq<(string, string)>): string {
    if updates == [] then ""
    else if |updates| == 1 then updates[0].0 + " = excluded." + updates[0].1
    else updates[0].0 + " = excluded." + updates[0].1 + ", " + PrintSets(updates[1..])
  }

  function Tail(l: Layout, d: Schema, t: Table): string {
    if l.updates(t) == [] then ";"
    else " on conflict (" + SqlText.PrintNames(d.key(t)) + ") do update set " + PrintSets(l.updates(t)) + ";"
  }

  function PrintRow(l: Layout, d: Schema, r: Row): string {
    var t := r.table;
    l.lead + (l.name(t) + (" (" + (SqlText.PrintNames(l.columns(t)) + ")"
      + (" values (" + (PrintCells(Picked(r.values, l.arguments(t))) + ")" + Tail(l, d, t))))))
  }

  // The rest of an E'' literal.
  function ReadEscaped(s: string): (r: Option<(string, string)>)
    ensures r.Some? ==> |r.value.1| < |s|
  {
    if s == "" then None
    else if s[0] == '\'' && !(|s| > 1 && s[1] == '\'') then Some(("", s[1..]))
    else if s[0] == '\'' || s[0] == '\\' then
      if |s| == 1 then None
      else
        match ReadEscaped(s[2..])
        case Some((text, rest)) => Some(([s[1]] + text, rest))
        case None => None
    else
      match ReadEscaped(s[1..])
      case Some((text, rest)) => Some(([s[0]] + text, rest))
      case None => None
  }

  function NumberPrefix(s: string): (n: nat)
    ensures n <= |s|
  {
    if s != "" && IsNumberChar(s[0]) then 1 + NumberPrefix(s[1..]) else 0
  }

  function ReadCell(s: string): (r: Option<(Cell, string)>)
    ensures r.Some? ==> |r.value.1| < |s|
  {
    if s == "" then None
    else if s[0] == 'N' then
      match SqlText.Strip("NULL", s) case Some(rest) => Some((Null, rest)) case None => None
    else if s[0] == '\'' then
      match SqlText.ReadQuoted(s[1..]) case Some((text, rest)) => Some((Text(text), rest)) case None => None
    else if s[0] == 'E' then
      match SqlText.Strip("E'", s)
      case Some(tail) => (match ReadEscaped(tail) case Some((text, rest)) => Some((Text(text), rest)) case None => None)
      case None => None
    else
      var n := NumberPrefix(s);
      if n == 0 then None else Some((Number(s[..n]), s[n..]))
  }

  // Cells up to and including the closing parenthesis.
  function ReadCells(s: string): (r: Option<(seq<Cell>, string)>)
    ensures r.Some? ==> |r.value.1| < |s|
    decreases |s|
  {
    match ReadCell(s)
    case None => None
    case Some((cell, rest)) =>
      if rest != "" && rest[0] == ')' then Some(([cell], rest[1..]))
      else match SqlText.Strip(", ", rest)
           case None => None
           case Some(more) =>
             match ReadCells(more)
             case None => None
             case Some((cells, tail)) => Some(([cell] + cells, tail))
  }

  // The text before the first space.
  function Word(s: string): string {
    if s == "" || s[0] == ' ' then "" else [s[0]] + Word(s[1..])
  }

  function TableNamed(l: Layout, name: string, i: nat): Option<Table>
    requires i <= 13
    decreases 13 - i
  {
    if i == 13 then None
    else if l.name(DeletedAt(i)) == name then Some(DeletedAt(i))
    else TableNamed(l, name, i + 1)
  }

  // One statement; the semicolon that ends it is found by reading, past any in the texts.
  function ReadRow(l: Layout, d: Schema, s: string): (r: Option<(Row, string)>)
    ensures r.Some? ==> |r.value.1| < |s|
  {
    match SqlText.Strip(l.lead, s)
    case None => None
    case Some(named) =>
      match TableNamed(l, Word(named), 0)
      case None => None
      case Some(t) =>
        match SqlText.Strip(l.name(t) + " (", named)
        case None => None
        case Some(listed) => ReadColumns(l, d, t, listed)
  }

  // The columns are read from the text; unknown, repeated and missing ones are refused.
  function ReadColumns(l: Layout, d: Schema, t: Table, s: string): (r: Option<(Row, string)>)
    ensures r.Some? ==> |r.value.1| < |s|
  {
    match SqlText.ReadNames(s)
    case None => None
    case Some((names, rest)) =>
      if && NoRepeats(names)
         && (forall i :: 0 <= i < |names| ==> names[i] in d.columns(t))
         && (forall i :: 0 <= i < |d.columns(t)| ==> d.columns(t)[i] in names)
      then ReadValues(l, d, t, names, rest)
      else None
  }

  // Each value is stored under the name at its place.
  function ReadValues(l: Layout, d: Schema, t: Table, names: seq<string>, s: string): (r: Option<(Row, string)>)
    ensures r.Some? ==> |r.value.1| < |s|
  {
    match SqlText.Strip(" values (", s)
    case None => None
    case Some(values) =>
      match ReadCells(values)
      case None => None
      case Some((cells, rest)) =>
        match SqlText.Strip(Tail(l, d, t), rest)
        case None => None
        case Some(after) => if |cells| == |names| then Some((Row(t, Zip(names, cells)), after)) else None
  }

  // A script: statements, each with a line end.
  function ReadScript(l: Layout, d: Schema, s: string): Option<seq<Row>>
    decreases |s|
  {
    if s == "" then Some([])
    else
      match ReadRow(l, d, s)
      case None => None
      case Some((row, rest)) =>
        match SqlText.Strip("\n", rest)
        case None => None
        case Some(more) =>
          match ReadScript(l, d, more)
          case None => None
          case Some(rows) => Some([row] + rows)
  }

  // What may follow a cell.
  predicate Ends(rest: string) {
    rest != "" && (rest[0] == ',' || rest[0] == ')')
  }

  lemma {:induction false} ReadsEscaped(s: string, rest: string)
    requires rest == "" || rest[0] != '\''
    ensures ReadEscaped(EscapeBoth(s) + "'" + rest) == Some((s, rest))
  {
    var all := EscapeBoth(s) + "'" + rest;
    if s == "" {
      assert all[0] == '\'' && all[1..] == rest;
    } else {
      ReadsEscaped(s[1..], rest);
      var tail := EscapeBoth(s[1..]) + "'" + rest;
      assert s == [s[0]] + s[1..];
      if s[0] == '\'' || s[0] == '\\' {
        assert all == [s[0], s[0]] + tail;
        ReadsDoubled(s[0], tail, s[1..], rest);
      } else {
        assert all == [s[0]] + tail;
        ReadsSingle(s[0], tail, s[1..], rest);
      }
    }
  }

  lemma ReadsDoubled(c: char, tail: string, text: string, rest: string)
    requires (c == '\'' || c == '\\') && ReadEscaped(tail) == Some((text, rest))
    ensures ReadEscaped([c, c] + tail) == Some(([c] + text, rest))
  {
    assert ([c, c] + tail)[2..] == tail;
  }

  lemma ReadsSingle(c: char, tail: string, text: string, rest: string)
    requires c != '\'' && c != '\\' && ReadEscaped(tail) == Some((text, rest))
    ensures ReadEscaped([c] + tail) == Some(([c] + text, rest))
  {
    assert ([c] + tail)[1..] == tail;
  }

  lemma {:induction false} NumberPrefixOf(digits: string, rest: string)
    requires (forall i :: 0 <= i < |digits| ==> IsNumberChar(digits[i])) && Ends(rest)
    ensures NumberPrefix(digits + rest) == |digits|
  {
    if digits == "" {
      assert digits + rest == rest;
    } else {
      NumberPrefixOf(digits[1..], rest);
      assert (digits + rest)[1..] == digits[1..] + rest;
    }
  }

  lemma ReadsPlainText(s: string, rest: string)
    requires Ends(rest)
    ensures ReadCell(SqlText.SqlString(s) + rest) == Some((Text(s), rest))
  {
    var all := SqlText.SqlString(s) + rest;
    SqlText.ReadsEscaped(s, rest);
    assert all[0] == '\'';
    assert all[1..] == SqlText.Escape(s) + "'" + rest;
  }

  lemma ReadsEscapedText(s: string, rest: string)
    requires Ends(rest)
    ensures ReadCell("E'" + EscapeBoth(s) + "'" + rest) == Some((Text(s), rest))
  {
    var prefix := "E'";
    var tail := EscapeBoth(s) + "'" + rest;
    ReadsEscaped(s, rest);
    SqlText.StripAppend(prefix, tail);
    assert prefix + EscapeBoth(s) + "'" + rest == prefix + tail;
    assert (prefix + tail)[0] == 'E';
  }

  lemma ReadsText(s: string, rest: string)
    requires Ends(rest)
    ensures ReadCell(QuoteLiteral(s) + rest) == Some((Text(s), rest))
  {
    if '\\' in s {
      ReadsEscapedText(s, rest);
    } else {
      ReadsPlainText(s, rest);
    }
  }

  lemma ReadsNumber(digits: string, rest: string)
    requires ValidCell(Number(digits)) && Ends(rest)
    ensures ReadCell(digits + rest) == Some((Number(digits), rest))
  {
    NumberPrefixOf(digits, rest);
    assert (digits + rest)[0] == digits[0] && IsNumberChar(digits[0]);
    assert (digits + rest)[..|digits|] == digits;
  }

  lemma ReadsCell(c: Cell, rest: string)
    requires ValidCell(c) && Ends(rest)
    ensures ReadCell(PrintCell(c) + rest) == Some((c, rest))
  {
    match c {
      case Null =>
        SqlText.StripAppend("NULL", rest);
        assert ("NULL" + rest)[0] == 'N';
      case Text(s) => ReadsText(s, rest);
      case Number(digits) => ReadsNumber(digits, rest);
    }
  }

  lemma ReadsLast(s: string, c: Cell, rest: string)
    requires ReadCell(s) == Some((c, ")" + rest))
    ensures ReadCells(s) == Some(([c], rest))
  {
    assert (")" + rest)[1..] == rest;
  }

  lemma ReadsMore(s: string, c: Cell, more: string, cells: seq<Cell>, rest: string)
    requires ReadCell(s) == Some((c, ", " + more)) && ReadCells(more) == Some((cells, rest))
    ensures ReadCells(s) == Some(([c] + cells, rest))
  {
    SqlText.StripAppend(", ", more);
  }

  lemma {:induction false} ReadsCells(cells: seq<Cell>, rest: string)
    requires cells != [] && forall i :: 0 <= i < |cells| ==> ValidCell(cells[i])
    ensures ReadCells(PrintCells(cells) + ")" + rest) == Some((cells, rest))
  {
    var all := PrintCells(cells) + ")" + rest;
    SqlText.Reassociate(PrintCell(cells[0]), PrintCells(cells[1..]), rest);
    if |cells| == 1 {
      assert cells == [cells[0]];
      ReadsCell(cells[0], ")" + rest);
      ReadsLast(all, cells[0], rest);
    } else {
      var more := PrintCells(cells[1..]) + ")" + rest;
      assert cells == [cells[0]] + cells[1..];
      ReadsCells(cells[1..], rest);
      ReadsCell(cells[0], ", " + more);
      ReadsMore(all, cells[0], more, cells[1..], rest);
    }
  }

  lemma {:induction false} WordOf(name: string, rest: string)
    requires ' ' !in name && rest != "" && rest[0] == ' '
    ensures Word(name + rest) == name
  {
    if name == "" {
      assert name + rest == rest;
    } else {
      WordOf(name[1..], rest);
      assert (name + rest)[1..] == name[1..] + rest;
    }
  }

  lemma {:induction false} FindsTable(l: Layout, d: Schema, t: Table, i: nat)
    requires Fits(l, d) && i <= DeleteRank(t)
    ensures TableNamed(l, l.name(t), i) == Some(t)
    decreases 13 - i
  {
    if i < DeleteRank(t) && DeletedAt(i) != t {
      FindsTable(l, d, t, i + 1);
    }
  }

  lemma ReadsRest(l: Layout, d: Schema, r: Row, rest: string)
    requires Fits(l, d) && WellTyped(d, r)
    ensures ReadValues(l, d, r.table, l.columns(r.table),
                       " values (" + (PrintCells(Picked(r.values, l.arguments(r.table))) + ")"
                                      + (Tail(l, d, r.table) + rest)))
            == Some((r, rest))
  {
    var t := r.table;
    var cells, tail := Picked(r.values, l.arguments(t)), Tail(l, d, t);
    assert FitsTable(l.columns(t), l.arguments(t), d.columns(t));
    SqlText.StripAppend(" values (", PrintCells(cells) + ")" + (tail + rest));
    PickedAreValid(d, r, l.arguments(t));
    ReadsCells(cells, tail + rest);
    SqlText.StripAppend(tail, rest);
    ZipOfPicked(r.values, l.columns(t));
  }

  lemma PickedAreValid(d: Schema, r: Row, names: seq<string>)
    requires WellTyped(d, r)
    ensures forall i :: 0 <= i < |names| ==> ValidCell(Picked(r.values, names)[i])
  {
  }

  // Values picked by name and stored by name are the values.
  lemma ZipOfPicked(values: map<string, Cell>, names: seq<string>)
    requires Distinct(names) && forall name :: name in names <==> name in values
    ensures Zip(names, Picked(values, names)) == values
  {
    var cells := Picked(values, names);
    ZipAt(names, cells);
    forall name | name in values
      ensures name in Zip(names, cells) && Zip(names, cells)[name] == values[name]
    {
      var i :| 0 <= i < |names| && names[i] == name;
      assert Zip(names, cells)[names[i]] == cells[i];
    }
  }

  lemma ReadsListed(l: Layout, d: Schema, r: Row, rest: string)
    requires Fits(l, d) && WellTyped(d, r)
    ensures ReadColumns(l, d, r.table,
                        SqlText.PrintNames(l.columns(r.table)) + ")"
                        + (" values (" + (PrintCells(Picked(r.values, l.arguments(r.table))) + ")"
                                          + (Tail(l, d, r.table) + rest))))
            == Some((r, rest))
  {
    var t := r.table;
    var more := " values (" + (PrintCells(Picked(r.values, l.arguments(t))) + ")" + (Tail(l, d, t) + rest));
    assert FitsTable(l.columns(t), l.arguments(t), d.columns(t));
    NoRepeatsIsDistinct(l.columns(t));
    SqlText.ReadsNames(l.columns(t), more);
    ReadsRest(l, d, r, rest);
  }

  lemma FindsName(l: Layout, d: Schema, t: Table, listed: string)
    requires Fits(l, d)
    ensures TableNamed(l, Word(l.name(t) + (" (" + listed)), 0) == Some(t)
    ensures SqlText.Strip(l.name(t) + " (", l.name(t) + (" (" + listed)) == Some(listed)
  {
    WordOf(l.name(t), " (" + listed);
    FindsTable(l, d, t, 0);
    assert l.name(t) + (" (" + listed) == (l.name(t) + " (") + listed;
    SqlText.StripAppend(l.name(t) + " (", listed);
  }

  lemma Regroup(lead: string, name: string, names: string, cells: string, tail: string, rest: string)
    ensures (lead + (name + (" (" + (names + ")" + (" values (" + (cells + ")" + tail)))))) + rest ==
            lead + (name + (" (" + (names + ")" + (" values (" + (cells + ")" + (tail + rest))))))
  {
    var values := " values (" + (cells + ")" + tail);
    assert values + rest == " values (" + (cells + ")" + (tail + rest));
    var listed := " (" + (names + ")" + values);
    assert listed + rest == " (" + (names + ")" + (values + rest));
    assert (lead + (name + listed)) + rest == lead + (name + (listed + rest));
  }

  // Whatever the texts contain, a printed statement reads back as its row, each value under its own
  // column, and reading stops at its end.
  lemma ReadsRow(l: Layout, d: Schema, r: Row, rest: string)
    requires Fits(l, d) && WellTyped(d, r)
    ensures ReadRow(l, d, PrintRow(l, d, r) + rest) == Some((r, rest))
  {
    var t := r.table;
    var names, cells := SqlText.PrintNames(l.columns(t)), PrintCells(Picked(r.values, l.arguments(t)));
    var listed := names + ")" + (" values (" + (cells + ")" + (Tail(l, d, t) + rest)));
    Regroup(l.lead, l.name(t), names, cells, Tail(l, d, t), rest);
    SqlText.StripAppend(l.lead, l.name(t) + (" (" + listed));
    FindsName(l, d, t, listed);
    ReadsListed(l, d, r, rest);
  }

  // ---------- export and replay ----------

  // The exported tables, and platform_environment.updated_at, which the export leaves out.
  datatype Database = Database(rows: map<Key, Row>, updatedAt: map<Key, int>)

  // One statement: refused when it refers to a row that is not there, or breaks a primary key without an on
  // conflict clause; with one it sets the columns of the row that is there.
  function Execute(l: Layout, d: Schema, db: Database, r: Row, now: int): Option<Database> {
    var key := KeyOf(d, r);
    if exists i :: 0 <= i < |Parents(d, r)| && Parents(d, r)[i] !in db.rows then None
    else if key !in db.rows then Some(Stored(d, db, r, now))
    else if l.updates(r.table) == [] then None
    else Some(Stored(d, db, Updated(db.rows[key], r, l.updates(r.table)), now))
  }

  function Stored(d: Schema, db: Database, r: Row, now: int): Database {
    Database(db.rows[KeyOf(d, r) := r],
             if r.table.Environment? then db.updatedAt[KeyOf(d, r) := now] else db.updatedAt)
  }

  // do update set: each column from the excluded row.
  function Updated(before: Row, excluded: Row, updates: seq<(string, string)>): Row {
    if updates == [] then before
    else
      var n := |updates| - 1;
      var sofar := Updated(before, excluded, updates[..n]);
      Row(before.table, sofar.values[updates[n].0 := Under(excluded.values, updates[n].1)])
  }

  lemma {:induction false} UpdatedValues(before: Row, excluded: Row, updates: seq<(string, string)>, name: string)
    requires before.table == excluded.table
    requires forall i :: 0 <= i < |updates| ==> updates[i].0 == updates[i].1
    ensures Updated(before, excluded, updates).table == before.table
    ensures (name, name) in updates ==>
              name in Updated(before, excluded, updates).values
              && Updated(before, excluded, updates).values[name] == Under(excluded.values, name)
    ensures (name, name) !in updates ==>
              && (name in Updated(before, excluded, updates).values <==> name in before.values)
              && (name in before.values ==> Updated(before, excluded, updates).values[name] == before.values[name])
  {
    if updates != [] {
      var n := |updates| - 1;
      assert updates == updates[..n] + [updates[n]];
      UpdatedValues(before, excluded, updates[..n], name);
      if (name, name) in updates && updates[n].0 != name {
        assert (name, name) in updates[..n];
      }
    }
  }

  // So a conflict leaves the excluded row.
  lemma ConflictTakesNewRow(l: Layout, d: Schema, db: Database, r: Row, now: int)
    requires Fits(l, d) && WellTyped(d, r) && l.updates(r.table) != []
    requires var key := KeyOf(d, r);
             key in db.rows && WellTyped(d, db.rows[key]) && KeyOf(d, db.rows[key]) == key
    requires forall i :: 0 <= i < |Parents(d, r)| ==> Parents(d, r)[i] in db.rows
    ensures Execute(l, d, db, r, now) == Some(Stored(d, db, r, now))
  {
    var was, updates := db.rows[KeyOf(d, r)], l.updates(r.table);
    var result := Updated(was, r, updates);
    assert Restores(updates, d.columns(r.table), d.key(r.table));
    forall name
      ensures name in result.values <==> name in r.values
      ensures name in r.values ==> result.values[name] == r.values[name]
    {
      UpdatedValues(was, r, updates, name);
      if name in d.key(r.table) {
        SameKeySameValue(d, was, r, name);
      }
      if (name, name) in updates {
        var i :| 0 <= i < |updates| && updates[i] == (name, name);
        assert updates[i].0 in d.columns(r.table);
      }
    }
    UpdatedValues(was, r, updates, "");
    assert result.values == r.values && result == r;
  }

  lemma SameKeySameValue(d: Schema, was: Row, r: Row, name: string)
    requires KeyOf(d, was) == KeyOf(d, r) && name in d.key(r.table)
    ensures Under(was.values, name) == Under(r.values, name)
  {
    var i :| 0 <= i < |d.key(r.table)| && d.key(r.table)[i] == name;
    assert KeyOf(d, was).cells[i] == KeyOf(d, r).cells[i];
  }

  function Replay(l: Layout, d: Schema, db: Database, rows: seq<Row>, now: int): Option<Database> {
    if rows == [] then Some(db)
    else match Replay(l, d, db, rows[..|rows| - 1], now)
         case None => None
         case Some(sofar) => Execute(l, d, sofar, rows[|rows| - 1], now)
  }

  // Reads a script and executes its statements in order.
  function ReplayScript(l: Layout, d: Schema, db: Database, script: string, now: int): Option<Database> {
    match ReadScript(l, d, script)
    case None => None
    case Some(rows) => Replay(l, d, db, rows, now)
  }

  // A listing of the rows in the export's order: each once, section by section. The order by text
  // inside a section is one of these.
  ghost predicate Lists(d: Schema, rows: map<Key, Row>, order: seq<Row>) {
    && (forall i :: 0 <= i < |order| ==>
          KeyOf(d, order[i]) in rows && rows[KeyOf(d, order[i])] == order[i])
    && (forall k :: k in rows ==> exists i :: 0 <= i < |order| && order[i] == rows[k])
    && (forall i, j :: 0 <= i < j < |order| ==> order[i] != order[j])
    && (forall i, j :: 0 <= i < j < |order| ==> Section(order[i].table) <= Section(order[j].table))
  }

  lemma {:induction false} LatestRow(rows: map<Key, Row>) returns (k: Key)
    requires exists j :: j in rows
    ensures k in rows && forall j :: j in rows ==> Section(j.table) <= Section(k.table)
  {
    k :| k in rows;
    var rest := rows - {k};
    assert forall j :: j in rows ==> j == k || j in rest;
    if exists j :: j in rest {
      var later := LatestRow(rest);
      if Section(k.table) < Section(later.table) {
        k := later;
      }
    }
  }

  // Every state has such a listing.
  lemma {:induction false} ListingExists(d: Schema, rows: map<Key, Row>) returns (order: seq<Row>)
    requires forall k :: k in rows ==> KeyOf(d, rows[k]) == k
    ensures Lists(d, rows, order)
  {
    if exists k :: k in rows {
      var k := LatestRow(rows);
      var before := ListingExists(d, rows - {k});
      order := before + [rows[k]];
      ListsOneMore(d, rows, k, before);
    } else {
      order := [];
    }
  }

  lemma ListedEarlier(d: Schema, rows: map<Key, Row>, k: Key, before: seq<Row>, i: nat)
    requires k in rows && forall j :: j in rows ==> KeyOf(d, rows[j]) == j && Section(j.table) <= Section(k.table)
    requires Lists(d, rows - {k}, before) && i < |before|
    ensures KeyOf(d, before[i]) in rows && rows[KeyOf(d, before[i])] == before[i] && before[i] != rows[k]
    ensures Section(before[i].table) <= Section(rows[k].table)
  {
    var rest := rows - {k};
    assert KeyOf(d, before[i]) in rest && rest[KeyOf(d, before[i])] == before[i];
    assert rows[k].table == k.table;
  }

  lemma ListedSomewhere(d: Schema, rows: map<Key, Row>, k: Key, before: seq<Row>, j: Key)
    requires k in rows && j in rows && Lists(d, rows - {k}, before)
    ensures exists i :: 0 <= i <= |before| && (before + [rows[k]])[i] == rows[j]
  {
    var order := before + [rows[k]];
    if j == k {
      assert order[|before|] == rows[j];
    } else {
      assert j in rows - {k} && (rows - {k})[j] == rows[j];
      var i :| 0 <= i < |before| && before[i] == rows[j];
      assert order[i] == rows[j];
    }
  }

  lemma ListsOneMore(d: Schema, rows: map<Key, Row>, k: Key, before: seq<Row>)
    requires k in rows && forall j :: j in rows ==> KeyOf(d, rows[j]) == j && Section(j.table) <= Section(k.table)
    requires Lists(d, rows - {k}, before)
    ensures Lists(d, rows, before + [rows[k]])
  {
    var order := before + [rows[k]];
    forall j | j in rows
      ensures exists i :: 0 <= i < |order| && order[i] == rows[j]
    {
      ListedSomewhere(d, rows, k, before, j);
    }
    forall i | 0 <= i < |before|
      ensures KeyOf(d, before[i]) in rows && rows[KeyOf(d, before[i])] == before[i] && before[i] != rows[k]
      ensures Section(before[i].table) <= Section(rows[k].table)
    {
      ListedEarlier(d, rows, k, before, i);
    }
    InOrder(before, rows[k]);
  }

  lemma InOrder(before: seq<Row>, last: Row)
    requires forall i, j :: 0 <= i < j < |before| ==>
               before[i] != before[j] && Section(before[i].table) <= Section(before[j].table)
    requires forall i :: 0 <= i < |before| ==> before[i] != last && Section(before[i].table) <= Section(last.table)
    ensures var order := before + [last];
            forall i, j :: 0 <= i < j < |order| ==>
              order[i] != order[j] && Section(order[i].table) <= Section(order[j].table)
  {
  }

  // One text a line.
  function Lines(texts: seq<string>): string {
    if texts == [] then "" else texts[0] + ("\n" + Lines(texts[1..]))
  }

  // The script: one statement a line.
  function Export(l: Layout, d: Schema, order: seq<Row>): string {
    Lines(Printed(l, d, order))
  }

  function Printed(l: Layout, d: Schema, order: seq<Row>): seq<string> {
    seq(|order|, i requires 0 <= i < |order| => PrintRow(l, d, order[i]))
  }

  ghost predicate ReadsAs(l: Layout, d: Schema, text: string, r: Row) {
    forall rest: string :: ReadRow(l, d, text + rest) == Some((r, rest))
  }

  lemma PrintedReads(l: Layout, d: Schema, r: Row)
    requires Fits(l, d) && WellTyped(d, r)
    ensures ReadsAs(l, d, PrintRow(l, d, r), r)
  {
    forall rest: string
      ensures ReadRow(l, d, PrintRow(l, d, r) + rest) == Some((r, rest))
    {
      ReadsRow(l, d, r, rest);
    }
  }

  lemma ReadsLine(l: Layout, d: Schema, text: string, r: Row, more: string, rows: seq<Row>)
    requires ReadsAs(l, d, text, r) && ReadScript(l, d, more) == Some(rows)
    ensures ReadScript(l, d, text + ("\n" + more)) == Some([r] + rows)
  {
    ReadsOn(l, d, text, r, "\n" + more);
    ReadsScriptCons(l, d, text + ("\n" + more), r, more, rows);
  }

  lemma ReadsOn(l: Layout, d: Schema, text: string, r: Row, rest: string)
    requires ReadsAs(l, d, text, r)
    ensures ReadRow(l, d, text + rest) == Some((r, rest))
  {
  }

  lemma ReadsScriptCons(l: Layout, d: Schema, s: string, r: Row, more: string, rows: seq<Row>)
    requires s != "" && ReadRow(l, d, s) == Some((r, "\n" + more)) && ReadScript(l, d, more) == Some(rows)
    ensures ReadScript(l, d, s) == Some([r] + rows)
  {
    SqlText.StripAppend("\n", more);
  }

  lemma {:induction false} ReadsLines(l: Layout, d: Schema, texts: seq<string>, order: seq<Row>)
    requires |texts| == |order| && forall i :: 0 <= i < |order| ==> ReadsAs(l, d, texts[i], order[i])
    ensures ReadScript(l, d, Lines(texts)) == Some(order)
  {
    if texts != [] {
      ReadsLines(l, d, texts[1..], order[1..]);
      ReadsLine(l, d, texts[0], order[0], Lines(texts[1..]), order[1..]);
      assert order == [order[0]] + order[1..];
    }
  }

  // The script reads back as the rows, in order.
  lemma ReadsScript(l: Layout, d: Schema, order: seq<Row>)
    requires Fits(l, d) && forall i :: 0 <= i < |order| ==> WellTyped(d, order[i])
    ensures ReadScript(l, d, Export(l, d, order)) == Some(order)
  {
    var texts := Printed(l, d, order);
    forall i | 0 <= i < |order|
      ensures ReadsAs(l, d, texts[i], order[i])
    {
      PrintedReads(l, d, order[i]);
    }
    ReadsLines(l, d, texts, order);
  }

  // What replaying at one instant leaves in updated_at.
  function Touched(rows: map<Key, Row>, now: int): map<Key, int> {
    map k | k in rows && k.table.Environment? :: now
  }

  // The rows of the first n listed.
  ghost predicate Rebuilt(d: Schema, rows: map<Key, Row>, order: seq<Row>, n: nat, db: Database, now: int)
    requires n <= |order|
  {
    && (forall k :: k in db.rows ==> k in rows && db.rows[k] == rows[k] && rows[k] in order[..n])
    && (forall i :: 0 <= i < n ==> KeyOf(d, order[i]) in db.rows)
    && db.updatedAt == Touched(db.rows, now)
  }

  lemma EarlierSectionIsRebuilt(d: Schema, rows: map<Key, Row>, order: seq<Row>, n: nat, db: Database, now: int, p: Key)
    requires Lists(d, rows, order) && n < |order| && Rebuilt(d, rows, order, n, db, now)
    requires p in rows && KeyOf(d, rows[p]) == p
    requires Section(p.table) < Section(order[n].table)
    ensures p in db.rows
  {
    var j := ListedAt(d, rows, order, p);
    ComesEarlier(d, rows, order, j, n);
    assert KeyOf(d, order[j]) in db.rows;
  }

  lemma ListedAt(d: Schema, rows: map<Key, Row>, order: seq<Row>, p: Key) returns (j: nat)
    requires Lists(d, rows, order) && p in rows
    ensures j < |order| && order[j] == rows[p]
  {
    j :| 0 <= j < |order| && order[j] == rows[p];
  }

  lemma ComesEarlier(d: Schema, rows: map<Key, Row>, order: seq<Row>, j: nat, n: nat)
    requires Lists(d, rows, order) && j < |order| && n < |order|
    requires Section(order[j].table) < Section(order[n].table)
    ensures j < n
  {
  }

  lemma ParentsAreRebuilt(d: Schema, rows: map<Key, Row>, order: seq<Row>, n: nat, db: Database, now: int, i: nat)
    requires Layered(d) && Consistent(d, rows) && Lists(d, rows, order)
    requires n < |order| && Rebuilt(d, rows, order, n, db, now)
    requires i < |Parents(d, order[n])|
    ensures Parents(d, order[n])[i] in db.rows
  {
    var r := order[n];
    var key, p := KeyOf(d, r), Parents(d, r)[i];
    assert key in rows && rows[key] == r;
    assert p in rows;
    ParentsComeFirst(d, r, i);
    EarlierSectionIsRebuilt(d, rows, order, n, db, now, p);
  }

  lemma NotYetRebuilt(d: Schema, rows: map<Key, Row>, order: seq<Row>, n: nat, db: Database, now: int)
    requires Lists(d, rows, order) && n < |order| && Rebuilt(d, rows, order, n, db, now)
    ensures KeyOf(d, order[n]) !in db.rows
  {
    assert order[n] !in order[..n];
    assert rows[KeyOf(d, order[n])] == order[n];
  }

  lemma TouchedInsert(d: Schema, rows: map<Key, Row>, r: Row, now: int)
    ensures var key := KeyOf(d, r);
            Touched(rows[key := r], now) ==
            if r.table.Environment? then Touched(rows, now)[key := now] else Touched(rows, now)
  {
  }

  lemma InsertRebuilds(d: Schema, rows: map<Key, Row>, order: seq<Row>, n: nat, db: Database, now: int)
    requires Lists(d, rows, order) && n < |order| && Rebuilt(d, rows, order, n, db, now)
    ensures var inserted := db.rows[KeyOf(d, order[n]) := order[n]];
            Rebuilt(d, rows, order, n + 1, Database(inserted, Touched(inserted, now)), now)
  {
    var key, r := KeyOf(d, order[n]), order[n];
    var inserted := db.rows[key := r];
    assert order[..n + 1] == order[..n] + [r];
    forall k | k in inserted
      ensures k in rows && inserted[k] == rows[k] && rows[k] in order[..n + 1]
    {
      if k == key {
        assert key in rows && rows[key] == r;
      } else {
        assert k in db.rows;
      }
    }
  }

  lemma StepRebuilds(l: Layout, d: Schema, rows: map<Key, Row>, order: seq<Row>, n: nat, db: Database, now: int)
    requires Layered(d) && Consistent(d, rows) && Lists(d, rows, order)
    requires n < |order| && Rebuilt(d, rows, order, n, db, now)
    ensures Execute(l, d, db, order[n], now).Some?
    ensures Rebuilt(d, rows, order, n + 1, Execute(l, d, db, order[n], now).value, now)
  {
    var r := order[n];
    NotYetRebuilt(d, rows, order, n, db, now);
    forall i | 0 <= i < |Parents(d, r)|
      ensures Parents(d, r)[i] in db.rows
    {
      ParentsAreRebuilt(d, rows, order, n, db, now, i);
    }
    ExecuteInserts(l, d, db, r, now);
    TouchedInsert(d, db.rows, r, now);
    InsertRebuilds(d, rows, order, n, db, now);
  }

  lemma ExecuteInserts(l: Layout, d: Schema, db: Database, r: Row, now: int)
    requires KeyOf(d, r) !in db.rows && forall i :: 0 <= i < |Parents(d, r)| ==> Parents(d, r)[i] in db.rows
    ensures Execute(l, d, db, r, now) == Some(Stored(d, db, r, now))
  {
  }

  lemma ReplayStep(l: Layout, d: Schema, db: Database, rows: seq<Row>, n: nat, now: int)
    requires n < |rows|
    ensures Replay(l, d, db, rows[..n + 1], now) ==
            match Replay(l, d, db, rows[..n], now)
            case None => None
            case Some(sofar) => Execute(l, d, sofar, rows[n], now)
  {
    assert rows[..n + 1][..n] == rows[..n];
  }

  lemma {:induction false} ReplayRebuilds(l: Layout, d: Schema, rows: map<Key, Row>, order: seq<Row>, n: nat, now: int)
    requires Layered(d) && Consistent(d, rows) && Lists(d, rows, order) && n <= |order|
    ensures var db := Replay(l, d, Database(map[], map[]), order[..n], now);
            db.Some? && Rebuilt(d, rows, order, n, db.value, now)
  {
    if n > 0 {
      ReplayRebuilds(l, d, rows, order, n - 1, now);
      ReplayStep(l, d, Database(map[], map[]), order, n - 1, now);
      StepRebuilds(l, d, rows, order, n - 1, Replay(l, d, Database(map[], map[]), order[..n - 1], now).value, now);
    } else {
      NothingRebuilt(d, rows, order, now);
    }
  }

  lemma NothingRebuilt(d: Schema, rows: map<Key, Row>, order: seq<Row>, now: int)
    ensures Rebuilt(d, rows, order, 0, Database(map[], map[]), now)
  {
  }

  // Replaying an exported script into an empty schema never violates a key and rebuilds every table
  // exactly; only updated_at is the time of the replay.
  lemma ReplayRestoresExport(l: Layout, d: Schema, rows: map<Key, Row>, order: seq<Row>, now: int)
    requires Layered(d) && Fits(l, d) && Consistent(d, rows) && Lists(d, rows, order)
    ensures ReplayScript(l, d, Database(map[], map[]), Export(l, d, order), now) ==
            Some(Database(rows, Touched(rows, now)))
  {
    ReplayRebuilds(l, d, rows, order, |order|, now);
    assert order[..|order|] == order;
    AllRebuilt(d, rows, order, Replay(l, d, Database(map[], map[]), order, now).value, now);
    forall i | 0 <= i < |order|
      ensures WellTyped(d, order[i])
    {
      assert WellTyped(d, rows[KeyOf(d, order[i])]);
    }
    ReadsScript(l, d, order);
  }

  lemma AllRebuilt(d: Schema, rows: map<Key, Row>, order: seq<Row>, db: Database, now: int)
    requires Consistent(d, rows) && Lists(d, rows, order) && Rebuilt(d, rows, order, |order|, db, now)
    ensures db == Database(rows, Touched(rows, now))
  {
    forall k | k in rows
      ensures k in db.rows
    {
      RowIsRebuilt(d, rows, order, db, now, k);
    }
    SameRows(rows, db.rows);
  }

  lemma SameRows(a: map<Key, Row>, b: map<Key, Row>)
    requires (forall k :: k in a ==> k in b) && forall k :: k in b ==> k in a && b[k] == a[k]
    ensures a == b
  {
  }

  lemma RowIsRebuilt(d: Schema, rows: map<Key, Row>, order: seq<Row>, db: Database, now: int, k: Key)
    requires Consistent(d, rows) && Lists(d, rows, order) && Rebuilt(d, rows, order, |order|, db, now) && k in rows
    ensures k in db.rows
  {
    var i :| 0 <= i < |order| && order[i] == rows[k];
    assert KeyOf(d, order[i]) in db.rows;
    assert KeyOf(d, rows[k]) == k;
  }

  // ---------- clearing an environment before reseeding it ----------

  // The deletes of 02_platform_bootstrap.sql, in order.
  function DeletedAt(i: nat): Table
    requires i < 13
  {
    [ Daily, Engagement, CampaignAnalytics, Assignment, Segment, Signal, Pipeline, Activity, Growth,
      Subscriber, Campaign, Filter, Environment ][i]
  }

  function DeleteRank(t: Table): (n: nat)
    ensures n < 13 && DeletedAt(n) == t
  {
    match t
    case Daily => 0 case Engagement => 1 case CampaignAnalytics => 2 case Assignment => 3 case Segment => 4
    case Signal => 5 case Pipeline => 6 case Activity => 7 case Growth => 8 case Subscriber => 9
    case Campaign => 10 case Filter => 11 case Environment => 12
  }

  // delete from t where environment = env, foreign keys aside
  function Without(rows: map<Key, Row>, t: Table, env: Cell): map<Key, Row> {
    map k | k in rows && !(k.table == t && InEnvironment(k, env)) :: rows[k]
  }

  // The rows whose parents are gone, which on delete cascade takes along.
  function Dangling(d: Schema, rows: map<Key, Row>): set<Key> {
    set k | k in rows && exists i :: 0 <= i < |Parents(d, rows[k])| && Parents(d, rows[k])[i] !in rows
  }

  // The rows left after the first n deletes.
  function AfterDeletes(rows: map<Key, Row>, env: Cell, n: nat): map<Key, Row> {
    map k | k in rows && !(DeleteRank(k.table) < n && InEnvironment(k, env)) :: rows[k]
  }

  lemma KeepsParents(d: Schema, rows: map<Key, Row>, env: Cell, n: nat, k: Key, i: nat)
    requires Layered(d) && Consistent(d, rows) && k in AfterDeletes(rows, env, n) && i < |Parents(d, rows[k])|
    ensures Parents(d, rows[k])[i] in AfterDeletes(rows, env, n)
  {
    var r := rows[k];
    var p := Parents(d, r)[i];
    assert KeyOf(d, r) == k && p in rows;
    ParentsComeFirst(d, r, i);
  }

  lemma DeletesStayConsistent(d: Schema, rows: map<Key, Row>, env: Cell, n: nat)
    requires Layered(d) && Consistent(d, rows)
    ensures Consistent(d, AfterDeletes(rows, env, n)) && Dangling(d, AfterDeletes(rows, env, n)) == {}
  {
    var left := AfterDeletes(rows, env, n);
    forall k, i | k in left && 0 <= i < |Parents(d, left[k])|
      ensures Parents(d, left[k])[i] in left
    {
      KeepsParents(d, rows, env, n, k, i);
    }
  }

  class SeedSchema {
    const d: Schema
    var rows: map<Key, Row>

    constructor (d: Schema, rows: map<Key, Row>)
      ensures this.d == d && this.rows == rows
    {
      this.d, this.rows := d, rows;
    }

    method DeleteFrom(t: Table, env: Cell) returns (cascaded: set<Key>)
      modifies this
      ensures cascaded == Dangling(d, Without(old(rows), t, env))
      ensures rows == Without(old(rows), t, env) - cascaded
    {
      rows := Without(rows, t, env);
      cascaded := Dangling(d, rows);
      rows := rows - cascaded;
    }

    method DeleteNext(ghost start: map<Key, Row>, env: Cell, i: nat) returns (cascaded: set<Key>)
      requires i < 13 && Layered(d) && Consistent(d, start) && rows == AfterDeletes(start, env, i)
      modifies this
      ensures cascaded == {} && rows == AfterDeletes(start, env, i + 1)
    {
      DeleteStep(start, env, i);
      DeletesStayConsistent(d, start, env, i + 1);
      cascaded := DeleteFrom(DeletedAt(i), env);
      assert rows == AfterDeletes(start, env, i + 1) - {};
    }

    // Child first, no delete ever cascades; in the end the environment is gone from every table and
    // nothing else is.
    method ClearEnvironment(env: Cell) returns (cascaded: set<Key>)
      requires Layered(d) && Consistent(d, rows)
      modifies this
      ensures cascaded == {}
      ensures Consistent(d, rows)
      ensures rows == OutsideEnvironment(old(rows), env)
    {
      cascaded := {};
      AllDeletes(d, rows, env);
      for i := 0 to 13
        invariant cascaded == {}
        invariant rows == AfterDeletes(old(rows), env, i)
      {
        var taken := DeleteNext(old(rows), env, i);
        cascaded := cascaded + taken;
      }
    }
  }

  function OutsideEnvironment(rows: map<Key, Row>, env: Cell): map<Key, Row> {
    map k | k in rows && !InEnvironment(k, env) :: rows[k]
  }

  lemma AllDeletes(d: Schema, rows: map<Key, Row>, env: Cell)
    requires Layered(d) && Consistent(d, rows)
    ensures AfterDeletes(rows, env, 0) == rows
    ensures AfterDeletes(rows, env, 13) == OutsideEnvironment(rows, env)
    ensures Consistent(d, OutsideEnvironment(rows, env))
  {
    NothingDeleted(rows, env);
    EveryTableDeleted(rows, env);
    DeletesStayConsistent(d, rows, env, 13);
  }

  lemma NothingDeleted(rows: map<Key, Row>, env: Cell)
    ensures AfterDeletes(rows, env, 0) == rows
  {
  }

  lemma EveryTableDeleted(rows: map<Key, Row>, env: Cell)
    ensures AfterDeletes(rows, env, 13) == OutsideEnvironment(rows, env)
  {
    forall t: Table
      ensures DeleteRank(t) < 13
    {
    }
  }

  lemma DeleteStep(rows: map<Key, Row>, env: Cell, i: nat)
    requires i < 13
    ensures Without(AfterDeletes(rows, env, i), DeletedAt(i), env) == AfterDeletes(rows, env, i + 1)
  {
    forall t: Table
      ensures DeleteRank(t) == i <==> t == DeletedAt(i)
    {
      RankOfDeleted(t, i);
    }
  }

  lemma RankOfDeleted(t: Table, i: nat)
    requires i < 13
    ensures DeleteRank(t) == i <==> t == DeletedAt(i)
  {
  }
}
