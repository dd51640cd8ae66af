// The SQL printers of dagster/repository.py, and a reader for the text they produce.
module SqlText {
  import opened Wrappers
  import opened Decimal

  // One value of a VALUES tuple. Timestamps and dates carry the text between their quotes.
  datatype Cell = Null | Str(text: string) | Timestamp(text: string) | Date(text: string) | Int(value: int)

  predicate ValidCell(c: Cell) {
    c.Timestamp? || c.Date? ==> '\'' !in c.text
  }

  predicate ValidCells(cells: seq<Cell>) {
    forall i :: 0 <= i < |cells| ==> ValidCell(cells[i])
  }

  // ---------- printing ----------

  // value.replace("'", "''")
  function Escape(s: string): string {
    if s == "" then ""
    else if s[0] == '\'' then "''" + Escape(s[1..])
    else [s[0]] + Escape(s[1..])
  }

  function SqlString(s: string): string {
    "'" + Escape(s) + "'"
  }

  function PrintCell(c: Cell): string {
    match c
    case Null => "NULL"
    case Str(s) => SqlString(s)
    case Timestamp(s) => "TIMESTAMP '" + s + "'"
    case Date(s) => "DATE '" + s + "'"
    case Int(n) => IntText(n)
  }

  function PrintCells(cells: seq<Cell>): string {
    if cells == [] then ""
    else if |cells| == 1 then PrintCell(cells[0])
    else PrintCell(cells[0]) + ", " + PrintCells(cells[1..])
  }

  function PrintTuple(cells: seq<Cell>): string {
    "(" + PrintCells(cells) + ")"
  }

  function PrintTuples(tuples: seq<seq<Cell>>): string {
    if tuples == [] then ""
    else if |tuples| == 1 then PrintTuple(tuples[0])
    else PrintTuple(tuples[0]) + ", " + PrintTuples(tuples[1..])
  }

  // ---------- reading ----------

  function Strip(prefix: string, s: string): (r: Option<string>)
    ensures r.Some? ==> s == prefix + r.value
  {
    if prefix <= s then Some(s[|prefix|..]) else None
  }

  // The rest of a quoted literal: two quotes stand for one, a single quote ends it.
  function ReadQuoted(s: string): (r: Option<(string, string)>)
    ensures r.Some? ==> |r.value.1| < |s|
  {
    if s == "" then None
    else if s[0] != '\'' then
      match ReadQuoted(s[1..])
      case Some((text, rest)) => Some(([s[0]] + text, rest))
      case None => None
    else if |s| > 1 && s[1] == '\'' then
      match ReadQuoted(s[2..])
      case Some((text, rest)) => Some(("'" + text, rest))
      case None => None
    else Some(("", s[1..]))
  }

  function DigitsPrefix(s: string): (n: nat)
    ensures n <= |s| && AllDigits(s[..n])
    ensures n < |s| ==> !IsDigit(s[n])
  {
    if s != "" && IsDigit(s[0]) then
      var n := DigitsPrefix(s[1..]);
      assert s[..1 + n] == [s[0]] + s[1..][..n];
      1 + n
    else 0
  }

  function ReadNat(s: string): (r: Option<(nat, string)>)
    ensures r.Some? ==> |r.value.1| < |s|
  {
    var n := DigitsPrefix(s);
    if n == 0 then None else Some((Undec(s[..n]), s[n..]))
  }

  function ReadCell(s: string): (r: Option<(Cell, string)>)
    ensures r.Some? ==> |r.value.1| < |s|
  {
    if s == "" then None
    else if s[0] == 'N' then
      match Strip("NULL", s) case Some(rest) => Some((Null, rest)) case None => None
    else if s[0] == '\'' then
      match ReadQuoted(s[1..]) case Some((text, rest)) => Some((Str(text), rest)) case None => None
    else if s[0] == 'T' then
      match Strip("TIMESTAMP '", s)
      case Some(tail) =>
        (match ReadQuoted(tail) case Some((text, rest)) => Some((Timestamp(text), rest)) case None => None)
      case None => None
    else if s[0] == 'D' then
      match Strip("DATE '", s)
      case Some(tail) => (match ReadQuoted(tail) case Some((text, rest)) => Some((Date(text), rest)) case None => None)
      case None => None
    else if s[0] == '-' then
      match ReadNat(s[1..]) case Some((n, rest)) => Some((Int(-(n as int)), rest)) case None => None
    else
      match ReadNat(s) case Some((n, rest)) => Some((Int(n), rest)) case None => None
  }

  // Cells up to and including the closing parenthesis.
  function ReadCells(s: string): (r: Option<(seq<Cell>, string)>)
    ensures r.Some? ==> |r.value.1| < |s|
    decreases |s|
  {
    match ReadCell(s)
    case None => None
    case Some((cell, rest)) =>
      if rest != "" && rest[0] == ')' then Some(([cell], rest[1..]))
      else match Strip(", ", rest)
           case None => None
           case Some(more) =>
             match ReadCells(more)
             case None => None
             case Some((cells, tail)) => Some(([cell] + cells, tail))
  }

  function ReadTuples(s: string): Option<seq<seq<Cell>>>
    decreases |s|
  {
    if s == "" || s[0] != '(' then None
    else match ReadCells(s[1..])
         case None => None
         case Some((cells, rest)) =>
           if rest == "" then Some([cells])
           else match Strip(", ", rest)
                case None => None
                case Some(more) =>
                  match ReadTuples(more)
                  case None => None
                  case Some(tuples) => Some([cells] + tuples)
  }

  // ---------- lists of names ----------

  function PrintNames(names: seq<string>): string {
    if names == [] then ""
    else if |names| == 1 then names[0]
    else names[0] + ", " + PrintNames(names[1..])
  }

  predicate ValidName(name: string) {
    name != "" && ',' !in name && ')' !in name
  }

  predicate ValidNames(names: seq<string>) {
    names != [] && forall i :: 0 <= i < |names| ==> ValidName(names[i])
  }

  // The text before the first comma or closing parenthesis.
  function NameAt(s: string): (name: string)
    ensures |name| <= |s|
  {
    if s == "" || s[0] == ',' || s[0] == ')' then "" else [s[0]] + NameAt(s[1..])
  }

  // Names up to and including the closing parenthesis.
  function ReadNames(s: string): (r: Option<(seq<string>, string)>)
    ensures r.Some? ==> |r.value.1| < |s|
    decreases |s|
  {
    var name := NameAt(s);
    var rest := s[|name|..];
    if rest != "" && rest[0] == ')' then Some(([name], rest[1..]))
    else match Strip(", ", rest)
         case None => None
         case Some(more) =>
           match ReadNames(more)
           case None => None
           case Some((names, tail)) => Some(([name] + names, tail))
  }

  lemma {:induction false} NameIsRead(name: string, rest: string)
    requires ',' !in name && ')' !in name && rest != "" && (rest[0] == ',' || rest[0] == ')')
    ensures NameAt(name + rest) == name
  {
    if name == "" {
      assert name + rest == rest;
    } else {
      NameIsRead(name[1..], rest);
      assert (name + rest)[1..] == name[1..] + rest;
    }
  }

  lemma ReadsLastName(name: string, rest: string)
    requires ValidName(name)
    ensures ReadNames(name + (")" + rest)) == Some(([name], rest))
  {
    NameIsRead(name, ")" + rest);
    assert (name + (")" + rest))[|name|..] == ")" + rest;
    assert (")" + rest)[1..] == rest;
  }

  lemma ReadsMoreNames(name: string, more: string, names: seq<string>, rest: string)
    requires ValidName(name) && ReadNames(more) == Some((names, rest))
    ensures ReadNames(name + (", " + more)) == Some(([name] + names, rest))
  {
    NameIsRead(name, ", " + more);
    assert (name + (", " + more))[|name|..] == ", " + more;
    StripAppend(", ", more);
  }

  lemma {:induction false} ReadsNames(names: seq<string>, rest: string)
    requires ValidNames(names)
    ensures ReadNames(PrintNames(names) + ")" + rest) == Some((names, rest))
  {
    var first, others := names[0], names[1..];
    assert names == [first] + others;
    Reassociate(first, PrintNames(others), rest);
    if |names| == 1 {
      assert names == [first];
      ReadsLastName(first, rest);
    } else {
      ReadsNames(others, rest);
      ReadsMoreNames(first, PrintNames(others) + ")" + rest, others, rest);
    }
  }

  // ---------- the reader undoes the printers ----------

  lemma StripAppend(prefix: string, rest: string)
    ensures Strip(prefix, prefix + rest) == Some(rest)
  {
  }

  lemma ReadsEscapedQuote(tail: string, text: string, rest: string)
    requires ReadQuoted(tail) == Some((text, rest))
    ensures ReadQuoted("''" + tail) == Some(("'" + text, rest))
  {
    assert ("''" + tail)[2..] == tail;
  }

  lemma ReadsOtherChar(c: char, tail: string, text: string, rest: string)
    requires c != '\'' && ReadQuoted(tail) == Some((text, rest))
    ensures ReadQuoted([c] + tail) == Some(([c] + text, rest))
  {
    assert ([c] + tail)[1..] == tail;
  }

  lemma {:induction false} ReadsEscaped(s: string, rest: string)
    requires rest == "" || rest[0] != '\''
    ensures ReadQuoted(Escape(s) + "'" + rest) == Some((s, rest))
  {
    var all := Escape(s) + "'" + rest;
    if s == "" {
      assert all[0] == '\'' && all[1..] == rest;
    } else {
      ReadsEscaped(s[1..], rest);
      var tail := Escape(s[1..]) + "'" + rest;
      assert s == [s[0]] + s[1..];
      if s[0] == '\'' {
        assert all == "''" + tail;
        ReadsEscapedQuote(tail, s[1..], rest);
      } else {
        assert all == [s[0]] + tail;
        ReadsOtherChar(s[0], tail, s[1..], rest);
      }
    }
  }

  lemma {:induction false} EscapeWithoutQuotes(s: string)
    requires '\'' !in s
    ensures Escape(s) == s
  {
    if s != "" {
      EscapeWithoutQuotes(s[1..]);
    }
  }

  lemma ReadsPlain(s: string, rest: string)
    requires '\'' !in s && (rest == "" || rest[0] != '\'')
    ensures ReadQuoted(s + "'" + rest) == Some((s, rest))
  {
    EscapeWithoutQuotes(s);
    ReadsEscaped(s, rest);
  }

  lemma {:induction false} DigitsPrefixOf(digits: string, rest: string)
    requires AllDigits(digits) && (rest == "" || !IsDigit(rest[0]))
    ensures DigitsPrefix(digits + rest) == |digits|
  {
    if digits == "" {
      assert digits + rest == rest;
    } else {
      DigitsPrefixOf(digits[1..], rest);
      assert (digits + rest)[1..] == digits[1..] + rest;
    }
  }

  lemma ReadsNat(n: nat, rest: string)
    requires rest == "" || !IsDigit(rest[0])
    ensures ReadNat(Dec(n) + rest) == Some((n, rest))
  {
    DigitsPrefixOf(Dec(n), rest);
    UndecDec(n);
    assert (Dec(n) + rest)[..|Dec(n)|] == Dec(n);
  }

  predicate Ends(rest: string) {
    rest != "" && (rest[0] == ',' || rest[0] == ')')
  }

  lemma ReadsStr(s: string, rest: string)
    requires Ends(rest)
    ensures ReadCell(SqlString(s) + rest) == Some((Str(s), rest))
  {
    var all := SqlString(s) + rest;
    ReadsEscaped(s, rest);
    assert all[0] == '\'';
    assert all[1..] == Escape(s) + "'" + rest;
  }

  lemma ReadsTimestamp(s: string, rest: string)
    requires '\'' !in s && Ends(rest)
    ensures ReadCell("TIMESTAMP '" + s + "'" + rest) == Some((Timestamp(s), rest))
  {
    var prefix := "TIMESTAMP '";
    ReadsPlain(s, rest);
    StripAppend(prefix, s + "'" + rest);
    assert prefix + s + "'" + rest == prefix + (s + "'" + rest);
    assert (prefix + s + "'" + rest)[0] == 'T';
  }

  lemma ReadsDate(s: string, rest: string)
    requires '\'' !in s && Ends(rest)
    ensures ReadCell("DATE '" + s + "'" + rest) == Some((Date(s), rest))
  {
    var prefix := "DATE '";
    ReadsPlain(s, rest);
    StripAppend(prefix, s + "'" + rest);
    assert prefix + s + "'" + rest == prefix + (s + "'" + rest);
    assert (prefix + s + "'" + rest)[0] == 'D';
  }

  lemma ReadsNegative(digits: string, n: nat, rest: string)
    requires ReadNat(digits + rest) == Some((n, rest))
    ensures ReadCell("-" + digits + rest) == Some((Int(-(n as int)), rest))
  {
    var all := "-" + digits + rest;
    assert all[0] == '-' && all[1..] == digits + rest;
  }

  lemma ReadsNonNegative(digits: string, n: nat, rest: string)
    requires digits != "" && IsDigit(digits[0]) && ReadNat(digits + rest) == Some((n, rest))
    ensures ReadCell(digits + rest) == Some((Int(n), rest))
  {
    assert (digits + rest)[0] == digits[0];
  }

  lemma ReadsMinus(size: nat, rest: string)
    requires Ends(rest)
    ensures ReadCell("-" + Dec(size) + rest) == Some((Int(-(size as int)), rest))
  {
    ReadsNat(size, rest);
    ReadsNegative(Dec(size), size, rest);
  }

  lemma ReadsPlus(size: nat, rest: string)
    requires Ends(rest)
    ensures ReadCell(Dec(size) + rest) == Some((Int(size), rest))
  {
    ReadsNat(size, rest);
    ReadsNonNegative(Dec(size), size, rest);
  }

  lemma ReadsInt(n: int, rest: string)
    requires Ends(rest)
    ensures ReadCell(IntText(n) + rest) == Some((Int(n), rest))
  {
    if n < 0 {
      var size: nat := -n;
      ReadsMinus(size, rest);
      assert IntText(n) == "-" + Dec(size);
    } else {
      var size: nat := n;
      ReadsPlus(size, rest);
      assert IntText(n) == Dec(size);
    }
  }

  lemma ReadsCell(c: Cell, rest: string)
    requires ValidCell(c) && Ends(rest)
    ensures ReadCell(PrintCell(c) + rest) == Some((c, rest))
  {
    match c {
      case Null =>
        StripAppend("NULL", rest);
        assert ("NULL" + rest)[0] == 'N';
      case Str(s) => ReadsStr(s, rest);
      case Timestamp(s) => ReadsTimestamp(s, rest);
      case Date(s) => ReadsDate(s, rest);
      case Int(n) => ReadsInt(n, rest);
    }
  }

  lemma ReadsLastCell(s: string, c: Cell, rest: string)
    requires ReadCell(s) == Some((c, ")" + rest))
    ensures ReadCells(s) == Some(([c], rest))
  {
    assert (")" + rest)[1..] == rest;
  }

  lemma ReadsMoreCells(s: string, c: Cell, more: string, cells: seq<Cell>, rest: string)
    requires ReadCell(s) == Some((c, ", " + more)) && ReadCells(more) == Some((cells, rest))
    ensures ReadCells(s) == Some(([c] + cells, rest))
  {
    StripAppend(", ", more);
  }

  lemma Reassociate(head: string, more: string, rest: string)
    ensures head + ")" + rest == head + (")" + rest)
    ensures head + ", " + more + ")" + rest == head + (", " + (more + ")" + rest))
  {
  }

  // The printed cells, with the first one split off.
  lemma PrintedOne(cells: seq<Cell>, rest: string)
    requires |cells| == 1
    ensures PrintCells(cells) + ")" + rest == PrintCell(cells[0]) + (")" + rest)
  {
    Reassociate(PrintCell(cells[0]), "", rest);
  }

  lemma PrintedMore(cells: seq<Cell>, rest: string)
    requires |cells| > 1
    ensures PrintCells(cells) + ")" + rest == PrintCell(cells[0]) + (", " + (PrintCells(cells[1..]) + ")" + rest))
  {
    Reassociate(PrintCell(cells[0]), PrintCells(cells[1..]), rest);
  }

  lemma {:induction false} ReadsCells(cells: seq<Cell>, rest: string)
    requires cells != [] && ValidCells(cells)
    ensures ReadCells(PrintCells(cells) + ")" + rest) == Some((cells, rest))
  {
    var first, others := cells[0], cells[1..];
    assert cells == [first] + others;
    if |cells| == 1 {
      assert cells == [first];
      PrintedOne(cells, rest);
      ReadsCell(first, ")" + rest);
      ReadsLastCell(PrintCell(first) + (")" + rest), first, rest);
    } else {
      PrintedMore(cells, rest);
      ReadsCells(others, rest);
      ReadsFirstCell(first, PrintCells(others) + ")" + rest, others, rest);
    }
  }

  lemma ReadsFirstCell(c: Cell, more: string, cells: seq<Cell>, rest: string)
    requires ValidCell(c) && ReadCells(more) == Some((cells, rest))
    ensures ReadCells(PrintCell(c) + (", " + more)) == Some(([c] + cells, rest))
  {
    ReadsCell(c, ", " + more);
    ReadsMoreCells(PrintCell(c) + (", " + more), c, more, cells, rest);
  }

  lemma NestTuple(cells: string, more: string)
    ensures "(" + cells + ")" == "(" + (cells + ")" + "")
    ensures "(" + cells + ")" + ", " + more == "(" + (cells + ")" + (", " + more))
  {
  }

  lemma ReadsLastTuple(s: string, cells: seq<Cell>)
    requires ReadCells(s) == Some((cells, ""))
    ensures ReadTuples("(" + s) == Some([cells])
  {
    assert ("(" + s)[1..] == s;
  }

  lemma ReadsMoreTuples(s: string, cells: seq<Cell>, more: string, tuples: seq<seq<Cell>>)
    requires ReadCells(s) == Some((cells, ", " + more)) && ReadTuples(more) == Some(tuples)
    ensures ReadTuples("(" + s) == Some([cells] + tuples)
  {
    assert ("(" + s)[1..] == s;
    StripAppend(", ", more);
  }

  // Any tuples of any texts, quotes, commas and parentheses included, come back as they went in.
  lemma {:induction false} ReadsTuples(tuples: seq<seq<Cell>>)
    requires tuples != []
    requires forall i :: 0 <= i < |tuples| ==> tuples[i] != [] && ValidCells(tuples[i])
    ensures ReadTuples(PrintTuples(tuples)) == Some(tuples)
  {
    var first := tuples[0];
    if |tuples| == 1 {
      assert tuples == [first];
      ReadsCells(first, "");
      NestTuple(PrintCells(first), "");
      ReadsLastTuple(PrintCells(first) + ")" + "", first);
    } else {
      var more := PrintTuples(tuples[1..]);
      assert tuples == [first] + tuples[1..];
      ReadsTuples(tuples[1..]);
      ReadsCells(first, ", " + more);
      NestTuple(PrintCells(first), more);
      ReadsMoreTuples(PrintCells(first) + ")" + (", " + more), first, more, tuples[1..]);
    }
  }
}
