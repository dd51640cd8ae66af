// Listing, sorting, chunking and printing the rows of iceberg.ingress.raw_object_index.
module IndexRows {
  import opened Sequences
  import opened Wrappers
  import opened Decimal
  import opened SqlText

  // A UTC datetime with microseconds, as datetime.strftime sees it.
  datatype Stamp = Stamp(year: nat, month: nat, day: nat, hour: nat, minute: nat, second: nat, micros: nat)

  type UtcStamp = t: Stamp |
    t.year < 10000 && 1 <= t.month <= 12 && 1 <= t.day <= 31
    && t.hour < 24 && t.minute < 60 && t.second < 60 && t.micros < 1000000
    witness Stamp(2026, 1, 1, 0, 0, 0, 0)

  // Fixed-width numbers, each followed by its separator.
  datatype Part = Part(value: nat, width: nat, separator: string)

  function Render(parts: seq<Part>): string {
    if parts == [] then "" else Fixed(parts[0].value, parts[0].width) + parts[0].separator + Render(parts[1..])
  }

  function DateParts(t: UtcStamp): seq<Part> {
    [Part(t.year, 4, "-"), Part(t.month, 2, "-"), Part(t.day, 2, "")]
  }

  function DateText(t: UtcStamp): string {
    Render(DateParts(t))
  }

  // strftime('%Y-%m-%d %H:%M:%S.%f')[:-3]: microseconds cut down to milliseconds
  function MilliParts(t: UtcStamp): seq<Part> {
    [ Part(t.year, 4, "-"), Part(t.month, 2, "-"), Part(t.day, 2, " "),
      Part(t.hour, 2, ":"), Part(t.minute, 2, ":"), Part(t.second, 2, "."), Part(t.micros / 1000, 3, "") ]
  }

  function MilliText(t: UtcStamp): string {
    Render(MilliParts(t))
  }

  function ToMillis(t: UtcStamp): UtcStamp {
    t.(micros := t.micros / 1000 * 1000)
  }

  ghost predicate SameShape(ps: seq<Part>, qs: seq<Part>) {
    && |ps| == |qs|
    && (forall i :: 0 <= i < |ps| ==> ps[i].width == qs[i].width && ps[i].separator == qs[i].separator)
    && (forall i :: 0 <= i < |ps| ==> ps[i].value < Pow10(ps[i].width) && qs[i].value < Pow10(qs[i].width))
  }

  lemma SplitEqual(a: string, b: string, c: string, d: string)
    requires |a| == |c| && a + b == c + d
    ensures a == c && b == d
  {
    assert (a + b)[..|a|] == a && (c + d)[..|a|] == c;
    assert (a + b)[|a|..] == b && (c + d)[|a|..] == d;
  }

  lemma {:induction false} RenderDecides(ps: seq<Part>, qs: seq<Part>)
    requires SameShape(ps, qs) && Render(ps) == Render(qs)
    ensures ps == qs
  {
    if ps != [] {
      var p, q := ps[0], qs[0];
      SplitEqual(Fixed(p.value, p.width) + p.separator, Render(ps[1..]),
                 Fixed(q.value, q.width) + q.separator, Render(qs[1..]));
      SplitEqual(Fixed(p.value, p.width), p.separator, Fixed(q.value, q.width), q.separator);
      UndecFixed(p.value, p.width);
      UndecFixed(q.value, q.width);
      RenderDecides(ps[1..], qs[1..]);
      assert ps == [p] + ps[1..] && qs == [q] + qs[1..];
    }
  }

  lemma PowersUsed()
    ensures Pow10(2) == 100 && Pow10(3) == 1000 && Pow10(4) == 10000
  {
    assert Pow10(1) == 10;
  }

  lemma MilliPartsHaveOneShape(t: UtcStamp, u: UtcStamp)
    ensures SameShape(MilliParts(t), MilliParts(u))
  {
    PowersUsed();
  }

  lemma MilliPartsDecide(t: UtcStamp, u: UtcStamp)
    ensures MilliParts(t) == MilliParts(u) <==> ToMillis(t) == ToMillis(u)
  {
    var ps, qs := MilliParts(t), MilliParts(u);
    if ps == qs {
      assert ps[0] == qs[0] && ps[1] == qs[1] && ps[2] == qs[2] && ps[3] == qs[3];
      assert ps[4] == qs[4] && ps[5] == qs[5] && ps[6] == qs[6];
    }
  }

  // A printed timestamp determines the time to the millisecond.
  lemma MilliTextDecides(t: UtcStamp, u: UtcStamp)
    ensures MilliText(t) == MilliText(u) <==> ToMillis(t) == ToMillis(u)
  {
    MilliPartsDecide(t, u);
    if MilliText(t) == MilliText(u) {
      MilliPartsHaveOneShape(t, u);
      RenderDecides(MilliParts(t), MilliParts(u));
    }
  }

  lemma {:induction false} RenderHasNoQuote(parts: seq<Part>)
    requires forall i :: 0 <= i < |parts| ==> '\'' !in parts[i].separator
    ensures '\'' !in Render(parts)
  {
    if parts != [] {
      RenderHasNoQuote(parts[1..]);
      assert forall i :: 0 <= i < |Fixed(parts[0].value, parts[0].width)|
               ==> IsDigit(Fixed(parts[0].value, parts[0].width)[i]);
    }
  }

  lemma StampTextsHaveNoQuote(t: UtcStamp)
    ensures '\'' !in DateText(t) && '\'' !in MilliText(t)
  {
    SeparatorsHaveNoQuote(t);
    RenderHasNoQuote(DateParts(t));
    RenderHasNoQuote(MilliParts(t));
  }

  lemma SeparatorsHaveNoQuote(t: UtcStamp)
    ensures forall i :: 0 <= i < |DateParts(t)| ==> '\'' !in DateParts(t)[i].separator
    ensures forall i :: 0 <= i < |MilliParts(t)| ==> '\'' !in MilliParts(t)[i].separator
  {
  }

  // ---------- rows ----------

  datatype Entry = Entry(objectKey: string, etag: Option<string>, sourceTopic: string,
                         lastModified: UtcStamp, size: Option<int>)

  function NullableString(s: Option<string>): Cell {
    if s == None || s == Some("") then Null else Str(s.value)
  }

  function NullableInt(n: Option<int>): Cell {
    match n case None => Null case Some(v) => Int(v)
  }

  // object_index_value
  function EntryCells(e: Entry, processedAt: UtcStamp): seq<Cell> {
    [ Str(e.objectKey), NullableString(e.etag), Str(e.sourceTopic), Timestamp(MilliText(e.lastModified)),
      Timestamp(MilliText(processedAt)), Date(DateText(processedAt)), NullableInt(e.size) ]
  }

  lemma EntryCellsAreValid(e: Entry, processedAt: UtcStamp)
    ensures ValidCells(EntryCells(e, processedAt)) && EntryCells(e, processedAt) != []
  {
    StampTextsHaveNoQuote(e.lastModified);
    StampTextsHaveNoQuote(processedAt);
    SevenValid(Str(e.objectKey), NullableString(e.etag), Str(e.sourceTopic), Timestamp(MilliText(e.lastModified)),
               Timestamp(MilliText(processedAt)), Date(DateText(processedAt)), NullableInt(e.size));
  }

  lemma SevenValid(a: Cell, b: Cell, c: Cell, d: Cell, e: Cell, f: Cell, g: Cell)
    requires ValidCell(a) && ValidCell(b) && ValidCell(c) && ValidCell(d)
    requires ValidCell(e) && ValidCell(f) && ValidCell(g)
    ensures ValidCells([a, b, c, d, e, f, g])
  {
  }

  // What survives in the table: "" and None are both NULL, and times are cut to milliseconds.
  function Stored(e: Entry): Entry {
    e.(etag := if e.etag == Some("") then None else e.etag, lastModified := ToMillis(e.lastModified))
  }

  lemma NullableStringDecides(s: Option<string>, t: Option<string>)
    ensures NullableString(s) == NullableString(t) <==>
            (if s == Some("") then None else s) == (if t == Some("") then None else t)
  {
  }

  lemma NullableIntDecides(m: Option<int>, n: Option<int>)
    ensures NullableInt(m) == NullableInt(n) <==> m == n
  {
  }

  lemma CellsDecideEntry(e: Entry, f: Entry, processedAt: UtcStamp)
    ensures EntryCells(e, processedAt) == EntryCells(f, processedAt) <==> Stored(e) == Stored(f)
  {
    MilliTextDecides(e.lastModified, f.lastModified);
    NullableStringDecides(e.etag, f.etag);
    NullableIntDecides(e.size, f.size);
    var a, b := EntryCells(e, processedAt), EntryCells(f, processedAt);
    if a == b {
      assert a[0] == b[0] && a[1] == b[1] && a[2] == b[2] && a[3] == b[3] && a[6] == b[6];
    }
  }

  function CellsOf(entries: seq<Entry>, processedAt: UtcStamp): seq<seq<Cell>> {
    Mapped((e: Entry) => EntryCells(e, processedAt), entries)
  }

  // ---------- INSERT text ----------

  const COLUMNS: seq<string> :=
    ["object_key", "etag", "source_topic", "last_modified", "processed_at", "processed_date", "size"]

  const INSERT_INTO := "INSERT INTO iceberg.ingress.raw_object_index ("

  function PrintInsert(entries: seq<Entry>, processedAt: UtcStamp): string {
    INSERT_INTO + (PrintNames(COLUMNS) + ")" + (" VALUES " + PrintTuples(CellsOf(entries, processedAt))))
  }

  // A row holds its values under the names of the columns.
  type NamedRow = map<string, Cell>

  // The values of each tuple under the names, when there are as many.
  function Named(names: seq<string>, tuples: seq<seq<Cell>>): Option<seq<NamedRow>> {
    if forall i :: 0 <= i < |tuples| ==> |tuples[i]| == |names|
    then Some(seq(|tuples|, i requires 0 <= i < |tuples| => Zip(names, tuples[i])))
    else None
  }

  // The columns are found by reading their names; unknown and repeated ones are refused.
  function ReadInsert(sql: string, columns: seq<string>): Option<seq<NamedRow>> {
    match Strip(INSERT_INTO, sql)
    case None => None
    case Some(listed) =>
      match ReadNames(listed)
      case None => None
      case Some((names, rest)) =>
        if NoRepeats(names) && forall i :: 0 <= i < |names| ==> names[i] in columns
        then ReadValues(names, rest)
        else None
  }

  function ReadValues(names: seq<string>, s: string): Option<seq<NamedRow>> {
    match Strip(" VALUES ", s)
    case None => None
    case Some(values) =>
      match ReadTuples(values)
      case None => None
      case Some(tuples) => Named(names, tuples)
  }

  function RowOf(e: Entry, processedAt: UtcStamp): NamedRow {
    Zip(COLUMNS, EntryCells(e, processedAt))
  }

  function RowsOf(entries: seq<Entry>, processedAt: UtcStamp): seq<NamedRow> {
    Mapped((e: Entry) => RowOf(e, processedAt), entries)
  }

  lemma RowsOfAppend(a: seq<Entry>, b: seq<Entry>, processedAt: UtcStamp)
    ensures RowsOf(a + b, processedAt) == RowsOf(a, processedAt) + RowsOf(b, processedAt)
  {
    MappedAppend((e: Entry) => RowOf(e, processedAt), a, b);
  }

  lemma ColumnsAreNames()
    ensures ValidNames(COLUMNS) && Distinct(COLUMNS) && |COLUMNS| == 7
  {
  }

  lemma EntriesAreNamed(entries: seq<Entry>, processedAt: UtcStamp)
    ensures Named(COLUMNS, CellsOf(entries, processedAt)) == Some(RowsOf(entries, processedAt))
  {
    var cells, rows := CellsOf(entries, processedAt), RowsOf(entries, processedAt);
    forall i | 0 <= i < |cells|
      ensures |cells[i]| == |COLUMNS| && Zip(COLUMNS, cells[i]) == rows[i]
    {
      assert cells[i] == EntryCells(entries[i], processedAt);
    }
    assert Named(COLUMNS, cells).value == rows;
  }

  // The statement reads back as the rows of the batch, their values under the names of the columns.
  lemma ReadsInsert(entries: seq<Entry>, processedAt: UtcStamp)
    requires entries != []
    ensures ReadInsert(PrintInsert(entries, processedAt), COLUMNS) == Some(RowsOf(entries, processedAt))
  {
    var cells := CellsOf(entries, processedAt);
    var values := " VALUES " + PrintTuples(cells);
    ColumnsAreNames();
    NoRepeatsIsDistinct(COLUMNS);
    StripAppend(INSERT_INTO, PrintNames(COLUMNS) + ")" + values);
    ReadsNames(COLUMNS, values);
    ReadsRows(entries, processedAt);
  }

  lemma ReadsRows(entries: seq<Entry>, processedAt: UtcStamp)
    requires entries != []
    ensures ReadValues(COLUMNS, " VALUES " + PrintTuples(CellsOf(entries, processedAt))) ==
            Some(RowsOf(entries, processedAt))
  {
    var cells := CellsOf(entries, processedAt);
    forall i | 0 <= i < |cells|
      ensures cells[i] != [] && ValidCells(cells[i])
    {
      EntryCellsAreValid(entries[i], processedAt);
    }
    StripAppend(" VALUES ", PrintTuples(cells));
    ReadsTuples(cells);
    EntriesAreNamed(entries, processedAt);
  }

  // ---------- what a row holds, column by column ----------

  // The value under a name; a column that is not named is null.
  function Under(row: NamedRow, name: string): Cell {
    if name in row then row[name] else Null
  }

  // The value under each column is the entry's, an empty etag and a missing size being null.
  ghost predicate Holds(row: NamedRow, e: Entry, processedAt: UtcStamp) {
    && (forall name :: name in row <==> name in COLUMNS)
    && Under(row, "object_key") == Str(e.objectKey)
    && Under(row, "etag") == (if e.etag == None || e.etag == Some("") then Null else Str(e.etag.value))
    && Under(row, "source_topic") == Str(e.sourceTopic)
    && Under(row, "last_modified") == Timestamp(MilliText(e.lastModified))
    && Under(row, "processed_at") == Timestamp(MilliText(processedAt))
    && Under(row, "processed_date") == Date(DateText(processedAt))
    && Under(row, "size") == (if e.size == None then Null else Int(e.size.value))
  }

  lemma RowHoldsEntry(e: Entry, processedAt: UtcStamp)
    ensures Holds(RowOf(e, processedAt), e, processedAt)
  {
    ColumnsAreNames();
    SevenUnder(COLUMNS, EntryCells(e, processedAt));
  }

  lemma SevenUnder(names: seq<string>, cells: seq<Cell>)
    requires Distinct(names) && |names| == |cells| == 7
    ensures var row := Zip(names, cells);
            && (forall name :: name in row <==> name in names)
            && Under(row, names[0]) == cells[0] && Under(row, names[1]) == cells[1] && Under(row, names[2]) == cells[2]
            && Under(row, names[3]) == cells[3] && Under(row, names[4]) == cells[4] && Under(row, names[5]) == cells[5]
            && Under(row, names[6]) == cells[6]
  {
    ZipAt(names, cells);
  }

  // ---------- chunks ----------

  function Chunked<T>(values: seq<T>, size: nat): (chunks: seq<seq<T>>)
    requires size > 0
    decreases |values|
  {
    if values == [] then []
    else if |values| <= size then [values]
    else [values[..size]] + Chunked(values[size..], size)
  }

  function Flatten<T>(chunks: seq<seq<T>>): seq<T> {
    if chunks == [] then [] else chunks[0] + Flatten(chunks[1..])
  }

  // The chunks are the list cut into pieces of the given size, only the last of which may be shorter.
  lemma {:induction false} ChunksMakeTheList<T>(values: seq<T>, size: nat)
    requires size > 0
    ensures var chunks := Chunked(values, size);
            && Flatten(chunks) == values
            && (forall i :: 0 <= i < |chunks| ==> 0 < |chunks[i]| <= size)
            && (forall i :: 0 <= i < |chunks| - 1 ==> |chunks[i]| == size)
    decreases |values|
  {
    if |values| > size {
      ChunksMakeTheList(values[size..], size);
      assert values == values[..size] + values[size..];
    } else if values != [] {
      assert Flatten([values]) == values;
    }
  }

  lemma {:induction false} FlattenAppend<T>(chunks: seq<seq<T>>, chunk: seq<T>)
    ensures Flatten(chunks + [chunk]) == Flatten(chunks) + chunk
  {
    if chunks == [] {
      assert chunks + [chunk] == [chunk];
    } else {
      FlattenAppend(chunks[1..], chunk);
      assert (chunks + [chunk])[1..] == chunks[1..] + [chunk];
    }
  }

  lemma FlattenPrefix<T>(chunks: seq<seq<T>>, i: nat)
    requires i < |chunks|
    ensures Flatten(chunks[..i + 1]) == Flatten(chunks[..i]) + chunks[i]
  {
    FlattenAppend(chunks[..i], chunks[i]);
    assert chunks[..i + 1] == chunks[..i] + [chunks[i]];
  }

  // ---------- sorting by key ----------

  // Python compares strings by code point.
  predicate LexLe(a: string, b: string) {
    a == "" || (b != "" && (a[0] < b[0] || (a[0] == b[0] && LexLe(a[1..], b[1..]))))
  }

  // The order of the first place where the texts differ, or one is a prefix of the other.
  lemma {:induction false} LexLeMeaning(a: string, b: string)
    ensures LexLe(a, b) <==> a <= b || exists i :: 0 <= i < |a| && i < |b| && a[..i] == b[..i] && a[i] < b[i]
  {
    if a != "" && b != "" {
      if a[0] == b[0] {
        LexLeMeaning(a[1..], b[1..]);
        SameHead(a, b);
      } else {
        assert a[..0] == b[..0];
        forall i | 0 < i < |a| && i < |b|
          ensures a[..i] != b[..i]
        {
          assert a[..i][0] != b[..i][0];
        }
      }
    }
  }

  lemma SameHead(a: string, b: string)
    requires a != "" && b != "" && a[0] == b[0]
    ensures a <= b <==> a[1..] <= b[1..]
    ensures (exists i :: 0 <= i < |a| && i < |b| && a[..i] == b[..i] && a[i] < b[i]) <==>
            (exists i :: 0 <= i < |a[1..]| && i < |b[1..]| && a[1..][..i] == b[1..][..i] && a[1..][i] < b[1..][i])
  {
    assert a == [a[0]] + a[1..] && b == [b[0]] + b[1..];
    if i :| 0 <= i < |a| && i < |b| && a[..i] == b[..i] && a[i] < b[i] {
      assert i > 0;
      assert a[1..][..i - 1] == a[..i][1..] == b[..i][1..] == b[1..][..i - 1];
      assert a[1..][i - 1] < b[1..][i - 1];
    }
    if i :| 0 <= i < |a[1..]| && i < |b[1..]| && a[1..][..i] == b[1..][..i] && a[1..][i] < b[1..][i] {
      assert a[..i + 1] == [a[0]] + a[1..][..i] && b[..i + 1] == [b[0]] + b[1..][..i];
      assert a[i + 1] < b[i + 1];
    }
  }

  lemma {:induction false} LexTotal(a: string, b: string)
    ensures LexLe(a, b) || LexLe(b, a)
  {
    if a != "" && b != "" && a[0] == b[0] {
      LexTotal(a[1..], b[1..]);
    }
  }

  lemma {:induction false} LexTransitive(a: string, b: string, c: string)
    requires LexLe(a, b) && LexLe(b, c)
    ensures LexLe(a, c)
  {
    if a != "" && b != "" && c != "" && a[0] == b[0] == c[0] {
      LexTransitive(a[1..], b[1..], c[1..]);
    }
  }

  ghost predicate SortedByKey(entries: seq<Entry>) {
    forall i, j :: 0 <= i <= j < |entries| ==> LexLe(entries[i].objectKey, entries[j].objectKey)
  }

  // Where a new entry goes: after every entry whose key is not greater (the sort is stable).
  function InsertEntry(sorted: seq<Entry>, e: Entry): seq<Entry> {
    if sorted == [] || LexLe(sorted[|sorted| - 1].objectKey, e.objectKey) then sorted + [e]
    else InsertEntry(sorted[..|sorted| - 1], e) + [sorted[|sorted| - 1]]
  }

  function SortByKey(entries: seq<Entry>): seq<Entry> {
    if entries == [] then [] else InsertEntry(SortByKey(entries[..|entries| - 1]), entries[|entries| - 1])
  }

  lemma {:induction false} InsertEntryIsSorted(sorted: seq<Entry>, e: Entry)
    requires SortedByKey(sorted)
    ensures SortedByKey(InsertEntry(sorted, e))
    ensures multiset(InsertEntry(sorted, e)) == multiset(sorted) + multiset{e}
  {
    if sorted == [] {
      LexTotal(e.objectKey, e.objectKey);
    } else {
      var init, last := sorted[..|sorted| - 1], sorted[|sorted| - 1];
      assert sorted == init + [last];
      if LexLe(last.objectKey, e.objectKey) {
        BoundedBy(sorted, last.objectKey, e.objectKey);
        AppendIsSorted(sorted, e);
      } else {
        LexTotal(last.objectKey, e.objectKey);
        InsertEntryIsSorted(init, e);
        InsertedBelow(init, e, last);
        AppendIsSorted(InsertEntry(init, e), last);
      }
    }
  }

  ghost predicate AllBelow(entries: seq<Entry>, key: string) {
    forall i :: 0 <= i < |entries| ==> LexLe(entries[i].objectKey, key)
  }

  lemma BoundedBy(entries: seq<Entry>, key: string, bound: string)
    requires AllBelow(entries, key) && LexLe(key, bound)
    ensures AllBelow(entries, bound)
  {
    forall i | 0 <= i < |entries|
      ensures LexLe(entries[i].objectKey, bound)
    {
      LexTransitive(entries[i].objectKey, key, bound);
    }
  }

  lemma AppendIsSorted(entries: seq<Entry>, e: Entry)
    requires SortedByKey(entries) && AllBelow(entries, e.objectKey)
    ensures SortedByKey(entries + [e])
  {
    LexTotal(e.objectKey, e.objectKey);
  }

  lemma InsertedBelow(sorted: seq<Entry>, e: Entry, last: Entry)
    requires AllBelow(sorted, last.objectKey) && LexLe(e.objectKey, last.objectKey)
    requires multiset(InsertEntry(sorted, e)) == multiset(sorted) + multiset{e}
    ensures AllBelow(InsertEntry(sorted, e), last.objectKey)
  {
    var inserted := InsertEntry(sorted, e);
    forall i | 0 <= i < |inserted|
      ensures LexLe(inserted[i].objectKey, last.objectKey)
    {
      assert inserted[i] in multiset(inserted);
      assert inserted[i] == e || inserted[i] in sorted;
    }
  }

  // Sorting is a permutation with ascending keys.
  lemma {:induction false} SortIsSorted(entries: seq<Entry>)
    ensures SortedByKey(SortByKey(entries))
    ensures multiset(SortByKey(entries)) == multiset(entries)
  {
    if entries != [] {
      var init, last := entries[..|entries| - 1], entries[|entries| - 1];
      SortIsSorted(init);
      InsertEntryIsSorted(SortByKey(init), last);
      assert entries == init + [last];
    }
  }

  // ---------- listing ----------

  datatype Item = Item(key: string, etag: Option<string>, lastModified: UtcStamp, size: Option<int>)

  function StripQuotes(s: string): string {
    if s != "" && s[0] == '"' then StripQuotes(s[1..])
    else if s != "" && s[|s| - 1] == '"' then StripQuotes(s[..|s| - 1])
    else s
  }

  // item.get("ETag", "").strip('"') or None
  function EtagOf(etag: Option<string>): Option<string> {
    var s := StripQuotes(etag.GetOr(""));
    if s == "" then None else Some(s)
  }

  function Until(s: string, c: char): string {
    if s == "" || s[0] == c then "" else [s[0]] + Until(s[1..], c)
  }

  // bronze_object_topic: the second path segment of a key under bronze/
  function BronzeObjectTopic(key: string): string {
    if "bronze/" <= key then Until(key[|"bronze/"|..], '/') else "unknown"
  }

  predicate IsDirectory(key: string) {
    key != "" && key[|key| - 1] == '/'
  }

  function EntryOf(item: Item): Entry {
    Entry(item.key, EtagOf(item.etag), BronzeObjectTopic(item.key), item.lastModified, item.size)
  }

  // The listed items that are neither directories nor seen, as entries, in order.
  function Unseen(items: seq<Item>, seen: set<string>): seq<Entry> {
    if items == [] then []
    else
      var init, last := Unseen(items[..|items| - 1], seen), items[|items| - 1];
      if IsDirectory(last.key) || last.key in seen then init else init + [EntryOf(last)]
  }

  lemma UnseenSnoc(items: seq<Item>, item: Item, seen: set<string>)
    ensures Unseen(items + [item], seen) ==
            if IsDirectory(item.key) || item.key in seen then Unseen(items, seen)
            else Unseen(items, seen) + [EntryOf(item)]
  {
    assert (items + [item])[..|items|] == items;
  }

  method ListUnprocessed(pages: seq<seq<Item>>, seen: set<string>) returns (discovered: seq<Entry>)
    ensures discovered == SortByKey(Unseen(Flatten(pages), seen))
  {
    discovered := [];
    for p := 0 to |pages|
      invariant discovered == Unseen(Flatten(pages[..p]), seen)
    {
      var page := pages[p];
      discovered := ListPage(page, seen, discovered, Flatten(pages[..p]));
      FlattenPrefix(pages, p);
    }
    assert pages[..|pages|] == pages;
    discovered := SortByKey(discovered);
  }

  lemma UnseenStep(before: seq<Item>, page: seq<Item>, i: nat, seen: set<string>)
    requires i < |page|
    ensures Unseen(before + page[..i + 1], seen) ==
            if IsDirectory(page[i].key) || page[i].key in seen then Unseen(before + page[..i], seen)
            else Unseen(before + page[..i], seen) + [EntryOf(page[i])]
  {
    UnseenSnoc(before + page[..i], page[i], seen);
    assert before + page[..i + 1] == (before + page[..i]) + [page[i]];
  }

  // One page: its unseen objects are appended to those of the items before it.
  method ListPage(page: seq<Item>, seen: set<string>, found: seq<Entry>, ghost before: seq<Item>)
    returns (discovered: seq<Entry>)
    requires found == Unseen(before, seen)
    ensures discovered == Unseen(before + page, seen)
  {
    discovered := found;
    assert before + page[..0] == before;
    for i := 0 to |page|
      invariant discovered == Unseen(before + page[..i], seen)
    {
      UnseenStep(before, page, i, seen);
      var objectKey := page[i].key;
      if IsDirectory(objectKey) || objectKey in seen {
        continue;
      }
      discovered := discovered + [EntryOf(page[i])];
    }
    assert page[..|page|] == page;
  }

  // ---------- what an entry says of its object ----------

  // The etag between its quotes, none when nothing is left.
  ghost predicate IsEtagOf(etag: Option<string>, stored: Option<string>) {
    exists before, core, behind ::
      && Between(etag.GetOr(""), before, core, behind)
      && stored == (if core == "" then None else Some(core))
  }

  ghost predicate Between(s: string, before: string, core: string, behind: string) {
    && s == before + core + behind
    && (forall i :: 0 <= i < |before| ==> before[i] == '"') && (forall i :: 0 <= i < |behind| ==> behind[i] == '"')
    && (core != "" ==> core[0] != '"' && core[|core| - 1] != '"')
  }

  // The second segment of a key under bronze/.
  ghost predicate IsTopicOf(key: string, topic: string) {
    if "bronze/" <= key
    then '/' !in topic && exists rest :: key == "bronze/" + topic + rest && (rest == "" || rest[0] == '/')
    else topic == "unknown"
  }

  ghost predicate Describes(e: Entry, item: Item) {
    && e.objectKey == item.key && IsEtagOf(item.etag, e.etag) && IsTopicOf(item.key, e.sourceTopic)
    && e.lastModified == item.lastModified && e.size == item.size
  }

  lemma BetweenMore(s: string, before: string, core: string, behind: string)
    requires Between(s, before, core, behind)
    ensures Between("\"" + s, "\"" + before, core, behind) && Between(s + "\"", before, core, behind + "\"")
  {
  }

  lemma {:induction false} StripsToCore(s: string) returns (before: string, behind: string)
    ensures Between(s, before, StripQuotes(s), behind)
    decreases |s|
  {
    if s != "" && s[0] == '"' {
      before, behind := StripsToCore(s[1..]);
      assert s == "\"" + s[1..];
      BetweenMore(s[1..], before, StripQuotes(s), behind);
      before := "\"" + before;
    } else if s != "" && s[|s| - 1] == '"' {
      before, behind := StripsToCore(s[..|s| - 1]);
      assert s == s[..|s| - 1] + "\"";
      BetweenMore(s[..|s| - 1], before, StripQuotes(s), behind);
      behind := behind + "\"";
    } else {
      before, behind := "", "";
    }
  }

  lemma {:induction false} UntilSlash(s: string) returns (rest: string)
    ensures s == Until(s, '/') + rest && '/' !in Until(s, '/') && (rest == "" || rest[0] == '/')
  {
    if s == "" || s[0] == '/' {
      rest := s;
    } else {
      rest := UntilSlash(s[1..]);
      assert s == [s[0]] + s[1..];
    }
  }

  lemma TopicIsSecondSegment(key: string)
    ensures IsTopicOf(key, BronzeObjectTopic(key))
  {
    var prefix := "bronze/";
    if prefix <= key {
      SegmentAfter(prefix, key);
    }
  }

  lemma SegmentAfter(prefix: string, key: string)
    requires prefix <= key
    ensures var topic := Until(key[|prefix|..], '/');
            '/' !in topic && exists rest :: key == prefix + topic + rest && (rest == "" || rest[0] == '/')
  {
    var tail := key[|prefix|..];
    var rest := UntilSlash(tail);
    assert key == prefix + tail;
    assert key == prefix + Until(tail, '/') + rest;
  }

  lemma EntryDescribes(item: Item)
    ensures Describes(EntryOf(item), item)
  {
    var before, behind := StripsToCore(item.etag.GetOr(""));
    TopicIsSecondSegment(item.key);
  }

  // Every found entry describes a listed object that was wanted.
  lemma {:induction false} FoundDescribe(items: seq<Item>, seen: set<string>, e: Entry)
    requires e in Unseen(items, seen)
    ensures exists item :: item in items && Describes(e, item) && !IsDirectory(item.key) && item.key !in seen
  {
    var init, last := items[..|items| - 1], items[|items| - 1];
    if e in Unseen(init, seen) {
      FoundDescribe(init, seen, e);
    } else {
      EntryDescribes(last);
      assert last in items;
    }
  }

  lemma DiscoveredDescribe(items: seq<Item>, seen: set<string>, e: Entry)
    requires e in SortByKey(Unseen(items, seen))
    ensures exists item :: item in items && Describes(e, item) && item.key !in seen
                           && (item.key == "" || item.key[|item.key| - 1] != '/')
  {
    SortIsSorted(Unseen(items, seen));
    assert e in multiset(SortByKey(Unseen(items, seen)));
    FoundDescribe(items, seen, e);
  }

  // ---------- the texts of a time ----------

  lemma RenderCons(p: Part, ps: seq<Part>)
    ensures Render([p] + ps) == Fixed(p.value, p.width) + p.separator + Render(ps)
  {
    assert ([p] + ps)[1..] == ps;
  }

  // Year, month and day, and on to the milliseconds: each part has its digits in its place.
  lemma MilliTextReads(t: UtcStamp) returns (x: TimeTexts)
    ensures MilliText(t) == x.year + "-" + (x.month + "-" + (x.day + " " + ClockText(x)))
    ensures DateText(t) == x.year + "-" + (x.month + "-" + x.day)
    ensures |x.year| == 4 && AllDigits(x.year) && Undec(x.year) == t.year
    ensures |x.month| == 2 && AllDigits(x.month) && Undec(x.month) == t.month
    ensures |x.day| == 2 && AllDigits(x.day) && Undec(x.day) == t.day
    ensures |x.hour| == 2 && AllDigits(x.hour) && Undec(x.hour) == t.hour
    ensures |x.minute| == 2 && AllDigits(x.minute) && Undec(x.minute) == t.minute
    ensures |x.second| == 2 && AllDigits(x.second) && Undec(x.second) == t.second
    ensures |x.millis| == 3 && AllDigits(x.millis) && Undec(x.millis) == t.micros / 1000
  {
    PowersUsed();
    x := TimeTexts(Fixed(t.year, 4), Fixed(t.month, 2), Fixed(t.day, 2), Fixed(t.hour, 2), Fixed(t.minute, 2),
                   Fixed(t.second, 2), Fixed(t.micros / 1000, 3));
    UndecFixed(t.year, 4);
    UndecFixed(t.month, 2);
    UndecFixed(t.day, 2);
    UndecFixed(t.hour, 2);
    UndecFixed(t.minute, 2);
    UndecFixed(t.second, 2);
    UndecFixed(t.micros / 1000, 3);
    MilliRendered(t);
    DateRendered(t);
  }

  /** The digits of each part of a printed time. */
  datatype TimeTexts = TimeTexts(year: string, month: string, day: string, hour: string, minute: string,
                                 second: string, millis: string)

  function ClockText(x: TimeTexts): string {
    x.hour + ":" + (x.minute + ":" + (x.second + "." + x.millis))
  }

  function Shown(p: Part): string {
    Fixed(p.value, p.width) + p.separator
  }

  lemma RenderSeven(a: Part, b: Part, c: Part, d: Part, e: Part, f: Part, g: Part)
    ensures Render([a, b, c, d, e, f, g]) ==
            Shown(a) + (Shown(b) + (Shown(c) + (Shown(d) + (Shown(e) + (Shown(f) + (Shown(g) + ""))))))
  {
    RenderCons(g, []);
    RenderCons(f, [g]);
    RenderCons(e, [f, g]);
    RenderCons(d, [e, f, g]);
    RenderCons(c, [d, e, f, g]);
    RenderCons(b, [c, d, e, f, g]);
    RenderCons(a, [b, c, d, e, f, g]);
    assert [g] + [] == [g] && [f] + [g] == [f, g] && [e] + [f, g] == [e, f, g] && [d] + [e, f, g] == [d, e, f, g];
    assert [c] + [d, e, f, g] == [c, d, e, f, g] && [b] + [c, d, e, f, g] == [b, c, d, e, f, g];
    assert [a] + [b, c, d, e, f, g] == [a, b, c, d, e, f, g];
  }

  lemma MilliRendered(t: UtcStamp)
    ensures MilliText(t) ==
            Fixed(t.year, 4) + "-" + (Fixed(t.month, 2) + "-" + (Fixed(t.day, 2) + " " + (Fixed(t.hour, 2) + ":"
            + (Fixed(t.minute, 2) + ":" + (Fixed(t.second, 2) + "." + Fixed(t.micros / 1000, 3))))))
  {
    var millis := Part(t.micros / 1000, 3, "");
    RenderSeven(Part(t.year, 4, "-"), Part(t.month, 2, "-"), Part(t.day, 2, " "), Part(t.hour, 2, ":"),
                Part(t.minute, 2, ":"), Part(t.second, 2, "."), millis);
    assert Shown(millis) + "" == Fixed(t.micros / 1000, 3);
  }

  lemma DateRendered(t: UtcStamp)
    ensures DateText(t) == Fixed(t.year, 4) + "-" + (Fixed(t.month, 2) + "-" + Fixed(t.day, 2))
  {
    var y, m, d := Part(t.year, 4, "-"), Part(t.month, 2, "-"), Part(t.day, 2, "");
    RenderCons(y, [m, d]);
    RenderCons(m, [d]);
    RenderCons(d, []);
    assert [y] + [m, d] == [y, m, d] && [m] + [d] == [m, d] && [d] + [] == [d];
  }
}
