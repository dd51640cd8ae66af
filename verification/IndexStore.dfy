// The table raw_object_index, and a whole synchronisation: read the keys, list, insert.
module IndexStore {
  import opened SqlText
  import opened IndexRows

  // The Iceberg table behind Trino: it executes INSERT text by reading it back.
  class IndexTable {
    var rows: seq<NamedRow>

    constructor ()
      ensures rows == []
    {
      rows := [];
    }

    method Execute(sql: string) returns (ok: bool)
      modifies this
      ensures ok <==> ReadInsert(sql, COLUMNS).Some?
      ensures rows == if ok then old(rows) + ReadInsert(sql, COLUMNS).value else old(rows)
    {
      var more := ReadInsert(sql, COLUMNS);
      ok := more.Some?;
      if ok {
        rows := rows + more.value;
      }
    }
  }

  method Insert(table: IndexTable, batch: seq<Entry>, processedAt: UtcStamp)
    requires batch != []
    modifies table
    ensures table.rows == old(table.rows) + RowsOf(batch, processedAt)
  {
    ReadsInsert(batch, processedAt);
    var ok := table.Execute(PrintInsert(batch, processedAt));
  }

  // The statement for one batch can fail before it took effect or after, with only its reply lost.
  datatype BatchFault = NoFault | NotApplied(batch: nat) | ReplyLost(batch: nat)

  // The batches that take effect, and whether all of the count go through with their replies.
  function Applied(fault: BatchFault, count: nat): (n: nat)
    ensures n <= count
  {
    match fault
    case NoFault => count
    case NotApplied(batch) => if batch < count then batch else count
    case ReplyLost(batch) => if batch < count then batch + 1 else count
  }

  predicate Hits(fault: BatchFault, count: nat) {
    !fault.NoFault? && fault.batch < count
  }

  // The rows after the first ones hold these entries, in order.
  ghost predicate Gained(before: seq<NamedRow>, rows: seq<NamedRow>, entries: seq<Entry>, processedAt: UtcStamp) {
    && |rows| == |before| + |entries|
    && rows[..|before|] == before
    && forall i :: 0 <= i < |entries| ==> Holds(rows[|before| + i], entries[i], processedAt)
  }

  lemma RowsOfAreGained(before: seq<NamedRow>, entries: seq<Entry>, processedAt: UtcStamp)
    ensures Gained(before, before + RowsOf(entries, processedAt), entries, processedAt)
  {
    var rows := before + RowsOf(entries, processedAt);
    forall i | 0 <= i < |entries|
      ensures Holds(rows[|before| + i], entries[i], processedAt)
    {
      assert rows[|before| + i] == RowOf(entries[i], processedAt);
      RowHoldsEntry(entries[i], processedAt);
    }
  }

  // record_object_index_entries, stopped by a failing statement if there is one: the table gains exactly
  // the rows of the batches that took effect, in order, and with no failure those of all objects.
  method RecordEntries(table: IndexTable, objects: seq<Entry>, processedAt: UtcStamp, fault: BatchFault)
    returns (done: bool)
    modifies table
    ensures var chunks := Chunked(objects, 200);
            var applied := Flatten(chunks[..Applied(fault, |chunks|)]);
            && applied <= objects
            && Gained(old(table.rows), table.rows, applied, processedAt)
            && (done <==> !Hits(fault, |chunks|))
            && (done ==> applied == objects)
  {
    ChunksMakeTheList(objects, 200);
    var chunks := Chunked(objects, 200);
    done := RecordBatches(table, chunks, processedAt, fault);
    ghost var n := Applied(fault, |chunks|);
    FlattenIsPrefix(chunks, n);
    RowsOfAreGained(old(table.rows), Flatten(chunks[..n]), processedAt);
    assert chunks[..|chunks|] == chunks;
  }

  lemma {:induction false} FlattenIsPrefix<T>(chunks: seq<seq<T>>, n: nat)
    requires n <= |chunks|
    ensures Flatten(chunks[..n]) <= Flatten(chunks)
    decreases |chunks| - n
  {
    if n == |chunks| {
      assert chunks[..n] == chunks;
    } else {
      FlattenPrefix(chunks, n);
      FlattenIsPrefix(chunks, n + 1);
    }
  }

  lemma BatchRecorded(rows: seq<NamedRow>, chunks: seq<seq<Entry>>, i: nat, processedAt: UtcStamp)
    requires i < |chunks|
    ensures (rows + RowsOf(Flatten(chunks[..i]), processedAt)) + RowsOf(chunks[i], processedAt)
         == rows + RowsOf(Flatten(chunks[..i + 1]), processedAt)
  {
    FlattenPrefix(chunks, i);
    RowsOfAppend(Flatten(chunks[..i]), chunks[i], processedAt);
  }

  method RecordBatches(table: IndexTable, chunks: seq<seq<Entry>>, processedAt: UtcStamp, fault: BatchFault)
    returns (done: bool)
    requires forall i :: 0 <= i < |chunks| ==> chunks[i] != []
    modifies table
    ensures table.rows == old(table.rows) + RowsOf(Flatten(chunks[..Applied(fault, |chunks|)]), processedAt)
    ensures done <==> !Hits(fault, |chunks|)
  {
    assert chunks[..0] == [];
    for i := 0 to |chunks|
      invariant !Hits(fault, i)
      invariant table.rows == old(table.rows) + RowsOf(Flatten(chunks[..i]), processedAt)
    {
      if fault == NotApplied(i) {
        return false;
      }
      Insert(table, chunks[i], processedAt);
      BatchRecorded(old(table.rows), chunks, i, processedAt);
      if fault == ReplyLost(i) {
        return false;
      }
    }
    done := true;
  }

  // ---------- the keys of the index ----------

  // The texts under "object_key".
  function KeysOf(rows: seq<NamedRow>): set<string> {
    set i | 0 <= i < |rows| && Under(rows[i], "object_key").Str? :: Under(rows[i], "object_key").text
  }

  lemma GainedKeys(before: seq<NamedRow>, rows: seq<NamedRow>, entries: seq<Entry>, processedAt: UtcStamp)
    requires Gained(before, rows, entries, processedAt)
    ensures KeysOf(rows) == KeysOf(before) + set i | 0 <= i < |entries| :: entries[i].objectKey
  {
    KeysOfAppend(before, rows[|before|..]);
    assert rows == before + rows[|before|..];
    forall i | 0 <= i < |entries|
      ensures Under(rows[|before|..][i], "object_key") == Str(entries[i].objectKey)
    {
      assert rows[|before|..][i] == rows[|before| + i];
    }
    KeysOfTexts(rows[|before|..], entries);
  }

  lemma KeysOfAppend(a: seq<NamedRow>, b: seq<NamedRow>)
    ensures KeysOf(a + b) == KeysOf(a) + KeysOf(b)
  {
    forall key | key in KeysOf(a) + KeysOf(b)
      ensures key in KeysOf(a + b)
    {
      if key in KeysOf(a) {
        var i :| 0 <= i < |a| && Under(a[i], "object_key") == Str(key);
        assert (a + b)[i] == a[i];
      } else {
        var i :| 0 <= i < |b| && Under(b[i], "object_key") == Str(key);
        assert (a + b)[|a| + i] == b[i];
      }
    }
  }

  lemma KeysOfTexts(rows: seq<NamedRow>, entries: seq<Entry>)
    requires |rows| == |entries|
    requires forall i :: 0 <= i < |entries| ==> Under(rows[i], "object_key") == Str(entries[i].objectKey)
    ensures KeysOf(rows) == set i | 0 <= i < |entries| :: entries[i].objectKey
  {
    var keys := set i | 0 <= i < |entries| :: entries[i].objectKey;
    forall i | 0 <= i < |entries|
      ensures entries[i].objectKey in KeysOf(rows)
    {
      assert Under(rows[i], "object_key") == Str(entries[i].objectKey);
    }
    forall key | key in KeysOf(rows)
      ensures key in keys
    {
      var i :| 0 <= i < |rows| && Under(rows[i], "object_key") == Str(key);
      assert entries[i].objectKey == key;
    }
  }

  ghost predicate HasKey(entries: seq<Entry>, key: string) {
    exists e :: e in entries && e.objectKey == key
  }

  ghost predicate ListsKey(items: seq<Item>, key: string) {
    exists item :: item in items && item.key == key
  }

  lemma HasKeySnoc(entries: seq<Entry>, e: Entry, key: string)
    ensures HasKey(entries + [e], key) <==> HasKey(entries, key) || e.objectKey == key
  {
    assert e in entries + [e];
    if HasKey(entries, key) {
      var f :| f in entries && f.objectKey == key;
      assert f in entries + [e];
    }
  }

  lemma ListsKeySnoc(items: seq<Item>, item: Item, key: string)
    ensures ListsKey(items + [item], key) <==> ListsKey(items, key) || item.key == key
  {
    assert item in items + [item];
    if ListsKey(items, key) {
      var i :| i in items && i.key == key;
      assert i in items + [item];
    }
  }

  // What is found is exactly what is wanted.
  lemma {:induction false} FoundIffWanted(items: seq<Item>, seen: set<string>, key: string)
    ensures HasKey(Unseen(items, seen), key) <==> !IsDirectory(key) && key !in seen && ListsKey(items, key)
  {
    if items != [] {
      var init, last := items[..|items| - 1], items[|items| - 1];
      FoundIffWanted(init, seen, key);
      assert items == init + [last];
      ListsKeySnoc(init, last, key);
      HasKeySnoc(Unseen(init, seen), EntryOf(last), key);
    }
  }

  lemma SortKeepsFound(entries: seq<Entry>, key: string)
    ensures HasKey(SortByKey(entries), key) <==> HasKey(entries, key)
  {
    SortIsSorted(entries);
    assert forall e :: e in entries <==> e in multiset(entries);
    assert forall e :: e in SortByKey(entries) <==> e in multiset(SortByKey(entries));
  }

  // The keys of the listed objects that are no directories.
  function Wanted(items: seq<Item>): set<string> {
    set i | 0 <= i < |items| && !IsDirectory(items[i].key) :: items[i].key
  }

  lemma FoundKeys(items: seq<Item>, seen: set<string>)
    ensures var found := SortByKey(Unseen(items, seen));
            && (set i | 0 <= i < |found| :: found[i].objectKey) == Wanted(items) - seen
            && (found == [] ==> Wanted(items) <= seen)
  {
    var found := SortByKey(Unseen(items, seen));
    var keys := set i | 0 <= i < |found| :: found[i].objectKey;
    forall key
      ensures key in keys <==> key in Wanted(items) - seen
    {
      FoundIffWanted(items, seen, key);
      SortKeepsFound(Unseen(items, seen), key);
      KeyInSet(found, key);
      WantedKey(items, key);
    }
    assert keys == Wanted(items) - seen;
    if found == [] {
      assert keys == {};
      assert forall key :: key in Wanted(items) && key !in seen ==> key in keys;
    }
  }

  lemma KeyInSet(entries: seq<Entry>, key: string)
    ensures key in (set i | 0 <= i < |entries| :: entries[i].objectKey) <==> HasKey(entries, key)
  {
    if HasKey(entries, key) {
      var e :| e in entries && e.objectKey == key;
      var i :| 0 <= i < |entries| && entries[i] == e;
    }
  }

  lemma WantedKey(items: seq<Item>, key: string)
    ensures key in Wanted(items) <==> !IsDirectory(key) && ListsKey(items, key)
  {
    if ListsKey(items, key) {
      var item :| item in items && item.key == key;
      var i :| 0 <= i < |items| && items[i] == item;
    }
  }

  // sync_object_metadata, from reading the keys to the last insert. When it is done, the index has the
  // keys it had and those of all listed objects that are no directories; when all of those were there
  // already, nothing is inserted.
  method Sync(table: IndexTable, pages: seq<seq<Item>>, processedAt: UtcStamp, fault: BatchFault) returns (done: bool)
    modifies table
    ensures done ==> KeysOf(table.rows) == KeysOf(old(table.rows)) + Wanted(Flatten(pages))
    ensures KeysOf(old(table.rows)) <= KeysOf(table.rows) <= KeysOf(old(table.rows)) + Wanted(Flatten(pages))
    ensures Wanted(Flatten(pages)) <= KeysOf(old(table.rows)) ==> done && table.rows == old(table.rows)
    ensures old(table.rows) <= table.rows
    ensures fault == NoFault ==> done
  {
    var seen := KeysOf(table.rows);
    var discovered := ListUnprocessed(pages, seen);
    FoundKeys(Flatten(pages), seen);
    if discovered == [] {
      return true;
    }
    SomethingWanted(Flatten(pages), seen);
    done := RecordEntries(table, discovered, processedAt, fault);
    ghost var chunks := Chunked(discovered, 200);
    AppliedKeys(Flatten(pages), old(table.rows), table.rows, Flatten(chunks[..Applied(fault, |chunks|)]), processedAt);
  }

  lemma SomethingWanted(items: seq<Item>, seen: set<string>)
    requires SortByKey(Unseen(items, seen)) != []
    ensures !(Wanted(items) <= seen)
  {
    var found := SortByKey(Unseen(items, seen));
    FoundKeys(items, seen);
    assert found[0].objectKey in (set i | 0 <= i < |found| :: found[i].objectKey);
  }

  // A first part of what was found, stored: the keys are old ones and wanted ones, all of them with all.
  lemma AppliedKeys(items: seq<Item>, before: seq<NamedRow>, rows: seq<NamedRow>, applied: seq<Entry>,
                    processedAt: UtcStamp)
    requires var found := SortByKey(Unseen(items, KeysOf(before))); applied <= found
    requires Gained(before, rows, applied, processedAt)
    ensures before <= rows && KeysOf(before) <= KeysOf(rows) <= KeysOf(before) + Wanted(items)
    ensures applied == SortByKey(Unseen(items, KeysOf(before))) ==> KeysOf(rows) == KeysOf(before) + Wanted(items)
  {
    var found := SortByKey(Unseen(items, KeysOf(before)));
    FoundKeys(items, KeysOf(before));
    GainedKeys(before, rows, applied, processedAt);
    forall i | 0 <= i < |applied|
      ensures applied[i].objectKey in Wanted(items) - KeysOf(before)
    {
      assert applied[i] == found[i];
      assert found[i].objectKey in (set j | 0 <= j < |found| :: found[j].objectKey);
    }
  }

  // A second synchronisation over the same objects finds nothing to do.
  method SyncTwice(table: IndexTable, pages: seq<seq<Item>>, first: UtcStamp, second: UtcStamp)
    modifies table
    ensures KeysOf(table.rows) == KeysOf(old(table.rows)) + Wanted(Flatten(pages))
  {
    var done := Sync(table, pages, first, NoFault);
    ghost var rows := table.rows;
    done := Sync(table, pages, second, NoFault);
    assert table.rows == rows;
  }
}
