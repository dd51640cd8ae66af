// fetch_third_party_data: one Iceberg INSERT, then one appdb transaction.
module ThirdParty {
  import opened Wrappers

  datatype Record = Record(id: string, provider: string, accountId: Option<string>, collectedAt: int, payload: string)

  // The Iceberg row of a record, with times in microseconds: sql_nullable_string writes an empty account
  // as NULL and sql_timestamp cuts the time to milliseconds; appdb keeps both.
  function SnapshotRow(r: Record): Record {
    r.(accountId := if r.accountId == Some("") then None else r.accountId,
       collectedAt := r.collectedAt / 1000 * 1000)
  }

  // What an Iceberg row keeps of a record.
  predicate IsSnapshotOf(r: Record, row: Record) {
    && row.id == r.id && row.provider == r.provider && row.payload == r.payload
    && row.accountId == (if r.accountId == Some("") then None else r.accountId)
    && row.collectedAt <= r.collectedAt <= row.collectedAt + 999
    && row.collectedAt % 1000 == 0
  }

  lemma SnapshotKeeps(r: Record)
    ensures IsSnapshotOf(r, SnapshotRow(r))
  {
  }

  function SnapshotRows(records: seq<Record>): seq<Record> {
    seq(|records|, i requires 0 <= i < |records| => SnapshotRow(records[i]))
  }

  // insert ... on conflict (record_id) do nothing, record by record
  function InsertNew(stored: map<string, Record>, records: seq<Record>): map<string, Record> {
    if records == [] then stored
    else
      var sofar, r := InsertNew(stored, records[..|records| - 1]), records[|records| - 1];
      if r.id in sofar then sofar else sofar[r.id := r]
  }

  // Where a fetch fails: before a step took effect, or after, with only the reply lost.
  datatype Fault = NoFault | BeforeSnapshot | AfterSnapshot | BeforeCommit | AfterCommit

  class Stores {
    var snapshots: seq<Record>
    var records: map<string, Record>

    constructor ()
      ensures snapshots == [] && records == map[]
    {
      snapshots, records := [], map[];
    }

    // An empty batch prints an INSERT without values, which is refused.
    method Fetch(batch: seq<Record>, fault: Fault) returns (ok: bool)
      modifies this
      ensures ok <==> batch != [] && fault == NoFault
      ensures snapshots == old(snapshots) + if Snapshots(batch, fault) then SnapshotRows(batch) else []
      ensures batch != [] && fault != BeforeSnapshot ==>
                && |snapshots| == |old(snapshots)| + |batch|
                && forall i :: 0 <= i < |batch| ==> IsSnapshotOf(batch[i], snapshots[|old(snapshots)| + i])
      ensures records == if Commits(batch, fault) then InsertNew(old(records), batch) else old(records)
    {
      if batch == [] || fault == BeforeSnapshot {
        return false;
      }
      snapshots := snapshots + SnapshotRows(batch);
      if fault == AfterSnapshot {
        return false;
      }
      var transaction := records;
      for i := 0 to |batch|
        invariant transaction == InsertNew(old(records), batch[..i])
        invariant records == old(records)
        invariant snapshots == old(snapshots) + SnapshotRows(batch)
      {
        assert batch[..i + 1][..i] == batch[..i];
        if batch[i].id !in transaction {
          transaction := transaction[batch[i].id := batch[i]];
        }
      }
      assert batch[..|batch|] == batch;
      if fault == BeforeCommit {
        return false;
      }
      records := transaction;
      ok := fault == NoFault;
    }
  }

  predicate Snapshots(batch: seq<Record>, fault: Fault) {
    batch != [] && fault != BeforeSnapshot
  }

  predicate Commits(batch: seq<Record>, fault: Fault) {
    batch != [] && (fault == NoFault || fault == AfterCommit)
  }

  // ---------- sequences of fetches ----------

  datatype Attempt = Attempt(batch: seq<Record>, fault: Fault)

  function SnapshotsAfter(attempts: seq<Attempt>): seq<Record> {
    if attempts == [] then []
    else
      var last := attempts[|attempts| - 1];
      SnapshotsAfter(attempts[..|attempts| - 1])
      + if Snapshots(last.batch, last.fault) then SnapshotRows(last.batch) else []
  }

  function RecordsAfter(attempts: seq<Attempt>): map<string, Record> {
    if attempts == [] then map[]
    else
      var last, before := attempts[|attempts| - 1], RecordsAfter(attempts[..|attempts| - 1]);
      if Commits(last.batch, last.fault) then InsertNew(before, last.batch) else before
  }

  // Everything the committed fetches brought, oldest first.
  function Committed(attempts: seq<Attempt>): seq<Record> {
    if attempts == [] then []
    else
      var last := attempts[|attempts| - 1];
      Committed(attempts[..|attempts| - 1]) + if Commits(last.batch, last.fault) then last.batch else []
  }

  // The class runs any list of attempts exactly as the functions say.
  method FetchAll(stores: Stores, attempts: seq<Attempt>)
    requires stores.snapshots == [] && stores.records == map[]
    modifies stores
    ensures stores.snapshots == SnapshotsAfter(attempts) && stores.records == RecordsAfter(attempts)
  {
    for i := 0 to |attempts|
      invariant stores.snapshots == SnapshotsAfter(attempts[..i])
      invariant stores.records == RecordsAfter(attempts[..i])
    {
      assert attempts[..i + 1][..i] == attempts[..i];
      var ok := stores.Fetch(attempts[i].batch, attempts[i].fault);
    }
    assert attempts[..|attempts|] == attempts;
  }

  // Reference definition: the first record with an id.
  function First(records: seq<Record>, id: string): Option<Record> {
    if records == [] then None else if records[0].id == id then Some(records[0]) else First(records[1..], id)
  }

  function Lookup(stored: map<string, Record>, id: string): Option<Record> {
    if id in stored then Some(stored[id]) else None
  }

  lemma {:induction false} FirstOfAppend(a: seq<Record>, b: seq<Record>, id: string)
    ensures First(a + b, id) == if First(a, id).Some? then First(a, id) else First(b, id)
  {
    if a == [] {
      assert a + b == b;
    } else {
      FirstOfAppend(a[1..], b, id);
      assert (a + b)[1..] == a[1..] + b;
    }
  }

  lemma {:induction false} InsertNewKeepsFirst(stored: map<string, Record>, records: seq<Record>, id: string)
    ensures Lookup(InsertNew(stored, records), id) == if id in stored then Some(stored[id]) else First(records, id)
  {
    if records != [] {
      var init, r := records[..|records| - 1], records[|records| - 1];
      InsertNewKeepsFirst(stored, init, id);
      assert records == init + [r];
      FirstOfAppend(init, [r], id);
    }
  }

  // appdb holds, for every id, the first version that was ever committed.
  lemma {:induction false} AppdbKeepsFirstVersion(attempts: seq<Attempt>, id: string)
    ensures Lookup(RecordsAfter(attempts), id) == First(Committed(attempts), id)
  {
    if attempts != [] {
      var init, last := attempts[..|attempts| - 1], attempts[|attempts| - 1];
      AppdbKeepsFirstVersion(init, id);
      FirstOfAppend(Committed(init), last.batch, id);
      InsertNewKeepsFirst(RecordsAfter(init), last.batch, id);
      assert Committed(init) + [] == Committed(init);
    }
  }

  // And keeps it forever, whatever is fetched later.
  lemma {:induction false} AppdbNeverChanges(attempts: seq<Attempt>, later: seq<Attempt>, id: string)
    requires id in RecordsAfter(attempts)
    ensures Lookup(RecordsAfter(attempts + later), id) == Some(RecordsAfter(attempts)[id])
    decreases |later|
  {
    if later == [] {
      assert attempts + later == attempts;
    } else {
      var init, last := later[..|later| - 1], later[|later| - 1];
      AppdbNeverChanges(attempts, init, id);
      assert (attempts + later)[..|attempts + later| - 1] == attempts + init;
      InsertNewKeepsFirst(RecordsAfter(attempts + init), last.batch, id);
    }
  }

  lemma {:induction false} FirstIsMember(records: seq<Record>, id: string)
    requires First(records, id).Some?
    ensures First(records, id).value in records && First(records, id).value.id == id
  {
    if records[0].id != id {
      FirstIsMember(records[1..], id);
    }
  }

  lemma {:induction false} CommittedAreSnapshotted(attempts: seq<Attempt>, r: Record)
    requires r in Committed(attempts)
    ensures SnapshotRow(r) in SnapshotsAfter(attempts)
  {
    var init, last := attempts[..|attempts| - 1], attempts[|attempts| - 1];
    if r in Committed(init) {
      CommittedAreSnapshotted(init, r);
    } else {
      var i :| 0 <= i < |last.batch| && last.batch[i] == r;
      assert SnapshotRows(last.batch)[i] == SnapshotRow(r);
    }
  }

  // Every record in appdb has its row in Iceberg.
  lemma AppdbIsInIceberg(attempts: seq<Attempt>, id: string) returns (row: Record)
    requires id in RecordsAfter(attempts)
    ensures RecordsAfter(attempts)[id].id == id
    ensures row in SnapshotsAfter(attempts) && row.id == id && IsSnapshotOf(RecordsAfter(attempts)[id], row)
  {
    AppdbKeepsFirstVersion(attempts, id);
    FirstIsMember(Committed(attempts), id);
    row := SnapshotRow(RecordsAfter(attempts)[id]);
    CommittedAreSnapshotted(attempts, RecordsAfter(attempts)[id]);
    SnapshotKeeps(RecordsAfter(attempts)[id]);
  }

  // And every row in Iceberg comes from a record of a batch that got there.
  lemma {:induction false} IcebergIsFetched(attempts: seq<Attempt>, row: Record) returns (i: nat, r: Record)
    requires row in SnapshotsAfter(attempts)
    ensures i < |attempts| && r in attempts[i].batch && attempts[i].fault != BeforeSnapshot && IsSnapshotOf(r, row)
  {
    var init, last := attempts[..|attempts| - 1], attempts[|attempts| - 1];
    if row in SnapshotsAfter(init) {
      i, r := IcebergIsFetched(init, row);
    } else {
      var k :| 0 <= k < |last.batch| && SnapshotRows(last.batch)[k] == row;
      i, r := |attempts| - 1, last.batch[k];
      SnapshotKeeps(r);
    }
  }

  // A fetch that succeeds has all its records in appdb; one that fails before the commit changes nothing there.
  lemma FetchedIsStored(attempts: seq<Attempt>, a: Attempt)
    ensures a.fault == NoFault ==> forall r :: r in a.batch ==> r.id in RecordsAfter(attempts + [a])
    ensures a.fault != NoFault && a.fault != AfterCommit ==> RecordsAfter(attempts + [a]) == RecordsAfter(attempts)
  {
    var all := attempts + [a];
    assert all[..|all| - 1] == attempts;
    forall r | r in a.batch
      ensures First(a.batch, r.id).Some?
    {
      FirstFinds(a.batch, r);
    }
    forall r | r in a.batch && a.fault == NoFault
      ensures r.id in RecordsAfter(all)
    {
      InsertNewKeepsFirst(RecordsAfter(attempts), a.batch, r.id);
    }
  }

  lemma {:induction false} FirstFinds(records: seq<Record>, r: Record)
    requires r in records
    ensures First(records, r.id).Some?
  {
    if records[0].id != r.id {
      assert r in records[1..];
      FirstFinds(records[1..], r);
    }
  }
}
