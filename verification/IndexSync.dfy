// sync_object_metadata runs that overlap, crash between batches, and race with arriving objects.
module IndexSync {
  import opened Sequences
  import opened Wrappers
  import opened IndexRows

  // Where a run stands. listed is everything its listing has returned, present the keys that were in
  // the bucket when it began, inflight a batch whose statement was given up on but may still take effect.
  datatype Phase =
    | Listing(seen: set<string>, listed: seq<Item>, present: set<string>)
    | Writing(listed: seq<Item>, present: set<string>, batches: seq<seq<Entry>>)
    | Finished(listed: seq<Item>, present: set<string>)
    | Crashed(inflight: seq<Entry>)

  datatype World = World(bucket: map<string, Item>, index: seq<Entry>, runs: map<nat, Phase>)

  datatype Step =
    | Arrive(item: Item)
    | Begin(p: nat)                  // reads the keys in the index
    | Page(p: nat, items: seq<Item>) // one page of the object listing
    | EndListing(p: nat)             // filter, sort, cut into batches
    | WriteBatch(p: nat)             // one INSERT statement
    | Finish(p: nat)
    | Crash(p: nat, waits: bool)     // at any point, also right after a statement took effect, or waiting for one
    | Land(p: nat)                   // the statement a crashed run was waiting for takes effect after all

  const BATCH_SIZE: nat := 200

  function ItemKeys(items: seq<Item>): seq<string> {
    seq(|items|, i requires 0 <= i < |items| => items[i].key)
  }

  function EntryKeys(entries: seq<Entry>): seq<string> {
    seq(|entries|, i requires 0 <= i < |entries| => entries[i].objectKey)
  }

  function Count(entries: seq<Entry>, key: string): nat {
    multiset(EntryKeys(entries))[key]
  }

  // A listing returns objects of the bucket, none of them twice, and before it ends all that were
  // there when it began.
  ghost predicate Enabled(w: World, s: Step) {
    match s
    case Arrive(item) => true
    case Begin(p) => p !in w.runs
    case Page(p, items) =>
      && p in w.runs && w.runs[p].Listing?
      && Distinct(ItemKeys(w.runs[p].listed + items))
      && forall i :: 0 <= i < |items| ==> items[i].key in w.bucket && w.bucket[items[i].key] == items[i]
    case EndListing(p) =>
      p in w.runs && w.runs[p].Listing? && forall k :: k in w.runs[p].present ==> k in ItemKeys(w.runs[p].listed)
    case WriteBatch(p) => p in w.runs && w.runs[p].Writing? && w.runs[p].batches != []
    case Finish(p) => p in w.runs && w.runs[p].Writing? && w.runs[p].batches == []
    case Crash(p, waits) =>
      && p in w.runs && (w.runs[p].Listing? || w.runs[p].Writing?)
      && (waits ==> w.runs[p].Writing? && w.runs[p].batches != [])
    case Land(p) => p in w.runs && w.runs[p].Crashed? && w.runs[p].inflight != []
  }

  function Do(w: World, s: Step): World
    requires Enabled(w, s)
  {
    match s
    case Arrive(item) => w.(bucket := w.bucket[item.key := item])
    case Begin(p) =>
      w.(runs := w.runs[p := Listing(set k | k in EntryKeys(w.index), [], w.bucket.Keys)])
    case Page(p, items) =>
      var r := w.runs[p];
      w.(runs := w.runs[p := Listing(r.seen, r.listed + items, r.present)])
    case EndListing(p) =>
      var r := w.runs[p];
      w.(runs := w.runs[p := Writing(r.listed, r.present, Chunked(SortByKey(Unseen(r.listed, r.seen)), BATCH_SIZE))])
    case WriteBatch(p) =>
      var r := w.runs[p];
      w.(index := w.index + r.batches[0], runs := w.runs[p := Writing(r.listed, r.present, r.batches[1..])])
    case Finish(p) => w.(runs := w.runs[p := Finished(w.runs[p].listed, w.runs[p].present)])
    case Crash(p, waits) => w.(runs := w.runs[p := Crashed(if waits then w.runs[p].batches[0] else [])])
    case Land(p) => w.(index := w.index + w.runs[p].inflight, runs := w.runs[p := Crashed([])])
  }

  ghost predicate Run(worlds: seq<World>, steps: seq<Step>) {
    && |worlds| == |steps| + 1
    && forall i :: 0 <= i < |steps| ==> Enabled(worlds[i], steps[i]) && worlds[i + 1] == Do(worlds[i], steps[i])
  }

  // ---------- keys through filtering, sorting and chunking ----------

  lemma CountAppend(a: seq<Entry>, b: seq<Entry>, key: string)
    ensures Count(a + b, key) == Count(a, key) + Count(b, key)
  {
    assert EntryKeys(a + b) == EntryKeys(a) + EntryKeys(b);
  }

  lemma CountPositive(entries: seq<Entry>, key: string)
    ensures Count(entries, key) > 0 <==> key in EntryKeys(entries)
  {
  }

  lemma Position(entries: seq<Entry>, e: Entry) returns (i: nat)
    requires e in multiset(entries)
    ensures i < |entries| && entries[i] == e
  {
    i :| 0 <= i < |entries| && entries[i] == e;
  }

  lemma {:induction false} PermutationKeepsCount(a: seq<Entry>, b: seq<Entry>, key: string)
    requires multiset(a) == multiset(b)
    ensures Count(a, key) == Count(b, key)
    decreases |a|
  {
    if a == [] {
      assert |multiset(b)| == 0;
    } else {
      var i := Position(b, a[0]);
      CountWithout(a, 0, key);
      CountWithout(b, i, key);
      PermutationKeepsCount(Drop(a, 0), Drop(b, i), key);
    }
  }

  function Drop(entries: seq<Entry>, i: nat): (rest: seq<Entry>)
    requires i < |entries|
    ensures |rest| == |entries| - 1
  {
    entries[..i] + entries[i + 1..]
  }

  lemma CountWithout(a: seq<Entry>, i: nat, key: string)
    requires i < |a|
    ensures multiset(Drop(a, i)) == multiset(a) - multiset{a[i]}
    ensures Count(a, key) == Count([a[i]], key) + Count(Drop(a, i), key)
  {
    assert a == a[..i] + ([a[i]] + a[i + 1..]);
    CountAppend(a[..i], [a[i]] + a[i + 1..], key);
    CountAppend([a[i]], a[i + 1..], key);
    CountAppend(a[..i], a[i + 1..], key);
  }

  predicate Wanted(key: string, seen: set<string>) {
    !IsDirectory(key) && key !in seen
  }

  lemma {:induction false} UnseenCounts(items: seq<Item>, seen: set<string>, key: string)
    ensures Count(Unseen(items, seen), key) == if Wanted(key, seen) then multiset(ItemKeys(items))[key] else 0
  {
    if items != [] {
      var init, last := items[..|items| - 1], items[|items| - 1];
      UnseenCounts(init, seen, key);
      CountAppend(Unseen(init, seen), [EntryOf(last)], key);
      assert EntryKeys([EntryOf(last)]) == [last.key];
      assert ItemKeys(items) == ItemKeys(init) + [last.key];
    }
  }

  lemma {:induction false} DistinctCounts(keys: seq<string>, key: string)
    requires Distinct(keys)
    ensures multiset(keys)[key] == if key in keys then 1 else 0
  {
    if keys != [] {
      var init, last := keys[..|keys| - 1], keys[|keys| - 1];
      DistinctCounts(init, key);
      assert keys == init + [last];
      assert last !in init;
    }
  }

  // The batches hold each wanted key that was listed once, and nothing else.
  lemma BatchesCount(listed: seq<Item>, seen: set<string>, key: string)
    requires Distinct(ItemKeys(listed))
    ensures Count(Flatten(Chunked(SortByKey(Unseen(listed, seen)), BATCH_SIZE)), key)
         == if Wanted(key, seen) && key in ItemKeys(listed) then 1 else 0
  {
    var sorted := SortByKey(Unseen(listed, seen));
    ChunksMakeTheList(sorted, BATCH_SIZE);
    SortIsSorted(Unseen(listed, seen));
    PermutationKeepsCount(sorted, Unseen(listed, seen), key);
    UnseenCounts(listed, seen, key);
    DistinctCounts(ItemKeys(listed), key);
  }

  // ---------- at most as many rows as runs were open at once ----------

  // A crashed run counts as open as long as its last statement may still take effect.
  predicate IsOpen(r: Phase) {
    r.Listing? || r.Writing? || (r.Crashed? && r.inflight != [])
  }

  function Open(w: World): set<nat> {
    set p | p in w.runs && IsOpen(w.runs[p])
  }

  // A run that may still add a row for the key.
  predicate MayWrite(r: Phase, key: string) {
    || (r.Listing? && key !in r.seen)
    || (r.Writing? && Count(Flatten(r.batches), key) > 0)
    || (r.Crashed? && Count(r.inflight, key) > 0)
  }

  function Writers(w: World, key: string): set<nat> {
    set p | p in w.runs && MayWrite(w.runs[p], key)
  }

  ghost predicate OncePerRun(w: World) {
    && (forall p :: p in w.runs && w.runs[p].Listing? ==> Distinct(ItemKeys(w.runs[p].listed)))
    && (forall p, key :: p in w.runs && w.runs[p].Writing? ==> Count(Flatten(w.runs[p].batches), key) <= 1)
    && (forall p, key :: p in w.runs && w.runs[p].Crashed? ==> Count(w.runs[p].inflight, key) <= 1)
  }

  // Once a key has a row, its rows and the runs that may add one never number more than the bound.
  ghost predicate Bounded(w: World, bound: nat) {
    forall key :: Count(w.index, key) > 0 ==> Count(w.index, key) + |Writers(w, key)| <= bound
  }

  lemma SubsetSize(a: set<nat>, b: set<nat>)
    requires a <= b
    ensures |a| <= |b|
  {
    assert b == a + (b - a);
  }

  lemma WritersAreOpen(w: World, key: string)
    ensures Writers(w, key) <= Open(w)
  {
  }

  // Writing a batch moves its rows from the run to the index.
  lemma WriteMovesRows(w: World, p: nat, key: string)
    requires Enabled(w, WriteBatch(p))
    ensures var batches := w.runs[p].batches;
            && Count(Do(w, WriteBatch(p)).index, key) == Count(w.index, key) + Count(batches[0], key)
            && Count(Flatten(batches), key) == Count(batches[0], key) + Count(Flatten(batches[1..]), key)
  {
    CountAppend(w.index, w.runs[p].batches[0], key);
    CountAppend(w.runs[p].batches[0], Flatten(w.runs[p].batches[1..]), key);
  }

  // A statement that lands late moves its rows just the same, and one given up on is part of the run's.
  lemma LandMovesRows(w: World, p: nat, key: string)
    requires Enabled(w, Land(p))
    ensures Count(Do(w, Land(p)).index, key) == Count(w.index, key) + Count(w.runs[p].inflight, key)
  {
    CountAppend(w.index, w.runs[p].inflight, key);
  }

  lemma FirstBatchCounts(batches: seq<seq<Entry>>, key: string)
    requires batches != []
    ensures Count(batches[0], key) <= Count(Flatten(batches), key)
  {
    CountAppend(batches[0], Flatten(batches[1..]), key);
  }

  lemma StepKeepsOncePerRun(w: World, s: Step)
    requires OncePerRun(w) && Enabled(w, s)
    ensures OncePerRun(Do(w, s))
  {
    match s {
      case Crash(p, waits) =>
        if waits { forall key { FirstBatchCounts(w.runs[p].batches, key); } }
        PhaseKeepsOncePerRun(w, p, Crashed(if waits then w.runs[p].batches[0] else []), w.index);
      case EndListing(p) =>
        var r := w.runs[p];
        forall key { BatchesCount(r.listed, r.seen, key); }
        var batches := Chunked(SortByKey(Unseen(r.listed, r.seen)), BATCH_SIZE);
        PhaseKeepsOncePerRun(w, p, Writing(r.listed, r.present, batches), w.index);
      case WriteBatch(p) =>
        forall key { WriteMovesRows(w, p, key); }
        var r := w.runs[p];
        PhaseKeepsOncePerRun(w, p, Writing(r.listed, r.present, r.batches[1..]), w.index + r.batches[0]);
      case _ =>
    }
  }

  ghost predicate PhaseOnce(r: Phase) {
    && (r.Listing? ==> Distinct(ItemKeys(r.listed)))
    && (r.Writing? ==> forall key :: Count(Flatten(r.batches), key) <= 1)
    && (r.Crashed? ==> forall key :: Count(r.inflight, key) <= 1)
  }

  lemma PhaseKeepsOncePerRun(w: World, p: nat, r: Phase, index: seq<Entry>)
    requires OncePerRun(w) && PhaseOnce(r)
    ensures OncePerRun(w.(index := index, runs := w.runs[p := r]))
  {
  }

  // A statement that takes effect: the rows it adds were claimed by a run that claims them no more.
  lemma WriteMovesClaim(w: World, p: nat, key: string)
    requires OncePerRun(w) && Enabled(w, WriteBatch(p))
    ensures var w' := Do(w, WriteBatch(p));
            && Count(w'.index, key) + |Writers(w', key)| <= Count(w.index, key) + |Writers(w, key)|
            && (Count(w'.index, key) > Count(w.index, key) ==> |Writers(w, key)| > 0)
  {
    var w' := Do(w, WriteBatch(p));
    WriteMovesRows(w, p, key);
    SubsetSize(Writers(w', key), Writers(w, key));
    if Count(w.runs[p].batches[0], key) > 0 {
      ClaimGoes(Writers(w, key), Writers(w', key), p);
    }
  }

  lemma LandMovesClaim(w: World, p: nat, key: string)
    requires OncePerRun(w) && Enabled(w, Land(p))
    ensures var w' := Do(w, Land(p));
            && Count(w'.index, key) + |Writers(w', key)| <= Count(w.index, key) + |Writers(w, key)|
            && (Count(w'.index, key) > Count(w.index, key) ==> |Writers(w, key)| > 0)
  {
    var w' := Do(w, Land(p));
    LandMovesRows(w, p, key);
    SubsetSize(Writers(w', key), Writers(w, key));
    if Count(w.runs[p].inflight, key) > 0 {
      ClaimGoes(Writers(w, key), Writers(w', key), p);
    }
  }

  lemma ClaimGoes(before: set<nat>, after: set<nat>, p: nat)
    requires after <= before && p in before && p !in after
    ensures |after| < |before|
  {
    SubsetSize(after, before - {p});
  }

  // Rows and writers that do not grow together stay within the bound, the first row included.
  lemma MoveKeepsBounded(w: World, w': World, bound: nat, key: string)
    requires Bounded(w, bound) && |Open(w)| <= bound
    requires Count(w'.index, key) + |Writers(w', key)| <= Count(w.index, key) + |Writers(w, key)|
    ensures Count(w'.index, key) > 0 ==> Count(w'.index, key) + |Writers(w', key)| <= bound
  {
    WritersAreOpen(w, key);
    SubsetSize(Writers(w, key), Open(w));
  }

  lemma CrashAddsNoWriter(w: World, p: nat, waits: bool, key: string)
    requires Enabled(w, Crash(p, waits))
    ensures Writers(Do(w, Crash(p, waits)), key) <= Writers(w, key)
  {
    if waits { FirstBatchCounts(w.runs[p].batches, key); }
  }

  // Rows of a key, and runs that may add one.
  function Claims(w: World, key: string): nat {
    Count(w.index, key) + |Writers(w, key)|
  }

  lemma BeginAddsNoClaim(w: World, p: nat, key: string)
    requires Enabled(w, Begin(p))
    ensures Count(w.index, key) > 0 ==> Writers(Do(w, Begin(p)), key) == Writers(w, key)
  {
    CountPositive(w.index, key);
  }

  // Only a run that begins while the key has no row adds a claim.
  lemma StepKeepsClaims(w: World, s: Step, key: string)
    requires OncePerRun(w) && Enabled(w, s)
    ensures !s.Begin? || Count(w.index, key) > 0 ==> Claims(Do(w, s), key) <= Claims(w, key)
  {
    match s {
      case WriteBatch(p) => WriteMovesClaim(w, p, key);
      case Land(p) => LandMovesClaim(w, p, key);
      case Begin(p) => BeginAddsNoClaim(w, p, key);
      case _ =>
        OtherStepsAddNoWriter(w, s, key);
        SubsetSize(Writers(Do(w, s), key), Writers(w, key));
    }
  }

  lemma OtherStepsAddNoWriter(w: World, s: Step, key: string)
    requires OncePerRun(w) && Enabled(w, s) && !s.WriteBatch? && !s.Land? && !s.Begin?
    ensures Writers(Do(w, s), key) <= Writers(w, key) && Do(w, s).index == w.index
  {
    match s {
      case EndListing(p) => BatchesCount(w.runs[p].listed, w.runs[p].seen, key);
      case Crash(p, waits) => CrashAddsNoWriter(w, p, waits, key);
      case _ =>
    }
  }

  lemma StepKeepsBounded(w: World, s: Step, bound: nat)
    requires OncePerRun(w) && Bounded(w, bound) && Enabled(w, s) && |Open(w)| <= bound
    ensures Bounded(Do(w, s), bound)
  {
    var w' := Do(w, s);
    forall key | Count(w'.index, key) > 0
      ensures Count(w'.index, key) + |Writers(w', key)| <= bound
    {
      if s.Begin? {
        BeginAddsNoClaim(w, s.p, key);
      } else {
        StepKeepsClaims(w, s, key);
      }
      MoveKeepsBounded(w, w', bound, key);
    }
  }

  // From an empty index: no key ever has more rows than the largest number of runs open at once.
  lemma {:induction false} RowsNeverExceedOpenRuns(worlds: seq<World>, steps: seq<Step>, bound: nat, n: nat)
    requires Run(worlds, steps) && worlds[0].index == [] && worlds[0].runs == map[] && n < |worlds|
    requires forall i :: 0 <= i < n ==> |Open(worlds[i])| <= bound
    ensures OncePerRun(worlds[n]) && Bounded(worlds[n], bound)
    ensures forall key :: Count(worlds[n].index, key) <= bound
  {
    if n > 0 {
      RowsNeverExceedOpenRuns(worlds, steps, bound, n - 1);
      StepKeepsOncePerRun(worlds[n - 1], steps[n - 1]);
      StepKeepsBounded(worlds[n - 1], steps[n - 1], bound);
    }
  }

  // ---------- a finished run leaves what it listed indexed ----------

  // What a run past its listing has listed is indexed or still in its batches.
  ghost predicate Accounted(w: World, r: Phase) {
    match r
    case Listing(seen, listed, _) => forall key :: key in seen ==> Count(w.index, key) > 0
    case Writing(listed, present, batches) =>
      && (forall key :: key in ItemKeys(listed) && !IsDirectory(key) ==>
            Count(w.index, key) > 0 || Count(Flatten(batches), key) > 0)
      && (forall key :: key in present ==> key in ItemKeys(listed))
    case Finished(listed, present) =>
      && (forall key :: key in ItemKeys(listed) && !IsDirectory(key) ==> Count(w.index, key) > 0)
      && (forall key :: key in present ==> key in ItemKeys(listed))
    case Crashed(_) => true
  }

  ghost predicate Complete(w: World) {
    forall p :: p in w.runs ==> Accounted(w, w.runs[p])
  }

  lemma IndexOnlyGrows(w: World, s: Step, key: string)
    requires Enabled(w, s)
    ensures Count(Do(w, s).index, key) >= Count(w.index, key)
  {
    match s {
      case WriteBatch(p) => CountAppend(w.index, w.runs[p].batches[0], key);
      case Land(p) => LandMovesRows(w, p, key);
      case _ =>
    }
  }

  lemma StepKeepsComplete(w: World, s: Step)
    requires OncePerRun(w) && Complete(w) && Enabled(w, s)
    ensures Complete(Do(w, s))
  {
    var w' := Do(w, s);
    forall q | q in w'.runs
      ensures Accounted(w', w'.runs[q])
    {
      if q in w.runs && w'.runs[q] == w.runs[q] {
        forall key { IndexOnlyGrows(w, s, key); }
        StillAccounted(w, w', w.runs[q]);
      } else {
        MovedIsAccounted(w, s, q);
      }
    }
  }

  lemma StillAccounted(w: World, w': World, r: Phase)
    requires Accounted(w, r) && forall key :: Count(w'.index, key) >= Count(w.index, key)
    ensures Accounted(w', r)
  {
  }

  // The run that moves.
  lemma MovedIsAccounted(w: World, s: Step, q: nat)
    requires OncePerRun(w) && Complete(w) && Enabled(w, s) && q in Do(w, s).runs
    requires q in w.runs ==> Do(w, s).runs[q] != w.runs[q]
    ensures Accounted(Do(w, s), Do(w, s).runs[q])
  {
    match s {
      case Begin(p) => forall key { CountPositive(w.index, key); }
      case EndListing(p) => forall key { BatchesCount(w.runs[p].listed, w.runs[p].seen, key); }
      case WriteBatch(p) => WrittenIsAccounted(w, p);
      case _ =>
    }
  }

  lemma WrittenIsAccounted(w: World, p: nat)
    requires Enabled(w, WriteBatch(p)) && Accounted(w, w.runs[p])
    ensures Accounted(Do(w, WriteBatch(p)), Do(w, WriteBatch(p)).runs[p])
  {
    forall key { WriteMovesRows(w, p, key); }
  }

  lemma {:induction false} RunsStayComplete(worlds: seq<World>, steps: seq<Step>, n: nat)
    requires Run(worlds, steps) && worlds[0].index == [] && worlds[0].runs == map[] && n < |worlds|
    ensures OncePerRun(worlds[n]) && Complete(worlds[n])
  {
    if n > 0 {
      RunsStayComplete(worlds, steps, n - 1);
      StepKeepsOncePerRun(worlds[n - 1], steps[n - 1]);
      StepKeepsComplete(worlds[n - 1], steps[n - 1]);
    }
  }

  // ---------- exactly when a key can get a second row ----------

  // What any reachable world satisfies besides OncePerRun.
  ghost predicate Grounded(w: World) {
    && (forall k :: k in w.bucket ==> w.bucket[k].key == k)
    && (forall p :: p in w.runs && w.runs[p].Listing? ==> forall k :: k in w.runs[p].present ==> k in w.bucket)
  }

  ghost predicate Inv(w: World) {
    OncePerRun(w) && Grounded(w)
  }

  lemma {:induction false} ReachableInv(worlds: seq<World>, steps: seq<Step>, n: nat)
    requires Run(worlds, steps) && Inv(worlds[0]) && n < |worlds|
    ensures Inv(worlds[n])
  {
    if n > 0 {
      ReachableInv(worlds, steps, n - 1);
      StepKeepsOncePerRun(worlds[n - 1], steps[n - 1]);
    }
  }

  // While the key has no row, at most one run at a time may add one.
  ghost predicate SingleClaim(worlds: seq<World>, key: string, n: nat)
    requires n <= |worlds|
  {
    forall i :: 0 <= i < n && Count(worlds[i].index, key) == 0 ==> |Writers(worlds[i], key)| <= 1
  }

  // Runs may overlap at will: as long as claims are single a key never gets a second row.
  lemma {:induction false} OneClaimOneRow(worlds: seq<World>, steps: seq<Step>, key: string, n: nat)
    requires Run(worlds, steps) && worlds[0].index == [] && worlds[0].runs == map[] && n < |worlds|
    requires SingleClaim(worlds, key, n)
    ensures OncePerRun(worlds[n]) && Count(worlds[n].index, key) <= 1
    ensures Count(worlds[n].index, key) > 0 ==> Claims(worlds[n], key) <= 1
  {
    if n > 0 {
      OneClaimOneRow(worlds, steps, key, n - 1);
      StepKeepsOncePerRun(worlds[n - 1], steps[n - 1]);
      StepKeepsClaims(worlds[n - 1], steps[n - 1], key);
    }
  }

  // A run that finishes leaves every object it listed, and every object that was there when it began,
  // with at least one row; with exactly one when claims on it were single, in particular when no other run
  // was ever open beside it.
  lemma FinishedRunsAreIndexed(worlds: seq<World>, steps: seq<Step>, n: nat, p: nat, key: string)
    requires Run(worlds, steps) && worlds[0].index == [] && worlds[0].runs == map[] && n < |worlds|
    requires p in worlds[n].runs && worlds[n].runs[p].Finished?
    requires key == "" || key[|key| - 1] != '/'
    requires key in ItemKeys(worlds[n].runs[p].listed) || key in worlds[n].runs[p].present
    ensures Count(worlds[n].index, key) >= 1
    ensures SingleClaim(worlds, key, n) ==> Count(worlds[n].index, key) == 1
    ensures (forall i :: 0 <= i < n ==> |Open(worlds[i])| <= 1) ==> SingleClaim(worlds, key, n)
  {
    RunsStayComplete(worlds, steps, n);
    assert Accounted(worlds[n], worlds[n].runs[p]);
    if SingleClaim(worlds, key, n) {
      OneClaimOneRow(worlds, steps, key, n);
    }
    forall i | 0 <= i < n
      ensures |Writers(worlds[i], key)| <= |Open(worlds[i])|
    {
      WritersAreOpen(worlds[i], key);
      SubsetSize(Writers(worlds[i], key), Open(worlds[i]));
    }
  }

  ghost predicate NoBegin(steps: seq<Step>) {
    forall i :: 0 <= i < |steps| ==> !steps[i].Begin?
  }

  // The runs already open add at most what they claim.
  lemma {:induction false} ClaimsBoundRows(worlds: seq<World>, steps: seq<Step>, key: string, n: nat)
    requires Run(worlds, steps) && Inv(worlds[0]) && NoBegin(steps) && n < |worlds|
    ensures OncePerRun(worlds[n]) && Claims(worlds[n], key) <= Claims(worlds[0], key)
  {
    if n > 0 {
      ClaimsBoundRows(worlds, steps, key, n - 1);
      StepKeepsOncePerRun(worlds[n - 1], steps[n - 1]);
      StepKeepsClaims(worlds[n - 1], steps[n - 1], key);
    }
  }

  // ---------- making good a claim ----------

  // Steps by which the open runs lead from one world to another.
  ghost predicate Leads(w: World, w': World, worlds: seq<World>, steps: seq<Step>) {
    && Run(worlds, steps) && NoBegin(steps)
    && worlds[0] == w && worlds[|steps|] == w'
  }

  lemma Extend(w: World, v: World, worlds: seq<World>, steps: seq<Step>, s: Step)
    returns (worlds': seq<World>, steps': seq<Step>)
    requires Leads(w, v, worlds, steps) && Enabled(v, s) && !s.Begin?
    ensures Leads(w, Do(v, s), worlds', steps')
  {
    worlds', steps' := worlds + [Do(v, s)], steps + [s];
    forall i | 0 <= i < |steps'|
      ensures Enabled(worlds'[i], steps'[i]) && worlds'[i + 1] == Do(worlds'[i], steps'[i]) && !steps'[i].Begin?
    {
      if i < |steps| { assert Enabled(worlds[i], steps[i]); }
    }
  }

  // The objects of the bucket that are not listed yet, in some order.
  lemma {:induction false} Unlisted(bucket: map<string, Item>, listed: seq<Item>, keys: set<string>)
    returns (items: seq<Item>)
    requires keys <= bucket.Keys && Distinct(ItemKeys(listed))
    requires forall k :: k in bucket ==> bucket[k].key == k
    ensures Distinct(ItemKeys(listed + items))
    ensures forall i :: 0 <= i < |items| ==> items[i].key in bucket && bucket[items[i].key] == items[i]
    ensures forall k :: k in ItemKeys(listed + items) <==> k in keys || k in ItemKeys(listed)
    decreases keys
  {
    if exists k :: k in keys {
      var k :| k in keys;
      items := Unlisted(bucket, listed, keys - {k});
      assert listed + (items + [bucket[k]]) == (listed + items) + [bucket[k]];
      ListOneMore(listed + items, bucket[k]);
      if k !in ItemKeys(listed + items) {
        items := items + [bucket[k]];
      }
    } else {
      items := [];
      assert listed + [] == listed;
    }
  }

  lemma ListOneMore(items: seq<Item>, item: Item)
    requires Distinct(ItemKeys(items))
    ensures ItemKeys(items + [item]) == ItemKeys(items) + [item.key]
    ensures item.key !in ItemKeys(items) ==> Distinct(ItemKeys(items + [item]))
    ensures forall k :: k in ItemKeys(items + [item]) <==> k in ItemKeys(items) || k == item.key
  {
    assert ItemKeys(items + [item]) == ItemKeys(items) + [item.key];
  }

  // A run that lists reads the rest of the bucket ...
  lemma PageRest(w: World, v: World, worlds: seq<World>, steps: seq<Step>, p: nat)
    returns (listed: seq<Item>, worlds': seq<World>, steps': seq<Step>)
    requires Leads(w, v, worlds, steps) && Inv(v) && p in v.runs && v.runs[p].Listing?
    ensures var r := v.runs[p];
            var v' := v.(runs := v.runs[p := Listing(r.seen, listed, r.present)]);
            Leads(w, v', worlds', steps') && Inv(v')
    ensures forall k :: k in v.bucket ==> k in ItemKeys(listed)
  {
    var items := Unlisted(v.bucket, v.runs[p].listed, v.bucket.Keys);
    listed := v.runs[p].listed + items;
    StepKeepsOncePerRun(v, Page(p, items));
    worlds', steps' := Extend(w, v, worlds, steps, Page(p, items));
  }

  // ... and then has the key in its batches.
  lemma EndListingQueues(w: World, v: World, worlds: seq<World>, steps: seq<Step>, p: nat, key: string)
    returns (v': World, worlds': seq<World>, steps': seq<Step>)
    requires Leads(w, v, worlds, steps) && Inv(v) && Enabled(v, EndListing(p))
    requires key in ItemKeys(v.runs[p].listed) && Wanted(key, v.runs[p].seen)
    ensures Leads(w, v', worlds', steps') && Inv(v') && p in v'.runs && v'.runs[p].Writing?
    ensures v' == v.(runs := v.runs[p := v'.runs[p]])
    ensures Count(Flatten(v'.runs[p].batches), key) == 1
  {
    v' := Do(v, EndListing(p));
    StepKeepsOncePerRun(v, EndListing(p));
    worlds', steps' := Extend(w, v, worlds, steps, EndListing(p));
    BatchesCount(v.runs[p].listed, v.runs[p].seen, key);
  }

  lemma ListAll(w: World, v: World, worlds: seq<World>, steps: seq<Step>, p: nat, key: string)
    returns (v': World, worlds': seq<World>, steps': seq<Step>)
    requires Leads(w, v, worlds, steps) && Inv(v) && p in v.runs && v.runs[p].Listing?
    requires key in v.bucket && Wanted(key, v.runs[p].seen)
    ensures Leads(w, v', worlds', steps') && Inv(v') && p in v'.runs && v'.runs[p].Writing?
    ensures v' == v.(runs := v.runs[p := v'.runs[p]])
    ensures Count(Flatten(v'.runs[p].batches), key) == 1
  {
    var r := v.runs[p];
    var listed, more, done := PageRest(w, v, worlds, steps, p);
    var paged := v.(runs := v.runs[p := Listing(r.seen, listed, r.present)]);
    v', worlds', steps' := EndListingQueues(w, paged, more, done, p, key);
    assert v'.runs == v.runs[p := v'.runs[p]];
  }

  // A run that writes gets through its batches.
  lemma {:induction false} WriteAll(w: World, v: World, worlds: seq<World>, steps: seq<Step>, p: nat, key: string)
    returns (v': World, worlds': seq<World>, steps': seq<Step>)
    requires Leads(w, v, worlds, steps) && Inv(v) && p in v.runs && v.runs[p].Writing?
    ensures Leads(w, v', worlds', steps') && Inv(v') && p in v'.runs
    ensures v' == v.(index := v'.index, runs := v.runs[p := v'.runs[p]])
    ensures Count(v'.index, key) == Count(v.index, key) + Count(Flatten(v.runs[p].batches), key)
    decreases |v.runs[p].batches|
  {
    if v.runs[p].batches == [] {
      v', worlds', steps' := v, worlds, steps;
      assert v.runs == v.runs[p := v.runs[p]];
    } else {
      var next := Do(v, WriteBatch(p));
      StepKeepsOncePerRun(v, WriteBatch(p));
      WriteMovesRows(v, p, key);
      worlds', steps' := Extend(w, v, worlds, steps, WriteBatch(p));
      v', worlds', steps' := WriteAll(w, next, worlds', steps', p, key);
      assert v'.runs == v.runs[p := v'.runs[p]];
    }
  }

  // A run that may add a row for a key can do so without any other run's help.
  lemma Deliver(w: World, v: World, worlds: seq<World>, steps: seq<Step>, p: nat, key: string)
    returns (v': World, worlds': seq<World>, steps': seq<Step>)
    requires Leads(w, v, worlds, steps) && Inv(v) && p in Writers(v, key)
    requires key in v.bucket && !IsDirectory(key)
    ensures Leads(w, v', worlds', steps') && Inv(v') && p in v'.runs
    ensures v' == v.(index := v'.index, runs := v.runs[p := v'.runs[p]])
    ensures Count(v'.index, key) == Count(v.index, key) + 1
  {
    if v.runs[p].Crashed? {
      v' := Do(v, Land(p));
      LandMovesRows(v, p, key);
      StepKeepsOncePerRun(v, Land(p));
      worlds', steps' := Extend(w, v, worlds, steps, Land(p));
    } else {
      var listed, more, done := v, worlds, steps;
      if v.runs[p].Listing? {
        listed, more, done := ListAll(w, v, worlds, steps, p, key);
      }
      v', worlds', steps' := WriteAll(w, listed, more, done, p, key);
      assert v'.runs == v.runs[p := v'.runs[p]];
    }
  }

  // Before anything else the object arrives, if it is not there.
  lemma EnsureObject(w: World, key: string) returns (v: World, worlds: seq<World>, steps: seq<Step>)
    requires Inv(w)
    ensures Leads(w, v, worlds, steps) && Inv(v) && key in v.bucket
    ensures v.index == w.index && v.runs == w.runs
  {
    v, worlds, steps := w, [w], [];
    if key !in w.bucket {
      var lastModified: UtcStamp := Stamp(2026, 1, 1, 0, 0, 0, 0);
      var item := Item(key, None, lastModified, None);
      v := Do(w, Arrive(item));
      worlds, steps := Extend(w, w, worlds, steps, Arrive(item));
    }
  }

  // From any reachable world with two claims on a key, the runs already open can give it two rows.
  lemma TwoClaimsTwoRows(w: World, key: string) returns (v: World, worlds: seq<World>, steps: seq<Step>)
    requires Inv(w) && !IsDirectory(key) && Claims(w, key) >= 2
    ensures Leads(w, v, worlds, steps) && Count(v.index, key) >= 2
  {
    v, worlds, steps := EnsureObject(w, key);
    assert Writers(v, key) == Writers(w, key);
    if Count(v.index, key) < 2 {
      var p := OneOf(Writers(v, key));
      var u := v;
      v, worlds, steps := Deliver(w, u, worlds, steps, p, key);
      if Count(v.index, key) < 2 {
        SubsetSize(Writers(u, key) - {p}, Writers(u, key));
        var q := OneOf(Writers(u, key) - {p});
        assert q in Writers(v, key);
        v, worlds, steps := Deliver(w, v, worlds, steps, q, key);
      }
    }
  }

  lemma OneOf(s: set<nat>) returns (p: nat)
    requires |s| > 0
    ensures p in s
  {
    p :| p in s;
  }

  // Exactly when: without a further run, a key can come to have two rows if and only if its rows and
  // the runs that may add one are at least two.
  lemma SecondRowIffTwoClaims(w: World, key: string)
    requires Inv(w) && !IsDirectory(key)
    ensures (exists v, worlds, steps :: Leads(w, v, worlds, steps) && Count(v.index, key) >= 2) <==>
            Claims(w, key) >= 2
  {
    if Claims(w, key) >= 2 {
      var v, worlds, steps := TwoClaimsTwoRows(w, key);
    } else {
      forall v, worlds, steps | Leads(w, v, worlds, steps)
        ensures Count(v.index, key) < 2
      {
        ClaimsBoundRows(worlds, steps, key, |steps|);
      }
    }
  }

  // No run holds or has written the key.
  ghost predicate Untouched(w: World, key: string) {
    && Count(w.index, key) == 0
    && (forall p :: p in w.runs && w.runs[p].Writing? ==> Count(Flatten(w.runs[p].batches), key) == 0)
    && (forall p :: p in w.runs && w.runs[p].Crashed? ==> Count(w.runs[p].inflight, key) == 0)
  }

  lemma StepKeepsUntouched(w: World, s: Step, key: string)
    requires OncePerRun(w) && Enabled(w, s) && IsDirectory(key) && Untouched(w, key)
    ensures Untouched(Do(w, s), key)
  {
    match s {
      case EndListing(p) => BatchesCount(w.runs[p].listed, w.runs[p].seen, key);
      case WriteBatch(p) => WriteMovesRows(w, p, key);
      case Land(p) => LandMovesRows(w, p, key);
      case Crash(p, waits) => if waits { FirstBatchCounts(w.runs[p].batches, key); }
      case _ =>
    }
  }

  // Directories never get a row.
  lemma {:induction false} DirectoriesGetNoRow(worlds: seq<World>, steps: seq<Step>, key: string, n: nat)
    requires Run(worlds, steps) && worlds[0].index == [] && worlds[0].runs == map[] && n < |worlds|
    requires key != "" && key[|key| - 1] == '/'
    ensures OncePerRun(worlds[n]) && Untouched(worlds[n], key)
  {
    if n > 0 {
      DirectoriesGetNoRow(worlds, steps, key, n - 1);
      StepKeepsOncePerRun(worlds[n - 1], steps[n - 1]);
      StepKeepsUntouched(worlds[n - 1], steps[n - 1], key);
    }
  }

  // In particular from any reachable world without a row for a key, wherever its runs stand, two more
  // runs that begin together can leave it two rows.
  lemma OverlapDuplicates(w: World, p: nat, q: nat, key: string)
    returns (v: World, worlds: seq<World>, steps: seq<Step>)
    requires Inv(w) && !IsDirectory(key) && Count(w.index, key) == 0
    requires p !in w.runs && q !in w.runs && p != q
    ensures Leads(Do(Do(w, Begin(p)), Begin(q)), v, worlds, steps) && Count(v.index, key) >= 2
  {
    var u := Do(Do(w, Begin(p)), Begin(q));
    StepKeepsOncePerRun(w, Begin(p));
    StepKeepsOncePerRun(Do(w, Begin(p)), Begin(q));
    CountPositive(w.index, key);
    assert {p, q} <= Writers(u, key);
    SubsetSize({p, q}, Writers(u, key));
    v, worlds, steps := TwoClaimsTwoRows(u, key);
  }
}
