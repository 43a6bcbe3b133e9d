/**
 * The coordinator's final check: each run is sorted, a heap merges them, and the
 * merged index is compared with the record set that every shard can re-derive.
 */
module HeapMerge {
  import opened IndexOrder

  /** A heap element: the head of a run, and which run. */
  datatype Head = Head(entry: Entry, run: nat)

  predicate Before(a: Head, b: Head) {
    if a.entry == b.entry then a.run <= b.run else Leq(a.entry, b.entry)
  }

  lemma {:induction false} LeastExists(heap: set<Head>) returns (least: Head)
    requires heap != {}
    ensures least in heap && forall h :: h in heap ==> Before(least, h)
  {
    var h :| h in heap;
    if heap == {h} {
      least := h;
    } else {
      var other := LeastExists(heap - {h});
      least := if Before(h, other) then h else other;
      assert forall k :: k in heap ==> k == h || k in heap - {h};
    }
  }

  /** The contract of the heap's `pop`: the least element leaves. */
  method PopLeast(heap: set<Head>) returns (least: Head, rest: set<Head>)
    requires heap != {}
    ensures least in heap && rest == heap - {least}
    ensures forall h :: h in heap ==> Before(least, h)
  {
    ghost var some := LeastExists(heap);
    least :| least in heap && forall h :: h in heap ==> Before(least, h);
    rest := heap - {least};
  }

  /** What is left of each run behind its cursor. */
  ghost function Rests(runs: seq<seq<Entry>>, cursor: seq<nat>): seq<seq<Entry>>
    requires |cursor| == |runs| && forall i :: 0 <= i < |runs| ==> cursor[i] <= |runs[i]|
  {
    seq(|runs|, i requires 0 <= i < |runs| => runs[i][cursor[i]..])
  }

  /** The heap holds exactly the heads of the unfinished runs. */
  ghost predicate HeapOk(runs: seq<seq<Entry>>, cursor: seq<nat>, heap: set<Head>) {
    && |cursor| == |runs|
    && (forall i :: 0 <= i < |runs| ==> cursor[i] <= |runs[i]|)
    && (forall h :: h in heap ==>
          h.run < |runs| && cursor[h.run] < |runs[h.run]| && h.entry == runs[h.run][cursor[h.run]])
    && (forall i :: 0 <= i < |runs| && cursor[i] < |runs[i]| ==> Head(runs[i][cursor[i]], i) in heap)
  }

  /** Everything merged so far is at most everything still to come. */
  ghost predicate Divided(runs: seq<seq<Entry>>, cursor: seq<nat>, merged: seq<Entry>)
    requires |cursor| == |runs|
  {
    forall k, i, j :: 0 <= k < |merged| && 0 <= i < |runs| && cursor[i] <= j < |runs[i]| ==> Leq(merged[k], runs[i][j])
  }

  ghost predicate AllSorted(runs: seq<seq<Entry>>) {
    forall i :: 0 <= i < |runs| ==> Sorted(runs[i])
  }

  lemma LeastHeadIsLeast(runs: seq<seq<Entry>>, cursor: seq<nat>, heap: set<Head>, least: Head)
    requires AllSorted(runs) && HeapOk(runs, cursor, heap)
    requires least in heap && forall h :: h in heap ==> Before(least, h)
    ensures forall i, j :: 0 <= i < |runs| && cursor[i] <= j < |runs[i]| ==> Leq(least.entry, runs[i][j])
  {
    forall i, j | 0 <= i < |runs| && cursor[i] <= j < |runs[i]| ensures Leq(least.entry, runs[i][j]) {
      assert Before(least, Head(runs[i][cursor[i]], i));
      assert cursor[i] < j ==> Leq(runs[i][cursor[i]], runs[i][j]);
    }
  }

  lemma AdvanceBag(runs: seq<seq<Entry>>, cursor: seq<nat>, i: nat, merged: seq<Entry>)
    requires |cursor| == |runs| && (forall i :: 0 <= i < |runs| ==> cursor[i] <= |runs[i]|)
    requires i < |runs| && cursor[i] < |runs[i]|
    requires multiset(merged) + Bag(Rests(runs, cursor)) == Bag(runs)
    ensures var rest := Bag(Rests(runs, cursor[i := cursor[i] + 1]));
            multiset(merged + [runs[i][cursor[i]]]) + rest == Bag(runs) && |rest| < |Bag(Rests(runs, cursor))|
  {
    var rests := Rests(runs, cursor);
    assert Rests(runs, cursor[i := cursor[i] + 1]) == rests[i := rests[i][1..]];
    BagDrop(rests, i);
  }

  /** The heap once the run that `pop` came from has moved on. */
  function Refilled(runs: seq<seq<Entry>>, cursor: seq<nat>, rest: set<Head>, run: nat): set<Head>
    requires |cursor| == |runs| && run < |runs|
  {
    if cursor[run] < |runs[run]| then rest + {Head(runs[run][cursor[run]], run)} else rest
  }

  lemma HeapAdvances(runs: seq<seq<Entry>>, cursor: seq<nat>, heap: set<Head>, least: Head)
    requires HeapOk(runs, cursor, heap) && least in heap
    ensures var cursor' := cursor[least.run := cursor[least.run] + 1];
            HeapOk(runs, cursor', Refilled(runs, cursor', heap - {least}, least.run))
  {
  }

  lemma MergedAdvances(runs: seq<seq<Entry>>, cursor: seq<nat>, heap: set<Head>, least: Head, merged: seq<Entry>)
    requires AllSorted(runs) && HeapOk(runs, cursor, heap)
    requires least in heap && forall h :: h in heap ==> Before(least, h)
    requires Sorted(merged) && Divided(runs, cursor, merged)
    ensures Sorted(merged + [least.entry])
    ensures Divided(runs, cursor[least.run := cursor[least.run] + 1], merged + [least.entry])
  {
    LeastHeadIsLeast(runs, cursor, heap, least);
    assert least.entry == runs[least.run][cursor[least.run]];
  }

  /** The loop invariant: nothing is lost, and sorted runs give a sorted prefix of the result. */
  ghost predicate MergeOk(runs: seq<seq<Entry>>, cursor: seq<nat>, heap: set<Head>, merged: seq<Entry>) {
    && HeapOk(runs, cursor, heap)
    && multiset(merged) + Bag(Rests(runs, cursor)) == Bag(runs)
    && (AllSorted(runs) ==> Sorted(merged) && Divided(runs, cursor, merged))
  }

  lemma PopKeepsMergeOk(runs: seq<seq<Entry>>, cursor: seq<nat>, heap: set<Head>, merged: seq<Entry>, least: Head)
    requires MergeOk(runs, cursor, heap, merged) && least in heap && forall h :: h in heap ==> Before(least, h)
    ensures var cursor' := cursor[least.run := cursor[least.run] + 1];
            && MergeOk(runs, cursor', Refilled(runs, cursor', heap - {least}, least.run), merged + [least.entry])
            && |Bag(Rests(runs, cursor'))| < |Bag(Rests(runs, cursor))|
  {
    var cursor', merged' := cursor[least.run := cursor[least.run] + 1], merged + [least.entry];
    assert HeapOk(runs, cursor', Refilled(runs, cursor', heap - {least}, least.run)) by {
      HeapAdvances(runs, cursor, heap, least);
    }
    assert AllSorted(runs) ==> Sorted(merged') && Divided(runs, cursor', merged') by {
      if AllSorted(runs) {
        MergedAdvances(runs, cursor, heap, least, merged);
      }
    }
    assert && multiset(merged') + Bag(Rests(runs, cursor')) == Bag(runs)
           && |Bag(Rests(runs, cursor'))| < |Bag(Rests(runs, cursor))| by {
      AdvanceBag(runs, cursor, least.run, merged);
    }
  }

  /** The heap-based k-way merge. */
  method KWayMerge(runs: seq<seq<Entry>>) returns (merged: seq<Entry>)
    ensures multiset(merged) == Bag(runs)
    ensures AllSorted(runs) ==> Sorted(merged) && merged == Sort(Flatten(runs))
  {
    merged := [];
    var cursor: seq<nat> := seq(|runs|, _ => 0);
    var heap := FirstHeads(runs, cursor);
    assert Rests(runs, cursor) == runs;
    while heap != {}
      invariant MergeOk(runs, cursor, heap, merged)
      decreases |Bag(Rests(runs, cursor))|
    {
      var least, rest := PopLeast(heap);
      PopKeepsMergeOk(runs, cursor, heap, merged, least);
      merged := merged + [least.entry];
      cursor := cursor[least.run := cursor[least.run] + 1];
      heap := Refilled(runs, cursor, rest, least.run);
    }
    NothingLeft(runs, cursor);
    if AllSorted(runs) {
      SortedUnique(merged, Sort(Flatten(runs)));
    }
  }

  lemma NothingLeft(runs: seq<seq<Entry>>, cursor: seq<nat>)
    requires HeapOk(runs, cursor, {})
    ensures Bag(Rests(runs, cursor)) == multiset{}
  {
    BagEmpty(Rests(runs, cursor));
  }

  method FirstHeads(runs: seq<seq<Entry>>, cursor: seq<nat>) returns (heap: set<Head>)
    requires |cursor| == |runs| && forall i :: 0 <= i < |runs| ==> cursor[i] == 0
    ensures HeapOk(runs, cursor, heap)
  {
    heap := {};
    for k := 0 to |runs|
      invariant forall h :: h in heap ==> h.run < k && runs[h.run] != [] && h.entry == runs[h.run][0]
      invariant forall i :: 0 <= i < k && runs[i] != [] ==> Head(runs[i][0], i) in heap
    {
      if |runs[k]| > 0 {
        heap := heap + {Head(runs[k][0], k)};
      }
    }
  }
}

module VerifyRuns {
  import opened Wrappers
  import opened Words
  import opened IndexOrder
  import opened HeapMerge
  import RecordKey

  /** The sorted run of one logical assembler. */
  datatype Run = Run(workUnit: nat, entries: seq<Entry>)

  function Entries(runs: seq<Run>): seq<seq<Entry>> {
    seq(|runs|, i requires 0 <= i < |runs| => runs[i].entries)
  }

  function WorkUnits(runs: seq<Run>): seq<nat> {
    seq(|runs|, i requires 0 <= i < |runs| => runs[i].workUnit)
  }

  function UpTo(n: nat): seq<nat> {
    seq(n, i => i)
  }

  type Combine = (Word, Word) -> Word

  /**
   * The key that every shard re-derives from a record's index, the operation that offsets
   * are combined with, and the sizes.
   */
  datatype Check = Check(keyOf: Word -> Word, xor: Combine, recordCount: nat, assemblerCount: nat) {
    ghost predicate Valid() {
      recordCount <= WORD && Swappable(xor)
    }

    /** The entry of a record. */
    function Record(index: Word): Entry {
      Entry(keyOf(index), index)
    }

    function Records(n: nat): seq<Entry>
      requires n <= WORD
    {
      seq(n, i requires 0 <= i < n => Record(i))
    }
  }

  /** The check as the coordinator makes it. */
  function IndexCheck(recordCount: nat, assemblerCount: nat): Check {
    Check(RecordKey.Key, Xor, recordCount, assemblerCount)
  }

  // ----- combining offsets -----

  /** The order of operands does not matter. */
  ghost predicate Swappable(op: Combine) {
    forall x: Word, a: Word, b: Word :: op(op(x, a), b) == op(op(x, b), a)
  }

  /** Combining twice with the same operand has no effect. */
  ghost predicate Cancels(op: Combine) {
    forall x: Word, a: Word :: op(op(x, a), a) == x
  }

  ghost predicate QuadCancels(op: Combine, x: Word, k: nat)
    requires 4 * k + 3 < WORD
  {
    op(op(op(op(x, 4 * k), 4 * k + 1), 4 * k + 2), 4 * k + 3) == x
  }

  /** Nor has combining with four consecutive words from a multiple of four. */
  ghost predicate CancelsQuads(op: Combine) {
    forall x: Word, k: nat :: 4 * k + 3 < WORD ==> QuadCancels(op, x, k)
  }

  function Combined(op: Combine, s: seq<Entry>): Word {
    if s == [] then 0 else op(Combined(op, s[..|s| - 1]), s[|s| - 1].offset)
  }

  function CombinedUpTo(op: Combine, n: nat): Word
    requires n <= WORD
  {
    if n == 0 then 0 else op(CombinedUpTo(op, n - 1), n - 1)
  }

  /** An entry can be taken out wherever it stands. */
  lemma {:induction false} TakeOut(op: Combine, s: seq<Entry>, i: nat)
    requires Swappable(op) && i < |s|
    ensures Combined(op, s) == op(Combined(op, s[..i] + s[i + 1..]), s[i].offset)
  {
    var k := |s| - 1;
    var without := s[..i] + s[i + 1..];
    if i == k {
      assert without == s[..k];
    } else {
      TakeOut(op, s[..k], i);
      assert s[..k][..i] + s[..k][i + 1..] == without[..k - 1];
    }
  }

  /** So the result depends only on which entries there are. */
  lemma {:induction false} CombinedOfPermutation(op: Combine, a: seq<Entry>, b: seq<Entry>)
    requires Swappable(op) && multiset(a) == multiset(b)
    ensures Combined(op, a) == Combined(op, b)
  {
    SameLength(a, b);
    if a != [] {
      var k := |a| - 1;
      var i := FindIn(a[k], a, b);
      DropOne(a, k);
      DropOne(b, i);
      assert a[..k] + a[k + 1..] == a[..k];
      CombinedOfPermutation(op, a[..k], b[..i] + b[i + 1..]);
      TakeOut(op, b, i);
    }
  }

  lemma DropOne(s: seq<Entry>, i: nat)
    requires i < |s|
    ensures multiset(s[..i] + s[i + 1..]) == multiset(s) - multiset{s[i]}
  {
    assert s == s[..i] + [s[i]] + s[i + 1..];
  }

  lemma FindIn(e: Entry, a: seq<Entry>, b: seq<Entry>) returns (i: nat)
    requires multiset(a) == multiset(b) && e in a
    ensures i < |b| && b[i] == e
  {
    assert e in multiset(b);
    i :| 0 <= i < |b| && b[i] == e;
  }

  lemma {:induction false} CombinedOfRecords(c: Check, n: nat)
    requires n <= WORD
    ensures Combined(c.xor, c.Records(n)) == CombinedUpTo(c.xor, n)
  {
    if n > 0 {
      CombinedOfRecords(c, n - 1);
      assert c.Records(n)[..n - 1] == c.Records(n - 1);
    }
  }

  // ----- the check -----

  ghost predicate KeysMatch(c: Check, s: seq<Entry>) {
    forall k :: 0 <= k < |s| ==> s[k] == c.Record(s[k].offset)
  }

  /** What the check decides: order, size, one run per work unit, keys that match, and the exclusive-or. */
  ghost predicate Acceptable(c: Check, runs: seq<Run>)
    requires c.Valid()
  {
    && AllSorted(Entries(runs))
    && |Flatten(Entries(runs))| == c.recordCount
    && multiset(WorkUnits(runs)) == multiset(UpTo(c.assemblerCount))
    && KeysMatch(c, Flatten(Entries(runs)))
    && Combined(c.xor, Flatten(Entries(runs))) == CombinedUpTo(c.xor, c.recordCount)
  }

  /** Whether some entry is greater than its successor. */
  method HasDescent(s: seq<Entry>) returns (descent: bool)
    ensures descent <==> !Sorted(s)
  {
    descent := false;
    var k := 0;
    while k + 1 < |s|
      invariant 0 <= k && (k < |s| || s == [])
      invariant forall i, j :: 0 <= i < j <= k && j < |s| ==> Leq(s[i], s[j])
    {
      if !Leq(s[k], s[k + 1]) {
        return true;
      }
      k := k + 1;
    }
  }

  method AnyRunHasDescent(runs: seq<Run>) returns (descent: bool)
    ensures descent <==> !AllSorted(Entries(runs))
  {
    for k := 0 to |runs|
      invariant forall i :: 0 <= i < k ==> Sorted(runs[i].entries)
    {
      descent := HasDescent(runs[k].entries);
      if descent {
        assert !Sorted(Entries(runs)[k]);
        return;
      }
    }
    descent := false;
    assert forall i :: 0 <= i < |runs| ==> Entries(runs)[i] == runs[i].entries;
  }

  /** The combined offsets, unless some entry does not name its record. */
  method CheckKeys(c: Check, merged: seq<Entry>) returns (offsetXor: Option<Word>)
    ensures offsetXor == if KeysMatch(c, merged) then Some(Combined(c.xor, merged)) else None
  {
    var x: Word := 0;
    for k := 0 to |merged|
      invariant KeysMatch(c, merged[..k])
      invariant x == Combined(c.xor, merged[..k])
    {
      if merged[k].key != c.keyOf(merged[k].offset) {
        return None;
      }
      x := c.xor(x, merged[k].offset);
      assert merged[..k + 1][..k] == merged[..k];
    }
    assert merged[..|merged|] == merged;
    return Some(x);
  }

  method ExpectedXor(c: Check) returns (x: Word)
    requires c.recordCount <= WORD
    ensures x == CombinedUpTo(c.xor, c.recordCount)
  {
    x := 0;
    for i := 0 to c.recordCount
      invariant x == CombinedUpTo(c.xor, i)
    {
      x := c.xor(x, i);
    }
  }

  /**
   * The coordinator's check accepts exactly the acceptable runs, and reports the
   * record count. Sorting the work units and comparing them with 0, 1, ... is
   * comparing multisets.
   */
  method Verify(c: Check, runs: seq<Run>) returns (verified: Option<nat>)
    requires c.Valid()
    ensures verified == if Acceptable(c, runs) then Some(c.recordCount) else None
  {
    var descent := AnyRunHasDescent(runs);
    if descent {
      return None;
    }
    var merged := KWayMerge(Entries(runs));
    AcceptableByMerged(c, runs, merged);
    if |merged| != c.recordCount {
      return None;
    }
    descent := HasDescent(merged);
    if descent {
      return None;
    }
    if multiset(WorkUnits(runs)) != multiset(UpTo(c.assemblerCount)) {
      return None;
    }
    var offsetXor := CheckKeys(c, merged);
    if offsetXor.None? {
      return None;
    }
    var expectedXor := ExpectedXor(c);
    if offsetXor.value != expectedXor {
      return None;
    }
    return Some(|merged|);
  }

  /** On sorted runs the check may look at the merged list instead of the runs. */
  lemma AcceptableByMerged(c: Check, runs: seq<Run>, merged: seq<Entry>)
    requires c.Valid() && AllSorted(Entries(runs)) && multiset(merged) == Bag(Entries(runs))
    ensures Acceptable(c, runs) <==>
              && |merged| == c.recordCount
              && multiset(WorkUnits(runs)) == multiset(UpTo(c.assemblerCount))
              && KeysMatch(c, merged)
              && Combined(c.xor, merged) == CombinedUpTo(c.xor, c.recordCount)
  {
    var all := Flatten(Entries(runs));
    SameLength(merged, all);
    SameKeysMatch(c, merged, all);
    CombinedOfPermutation(c.xor, merged, all);
  }

  lemma SameKeysMatch(c: Check, a: seq<Entry>, b: seq<Entry>)
    requires multiset(a) == multiset(b)
    ensures KeysMatch(c, a) <==> KeysMatch(c, b)
  {
    assert forall e :: e in a <==> e in b by {
      assert forall e :: e in a <==> e in multiset(a);
      assert forall e :: e in b <==> e in multiset(b);
    }
    assert KeysMatch(c, a) <==> forall e :: e in a ==> e == c.Record(e.offset);
    assert KeysMatch(c, b) <==> forall e :: e in b ==> e == c.Record(e.offset);
  }

  /** What is proved of every valid check holds of the coordinator's. */
  lemma IndexCheckIsValid(recordCount: nat, assemblerCount: nat)
    requires recordCount <= WORD
    ensures IndexCheck(recordCount, assemblerCount).Valid()
  {
    XorLaws();
  }

  // ----- which runs are accepted -----

  /** Runs that hold every record once, one run for each work unit, are accepted. */
  lemma CompleteRunsAreAccepted(c: Check, runs: seq<Run>)
    requires c.Valid() && AllSorted(Entries(runs))
    requires multiset(WorkUnits(runs)) == multiset(UpTo(c.assemblerCount))
    requires Bag(Entries(runs)) == multiset(c.Records(c.recordCount))
    ensures Acceptable(c, runs)
  {
    AcceptableByMerged(c, runs, c.Records(c.recordCount));
    CombinedOfRecords(c, c.recordCount);
  }

  /** Accepted runs are one for each work unit. */
  lemma AcceptedHasEveryUnit(c: Check, runs: seq<Run>, u: nat)
    requires c.Valid() && Acceptable(c, runs)
    ensures |runs| == c.assemblerCount
    ensures u < c.assemblerCount ==> exists i :: 0 <= i < |runs| && runs[i].workUnit == u
    ensures forall i :: 0 <= i < |runs| ==> runs[i].workUnit < c.assemblerCount
    ensures forall i, j :: 0 <= i < j < |runs| ==> runs[i].workUnit != runs[j].workUnit
  {
    var units, all := WorkUnits(runs), UpTo(c.assemblerCount);
    assert |multiset(units)| == |units| && |multiset(all)| == |all|;
    if u < c.assemblerCount {
      assert all[u] == u && u in multiset(units);
      var i :| 0 <= i < |units| && units[i] == u;
      assert runs[i].workUnit == u;
    }
    forall i | 0 <= i < |runs| ensures runs[i].workUnit < c.assemblerCount {
      assert units[i] in multiset(all);
    }
    forall i, j | 0 <= i < j < |runs| ensures runs[i].workUnit != runs[j].workUnit {
      if units[i] == units[j] {
        TwiceIn(units, i, j);
        OnceIn(c.assemblerCount, units[i]);
      }
    }
  }

  lemma TwiceIn(s: seq<nat>, i: nat, j: nat)
    requires i < j < |s| && s[i] == s[j]
    ensures multiset(s)[s[i]] >= 2
  {
    assert s == s[..i] + [s[i]] + s[i + 1..j] + [s[j]] + s[j + 1..];
  }

  lemma {:induction false} OnceIn(n: nat, u: nat)
    ensures multiset(UpTo(n))[u] <= 1
  {
    if n > 0 {
      OnceIn(n - 1, u);
      assert UpTo(n) == UpTo(n - 1) + [n - 1];
      assert u in UpTo(n - 1) <==> u in multiset(UpTo(n - 1));
    }
  }

  /** What the exclusive-or is for: runs in which one record stands in the place of another are rejected. */
  lemma ReplacedRecordIsRejected(c: Check, runs: seq<Run>, i: Word, j: Word)
    requires c == IndexCheck(c.recordCount, c.assemblerCount) && c.Valid()
    requires i < c.recordCount && j < c.recordCount && i != j
    requires Bag(Entries(runs)) == multiset(c.Records(c.recordCount)[i := c.Record(j)])
    ensures !Acceptable(c, runs)
  {
    if AllSorted(Entries(runs)) {
      var records := c.Records(c.recordCount);
      AcceptableByMerged(c, runs, records[i := c.Record(j)]);
      CombinedOfRecords(c, c.recordCount);
      TakeOut(Xor, records, i);
      TakeOut(Xor, records[i := c.Record(j)], i);
      assert records[i := c.Record(j)][..i] == records[..i] && records[i := c.Record(j)][i + 1..] == records[i + 1..];
      var rest := Combined(Xor, records[..i] + records[i + 1..]);
      XorUndone(i, rest);
      XorUndone(j, rest);
    }
  }

  function Copies(e: Entry, n: nat): seq<Entry> {
    seq(n, _ => e)
  }

  /** All copies in the first run, nothing in the others. */
  function CopyRuns(e: Entry, n: nat, assemblerCount: nat): seq<Run> {
    seq(assemblerCount, i requires 0 <= i < assemblerCount => Run(i, if i == 0 then Copies(e, n) else []))
  }

  /**
   * The converse fails: equal exclusive-ors do not make the offsets a bijection.
   * For every record count divisible by four and any number of assemblers, that
   * many copies of one record pass.
   */
  lemma CopiesAreAccepted(recordCount: nat, assemblerCount: nat, index: Word)
    requires 1 < recordCount <= WORD && recordCount % 4 == 0 && index < recordCount && assemblerCount > 0
    ensures var c := IndexCheck(recordCount, assemblerCount);
            var runs := CopyRuns(c.Record(index), recordCount, assemblerCount);
            && c.Valid()
            && Acceptable(c, runs)
            && Bag(Entries(runs)) != multiset(c.Records(recordCount))
  {
    XorLaws();
    CopiesPass(IndexCheck(recordCount, assemblerCount), index);
  }

  lemma CopiesPass(c: Check, index: Word)
    requires c.Valid() && Cancels(c.xor) && CancelsQuads(c.xor) && c.assemblerCount > 0
    requires 1 < c.recordCount && c.recordCount % 4 == 0 && index < c.recordCount
    ensures var runs := CopyRuns(c.Record(index), c.recordCount, c.assemblerCount);
            Acceptable(c, runs) && Bag(Entries(runs)) != multiset(c.Records(c.recordCount))
  {
    var s := Copies(c.Record(index), c.recordCount);
    var runs := CopyRuns(c.Record(index), c.recordCount, c.assemblerCount);
    CopyRunsBag(c.Record(index), c.recordCount, c.assemblerCount);
    assert Acceptable(c, runs) by {
      assert WorkUnits(runs) == UpTo(c.assemblerCount);
      CopiesCombine(c.xor, c.Record(index), c.recordCount / 4);
      CopiesMatch(c, index);
      AcceptableByMerged(c, runs, s);
    }
    CopiesAreNotRecords(c, index);
  }

  lemma CopiesCombine(op: Combine, e: Entry, quads: nat)
    requires Cancels(op) && CancelsQuads(op) && 4 * quads <= WORD
    ensures Combined(op, Copies(e, 4 * quads)) == CombinedUpTo(op, 4 * quads)
  {
    CombinedCopies(op, e, 2 * quads);
    CombinedQuads(op, quads);
  }

  lemma CopiesMatch(c: Check, index: Word)
    ensures KeysMatch(c, Copies(c.Record(index), c.recordCount))
  {
  }

  lemma CopyRunsBag(e: Entry, n: nat, assemblerCount: nat)
    requires assemblerCount > 0
    ensures Bag(Entries(CopyRuns(e, n, assemblerCount))) == multiset(Copies(e, n))
    ensures AllSorted(Entries(CopyRuns(e, n, assemblerCount)))
  {
    var empty := seq(assemblerCount - 1, _ => []);
    assert Entries(CopyRuns(e, n, assemblerCount)) == [Copies(e, n)] + empty;
    BagOfOne(Copies(e, n), empty);
  }

  lemma BagOfOne(s: seq<Entry>, empty: seq<seq<Entry>>)
    requires forall i :: 0 <= i < |empty| ==> empty[i] == []
    ensures Bag([s] + empty) == multiset(s)
  {
    BagConcat([s], empty);
    BagSnoc([], s);
    assert [] + [s] == [s];
    BagEmpty(empty);
  }

  lemma CopiesAreNotRecords(c: Check, index: Word)
    requires 1 < c.recordCount <= WORD && index < c.recordCount
    ensures multiset(Copies(c.Record(index), c.recordCount)) != multiset(c.Records(c.recordCount))
  {
    var other := if index == 0 then 1 else 0;
    assert c.Records(c.recordCount)[other] in multiset(c.Records(c.recordCount));
    assert c.Record(other) !in Copies(c.Record(index), c.recordCount);
  }

  lemma {:induction false} CombinedCopies(op: Combine, e: Entry, pairs: nat)
    requires Cancels(op)
    ensures Combined(op, Copies(e, 2 * pairs)) == 0
  {
    if pairs > 0 {
      var n := 2 * pairs;
      CombinedCopies(op, e, pairs - 1);
      assert Copies(e, n)[..n - 1] == Copies(e, n - 1);
      assert Copies(e, n - 1)[..n - 2] == Copies(e, n - 2);
    }
  }

  lemma {:induction false} CombinedQuads(op: Combine, quads: nat)
    requires CancelsQuads(op) && 4 * quads <= WORD
    ensures CombinedUpTo(op, 4 * quads) == 0
  {
    if quads > 0 {
      var n := 4 * (quads - 1);
      CombinedQuads(op, quads - 1);
      assert QuadCancels(op, CombinedUpTo(op, n), quads - 1);
      assert CombinedUpTo(op, n + 1) == op(CombinedUpTo(op, n), n);
      assert CombinedUpTo(op, n + 2) == op(CombinedUpTo(op, n + 1), n + 1);
      assert CombinedUpTo(op, n + 3) == op(CombinedUpTo(op, n + 2), n + 2);
      assert CombinedUpTo(op, n + 4) == op(CombinedUpTo(op, n + 3), n + 3);
    }
  }

  // ----- exclusive-or has these properties -----

  lemma XorLaws()
    ensures Swappable(Xor) && Cancels(Xor) && CancelsQuads(Xor)
  {
    forall x: Word, a: Word, b: Word ensures Xor(Xor(x, a), b) == Xor(Xor(x, b), a) {
      XorSwaps(x, a, b);
    }
    forall x: Word, a: Word ensures Xor(Xor(x, a), a) == x {
      XorCancels(x, a);
    }
    forall x: Word, k: nat | 4 * k + 3 < WORD ensures QuadCancels(Xor, x, k) {
      XorQuadCancels(x, k, 4 * k, 4 * k + 1, 4 * k + 2, 4 * k + 3);
    }
  }

  lemma XorSwaps(x: Word, a: Word, b: Word)
    ensures Xor(Xor(x, a), b) == Xor(Xor(x, b), a)
  {
    XorAssociates(x, a, b);
    XorCommutes(a, b);
    XorAssociates(x, b, a);
  }

  lemma XorCancels(x: Word, a: Word)
    ensures Xor(Xor(x, a), a) == x
  {
    XorAssociates(x, a, a);
    XorSelf(a);
    XorZero(x);
  }

  lemma {:induction false} ZeroBits(n: nat)
    ensures forall i :: 0 <= i < n ==> !ToBits(0, n)[i]
  {
    if n > 0 {
      ZeroBits(n - 1);
    }
  }

  /** A word all of whose bits are clear. */
  lemma NoBits(x: Word, bits: Bits)
    requires |bits| == WIDTH && FromWordBits(bits) == x && forall i :: 0 <= i < WIDTH ==> !bits[i]
    ensures x == 0
  {
    ZeroBits(WIDTH);
    assert bits == ToBits(0, WIDTH);
    WordBound();
    FromToBits(0, WIDTH);
  }

  lemma XorZero(x: Word)
    ensures Xor(x, 0) == x
  {
    ZeroBits(WIDTH);
    assert XorBits(ToBits(x, WIDTH), ToBits(0, WIDTH)) == ToBits(x, WIDTH);
    WordBound();
    FromToBits(x, WIDTH);
  }

  lemma XorSelf(x: Word)
    ensures Xor(x, x) == 0
  {
    NoBits(Xor(x, x), XorBits(ToBits(x, WIDTH), ToBits(x, WIDTH)));
  }

  lemma TwoBits(x: nat, y: nat, z: nat, n: nat)
    requires y == x / 2 && z == y / 2 && n >= 2
    ensures ToBits(x, n) == [x % 2 == 1, y % 2 == 1] + ToBits(z, n - 2)
  {
    assert ToBits(x, n) == [x % 2 == 1] + ToBits(y, n - 1);
    assert ToBits(y, n - 1) == [y % 2 == 1] + ToBits(z, n - 2);
  }

  lemma LowBits(k: nat, j: nat, n: nat)
    requires j < 4 && n >= 2
    ensures ToBits(4 * k + j, n) == [j % 2 == 1, j / 2 == 1] + ToBits(k, n - 2)
  {
    TwoBits(4 * k + j, 2 * k + j / 2, k, n);
  }

  /** Four words that differ only in their two lowest bits, in every combination, cancel. */
  lemma CancelBits(t: Bits, a: Bits, b: Bits, c: Bits, d: Bits)
    requires a == [false, false] + t && b == [true, false] + t && c == [false, true] + t && d == [true, true] + t
    ensures forall i :: 0 <= i < |a| ==> !XorBits(XorBits(a, b), XorBits(c, d))[i]
  {
  }

  lemma Cancel(t: Bits, a: Word, b: Word, c: Word, d: Word)
    requires ToBits(a, WIDTH) == [false, false] + t && ToBits(b, WIDTH) == [true, false] + t
    requires ToBits(c, WIDTH) == [false, true] + t && ToBits(d, WIDTH) == [true, true] + t
    ensures Xor(Xor(a, b), Xor(c, d)) == 0
  {
    XorBitsOf(a, b);
    XorBitsOf(c, d);
    CancelBits(t, ToBits(a, WIDTH), ToBits(b, WIDTH), ToBits(c, WIDTH), ToBits(d, WIDTH));
    NoBits(Xor(Xor(a, b), Xor(c, d)), XorBits(ToBits(Xor(a, b), WIDTH), ToBits(Xor(c, d), WIDTH)));
  }

  lemma Quad(k: nat, a: Word, b: Word, c: Word, d: Word)
    requires a == 4 * k && b == a + 1 && c == a + 2 && d == a + 3
    ensures Xor(Xor(a, b), Xor(c, d)) == 0
  {
    var t := QuadBits(k, a, b, c, d, WIDTH);
    Cancel(t, a, b, c, d);
  }

  lemma QuadBits(k: nat, a: nat, b: nat, c: nat, d: nat, n: nat) returns (t: Bits)
    requires a == 4 * k && b == a + 1 && c == a + 2 && d == a + 3 && n >= 2
    ensures ToBits(a, n) == [false, false] + t && ToBits(b, n) == [true, false] + t
    ensures ToBits(c, n) == [false, true] + t && ToBits(d, n) == [true, true] + t
  {
    t := ToBits(k, n - 2);
    LowBits(k, 0, n);
    LowBits(k, 1, n);
    LowBits(k, 2, n);
    LowBits(k, 3, n);
  }

  lemma FourMore(x: Word, a: Word, b: Word, c: Word, d: Word)
    ensures Xor(Xor(Xor(Xor(x, a), b), c), d) == Xor(x, Xor(Xor(a, b), Xor(c, d)))
  {
    XorAssociates(x, a, b);
    XorAssociates(Xor(x, Xor(a, b)), c, d);
    XorAssociates(x, Xor(a, b), Xor(c, d));
  }

  lemma XorQuadCancels(x: Word, k: nat, a: Word, b: Word, c: Word, d: Word)
    requires a == 4 * k && b == a + 1 && c == a + 2 && d == a + 3
    ensures Xor(Xor(Xor(Xor(x, a), b), c), d) == x
  {
    Quad(k, a, b, c, d);
    FourMore(x, a, b, c, d);
    XorZero(x);
  }

  // ----- exactly when an accepted index is complete -----

  /**
   * Accepted runs are a bijection with the records exactly when every offset is
   * in range and no entry of the merged index equals its successor.
   */
  lemma AcceptedIsCompleteExactlyWhen(c: Check, runs: seq<Run>, merged: seq<Entry>)
    requires c.Valid() && Acceptable(c, runs)
    requires Sorted(merged) && multiset(merged) == Bag(Entries(runs))
    ensures Bag(Entries(runs)) == multiset(c.Records(c.recordCount)) <==>
              && (forall k :: 0 <= k < |merged| ==> merged[k].offset < c.recordCount)
              && (forall k :: 0 < k < |merged| ==> merged[k - 1] != merged[k])
  {
    AcceptableByMerged(c, runs, merged);
    if multiset(merged) == multiset(c.Records(c.recordCount)) {
      PermutationHasNoRepeats(c, merged);
    }
    if (forall k :: 0 <= k < |merged| ==> merged[k].offset < c.recordCount)
       && (forall k :: 0 < k < |merged| ==> merged[k - 1] != merged[k])
    {
      NoRepeatsIsPermutation(c, merged);
    }
  }

  ghost predicate Distinct(s: seq<Entry>) {
    forall i, j :: 0 <= i < j < |s| ==> s[i] != s[j]
  }

  lemma {:induction false} DistinctOnce(s: seq<Entry>, e: Entry)
    requires Distinct(s)
    ensures multiset(s)[e] <= 1
  {
    if s != [] {
      var k := |s| - 1;
      DistinctOnce(s[..k], e);
      assert s == s[..k] + [s[k]];
      assert s[k] !in multiset(s[..k]);
    }
  }

  lemma RepeatIsTwice(s: seq<Entry>, k: nat)
    requires 0 < k < |s| && s[k - 1] == s[k]
    ensures multiset(s)[s[k]] >= 2
  {
    assert s == s[..k - 1] + [s[k - 1], s[k]] + s[k + 1..];
  }

  lemma PermutationHasNoRepeats(c: Check, merged: seq<Entry>)
    requires c.recordCount <= WORD && multiset(merged) == multiset(c.Records(c.recordCount))
    ensures forall k :: 0 <= k < |merged| ==> merged[k].offset < c.recordCount
    ensures forall k :: 0 < k < |merged| ==> merged[k - 1] != merged[k]
  {
    var records := c.Records(c.recordCount);
    forall k | 0 <= k < |merged| ensures merged[k].offset < c.recordCount {
      assert merged[k] in multiset(merged);
      assert merged[k] in records;
    }
    forall k | 0 < k < |merged| ensures merged[k - 1] != merged[k] {
      DistinctOnce(records, merged[k]);
      if merged[k - 1] == merged[k] {
        RepeatIsTwice(merged, k);
        assert false;
      }
    }
  }

  /** Distinct entries that all come from a list of the same length are all of it. */
  lemma {:induction false} DistinctFillsUp(a: seq<Entry>, b: multiset<Entry>)
    requires Distinct(a) && |a| == |b| && forall k :: 0 <= k < |a| ==> a[k] in b
    ensures multiset(a) == b
  {
    if a == [] {
      assert b == multiset{};
    } else {
      var k := |a| - 1;
      var rest := a[..k];
      assert a == rest + [a[k]];
      forall i | 0 <= i < k ensures rest[i] in b - multiset{a[k]} {
        assert a[i] != a[k];
      }
      DistinctFillsUp(rest, b - multiset{a[k]});
    }
  }

  lemma NoRepeatsIsPermutation(c: Check, merged: seq<Entry>)
    requires |merged| == c.recordCount <= WORD && Sorted(merged) && KeysMatch(c, merged)
    requires forall k :: 0 <= k < |merged| ==> merged[k].offset < c.recordCount
    requires forall k :: 0 < k < |merged| ==> merged[k - 1] != merged[k]
    ensures multiset(merged) == multiset(c.Records(c.recordCount))
  {
    var records := c.Records(c.recordCount);
    forall i, j | 0 <= i < j < |merged| ensures merged[i] != merged[j] {
      assert i < j - 1 ==> Leq(merged[i], merged[j - 1]);
      assert merged[j - 1] != merged[j] && Leq(merged[j - 1], merged[j]);
    }
    forall k | 0 <= k < |merged| ensures merged[k] in multiset(records) {
      assert records[merged[k].offset] == merged[k];
    }
    DistinctFillsUp(merged, multiset(records));
  }
}
