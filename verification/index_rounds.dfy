/**
 * Pairwise merge rounds over run files. Every round merges neighbours into new
 * files, carries an odd run over, and puts the runs back in shard order.
 */
module MergeRounds {
  import opened Wrappers
  import opened IndexOrder
  import opened RunFiles
  import Words

  /** File names in the run directory. */
  datatype Name = Partition(shard: nat) | Merged(round: nat, left: nat, right: nat)

  /** What the files of a directory hold. */
  type Files = map<Name, seq<Entry>>

  /** A sorted run: the shard that owns it, its file, and how many entries it has. */
  datatype ShardRun = ShardRun(shard: nat, path: Name, count: nat)

  function Content(files: Files, run: ShardRun): seq<Entry> {
    if run.path in files then files[run.path] else []
  }

  function Contents(files: Files, runs: seq<ShardRun>): seq<seq<Entry>> {
    seq(|runs|, i requires 0 <= i < |runs| => Content(files, runs[i]))
  }

  /** The run is in its file, sorted. */
  ghost predicate Stored(files: Files, run: ShardRun) {
    run.path in files && Sorted(files[run.path]) && run.count == |files[run.path]|
  }

  ghost predicate AllStored(files: Files, runs: seq<ShardRun>) {
    forall i :: 0 <= i < |runs| ==> Stored(files, runs[i])
  }

  ghost predicate DistinctOwners(runs: seq<ShardRun>) {
    forall i, j :: 0 <= i < j < |runs| ==> runs[i].shard != runs[j].shard
  }

  /** Files made before `round`. */
  predicate Older(path: Name, round: nat) {
    path.Merged? ==> path.round < round
  }

  ghost predicate AllOlder(runs: seq<ShardRun>, round: nat) {
    forall i :: 0 <= i < |runs| ==> Older(runs[i].path, round)
  }

  function OutputName(round: nat, left: ShardRun, right: ShardRun): Name {
    Merged(round, left.shard, right.shard)
  }

  /** The outputs of a round have different names, and none is the name of a run that goes into it. */
  lemma OutputNamesAreFresh(runs: seq<ShardRun>, round: nat, k: nat, m: nat)
    requires DistinctOwners(runs) && AllOlder(runs, round) && 2 * k + 1 < |runs| && 2 * m + 1 < |runs| && k != m
    ensures OutputName(round, runs[2 * k], runs[2 * k + 1]) != OutputName(round, runs[2 * m], runs[2 * m + 1])
    ensures forall i :: 0 <= i < |runs| ==> runs[i].path != OutputName(round, runs[2 * k], runs[2 * k + 1])
  {
    if k < m {
      assert runs[2 * k].shard != runs[2 * m].shard;
    } else {
      assert runs[2 * m].shard != runs[2 * k].shard;
    }
  }

  // ----- back into shard order -----

  function InsertRun(run: ShardRun, runs: seq<ShardRun>): (r: seq<ShardRun>)
    ensures |r| == |runs| + 1
    ensures forall x :: x in r <==> x == run || x in runs
  {
    if runs == [] || run.shard <= runs[0].shard then [run] + runs
    else
      assert runs == [runs[0]] + runs[1..];
      [runs[0]] + InsertRun(run, runs[1..])
  }

  /** The stable sort by shard. */
  function SortRuns(runs: seq<ShardRun>): (r: seq<ShardRun>)
    ensures |r| == |runs|
    ensures forall x :: x in r <==> x in runs
  {
    if runs == [] then []
    else
      assert runs == [runs[0]] + runs[1..];
      InsertRun(runs[0], SortRuns(runs[1..]))
  }

  lemma BagCons(run: seq<Entry>, runs: seq<seq<Entry>>)
    ensures Bag([run] + runs) == multiset(run) + Bag(runs)
  {
    BagConcat([run], runs);
    BagSnoc([], run);
    assert [] + [run] == [run];
  }

  lemma ContentsCons(files: Files, run: ShardRun, runs: seq<ShardRun>)
    ensures Bag(Contents(files, [run] + runs)) == multiset(Content(files, run)) + Bag(Contents(files, runs))
  {
    assert Contents(files, [run] + runs) == [Content(files, run)] + Contents(files, runs);
    BagCons(Content(files, run), Contents(files, runs));
  }

  lemma {:induction false} InsertKeepsBag(files: Files, run: ShardRun, runs: seq<ShardRun>)
    ensures Bag(Contents(files, InsertRun(run, runs))) == multiset(Content(files, run)) + Bag(Contents(files, runs))
  {
    if runs == [] || run.shard <= runs[0].shard {
      ContentsCons(files, run, runs);
    } else {
      InsertKeepsBag(files, run, runs[1..]);
      ContentsCons(files, runs[0], InsertRun(run, runs[1..]));
      ContentsCons(files, runs[0], runs[1..]);
      assert runs == [runs[0]] + runs[1..];
    }
  }

  lemma {:induction false} SortKeepsBag(files: Files, runs: seq<ShardRun>)
    ensures Bag(Contents(files, SortRuns(runs))) == Bag(Contents(files, runs))
  {
    if runs != [] {
      SortKeepsBag(files, runs[1..]);
      InsertKeepsBag(files, runs[0], SortRuns(runs[1..]));
      ContentsCons(files, runs[0], runs[1..]);
      assert runs == [runs[0]] + runs[1..];
    }
  }

  lemma {:induction false} InsertKeepsOwners(run: ShardRun, runs: seq<ShardRun>)
    requires DistinctOwners(runs) && forall x :: x in runs ==> x.shard != run.shard
    ensures DistinctOwners(InsertRun(run, runs))
  {
    if runs != [] && runs[0].shard < run.shard {
      var rest := InsertRun(run, runs[1..]);
      InsertKeepsOwners(run, runs[1..]);
      forall j | 0 <= j < |rest| ensures rest[j].shard != runs[0].shard {
        assert rest[j] in rest;
      }
    }
  }

  lemma {:induction false} SortKeepsOwners(runs: seq<ShardRun>)
    requires DistinctOwners(runs)
    ensures DistinctOwners(SortRuns(runs))
  {
    if runs != [] {
      SortKeepsOwners(runs[1..]);
      InsertKeepsOwners(runs[0], SortRuns(runs[1..]));
    }
  }

  /** In shard order. */
  ghost predicate ByShard(runs: seq<ShardRun>) {
    forall i, j :: 0 <= i < j < |runs| ==> runs[i].shard <= runs[j].shard
  }

  lemma {:induction false} InsertByShard(run: ShardRun, runs: seq<ShardRun>)
    requires ByShard(runs)
    ensures ByShard(InsertRun(run, runs))
  {
    if runs != [] && runs[0].shard < run.shard {
      var rest := InsertRun(run, runs[1..]);
      InsertByShard(run, runs[1..]);
      forall j | 0 <= j < |rest| ensures runs[0].shard <= rest[j].shard {
        assert rest[j] in rest;
      }
    }
  }

  lemma {:induction false} SortsByShard(runs: seq<ShardRun>)
    ensures ByShard(SortRuns(runs))
  {
    if runs != [] {
      SortsByShard(runs[1..]);
      InsertByShard(runs[0], SortRuns(runs[1..]));
    }
  }

  lemma LeastComesFirst(runs: seq<ShardRun>, first: ShardRun)
    requires first in runs && forall run :: run in runs ==> first.shard <= run.shard
    ensures runs != [] && SortRuns(runs)[0].shard == first.shard
  {
    var sorted := SortRuns(runs);
    SortsByShard(runs);
    assert first in sorted && sorted[0] in runs;
    var i :| 0 <= i < |sorted| && sorted[i] == first;
  }

  ghost predicate PairsOfRound(runs: seq<ShardRun>, round: nat, handles: seq<ShardRun>) {
    && |handles| == |runs| / 2
    && (forall k :: 0 <= k < |handles| ==> handles[k] == PairRun(round, runs[2 * k], runs[2 * k + 1]))
  }

  lemma NoneBelowFirst(runs: seq<ShardRun>, round: nat, handles: seq<ShardRun>, run: ShardRun)
    requires runs != [] && ByShard(runs) && PairsOfRound(runs, round, handles)
    requires run in runs[2 * |handles|..] || run in handles
    ensures runs[0].shard <= run.shard
  {
    if run in handles {
      var k :| 0 <= k < |handles| && handles[k] == run;
      assert run.shard == runs[2 * k].shard;
    }
  }

  /** The run of the first shard stays with it: it is the left one of its pair, or carried over. */
  lemma FirstShardStays(runs: seq<ShardRun>, round: nat, handles: seq<ShardRun>)
    requires runs != [] && ByShard(runs) && PairsOfRound(runs, round, handles)
    ensures SortRuns(runs[2 * |handles|..] + handles)[0].shard == runs[0].shard
  {
    var carried := runs[2 * |handles|..];
    forall run | run in carried + handles ensures runs[0].shard <= run.shard {
      NoneBelowFirst(runs, round, handles, run);
    }
    var first := if handles == [] then carried[0] else handles[0];
    LeastComesFirst(carried + handles, first);
  }

  lemma SortKeepsStored(files: Files, runs: seq<ShardRun>, round: nat)
    requires AllStored(files, runs) && AllOlder(runs, round)
    ensures AllStored(files, SortRuns(runs)) && AllOlder(SortRuns(runs), round)
  {
    var sorted := SortRuns(runs);
    forall i | 0 <= i < |sorted| ensures Stored(files, sorted[i]) && Older(sorted[i].path, round) {
      assert sorted[i] in runs;
    }
  }

  // ----- one round -----

  function PairEntries(files: Files, left: ShardRun, right: ShardRun): seq<Entry> {
    Merge(Content(files, left), Content(files, right))
  }

  /** Both inputs are there, and the output is a third file. */
  ghost predicate MergeAllowed(files: Files, left: ShardRun, right: ShardRun, round: nat) {
    && Stored(files, left) && Stored(files, right)
    && OutputName(round, left, right) != left.path && OutputName(round, left, right) != right.path
  }

  function PairRun(round: nat, left: ShardRun, right: ShardRun): ShardRun {
    ShardRun(left.shard, OutputName(round, left, right), left.count + right.count)
  }

  lemma PairIsStored(files: Files, round: nat, left: ShardRun, right: ShardRun)
    requires Stored(files, left) && Stored(files, right)
    ensures Stored(files[OutputName(round, left, right) := PairEntries(files, left, right)],
                   PairRun(round, left, right))
  {
    MergeSorted(files[left.path], files[right.path]);
  }

  ghost predicate InputsKept(before: Files, files: Files, runs: seq<ShardRun>) {
    forall k :: 0 <= k < |runs| ==>
      runs[k].path in before && runs[k].path in files && files[runs[k].path] == before[runs[k].path]
  }

  ghost predicate OutputsOk(files: Files, runs: seq<ShardRun>, round: nat, handles: seq<ShardRun>) {
    && 2 * |handles| <= |runs|
    && (forall k :: 0 <= k < |handles| ==>
          handles[k] == PairRun(round, runs[2 * k], runs[2 * k + 1]) && Stored(files, handles[k]))
  }

  ghost predicate SameBag(a: seq<seq<Entry>>, b: seq<seq<Entry>>) {
    Bag(a) == Bag(b)
  }

  /** After merging the first runs in pairs: the inputs are as they were, and the outputs hold their entries. */
  ghost predicate PairsOk(before: Files, files: Files, runs: seq<ShardRun>, round: nat, handles: seq<ShardRun>) {
    && InputsKept(before, files, runs)
    && OutputsOk(files, runs, round, handles)
    && SameBag(Contents(files, handles), Contents(before, runs[..2 * |handles|]))
  }

  /** Writing the next output touches no input and no earlier output. */
  lemma NextOutputIsFresh(files: Files, runs: seq<ShardRun>, round: nat, handles: seq<ShardRun>)
    requires DistinctOwners(runs) && AllOlder(runs, round) && OutputsOk(files, runs, round, handles)
             && 2 * |handles| + 1 < |runs|
    ensures var path := OutputName(round, runs[2 * |handles|], runs[2 * |handles| + 1]);
            && (forall k :: 0 <= k < |runs| ==> runs[k].path != path)
            && (forall k :: 0 <= k < |handles| ==> handles[k].path != path)
  {
    var n := |handles|;
    forall k | 0 <= k < n ensures handles[k].path != OutputName(round, runs[2 * n], runs[2 * n + 1]) {
      OutputNamesAreFresh(runs, round, k, n);
    }
  }

  lemma PairBag(done: seq<seq<Entry>>, inputs: seq<seq<Entry>>, a: seq<Entry>, b: seq<Entry>)
    requires SameBag(done, inputs)
    ensures SameBag(done + [Merge(a, b)], (inputs + [a]) + [b])
  {
    BagSnoc(done, Merge(a, b));
    MergeBag(a, b);
    BagSnoc(inputs, a);
    BagSnoc(inputs + [a], b);
  }

  lemma CarryBag(done: seq<seq<Entry>>, inputs: seq<seq<Entry>>, carried: seq<seq<Entry>>)
    requires SameBag(done, inputs)
    ensures SameBag(carried + done, inputs + carried)
  {
    BagConcat(carried, done);
    BagConcat(inputs, carried);
  }

  lemma ContentsSame(files: Files, files': Files, runs: seq<ShardRun>)
    requires forall k :: 0 <= k < |runs| ==> Content(files', runs[k]) == Content(files, runs[k])
    ensures Contents(files', runs) == Contents(files, runs)
  {
  }

  lemma ContentsConcat(files: Files, a: seq<ShardRun>, b: seq<ShardRun>)
    ensures Contents(files, a + b) == Contents(files, a) + Contents(files, b)
  {
  }

  lemma ContentsOne(files: Files, run: ShardRun)
    ensures Contents(files, [run]) == [Content(files, run)]
  {
  }

  /** Writing a fresh file keeps what the others hold. */
  lemma WriteKeeps(files: Files, path: Name, file: seq<Entry>, runs: seq<ShardRun>)
    requires forall k :: 0 <= k < |runs| ==> runs[k].path != path
    ensures Contents(files[path := file], runs) == Contents(files, runs)
    ensures forall k :: 0 <= k < |runs| && Stored(files, runs[k]) ==> Stored(files[path := file], runs[k])
  {
  }

  lemma PairKeepsBag(before: Files, files: Files, runs: seq<ShardRun>, n: nat, handles: seq<ShardRun>, run: ShardRun)
    requires n + 1 < |runs| && SameBag(Contents(files, handles), Contents(before, runs[..n]))
    requires Content(files, run) == Merge(Content(before, runs[n]), Content(before, runs[n + 1]))
    ensures SameBag(Contents(files, handles + [run]), Contents(before, runs[..n + 2]))
  {
    var left, right := runs[n], runs[n + 1];
    PairBag(Contents(files, handles), Contents(before, runs[..n]), Content(before, left), Content(before, right));
    ContentsConcat(files, handles, [run]);
    ContentsOne(files, run);
    assert runs[..n + 2] == (runs[..n] + [left]) + [right];
    ContentsConcat(before, runs[..n] + [left], [right]);
    ContentsConcat(before, runs[..n], [left]);
    ContentsOne(before, left);
    ContentsOne(before, right);
  }

  lemma InputsAreStored(before: Files, files: Files, runs: seq<ShardRun>)
    requires AllStored(before, runs) && InputsKept(before, files, runs)
    ensures AllStored(files, runs)
    ensures forall k :: 0 <= k < |runs| ==> Content(files, runs[k]) == Content(before, runs[k])
  {
    forall k | 0 <= k < |runs| ensures Stored(files, runs[k]) {
      assert Stored(before, runs[k]);
    }
  }

  lemma InputsStayKept(before: Files, files: Files, runs: seq<ShardRun>, path: Name, file: seq<Entry>)
    requires InputsKept(before, files, runs) && forall k :: 0 <= k < |runs| ==> runs[k].path != path
    ensures InputsKept(before, files[path := file], runs)
  {
  }

  lemma OutputsGrow(files: Files, files': Files, runs: seq<ShardRun>, round: nat, handles: seq<ShardRun>)
    requires OutputsOk(files, runs, round, handles) && 2 * |handles| + 1 < |runs| && AllStored(files', handles)
    requires Stored(files', PairRun(round, runs[2 * |handles|], runs[2 * |handles| + 1]))
    ensures OutputsOk(files', runs, round, handles + [PairRun(round, runs[2 * |handles|], runs[2 * |handles| + 1])])
  {
  }

  /** The inputs of the next pair are stored, and its output is a file of its own. */
  lemma NextPair(before: Files, files: Files, runs: seq<ShardRun>, round: nat, handles: seq<ShardRun>, left: ShardRun,
                 right: ShardRun)
    requires AllStored(before, runs) && DistinctOwners(runs) && AllOlder(runs, round)
    requires PairsOk(before, files, runs, round, handles) && 2 * |handles| + 1 < |runs|
    requires left == runs[2 * |handles|] && right == runs[2 * |handles| + 1]
    ensures Stored(files, left) && Stored(files, right)
    ensures OutputName(round, left, right) != left.path && OutputName(round, left, right) != right.path
  {
    InputsAreStored(before, files, runs);
    NextOutputIsFresh(files, runs, round, handles);
  }

  lemma PairKeepsOutputs(files: Files, runs: seq<ShardRun>, round: nat, handles: seq<ShardRun>, left: ShardRun,
                         right: ShardRun)
    requires OutputsOk(files, runs, round, handles) && 2 * |handles| + 1 < |runs|
    requires left == runs[2 * |handles|] && right == runs[2 * |handles| + 1] && Stored(files, left)
             && Stored(files, right)
    requires forall k :: 0 <= k < |handles| ==> handles[k].path != OutputName(round, left, right)
    ensures var files' := files[OutputName(round, left, right) := PairEntries(files, left, right)];
            OutputsOk(files', runs, round, handles + [PairRun(round, left, right)])
              && Contents(files', handles) == Contents(files, handles)
  {
    var path, entries := OutputName(round, left, right), PairEntries(files, left, right);
    PairIsStored(files, round, left, right);
    WriteKeeps(files, path, entries, handles);
    OutputsGrow(files, files[path := entries], runs, round, handles);
  }

  lemma PairContent(before: Files, files: Files, round: nat, left: ShardRun, right: ShardRun)
    requires Content(files, left) == Content(before, left) && Content(files, right) == Content(before, right)
    ensures var files' := files[OutputName(round, left, right) := PairEntries(files, left, right)];
            Content(files', PairRun(round, left, right)) == Merge(Content(before, left), Content(before, right))
  {
  }

  lemma PairKeepsBags(before: Files, files: Files, files': Files, runs: seq<ShardRun>, round: nat,
                      handles: seq<ShardRun>)
    requires 2 * |handles| + 1 < |runs| && InputsKept(before, files, runs)
    requires SameBag(Contents(files, handles), Contents(before, runs[..2 * |handles|]))
             && Contents(files', handles) == Contents(files, handles)
    requires var (left, right) := (runs[2 * |handles|], runs[2 * |handles| + 1]);
             files' == files[OutputName(round, left, right) := PairEntries(files, left, right)]
    ensures SameBag(Contents(files', handles + [PairRun(round, runs[2 * |handles|], runs[2 * |handles| + 1])]),
                    Contents(before, runs[..2 * |handles| + 2]))
  {
    var n := 2 * |handles|;
    assert Content(files', PairRun(round, runs[n], runs[n + 1]))
        == Merge(Content(before, runs[n]), Content(before, runs[n + 1])) by {
      PairContent(before, files, round, runs[n], runs[n + 1]);
    }
    PairKeepsBag(before, files', runs, n, handles, PairRun(round, runs[n], runs[n + 1]));
  }

  lemma NextOutputKeepsOutputs(before: Files, files: Files, runs: seq<ShardRun>, round: nat, handles: seq<ShardRun>,
                               left: ShardRun, right: ShardRun)
    requires AllStored(before, runs) && DistinctOwners(runs) && AllOlder(runs, round)
    requires PairsOk(before, files, runs, round, handles) && 2 * |handles| + 1 < |runs|
    requires left == runs[2 * |handles|] && right == runs[2 * |handles| + 1]
    ensures var files' := files[OutputName(round, left, right) := PairEntries(files, left, right)];
            OutputsOk(files', runs, round, handles + [PairRun(round, left, right)])
              && Contents(files', handles) == Contents(files, handles)
  {
    NextPair(before, files, runs, round, handles, left, right);
    NextOutputIsFresh(files, runs, round, handles);
    PairKeepsOutputs(files, runs, round, handles, left, right);
  }

  /** One more pair. */
  lemma PairKeepsOk(before: Files, files: Files, files': Files, runs: seq<ShardRun>, round: nat,
                    handles: seq<ShardRun>, left: ShardRun, right: ShardRun)
    requires AllStored(before, runs) && DistinctOwners(runs) && AllOlder(runs, round)
    requires PairsOk(before, files, runs, round, handles) && 2 * |handles| + 1 < |runs|
    requires left == runs[2 * |handles|] && right == runs[2 * |handles| + 1]
    requires files' == files[OutputName(round, left, right) := PairEntries(files, left, right)]
    ensures PairsOk(before, files', runs, round, handles + [PairRun(round, left, right)])
  {
    var more := handles + [PairRun(round, left, right)];
    assert InputsKept(before, files', runs) by {
      NextOutputIsFresh(files, runs, round, handles);
      InputsStayKept(before, files, runs, OutputName(round, left, right), PairEntries(files, left, right));
    }
    assert OutputsOk(files', runs, round, more) && Contents(files', handles) == Contents(files, handles) by {
      NextOutputKeepsOutputs(before, files, runs, round, handles, left, right);
    }
    assert SameBag(Contents(files', more), Contents(before, runs[..2 * |more|])) by {
      assert 2 * |more| == 2 * |handles| + 2;
      PairKeepsBags(before, files, files', runs, round, handles);
    }
  }

  /** The runs after a round, before they are sorted. */
  lemma RoundIsComplete(before: Files, files: Files, runs: seq<ShardRun>, round: nat, handles: seq<ShardRun>)
    requires AllStored(before, runs) && DistinctOwners(runs) && AllOlder(runs, round)
    requires PairsOk(before, files, runs, round, handles) && 2 * |handles| + 1 >= |runs|
    ensures var all := runs[2 * |handles|..] + handles;
            && |all| == (|runs| + 1) / 2
            && AllStored(files, all) && DistinctOwners(all) && AllOlder(all, round + 1)
            && SameBag(Contents(files, all), Contents(before, runs))
  {
    var all := runs[2 * |handles|..] + handles;
    assert SameBag(Contents(files, all), Contents(before, runs)) by {
      RoundBag(before, files, runs, handles);
    }
    assert DistinctOwners(all) by {
      RoundOwners(files, runs, round, handles);
    }
    RoundStored(before, files, runs, round, handles);
  }

  lemma RoundStored(before: Files, files: Files, runs: seq<ShardRun>, round: nat, handles: seq<ShardRun>)
    requires AllStored(before, runs) && AllOlder(runs, round) && InputsKept(before, files, runs)
             && OutputsOk(files, runs, round, handles)
    ensures var all := runs[2 * |handles|..] + handles; AllStored(files, all) && AllOlder(all, round + 1)
  {
    InputsAreStored(before, files, runs);
  }

  lemma RoundOwners(files: Files, runs: seq<ShardRun>, round: nat, handles: seq<ShardRun>)
    requires DistinctOwners(runs) && OutputsOk(files, runs, round, handles) && 2 * |handles| + 1 >= |runs|
    ensures DistinctOwners(runs[2 * |handles|..] + handles)
  {
    forall k, m | 0 <= k < m < |handles| ensures handles[k].shard != handles[m].shard {
      assert runs[2 * k].shard != runs[2 * m].shard;
    }
    forall k | 0 <= k < |handles| && 2 * |handles| < |runs| ensures handles[k].shard != runs[2 * |handles|].shard {
      assert runs[2 * k].shard != runs[2 * |handles|].shard;
    }
  }

  lemma RoundBag(before: Files, files: Files, runs: seq<ShardRun>, handles: seq<ShardRun>)
    requires InputsKept(before, files, runs) && 2 * |handles| <= |runs|
    requires SameBag(Contents(files, handles), Contents(before, runs[..2 * |handles|]))
    ensures SameBag(Contents(files, runs[2 * |handles|..] + handles), Contents(before, runs))
  {
    var i := 2 * |handles|;
    CarryBag(Contents(files, handles), Contents(before, runs[..i]), Contents(before, runs[i..]));
    ContentsSame(before, files, runs[i..]);
    ContentsConcat(files, runs[i..], handles);
    ContentsConcat(before, runs[..i], runs[i..]);
    assert runs == runs[..i] + runs[i..];
  }

  lemma RoundIsSorted(files: Files, runs: seq<ShardRun>, round: nat)
    requires AllStored(files, runs) && DistinctOwners(runs) && AllOlder(runs, round)
    ensures var sorted := SortRuns(runs);
            AllStored(files, sorted) && DistinctOwners(sorted) && AllOlder(sorted, round)
              && SameBag(Contents(files, sorted), Contents(files, runs))
  {
    SortKeepsStored(files, runs, round);
    SortKeepsOwners(runs);
    SortKeepsBag(files, runs);
  }

  // ----- the order of the tasks of a round -----

  /** Pair `k` of a round is merged into its file. */
  function MergeOne(files: Files, runs: seq<ShardRun>, round: nat, k: nat): Files
    requires 2 * k + 1 < |runs|
  {
    files[OutputName(round, runs[2 * k], runs[2 * k + 1]) := PairEntries(files, runs[2 * k], runs[2 * k + 1])]
  }

  ghost predicate PairsOf(runs: seq<ShardRun>, order: seq<nat>) {
    forall i :: 0 <= i < |order| ==> 2 * order[i] + 1 < |runs|
  }

  /** Pairs are merged one after another, in the given order. */
  function MergeAll(files: Files, runs: seq<ShardRun>, round: nat, order: seq<nat>): Files
    requires PairsOf(runs, order)
  {
    if order == [] then files
    else MergeOne(MergeAll(files, runs, round, order[..|order| - 1]), runs, round, order[|order| - 1])
  }

  function PairName(runs: seq<ShardRun>, round: nat, k: nat): Name
    requires 2 * k + 1 < |runs|
  {
    OutputName(round, runs[2 * k], runs[2 * k + 1])
  }

  function Lookup(files: Files, p: Name): Option<seq<Entry>> {
    if p in files then Some(files[p]) else None
  }

  /** Files that are no output of these pairs stay as they were. */
  lemma {:induction false} OthersUntouched(files: Files, runs: seq<ShardRun>, round: nat, order: seq<nat>, p: Name)
    requires PairsOf(runs, order) && forall i :: 0 <= i < |order| ==> PairName(runs, round, order[i]) != p
    ensures Lookup(MergeAll(files, runs, round, order), p) == Lookup(files, p)
  {
    if order != [] {
      OthersUntouched(files, runs, round, order[..|order| - 1], p);
      assert PairName(runs, round, order[|order| - 1]) != p;
    }
  }

  lemma InputsUntouched(files: Files, runs: seq<ShardRun>, round: nat, order: seq<nat>, j: nat)
    requires PairsOf(runs, order) && AllOlder(runs, round) && j < |runs|
    ensures Content(MergeAll(files, runs, round, order), runs[j]) == Content(files, runs[j])
  {
    OthersUntouched(files, runs, round, order, runs[j].path);
  }

  lemma LastOutput(files: Files, runs: seq<ShardRun>, round: nat, order: seq<nat>, k: nat)
    requires PairsOf(runs, order) && AllOlder(runs, round) && 2 * k + 1 < |runs|
    ensures Lookup(MergeOne(MergeAll(files, runs, round, order), runs, round, k), PairName(runs, round, k))
         == Some(PairEntries(files, runs[2 * k], runs[2 * k + 1]))
  {
    InputsUntouched(files, runs, round, order, 2 * k);
    InputsUntouched(files, runs, round, order, 2 * k + 1);
  }

  /** Each output holds the merge of its inputs as they were before the round. */
  lemma {:induction false} OutputIsWritten(files: Files, runs: seq<ShardRun>, round: nat, order: seq<nat>, i: nat)
    requires PairsOf(runs, order) && DistinctOwners(runs) && AllOlder(runs, round) && i < |order|
    ensures Lookup(MergeAll(files, runs, round, order), PairName(runs, round, order[i]))
         == Some(PairEntries(files, runs[2 * order[i]], runs[2 * order[i] + 1]))
  {
    var shorter, k := order[..|order| - 1], order[|order| - 1];
    if order[i] == k {
      LastOutput(files, runs, round, shorter, k);
    } else {
      assert shorter[i] == order[i];
      OutputIsWritten(files, runs, round, shorter, i);
      OtherOutputKept(MergeAll(files, runs, round, shorter), runs, round, order[i], k);
    }
  }

  lemma OtherOutputKept(files: Files, runs: seq<ShardRun>, round: nat, i: nat, k: nat)
    requires DistinctOwners(runs) && AllOlder(runs, round) && 2 * i + 1 < |runs| && 2 * k + 1 < |runs| && i != k
    ensures Lookup(MergeOne(files, runs, round, k), PairName(runs, round, i)) == Lookup(files, PairName(runs, round, i))
  {
    OutputNamesAreFresh(runs, round, i, k);
  }

  lemma SameOutput(files: Files, runs: seq<ShardRun>, round: nat, order: seq<nat>, other: seq<nat>, i: nat, j: nat)
    requires PairsOf(runs, order) && PairsOf(runs, other) && DistinctOwners(runs) && AllOlder(runs, round)
    requires i < |order| && j < |other| && order[i] == other[j]
    ensures var p := PairName(runs, round, order[i]);
            Lookup(MergeAll(files, runs, round, order), p) == Lookup(MergeAll(files, runs, round, other), p)
  {
    OutputIsWritten(files, runs, round, order, i);
    OutputIsWritten(files, runs, round, other, j);
  }

  ghost predicate IsOutput(runs: seq<ShardRun>, round: nat, order: seq<nat>, p: Name)
    requires PairsOf(runs, order)
  {
    exists i :: 0 <= i < |order| && PairName(runs, round, order[i]) == p
  }

  lemma SameAt(files: Files, runs: seq<ShardRun>, round: nat, order: seq<nat>, other: seq<nat>, p: Name)
    requires PairsOf(runs, order) && PairsOf(runs, other) && DistinctOwners(runs) && AllOlder(runs, round)
    requires forall k :: k in order <==> k in other
    ensures Lookup(MergeAll(files, runs, round, order), p) == Lookup(MergeAll(files, runs, round, other), p)
  {
    if IsOutput(runs, round, order, p) {
      var i :| 0 <= i < |order| && PairName(runs, round, order[i]) == p;
      assert order[i] in other;
      var j :| 0 <= j < |other| && other[j] == order[i];
      SameOutput(files, runs, round, order, other, i, j);
    } else {
      NoOutput(runs, round, order, other, p);
      OthersUntouched(files, runs, round, order, p);
      OthersUntouched(files, runs, round, other, p);
    }
  }

  lemma NoOutput(runs: seq<ShardRun>, round: nat, order: seq<nat>, other: seq<nat>, p: Name)
    requires PairsOf(runs, order) && PairsOf(runs, other) && !IsOutput(runs, round, order, p)
    requires forall k :: k in other ==> k in order
    ensures forall i :: 0 <= i < |other| ==> PairName(runs, round, other[i]) != p
  {
    forall j | 0 <= j < |other| ensures PairName(runs, round, other[j]) != p {
      assert other[j] in order;
      var i :| 0 <= i < |order| && order[i] == other[j];
      assert PairName(runs, round, order[i]) != p;
    }
  }

  /** The tasks of a round may finish in any order: the same pairs leave the same directory. */
  lemma AnyOrderMergesTheSame(files: Files, runs: seq<ShardRun>, round: nat, order: seq<nat>, other: seq<nat>)
    requires PairsOf(runs, order) && PairsOf(runs, other) && DistinctOwners(runs) && AllOlder(runs, round)
    requires forall k :: k in order <==> k in other
    ensures MergeAll(files, runs, round, order) == MergeAll(files, runs, round, other)
  {
    var a, b := MergeAll(files, runs, round, order), MergeAll(files, runs, round, other);
    forall p ensures Lookup(a, p) == Lookup(b, p) {
      SameAt(files, runs, round, order, other, p);
    }
    SameFiles(a, b);
  }

  lemma SameFiles(a: Files, b: Files)
    requires forall p :: Lookup(a, p) == Lookup(b, p)
    ensures a == b
  {
    forall p ensures p in a <==> p in b {
      assert Lookup(a, p) == Lookup(b, p);
    }
    forall p | p in a ensures a[p] == b[p] {
      assert Lookup(a, p) == Lookup(b, p);
    }
  }

  lemma RoundStarts(files: Files, runs: seq<ShardRun>, round: nat)
    requires AllStored(files, runs)
    ensures PairsOk(files, files, runs, round, [])
  {
    assert Contents(files, []) == Contents(files, runs[..0]);
    forall k | 0 <= k < |runs| ensures runs[k].path in files {
      assert Stored(files, runs[k]);
    }
  }

  // ----- the rounds -----

  class RunDirectory {
    var files: map<Name, seq<Byte>>
    ghost var view: Files

    /** Every file is a whole run file. */
    ghost predicate Valid()
      reads this
    {
      files.Keys == view.Keys && forall p :: p in files ==> files[p] == EncodeAll(view[p])
    }

    constructor ()
      ensures Valid() && view == map[]
    {
      files, view := map[], map[];
    }

    /** Writes a sorted run, as each shard does with its partition. */
    method WriteRun(path: Name, entries: seq<Entry>)
      requires Valid()
      modifies this
      ensures Valid() && view == old(view)[path := entries]
    {
      var file := WriteIndexFile(entries);
      files := files[path := file];
      view := view[path := entries];
    }

    /** Merges two runs into a new file on the left run's shard. */
    method MergePair(left: ShardRun, right: ShardRun, round: nat, pick: Name -> nat -> nat) returns (run: ShardRun)
      requires Valid() && MergeAllowed(view, left, right, round)
      modifies this
      ensures Valid() && run == PairRun(round, left, right)
      ensures view == old(view)[run.path := PairEntries(old(view), left, right)]
    {
      var path := OutputName(round, left, right);
      var merged := MergeRunFiles(files[left.path], files[right.path], pick(left.path), pick(right.path));
      DecodeEncoded(view[left.path]);
      DecodeEncoded(view[right.path]);
      files := files[path := merged.value.0];
      view := view[path := PairEntries(view, left, right)];
      return ShardRun(left.shard, path, merged.value.1);
    }

    /** The next merge of a round: one step of `MergeAll`, whose result does not depend on the order. */
    method MergeNext(ghost before: Files, runs: seq<ShardRun>, round: nat, handles: seq<ShardRun>,
                     pick: Name -> nat -> nat)
      returns (run: ShardRun)
      requires AllStored(before, runs) && DistinctOwners(runs) && AllOlder(runs, round)
      requires Valid() && PairsOk(before, view, runs, round, handles) && 2 * |handles| + 1 < |runs|
      modifies this
      ensures Valid() && PairsOk(before, view, runs, round, handles + [run])
      ensures view == MergeOne(old(view), runs, round, |handles|)
    {
      var left, right := runs[2 * |handles|], runs[2 * |handles| + 1];
      NextPair(before, view, runs, round, handles, left, right);
      ghost var kept := view;
      run := MergePair(left, right, round, pick);
      PairKeepsOk(before, kept, view, runs, round, handles, left, right);
    }

    /** The merges of one round, in turn. */
    method MergePairs(runs: seq<ShardRun>, round: nat, pick: Name -> nat -> nat) returns (handles: seq<ShardRun>)
      requires Valid() && AllStored(view, runs) && DistinctOwners(runs) && AllOlder(runs, round)
      modifies this
      ensures Valid() && |handles| == |runs| / 2 && PairsOk(old(view), view, runs, round, handles)
    {
      handles := [];
      RoundStarts(view, runs, round);
      while 2 * |handles| + 1 < |runs|
        invariant Valid() && 2 * |handles| <= |runs| && PairsOk(old(view), view, runs, round, handles)
        decreases |runs| - |handles|
      {
        var run := MergeNext(old(view), runs, round, handles, pick);
        handles := handles + [run];
      }
    }

    /** One round. */
    method MergeRound(runs: seq<ShardRun>, round: nat, pick: Name -> nat -> nat) returns (merged: seq<ShardRun>)
      requires Valid() && AllStored(view, runs) && DistinctOwners(runs) && AllOlder(runs, round)
      modifies this
      ensures Valid() && |merged| == (|runs| + 1) / 2
      ensures AllStored(view, merged) && DistinctOwners(merged) && AllOlder(merged, round + 1)
      ensures SameBag(Contents(view, merged), Contents(old(view), runs))
      ensures ByShard(merged) && (runs != [] && ByShard(runs) ==> merged[0].shard == runs[0].shard)
    {
      var handles := MergePairs(runs, round, pick);
      var carried := runs[2 * |handles|..];
      RoundIsComplete(old(view), view, runs, round, handles);
      merged := SortRuns(carried + handles);
      RoundIsSorted(view, carried + handles, round + 1);
      SortsByShard(carried + handles);
      if runs != [] && ByShard(runs) {
        FirstShardStays(runs, round, handles);
      }
    }

    /** All rounds: the last run is the sorted union of all of them. */
    method MergeRunsOnShards(start: seq<ShardRun>, pick: Name -> nat -> nat) returns (final: ShardRun, rounds: nat)
      requires Valid() && start != [] && AllStored(view, start) && DistinctOwners(start) && AllOlder(start, 0)
      modifies this
      ensures Valid() && Stored(view, final)
      ensures Content(view, final) == Sort(Flatten(Contents(old(view), start)))
      ensures rounds == RoundsNeeded(|start|)
      ensures ByShard(start) ==> final.shard == start[0].shard
    {
      var runs := start;
      rounds := 0;
      while |runs| > 1
        invariant Valid() && runs != [] && AllStored(view, runs) && DistinctOwners(runs) && AllOlder(runs, rounds)
        invariant SameBag(Contents(view, runs), Contents(old(view), start))
        invariant rounds + RoundsNeeded(|runs|) == RoundsNeeded(|start|)
        invariant ByShard(start) ==> ByShard(runs) && runs[0].shard == start[0].shard
        decreases |runs|
      {
        runs := MergeRound(runs, rounds, pick);
        rounds := rounds + 1;
      }
      final := runs[0];
      assert runs == [final];
      OneRunLeft(view, final);
      SortedUnique(Content(view, final), Sort(Flatten(Contents(old(view), start))));
    }
  }

  lemma OneRunLeft(files: Files, run: ShardRun)
    ensures Bag(Contents(files, [run])) == multiset(Content(files, run))
  {
    assert Contents(files, [run]) == [] + [Content(files, run)];
    BagSnoc([], Content(files, run));
  }

  /** Rounds that halve `n` runs, rounding up, down to one. */
  function RoundsNeeded(n: nat): nat {
    if n <= 1 then 0 else 1 + RoundsNeeded((n + 1) / 2)
  }

  /** So the rounds are the base-two logarithm of the number of runs, rounded up. */
  lemma {:induction false} RoundsAreLogarithmic(n: nat)
    requires n >= 1
    ensures n <= Words.Pow2(RoundsNeeded(n))
    ensures n > 1 ==> Words.Pow2(RoundsNeeded(n) - 1) < n
  {
    if n > 1 {
      var half := (n + 1) / 2;
      RoundsAreLogarithmic(half);
      if half > 1 {
        assert Words.Pow2(RoundsNeeded(half)) == 2 * Words.Pow2(RoundsNeeded(half) - 1);
      }
    }
  }
}
