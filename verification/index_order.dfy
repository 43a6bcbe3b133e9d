/**
 * Index entries, their order, sorting, and the two-way merge.
 */
module IndexOrder {
  import opened Words

  /** A record key and the place of the record. */
  datatype Entry = Entry(key: Word, offset: Word)

  /** By key, then by offset. */
  predicate Leq(a: Entry, b: Entry) {
    a.key < b.key || (a.key == b.key && a.offset <= b.offset)
  }

  ghost predicate Sorted(s: seq<Entry>) {
    forall i, j :: 0 <= i < j < |s| ==> Leq(s[i], s[j])
  }

  /** The entries of all runs together. */
  function Bag(runs: seq<seq<Entry>>): multiset<Entry> {
    if runs == [] then multiset{} else Bag(runs[..|runs| - 1]) + multiset(runs[|runs| - 1])
  }

  /** All runs one after another. */
  function Flatten(runs: seq<seq<Entry>>): (all: seq<Entry>)
    ensures multiset(all) == Bag(runs)
  {
    if runs == [] then [] else Flatten(runs[..|runs| - 1]) + runs[|runs| - 1]
  }

  lemma BagSnoc(runs: seq<seq<Entry>>, run: seq<Entry>)
    ensures Bag(runs + [run]) == Bag(runs) + multiset(run)
  {
    assert (runs + [run])[..|runs|] == runs;
  }

  lemma {:induction false} BagConcat(a: seq<seq<Entry>>, b: seq<seq<Entry>>)
    ensures Bag(a + b) == Bag(a) + Bag(b)
  {
    if b == [] {
      assert a + b == a;
    } else {
      var rest, last := b[..|b| - 1], b[|b| - 1];
      assert a + b == (a + rest) + [last] && b == rest + [last];
      BagConcat(a, rest);
      BagSnoc(a + rest, last);
    }
  }

  /** Replacing one run by another with one entry fewer. */
  lemma {:induction false} BagDrop(runs: seq<seq<Entry>>, i: nat)
    requires i < |runs| && runs[i] != []
    ensures Bag(runs) == Bag(runs[i := runs[i][1..]]) + multiset{runs[i][0]}
  {
    var k := |runs| - 1;
    var runs' := runs[i := runs[i][1..]];
    if i == k {
      assert runs'[..k] == runs[..k];
      assert runs[i] == [runs[i][0]] + runs[i][1..];
    } else {
      assert runs'[..k] == runs[..k][i := runs[i][1..]];
      BagDrop(runs[..k], i);
    }
  }

  lemma {:induction false} BagEmpty(runs: seq<seq<Entry>>)
    requires forall i :: 0 <= i < |runs| ==> runs[i] == []
    ensures Bag(runs) == multiset{}
  {
    if runs != [] {
      BagEmpty(runs[..|runs| - 1]);
    }
  }

  /** The order is total, so there is only one sorted arrangement of a bag of entries. */
  lemma {:induction false} SortedUnique(a: seq<Entry>, b: seq<Entry>)
    requires Sorted(a) && Sorted(b) && multiset(a) == multiset(b)
    ensures a == b
  {
    SameLength(a, b);
    if a != [] {
      SameFirst(a, b);
      WithoutFirst(a);
      WithoutFirst(b);
      SortedUnique(a[1..], b[1..]);
      assert a == [a[0]] + a[1..] && b == [b[0]] + b[1..];
    }
  }

  /** A sorted run has ascending keys, and ascending offsets among equal keys. */
  lemma SortedByKey(s: seq<Entry>, i: nat, j: nat)
    requires Sorted(s) && i < j < |s|
    ensures s[i].key <= s[j].key
    ensures s[i].key == s[j].key ==> s[i].offset <= s[j].offset
  {
    assert Leq(s[i], s[j]);
  }

  lemma SameLength(a: seq<Entry>, b: seq<Entry>)
    requires multiset(a) == multiset(b)
    ensures |a| == |b|
  {
    assert |multiset(a)| == |a| && |multiset(b)| == |b|;
  }

  lemma WithoutFirst(a: seq<Entry>)
    requires a != []
    ensures multiset(a[1..]) == multiset(a) - multiset{a[0]}
  {
    assert a == [a[0]] + a[1..];
  }

  lemma SameFirst(a: seq<Entry>, b: seq<Entry>)
    requires Sorted(a) && Sorted(b) && multiset(a) == multiset(b) && a != [] && b != []
    ensures a[0] == b[0]
  {
    assert b[0] in multiset(a) && a[0] in multiset(b);
    assert b[0] in a && a[0] in b;
  }

  function Insert(e: Entry, s: seq<Entry>): (r: seq<Entry>)
    requires Sorted(s)
    ensures Sorted(r) && multiset(r) == multiset(s) + multiset{e}
  {
    if s == [] || Leq(e, s[0]) then [e] + s
    else
      var rest := Insert(e, s[1..]);
      InsertStep(e, s, rest);
      [s[0]] + rest
  }

  lemma InsertStep(e: Entry, s: seq<Entry>, rest: seq<Entry>)
    requires Sorted(s) && s != [] && !Leq(e, s[0]) && Sorted(rest) && multiset(rest) == multiset(s[1..]) + multiset{e}
    ensures Sorted([s[0]] + rest) && multiset([s[0]] + rest) == multiset(s) + multiset{e}
  {
    assert s == [s[0]] + s[1..];
    forall i | 0 <= i < |rest| ensures Leq(s[0], rest[i]) {
      assert rest[i] in multiset(rest);
      assert rest[i] == e || rest[i] in s[1..];
    }
  }

  /** What any correct sort of entries returns. */
  function Sort(s: seq<Entry>): (r: seq<Entry>)
    ensures Sorted(r) && multiset(r) == multiset(s)
  {
    if s == [] then []
    else
      assert s == [s[0]] + s[1..];
      Insert(s[0], Sort(s[1..]))
  }

  /** The two-way merge: the left run goes first among equals. */
  function Merge(a: seq<Entry>, b: seq<Entry>): (m: seq<Entry>)
    ensures |m| == |a| + |b|
    decreases |a| + |b|
  {
    if a == [] then b
    else if b == [] then a
    else if Leq(a[0], b[0]) then [a[0]] + Merge(a[1..], b)
    else [b[0]] + Merge(a, b[1..])
  }

  lemma {:induction false} MergeBag(a: seq<Entry>, b: seq<Entry>)
    ensures multiset(Merge(a, b)) == multiset(a) + multiset(b)
    decreases |a| + |b|
  {
    if a == [] || b == [] {
    } else if Leq(a[0], b[0]) {
      MergeBag(a[1..], b);
      assert a == [a[0]] + a[1..];
    } else {
      MergeBag(a, b[1..]);
      assert b == [b[0]] + b[1..];
    }
  }

  lemma {:induction false} MergeSorted(a: seq<Entry>, b: seq<Entry>)
    requires Sorted(a) && Sorted(b)
    ensures Sorted(Merge(a, b))
    decreases |a| + |b|
  {
    if a == [] || b == [] {
    } else if Leq(a[0], b[0]) {
      MergeSorted(a[1..], b);
      PrependSorted(a[0], a[1..], b);
    } else {
      MergeSorted(a, b[1..]);
      PrependSorted(b[0], a, b[1..]);
    }
  }

  lemma PrependSorted(e: Entry, a: seq<Entry>, b: seq<Entry>)
    requires Sorted(Merge(a, b))
    requires (forall i :: 0 <= i < |a| ==> Leq(e, a[i])) && (forall i :: 0 <= i < |b| ==> Leq(e, b[i]))
    ensures Sorted([e] + Merge(a, b))
  {
    var m := Merge(a, b);
    MergeBag(a, b);
    forall i | 0 <= i < |m| ensures Leq(e, m[i]) {
      assert m[i] in multiset(m);
      assert m[i] in a || m[i] in b;
    }
  }
}
