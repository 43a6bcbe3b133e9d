/**
 * Run files: index entries as sixteen little-endian bytes each, a reader with
 * one entry of lookahead, and the two-way merge from two files into a third.
 */
module RunFiles {
  import opened Wrappers
  import opened Words
  import opened IndexOrder

  type Byte = x: int | 0 <= x < 256

  const ENTRY_SIZE: nat := 16

  // ----- words as bytes -----

  function ToBytes(x: nat, n: nat): (b: seq<Byte>)
    ensures |b| == n
  {
    if n == 0 then [] else [x % 256] + ToBytes(x / 256, n - 1)
  }

  function FromBytes(b: seq<Byte>): nat {
    if b == [] then 0 else b[0] + 256 * FromBytes(b[1..])
  }

  function Pow256(n: nat): nat {
    if n == 0 then 1 else 256 * Pow256(n - 1)
  }

  lemma {:induction false} FromToBytes(x: nat, n: nat)
    requires x < Pow256(n)
    ensures FromBytes(ToBytes(x, n)) == x
  {
    if n > 0 {
      FromToBytes(x / 256, n - 1);
    }
  }

  lemma {:induction false} ToFromBytes(b: seq<Byte>)
    ensures FromBytes(b) < Pow256(|b|) && ToBytes(FromBytes(b), |b|) == b
  {
    if b != [] {
      ToFromBytes(b[1..]);
      assert FromBytes(b) / 256 == FromBytes(b[1..]);
      assert b == [b[0]] + b[1..];
    }
  }

  lemma EightBytes()
    ensures Pow256(8) == WORD
  {
  }

  function WordBytes(x: Word): (b: seq<Byte>)
    ensures |b| == 8
  {
    ToBytes(x, 8)
  }

  function WordOf(b: seq<Byte>): Word
    requires |b| == 8
  {
    EightBytes();
    ToFromBytes(b);
    FromBytes(b)
  }

  lemma WordRoundTrip(x: Word)
    ensures WordOf(WordBytes(x)) == x
  {
    EightBytes();
    FromToBytes(x, 8);
  }

  lemma BytesRoundTrip(b: seq<Byte>)
    requires |b| == 8
    ensures WordBytes(WordOf(b)) == b
  {
    ToFromBytes(b);
  }

  // ----- entries as bytes -----

  function Encode(e: Entry): (b: seq<Byte>)
    ensures |b| == ENTRY_SIZE
  {
    WordBytes(e.key) + WordBytes(e.offset)
  }

  function Decode(b: seq<Byte>): Entry
    requires |b| == ENTRY_SIZE
  {
    Entry(WordOf(b[..8]), WordOf(b[8..]))
  }

  lemma EntryRoundTrip(e: Entry)
    ensures Decode(Encode(e)) == e
  {
    WordRoundTrip(e.key);
    WordRoundTrip(e.offset);
    assert Encode(e)[..8] == WordBytes(e.key) && Encode(e)[8..] == WordBytes(e.offset);
  }

  lemma EncodeDecode(b: seq<Byte>)
    requires |b| == ENTRY_SIZE
    ensures Encode(Decode(b)) == b
  {
    BytesRoundTrip(b[..8]);
    BytesRoundTrip(b[8..]);
  }

  lemma {:induction false} ByteAt(x: nat, n: nat, i: nat)
    requires i < n
    ensures Pow256(i) > 0 && ToBytes(x, n)[i] == x / Pow256(i) % 256
  {
    if i > 0 {
      ByteAt(x / 256, n - 1, i - 1);
      DivideTwice(x, Pow256(i - 1));
    }
  }

  lemma DivideTwice(x: nat, d: nat)
    requires d > 0
    ensures x / 256 / d == x / (256 * d)
  {
    var q, r := x / 256 / d, x / 256 % d;
    assert x / 256 == q * d + r;
    assert x == q * (256 * d) + (256 * r + x % 256);
    Quotient(x, 256 * d, q, 256 * r + x % 256);
  }

  lemma Quotient(x: nat, d: nat, q: nat, r: nat)
    requires d > 0 && r < d && x == q * d + r
    ensures x / d == q
  {
    var k := x / d - q;
    assert k * d == r - x % d;
    assert k >= 1 ==> k * d >= d;
    assert k <= -1 ==> k * d + d <= 0;
  }

  /** The format: the key, then the offset, eight bytes each, the least significant first. */
  lemma EncodedBytes(e: Entry, i: nat)
    requires i < 8
    ensures Pow256(i) > 0
    ensures Encode(e)[i] == e.key / Pow256(i) % 256 && Encode(e)[8 + i] == e.offset / Pow256(i) % 256
  {
    ByteAt(e.key, 8, i);
    ByteAt(e.offset, 8, i);
  }

  /** The file that writing the entries one after another leaves. */
  function EncodeAll(entries: seq<Entry>): (b: seq<Byte>)
    ensures |b| == ENTRY_SIZE * |entries|
  {
    if entries == [] then [] else EncodeAll(entries[..|entries| - 1]) + Encode(entries[|entries| - 1])
  }

  lemma EncodeSnoc(entries: seq<Entry>, e: Entry)
    ensures EncodeAll(entries + [e]) == EncodeAll(entries) + Encode(e)
  {
    assert (entries + [e])[..|entries|] == entries;
  }

  /** The whole entries of a file, up to a partial one at its end. */
  function DecodeAll(file: seq<Byte>): (entries: seq<Entry>)
    ensures |entries| == |file| / ENTRY_SIZE
    decreases |file|
  {
    if |file| < ENTRY_SIZE then [] else [Decode(file[..ENTRY_SIZE])] + DecodeAll(file[ENTRY_SIZE..])
  }

  predicate Whole(file: seq<Byte>) {
    |file| % ENTRY_SIZE == 0
  }

  lemma {:induction false} DecodeAt(file: seq<Byte>, i: nat)
    requires i < |file| / ENTRY_SIZE
    ensures ENTRY_SIZE * i + ENTRY_SIZE <= |file|
    ensures DecodeAll(file)[i] == Decode(file[ENTRY_SIZE * i..ENTRY_SIZE * i + ENTRY_SIZE])
    decreases i
  {
    if i > 0 {
      var rest := file[ENTRY_SIZE..];
      DecodeAt(rest, i - 1);
      assert rest[ENTRY_SIZE * (i - 1)..ENTRY_SIZE * i] == file[ENTRY_SIZE * i..ENTRY_SIZE * i + ENTRY_SIZE];
    }
  }

  lemma DecodeCons(b: seq<Byte>, rest: seq<Byte>)
    requires |b| == ENTRY_SIZE
    ensures DecodeAll(b + rest) == [Decode(b)] + DecodeAll(rest)
  {
    assert (b + rest)[..ENTRY_SIZE] == b && (b + rest)[ENTRY_SIZE..] == rest;
  }

  lemma {:induction false} DecodeAppend(file: seq<Byte>, tail: seq<Byte>)
    requires Whole(file)
    ensures DecodeAll(file + tail) == DecodeAll(file) + DecodeAll(tail)
    decreases |file|
  {
    if file == [] {
      assert file + tail == tail;
    } else {
      var b, rest := file[..ENTRY_SIZE], file[ENTRY_SIZE..];
      DecodeAppend(rest, tail);
      DecodeCons(b, rest);
      DecodeCons(b, rest + tail);
      assert file == b + rest && file + tail == b + (rest + tail);
    }
  }

  lemma DecodeOne(e: Entry)
    ensures DecodeAll(Encode(e)) == [e]
  {
    EntryRoundTrip(e);
    DecodeCons(Encode(e), []);
    assert Encode(e) + [] == Encode(e);
  }

  lemma {:induction false} DecodeEncoded(entries: seq<Entry>)
    ensures DecodeAll(EncodeAll(entries)) == entries
  {
    if entries != [] {
      var rest, last := entries[..|entries| - 1], entries[|entries| - 1];
      DecodeEncoded(rest);
      DecodeAppend(EncodeAll(rest), Encode(last));
      DecodeOne(last);
    }
  }

  /** Reading back a written run returns the same entries; bytes of an incomplete entry add none. */
  lemma WriteThenRead(entries: seq<Entry>, tail: seq<Byte>)
    requires |tail| < ENTRY_SIZE
    ensures DecodeAll(EncodeAll(entries) + tail) == entries
  {
    DecodeEncoded(entries);
    DecodeAppend(EncodeAll(entries), tail);
  }

  /** And a whole file is what writing its entries would leave. */
  lemma {:induction false} ReadThenWrite(file: seq<Byte>)
    requires Whole(file)
    ensures EncodeAll(DecodeAll(file)) == file
    decreases |file|
  {
    if file != [] {
      var k := |file| - ENTRY_SIZE;
      var front, last := file[..k], file[k..];
      ReadThenWrite(front);
      DecodeAppend(front, last);
      assert file == front + last;
      assert last[..ENTRY_SIZE] == last && DecodeAll(last) == [Decode(last)];
      EncodeSnoc(DecodeAll(front), Decode(last));
      EncodeDecode(last);
    }
  }

  // ----- reading one entry -----

  datatype Read = End | Partial | Got(entry: Entry)

  /** What a read at entry `i` finds. */
  function ReadAt(file: seq<Byte>, i: nat): Read {
    if i < |file| / ENTRY_SIZE then Got(DecodeAll(file)[i])
    else if Whole(file) then End
    else Partial
  }

  /**
   * How many bytes one call to the file returns: at least one unless the file is at its end,
   * at most what was asked.
   */
  function Chunk(pick: nat -> nat, available: nat, wanted: nat): (n: nat)
    requires wanted > 0
    ensures n <= available && n <= wanted && (n == 0 <==> available == 0)
  {
    var most := if available < wanted then available else wanted;
    var n := pick(available);
    if most == 0 then 0 else if n == 0 then 1 else if n > most then most else n
  }

  /** Reads one entry, however the file splits its bytes. */
  method ReadIndexEntry(file: seq<Byte>, pos: nat, ghost i: nat, pick: nat -> nat) returns (r: Read, pos': nat)
    requires pos == ENTRY_SIZE * i <= |file|
    ensures r == ReadAt(file, i)
    ensures r.Got? ==> pos' == pos + ENTRY_SIZE <= |file|
    ensures r.End? ==> pos' == pos
  {
    var buffer: seq<Byte> := [];
    while |buffer| < ENTRY_SIZE
      invariant |buffer| <= ENTRY_SIZE && pos + |buffer| <= |file|
      invariant buffer == file[pos..pos + |buffer|]
      decreases ENTRY_SIZE - |buffer|
    {
      var at := pos + |buffer|;
      var n := Chunk(pick, |file| - at, ENTRY_SIZE - |buffer|);
      if n == 0 {
        return if |buffer| == 0 then End else Partial, at;
      }
      buffer := buffer + file[at..at + n];
    }
    DecodeAt(file, i);
    return Got(Decode(buffer)), pos + ENTRY_SIZE;
  }

  /** A run file opened for reading, with a lookahead of one entry. */
  class RunReader {
    const file: seq<Byte>
    const pick: nat -> nat
    var pos: nat
    var peeked: Option<Read>
    ghost var index: nat

    /** `index` is the next entry to consume. */
    ghost predicate Valid()
      reads this
    {
      && index <= |file| / ENTRY_SIZE
      && (peeked.Some? ==> peeked.value == ReadAt(file, index) && !peeked.value.Partial?)
      && pos == ENTRY_SIZE * index + if peeked.Some? && peeked.value.Got? then ENTRY_SIZE else 0
    }

    constructor (file: seq<Byte>, pick: nat -> nat)
      ensures Valid() && this.file == file && index == 0
    {
      this.file, this.pick := file, pick;
      pos, peeked, index := 0, None, 0;
    }

    method Peek() returns (r: Read)
      requires Valid()
      modifies this
      ensures r == ReadAt(file, index) && index == old(index)
      ensures !r.Partial? ==> Valid() && peeked == Some(r)
    {
      if peeked.None? {
        r, pos := ReadIndexEntry(file, pos, index, pick);
        if !r.Partial? {
          peeked := Some(r);
        }
      } else {
        r := peeked.value;
      }
    }

    method Consume()
      requires Valid() && peeked.Some? && peeked.value.Got?
      modifies this
      ensures Valid() && index == old(index) + 1
    {
      peeked := None;
      index := index + 1;
    }

    /** Copies what is left; fails on a partial entry at the end. */
    method DrainInto(output: seq<Byte>, ghost written: seq<Entry>) returns (r: Option<seq<Byte>>, count: nat)
      requires Valid() && output == EncodeAll(written)
      modifies this
      ensures r == if Whole(file) then Some(EncodeAll(written + DecodeAll(file)[old(index)..])) else None
      ensures r.Some? ==> count == |DecodeAll(file)| - old(index)
    {
      var out := output;
      count := 0;
      ghost var all := DecodeAll(file);
      ghost var copied := written;
      var next := Peek();
      while next.Got?
        invariant next == ReadAt(file, index) && index <= |all|
        invariant !next.Partial? ==> Valid() && peeked == Some(next)
        invariant count == index - old(index)
        invariant copied + all[index..] == written + all[old(index)..] && out == EncodeAll(copied)
        decreases |all| - index
      {
        out := Append(out, copied, next.entry);
        MoveOver(copied, all, index);
        copied := copied + [next.entry];
        Consume();
        count := count + 1;
        next := Peek();
      }
      assert copied + all[index..] == copied;
      return if next.Partial? then None else Some(out), count;
    }
  }

  lemma MoveOver(copied: seq<Entry>, all: seq<Entry>, i: nat)
    requires i < |all|
    ensures copied + [all[i]] + all[i + 1..] == copied + all[i..]
  {
  }

  /** `write_index_entry` at the end of a file. */
  method Append(output: seq<Byte>, ghost written: seq<Entry>, e: Entry) returns (output': seq<Byte>)
    requires output == EncodeAll(written)
    ensures output' == EncodeAll(written + [e])
  {
    EncodeSnoc(written, e);
    output' := output + Encode(e);
  }

  /** `write_index_file`. */
  method WriteIndexFile(entries: seq<Entry>) returns (file: seq<Byte>)
    ensures file == EncodeAll(entries)
  {
    file := [];
    for i := 0 to |entries|
      invariant file == EncodeAll(entries[..i])
    {
      file := Append(file, entries[..i], entries[i]);
      assert entries[..i + 1] == entries[..i] + [entries[i]];
    }
    assert entries[..|entries|] == entries;
  }

  // ----- merging two files -----

  /** What `merge_run_files` leaves in its output file, and the count it returns. */
  function MergedFile(left: seq<Byte>, right: seq<Byte>): Option<(seq<Byte>, nat)> {
    Outcome(Whole(left) && Whole(right), Merge(DecodeAll(left), DecodeAll(right)))
  }

  /** `written` has the merge of `a` and `b` up to entries `i` and `j`. */
  ghost predicate Merging(a: seq<Entry>, b: seq<Entry>, i: nat, j: nat, written: seq<Entry>) {
    && i <= |a| && j <= |b|
    && written + Merge(a[i..], b[j..]) == Merge(a, b)
  }

  lemma TakeLeft(a: seq<Entry>, b: seq<Entry>, i: nat, j: nat, written: seq<Entry>)
    requires Merging(a, b, i, j, written) && i < |a| && (j < |b| ==> Leq(a[i], b[j]))
    ensures Merging(a, b, i + 1, j, written + [a[i]])
  {
    assert a[i..][1..] == a[i + 1..];
    assert Merge(a[i..], b[j..]) == [a[i]] + Merge(a[i + 1..], b[j..]) by {
      if j == |b| {
        assert a[i..] == [a[i]] + a[i + 1..];
      }
    }
    assert (written + [a[i]]) + Merge(a[i + 1..], b[j..]) == written + ([a[i]] + Merge(a[i + 1..], b[j..]));
  }

  lemma TakeRight(a: seq<Entry>, b: seq<Entry>, i: nat, j: nat, written: seq<Entry>)
    requires Merging(a, b, i, j, written) && j < |b| && (i < |a| ==> !Leq(a[i], b[j]))
    ensures Merging(a, b, i, j + 1, written + [b[j]])
  {
    assert b[j..][1..] == b[j + 1..];
    assert Merge(a[i..], b[j..]) == [b[j]] + Merge(a[i..], b[j + 1..]) by {
      if i == |a| {
        assert b[j..] == [b[j]] + b[j + 1..];
      }
    }
    assert (written + [b[j]]) + Merge(a[i..], b[j + 1..]) == written + ([b[j]] + Merge(a[i..], b[j + 1..]));
  }

  lemma OnlyLeft(a: seq<Entry>, b: seq<Entry>, i: nat, written: seq<Entry>)
    requires Merging(a, b, i, |b|, written)
    ensures Merge(a, b) == written + a[i..]
  {
    assert b[|b|..] == [];
  }

  lemma OnlyRight(a: seq<Entry>, b: seq<Entry>, j: nat, written: seq<Entry>)
    requires Merging(a, b, |a|, j, written)
    ensures Merge(a, b) == written + b[j..]
  {
    assert a[|a|..] == [];
  }

  /** The result when `all` is everything the merge writes and both files are whole or not. */
  function Outcome(whole: bool, all: seq<Entry>): Option<(seq<Byte>, nat)> {
    if whole then Some((EncodeAll(all), |all|)) else None
  }

  /** The state of the merge loop. */
  ghost predicate LoopOk(left: RunReader, right: RunReader, output: seq<Byte>, written: seq<Entry>)
    reads left, right
  {
    && left != right && left.Valid() && right.Valid()
    && Merging(DecodeAll(left.file), DecodeAll(right.file), left.index, right.index, written)
    && output == EncodeAll(written)
  }

  /** Both files have an entry: the smaller one is written, the left one among equals. */
  method WriteSmaller(left: RunReader, right: RunReader, output: seq<Byte>, ghost written: seq<Entry>)
    returns (output': seq<Byte>, ghost written': seq<Entry>)
    requires LoopOk(left, right, output, written)
    requires left.peeked.Some? && left.peeked.value.Got? && right.peeked.Some? && right.peeked.value.Got?
    modifies left, right
    ensures LoopOk(left, right, output', written') && |written'| == |written| + 1
    ensures left.index + right.index == old(left.index + right.index) + 1
  {
    var l, r := left.peeked.value.entry, right.peeked.value.entry;
    ghost var a, b := DecodeAll(left.file), DecodeAll(right.file);
    if Leq(l, r) {
      TakeLeft(a, b, left.index, right.index, written);
      output' := Append(output, written, l);
      written' := written + [l];
      left.Consume();
    } else {
      TakeRight(a, b, left.index, right.index, written);
      output' := Append(output, written, r);
      written' := written + [r];
      right.Consume();
    }
  }

  method CopyRest(reader: RunReader, output: seq<Byte>, ghost written: seq<Entry>, count: nat)
    returns (r: Option<(seq<Byte>, nat)>)
    requires reader.Valid() && output == EncodeAll(written) && count == |written|
    modifies reader
    ensures r == Outcome(Whole(reader.file), written + DecodeAll(reader.file)[old(reader.index)..])
  {
    var copied, more := reader.DrainInto(output, written);
    return if copied.Some? then Some((copied.value, count + more)) else None;
  }

  lemma EndIsWhole(reader: RunReader)
    requires reader.Valid() && reader.peeked == Some(End)
    ensures Whole(reader.file) && reader.index == |DecodeAll(reader.file)|
  {
  }

  /** One file, or both, are at the end: the rest of the other is copied. */
  method WriteRest(left: RunReader, right: RunReader, output: seq<Byte>, ghost written: seq<Entry>, count: nat)
    returns (r: Option<(seq<Byte>, nat)>)
    requires LoopOk(left, right, output, written) && count == |written|
    requires left.peeked == Some(End) || right.peeked == Some(End)
    modifies left, right
    ensures r == MergedFile(left.file, right.file)
  {
    ghost var a, b := DecodeAll(left.file), DecodeAll(right.file);
    if right.peeked == Some(End) {
      EndIsWhole(right);
      OnlyLeft(a, b, left.index, written);
      r := CopyRest(left, output, written, count);
    } else {
      EndIsWhole(left);
      OnlyRight(a, b, right.index, written);
      r := CopyRest(right, output, written, count);
    }
  }

  /** Merges two run files: succeeds exactly when neither ends in a partial entry. */
  method MergeRunFiles(leftFile: seq<Byte>, rightFile: seq<Byte>, leftPick: nat -> nat, rightPick: nat -> nat)
    returns (r: Option<(seq<Byte>, nat)>)
    ensures r == MergedFile(leftFile, rightFile)
  {
    var left := new RunReader(leftFile, leftPick);
    var right := new RunReader(rightFile, rightPick);
    var output: seq<Byte> := [];
    var count := 0;
    ghost var written: seq<Entry> := [];
    assert DecodeAll(leftFile)[0..] == DecodeAll(leftFile) && DecodeAll(rightFile)[0..] == DecodeAll(rightFile);
    while true
      invariant LoopOk(left, right, output, written) && count == |written|
      invariant left.file == leftFile && right.file == rightFile && fresh(left) && fresh(right)
      decreases |DecodeAll(leftFile)| + |DecodeAll(rightFile)| - left.index - right.index
    {
      var l := left.Peek();
      if l.Partial? {
        return None;
      }
      var e := right.Peek();
      if e.Partial? {
        return None;
      }
      if l.End? || e.End? {
        r := WriteRest(left, right, output, written, count);
        return;
      }
      output, written := WriteSmaller(left, right, output, written);
      count := count + 1;
    }
  }
}
