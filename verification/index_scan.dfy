/**
 * What each scanner sends and what each assembler makes of it. A scanner routes
 * its partition of the records to the assemblers in batches; an assembler
 * collects until every scanner has said that it is done, then sorts.
 */
module IndexScan {
  import opened Wrappers
  import opened Words
  import opened IndexOrder
  import opened VerifyRuns

  /** `hash` is the key's hash; the capacities are what the mailboxes can hold. */
  datatype Config = Config(check: Check, shards: nat, batch: nat, capacity: nat, resultCapacity: nat,
                           hash: Word -> nat) {
    ghost predicate Valid() {
      check.Valid() && shards > 0 && check.assemblerCount > 0 && capacity > 0 && resultCapacity > 0
    }

    /** The logical assembler that a record's key is routed to. */
    function Route(index: Word): (a: nat)
      requires check.assemblerCount > 0
      ensures a < check.assemblerCount
    {
      hash(check.keyOf(index)) % check.assemblerCount
    }
  }

  // ----- partitions -----

  function Min(a: nat, b: nat): nat {
    if a <= b then a else b
  }

  /** The first record of a shard's partition. */
  function Start(shard: nat, shards: nat, records: nat): nat
    requires shards > 0
  {
    shard * (records / shards) + Min(shard, records % shards)
  }

  /** The record after the last one of a shard's partition. */
  function End(shard: nat, shards: nat, records: nat): nat
    requires shards > 0
  {
    Start(shard, shards, records) + records / shards + if shard < records % shards then 1 else 0
  }

  /**
   * The partitions follow each other without gap or overlap from 0 to the record count, and
   * the first ones take one more record each for what is left over.
   */
  lemma PartitionsCover(shard: nat, shards: nat, records: nat)
    requires shard < shards
    ensures Start(0, shards, records) == 0 && Start(shards, shards, records) == records
    ensures End(shard, shards, records) == Start(shard + 1, shards, records) <= records
    ensures End(shard, shards, records) - Start(shard, shards, records)
         == records / shards + if shard < records % shards then 1 else 0
  {
    var base, rest := records / shards, records % shards;
    assert records == shards * base + rest;
    assert (shard + 1) * base == shard * base + base;
    AtMost(shard + 1, shards, base);
  }

  lemma AtMost(a: nat, b: nat, base: nat)
    requires a <= b
    ensures a * base <= b * base
  {
  }

  // ----- records routed to a set of assemblers -----

  /** The entries of the records from `lo` up to `hi` that are routed into `units`, in order. */
  ghost function Routed(c: Config, lo: nat, hi: nat, units: set<nat>): seq<Entry>
    requires c.check.assemblerCount > 0 && hi <= WORD
  {
    if hi <= lo then []
    else Routed(c, lo, hi - 1, units) + if c.Route(hi - 1) in units then [c.check.Record(hi - 1)] else []
  }

  lemma {:induction false} RoutedConcat(c: Config, lo: nat, mid: nat, hi: nat, units: set<nat>)
    requires c.check.assemblerCount > 0 && lo <= mid <= hi <= WORD
    ensures Routed(c, lo, hi, units) == Routed(c, lo, mid, units) + Routed(c, mid, hi, units)
  {
    if hi > mid {
      RoutedConcat(c, lo, mid, hi - 1, units);
    }
  }

  lemma {:induction false} RoutedSplit(c: Config, hi: nat, units: set<nat>, a: nat)
    requires c.check.assemblerCount > 0 && hi <= WORD && a !in units
    ensures multiset(Routed(c, 0, hi, units + {a}))
              == multiset(Routed(c, 0, hi, units)) + multiset(Routed(c, 0, hi, {a}))
  {
    if hi > 0 {
      RoutedSplit(c, hi - 1, units, a);
    }
  }

  lemma {:induction false} RoutedAll(c: Config, hi: nat, units: set<nat>)
    requires c.check.assemblerCount > 0 && hi <= WORD && forall a :: 0 <= a < c.check.assemblerCount ==> a in units
    ensures Routed(c, 0, hi, units) == c.check.Records(hi)
  {
    if hi > 0 {
      RoutedAll(c, hi - 1, units);
      assert c.check.Records(hi) == c.check.Records(hi - 1) + [c.check.Record(hi - 1)];
    }
  }

  // ----- messages -----

  datatype Message = Batch(from: nat, entries: seq<Entry>) | ProducerDone(from: nat)

  datatype Envelope = Envelope(to: nat, message: Message)

  /** What a plan sends to one assembler, in order. */
  function SentTo(plan: seq<Envelope>, a: nat): seq<Message> {
    if plan == [] then []
    else
      var last := plan[|plan| - 1];
      SentTo(plan[..|plan| - 1], a) + if last.to == a then [last.message] else []
  }

  lemma SentToSnoc(plan: seq<Envelope>, e: Envelope, a: nat)
    ensures SentTo(plan + [e], a) == SentTo(plan, a) + if e.to == a then [e.message] else []
  {
    assert (plan + [e])[..|plan|] == plan;
  }

  /** The entries in a list of messages, in order. */
  function EntriesOf(messages: seq<Message>): seq<Entry> {
    if messages == [] then []
    else
      var last := messages[|messages| - 1];
      EntriesOf(messages[..|messages| - 1]) + if last.Batch? then last.entries else []
  }

  lemma EntriesSnoc(messages: seq<Message>, m: Message)
    ensures EntriesOf(messages + [m]) == EntriesOf(messages) + if m.Batch? then m.entries else []
  {
    assert (messages + [m])[..|messages|] == messages;
  }

  function Dones(messages: seq<Message>): nat {
    if messages == [] then 0
    else Dones(messages[..|messages| - 1]) + if messages[|messages| - 1].ProducerDone? then 1 else 0
  }

  lemma DonesSnoc(messages: seq<Message>, m: Message)
    ensures Dones(messages + [m]) == Dones(messages) + if m.ProducerDone? then 1 else 0
  {
    assert (messages + [m])[..|messages|] == messages;
  }

  // ----- the scanner -----

  /** Non-empty batches, all of the batch size except perhaps the last. */
  ghost predicate BatchesOk(c: Config, shard: nat, messages: seq<Message>) {
    forall j :: 0 <= j < |messages| ==>
      && messages[j].Batch? && messages[j].from == shard && messages[j].entries != []
      && (c.batch > 0 ==> |messages[j].entries| <= c.batch)
      && (j < |messages| - 1 ==> |messages[j].entries| == c.batch)
  }

  ghost predicate AllFull(c: Config, messages: seq<Message>) {
    forall j :: 0 <= j < |messages| ==> messages[j].Batch? && |messages[j].entries| == c.batch
  }

  /** The messages of one scanner to one assembler: its records in batches, then done. */
  ghost predicate StreamOk(c: Config, shard: nat, a: nat, messages: seq<Message>)
    requires c.Valid() && shard < c.shards
  {
    var (lo, hi) := (Start(shard, c.shards, c.check.recordCount), End(shard, c.shards, c.check.recordCount));
    && messages != []
    && messages[|messages| - 1] == ProducerDone(shard)
    && BatchesOk(c, shard, messages[..|messages| - 1])
    && hi <= WORD
    && EntriesOf(messages) == Routed(c, lo, hi, {a})
  }

  ghost predicate PlanOk(c: Config, shard: nat, plan: seq<Envelope>)
    requires c.Valid() && shard < c.shards
  {
    && (forall j :: 0 <= j < |plan| ==> plan[j].to < c.check.assemblerCount)
    && (forall a :: 0 <= a < c.check.assemblerCount ==> StreamOk(c, shard, a, SentTo(plan, a)))
  }

  /** One stream while the scanner is at record `i`: what was sent and what waits in the batch. */
  ghost predicate ScanOk(c: Config, shard: nat, lo: nat, i: nat, a: nat, sent: seq<Message>, waiting: seq<Entry>)
    requires c.Valid() && i <= WORD
  {
    && BatchesOk(c, shard, sent) && AllFull(c, sent)
    && EntriesOf(sent) + waiting == Routed(c, lo, i, {a})
    && (c.batch > 0 ==> |waiting| < c.batch)
  }

  /** A batch goes out. */
  lemma SendBatch(c: Config, shard: nat, sent: seq<Message>, entries: seq<Entry>)
    requires BatchesOk(c, shard, sent) && AllFull(c, sent) && entries != [] && (c.batch > 0 ==> |entries| <= c.batch)
    ensures BatchesOk(c, shard, sent + [Batch(shard, entries)])
    ensures |entries| == c.batch ==> AllFull(c, sent + [Batch(shard, entries)])
    ensures EntriesOf(sent + [Batch(shard, entries)]) == EntriesOf(sent) + entries
  {
    EntriesSnoc(sent, Batch(shard, entries));
  }

  /** The scanner of one shard: the messages it sends, in order. */
  method RunScanner(c: Config, shard: nat) returns (plan: seq<Envelope>)
    requires c.Valid() && shard < c.shards
    ensures PlanOk(c, shard, plan)
  {
    PartitionsCover(shard, c.shards, c.check.recordCount);
    var batches;
    plan, batches := ScanPartition(c, shard);
    ghost var scanned := plan;
    forall a | 0 <= a < |batches| ensures Scanned(c, shard, plan, batches, a) {
      assert ScanOk(c, shard, Start(shard, c.shards, c.check.recordCount), End(shard, c.shards, c.check.recordCount), a,
                    SentTo(plan, a), batches[a]);
    }
    plan := Flush(c, shard, plan, batches);
    forall a | 0 <= a < c.check.assemblerCount
      ensures FlushedOk(c, shard, SentTo(plan, a),
                        Routed(c, Start(shard, c.shards, c.check.recordCount),
                               End(shard, c.shards, c.check.recordCount), {a}))
    {
      assert FlushedOk(c, shard, SentTo(plan, a), EntriesOf(SentTo(scanned, a)) + batches[a]);
    }
    plan := SignalDone(c, shard, plan);
  }

  method ScanPartition(c: Config, shard: nat) returns (plan: seq<Envelope>, batches: seq<seq<Entry>>)
    requires c.Valid() && shard < c.shards && End(shard, c.shards, c.check.recordCount) <= c.check.recordCount
    ensures ScannedOk(c, shard, Start(shard, c.shards, c.check.recordCount),
                      End(shard, c.shards, c.check.recordCount), plan, batches)
  {
    var lo, hi := Start(shard, c.shards, c.check.recordCount), End(shard, c.shards, c.check.recordCount);
    plan := [];
    batches := seq(c.check.assemblerCount, _ => []);
    for i := lo to hi
      invariant ScannedOk(c, shard, lo, i, plan, batches)
    {
      plan, batches := ScanRecord(c, shard, lo, i, plan, batches);
    }
  }

  ghost predicate ScannedOk(c: Config, shard: nat, lo: nat, i: nat, plan: seq<Envelope>, batches: seq<seq<Entry>>)
    requires c.Valid() && i <= WORD
  {
    && |batches| == c.check.assemblerCount
    && AddressesOk(c, plan)
    && (forall a :: 0 <= a < |batches| ==> ScanOk(c, shard, lo, i, a, SentTo(plan, a), batches[a]))
  }

  /** One record joins its batch; a full batch is sent. */
  method ScanRecord(c: Config, shard: nat, ghost lo: nat, i: nat, plan: seq<Envelope>, batches: seq<seq<Entry>>)
    returns (plan': seq<Envelope>, batches': seq<seq<Entry>>)
    requires c.Valid() && lo <= i < WORD && ScannedOk(c, shard, lo, i, plan, batches)
    ensures ScannedOk(c, shard, lo, i + 1, plan', batches')
  {
    var to := c.Route(i);
    var entries := batches[to] + [c.check.Record(i)];
    if |entries| == c.batch {
      plan' := plan + [Envelope(to, Batch(shard, entries))];
      batches' := batches[to := []];
    } else {
      plan' := plan;
      batches' := batches[to := entries];
    }
    forall a | 0 <= a < |batches'| ensures ScanOk(c, shard, lo, i + 1, a, SentTo(plan', a), batches'[a]) {
      StreamSeesRecord(c, shard, lo, i, plan, batches, a);
    }
  }

  /** One record, seen from one stream. */
  lemma StreamSeesRecord(c: Config, shard: nat, lo: nat, i: nat, plan: seq<Envelope>, batches: seq<seq<Entry>>, a: nat)
    requires c.Valid() && lo <= i < WORD && ScannedOk(c, shard, lo, i, plan, batches) && a < |batches|
    ensures var to := c.Route(i);
            var entries := batches[to] + [c.check.Record(i)];
            if |entries| == c.batch then
              ScanOk(c, shard, lo, i + 1, a, SentTo(plan + [Envelope(to, Batch(shard, entries))], a),
                     batches[to := []][a])
            else ScanOk(c, shard, lo, i + 1, a, SentTo(plan, a), batches[to := entries][a])
  {
    var to := c.Route(i);
    var entries := batches[to] + [c.check.Record(i)];
    var sent, waiting := SentTo(plan, a), batches[a];
    assert ScanOk(c, shard, lo, i, a, sent, waiting);
    SentToSnoc(plan, Envelope(to, Batch(shard, entries)), a);
    if a != to {
      assert SentTo(plan + [Envelope(to, Batch(shard, entries))], a) == sent;
      ScanSkips(c, shard, lo, i, a, sent, waiting);
    } else if |entries| == c.batch {
      ScanSends(c, shard, lo, i, a, sent, waiting);
    } else {
      ScanKeeps(c, shard, lo, i, a, sent, waiting);
    }
  }

  lemma ScanSkips(c: Config, shard: nat, lo: nat, i: nat, a: nat, sent: seq<Message>, waiting: seq<Entry>)
    requires c.Valid() && lo <= i < WORD && ScanOk(c, shard, lo, i, a, sent, waiting) && c.Route(i) != a
    ensures ScanOk(c, shard, lo, i + 1, a, sent, waiting)
  {
  }

  lemma ScanKeeps(c: Config, shard: nat, lo: nat, i: nat, a: nat, sent: seq<Message>, waiting: seq<Entry>)
    requires c.Valid() && lo <= i < WORD && ScanOk(c, shard, lo, i, a, sent, waiting) && c.Route(i) == a
             && |waiting| + 1 != c.batch
    ensures ScanOk(c, shard, lo, i + 1, a, sent, waiting + [c.check.Record(i)])
  {
  }

  lemma ScanSends(c: Config, shard: nat, lo: nat, i: nat, a: nat, sent: seq<Message>, waiting: seq<Entry>)
    requires c.Valid() && lo <= i < WORD && ScanOk(c, shard, lo, i, a, sent, waiting) && c.Route(i) == a
             && |waiting| + 1 == c.batch
    ensures ScanOk(c, shard, lo, i + 1, a, sent + [Batch(shard, waiting + [c.check.Record(i)])], [])
  {
    SendBatch(c, shard, sent, waiting + [c.check.Record(i)]);
  }

  /** A stream once its waiting entries are out. */
  ghost predicate FlushedOk(c: Config, shard: nat, sent: seq<Message>, entries: seq<Entry>) {
    BatchesOk(c, shard, sent) && EntriesOf(sent) == entries
  }

  /** Stream `a` once those below `k` are flushed. */
  ghost predicate FlushedTo(c: Config, shard: nat, plan: seq<Envelope>, batches: seq<seq<Entry>>,
                            flushed: seq<Envelope>, k: nat, a: nat)
    requires a < |batches|
  {
    if a < k then FlushedOk(c, shard, SentTo(flushed, a), EntriesOf(SentTo(plan, a)) + batches[a])
    else SentTo(flushed, a) == SentTo(plan, a)
  }

  ghost predicate AddressesOk(c: Config, plan: seq<Envelope>) {
    forall j :: 0 <= j < |plan| ==> plan[j].to < c.check.assemblerCount
  }

  ghost predicate Scanned(c: Config, shard: nat, plan: seq<Envelope>, batches: seq<seq<Entry>>, a: nat)
    requires a < |batches|
  {
    BatchesOk(c, shard, SentTo(plan, a)) && AllFull(c, SentTo(plan, a)) && (c.batch > 0 ==> |batches[a]| <= c.batch)
  }

  /** The trailing partial batches. */
  method Flush(c: Config, shard: nat, plan: seq<Envelope>, batches: seq<seq<Entry>>) returns (flushed: seq<Envelope>)
    requires |batches| == c.check.assemblerCount && AddressesOk(c, plan)
    requires forall a :: 0 <= a < |batches| ==> Scanned(c, shard, plan, batches, a)
    ensures AddressesOk(c, flushed)
    ensures forall a :: 0 <= a < |batches| ==>
              FlushedOk(c, shard, SentTo(flushed, a), EntriesOf(SentTo(plan, a)) + batches[a])
  {
    flushed := plan;
    for k := 0 to |batches|
      invariant AddressesOk(c, flushed)
      invariant forall a :: 0 <= a < |batches| ==> FlushedTo(c, shard, plan, batches, flushed, k, a)
    {
      ghost var before, next := flushed, k + 1;
      assert Scanned(c, shard, plan, batches, k);
      if |batches[k]| > 0 {
        flushed := flushed + [Envelope(k, Batch(shard, batches[k]))];
      }
      forall a | 0 <= a < |batches| ensures FlushedTo(c, shard, plan, batches, flushed, next, a) {
        assert FlushedTo(c, shard, plan, batches, before, k, a);
        if a != k {
          OtherFlushed(c, shard, plan, batches, before, flushed, k, a);
        } else if batches[k] == [] {
          NothingToFlush(c, shard, plan, batches, before, k);
        } else {
          OneFlushed(c, shard, plan, batches, before, k);
        }
      }
    }
    forall a | 0 <= a < |batches|
      ensures FlushedOk(c, shard, SentTo(flushed, a), EntriesOf(SentTo(plan, a)) + batches[a])
    {
      assert FlushedTo(c, shard, plan, batches, flushed, |batches|, a);
    }
  }

  /** The flush of batch `k`, seen from another stream and from its own. */
  lemma OtherFlushed(c: Config, shard: nat, plan: seq<Envelope>, batches: seq<seq<Entry>>, before: seq<Envelope>,
                     flushed: seq<Envelope>, k: nat, a: nat)
    requires a < |batches| && a != k && FlushedTo(c, shard, plan, batches, before, k, a)
    requires || flushed == before
             || (|flushed| > 0 && flushed[|flushed| - 1].to == k && before == flushed[..|flushed| - 1])
    ensures FlushedTo(c, shard, plan, batches, flushed, k + 1, a)
  {
    assert SentTo(flushed, a) == SentTo(before, a);
  }

  lemma NothingToFlush(c: Config, shard: nat, plan: seq<Envelope>, batches: seq<seq<Entry>>, flushed: seq<Envelope>,
                       k: nat)
    requires k < |batches| && batches[k] == [] && Scanned(c, shard, plan, batches, k)
    requires FlushedTo(c, shard, plan, batches, flushed, k, k)
    ensures FlushedTo(c, shard, plan, batches, flushed, k + 1, k)
  {
    assert EntriesOf(SentTo(plan, k)) + batches[k] == EntriesOf(SentTo(plan, k));
  }

  lemma OneFlushed(c: Config, shard: nat, plan: seq<Envelope>, batches: seq<seq<Entry>>, before: seq<Envelope>, k: nat)
    requires k < |batches| && batches[k] != [] && Scanned(c, shard, plan, batches, k)
    requires FlushedTo(c, shard, plan, batches, before, k, k)
    ensures FlushedTo(c, shard, plan, batches, before + [Envelope(k, Batch(shard, batches[k]))], k + 1, k)
  {
    SentToSnoc(before, Envelope(k, Batch(shard, batches[k])), k);
    SendBatch(c, shard, SentTo(plan, k), batches[k]);
  }

  method SignalDone(c: Config, shard: nat, plan: seq<Envelope>) returns (full: seq<Envelope>)
    requires c.Valid() && shard < c.shards
    requires forall j :: 0 <= j < |plan| ==> plan[j].to < c.check.assemblerCount
    requires End(shard, c.shards, c.check.recordCount) <= WORD
    requires forall a :: 0 <= a < c.check.assemblerCount ==>
               FlushedOk(c, shard, SentTo(plan, a),
                         Routed(c, Start(shard, c.shards, c.check.recordCount),
                                End(shard, c.shards, c.check.recordCount), {a}))
    ensures PlanOk(c, shard, full)
  {
    full := plan;
    for k := 0 to c.check.assemblerCount
      invariant forall j :: 0 <= j < |full| ==> full[j].to < c.check.assemblerCount
      invariant forall a :: 0 <= a < c.check.assemblerCount ==>
                  SentTo(full, a) == SentTo(plan, a) + if a < k then [ProducerDone(shard)] else []
    {
      ghost var before := full;
      var e := Envelope(k, ProducerDone(shard));
      full := full + [e];
      forall a | 0 <= a < c.check.assemblerCount
        ensures SentTo(full, a) == SentTo(before, a) + if a == k then [e.message] else []
      {
        SentToSnoc(before, e, a);
      }
    }
    forall a | 0 <= a < c.check.assemblerCount ensures StreamOk(c, shard, a, SentTo(full, a)) {
      EntriesSnoc(SentTo(plan, a), ProducerDone(shard));
      assert SentTo(full, a)[..|SentTo(plan, a)|] == SentTo(plan, a);
    }
  }

  // ----- the assembler -----

  /**
   * The assembler's loop on the messages it will receive: it stops at the first
   * point where every producer is done, and returns nothing if the channel ends
   * before that.
   */
  method Assemble(c: Config, workUnit: nat, incoming: seq<Message>) returns (run: Option<Run>, used: nat)
    ensures used <= |incoming|
    ensures forall j :: 0 <= j < used ==> Dones(incoming[..j]) < c.shards
    ensures run.None? ==> used == |incoming| && Dones(incoming) < c.shards
    ensures run.Some? ==>
              Dones(incoming[..used]) >= c.shards && run.value == Run(workUnit, Sort(EntriesOf(incoming[..used])))
  {
    var entries := [];
    var producersDone := 0;
    used := 0;
    while producersDone < c.shards
      invariant used <= |incoming|
      invariant producersDone == Dones(incoming[..used])
      invariant entries == EntriesOf(incoming[..used])
      invariant forall j :: 0 <= j < used ==> Dones(incoming[..j]) < c.shards
      decreases |incoming| - used
    {
      if used == |incoming| {
        assert incoming[..used] == incoming;
        return None, used;
      }
      assert incoming[..used + 1] == incoming[..used] + [incoming[used]];
      EntriesSnoc(incoming[..used], incoming[used]);
      DonesSnoc(incoming[..used], incoming[used]);
      match incoming[used] {
        case Batch(_, batch) => entries := entries + batch;
        case ProducerDone(_) => producersDone := producersDone + 1;
      }
      used := used + 1;
    }
    run := Some(Run(workUnit, Sort(entries)));
  }
}
