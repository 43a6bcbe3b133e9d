/**
 * The whole index pipeline as one machine: scanners, bounded assembler
 * mailboxes, assemblers, the bounded result mailbox and the coordinator, in any
 * interleaving. A full mailbox makes its sender wait and try again.
 */
module IndexPipeline {
  import opened Wrappers
  import opened Words
  import opened IndexOrder
  import opened HeapMerge
  import opened VerifyRuns
  import opened IndexScan

  type Plan = seq<Envelope>

  /** `pos` is per scanner; `boxes`, `taken` and `sent` are per assembler. */
  datatype State = State(
    pos: seq<nat>,
    boxes: seq<seq<Message>>,
    taken: seq<seq<Message>>,
    sent: seq<bool>,
    results: seq<Run>,
    runs: seq<Run>)

  datatype Action = SendNext(scanner: nat) | Receive(assembler: nat) | Deliver(assembler: nat) | Collect

  ghost predicate PlansOk(c: Config, plans: seq<Plan>) {
    c.Valid() && |plans| == c.shards && forall s :: 0 <= s < |plans| ==> PlanOk(c, s, plans[s])
  }

  predicate Shape(c: Config, plans: seq<Plan>, s: State) {
    && |s.pos| == |plans|
    && |s.boxes| == |s.taken| == |s.sent| == c.check.assemblerCount
  }

  function Init(c: Config, plans: seq<Plan>): State {
    var a := c.check.assemblerCount;
    State(seq(|plans|, _ => 0), seq(a, _ => []), seq(a, _ => []), seq(a, _ => false), [], [])
  }

  /** The run that an assembler sends. */
  function RunOf(a: nat, taken: seq<Message>): Run {
    Run(a, Sort(EntriesOf(taken)))
  }

  function Next(c: Config, plans: seq<Plan>, s: State, action: Action): Option<State>
    requires Shape(c, plans, s)
  {
    match action
    case SendNext(i) =>
      if i >= |plans| || s.pos[i] >= |plans[i]| then None
      else
        var e := plans[i][s.pos[i]];
        if e.to >= |s.boxes| || |s.boxes[e.to]| >= c.capacity then None
        else Some(s.(pos := s.pos[i := s.pos[i] + 1], boxes := s.boxes[e.to := s.boxes[e.to] + [e.message]]))
    case Receive(a) =>
      if a >= |s.boxes| || Dones(s.taken[a]) >= c.shards || s.boxes[a] == [] then None
      else Some(s.(boxes := s.boxes[a := s.boxes[a][1..]], taken := s.taken[a := s.taken[a] + [s.boxes[a][0]]]))
    case Deliver(a) =>
      if a >= |s.boxes| || Dones(s.taken[a]) < c.shards || s.sent[a] || |s.results| >= c.resultCapacity then None
      else Some(s.(sent := s.sent[a := true], results := s.results + [RunOf(a, s.taken[a])]))
    case Collect =>
      if |s.runs| >= c.check.assemblerCount || s.results == [] then None
      else Some(s.(results := s.results[1..], runs := s.runs + [s.results[0]]))
  }

  function Exec(c: Config, plans: seq<Plan>, trace: seq<Action>): (r: Option<State>)
    ensures r.Some? ==> Shape(c, plans, r.value)
  {
    if trace == [] then Some(Init(c, plans))
    else
      match Exec(c, plans, trace[..|trace| - 1])
      case None => None
      case Some(s) => Next(c, plans, s, trace[|trace| - 1])
  }

  // ----- messages by sender -----

  function From(messages: seq<Message>, s: nat): seq<Message> {
    if messages == [] then []
    else
      var last := messages[|messages| - 1];
      From(messages[..|messages| - 1], s) + if last.from == s then [last] else []
  }

  lemma FromSnoc(messages: seq<Message>, m: Message, s: nat)
    ensures From(messages + [m], s) == if m.from == s then From(messages, s) + [m] else From(messages, s)
  {
    assert (messages + [m])[..|messages|] == messages;
  }

  lemma {:induction false} FromConcat(a: seq<Message>, b: seq<Message>, s: nat)
    ensures From(a + b, s) == From(a, s) + From(b, s)
  {
    if b == [] {
      assert a + b == a;
    } else {
      var rest, last := b[..|b| - 1], b[|b| - 1];
      FromConcat(a, rest, s);
      assert (a + b)[..|a + b| - 1] == a + rest;
    }
  }

  /** The entries from each of `n` scanners. */
  ghost function EntryParts(messages: seq<Message>, n: nat): seq<multiset<Entry>> {
    seq(n, s requires 0 <= s < n => multiset(EntriesOf(From(messages, s))))
  }

  /** The done messages from each of `n` scanners. */
  ghost function DoneParts(messages: seq<Message>, n: nat): seq<nat> {
    seq(n, s requires 0 <= s < n => Dones(From(messages, s)))
  }

  ghost function Union(parts: seq<multiset<Entry>>): multiset<Entry> {
    if parts == [] then multiset{} else Union(parts[..|parts| - 1]) + parts[|parts| - 1]
  }

  function Sum(parts: seq<nat>): nat {
    if parts == [] then 0 else Sum(parts[..|parts| - 1]) + parts[|parts| - 1]
  }

  lemma {:induction false} UnionUpdate(parts: seq<multiset<Entry>>, k: nat, more: multiset<Entry>)
    requires k < |parts|
    ensures Union(parts[k := parts[k] + more]) == Union(parts) + more
  {
    var last := |parts| - 1;
    if k == last {
      assert parts[k := parts[k] + more][..last] == parts[..last];
    } else {
      assert parts[k := parts[k] + more][..last] == parts[..last][k := parts[k] + more];
      UnionUpdate(parts[..last], k, more);
    }
  }

  lemma {:induction false} SumUpdate(parts: seq<nat>, k: nat, value: nat)
    requires k < |parts|
    ensures Sum(parts[k := value]) == Sum(parts) - parts[k] + value
  {
    var last := |parts| - 1;
    if k == last {
      assert parts[k := value][..last] == parts[..last];
    } else {
      assert parts[k := value][..last] == parts[..last][k := value];
      SumUpdate(parts[..last], k, value);
    }
  }

  lemma {:induction false} UnionOfNothing(parts: seq<multiset<Entry>>)
    requires forall i :: 0 <= i < |parts| ==> parts[i] == multiset{}
    ensures Union(parts) == multiset{}
  {
    if parts != [] {
      UnionOfNothing(parts[..|parts| - 1]);
    }
  }

  /** If each part is at most one and all together are the number of parts, each is one. */
  lemma {:induction false} EachOnce(parts: seq<nat>)
    requires forall i :: 0 <= i < |parts| ==> parts[i] <= 1
    ensures Sum(parts) <= |parts|
    ensures Sum(parts) == |parts| <==> forall i :: 0 <= i < |parts| ==> parts[i] == 1
  {
    if parts != [] {
      EachOnce(parts[..|parts| - 1]);
    }
  }

  lemma {:induction false} SumOfZeros(parts: seq<nat>)
    requires forall i :: 0 <= i < |parts| ==> parts[i] == 0
    ensures Sum(parts) == 0
  {
    if parts != [] {
      SumOfZeros(parts[..|parts| - 1]);
    }
  }

  function Carried(m: Message): multiset<Entry> {
    if m.Batch? then multiset(m.entries) else multiset{}
  }

  lemma EntriesOfSender(messages: seq<Message>, m: Message, s: nat)
    ensures multiset(EntriesOf(From(messages + [m], s)))
         == if m.from == s then multiset(EntriesOf(From(messages, s))) + Carried(m)
           else multiset(EntriesOf(From(messages, s)))
  {
    FromSnoc(messages, m, s);
    EntriesSnoc(From(messages, s), m);
  }

  lemma DonesOfSender(messages: seq<Message>, m: Message, s: nat)
    ensures Dones(From(messages + [m], s))
         == if m.from == s then Dones(From(messages, s)) + Counted(m) else Dones(From(messages, s))
  {
    FromSnoc(messages, m, s);
    DonesSnoc(From(messages, s), m);
  }

  function Counted(m: Message): nat {
    if m.ProducerDone? then 1 else 0
  }

  /** One more message changes only its sender's parts. */
  lemma EntryPartsSnoc(messages: seq<Message>, m: Message, n: nat)
    requires m.from < n
    ensures var parts := EntryParts(messages, n);
            EntryParts(messages + [m], n) == parts[m.from := parts[m.from] + Carried(m)]
  {
    var parts, more := EntryParts(messages, n), EntryParts(messages + [m], n);
    forall s | 0 <= s < n ensures more[s] == parts[m.from := parts[m.from] + Carried(m)][s] {
      EntriesOfSender(messages, m, s);
    }
  }

  lemma DonePartsSnoc(messages: seq<Message>, m: Message, n: nat)
    requires m.from < n
    ensures var parts := DoneParts(messages, n);
            DoneParts(messages + [m], n) == parts[m.from := parts[m.from] + Counted(m)]
  {
    var parts, more := DoneParts(messages, n), DoneParts(messages + [m], n);
    forall s | 0 <= s < n ensures more[s] == parts[m.from := parts[m.from] + Counted(m)][s] {
      DonesOfSender(messages, m, s);
    }
  }

  /** The messages hold what they hold from each of `n` scanners. */
  ghost predicate SplitsEntries(messages: seq<Message>, n: nat) {
    multiset(EntriesOf(messages)) == Union(EntryParts(messages, n))
  }

  ghost predicate SplitsDones(messages: seq<Message>, n: nat) {
    Dones(messages) == Sum(DoneParts(messages, n))
  }

  lemma NothingSplits(n: nat)
    ensures SplitsEntries([], n) && SplitsDones([], n)
  {
    UnionOfNothing(EntryParts([], n));
    SumOfZeros(DoneParts([], n));
  }

  lemma EntriesStep(messages: seq<Message>, m: Message, n: nat)
    requires m.from < n && SplitsEntries(messages, n)
    ensures SplitsEntries(messages + [m], n)
  {
    EntriesSnoc(messages, m);
    EntryPartsSnoc(messages, m, n);
    UnionUpdate(EntryParts(messages, n), m.from, Carried(m));
  }

  lemma DonesStep(messages: seq<Message>, m: Message, n: nat)
    requires m.from < n && SplitsDones(messages, n)
    ensures SplitsDones(messages + [m], n)
  {
    DonesSnoc(messages, m);
    DonePartsSnoc(messages, m, n);
    SumUpdate(DoneParts(messages, n), m.from, DoneParts(messages, n)[m.from] + Counted(m));
  }

  lemma {:induction false} SplitBySender(messages: seq<Message>, n: nat)
    requires forall j :: 0 <= j < |messages| ==> messages[j].from < n
    ensures SplitsEntries(messages, n) && SplitsDones(messages, n)
  {
    if messages == [] {
      NothingSplits(n);
    } else {
      var rest, last := messages[..|messages| - 1], messages[|messages| - 1];
      SplitBySender(rest, n);
      EntriesStep(rest, last, n);
      DonesStep(rest, last, n);
      assert messages == rest + [last];
    }
  }

  // ----- prefixes of a stream -----

  lemma {:induction false} SentToMonotone(plan: Plan, i: nat, j: nat, a: nat)
    requires i <= j <= |plan|
    ensures SentTo(plan[..i], a) <= SentTo(plan[..j], a)
  {
    if i < j {
      SentToMonotone(plan, i, j - 1, a);
      assert plan[..j] == plan[..j - 1] + [plan[j - 1]];
      SentToSnoc(plan[..j - 1], plan[j - 1], a);
    }
  }

  lemma {:induction false} NoDones(messages: seq<Message>)
    requires forall j :: 0 <= j < |messages| ==> messages[j].Batch?
    ensures Dones(messages) == 0
  {
    if messages != [] {
      NoDones(messages[..|messages| - 1]);
    }
  }

  /** A prefix of a complete stream has at most one done message, and exactly one when it is all of the stream. */
  lemma PrefixOfStream(c: Config, s: nat, a: nat, stream: seq<Message>, prefix: seq<Message>)
    requires c.Valid() && s < c.shards && StreamOk(c, s, a, stream) && prefix <= stream
    ensures Dones(prefix) <= 1
    ensures Dones(prefix) == 1 <==> prefix == stream
  {
    var last := |stream| - 1;
    if prefix == stream {
      NoDones(stream[..last]);
    } else {
      assert forall j :: 0 <= j < |prefix| ==> prefix[j] == stream[..last][j];
      NoDones(prefix);
    }
  }

  // ----- what every step keeps -----

  /** Everything a scanner has sent to an assembler has been taken or is in the mailbox, in order. */
  ghost predicate StreamsOk(c: Config, plans: seq<Plan>, pos: seq<nat>, boxes: seq<seq<Message>>,
                            taken: seq<seq<Message>>)
  {
    && |pos| == |plans| && |boxes| == |taken| == c.check.assemblerCount
    && (forall s :: 0 <= s < |plans| ==> pos[s] <= |plans[s]|)
    && (forall a, s :: 0 <= a < |boxes| && 0 <= s < |plans| ==>
          From(taken[a] + boxes[a], s) == SentTo(plans[s][..pos[s]], a))
    && (forall a, j :: 0 <= a < |boxes| && 0 <= j < |boxes[a]| ==> boxes[a][j].from < c.shards)
    && (forall a, j :: 0 <= a < |taken| && 0 <= j < |taken[a]| ==> taken[a][j].from < c.shards)
  }

  ghost function SentUnits(sent: seq<bool>): set<nat> {
    set a | 0 <= a < |sent| && sent[a]
  }

  /** The runs sent so far are one for each assembler that has sent, and hold what it had taken. */
  ghost predicate OutputsOk(c: Config, taken: seq<seq<Message>>, sent: seq<bool>, outputs: seq<Run>) {
    && |taken| == |sent|
    && multiset(WorkUnits(outputs)) == multiset(SentUnits(sent))
    && (forall k :: 0 <= k < |outputs| ==>
          outputs[k].workUnit < |taken| && outputs[k] == RunOf(outputs[k].workUnit, taken[outputs[k].workUnit]))
    && (forall a :: 0 <= a < |sent| && sent[a] ==> Dones(taken[a]) >= c.shards)
  }

  ghost predicate Inv(c: Config, plans: seq<Plan>, s: State) {
    && Shape(c, plans, s)
    && StreamsOk(c, plans, s.pos, s.boxes, s.taken)
    && OutputsOk(c, s.taken, s.sent, s.runs + s.results)
  }

  lemma InitInv(c: Config, plans: seq<Plan>)
    requires PlansOk(c, plans)
    ensures Inv(c, plans, Init(c, plans))
  {
    var s := Init(c, plans);
    assert SentUnits(s.sent) == {};
    assert WorkUnits(s.runs + s.results) == [];
  }

  /** Each message of a plan comes from its own scanner. */
  lemma PlanMessage(c: Config, s: nat, plan: Plan, j: nat)
    requires c.Valid() && s < c.shards && PlanOk(c, s, plan) && j < |plan|
    ensures plan[j].to < c.check.assemblerCount && plan[j].message.from == s
  {
    var a := plan[j].to;
    var stream := SentTo(plan, a);
    assert StreamOk(c, s, a, stream);
    assert plan[..j + 1] == plan[..j] + [plan[j]];
    SentToSnoc(plan[..j], plan[j], a);
    SentToMonotone(plan, j + 1, |plan|, a);
    assert plan[..|plan|] == plan;
    var k := |SentTo(plan[..j], a)|;
    assert stream[k] == plan[j].message;
    if k < |stream| - 1 {
      assert stream[..|stream| - 1][k] == stream[k];
    }
  }

  lemma SendKeepsStreams(c: Config, plans: seq<Plan>, s: State, i: nat)
    requires PlansOk(c, plans) && Inv(c, plans, s) && Next(c, plans, s, SendNext(i)).Some?
    ensures var s' := Next(c, plans, s, SendNext(i)).value; StreamsOk(c, plans, s'.pos, s'.boxes, s'.taken)
  {
    var s' := Next(c, plans, s, SendNext(i)).value;
    var e := plans[i][s.pos[i]];
    PlanMessage(c, i, plans[i], s.pos[i]);
    assert plans[i][..s.pos[i] + 1] == plans[i][..s.pos[i]] + [e];
    forall a, k | 0 <= a < |s.boxes| && 0 <= k < |plans|
      ensures From(s.taken[a] + s'.boxes[a], k) == SentTo(plans[k][..s'.pos[k]], a)
    {
      if a == e.to {
        assert s.taken[a] + s'.boxes[a] == (s.taken[a] + s.boxes[a]) + [e.message];
        FromSnoc(s.taken[a] + s.boxes[a], e.message, k);
      }
      SentToSnoc(plans[i][..s.pos[i]], e, a);
    }
  }

  lemma ReceiveKeepsStreams(c: Config, plans: seq<Plan>, s: State, a: nat)
    requires Inv(c, plans, s) && Next(c, plans, s, Receive(a)).Some?
    ensures var s' := Next(c, plans, s, Receive(a)).value; StreamsOk(c, plans, s'.pos, s'.boxes, s'.taken)
  {
    var s' := Next(c, plans, s, Receive(a)).value;
    assert s'.taken[a] + s'.boxes[a] == s.taken[a] + s.boxes[a];
  }

  lemma OneMore(units: set<nat>, u: nat)
    requires u !in units
    ensures multiset(units + {u}) == multiset(units) + multiset{u}
  {
  }

  lemma UnitsGrow(sent: seq<bool>, outputs: seq<Run>, run: Run)
    requires multiset(WorkUnits(outputs)) == multiset(SentUnits(sent)) && run.workUnit < |sent| && !sent[run.workUnit]
    ensures multiset(WorkUnits(outputs + [run])) == multiset(SentUnits(sent[run.workUnit := true]))
  {
    var a := run.workUnit;
    assert WorkUnits(outputs + [run]) == WorkUnits(outputs) + [a];
    assert SentUnits(sent[a := true]) == SentUnits(sent) + {a};
    OneMore(SentUnits(sent), a);
  }

  lemma DeliverKeepsOutputs(c: Config, taken: seq<seq<Message>>, sent: seq<bool>, outputs: seq<Run>, a: nat)
    requires OutputsOk(c, taken, sent, outputs) && a < |sent| && !sent[a] && Dones(taken[a]) >= c.shards
    ensures OutputsOk(c, taken, sent[a := true], outputs + [RunOf(a, taken[a])])
  {
    UnitsGrow(sent, outputs, RunOf(a, taken[a]));
  }

  /** An assembler that still receives has not sent a run. */
  lemma ReceiveKeepsOutputs(c: Config, taken: seq<seq<Message>>, sent: seq<bool>, outputs: seq<Run>, a: nat, m: Message)
    requires OutputsOk(c, taken, sent, outputs) && a < |taken| && Dones(taken[a]) < c.shards
    ensures OutputsOk(c, taken[a := taken[a] + [m]], sent, outputs)
  {
    forall k | 0 <= k < |outputs| ensures outputs[k].workUnit != a {
      assert WorkUnits(outputs)[k] in multiset(WorkUnits(outputs));
    }
  }

  lemma StepKeepsInv(c: Config, plans: seq<Plan>, s: State, action: Action)
    requires PlansOk(c, plans) && Inv(c, plans, s) && Next(c, plans, s, action).Some?
    ensures Inv(c, plans, Next(c, plans, s, action).value)
  {
    match action {
      case SendNext(i) => SendKeepsStreams(c, plans, s, i);
      case Receive(a) => ReceiveKeepsInv(c, plans, s, a);
      case Deliver(a) => DeliverKeepsInv(c, plans, s, a);
      case Collect => CollectKeepsInv(c, plans, s);
    }
  }

  lemma ReceiveKeepsInv(c: Config, plans: seq<Plan>, s: State, a: nat)
    requires PlansOk(c, plans) && Inv(c, plans, s) && Next(c, plans, s, Receive(a)).Some?
    ensures Inv(c, plans, Next(c, plans, s, Receive(a)).value)
  {
    ReceiveKeepsStreams(c, plans, s, a);
    ReceiveKeepsOutputs(c, s.taken, s.sent, s.runs + s.results, a, s.boxes[a][0]);
  }

  lemma DeliverKeepsInv(c: Config, plans: seq<Plan>, s: State, a: nat)
    requires Inv(c, plans, s) && Next(c, plans, s, Deliver(a)).Some?
    ensures Inv(c, plans, Next(c, plans, s, Deliver(a)).value)
  {
    var s' := Next(c, plans, s, Deliver(a)).value;
    DeliverKeepsOutputs(c, s.taken, s.sent, s.runs + s.results, a);
    assert s'.runs + s'.results == (s.runs + s.results) + [RunOf(a, s.taken[a])];
  }

  lemma CollectKeepsInv(c: Config, plans: seq<Plan>, s: State)
    requires Inv(c, plans, s) && Next(c, plans, s, Collect).Some?
    ensures Inv(c, plans, Next(c, plans, s, Collect).value)
  {
    var s' := Next(c, plans, s, Collect).value;
    assert s'.runs + s'.results == s.runs + s.results;
  }

  lemma {:induction false} Reachable(c: Config, plans: seq<Plan>, trace: seq<Action>)
    requires PlansOk(c, plans) && Exec(c, plans, trace).Some?
    ensures Inv(c, plans, Exec(c, plans, trace).value)
  {
    if trace == [] {
      InitInv(c, plans);
    } else {
      Reachable(c, plans, trace[..|trace| - 1]);
      StepKeepsInv(c, plans, Exec(c, plans, trace[..|trace| - 1]).value, trace[|trace| - 1]);
    }
  }

  // ----- an assembler that has counted every producer has everything -----

  /** What an assembler has from one scanner is a prefix of that scanner's stream. */
  lemma TakenIsPrefix(c: Config, plans: seq<Plan>, s: State, a: nat, k: nat)
    requires PlansOk(c, plans) && Inv(c, plans, s) && a < |s.taken| && k < |plans|
    ensures StreamOk(c, k, a, SentTo(plans[k], a))
    ensures From(s.taken[a], k) + From(s.boxes[a], k) == SentTo(plans[k][..s.pos[k]], a) <= SentTo(plans[k], a)
    ensures From(s.taken[a], k) <= SentTo(plans[k], a)
    ensures s.pos[k] == |plans[k]| ==> From(s.taken[a], k) + From(s.boxes[a], k) == SentTo(plans[k], a)
  {
    assert PlanOk(c, k, plans[k]);
    FromConcat(s.taken[a], s.boxes[a], k);
    SentToMonotone(plans[k], s.pos[k], |plans[k]|, a);
    assert plans[k][..|plans[k]|] == plans[k];
  }

  lemma DonesAtMostOnce(c: Config, plans: seq<Plan>, s: State, a: nat)
    requires PlansOk(c, plans) && Inv(c, plans, s) && a < |s.taken|
    ensures Dones(s.taken[a]) == Sum(DoneParts(s.taken[a], c.shards)) <= c.shards
    ensures Dones(s.taken[a]) == c.shards <==>
              forall k :: 0 <= k < c.shards ==> From(s.taken[a], k) == SentTo(plans[k], a)
  {
    var parts := DoneParts(s.taken[a], c.shards);
    SplitBySender(s.taken[a], c.shards);
    forall k | 0 <= k < c.shards
      ensures parts[k] <= 1 && (parts[k] == 1 <==> From(s.taken[a], k) == SentTo(plans[k], a))
    {
      TakenIsPrefix(c, plans, s, a, k);
      PrefixOfStream(c, k, a, SentTo(plans[k], a), From(s.taken[a], k));
    }
    EachOnce(parts);
  }

  lemma LastHasSender(messages: seq<Message>)
    requires messages != []
    ensures From(messages, messages[|messages| - 1].from) != []
  {
  }

  lemma NothingFromAnyone(messages: seq<Message>, n: nat)
    requires forall j :: 0 <= j < |messages| ==> messages[j].from < n
    requires forall k :: 0 <= k < n ==> From(messages, k) == []
    ensures messages == []
  {
    if messages != [] {
      LastHasSender(messages);
    }
  }

  /** Adjacent ranges unite. */
  lemma {:induction false} RangesUnite(c: Config, a: nat, bounds: seq<nat>, parts: seq<multiset<Entry>>)
    requires c.Valid() && |bounds| == |parts| + 1 && bounds[0] == 0
    requires forall k :: 0 <= k < |bounds| ==> bounds[k] <= WORD
    requires forall k :: 0 <= k < |parts| ==>
               bounds[k] <= bounds[k + 1] && parts[k] == multiset(Routed(c, bounds[k], bounds[k + 1], {a}))
    ensures Union(parts) == multiset(Routed(c, 0, bounds[|parts|], {a}))
  {
    if parts != [] {
      var k := |parts| - 1;
      RangesUnite(c, a, bounds[..k + 1], parts[..k]);
      RoutedConcat(c, 0, bounds[k], bounds[k + 1], {a});
    }
  }

  /** When an assembler has counted every producer, it holds all its entries and its mailbox is empty. */
  lemma AllProducersDone(c: Config, plans: seq<Plan>, s: State, a: nat)
    requires PlansOk(c, plans) && Inv(c, plans, s) && a < |s.taken| && Dones(s.taken[a]) >= c.shards
    ensures forall k :: 0 <= k < c.shards ==> From(s.taken[a], k) == SentTo(plans[k], a)
    ensures s.boxes[a] == []
    ensures multiset(EntriesOf(s.taken[a])) == multiset(Routed(c, 0, c.check.recordCount, {a}))
  {
    DonesAtMostOnce(c, plans, s, a);
    forall k | 0 <= k < c.shards ensures From(s.boxes[a], k) == [] {
      TakenIsPrefix(c, plans, s, a, k);
    }
    NothingFromAnyone(s.boxes[a], c.shards);
    EverythingRouted(c, plans, s, a);
  }

  /** Where the partitions begin, and where the last one ends. */
  ghost function Bounds(c: Config): seq<nat>
    requires c.shards > 0
  {
    seq(c.shards + 1, k requires 0 <= k <= c.shards => Start(k, c.shards, c.check.recordCount))
  }

  ghost predicate BoundOk(bounds: seq<nat>, records: nat, k: nat)
    requires k < |bounds|
  {
    && bounds[k] <= records
    && (k == 0 ==> bounds[k] == 0)
    && (k == |bounds| - 1 ==> bounds[k] == records)
    && (k < |bounds| - 1 ==> bounds[k] <= bounds[k + 1])
  }

  lemma StartsAscend(k: nat, shards: nat, records: nat)
    requires k <= shards && shards > 0
    ensures Start(k, shards, records) <= records
    ensures k == 0 ==> Start(k, shards, records) == 0
    ensures k == shards ==> Start(k, shards, records) == records
    ensures k < shards ==> Start(k, shards, records) <= Start(k + 1, shards, records)
  {
    PartitionsCover(if k < shards then k else k - 1, shards, records);
  }

  lemma BoundAt(c: Config, k: nat)
    requires c.shards > 0 && k <= c.shards
    ensures BoundOk(Bounds(c), c.check.recordCount, k)
  {
    StartsAscend(k, c.shards, c.check.recordCount);
  }

  lemma Ascending(bounds: seq<nat>, records: nat)
    requires |bounds| > 1 && records <= WORD
    requires forall k :: 0 <= k < |bounds| ==> BoundOk(bounds, records, k)
    ensures bounds[0] == 0 && bounds[|bounds| - 1] == records
    ensures forall k :: 0 <= k < |bounds| - 1 ==> bounds[k] <= bounds[k + 1]
    ensures forall k :: 0 <= k < |bounds| ==> bounds[k] <= WORD
  {
    assert BoundOk(bounds, records, 0) && BoundOk(bounds, records, |bounds| - 1);
    forall k | 0 <= k < |bounds|
      ensures bounds[k] <= WORD && (k < |bounds| - 1 ==> bounds[k] <= bounds[k + 1])
    {
      assert BoundOk(bounds, records, k);
    }
  }

  lemma BoundsOk(c: Config)
    requires c.Valid()
    ensures var bounds := Bounds(c);
            && bounds[0] == 0 && bounds[c.shards] == c.check.recordCount
            && (forall k :: 0 <= k < c.shards ==> bounds[k] <= bounds[k + 1])
            && (forall k :: 0 <= k < |bounds| ==> bounds[k] <= WORD)
  {
    forall k | 0 <= k <= c.shards ensures BoundOk(Bounds(c), c.check.recordCount, k) {
      BoundAt(c, k);
    }
    Ascending(Bounds(c), c.check.recordCount);
  }

  lemma EverythingRouted(c: Config, plans: seq<Plan>, s: State, a: nat)
    requires PlansOk(c, plans) && Inv(c, plans, s) && a < |s.taken|
    requires forall k :: 0 <= k < c.shards ==> From(s.taken[a], k) == SentTo(plans[k], a)
    ensures multiset(EntriesOf(s.taken[a])) == multiset(Routed(c, 0, c.check.recordCount, {a}))
  {
    var parts := EntryParts(s.taken[a], c.shards);
    var bounds := Bounds(c);
    BoundsOk(c);
    SplitBySender(s.taken[a], c.shards);
    forall k | 0 <= k < c.shards ensures parts[k] == multiset(Routed(c, bounds[k], bounds[k + 1], {a})) {
      PartIsRouted(c, plans, s, a, k, bounds[k], bounds[k + 1]);
    }
    RangesUnite(c, a, bounds, parts);
  }

  lemma PartIsRouted(c: Config, plans: seq<Plan>, s: State, a: nat, k: nat, lo: nat, hi: nat)
    requires PlansOk(c, plans) && Inv(c, plans, s) && a < |s.taken| && k < c.shards
    requires From(s.taken[a], k) == SentTo(plans[k], a)
    requires lo == Bounds(c)[k] && hi == Bounds(c)[k + 1] && hi <= WORD
    ensures EntriesOf(From(s.taken[a], k)) == Routed(c, lo, hi, {a})
  {
    TakenIsPrefix(c, plans, s, a, k);
    PartitionsCover(k, c.shards, c.check.recordCount);
  }

  // ----- progress -----

  /** A scanner's next message goes to an assembler that is still collecting. */
  lemma NextIsExpected(c: Config, plans: seq<Plan>, s: State, i: nat)
    requires PlansOk(c, plans) && Inv(c, plans, s) && i < |plans| && s.pos[i] < |plans[i]|
    ensures plans[i][s.pos[i]].to < |s.taken| && Dones(s.taken[plans[i][s.pos[i]].to]) < c.shards
  {
    var e := plans[i][s.pos[i]];
    PlanMessage(c, i, plans[i], s.pos[i]);
    SentToMonotone(plans[i], s.pos[i] + 1, |plans[i]|, e.to);
    assert plans[i][..|plans[i]|] == plans[i];
    assert plans[i][..s.pos[i] + 1] == plans[i][..s.pos[i]] + [e];
    SentToSnoc(plans[i][..s.pos[i]], e, e.to);
    TakenIsPrefix(c, plans, s, e.to, i);
    assert From(s.taken[e.to], i) != SentTo(plans[i], e.to);
    DonesAtMostOnce(c, plans, s, e.to);
  }

  /** An assembler that waits on an empty mailbox waits for some scanner. */
  lemma SomeScannerUnfinished(c: Config, plans: seq<Plan>, s: State, a: nat) returns (i: nat)
    requires PlansOk(c, plans) && Inv(c, plans, s) && a < |s.taken| && s.boxes[a] == [] && Dones(s.taken[a]) < c.shards
    ensures i < |plans| && s.pos[i] < |plans[i]|
  {
    DonesAtMostOnce(c, plans, s, a);
    i :| 0 <= i < c.shards && From(s.taken[a], i) != SentTo(plans[i], a);
    TakenIsPrefix(c, plans, s, a, i);
    assert From(s.boxes[a], i) == [];
  }

  function Range(n: nat): (r: set<nat>)
    ensures forall i :: i in r <==> 0 <= i < n
  {
    if n == 0 then {} else Range(n - 1) + {n - 1}
  }

  lemma {:induction false} RangeSize(n: nat)
    ensures |Range(n)| == n
  {
    if n > 0 {
      RangeSize(n - 1);
    }
  }

  lemma {:induction false} RangeBag(n: nat)
    ensures multiset(UpTo(n)) == multiset(Range(n))
  {
    if n > 0 {
      RangeBag(n - 1);
      assert UpTo(n) == UpTo(n - 1) + [n - 1];
      OneMore(Range(n - 1), n - 1);
    }
  }

  lemma {:induction false} SubsetSize(a: set<nat>, b: set<nat>)
    requires a <= b
    ensures |a| <= |b| && (|a| == |b| ==> a == b)
  {
    if a != {} {
      var x :| x in a;
      SubsetSize(a - {x}, b - {x});
      assert a == (a - {x}) + {x} && b == (b - {x}) + {x};
    }
  }

  lemma OutputsCount(c: Config, plans: seq<Plan>, s: State)
    requires Inv(c, plans, s)
    ensures |s.runs| + |s.results| == |SentUnits(s.sent)| <= |s.sent|
    ensures |SentUnits(s.sent)| == |s.sent| ==> SentUnits(s.sent) == Range(|s.sent|)
  {
    assert |multiset(WorkUnits(s.runs + s.results))| == |s.runs + s.results|;
    RangeSize(|s.sent|);
    SubsetSize(SentUnits(s.sent), Range(|s.sent|));
  }

  lemma SomeUnsent(c: Config, plans: seq<Plan>, s: State) returns (a: nat)
    requires Inv(c, plans, s) && |s.runs| + |s.results| < |s.sent|
    ensures a < |s.sent| && !s.sent[a]
  {
    OutputsCount(c, plans, s);
    RangeSize(|s.sent|);
    assert SentUnits(s.sent) != Range(|s.sent|);
    a :| 0 <= a < |s.sent| && a !in SentUnits(s.sent);
  }

  lemma SomeStepIsEnabled(c: Config, plans: seq<Plan>, s: State) returns (action: Action)
    requires PlansOk(c, plans) && Inv(c, plans, s) && |s.runs| < c.check.assemblerCount
    ensures Next(c, plans, s, action).Some?
  {
    if s.results != [] {
      return Collect;
    }
    var a := SomeUnsent(c, plans, s);
    if Dones(s.taken[a]) >= c.shards {
      return Deliver(a);
    }
    if s.boxes[a] != [] {
      return Receive(a);
    }
    var i := SomeScannerUnfinished(c, plans, s, a);
    NextIsExpected(c, plans, s, i);
    var to := plans[i][s.pos[i]].to;
    return if s.boxes[to] == [] then SendNext(i) else Receive(to);
  }

  function Left(plans: seq<Plan>, pos: seq<nat>): seq<nat>
    requires |pos| == |plans|
  {
    seq(|plans|, i requires 0 <= i < |plans| => if pos[i] <= |plans[i]| then |plans[i]| - pos[i] else 0)
  }

  function Sizes(boxes: seq<seq<Message>>): seq<nat> {
    seq(|boxes|, a requires 0 <= a < |boxes| => |boxes[a]|)
  }

  function Unsent(sent: seq<bool>): seq<nat> {
    seq(|sent|, a requires 0 <= a < |sent| => if sent[a] then 0 else 1)
  }

  /**
   * Moves left: two for each message not yet sent, one for each in a mailbox, two for each
   * run not yet sent, one for each not yet collected.
   */
  function Work(c: Config, plans: seq<Plan>, s: State): nat
    requires Shape(c, plans, s)
  {
    2 * Sum(Left(plans, s.pos)) + Sum(Sizes(s.boxes)) + 2 * Sum(Unsent(s.sent)) + |s.results|
  }

  lemma StepDecreasesWork(c: Config, plans: seq<Plan>, s: State, action: Action)
    requires Shape(c, plans, s) && Next(c, plans, s, action).Some?
    ensures Work(c, plans, Next(c, plans, s, action).value) < Work(c, plans, s)
  {
    var s' := Next(c, plans, s, action).value;
    match action {
      case SendNext(i) =>
        var to := plans[i][s.pos[i]].to;
        SumUpdate(Left(plans, s.pos), i, Left(plans, s.pos)[i] - 1);
        assert Left(plans, s'.pos) == Left(plans, s.pos)[i := Left(plans, s.pos)[i] - 1];
        SumUpdate(Sizes(s.boxes), to, |s.boxes[to]| + 1);
        assert Sizes(s'.boxes) == Sizes(s.boxes)[to := |s.boxes[to]| + 1];
      case Receive(a) =>
        SumUpdate(Sizes(s.boxes), a, |s.boxes[a]| - 1);
        assert Sizes(s'.boxes) == Sizes(s.boxes)[a := |s.boxes[a]| - 1];
      case Deliver(a) =>
        SumUpdate(Unsent(s.sent), a, 0);
        assert Unsent(s'.sent) == Unsent(s.sent)[a := 0];
      case Collect =>
    }
  }

  // ----- the theorems -----

  /** An assembler that stops collecting has every record routed to it, once, and nothing is left for it. */
  lemma AssemblerIsComplete(c: Config, plans: seq<Plan>, trace: seq<Action>, a: nat)
    requires PlansOk(c, plans) && Exec(c, plans, trace).Some? && a < c.check.assemblerCount
    requires Dones(Exec(c, plans, trace).value.taken[a]) >= c.shards
    ensures var s := Exec(c, plans, trace).value;
            && s.boxes[a] == []
            && multiset(EntriesOf(s.taken[a])) == multiset(Routed(c, 0, c.check.recordCount, {a}))
  {
    Reachable(c, plans, trace);
    AllProducersDone(c, plans, Exec(c, plans, trace).value, a);
  }

  /**
   * No deadlock: until the coordinator has every run, some step is possible. By
   * `StepDecreasesWork` no run is endless.
   */
  lemma NeverStuck(c: Config, plans: seq<Plan>, trace: seq<Action>)
    requires PlansOk(c, plans) && Exec(c, plans, trace).Some?
    requires |Exec(c, plans, trace).value.runs| < c.check.assemblerCount
    ensures exists action :: Next(c, plans, Exec(c, plans, trace).value, action).Some?
  {
    Reachable(c, plans, trace);
    var action := SomeStepIsEnabled(c, plans, Exec(c, plans, trace).value);
  }

  ghost predicate DistinctUnits(runs: seq<Run>) {
    forall i, j :: 0 <= i < j < |runs| ==> runs[i].workUnit != runs[j].workUnit
  }

  lemma TwoPlaces(s: seq<nat>, i: nat, j: nat)
    requires i < j < |s| && s[i] == s[j]
    ensures multiset(s)[s[i]] >= 2
  {
    assert s == s[..j] + ([s[j]] + s[j + 1..]);
    assert s[i] in s[..j];
  }

  lemma UnitsAreDistinct(runs: seq<Run>, units: set<nat>)
    requires multiset(WorkUnits(runs)) == multiset(units)
    ensures DistinctUnits(runs)
    ensures forall k :: 0 <= k < |runs| ==> runs[k].workUnit in units
  {
    var s := WorkUnits(runs);
    forall i, j | 0 <= i < j < |runs| ensures runs[i].workUnit != runs[j].workUnit {
      if s[i] == s[j] {
        TwoPlaces(s, i, j);
      }
    }
    forall k | 0 <= k < |runs| ensures runs[k].workUnit in units {
      assert s[k] in multiset(s);
    }
  }

  lemma UnitIsDelivered(runs: seq<Run>, units: set<nat>, u: nat) returns (k: nat)
    requires multiset(WorkUnits(runs)) == multiset(units) && u in units
    ensures k < |runs| && runs[k].workUnit == u
  {
    var s := WorkUnits(runs);
    assert u in multiset(s);
    k :| 0 <= k < |s| && s[k] == u;
  }

  ghost function UnitsOf(runs: seq<Run>): set<nat> {
    if runs == [] then {} else UnitsOf(runs[..|runs| - 1]) + {runs[|runs| - 1].workUnit}
  }

  lemma {:induction false} InUnitsOf(runs: seq<Run>, k: nat)
    requires k < |runs|
    ensures runs[k].workUnit in UnitsOf(runs)
  {
    if k < |runs| - 1 {
      InUnitsOf(runs[..|runs| - 1], k);
    }
  }

  lemma {:induction false} NotInUnitsOf(runs: seq<Run>, u: nat)
    requires forall k :: 0 <= k < |runs| ==> runs[k].workUnit != u
    ensures u !in UnitsOf(runs)
  {
    if runs != [] {
      NotInUnitsOf(runs[..|runs| - 1], u);
    }
  }

  /** A run that holds exactly what is routed to its assembler. */
  ghost predicate Complete(c: Config, run: Run)
    requires c.Valid()
  {
    multiset(run.entries) == multiset(Routed(c, 0, c.check.recordCount, {run.workUnit}))
  }

  /** Runs that together hold exactly what is routed to any of their assemblers. */
  ghost predicate United(c: Config, runs: seq<Run>)
    requires c.Valid()
  {
    Bag(Entries(runs)) == multiset(Routed(c, 0, c.check.recordCount, UnitsOf(runs)))
  }

  lemma NoRuns(c: Config)
    requires c.Valid()
    ensures United(c, [])
  {
    RoutedNowhere(c, c.check.recordCount);
  }

  lemma OneMoreRun(c: Config, runs: seq<Run>, run: Run)
    requires c.Valid() && run.workUnit !in UnitsOf(runs) && United(c, runs) && Complete(c, run)
    ensures United(c, runs + [run])
  {
    assert (runs + [run])[..|runs|] == runs;
    assert Entries(runs + [run]) == Entries(runs) + [run.entries];
    BagSnoc(Entries(runs), run.entries);
    RoutedSplit(c, c.check.recordCount, UnitsOf(runs), run.workUnit);
  }

  /** Complete runs of distinct assemblers are united. */
  lemma {:induction false} RunsUnite(c: Config, runs: seq<Run>)
    requires c.Valid() && DistinctUnits(runs)
    requires forall k :: 0 <= k < |runs| ==> Complete(c, runs[k])
    ensures United(c, runs)
  {
    if runs == [] {
      NoRuns(c);
    } else {
      var rest, last := runs[..|runs| - 1], runs[|runs| - 1];
      RunsUnite(c, rest);
      NotInUnitsOf(rest, last.workUnit);
      OneMoreRun(c, rest, last);
      assert runs == rest + [last];
    }
  }

  lemma {:induction false} RoutedNowhere(c: Config, hi: nat)
    requires c.check.assemblerCount > 0 && hi <= WORD
    ensures Routed(c, 0, hi, {}) == []
  {
    if hi > 0 {
      RoutedNowhere(c, hi - 1);
    }
  }

  /** Every run that is out holds exactly what its assembler was sent. */
  lemma OutputsAreComplete(c: Config, plans: seq<Plan>, s: State)
    requires PlansOk(c, plans) && Inv(c, plans, s)
    ensures var outputs := s.runs + s.results;
            forall k :: 0 <= k < |outputs| ==> Sorted(outputs[k].entries) && Complete(c, outputs[k])
  {
    var outputs := s.runs + s.results;
    UnitsAreDistinct(outputs, SentUnits(s.sent));
    forall k | 0 <= k < |outputs|
      ensures Sorted(outputs[k].entries) && Complete(c, outputs[k])
    {
      var u := outputs[k].workUnit;
      assert u in SentUnits(s.sent);
      AllProducersDone(c, plans, s, u);
    }
  }

  /** When the coordinator has its runs, every record is in them exactly once and the final check accepts. */
  lemma IndexIsAccepted(c: Config, plans: seq<Plan>, trace: seq<Action>)
    requires PlansOk(c, plans) && Exec(c, plans, trace).Some?
    requires |Exec(c, plans, trace).value.runs| == c.check.assemblerCount
    ensures var s := Exec(c, plans, trace).value;
            && s.results == []
            && Bag(Entries(s.runs)) == multiset(c.check.Records(c.check.recordCount))
            && Acceptable(c.check, s.runs)
  {
    Reachable(c, plans, trace);
    var s := Exec(c, plans, trace).value;
    OutputsCount(c, plans, s);
    assert s.runs + s.results == s.runs;
    OutputsAreComplete(c, plans, s);
    AllRunsAreAccepted(c, s.runs, SentUnits(s.sent));
  }

  lemma AllRunsAreAccepted(c: Config, runs: seq<Run>, units: set<nat>)
    requires c.Valid() && units == Range(c.check.assemblerCount) && multiset(WorkUnits(runs)) == multiset(units)
    requires forall k :: 0 <= k < |runs| ==> Sorted(runs[k].entries) && Complete(c, runs[k])
    ensures Bag(Entries(runs)) == multiset(c.check.Records(c.check.recordCount))
    ensures Acceptable(c.check, runs)
  {
    UnitsAreDistinct(runs, units);
    RunsUnite(c, runs);
    forall a | 0 <= a < c.check.assemblerCount ensures a in UnitsOf(runs) {
      var k := UnitIsDelivered(runs, units, a);
      InUnitsOf(runs, k);
    }
    RoutedAll(c, c.check.recordCount, UnitsOf(runs));
    RangeBag(c.check.assemblerCount);
    CompleteRunsAreAccepted(c.check, runs);
  }

  // ----- routing and bounds -----

  lemma {:induction false} RoutedByHash(c: Config, lo: nat, hi: nat, a: nat, e: Entry)
    requires c.check.assemblerCount > 0 && hi <= WORD
    ensures e in Routed(c, lo, hi, {a}) <==>
            lo <= e.offset < hi && e == c.check.Record(e.offset) && c.hash(e.key) % c.check.assemblerCount == a
  {
    if hi > lo {
      RoutedByHash(c, lo, hi - 1, a, e);
    }
  }

  /**
   * When the coordinator has its runs, each run holds exactly the records whose key
   * hashes to its assembler.
   */
  lemma RunsByHash(c: Config, plans: seq<Plan>, trace: seq<Action>, k: nat, e: Entry)
    requires PlansOk(c, plans) && Exec(c, plans, trace).Some?
    requires |Exec(c, plans, trace).value.runs| == c.check.assemblerCount && k < c.check.assemblerCount
    ensures var run := Exec(c, plans, trace).value.runs[k];
            e in run.entries <==>
            && e.offset < c.check.recordCount && e == c.check.Record(e.offset)
            && c.hash(e.key) % c.check.assemblerCount == run.workUnit
  {
    Reachable(c, plans, trace);
    var s := Exec(c, plans, trace).value;
    OutputsCount(c, plans, s);
    assert s.runs + s.results == s.runs;
    OutputsAreComplete(c, plans, s);
    var run := s.runs[k];
    var routed := Routed(c, 0, c.check.recordCount, {run.workUnit});
    RoutedByHash(c, 0, c.check.recordCount, run.workUnit, e);
    assert Complete(c, run);
    assert e in run.entries <==> e in multiset(run.entries);
    assert e in routed <==> e in multiset(routed);
  }

  lemma StepKeepsBounds(c: Config, plans: seq<Plan>, s: State, action: Action, a: nat)
    requires Shape(c, plans, s) && a < |s.boxes| && |s.boxes[a]| <= c.capacity && |s.results| <= c.resultCapacity
    requires Next(c, plans, s, action).Some?
    ensures var s' := Next(c, plans, s, action).value;
            |s'.boxes| == |s.boxes| && |s'.boxes[a]| <= c.capacity && |s'.results| <= c.resultCapacity
  {
  }

  /** No mailbox ever holds more than its capacity. */
  lemma {:induction false} MailboxesAreBounded(c: Config, plans: seq<Plan>, trace: seq<Action>, a: nat)
    requires Exec(c, plans, trace).Some? && a < c.check.assemblerCount
    ensures var s := Exec(c, plans, trace).value;
            |s.boxes[a]| <= c.capacity && |s.results| <= c.resultCapacity
  {
    if trace != [] {
      MailboxesAreBounded(c, plans, trace[..|trace| - 1], a);
      StepKeepsBounds(c, plans, Exec(c, plans, trace[..|trace| - 1]).value, trace[|trace| - 1], a);
    }
  }
}
