/**
 * The sharded key-value service: many shard-owned maps behind bounded FIFO
 * mailboxes with one-shot replies, proved to behave as one map.
 *
 * `SequentialMap` is that one map, `KvService` a shard's own state and loop,
 * and `ShardedKv` the whole service with any number of callers.
 */
module SequentialMap {
  import opened Wrappers

  /** The operations; `LenOf` counts the keys that the placement puts on one shard. */
  datatype Op<+K, +V> =
    | Get(key: K)
    | Put(key: K, value: V)
    | CompareAndPut(key: K, expected: Option<V>, value: V)
    | GetOrPut(key: K, value: V)
    | Delete(key: K)
    | LenOf(shard: nat)

  datatype Answer<+V> =
    | Found(current: Option<V>)
    | Done
    | Replaced(replaced: bool)
    | Stored(stored: V)
    | Length(length: nat)

  function Lookup<K, V>(m: map<K, V>, k: K): Option<V> {
    if k in m then Some(m[k]) else None
  }

  /** The keys of `m` that live on shard `i`. */
  function OnShard<K, V>(m: map<K, V>, place: K -> nat, i: nat): map<K, V> {
    map k | k in m && place(k) == i :: m[k]
  }

  /** What a keyed operation does to a map. */
  function Keyed<K, V(==)>(m: map<K, V>, op: Op<K, V>): (map<K, V>, Answer<V>)
    requires !op.LenOf?
  {
    match op
    case Get(k) => (m, Found(Lookup(m, k)))
    case Put(k, v) => (m[k := v], Done)
    case CompareAndPut(k, expected, v) =>
      if Lookup(m, k) == expected then (m[k := v], Replaced(true)) else (m, Replaced(false))
    case GetOrPut(k, v) => if k in m then (m, Stored(m[k])) else (m[k := v], Stored(v))
    case Delete(k) => (m - {k}, Found(Lookup(m, k)))
  }

  /** One sequential map that also answers how much of it a shard would hold. */
  function Apply<K, V(==)>(m: map<K, V>, place: K -> nat, op: Op<K, V>): (map<K, V>, Answer<V>) {
    if op.LenOf? then (m, Length(|OnShard(m, place, op.shard)|)) else Keyed(m, op)
  }

  /** An operation on one key needs, and changes, only that key's shard. */
  lemma KeyedIsLocal<K, V>(m: map<K, V>, place: K -> nat, op: Op<K, V>, i: nat)
    requires !op.LenOf?
    ensures i == place(op.key) ==>
              && Keyed(OnShard(m, place, i), op).0 == OnShard(Keyed(m, op).0, place, i)
              && Keyed(OnShard(m, place, i), op).1 == Keyed(m, op).1
    ensures i != place(op.key) ==> OnShard(Keyed(m, op).0, place, i) == OnShard(m, place, i)
  {
  }

  // ----- answers by history -----

  /** One answered operation. */
  datatype Event<+K, +V> = Event(op: Op<K, V>, answer: Answer<V>)

  /** What a history says is stored under `k`: the outcome of the last operation that stored or deleted it. */
  ghost function Current<K, V>(history: seq<Event<K, V>>, k: K): Option<V> {
    if history == [] then None
    else
      var before, last := history[..|history| - 1], history[|history| - 1];
      if last.op.LenOf? || last.op.key != k then Current(before, k)
      else
        match last.op
        case Put(_, v) => Some(v)
        case CompareAndPut(_, _, v) => if last.answer == Replaced(true) then Some(v) else Current(before, k)
        case GetOrPut(_, _) => if last.answer.Stored? then Some(last.answer.stored) else Current(before, k)
        case Delete(_) => None
        case _ => Current(before, k)
  }

  /** The keys that a history mentions. */
  ghost function Mentioned<K, V>(history: seq<Event<K, V>>): set<K> {
    if history == [] then {}
    else
      var last := history[|history| - 1];
      Mentioned(history[..|history| - 1]) + if last.op.LenOf? then {} else {last.op.key}
  }

  /** The keys that hold something after a history and that `on` counts for shard `i`. */
  ghost function Holding<K, V>(history: seq<Event<K, V>>, on: (K, nat) -> bool, i: nat): set<K> {
    set k | k in Mentioned(history) && Current(history, k).Some? && on(k, i)
  }

  /** The answer that `e` should give after the history `before`. */
  ghost predicate Right<K, V>(on: (K, nat) -> bool, before: seq<Event<K, V>>, e: Event<K, V>) {
    match e.op
    case Get(k) => e.answer == Found(Current(before, k))
    case Put(_, _) => e.answer == Done
    case CompareAndPut(k, expected, _) => e.answer == Replaced(Current(before, k) == expected)
    case GetOrPut(k, v) => e.answer == Stored(if Current(before, k).Some? then Current(before, k).value else v)
    case Delete(k) => e.answer == Found(Current(before, k))
    case LenOf(i) => e.answer == Length(|Holding(before, on, i)|)
  }

  ghost predicate AllRight<K, V>(on: (K, nat) -> bool, history: seq<Event<K, V>>) {
    forall i :: 0 <= i < |history| ==> Right(on, history[..i], history[i])
  }

  /** `m` holds what the history says. */
  ghost predicate Holds<K, V>(m: map<K, V>, history: seq<Event<K, V>>) {
    && m.Keys <= Mentioned(history)
    && (forall k :: k in Mentioned(history) ==> Lookup(m, k) == Current(history, k))
  }

  lemma {:induction false} NotMentioned<K, V>(history: seq<Event<K, V>>, k: K)
    requires k !in Mentioned(history)
    ensures Current(history, k) == None
  {
    if history != [] {
      NotMentioned(history[..|history| - 1], k);
    }
  }

  lemma HoldsEverywhere<K, V>(m: map<K, V>, history: seq<Event<K, V>>, k: K)
    requires Holds(m, history)
    ensures Lookup(m, k) == Current(history, k)
  {
    if k !in Mentioned(history) {
      NotMentioned(history, k);
    }
  }

  /** A keyed operation on a map that holds the history answers rightly, and the new map holds the longer history. */
  lemma KeyedIsRight<K, V>(on: (K, nat) -> bool, m: map<K, V>, history: seq<Event<K, V>>, op: Op<K, V>)
    requires !op.LenOf? && Holds(m, history)
    ensures var e := Event(op, Keyed(m, op).1); Right(on, history, e) && Holds(Keyed(m, op).0, history + [e])
  {
    var e := Event(op, Keyed(m, op).1);
    var longer := history + [e];
    assert longer[..|history|] == history;
    HoldsEverywhere(m, history, op.key);
    assert Mentioned(longer) == Mentioned(history) + {op.key};
    forall k | k in Mentioned(longer) ensures Lookup(Keyed(m, op).0, k) == Current(longer, k) {
      HoldsEverywhere(m, history, k);
    }
  }

  /** Counting the keys of a map that holds the history answers a length rightly. */
  lemma LengthIsRight<K, V>(on: (K, nat) -> bool, m: map<K, V>, history: seq<Event<K, V>>, i: nat)
    requires Holds(m, history)
    ensures Holding(history, on, i) == set k | k in m && on(k, i)
    ensures forall answer :: Holds(m, history + [Event(LenOf(i), answer)])
  {
    forall k ensures k in Holding(history, on, i) <==> k in m && on(k, i) {
      HoldsEverywhere(m, history, k);
    }
    forall answer ensures Holds(m, history + [Event(LenOf(i), answer)]) {
      var longer := history + [Event(LenOf(i), answer)];
      assert longer[..|history|] == history;
    }
  }

  lemma AllRightSnoc<K, V>(on: (K, nat) -> bool, history: seq<Event<K, V>>, e: Event<K, V>)
    requires AllRight(on, history) && Right(on, history, e)
    ensures AllRight(on, history + [e])
  {
    var longer := history + [e];
    forall i | 0 <= i < |longer| ensures Right(on, longer[..i], longer[i]) {
      assert longer[..i] == history[..i];
    }
  }

  /** The keys placed below shard `n`. */
  function Below<K, V>(m: map<K, V>, place: K -> nat, n: nat): set<K> {
    set k | k in m && place(k) < n
  }

  function SumLengths<K, V>(m: map<K, V>, place: K -> nat, n: nat): nat {
    if n == 0 then 0 else SumLengths(m, place, n - 1) + |OnShard(m, place, n - 1)|
  }

  /** If every key is placed on one of `n` shards, the shard lengths add up to the size of the map. */
  lemma {:induction false} LengthsAddUp<K, V>(m: map<K, V>, place: K -> nat, n: nat)
    ensures SumLengths(m, place, n) == |Below(m, place, n)|
  {
    if n == 0 {
      assert Below(m, place, n) == {};
    } else {
      LengthsAddUp(m, place, n - 1);
      var here := OnShard(m, place, n - 1).Keys;
      assert Below(m, place, n) == Below(m, place, n - 1) + here;
      assert Below(m, place, n - 1) !! here;
    }
  }
}

module KvService {
  import opened Wrappers
  import opened SequentialMap

  /** The state one shard owns. */
  class KvService<K(==), V(==)> {
    var contents: map<K, V>

    constructor ()
      ensures contents == map[]
    {
      contents := map[];
    }

    method Get(key: K) returns (current: Option<V>)
      ensures current == if key in contents then Some(contents[key]) else None
    {
      current := if key in contents then Some(contents[key]) else None;
    }

    method Put(key: K, value: V)
      modifies this
      ensures contents == old(contents)[key := value]
    {
      contents := contents[key := value];
    }

    method CompareAndPut(key: K, expected: Option<V>, value: V) returns (replaced: bool)
      modifies this
      ensures replaced <==>
                if expected.Some? then key in old(contents) && old(contents)[key] == expected.value
                else key !in old(contents)
      ensures contents == if replaced then old(contents)[key := value] else old(contents)
    {
      var current := if key in contents then Some(contents[key]) else None;
      if current == expected {
        contents := contents[key := value];
        return true;
      }
      return false;
    }

    method GetOrPut(key: K, value: V) returns (stored: V)
      modifies this
      ensures key in contents && contents[key] == stored
      ensures contents == if key in old(contents) then old(contents) else old(contents)[key := value]
    {
      if key !in contents {
        contents := contents[key := value];
      }
      stored := contents[key];
    }

    method Delete(key: K) returns (removed: Option<V>)
      modifies this
      ensures key !in contents && contents == old(contents) - {key}
      ensures removed == if key in old(contents) then Some(old(contents)[key]) else None
    {
      removed := if key in contents then Some(contents[key]) else None;
      contents := contents - {key};
    }

    method Len() returns (n: nat)
      ensures n == |contents|
    {
      n := |contents|;
    }
  }

  datatype Command<+K, +V> = Request(id: nat, op: Op<K, V>) | Stop

  /** A shard's answer and new state: `LenOf` counts the shard's own map. */
  function Serve<K, V(==)>(m: map<K, V>, op: Op<K, V>): (map<K, V>, Answer<V>) {
    if op.LenOf? then (m, Length(|m|)) else Keyed(m, op)
  }

  /** The answered commands as a history. */
  ghost function History<K, V>(commands: seq<Command<K, V>>, answers: seq<(nat, Answer<V>)>): seq<Event<K, V>>
    requires |answers| <= |commands| && forall i :: 0 <= i < |answers| ==> commands[i].Request?
  {
    seq(|answers|, i requires 0 <= i < |answers| => Event(commands[i].op, answers[i].1))
  }

  /** A shard counts every key it has, whatever shard the request names. */
  ghost function OwnKeys<K>(): (K, nat) -> bool {
    (k, i) => true
  }

  /** A shard's answer is right by its own history. */
  lemma ServeIsRight<K, V>(m: map<K, V>, history: seq<Event<K, V>>, op: Op<K, V>)
    requires Holds(m, history) && AllRight(OwnKeys(), history)
    ensures var e := Event(op, Serve(m, op).1);
            Holds(Serve(m, op).0, history + [e]) && AllRight(OwnKeys(), history + [e])
  {
    if op.LenOf? {
      LengthIsRight(OwnKeys(), m, history, op.shard);
      assert m.Keys == set k | k in m && OwnKeys<K>()(k, op.shard);
    } else {
      KeyedIsRight(OwnKeys(), m, history, op);
    }
    AllRightSnoc(OwnKeys(), history, Event(op, Serve(m, op).1));
  }

  /** The first commands were answered in order and rightly, and `contents` is what they left. */
  ghost predicate Answered<K, V>(commands: seq<Command<K, V>>, answers: seq<(nat, Answer<V>)>, contents: map<K, V>) {
    && |answers| <= |commands|
    && (forall i :: 0 <= i < |answers| ==> commands[i].Request? && answers[i].0 == commands[i].id)
    && AllRight(OwnKeys(), History(commands, answers))
    && Holds(contents, History(commands, answers))
  }

  lemma OneMoreAnswer<K, V>(commands: seq<Command<K, V>>, answers: seq<(nat, Answer<V>)>, contents: map<K, V>)
    requires Answered(commands, answers, contents) && |answers| < |commands| && commands[|answers|].Request?
    ensures var command := commands[|answers|];
            var (contents', answer) := Serve(contents, command.op);
            Answered(commands, answers + [(command.id, answer)], contents')
  {
    var command := commands[|answers|];
    var answer := Serve(contents, command.op).1;
    HistorySnoc(commands, answers, command.id, answer);
    ServeIsRight(contents, History(commands, answers), command.op);
  }

  lemma HistorySnoc<K, V>(commands: seq<Command<K, V>>, answers: seq<(nat, Answer<V>)>, id: nat, answer: Answer<V>)
    requires |answers| < |commands| && forall i :: 0 <= i <= |answers| ==> commands[i].Request?
    ensures History(commands, answers + [(id, answer)])
         == History(commands, answers) + [Event(commands[|answers|].op, answer)]
  {
  }

  /**
   * The shard's message loop, on the commands it will receive: the requests before
   * the first `Stop` are answered in order, each rightly after those before it, and
   * the shard is left with what they say is stored.
   */
  method RunShard<K(==), V(==)>(commands: seq<Command<K, V>>)
    returns (service: KvService<K, V>, answers: seq<(nat, Answer<V>)>)
    ensures fresh(service)
    ensures Answered(commands, answers, service.contents)
    ensures |answers| < |commands| ==> commands[|answers|].Stop?
  {
    service := new KvService();
    answers := [];
    var i := 0;
    while i < |commands|
      invariant 0 <= i <= |commands| && |answers| == i
      invariant fresh(service)
      invariant Answered(commands, answers, service.contents)
    {
      if commands[i].Stop? {
        break;
      }
      OneMoreAnswer(commands, answers, service.contents);
      var answer := Dispatch(service, commands[i].op);
      answers := answers + [(commands[i].id, answer)];
      i := i + 1;
    }
  }

  method Dispatch<K(==), V(==)>(service: KvService<K, V>, op: Op<K, V>) returns (answer: Answer<V>)
    modifies service
    ensures (service.contents, answer) == Serve(old(service.contents), op)
  {
    match op
    case Get(k) =>
      var current := service.Get(k);
      answer := Found(current);
    case Put(k, v) =>
      service.Put(k, v);
      answer := Done;
    case CompareAndPut(k, e, v) =>
      var replaced := service.CompareAndPut(k, e, v);
      answer := Replaced(replaced);
    case GetOrPut(k, v) =>
      var stored := service.GetOrPut(k, v);
      answer := Stored(stored);
    case Delete(k) =>
      var removed := service.Delete(k);
      answer := Found(removed);
    case LenOf(_) =>
      var n := service.Len();
      answer := Length(n);
  }
}

module ShardedKv {
  import opened Wrappers
  import opened SequentialMap
  import opened KvService
  import Reply

  type RequestId = nat
  type Boxes<K, V> = seq<seq<Command<K, V>>>
  type Replies<V> = seq<Reply.State<Answer<V>>>

  /** One processed request: what was asked, what was answered, and when. */
  datatype Entry<+K, +V> = Entry(id: RequestId, op: Op<K, V>, answer: Answer<V>, at: nat)

  /** A value handed to the caller, and when. */
  datatype Return<+V> = Return(answer: Answer<V>, at: nat)

  /** `contents`, `boxes` and `exited` are per shard; `replies`, `invoked` and `target` per accepted request. */
  datatype State<!K, !V> = State(
    now: nat,
    stopped: bool,
    stopsSent: nat,
    contents: seq<map<K, V>>,
    boxes: Boxes<K, V>,
    exited: seq<bool>,
    replies: Replies<V>,
    invoked: seq<nat>,
    target: seq<nat>,
    log: seq<Entry<K, V>>,
    returned: map<RequestId, Return<V>>
  )

  /** `place` is any placement strategy; a result outside the shards is refused on submit. */
  datatype Config<!K> = Config(shardCount: nat, capacity: nat, place: K -> nat)

  datatype Action<+K, +V> =
    | Submit(op: Op<K, V>)
    | Process(shard: nat)
    | Collect(id: RequestId)
    | BeginShutdown
    | SendStop

  function Init<K, V>(c: Config<K>): State<K, V> {
    State(0, false, 0, seq(c.shardCount, _ => map[]), seq(c.shardCount, _ => []), seq(c.shardCount, _ => false), [],
          [], [], [], map[])
  }

  function Target<K, V>(c: Config<K>, op: Op<K, V>): nat {
    if op.LenOf? then op.shard else c.place(op.key)
  }

  /** One list per shard and one entry per request. */
  predicate Shape<K, V>(c: Config<K>, s: State<K, V>) {
    && |s.contents| == |s.boxes| == |s.exited| == c.shardCount
    && |s.replies| == |s.invoked| == |s.target|
  }

  /** One action; `None` when it is refused or would block. */
  function Next<K, V(==)>(c: Config<K>, s: State<K, V>, a: Action<K, V>): Option<State<K, V>>
    requires Shape(c, s)
  {
    match a
    case Submit(op) =>
      var t := Target(c, op);
      if s.stopped || t >= c.shardCount || s.exited[t] || |s.boxes[t]| >= c.capacity then None
      else
        Some(s.(now := s.now + 1,
                boxes := s.boxes[t := s.boxes[t] + [Request(|s.replies|, op)]],
                replies := s.replies + [Reply.Fresh()],
                invoked := s.invoked + [s.now],
                target := s.target + [t]))
    case Process(i) =>
      if i >= c.shardCount || s.exited[i] || s.boxes[i] == [] then None
      else
        match s.boxes[i][0] {
          case Stop =>
            Some(s.(now := s.now + 1, boxes := s.boxes[i := s.boxes[i][1..]], exited := s.exited[i := true]))
          case Request(id, op) =>
            var (contents, answer) := Serve(s.contents[i], op);
            if id >= |s.replies| then None
            else
              Some(s.(now := s.now + 1,
                      contents := s.contents[i := contents],
                      boxes := s.boxes[i := s.boxes[i][1..]],
                      replies := s.replies[id := s.replies[id].Send(answer).0],
                      log := s.log + [Entry(id, op, answer, s.now)]))
        }
    case Collect(id) =>
      if id >= |s.replies| || !s.replies[id].TryWait().1.Value? then None
      else
        var (reply, r) := s.replies[id].TryWait();
        Some(s.(now := s.now + 1, replies := s.replies[id := reply],
                returned := s.returned[id := Return(r.value, s.now)]))
    case BeginShutdown =>
      if s.stopped then None else Some(s.(now := s.now + 1, stopped := true))
    case SendStop =>
      var t := s.stopsSent;
      if s.stopped && t < c.shardCount && |s.boxes[t]| < c.capacity && (t > 0 ==> s.exited[t - 1]) then
        Some(s.(now := s.now + 1, stopsSent := t + 1, boxes := s.boxes[t := s.boxes[t] + [Stop]]))
      else None
  }

  function Run<K, V(==)>(c: Config<K>, trace: seq<Action<K, V>>): (r: Option<State<K, V>>)
    ensures r.Some? ==> Shape(c, r.value)
  {
    if trace == [] then Some(Init(c))
    else
      match Run(c, trace[..|trace| - 1])
      case None => None
      case Some(s) => Next(c, s, trace[|trace| - 1])
  }

  // ----- one sequential map -----

  /** The map that the processed operations leave. */
  function Replay<K, V(==)>(place: K -> nat, log: seq<Entry<K, V>>): map<K, V> {
    if log == [] then map[] else Apply(Replay(place, log[..|log| - 1]), place, log[|log| - 1].op).0
  }

  /** Every answer is the one the sequential map gives at that point. */
  ghost predicate Legal<K, V>(place: K -> nat, log: seq<Entry<K, V>>) {
    forall i :: 0 <= i < |log| ==> log[i].answer == Apply(Replay(place, log[..i]), place, log[i].op).1
  }

  /** Each shard holds exactly its part of the map, and no key is placed outside the shards. */
  ghost predicate OneMap<K, V>(c: Config<K>, contents: seq<map<K, V>>, log: seq<Entry<K, V>>) {
    var m := Replay(c.place, log);
    && |contents| == c.shardCount
    && (forall i :: 0 <= i < |contents| ==> contents[i] == OnShard(m, c.place, i))
    && (forall k :: k in m ==> c.place(k) < c.shardCount)
    && Legal(c.place, log)
  }

  lemma ReplaySnoc<K, V>(place: K -> nat, log: seq<Entry<K, V>>, e: Entry<K, V>)
    requires Legal(place, log) && e.answer == Apply(Replay(place, log), place, e.op).1
    ensures Replay(place, log + [e]) == Apply(Replay(place, log), place, e.op).0
    ensures Legal(place, log + [e])
  {
    var log' := log + [e];
    assert log'[..|log|] == log;
    forall i | 0 <= i < |log'| ensures log'[i].answer == Apply(Replay(place, log'[..i]), place, log'[i].op).1 {
      assert log'[..i] == log[..i];
    }
  }

  // ----- answers by history -----

  ghost function Events<K, V>(log: seq<Entry<K, V>>): seq<Event<K, V>> {
    seq(|log|, i requires 0 <= i < |log| => Event(log[i].op, log[i].answer))
  }

  ghost function PlacedOn<K>(place: K -> nat): (K, nat) -> bool {
    (k, i) => place(k) == i
  }

  /** A legal log answers every operation rightly by the operations before it, and replays to what they say. */
  lemma {:induction false} LegalIsRight<K, V>(place: K -> nat, log: seq<Entry<K, V>>)
    requires Legal(place, log)
    ensures AllRight(PlacedOn(place), Events(log)) && Holds(Replay(place, log), Events(log))
  {
    if log != [] {
      var before, e := log[..|log| - 1], log[|log| - 1];
      LegalPrefix(place, log);
      LegalIsRight(place, before);
      EventsSnoc(log);
      OneMoreIsRight(place, Replay(place, before), Events(before), e.op, e.answer);
    }
  }

  lemma EventsSnoc<K, V>(log: seq<Entry<K, V>>)
    requires log != []
    ensures Events(log) == Events(log[..|log| - 1]) + [Event(log[|log| - 1].op, log[|log| - 1].answer)]
  {
  }

  lemma LegalPrefix<K, V>(place: K -> nat, log: seq<Entry<K, V>>)
    requires Legal(place, log) && log != []
    ensures Legal(place, log[..|log| - 1])
  {
    var before := log[..|log| - 1];
    forall i | 0 <= i < |before| ensures before[i].answer == Apply(Replay(place, before[..i]), place, before[i].op).1 {
      assert before[..i] == log[..i];
    }
  }

  lemma OneMoreIsRight<K, V>(place: K -> nat, m: map<K, V>, history: seq<Event<K, V>>, op: Op<K, V>, answer: Answer<V>)
    requires Holds(m, history) && AllRight(PlacedOn(place), history) && answer == Apply(m, place, op).1
    ensures var longer := history + [Event(op, answer)];
            AllRight(PlacedOn(place), longer) && Holds(Apply(m, place, op).0, longer)
  {
    ApplyIsRight(place, m, history, op);
    AllRightSnoc(PlacedOn(place), history, Event(op, answer));
  }

  lemma ApplyIsRight<K, V>(place: K -> nat, m: map<K, V>, history: seq<Event<K, V>>, op: Op<K, V>)
    requires Holds(m, history)
    ensures var (m', answer) := Apply(m, place, op);
            Right(PlacedOn(place), history, Event(op, answer)) && Holds(m', history + [Event(op, answer)])
  {
    if op.LenOf? {
      LengthIsRight(PlacedOn(place), m, history, op.shard);
      assert OnShard(m, place, op.shard).Keys == set k | k in m && PlacedOn(place)(k, op.shard);
    } else {
      KeyedIsRight(PlacedOn(place), m, history, op);
    }
  }

  /** Serving a request on its target shard is a step of the one map. */
  lemma ServeIsApply<K, V>(c: Config<K>, contents: seq<map<K, V>>, log: seq<Entry<K, V>>, e: Entry<K, V>, i: nat)
    requires OneMap(c, contents, log) && i < c.shardCount && Target(c, e.op) == i
    requires e.answer == Serve(contents[i], e.op).1
    ensures OneMap(c, contents[i := Serve(contents[i], e.op).0], log + [e])
  {
    var m := Replay(c.place, log);
    if !e.op.LenOf? {
      forall j | 0 <= j < c.shardCount
        ensures contents[i := Serve(contents[i], e.op).0][j] == OnShard(Keyed(m, e.op).0, c.place, j)
      {
        KeyedIsLocal(m, c.place, e.op, j);
      }
      KeyedIsLocal(m, c.place, e.op, i);
    }
    ReplaySnoc(c.place, log, e);
  }

  // ----- where every request is -----

  ghost predicate Queued<K, V>(box: seq<Command<K, V>>, id: RequestId) {
    exists j :: 0 <= j < |box| && box[j].Request? && box[j].id == id
  }

  ghost predicate Processed<K, V>(log: seq<Entry<K, V>>, id: RequestId) {
    exists n :: 0 <= n < |log| && log[n].id == id
  }

  /** What holds of the commands in the mailbox of shard `i`. */
  ghost predicate BoxOk<K, V>(c: Config<K>, i: nat, box: seq<Command<K, V>>, replies: Replies<V>, target: seq<nat>)
    requires |replies| == |target|
  {
    && (forall j :: 0 <= j < |box| && box[j].Request? ==>
          box[j].id < |replies| && target[box[j].id] == i == Target(c, box[j].op)
            && replies[box[j].id] == Reply.Fresh())
    && (forall j, k :: 0 <= j < k < |box| && box[j].Request? && box[k].Request? ==> box[j].id < box[k].id)
  }

  ghost predicate BoxesOk<K, V>(c: Config<K>, boxes: Boxes<K, V>, replies: Replies<V>, target: seq<nat>)
    requires |replies| == |target|
  {
    forall i :: 0 <= i < |boxes| ==> BoxOk(c, i, boxes[i], replies, target)
  }

  /** A request is queued at its target until it is processed. */
  ghost predicate Accounted<K, V>(boxes: Boxes<K, V>, replies: Replies<V>, target: seq<nat>, log: seq<Entry<K, V>>)
    requires |replies| == |target|
  {
    forall id :: 0 <= id < |replies| ==>
      if replies[id].senderAlive then target[id] < |boxes| && Queued(boxes[target[id]], id) else Processed(log, id)
  }

  /** A processed request ran once, after it was invoked; its answer waits in the reply until it is collected. */
  ghost predicate Logged<K, V>(log: seq<Entry<K, V>>, replies: Replies<V>, invoked: seq<nat>,
                               returned: map<RequestId, Return<V>>, now: nat)
    requires |replies| == |invoked|
  {
    && (forall n :: 0 <= n < |log| ==>
          && log[n].id < |replies| && !replies[log[n].id].senderAlive
          && invoked[log[n].id] < log[n].at < now
          && (if log[n].id in returned then
                replies[log[n].id].value.None? && returned[log[n].id].answer == log[n].answer
                  && log[n].at < returned[log[n].id].at
              else replies[log[n].id].value == Some(log[n].answer)))
    && (forall m, n :: 0 <= m < n < |log| ==> log[m].at < log[n].at && log[m].id != log[n].id)
    && (forall id :: id in returned ==> Processed(log, id))
    && (forall id :: 0 <= id < |invoked| ==> invoked[id] < now)
  }

  /** A stop, once sent, is the last command of its mailbox until the shard takes it and exits. */
  ghost predicate StopOk<K, V>(sent: bool, box: seq<Command<K, V>>, exited: bool) {
    && (forall j :: 0 <= j < |box| && box[j].Stop? ==> sent && j == |box| - 1)
    && (exited ==> sent && box == [])
    && (sent && !exited ==> box != [] && box[|box| - 1].Stop?)
  }

  /** Stops go out in shard order. */
  ghost predicate Stopping<K, V>(stopped: bool, stopsSent: nat, boxes: Boxes<K, V>, exited: seq<bool>)
    requires |boxes| == |exited|
  {
    && stopsSent <= |boxes|
    && (!stopped ==> stopsSent == 0)
    && (forall i :: 0 <= i < |boxes| ==> StopOk(i < stopsSent, boxes[i], exited[i]))
  }

  ghost predicate Inv<K, V>(c: Config<K>, s: State<K, V>) {
    && Shape(c, s)
    && OneMap(c, s.contents, s.log)
    && BoxesOk(c, s.boxes, s.replies, s.target)
    && Accounted(s.boxes, s.replies, s.target, s.log)
    && Logged(s.log, s.replies, s.invoked, s.returned, s.now)
    && Stopping(s.stopped, s.stopsSent, s.boxes, s.exited)
  }

  lemma InitInv<K, V>(c: Config<K>)
    ensures Inv(c, Init<K, V>(c))
  {
    var s := Init<K, V>(c);
    assert OneMap(c, s.contents, s.log) by {
      assert forall i :: 0 <= i < c.shardCount ==> OnShard<K, V>(map[], c.place, i) == map[];
    }
    assert BoxesOk(c, s.boxes, s.replies, s.target);
    assert Stopping(s.stopped, s.stopsSent, s.boxes, s.exited) by {
      assert forall i :: 0 <= i < c.shardCount ==> s.boxes[i] == [] && !s.exited[i];
    }
  }

  // ----- each action keeps the invariant -----

  lemma SubmitKeepsInv<K, V>(c: Config<K>, s: State<K, V>, op: Op<K, V>)
    requires Inv(c, s) && Next(c, s, Submit(op)).Some?
    ensures Inv(c, Next(c, s, Submit(op)).value)
  {
    var s' := Next(c, s, Submit(op)).value;
    SubmitAccounted(s, Target(c, op), op);
    SubmitLogged(s);
    assert BoxesOk(c, s'.boxes, s'.replies, s'.target) by {
      forall i | 0 <= i < |s'.boxes| ensures BoxOk(c, i, s'.boxes[i], s'.replies, s'.target) {
        assert BoxOk(c, i, s.boxes[i], s.replies, s.target);
      }
    }
    PushStopping(s, Target(c, op), Request(|s.replies|, op));
  }

  lemma SubmitAccounted<K, V>(s: State<K, V>, t: nat, op: Op<K, V>)
    requires |s.replies| == |s.target| && t < |s.boxes| && Accounted(s.boxes, s.replies, s.target, s.log)
    ensures Accounted(s.boxes[t := s.boxes[t] + [Request(|s.replies|, op)]], s.replies + [Reply.Fresh()],
                      s.target + [t], s.log)
  {
    var boxes := s.boxes[t := s.boxes[t] + [Request(|s.replies|, op)]];
    forall id | 0 <= id <= |s.replies| && (s.replies + [Reply.Fresh()])[id].senderAlive
      ensures (s.target + [t])[id] < |boxes| && Queued(boxes[(s.target + [t])[id]], id)
    {
      if id == |s.replies| {
        assert boxes[t][|s.boxes[t]|].id == id;
      } else {
        StaysQueued(s.boxes[s.target[id]], boxes[s.target[id]], id);
      }
    }
  }

  lemma StaysQueued<K, V>(box: seq<Command<K, V>>, box': seq<Command<K, V>>, id: RequestId)
    requires Queued(box, id) && box <= box'
    ensures Queued(box', id)
  {
    var j :| 0 <= j < |box| && box[j].Request? && box[j].id == id;
    assert box'[j].id == id;
  }

  lemma SubmitLogged<K, V>(s: State<K, V>)
    requires |s.replies| == |s.invoked| && Logged(s.log, s.replies, s.invoked, s.returned, s.now)
    ensures Logged(s.log, s.replies + [Reply.Fresh()], s.invoked + [s.now], s.returned, s.now + 1)
  {
  }

  /** Shard `i` has answered the request at the front of its mailbox, as `e` records. */
  ghost function Answered<K, V>(s: State<K, V>, i: nat, e: Entry<K, V>): State<K, V>
    requires i < |s.boxes| && i < |s.contents| && s.boxes[i] != [] && e.id < |s.replies|
  {
    s.(now := s.now + 1,
       contents := s.contents[i := Serve(s.contents[i], e.op).0],
       boxes := s.boxes[i := s.boxes[i][1..]],
       replies := s.replies[e.id := s.replies[e.id].Send(e.answer).0],
       log := s.log + [e])
  }

  lemma RequestKeepsInv<K, V>(c: Config<K>, s: State<K, V>, i: nat)
    requires Inv(c, s) && i < c.shardCount && !s.exited[i] && s.boxes[i] != [] && s.boxes[i][0].Request?
    ensures Next(c, s, Process(i)).Some? && Inv(c, Next(c, s, Process(i)).value)
  {
    assert BoxOk(c, i, s.boxes[i], s.replies, s.target);
    var e := ProcessAnswers(c, s, i);
    AnsweredKeepsInv(c, s, i, e);
  }

  /** Processing a request answers it. */
  lemma ProcessAnswers<K, V>(c: Config<K>, s: State<K, V>, i: nat) returns (e: Entry<K, V>)
    requires Shape(c, s) && i < c.shardCount && !s.exited[i] && s.boxes[i] != [] && s.boxes[i][0].Request?
    requires BoxOk(c, i, s.boxes[i], s.replies, s.target)
    ensures Answers(c, s, i, e) && Next(c, s, Process(i)) == Some(Answered(s, i, e))
  {
    var id, op := s.boxes[i][0].id, s.boxes[i][0].op;
    e := Entry(id, op, Serve(s.contents[i], op).1, s.now);
  }

  /** `e` records the answer to the request at the front of shard `i`. */
  ghost predicate Answers<K, V>(c: Config<K>, s: State<K, V>, i: nat, e: Entry<K, V>) {
    && Shape(c, s) && i < c.shardCount && !s.exited[i] && s.boxes[i] != []
    && s.boxes[i][0] == Request(e.id, e.op) && e.id < |s.replies| && Target(c, e.op) == i
    && e.answer == Serve(s.contents[i], e.op).1 && e.at == s.now
  }

  lemma AnsweredKeepsInv<K, V>(c: Config<K>, s: State<K, V>, i: nat, e: Entry<K, V>)
    requires Inv(c, s) && Answers(c, s, i, e)
    ensures Inv(c, Answered(s, i, e))
  {
    AnsweredKeepsMap(c, s, i, e);
    AnsweredKeepsReplies(c, s, i, e);
    AnsweredKeepsStops(c, s, i, e);
  }

  lemma AnsweredKeepsMap<K, V>(c: Config<K>, s: State<K, V>, i: nat, e: Entry<K, V>)
    requires Answers(c, s, i, e) && OneMap(c, s.contents, s.log)
    ensures var s' := Answered(s, i, e); Shape(c, s') && OneMap(c, s'.contents, s'.log)
  {
    ServeIsApply(c, s.contents, s.log, e, i);
  }

  lemma AnsweredKeepsReplies<K, V>(c: Config<K>, s: State<K, V>, i: nat, e: Entry<K, V>)
    requires Answers(c, s, i, e) && BoxesOk(c, s.boxes, s.replies, s.target)
    requires Accounted(s.boxes, s.replies, s.target, s.log) && Logged(s.log, s.replies, s.invoked, s.returned, s.now)
    ensures var s' := Answered(s, i, e);
            && BoxesOk(c, s'.boxes, s'.replies, s'.target)
            && Accounted(s'.boxes, s'.replies, s'.target, s'.log)
            && Logged(s'.log, s'.replies, s'.invoked, s'.returned, s'.now)
  {
    RequestBoxes(c, s, i, e.answer);
    RequestAccounted(c, s, i, e);
    RequestLogged(s, e);
  }

  lemma AnsweredKeepsStops<K, V>(c: Config<K>, s: State<K, V>, i: nat, e: Entry<K, V>)
    requires Answers(c, s, i, e) && Stopping(s.stopped, s.stopsSent, s.boxes, s.exited)
    ensures var s' := Answered(s, i, e); Stopping(s'.stopped, s'.stopsSent, s'.boxes, s'.exited)
  {
    PopStopping(s, i);
    assert s.exited[i := false] == s.exited;
  }

  lemma RequestBoxes<K, V>(c: Config<K>, s: State<K, V>, i: nat, answer: Answer<V>)
    requires |s.replies| == |s.target| && BoxesOk(c, s.boxes, s.replies, s.target)
    requires i < |s.boxes| && s.boxes[i] != [] && s.boxes[i][0].Request?
    ensures var id := s.boxes[i][0].id;
            && id < |s.replies| && s.replies[id] == Reply.Fresh() && s.target[id] == i
            && BoxesOk(c, s.boxes[i := s.boxes[i][1..]], s.replies[id := s.replies[id].Send(answer).0], s.target)
  {
    assert BoxOk(c, i, s.boxes[i], s.replies, s.target);
    var id := s.boxes[i][0].id;
    var boxes, replies := s.boxes[i := s.boxes[i][1..]], s.replies[id := s.replies[id].Send(answer).0];
    forall k | 0 <= k < |boxes| ensures BoxOk(c, k, boxes[k], replies, s.target) {
      assert BoxOk(c, k, s.boxes[k], s.replies, s.target);
    }
  }

  lemma RequestAccounted<K, V>(c: Config<K>, s: State<K, V>, i: nat, e: Entry<K, V>)
    requires |s.replies| == |s.target| && BoxesOk(c, s.boxes, s.replies, s.target)
    requires Accounted(s.boxes, s.replies, s.target, s.log)
    requires i < |s.boxes| && s.boxes[i] != [] && s.boxes[i][0].Request? && e.id == s.boxes[i][0].id < |s.replies|
    requires s.replies[e.id] == Reply.Fresh()
    ensures Accounted(s.boxes[i := s.boxes[i][1..]], s.replies[e.id := s.replies[e.id].Send(e.answer).0], s.target,
                      s.log + [e])
  {
    var boxes, replies := s.boxes[i := s.boxes[i][1..]], s.replies[e.id := s.replies[e.id].Send(e.answer).0];
    forall id | 0 <= id < |replies|
      ensures if replies[id].senderAlive then s.target[id] < |boxes| && Queued(boxes[s.target[id]], id)
              else Processed(s.log + [e], id)
    {
      if id == e.id {
        assert (s.log + [e])[|s.log|].id == id;
      } else if s.replies[id].senderAlive {
        StaysBehindFront(s.boxes[s.target[id]], id);
      } else {
        StaysProcessed(s.log, s.log + [e], id);
      }
    }
  }

  lemma StaysBehindFront<K, V>(box: seq<Command<K, V>>, id: RequestId)
    requires Queued(box, id)
    ensures box[0] == Stop || box[0].id != id ==> Queued(box[1..], id)
  {
    var j :| 0 <= j < |box| && box[j].Request? && box[j].id == id;
    if j > 0 {
      assert box[1..][j - 1].id == id;
    }
  }

  lemma StaysProcessed<K, V>(log: seq<Entry<K, V>>, log': seq<Entry<K, V>>, id: RequestId)
    requires Processed(log, id) && log <= log'
    ensures Processed(log', id)
  {
    var n :| 0 <= n < |log| && log[n].id == id;
    assert log'[n].id == id;
  }

  lemma RequestLogged<K, V>(s: State<K, V>, e: Entry<K, V>)
    requires |s.replies| == |s.invoked| && Logged(s.log, s.replies, s.invoked, s.returned, s.now)
    requires e.id < |s.replies| && s.replies[e.id] == Reply.Fresh() && e.at == s.now
    ensures Logged(s.log + [e], s.replies[e.id := s.replies[e.id].Send(e.answer).0], s.invoked, s.returned, s.now + 1)
  {
    assert e.id !in s.returned;
    forall id | id in s.returned ensures Processed(s.log + [e], id) {
      StaysProcessed(s.log, s.log + [e], id);
    }
  }

  lemma PopStopping<K, V>(s: State<K, V>, i: nat)
    requires |s.boxes| == |s.exited| && Stopping(s.stopped, s.stopsSent, s.boxes, s.exited)
    requires i < |s.boxes| && !s.exited[i] && s.boxes[i] != []
    ensures Stopping(s.stopped, s.stopsSent, s.boxes[i := s.boxes[i][1..]], s.exited[i := s.boxes[i][0].Stop?])
  {
    assert StopOk(i < s.stopsSent, s.boxes[i], s.exited[i]);
    var rest := s.boxes[i][1..];
    assert forall j :: 0 <= j < |rest| ==> rest[j] == s.boxes[i][j + 1];
    assert StopOk(i < s.stopsSent, rest, s.boxes[i][0].Stop?);
  }

  lemma PushStopping<K, V>(s: State<K, V>, i: nat, command: Command<K, V>)
    requires |s.boxes| == |s.exited| && Stopping(s.stopped, s.stopsSent, s.boxes, s.exited)
    requires i < |s.boxes| && (command.Stop? ==> s.stopped && i == s.stopsSent) && (command.Request? ==> !s.stopped)
    ensures Stopping(s.stopped, s.stopsSent + if command.Stop? then 1 else 0, s.boxes[i := s.boxes[i] + [command]],
                     s.exited)
  {
    assert StopOk(i < s.stopsSent, s.boxes[i], s.exited[i]);
    var box := s.boxes[i] + [command];
    assert StopOk(command.Stop?, box, s.exited[i]);
  }

  lemma StopKeepsInv<K, V>(c: Config<K>, s: State<K, V>, i: nat)
    requires Inv(c, s) && i < c.shardCount && !s.exited[i] && s.boxes[i] != [] && s.boxes[i][0].Stop?
    ensures Inv(c, Next(c, s, Process(i)).value)
  {
    var boxes := s.boxes[i := s.boxes[i][1..]];
    PopStopping(s, i);
    forall k | 0 <= k < |boxes| ensures BoxOk(c, k, boxes[k], s.replies, s.target) {
      assert BoxOk(c, k, s.boxes[k], s.replies, s.target);
    }
    forall id | 0 <= id < |s.replies| && s.replies[id].senderAlive ensures Queued(boxes[s.target[id]], id) {
      StaysBehindFront(s.boxes[s.target[id]], id);
    }
  }

  lemma SendStopKeepsInv<K, V>(c: Config<K>, s: State<K, V>)
    requires Inv(c, s) && Next(c, s, SendStop).Some?
    ensures Inv(c, Next(c, s, SendStop).value)
  {
    var t := s.stopsSent;
    var boxes := s.boxes[t := s.boxes[t] + [Stop]];
    PushStopping(s, t, Stop);
    forall k | 0 <= k < |boxes| ensures BoxOk(c, k, boxes[k], s.replies, s.target) {
      assert BoxOk(c, k, s.boxes[k], s.replies, s.target);
    }
    forall id | 0 <= id < |s.replies| && s.replies[id].senderAlive ensures Queued(boxes[s.target[id]], id) {
      StaysQueued(s.boxes[s.target[id]], boxes[s.target[id]], id);
    }
  }

  lemma AliveIsFresh<K, V>(c: Config<K>, s: State<K, V>, id: RequestId)
    requires Inv(c, s) && id < |s.replies|
    ensures s.replies[id].senderAlive ==> s.replies[id] == Reply.Fresh()
  {
    if s.replies[id].senderAlive {
      assert BoxOk(c, s.target[id], s.boxes[s.target[id]], s.replies, s.target);
    }
  }

  lemma CollectKeepsInv<K, V>(c: Config<K>, s: State<K, V>, id: RequestId)
    requires Inv(c, s) && Next(c, s, Collect(id)).Some?
    ensures Inv(c, Next(c, s, Collect(id)).value)
  {
    var s' := Next(c, s, Collect(id)).value;
    AliveIsFresh(c, s, id);
    forall k | 0 <= k < |s.boxes| ensures BoxOk(c, k, s.boxes[k], s'.replies, s.target) {
      assert BoxOk(c, k, s.boxes[k], s.replies, s.target);
    }
    CollectLogged(s, id);
  }

  lemma CollectLogged<K, V>(s: State<K, V>, id: RequestId)
    requires |s.replies| == |s.invoked| && Logged(s.log, s.replies, s.invoked, s.returned, s.now)
    requires id < |s.replies| && s.replies[id].value.Some? && Processed(s.log, id)
    ensures Logged(s.log, s.replies[id := s.replies[id].(value := None)], s.invoked,
                   s.returned[id := Return(s.replies[id].value.value, s.now)], s.now + 1)
  {
  }

  lemma {:induction false} Reachable<K, V>(c: Config<K>, trace: seq<Action<K, V>>)
    requires Run(c, trace).Some?
    ensures Inv(c, Run(c, trace).value)
  {
    if trace == [] {
      InitInv<K, V>(c);
    } else {
      Reachable(c, trace[..|trace| - 1]);
      StepKeepsInv(c, Run(c, trace[..|trace| - 1]).value, trace[|trace| - 1]);
    }
  }

  lemma StepKeepsInv<K, V>(c: Config<K>, s: State<K, V>, a: Action<K, V>)
    requires Inv(c, s) && Next(c, s, a).Some?
    ensures Inv(c, Next(c, s, a).value)
  {
    match a {
      case Submit(op) => SubmitKeepsInv(c, s, op);
      case Process(i) =>
        if s.boxes[i][0].Stop? {
          StopKeepsInv(c, s, i);
        } else {
          RequestKeepsInv(c, s, i);
        }
      case Collect(id) => CollectKeepsInv(c, s, id);
      case BeginShutdown =>
      case SendStop => SendStopKeepsInv(c, s);
    }
  }

  // ----- the theorems -----

  /**
   * Linearizability: in every run of any number of callers over any number of
   * shards, the processed operations are a legal history of one sequential map,
   * every answer a caller gets is the one in that history, and each operation
   * takes effect between its submission and its return.
   */
  lemma Linearizable<K, V>(c: Config<K>, trace: seq<Action<K, V>>)
    requires Run(c, trace).Some?
    ensures var s := Run(c, trace).value;
            && Legal(c.place, s.log)
            && (forall m, n :: 0 <= m < n < |s.log| ==> s.log[m].id != s.log[n].id && s.log[m].at < s.log[n].at)
            && (forall n :: 0 <= n < |s.log| ==> s.log[n].id < |s.invoked| && s.invoked[s.log[n].id] < s.log[n].at)
            && (forall id :: id in s.returned ==>
                  exists n :: 0 <= n < |s.log| && s.log[n].id == id
                              && s.log[n].answer == s.returned[id].answer && s.log[n].at < s.returned[id].at)
  {
    Reachable(c, trace);
    var s := Run(c, trace).value;
    forall id | id in s.returned
      ensures exists n :: 0 <= n < |s.log| && s.log[n].id == id && s.log[n].answer == s.returned[id].answer
                          && s.log[n].at < s.returned[id].at
    {
      assert Processed(s.log, id);
      var n :| 0 <= n < |s.log| && s.log[n].id == id;
    }
  }

  // ----- what was asked, and how it is answered -----

  /** The operations that a run accepted, in order. */
  function Asked<K, V>(trace: seq<Action<K, V>>): seq<Op<K, V>> {
    if trace == [] then []
    else
      var last := trace[|trace| - 1];
      Asked(trace[..|trace| - 1]) + if last.Submit? then [last.op] else []
  }

  /** What waits in mailbox `i` was asked, is meant for it, and was asked after all that the shard has processed. */
  ghost predicate BoxAsAsked<K, V>(i: nat, box: seq<Command<K, V>>, log: seq<Entry<K, V>>, target: seq<nat>,
                                   asked: seq<Op<K, V>>)
    requires |target| == |asked|
  {
    && (forall j :: 0 <= j < |box| && box[j].Request? ==> box[j].id < |asked| && box[j].op == asked[box[j].id])
    && (forall n, j :: 0 <= n < |log| && 0 <= j < |box| && box[j].Request? ==>
          (log[n].id < |target| && target[log[n].id] == i ==> log[n].id < box[j].id))
  }

  /** Each processed operation is the one that was asked, and each shard processes in the order of asking. */
  ghost predicate LogAsAsked<K, V>(log: seq<Entry<K, V>>, target: seq<nat>, asked: seq<Op<K, V>>)
    requires |target| == |asked|
  {
    && (forall n :: 0 <= n < |log| ==> log[n].id < |asked| && log[n].op == asked[log[n].id])
    && (forall m, n :: 0 <= m < n < |log| && target[log[m].id] == target[log[n].id] ==> log[m].id < log[n].id)
  }

  ghost predicate AsAsked<K, V>(c: Config<K>, s: State<K, V>, asked: seq<Op<K, V>>) {
    && |asked| == |s.target|
    && (forall id :: 0 <= id < |asked| ==> s.target[id] == Target(c, asked[id]))
    && (forall i :: 0 <= i < |s.boxes| ==> BoxAsAsked(i, s.boxes[i], s.log, s.target, asked))
    && LogAsAsked(s.log, s.target, asked)
  }

  lemma SubmitAsAsked<K, V>(c: Config<K>, s: State<K, V>, asked: seq<Op<K, V>>, op: Op<K, V>)
    requires Shape(c, s) && AsAsked(c, s, asked) && Next(c, s, Submit(op)).Some?
    ensures AsAsked(c, Next(c, s, Submit(op)).value, asked + [op])
  {
    var s' := Next(c, s, Submit(op)).value;
    forall i | 0 <= i < |s'.boxes| ensures BoxAsAsked(i, s'.boxes[i], s'.log, s'.target, asked + [op]) {
      assert BoxAsAsked(i, s.boxes[i], s.log, s.target, asked);
    }
  }

  lemma TakeAsAsked<K, V>(i: nat, box: seq<Command<K, V>>, log: seq<Entry<K, V>>, target: seq<nat>,
                          asked: seq<Op<K, V>>)
    requires |target| == |asked| && box != [] && BoxAsAsked(i, box, log, target, asked)
    ensures BoxAsAsked(i, box[1..], log, target, asked)
  {
  }

  /** Processing the front of mailbox `i`, seen from mailbox `j`. */
  lemma AnswerAsAsked<K, V>(i: nat, j: nat, box: seq<Command<K, V>>, log: seq<Entry<K, V>>, e: Entry<K, V>,
                            target: seq<nat>, asked: seq<Op<K, V>>)
    requires |target| == |asked| && BoxAsAsked(j, box, log, target, asked) && e.id < |target| && target[e.id] == i
    requires i == j ==> forall k :: 0 <= k < |box| && box[k].Request? ==> e.id < box[k].id
    ensures BoxAsAsked(j, box, log + [e], target, asked)
  {
  }

  lemma LogAnswerAsAsked<K, V>(i: nat, box: seq<Command<K, V>>, log: seq<Entry<K, V>>, e: Entry<K, V>,
                               target: seq<nat>, asked: seq<Op<K, V>>)
    requires |target| == |asked| && LogAsAsked(log, target, asked) && BoxAsAsked(i, box, log, target, asked)
    requires box != [] && box[0] == Request(e.id, e.op) && e.id < |target| && target[e.id] == i
    ensures LogAsAsked(log + [e], target, asked)
  {
  }

  lemma StopAsAsked<K, V>(c: Config<K>, s: State<K, V>, asked: seq<Op<K, V>>, i: nat)
    requires Inv(c, s) && AsAsked(c, s, asked) && Next(c, s, Process(i)).Some? && s.boxes[i][0].Stop?
    ensures AsAsked(c, Next(c, s, Process(i)).value, asked)
  {
    assert BoxAsAsked(i, s.boxes[i], s.log, s.target, asked);
    TakeAsAsked(i, s.boxes[i], s.log, s.target, asked);
  }

  lemma RequestAsAsked<K, V>(c: Config<K>, s: State<K, V>, asked: seq<Op<K, V>>, i: nat, e: Entry<K, V>)
    requires AsAsked(c, s, asked) && Answers(c, s, i, e) && BoxesOk(c, s.boxes, s.replies, s.target)
    ensures AsAsked(c, Answered(s, i, e), asked)
  {
    var s' := Answered(s, i, e);
    assert BoxOk(c, i, s.boxes[i], s.replies, s.target);
    assert BoxAsAsked(i, s.boxes[i], s.log, s.target, asked);
    assert s.boxes[i][0].id == e.id && s.target[e.id] == i;
    LogAnswerAsAsked(i, s.boxes[i], s.log, e, s.target, asked);
    TakeAsAsked(i, s.boxes[i], s.log, s.target, asked);
    forall j | 0 <= j < |s'.boxes| ensures BoxAsAsked(j, s'.boxes[j], s'.log, s'.target, asked) {
      assert BoxAsAsked(j, s.boxes[j], s.log, s.target, asked);
      AnswerAsAsked(i, j, s'.boxes[j], s.log, e, s.target, asked);
    }
  }

  lemma ProcessAsAsked<K, V>(c: Config<K>, s: State<K, V>, asked: seq<Op<K, V>>, i: nat)
    requires Inv(c, s) && AsAsked(c, s, asked) && Next(c, s, Process(i)).Some?
    ensures AsAsked(c, Next(c, s, Process(i)).value, asked)
  {
    if s.boxes[i][0].Stop? {
      StopAsAsked(c, s, asked, i);
    } else {
      assert BoxOk(c, i, s.boxes[i], s.replies, s.target);
      var e := ProcessAnswers(c, s, i);
      RequestAsAsked(c, s, asked, i, e);
    }
  }

  lemma SendStopAsAsked<K, V>(c: Config<K>, s: State<K, V>, asked: seq<Op<K, V>>)
    requires Shape(c, s) && AsAsked(c, s, asked) && Next(c, s, SendStop).Some?
    ensures AsAsked(c, Next(c, s, SendStop).value, asked)
  {
    var s' := Next(c, s, SendStop).value;
    forall i | 0 <= i < |s'.boxes| ensures BoxAsAsked(i, s'.boxes[i], s'.log, s'.target, asked) {
      assert BoxAsAsked(i, s.boxes[i], s.log, s.target, asked);
    }
  }

  lemma StepAsAsked<K, V>(c: Config<K>, s: State<K, V>, asked: seq<Op<K, V>>, a: Action<K, V>)
    requires Inv(c, s) && AsAsked(c, s, asked) && Next(c, s, a).Some?
    ensures AsAsked(c, Next(c, s, a).value, asked + if a.Submit? then [a.op] else [])
  {
    assert asked + [] == asked;
    match a {
      case Submit(op) => SubmitAsAsked(c, s, asked, op);
      case Process(i) => ProcessAsAsked(c, s, asked, i);
      case SendStop => SendStopAsAsked(c, s, asked);
      case _ =>
    }
  }

  /**
   * In every run, what is processed is what callers asked for, on the shard that
   * the placement names, and each shard processes in the order of asking.
   */
  lemma {:induction false} ProcessedAsAsked<K, V>(c: Config<K>, trace: seq<Action<K, V>>)
    requires Run(c, trace).Some?
    ensures AsAsked(c, Run(c, trace).value, Asked(trace))
  {
    if trace != [] {
      var before, a := trace[..|trace| - 1], trace[|trace| - 1];
      var s := Run(c, before).value;
      ProcessedAsAsked(c, before);
      Reachable(c, before);
      StepAsAsked(c, s, Asked(before), a);
    }
  }

  /**
   * What the answers mean: in every run each processed operation is answered by the
   * operations before it alone. A read finds what the last one left, a
   * compare-and-put succeeds exactly when that is what it expected, a length counts
   * the keys that hold something; and each shard holds just that.
   */
  lemma AnswersAreRight<K, V>(c: Config<K>, trace: seq<Action<K, V>>)
    requires Run(c, trace).Some?
    ensures var s := Run(c, trace).value;
            && AllRight(PlacedOn(c.place), Events(s.log))
            && (forall k :: c.place(k) < c.shardCount ==>
                  Lookup(s.contents[c.place(k)], k) == Current(Events(s.log), k))
  {
    Reachable(c, trace);
    var s := Run(c, trace).value;
    LegalIsRight(c.place, s.log);
    forall k | c.place(k) < c.shardCount ensures Lookup(s.contents[c.place(k)], k) == Current(Events(s.log), k) {
      HoldsEverywhere(Replay(c.place, s.log), Events(s.log), k);
    }
  }

  // ----- what is accepted -----

  lemma {:induction false} StoppedExactlyWhen<K, V>(c: Config<K>, trace: seq<Action<K, V>>)
    requires Run(c, trace).Some?
    ensures Run(c, trace).value.stopped <==> BeginShutdown in trace
  {
    if trace != [] {
      StoppedExactlyWhen(c, trace[..|trace| - 1]);
    }
  }

  /** The accepted requests for shard `t` that were not processed yet. */
  ghost function Waiting<K, V>(s: State<K, V>, t: nat): set<RequestId> {
    set id | 0 <= id < |s.target| && s.target[id] == t && !Processed(s.log, id)
  }

  ghost function IdsIn<K, V>(box: seq<Command<K, V>>): set<RequestId> {
    set j | 0 <= j < |box| && box[j].Request? :: box[j].id
  }

  lemma {:induction false} CountIds<K, V>(box: seq<Command<K, V>>)
    requires forall j :: 0 <= j < |box| ==> box[j].Request?
    requires forall j, k :: 0 <= j < k < |box| ==> box[j].id < box[k].id
    ensures |IdsIn(box)| == |box|
  {
    if box != [] {
      var k := |box| - 1;
      CountIds(box[..k]);
      IdsSnoc(box[..k], box[k]);
      assert box == box[..k] + [box[k]];
    }
  }

  lemma IdsSnoc<K, V>(box: seq<Command<K, V>>, last: Command<K, V>)
    requires last.Request? && forall j :: 0 <= j < |box| && box[j].Request? ==> box[j].id != last.id
    ensures IdsIn(box + [last]) == IdsIn(box) + {last.id} && last.id !in IdsIn(box)
  {
    var longer := box + [last];
    forall id | id in IdsIn(box) ensures id in IdsIn(longer) {
      var j :| 0 <= j < |box| && box[j].Request? && box[j].id == id;
      assert longer[j].id == id;
    }
    assert longer[|box|].id in IdsIn(longer);
  }

  /** Until a stop is sent, a mailbox holds exactly the requests that wait for its shard. */
  lemma BoxIsWaiting<K, V>(c: Config<K>, s: State<K, V>, t: nat)
    requires Inv(c, s) && t < c.shardCount && s.stopsSent == 0
    ensures |s.boxes[t]| == |Waiting(s, t)|
  {
    var box := s.boxes[t];
    assert BoxOk(c, t, box, s.replies, s.target);
    assert StopOk(t < s.stopsSent, box, s.exited[t]);
    CountIds(box);
    forall id ensures id in IdsIn(box) <==> id in Waiting(s, t) {
      if id in IdsIn(box) {
        var j :| 0 <= j < |box| && box[j].Request? && box[j].id == id;
        QueuedIsNotProcessed(s.log, s.replies, id, box[j].id);
      }
      if id in Waiting(s, t) {
        assert s.replies[id].senderAlive;
        assert Queued(box, id);
        var j :| 0 <= j < |box| && box[j].Request? && box[j].id == id;
        assert box[j].id in IdsIn(box);
      }
    }
    assert IdsIn(box) == Waiting(s, t);
  }

  lemma QueuedIsNotProcessed<K, V>(log: seq<Entry<K, V>>, replies: Replies<V>, id: RequestId, same: RequestId)
    requires id == same < |replies| && replies[id].senderAlive
    requires forall n :: 0 <= n < |log| ==> log[n].id < |replies| && !replies[log[n].id].senderAlive
    ensures !Processed(log, id)
  {
  }

  /**
   * A request is accepted exactly when the service has not begun to shut down, its
   * shard exists, and fewer requests than the capacity wait for that shard.
   */
  lemma AcceptedExactlyWhen<K, V>(c: Config<K>, trace: seq<Action<K, V>>, op: Op<K, V>)
    requires Run(c, trace).Some?
    ensures var s := Run(c, trace).value;
            Next(c, s, Submit(op)).Some? <==>
            BeginShutdown !in trace && Target(c, op) < c.shardCount && |Waiting(s, Target(c, op))| < c.capacity
  {
    Reachable(c, trace);
    StoppedExactlyWhen(c, trace);
    var s, t := Run(c, trace).value, Target(c, op);
    if !s.stopped && t < c.shardCount {
      BoxIsWaiting(c, s, t);
      assert StopOk(t < s.stopsSent, s.boxes[t], s.exited[t]);
    }
  }

  /** A reply can be collected exactly when its request was processed and the reply was not collected before. */
  lemma CollectedExactlyWhen<K, V>(c: Config<K>, trace: seq<Action<K, V>>, id: RequestId)
    requires Run(c, trace).Some?
    ensures var s := Run(c, trace).value;
            Next(c, s, Collect(id)).Some? <==> Processed(s.log, id) && id !in s.returned
  {
    Reachable(c, trace);
    var s := Run(c, trace).value;
    if id < |s.replies| {
      AliveIsFresh(c, s, id);
      ReplyWaits(s.log, s.replies, s.invoked, s.returned, s.now, id);
    }
  }

  lemma ReplyWaits<K, V>(log: seq<Entry<K, V>>, replies: Replies<V>, invoked: seq<nat>,
                         returned: map<RequestId, Return<V>>, now: nat, id: RequestId)
    requires |replies| == |invoked| && id < |replies| && Logged(log, replies, invoked, returned, now)
    requires if replies[id].senderAlive then replies[id] == Reply.Fresh() else Processed(log, id)
    ensures replies[id].value.Some? <==> Processed(log, id) && id !in returned
  {
    if Processed(log, id) {
      var n :| 0 <= n < |log| && log[n].id == id;
      assert !replies[log[n].id].senderAlive;
    }
  }

  /** Shards are stopped one after another: a stop goes out only when the shard before has exited. */
  lemma {:induction false} StoppedInTurn<K, V>(c: Config<K>, trace: seq<Action<K, V>>, i: nat)
    requires Run(c, trace).Some? && i < c.shardCount
    ensures var s := Run(c, trace).value;
            (i + 1 < s.stopsSent ==> s.exited[i]) && (s.exited[i] ==> i < s.stopsSent)
  {
    if trace != [] {
      var before := trace[..|trace| - 1];
      StoppedInTurn(c, before, i);
      Reachable(c, before);
      StepStopsInTurn(c, Run(c, before).value, trace[|trace| - 1], i);
    }
  }

  lemma StepStopsInTurn<K, V>(c: Config<K>, s: State<K, V>, a: Action<K, V>, i: nat)
    requires Shape(c, s) && Stopping(s.stopped, s.stopsSent, s.boxes, s.exited) && i < c.shardCount
    requires (i + 1 < s.stopsSent ==> s.exited[i]) && (s.exited[i] ==> i < s.stopsSent) && Next(c, s, a).Some?
    ensures var s' := Next(c, s, a).value;
            (i + 1 < s'.stopsSent ==> s'.exited[i]) && (s'.exited[i] ==> i < s'.stopsSent)
  {
    assert StopOk(i < s.stopsSent, s.boxes[i], s.exited[i]);
  }

  /** Real-time order: a request that returned before another was submitted precedes it in the history. */
  lemma RealTimeOrder<K, V>(c: Config<K>, trace: seq<Action<K, V>>, m: nat, n: nat)
    requires Run(c, trace).Some?
    requires var s := Run(c, trace).value;
             && m < |s.log| && n < |s.log| && s.log[m].id in s.returned && s.log[n].id < |s.invoked|
             && s.returned[s.log[m].id].at < s.invoked[s.log[n].id]
    ensures m < n
  {
    Reachable(c, trace);
  }

  /** Placement: every stored key lives on the shard its placement names and nowhere else, and the lengths add up. */
  lemma OneMapInParts<K, V>(c: Config<K>, trace: seq<Action<K, V>>)
    requires Run(c, trace).Some?
    ensures var s, m := Run(c, trace).value, Replay(c.place, Run(c, trace).value.log);
            && (forall i, k :: 0 <= i < c.shardCount && k in s.contents[i] ==>
                  c.place(k) == i && k in m && m[k] == s.contents[i][k])
            && (forall i :: 0 <= i < c.shardCount ==> s.contents[i] == OnShard(m, c.place, i))
            && (forall k :: k in m ==> c.place(k) < c.shardCount && k in s.contents[c.place(k)])
            && SumLengths(m, c.place, c.shardCount) == |m|
  {
    Reachable(c, trace);
    var m := Replay(c.place, Run(c, trace).value.log);
    LengthsAddUp(m, c.place, c.shardCount);
    assert Below(m, c.place, c.shardCount) == m.Keys;
  }

  /** Shutdown: when a shard has exited, every request ever accepted for it was processed and answered. */
  lemma ShutdownAnswersAll<K, V>(c: Config<K>, trace: seq<Action<K, V>>, id: RequestId)
    requires Run(c, trace).Some?
    requires var s := Run(c, trace).value; id < |s.target| && s.target[id] < c.shardCount && s.exited[s.target[id]]
    ensures var s := Run(c, trace).value;
            Processed(s.log, id) && (s.replies[id].value.Some? || id in s.returned)
  {
    Reachable(c, trace);
    var s := Run(c, trace).value;
    assert StopOk(s.target[id] < s.stopsSent, s.boxes[s.target[id]], true);
    assert !Queued(s.boxes[s.target[id]], id);
    var n :| 0 <= n < |s.log| && s.log[n].id == id;
  }

  /** Commands still to be taken, plus two for every stop not yet sent. */
  function ShutdownWork<K, V>(c: Config<K>, s: State<K, V>): int {
    QueuedCommands(s.boxes) + 2 * (c.shardCount - s.stopsSent)
  }

  function QueuedCommands<K, V>(boxes: Boxes<K, V>): nat {
    if boxes == [] then 0 else |boxes[0]| + QueuedCommands(boxes[1..])
  }

  lemma {:induction false} QueuedCommandsUpdate<K, V>(boxes: Boxes<K, V>, i: nat, box: seq<Command<K, V>>)
    requires i < |boxes|
    ensures QueuedCommands(boxes[i := box]) == QueuedCommands(boxes) - |boxes[i]| + |box|
  {
    if i == 0 {
      assert boxes[i := box][1..] == boxes[1..];
    } else {
      assert boxes[i := box][1..] == boxes[1..][i - 1 := box];
      QueuedCommandsUpdate(boxes[1..], i - 1, box);
    }
  }

  /**
   * Shutdown ends: once it has begun no request is accepted, every step of a
   * shard or of the stopping loop leaves less to do, and while some shard has
   * not exited such a step is possible.
   */
  lemma ShutdownTerminates<K, V>(c: Config<K>, trace: seq<Action<K, V>>, a: Action<K, V>)
    requires c.capacity > 0 && Run(c, trace).Some? && Run(c, trace).value.stopped
    ensures var s := Run(c, trace).value;
            && ShutdownWork(c, s) >= 0
            && (Next(c, s, a).Some? ==> !a.Submit? && Next(c, s, a).value.stopped)
            && ((a.Process? || a.SendStop?) && Next(c, s, a).Some? ==>
                  ShutdownWork(c, Next(c, s, a).value) < ShutdownWork(c, s))
            && ((exists i :: 0 <= i < c.shardCount && !s.exited[i]) ==>
                  Next(c, s, SendStop).Some? || exists i: nat :: Next(c, s, Process(i)).Some?)
  {
    Reachable(c, trace);
    var s := Run(c, trace).value;
    match a {
      case Process(i) =>
        if Next(c, s, a).Some? {
          QueuedCommandsUpdate(s.boxes, i, s.boxes[i][1..]);
        }
      case SendStop =>
        if Next(c, s, a).Some? {
          QueuedCommandsUpdate(s.boxes, s.stopsSent, s.boxes[s.stopsSent] + [Stop]);
        }
      case _ =>
    }
    if i :| 0 <= i < c.shardCount && !s.exited[i] {
      SomeStepIsEnabled(c, s, i);
    }
  }

  /** A shard that has not exited can process the front of its mailbox. */
  lemma BusyShardProcesses<K, V>(c: Config<K>, s: State<K, V>, i: nat)
    requires Shape(c, s) && i < c.shardCount && !s.exited[i] && s.boxes[i] != []
    requires BoxOk(c, i, s.boxes[i], s.replies, s.target)
    ensures Next(c, s, Process(i)).Some?
  {
  }

  lemma SomeStepIsEnabled<K, V>(c: Config<K>, s: State<K, V>, i: nat)
    requires c.capacity > 0 && Inv(c, s) && s.stopped && i < c.shardCount && !s.exited[i]
    ensures Next(c, s, SendStop).Some? || exists i: nat :: Next(c, s, Process(i)).Some?
  {
    if !StopIsReady(c, s) {
      var busy := SomeShardIsBusy(c.capacity, s.stopsSent, s.boxes, s.exited, i);
      BusyShardProcesses(c, s, busy);
    } else {
      StopGoesOut(c, s);
    }
  }

  /** The next shard has room for its stop, and the one before it has exited. */
  predicate StopIsReady<K, V>(c: Config<K>, s: State<K, V>)
    requires Shape(c, s)
  {
    var t := s.stopsSent;
    t < c.shardCount && |s.boxes[t]| < c.capacity && (t > 0 ==> s.exited[t - 1])
  }

  lemma StopGoesOut<K, V>(c: Config<K>, s: State<K, V>)
    requires Shape(c, s) && s.stopped && StopIsReady(c, s)
    ensures Next(c, s, SendStop).Some?
  {
  }

  /** When no stop can be sent, some shard still has commands. */
  lemma SomeShardIsBusy<K, V>(capacity: nat, t: nat, boxes: Boxes<K, V>, exited: seq<bool>, i: nat)
    returns (busy: nat)
    requires capacity > 0 && |boxes| == |exited| && Stopping(true, t, boxes, exited)
    requires i < |boxes| && !exited[i]
    requires t < |boxes| && |boxes[t]| < capacity ==> t > 0 && !exited[t - 1]
    ensures busy < |boxes| && !exited[busy] && boxes[busy] != []
  {
    busy := if t == |boxes| then i else if t > 0 && !exited[t - 1] then t - 1 else t;
    assert StopOk(busy < t, boxes[busy], exited[busy]);
  }
}
