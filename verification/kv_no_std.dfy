/**
 * The key-value service for foreign runtimes. A request carries its own reply
 * ring, and the shard ignores whether its push into that ring succeeded. Every
 * run of it is a run of the sharded service with one-shot replies, so its
 * answers are those of one map too.
 */
module NoStdKv {
  import opened Wrappers
  import opened SequentialMap
  import KvService
  import ShardedKv
  import Reply

  type RequestId = nat

  datatype Command<+K, +V> = Get(key: K) | Put(key: K, value: V) | Len

  datatype ReplyValue<+V> = Unit | StringOption(current: Option<V>) | Usize(n: nat)

  datatype Envelope<+K, +V> = Envelope(id: RequestId, command: Command<K, V>)

  /** The body of the shard's loop. */
  function Serve<K, V>(m: map<K, V>, command: Command<K, V>): (map<K, V>, ReplyValue<V>) {
    match command
    case Get(k) => (m, StringOption(Lookup(m, k)))
    case Put(k, v) => (m[k := v], Unit)
    case Len => (m, Usize(|m|))
  }

  /** The variant that the typed receive of this command accepts; any other is `ReplyFailed`. */
  predicate Fits<K, V>(command: Command<K, V>, v: ReplyValue<V>) {
    match command
    case Get(_) => v.StringOption?
    case Put(_, _) => v.Unit?
    case Len => v.Usize?
  }

  method Handle<K(==), V>(contents: map<K, V>, command: Command<K, V>) returns (contents': map<K, V>, v: ReplyValue<V>)
    ensures (contents', v) == Serve(contents, command) && Fits(command, v)
  {
    contents' := contents;
    match command {
      case Get(k) => v := StringOption(if k in contents then Some(contents[k]) else None);
      case Put(k, value) =>
        contents' := contents[k := value];
        v := Unit;
      case Len => v := Usize(|contents|);
    }
  }

  const REPLY_CAPACITY := 2

  /** A push into a reply ring, which keeps one slot free. */
  function Push<V>(ring: seq<ReplyValue<V>>, v: ReplyValue<V>): (seq<ReplyValue<V>>, bool) {
    if |ring| < REPLY_CAPACITY - 1 then (ring + [v], true) else (ring, false)
  }

  /**
   * `contents` and `boxes` are per shard; `rings` to `target` per accepted request;
   * `refused` counts the pushes that failed.
   */
  datatype State<!K, !V> = State(
    now: nat,
    contents: seq<map<K, V>>,
    boxes: seq<seq<Envelope<K, V>>>,
    rings: seq<seq<ReplyValue<V>>>,
    served: seq<bool>,
    commands: seq<Command<K, V>>,
    invoked: seq<nat>,
    target: seq<nat>,
    refused: nat,
    log: seq<ShardedKv.Entry<K, V>>,
    returned: map<RequestId, ShardedKv.Return<V>>
  )

  datatype Action<+K, +V> = Ask(command: Command<K, V>, shard: nat) | ServeFront(shard: nat) | Pop(id: RequestId)

  function Target<K, V>(c: ShardedKv.Config<K>, command: Command<K, V>, shard: nat): nat {
    if command.Len? then shard else c.place(command.key)
  }

  function ToOp<K, V>(command: Command<K, V>, shard: nat): Op<K, V> {
    match command
    case Get(k) => Op.Get(k)
    case Put(k, v) => Op.Put(k, v)
    case Len => Op.LenOf(shard)
  }

  function ToAnswer<V>(v: ReplyValue<V>): Answer<V> {
    match v
    case Unit => Done
    case StringOption(current) => Found(current)
    case Usize(n) => Length(n)
  }

  predicate Shape<K, V>(c: ShardedKv.Config<K>, s: State<K, V>) {
    && |s.contents| == |s.boxes| == c.shardCount
    && |s.rings| == |s.served| == |s.commands| == |s.invoked| == |s.target|
  }

  function Init<K, V>(c: ShardedKv.Config<K>): State<K, V> {
    State(0, seq(c.shardCount, _ => map[]), seq(c.shardCount, _ => []), [], [], [], [], [], 0, [], map[])
  }

  /** One step of a caller or a shard; `None` when a request is refused or there is nothing to do. */
  function Next<K, V>(c: ShardedKv.Config<K>, s: State<K, V>, a: Action<K, V>): Option<State<K, V>>
    requires Shape(c, s)
  {
    match a
    case Ask(command, shard) =>
      var t := Target(c, command, shard);
      if t >= c.shardCount || |s.boxes[t]| >= c.capacity - 1 then None
      else
        Some(s.(now := s.now + 1,
                boxes := s.boxes[t := s.boxes[t] + [Envelope(|s.rings|, command)]],
                rings := s.rings + [[]],
                served := s.served + [false],
                commands := s.commands + [command],
                invoked := s.invoked + [s.now],
                target := s.target + [t]))
    case ServeFront(i) =>
      if i >= c.shardCount || s.boxes[i] == [] || s.boxes[i][0].id >= |s.rings| then None
      else
        var e := s.boxes[i][0];
        var (contents, v) := Serve(s.contents[i], e.command);
        var (ring, ok) := Push(s.rings[e.id], v);
        Some(s.(now := s.now + 1,
                contents := s.contents[i := contents],
                boxes := s.boxes[i := s.boxes[i][1..]],
                rings := s.rings[e.id := ring],
                served := s.served[e.id := true],
                refused := if ok then s.refused else s.refused + 1,
                log := s.log + [ShardedKv.Entry(e.id, ToOp(e.command, i), ToAnswer(v), s.now)]))
    case Pop(id) =>
      if id >= |s.rings| || s.rings[id] == [] then None
      else
        Some(s.(now := s.now + 1,
                rings := s.rings[id := s.rings[id][1..]],
                returned := s.returned[id := ShardedKv.Return(ToAnswer(s.rings[id][0]), s.now)]))
  }

  function Run<K, V>(c: ShardedKv.Config<K>, trace: seq<Action<K, V>>): (r: Option<State<K, V>>)
    ensures r.Some? ==> Shape(c, r.value)
  {
    if trace == [] then Some(Init(c))
    else
      match Run(c, trace[..|trace| - 1])
      case None => None
      case Some(s) => Next(c, s, trace[|trace| - 1])
  }

  // ----- the sharded service that it refines -----

  /** A ring of this capacity is a mailbox of one less. */
  function AbsConfig<K>(c: ShardedKv.Config<K>): ShardedKv.Config<K>
    requires c.capacity > 0
  {
    c.(capacity := c.capacity - 1)
  }

  function AbsBox<K, V>(box: seq<Envelope<K, V>>, i: nat): seq<KvService.Command<K, V>> {
    seq(|box|, j requires 0 <= j < |box| => KvService.Request(box[j].id, ToOp(box[j].command, i)))
  }

  function AbsAnswers<V>(replies: seq<(RequestId, ReplyValue<V>)>): seq<(nat, Answer<V>)> {
    seq(|replies|, i requires 0 <= i < |replies| => (replies[i].0, ToAnswer(replies[i].1)))
  }

  /** The first envelopes were answered in order, rightly and with the expected variants. */
  ghost predicate Replied<K, V>(envelopes: seq<Envelope<K, V>>, replies: seq<(RequestId, ReplyValue<V>)>,
                                contents: map<K, V>)
  {
    Matched(envelopes, replies) && KvService.Answered(AbsBox(envelopes, 0), AbsAnswers(replies), contents)
  }

  ghost predicate Matched<K, V>(envelopes: seq<Envelope<K, V>>, replies: seq<(RequestId, ReplyValue<V>)>) {
    && |replies| <= |envelopes|
    && (forall i :: 0 <= i < |replies| ==>
          replies[i].0 == envelopes[i].id && Fits(envelopes[i].command, replies[i].1))
  }

  lemma OneMoreReply<K, V>(envelopes: seq<Envelope<K, V>>, replies: seq<(RequestId, ReplyValue<V>)>,
                           contents: map<K, V>, v: ReplyValue<V>)
    requires |replies| < |envelopes| && Replied(envelopes, replies, contents)
    requires v == Serve(contents, envelopes[|replies|].command).1
    ensures var e := envelopes[|replies|];
            Replied(envelopes, replies + [(e.id, v)], Serve(contents, e.command).0)
  {
    ReplyMatches(envelopes, replies, contents, v);
    ReplyIsAnswer(envelopes, replies, contents, v);
  }

  lemma ReplyMatches<K, V>(envelopes: seq<Envelope<K, V>>, replies: seq<(RequestId, ReplyValue<V>)>,
                           contents: map<K, V>, v: ReplyValue<V>)
    requires |replies| < |envelopes| && Matched(envelopes, replies)
    requires v == Serve(contents, envelopes[|replies|].command).1
    ensures Matched(envelopes, replies + [(envelopes[|replies|].id, v)])
  {
    ServeAgrees(contents, envelopes[|replies|].command, 0);
  }

  lemma ReplyIsAnswer<K, V>(envelopes: seq<Envelope<K, V>>, replies: seq<(RequestId, ReplyValue<V>)>,
                            contents: map<K, V>, v: ReplyValue<V>)
    requires |replies| < |envelopes| && v == Serve(contents, envelopes[|replies|].command).1
    requires KvService.Answered(AbsBox(envelopes, 0), AbsAnswers(replies), contents)
    ensures var e := envelopes[|replies|];
            KvService.Answered(AbsBox(envelopes, 0), AbsAnswers(replies + [(e.id, v)]), Serve(contents, e.command).0)
  {
    var e := envelopes[|replies|];
    ServeAgrees(contents, e.command, 0);
    KvService.OneMoreAnswer(AbsBox(envelopes, 0), AbsAnswers(replies), contents);
    assert AbsAnswers(replies + [(e.id, v)]) == AbsAnswers(replies) + [(e.id, ToAnswer(v))];
  }

  /**
   * The shard's task, on the envelopes it will receive before the channel ends: as
   * the shard of the other service, it answers each rightly after those before it.
   */
  method KvShardTask<K(==), V>(envelopes: seq<Envelope<K, V>>)
    returns (contents: map<K, V>, replies: seq<(RequestId, ReplyValue<V>)>)
    ensures |replies| == |envelopes| && Replied(envelopes, replies, contents)
  {
    contents, replies := map[], [];
    for i := 0 to |envelopes|
      invariant |replies| == i && Replied(envelopes, replies, contents)
    {
      ghost var before := contents;
      var v;
      contents, v := Handle(contents, envelopes[i].command);
      OneMoreReply(envelopes, replies, before, v);
      replies := replies + [(envelopes[i].id, v)];
    }
  }

  function AbsReply<V>(ring: seq<ReplyValue<V>>, served: bool): Reply.State<Answer<V>> {
    Reply.State(if ring == [] then None else Some(ToAnswer(ring[0])), !served, None)
  }

  function AbsBoxes<K, V>(boxes: seq<seq<Envelope<K, V>>>): ShardedKv.Boxes<K, V> {
    seq(|boxes|, i requires 0 <= i < |boxes| => AbsBox(boxes[i], i))
  }

  function AbsReplies<V>(rings: seq<seq<ReplyValue<V>>>, served: seq<bool>): ShardedKv.Replies<V>
    requires |rings| == |served|
  {
    seq(|rings|, id requires 0 <= id < |rings| => AbsReply(rings[id], served[id]))
  }

  function Abs<K, V>(c: ShardedKv.Config<K>, s: State<K, V>): ShardedKv.State<K, V>
    requires Shape(c, s)
  {
    ShardedKv.State(s.now, false, 0, s.contents, AbsBoxes(s.boxes), seq(c.shardCount, _ => false),
                    AbsReplies(s.rings, s.served), s.invoked, s.target, s.log, s.returned)
  }

  function AbsAction<K, V>(a: Action<K, V>): ShardedKv.Action<K, V> {
    match a
    case Ask(command, shard) => ShardedKv.Submit(ToOp(command, shard))
    case ServeFront(i) => ShardedKv.Process(i)
    case Pop(id) => ShardedKv.Collect(id)
  }

  function AbsTrace<K, V>(trace: seq<Action<K, V>>): seq<ShardedKv.Action<K, V>> {
    seq(|trace|, i requires 0 <= i < |trace| => AbsAction(trace[i]))
  }

  /** What the reply rings add: one value at most, of the variant its caller expects, and no push refused. */
  ghost predicate RingsOk<K, V>(s: State<K, V>)
    requires |s.rings| == |s.commands|
  {
    && s.refused == 0
    && (forall id :: 0 <= id < |s.rings| ==> |s.rings[id]| <= 1)
    && (forall id, j :: 0 <= id < |s.rings| && 0 <= j < |s.rings[id]| ==> Fits(s.commands[id], s.rings[id][j]))
    && (forall i, j :: 0 <= i < |s.boxes| && 0 <= j < |s.boxes[i]| ==>
          s.boxes[i][j].id < |s.commands| && s.commands[s.boxes[i][j].id] == s.boxes[i][j].command)
  }

  /** Every processed operation is the one its caller asked for. */
  ghost predicate LogOk<K, V>(s: State<K, V>)
    requires |s.commands| == |s.target|
  {
    forall n :: 0 <= n < |s.log| ==>
      s.log[n].id < |s.commands| && s.log[n].op == ToOp(s.commands[s.log[n].id], s.target[s.log[n].id])
  }

  lemma AskRefines<K, V>(c: ShardedKv.Config<K>, s: State<K, V>, command: Command<K, V>, shard: nat)
    requires c.capacity > 0 && Shape(c, s) && Next(c, s, Ask(command, shard)).Some?
    ensures var s' := Next(c, s, Ask(command, shard)).value;
            ShardedKv.Next(AbsConfig(c), Abs(c, s), ShardedKv.Submit(ToOp(command, shard))) == Some(Abs(c, s'))
  {
    var t := Target(c, command, shard);
    var e := Envelope(|s.rings|, command);
    assert AbsBox(s.boxes[t] + [e], t) == AbsBox(s.boxes[t], t) + [KvService.Request(e.id, ToOp(command, t))];
    assert AbsBoxes(s.boxes[t := s.boxes[t] + [e]]) == AbsBoxes(s.boxes)[t := AbsBox(s.boxes[t] + [e], t)];
    assert AbsReplies(s.rings + [[]], s.served + [false]) == AbsReplies(s.rings, s.served) + [Reply.Fresh()];
  }

  lemma ServeAgrees<K, V>(m: map<K, V>, command: Command<K, V>, i: nat)
    ensures KvService.Serve(m, ToOp(command, i)) == (Serve(m, command).0, ToAnswer(Serve(m, command).1))
    ensures Fits(command, Serve(m, command).1)
  {
  }

  /** The reply ring of a request still in a mailbox is empty, so the push whose result is ignored succeeds. */
  lemma FrontRingIsEmpty<K, V>(c: ShardedKv.Config<K>, s: State<K, V>, i: nat)
    requires c.capacity > 0 && Shape(c, s) && ShardedKv.Inv(AbsConfig(c), Abs(c, s)) && i < c.shardCount
             && s.boxes[i] != []
    ensures var e := s.boxes[i][0]; e.id < |s.rings| && s.rings[e.id] == [] && !s.served[e.id] && s.target[e.id] == i
  {
    var k := Abs(c, s);
    assert ShardedKv.BoxOk(AbsConfig(c), i, k.boxes[i], k.replies, k.target);
    assert k.boxes[i][0].Request?;
  }

  lemma ServeRefines<K, V>(c: ShardedKv.Config<K>, s: State<K, V>, i: nat)
    requires c.capacity > 0 && Shape(c, s) && Next(c, s, ServeFront(i)).Some?
    requires var e := s.boxes[i][0]; s.rings[e.id] == [] && !s.served[e.id]
    ensures var s' := Next(c, s, ServeFront(i)).value;
            ShardedKv.Next(AbsConfig(c), Abs(c, s), ShardedKv.Process(i)) == Some(Abs(c, s'))
  {
    var e := s.boxes[i][0];
    var v := Serve(s.contents[i], e.command).1;
    ServeAgrees(s.contents[i], e.command, i);
    assert AbsBox(s.boxes[i][1..], i) == AbsBox(s.boxes[i], i)[1..];
    assert AbsBoxes(s.boxes[i := s.boxes[i][1..]]) == AbsBoxes(s.boxes)[i := AbsBox(s.boxes[i], i)[1..]];
    var k := Abs(c, s);
    assert k.boxes[i] == AbsBox(s.boxes[i], i) && k.boxes[i][0] == KvService.Request(e.id, ToOp(e.command, i));
    assert k.replies[e.id] == Reply.Fresh();
    assert AbsReplies(s.rings[e.id := Push(s.rings[e.id], v).0], s.served[e.id := true])
        == k.replies[e.id := Reply.Fresh().Send(ToAnswer(v)).0];
  }

  lemma PopRefines<K, V>(c: ShardedKv.Config<K>, s: State<K, V>, id: RequestId)
    requires c.capacity > 0 && Shape(c, s) && RingsOk(s) && Next(c, s, Pop(id)).Some?
    ensures var s' := Next(c, s, Pop(id)).value;
            ShardedKv.Next(AbsConfig(c), Abs(c, s), ShardedKv.Collect(id)) == Some(Abs(c, s'))
  {
    assert AbsReplies(s.rings[id := s.rings[id][1..]], s.served)
        == AbsReplies(s.rings, s.served)[id := AbsReply(s.rings[id], s.served[id]).TryWait().0];
  }

  lemma ServeKeepsRings<K, V>(c: ShardedKv.Config<K>, s: State<K, V>, i: nat)
    requires Shape(c, s) && RingsOk(s) && LogOk(s) && Next(c, s, ServeFront(i)).Some?
    requires var e := s.boxes[i][0]; s.rings[e.id] == [] && s.target[e.id] == i
    ensures RingsOk(Next(c, s, ServeFront(i)).value) && LogOk(Next(c, s, ServeFront(i)).value)
  {
    ServeAgrees(s.contents[i], s.boxes[i][0].command, i);
  }

  lemma StepKeepsRings<K, V>(c: ShardedKv.Config<K>, s: State<K, V>, a: Action<K, V>)
    requires c.capacity > 0 && Shape(c, s) && RingsOk(s) && LogOk(s) && ShardedKv.Inv(AbsConfig(c), Abs(c, s))
             && Next(c, s, a).Some?
    ensures RingsOk(Next(c, s, a).value) && LogOk(Next(c, s, a).value)
  {
    if a.ServeFront? {
      FrontRingIsEmpty(c, s, a.shard);
      ServeKeepsRings(c, s, a.shard);
    }
  }

  lemma StepRefines<K, V>(c: ShardedKv.Config<K>, s: State<K, V>, a: Action<K, V>)
    requires c.capacity > 0 && Shape(c, s) && RingsOk(s) && ShardedKv.Inv(AbsConfig(c), Abs(c, s))
             && Next(c, s, a).Some?
    ensures ShardedKv.Next(AbsConfig(c), Abs(c, s), AbsAction(a)) == Some(Abs(c, Next(c, s, a).value))
  {
    match a {
      case Ask(command, shard) => AskRefines(c, s, command, shard);
      case ServeFront(i) =>
        FrontRingIsEmpty(c, s, i);
        ServeRefines(c, s, i);
      case Pop(id) => PopRefines(c, s, id);
    }
  }

  lemma InitRefines<K, V>(c: ShardedKv.Config<K>)
    requires c.capacity > 0
    ensures Abs(c, Init<K, V>(c)) == ShardedKv.Init<K, V>(AbsConfig(c))
  {
    assert AbsBoxes(Init<K, V>(c).boxes) == ShardedKv.Init<K, V>(AbsConfig(c)).boxes;
  }

  /**
   * Refinement: every run of this service is, step for step, a run of the sharded
   * service with one-shot replies; and no reply push is ever refused.
   */
  lemma {:induction false} RefinesShardedKv<K, V>(c: ShardedKv.Config<K>, trace: seq<Action<K, V>>)
    requires c.capacity > 0 && Run(c, trace).Some?
    ensures RingsOk(Run(c, trace).value) && LogOk(Run(c, trace).value)
    ensures ShardedKv.Run(AbsConfig(c), AbsTrace(trace)) == Some(Abs(c, Run(c, trace).value))
  {
    if trace == [] {
      InitRefines<K, V>(c);
    } else {
      var shorter, a := trace[..|trace| - 1], trace[|trace| - 1];
      RefinesShardedKv(c, shorter);
      var s := Run(c, shorter).value;
      ShardedKv.Reachable(AbsConfig(c), AbsTrace(shorter));
      StepKeepsRings(c, s, a);
      StepRefines(c, s, a);
      assert AbsTrace(trace)[..|trace| - 1] == AbsTrace(shorter);
    }
  }

  /** Nothing is lost in the refinement: a step is possible exactly when the other service's step is. */
  lemma EnabledExactlyWhen<K, V>(c: ShardedKv.Config<K>, trace: seq<Action<K, V>>, a: Action<K, V>)
    requires c.capacity > 0 && Run(c, trace).Some?
    ensures var s := Run(c, trace).value;
            Next(c, s, a).Some? <==> ShardedKv.Next(AbsConfig(c), Abs(c, s), AbsAction(a)).Some?
  {
    var s := Run(c, trace).value;
    match a {
      case Ask(command, shard) => AskEnabled(c, s, command, shard);
      case ServeFront(i) =>
        FrontIsAsked(c, trace, i);
        ServeEnabled(c, s, i);
      case Pop(id) => PopEnabled(c, s, id);
    }
  }

  lemma FrontIsAsked<K, V>(c: ShardedKv.Config<K>, trace: seq<Action<K, V>>, i: nat)
    requires c.capacity > 0 && Run(c, trace).Some?
    ensures var s := Run(c, trace).value; i < c.shardCount && s.boxes[i] != [] ==> s.boxes[i][0].id < |s.rings|
  {
    RefinesShardedKv(c, trace);
    ShardedKv.Reachable(AbsConfig(c), AbsTrace(trace));
    if i < c.shardCount && Run(c, trace).value.boxes[i] != [] {
      FrontRingIsEmpty(c, Run(c, trace).value, i);
    }
  }

  lemma AskEnabled<K, V>(c: ShardedKv.Config<K>, s: State<K, V>, command: Command<K, V>, shard: nat)
    requires c.capacity > 0 && Shape(c, s)
    ensures Next(c, s, Ask(command, shard)).Some? <==>
            ShardedKv.Next(AbsConfig(c), Abs(c, s), ShardedKv.Submit(ToOp(command, shard))).Some?
  {
  }

  lemma ServeEnabled<K, V>(c: ShardedKv.Config<K>, s: State<K, V>, i: nat)
    requires c.capacity > 0 && Shape(c, s)
    requires i < c.shardCount && s.boxes[i] != [] ==> s.boxes[i][0].id < |s.rings|
    ensures Next(c, s, ServeFront(i)).Some? <==>
            ShardedKv.Next(AbsConfig(c), Abs(c, s), ShardedKv.Process(i)).Some?
  {
  }

  lemma PopEnabled<K, V>(c: ShardedKv.Config<K>, s: State<K, V>, id: RequestId)
    requires c.capacity > 0 && Shape(c, s)
    ensures Next(c, s, Pop(id)).Some? <==> ShardedKv.Next(AbsConfig(c), Abs(c, s), ShardedKv.Collect(id)).Some?
  {
  }

  /**
   * Every reply that a caller takes has the variant it expects, and is the answer
   * of one map at a moment between the request and the return.
   */
  lemma RepliesAreExact<K, V>(c: ShardedKv.Config<K>, trace: seq<Action<K, V>>)
    requires c.capacity > 0 && Run(c, trace).Some?
    ensures var s := Run(c, trace).value;
            && s.refused == 0
            && (forall id :: 0 <= id < |s.rings| && s.rings[id] != [] ==> Fits(s.commands[id], s.rings[id][0]))
            && ShardedKv.Legal(c.place, s.log)
            && AllRight(ShardedKv.PlacedOn(c.place), ShardedKv.Events(s.log))
            && (forall id :: id in s.returned ==>
                  exists n :: 0 <= n < |s.log| && s.log[n].id == id < |s.commands|
                              && s.log[n].op == ToOp(s.commands[id], s.target[id])
                              && s.log[n].answer == s.returned[id].answer
                              && s.invoked[id] < s.log[n].at < s.returned[id].at)
  {
    RefinesShardedKv(c, trace);
    ShardedKv.Linearizable(AbsConfig(c), AbsTrace(trace));
    ShardedKv.AnswersAreRight(AbsConfig(c), AbsTrace(trace));
  }

  // ----- every request is answered once -----

  ghost predicate InMailbox<K, V>(s: State<K, V>, id: RequestId)
    requires |s.rings| == |s.target| && id < |s.rings|
  {
    && s.target[id] < |s.boxes|
    && (exists j :: 0 <= j < |s.boxes[s.target[id]]| && s.boxes[s.target[id]][j].id == id)
    && s.rings[id] == []
  }

  /** The reply is waiting: one value, of the right variant, the answer that the history records. */
  ghost predicate InRing<K, V>(s: State<K, V>, id: RequestId)
    requires |s.rings| == |s.commands| && id < |s.rings|
  {
    && |s.rings[id]| == 1
    && Fits(s.commands[id], s.rings[id][0])
    && (exists n :: 0 <= n < |s.log| && s.log[n].id == id && s.log[n].answer == ToAnswer(s.rings[id][0]))
  }

  ghost predicate Taken<K, V>(s: State<K, V>, id: RequestId)
    requires id < |s.rings|
  {
    id in s.returned && s.rings[id] == []
  }

  lemma QueuedIsInMailbox<K, V>(c: ShardedKv.Config<K>, s: State<K, V>, id: RequestId)
    requires c.capacity > 0 && Shape(c, s) && ShardedKv.Inv(AbsConfig(c), Abs(c, s)) && id < |s.rings|
    ensures !s.served[id] ==> InMailbox(s, id)
    ensures s.served[id] ==> ShardedKv.Processed(s.log, id)
  {
    var k := Abs(c, s);
    ShardedKv.AliveIsFresh(AbsConfig(c), k, id);
    assert k.replies[id] == AbsReply(s.rings[id], s.served[id]);
    if !s.served[id] {
      var box := k.boxes[s.target[id]];
      var j :| 0 <= j < |box| && box[j].Request? && box[j].id == id;
      assert s.boxes[s.target[id]][j].id == id;
    }
  }

  lemma ServedIsAnswered<K, V>(c: ShardedKv.Config<K>, s: State<K, V>, id: RequestId)
    requires c.capacity > 0 && Shape(c, s) && RingsOk(s) && ShardedKv.Inv(AbsConfig(c), Abs(c, s)) && id < |s.rings|
    requires ShardedKv.Processed(s.log, id)
    ensures s.served[id]
    ensures if id in s.returned then s.rings[id] == [] else InRing(s, id)
  {
    var k := Abs(c, s);
    var n :| 0 <= n < |s.log| && s.log[n].id == id;
    assert k.replies[id] == AbsReply(s.rings[id], s.served[id]);
    assert !k.replies[id].senderAlive;
  }

  lemma MailboxIsUnserved<K, V>(c: ShardedKv.Config<K>, s: State<K, V>, id: RequestId)
    requires c.capacity > 0 && Shape(c, s) && ShardedKv.Inv(AbsConfig(c), Abs(c, s)) && id < |s.rings|
             && InMailbox(s, id)
    ensures !s.served[id]
  {
    var k, i := Abs(c, s), s.target[id];
    var j :| 0 <= j < |s.boxes[i]| && s.boxes[i][j].id == id;
    assert ShardedKv.BoxOk(AbsConfig(c), i, k.boxes[i], k.replies, k.target);
    assert k.boxes[i][j].Request? && k.boxes[i][j].id == id;
  }

  /**
   * In every run each accepted request is in exactly one of three places: in its
   * shard's mailbox with an empty reply ring, in its reply ring as the one answer
   * that the history records, or with its caller. With an empty mailbox every
   * request of the shard was answered.
   */
  lemma ExactlyOneReply<K, V>(c: ShardedKv.Config<K>, trace: seq<Action<K, V>>, id: RequestId)
    requires c.capacity > 0 && Run(c, trace).Some? && id < |Run(c, trace).value.commands|
    ensures var s := Run(c, trace).value;
            && (InMailbox(s, id) || InRing(s, id) || Taken(s, id))
            && !(InMailbox(s, id) && InRing(s, id)) && !(InMailbox(s, id) && Taken(s, id))
            && !(InRing(s, id) && Taken(s, id))
            && (s.target[id] < |s.boxes| && s.boxes[s.target[id]] == [] ==> InRing(s, id) || Taken(s, id))
  {
    var s := Run(c, trace).value;
    RefinesShardedKv(c, trace);
    ShardedKv.Reachable(AbsConfig(c), AbsTrace(trace));
    QueuedIsInMailbox(c, s, id);
    if s.served[id] {
      ServedIsAnswered(c, s, id);
    }
    if InMailbox(s, id) {
      MailboxIsUnserved(c, s, id);
      ReturnedIsServed(c, s, id);
    }
  }

  lemma ReturnedIsServed<K, V>(c: ShardedKv.Config<K>, s: State<K, V>, id: RequestId)
    requires c.capacity > 0 && Shape(c, s) && RingsOk(s) && ShardedKv.Inv(AbsConfig(c), Abs(c, s)) && id < |s.rings|
    ensures id in s.returned ==> s.served[id]
  {
    if id in s.returned {
      ServedIsAnswered(c, s, id);
    }
  }

  /** A shard with mail can serve, and serving shortens its mailbox by the front envelope. */
  lemma MailIsServed<K, V>(c: ShardedKv.Config<K>, trace: seq<Action<K, V>>, i: nat)
    requires c.capacity > 0 && Run(c, trace).Some? && i < c.shardCount && Run(c, trace).value.boxes[i] != []
    ensures var s := Run(c, trace).value;
            && Next(c, s, ServeFront(i)).Some?
            && Next(c, s, ServeFront(i)).value.boxes == s.boxes[i := s.boxes[i][1..]]
  {
    RefinesShardedKv(c, trace);
    ShardedKv.Reachable(AbsConfig(c), AbsTrace(trace));
    FrontRingIsEmpty(c, Run(c, trace).value, i);
  }

  /** No request waits for anything but its shard: as many serves as there is mail answer all of it. */
  lemma {:induction false} ServingAnswersAll<K, V>(c: ShardedKv.Config<K>, trace: seq<Action<K, V>>, i: nat)
    returns (trace': seq<Action<K, V>>)
    requires c.capacity > 0 && Run(c, trace).Some? && i < c.shardCount
    ensures trace <= trace' && |trace'| == |trace| + |Run(c, trace).value.boxes[i]|
    ensures forall j :: |trace| <= j < |trace'| ==> trace'[j] == ServeFront(i)
    ensures Run(c, trace').Some? && Run(c, trace').value.target == Run(c, trace).value.target
    ensures var s := Run(c, trace').value;
            forall id: RequestId :: id < |s.commands| && s.target[id] == i ==> InRing(s, id) || Taken(s, id)
    decreases |Run(c, trace).value.boxes[i]|
  {
    var s := Run(c, trace).value;
    if s.boxes[i] == [] {
      trace' := trace;
      forall id: RequestId | id < |s.commands| && s.target[id] == i ensures InRing(s, id) || Taken(s, id) {
        ExactlyOneReply(c, trace, id);
      }
    } else {
      MailIsServed(c, trace, i);
      var longer := trace + [ServeFront(i)];
      assert longer[..|longer| - 1] == trace;
      trace' := ServingAnswersAll(c, longer, i);
    }
  }

  // ----- total_len -----

  ghost predicate NoDeletes<K, V>(log: seq<ShardedKv.Entry<K, V>>) {
    forall n :: 0 <= n < |log| ==> log[n].op.Get? || log[n].op.Put? || log[n].op.LenOf?
  }

  /** Without deletes a key that is stored stays stored. */
  lemma {:induction false} KeysGrow<K, V>(place: K -> nat, log: seq<ShardedKv.Entry<K, V>>, a: nat)
    requires a <= |log|
    requires NoDeletes(log)
    ensures ShardedKv.Replay(place, log[..a]).Keys <= ShardedKv.Replay(place, log).Keys
  {
    if a == |log| {
      assert log[..a] == log;
    } else {
      var shorter := log[..|log| - 1];
      KeysGrow(place, shorter, a);
      assert shorter[..a] == log[..a];
    }
  }

  lemma {:induction false} SubsetIsSmaller<T>(a: set<T>, b: set<T>)
    requires a <= b
    ensures |a| <= |b|
  {
    if a != {} {
      var x :| x in a;
      SubsetIsSmaller(a - {x}, b - {x});
    }
  }

  lemma ShardGrows<K, V>(m: map<K, V>, m': map<K, V>, place: K -> nat, i: nat)
    requires m.Keys <= m'.Keys
    ensures |OnShard(m, place, i)| <= |OnShard(m', place, i)|
  {
    SubsetIsSmaller(OnShard(m, place, i).Keys, OnShard(m', place, i).Keys);
  }

  /** The sum of the answers of shards 0, 1, ... */
  function Total(lengths: seq<nat>): nat {
    if lengths == [] then 0 else Total(lengths[..|lengths| - 1]) + lengths[|lengths| - 1]
  }

  method TotalLen(lengths: seq<nat>) returns (total: nat)
    ensures total == Total(lengths)
  {
    total := 0;
    for i := 0 to |lengths|
      invariant total == Total(lengths[..i])
    {
      assert lengths[..i + 1][..i] == lengths[..i];
      total := total + lengths[i];
    }
    assert lengths[..|lengths|] == lengths;
  }

  lemma {:induction false} TotalBetween<K, V>(m: map<K, V>, m': map<K, V>, place: K -> nat, lengths: seq<nat>)
    requires forall i :: 0 <= i < |lengths| ==> |OnShard(m, place, i)| <= lengths[i] <= |OnShard(m', place, i)|
    ensures SumLengths(m, place, |lengths|) <= Total(lengths) <= SumLengths(m', place, |lengths|)
  {
    if lengths != [] {
      TotalBetween(m, m', place, lengths[..|lengths| - 1]);
    }
  }

  lemma {:induction false} LogGrows<K, V>(c: ShardedKv.Config<K>, trace: seq<Action<K, V>>, more: seq<Action<K, V>>)
    requires Run(c, trace + more).Some?
    ensures Run(c, trace).Some? && Run(c, trace).value.log <= Run(c, trace + more).value.log
  {
    if more == [] {
      assert trace + more == trace;
    } else {
      assert (trace + more)[..|trace + more| - 1] == trace + more[..|more| - 1];
      LogGrows(c, trace, more[..|more| - 1]);
    }
  }

  /** The answer to a length request lies between the shard's lengths before it was sent and after it was taken. */
  lemma LengthIsBetween<K, V>(c: ShardedKv.Config<K>, trace: seq<Action<K, V>>, more: seq<Action<K, V>>, id: RequestId)
    requires c.capacity > 0 && Run(c, trace).Some? && Run(c, trace + more).Some?
    requires var s, s' := Run(c, trace).value, Run(c, trace + more).value;
             |s.commands| <= id < |s'.commands| && s'.commands[id].Len? && id in s'.returned
    ensures var s, s' := Run(c, trace).value, Run(c, trace + more).value;
            && s'.returned[id].answer.Length?
            && |OnShard(ShardedKv.Replay(c.place, s.log), c.place, s'.target[id])| <= s'.returned[id].answer.length
            && s'.returned[id].answer.length <= |OnShard(ShardedKv.Replay(c.place, s'.log), c.place, s'.target[id])|
  {
    var s, s' := Run(c, trace).value, Run(c, trace + more).value;
    LogGrows(c, trace, more);
    LogIsBounded(c, trace);
    LogIsBounded(c, trace + more);
    var n := ReturnedIsLogged(c, trace + more, id);
    assert s'.log[..|s.log|] == s.log;
    assert n >= |s.log|;
    LengthInLog(c.place, s'.log, |s.log|, n, s'.target[id]);
  }

  lemma LogIsBounded<K, V>(c: ShardedKv.Config<K>, trace: seq<Action<K, V>>)
    requires c.capacity > 0 && Run(c, trace).Some?
    ensures var s := Run(c, trace).value;
            && NoDeletes(s.log)
            && ShardedKv.Legal(c.place, s.log)
            && (forall n :: 0 <= n < |s.log| ==> s.log[n].id < |s.commands|)
  {
    RefinesShardedKv(c, trace);
    RepliesAreExact(c, trace);
  }

  lemma ReturnedIsLogged<K, V>(c: ShardedKv.Config<K>, trace: seq<Action<K, V>>, id: RequestId) returns (n: nat)
    requires c.capacity > 0 && Run(c, trace).Some? && id in Run(c, trace).value.returned
    ensures var s := Run(c, trace).value;
            n < |s.log| && s.log[n].id == id < |s.commands| && s.log[n].op == ToOp(s.commands[id], s.target[id])
            && s.log[n].answer == s.returned[id].answer
  {
    RepliesAreExact(c, trace);
    var s := Run(c, trace).value;
    n :| 0 <= n < |s.log| && s.log[n].id == id < |s.commands| && s.log[n].op == ToOp(s.commands[id], s.target[id])
         && s.log[n].answer == s.returned[id].answer;
  }

  lemma LengthInLog<K, V>(place: K -> nat, log: seq<ShardedKv.Entry<K, V>>, a: nat, n: nat, i: nat)
    requires a <= n < |log| && ShardedKv.Legal(place, log) && log[n].op == Op.LenOf(i)
    requires NoDeletes(log)
    ensures log[n].answer.Length?
    ensures |OnShard(ShardedKv.Replay(place, log[..a]), place, i)| <= log[n].answer.length
    ensures log[n].answer.length <= |OnShard(ShardedKv.Replay(place, log), place, i)|
  {
    assert log[..n][..a] == log[..a];
    KeysGrow(place, log[..n], a);
    KeysGrow(place, log, n);
    ShardGrows(ShardedKv.Replay(place, log[..a]), ShardedKv.Replay(place, log[..n]), place, i);
    ShardGrows(ShardedKv.Replay(place, log[..n]), ShardedKv.Replay(place, log), place, i);
  }

  /**
   * `total_len` asks the shards one after another while other callers go on. Its
   * sum lies between the number of stored keys when it began and when it ended.
   */
  lemma TotalLenIsBetween<K, V>(c: ShardedKv.Config<K>, trace: seq<Action<K, V>>, more: seq<Action<K, V>>,
                                ids: seq<RequestId>, lengths: seq<nat>)
    requires c.capacity > 0 && Run(c, trace).Some? && Run(c, trace + more).Some?
    requires |ids| == |lengths| == c.shardCount
    requires var s, s' := Run(c, trace).value, Run(c, trace + more).value;
             forall i :: 0 <= i < |ids| ==>
               && |s.commands| <= ids[i] < |s'.commands| && s'.commands[ids[i]].Len? && s'.target[ids[i]] == i
               && ids[i] in s'.returned && s'.returned[ids[i]].answer == Length(lengths[i])
    ensures |ShardedKv.Replay(c.place, Run(c, trace).value.log)| <= Total(lengths)
    ensures Total(lengths) <= |ShardedKv.Replay(c.place, Run(c, trace + more).value.log)|
  {
    var m, m' := ShardedKv.Replay(c.place, Run(c, trace).value.log),
      ShardedKv.Replay(c.place, Run(c, trace + more).value.log);
    forall i | 0 <= i < |lengths| ensures |OnShard(m, c.place, i)| <= lengths[i] <= |OnShard(m', c.place, i)| {
      LengthIsBetween(c, trace, more, ids[i]);
    }
    TotalBetween(m, m', c.place, lengths);
    RefinesShardedKv(c, trace);
    RefinesShardedKv(c, trace + more);
    ShardedKv.OneMapInParts(AbsConfig(c), AbsTrace(trace));
    ShardedKv.OneMapInParts(AbsConfig(c), AbsTrace(trace + more));
  }
}
