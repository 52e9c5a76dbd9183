/** The NCCL checkpoint engine: rank 0 broadcasts bucket after bucket to all other ranks.

    Each rank is a coroutine plus a background thread that runs one BroadcastOperation: the
    metadata goes over a publish/subscribe socket, then the bytes through a collective
    broadcast. Calls of the collective pair up by order, and rank 0's call returns only when
    every receiver has its bytes; until then receivers copy byte by byte, each at its own pace.
    The coroutine may fill or yield from a buffer while its thread works on another. */
module NcclBroadcast {
  import opened BucketPacking
  import opened IntSeqs
  import opened Options
  import Runs
  import opened TransferPlan

  /** Where the background thread of a BroadcastOperation stands. */
  datatype Phase = MetaPhase | DataPhase | Complete

  datatype Op = NoOp | Op(bucket: bit, metadata: Option<Metadata>, phase: Phase, copied: set<nat>)

  datatype PC =
    | Filling | AwaitFlush | PutWeight | AwaitLast | AwaitFinal
    | Start | AwaitNext | LoopTop | Yielding | YieldingLast
    | Finished
    | Raised // an assertion of the program failed

  /** One rank. The last two fields are history: no step tests them. */
  datatype Rank = Rank(
    pc: PC,
    bufs: Buffers,
    send: bit, // which buffer send_buf denotes; recv_buf is the other one
    op: Op,
    inbox: seq<Metadata>, // published metadata not yet received
    calls: nat, // collective broadcasts this rank has completed
    fill: Fill, // sender
    metadata: Metadata, // receiver: the bucket in send_buf
    index: nat,
    out: seq<Weight>,
    launched: nat, // sender: broadcasts started
    got: nat // receiver: buckets swapped in
  )

  ghost predicate ValidConfig(c: Config) {
    c.n >= 1 && Sendable(c)
  }

  // --------------------------------------------------------------------------
  // The coroutine
  // --------------------------------------------------------------------------

  function Raise(me: Rank): Option<Rank> {
    Some(me.(pc := Raised))
  }

  predicate Idle(me: Rank) {
    me.op.NoOp? || me.op.phase.Complete?
  }

  /** Wait for the previous broadcast, then start one for the bucket just filled. */
  function Launch(me: Rank, isLast: bool): Option<Rank> {
    if !Idle(me) then None
    else
      var m := me.(op := Op(me.send, Some(Metadata(me.fill.bucketMeta, isLast)), MetaPhase, {}),
                   launched := me.launched + 1);
      if isLast then Some(m.(pc := AwaitFinal))
      else Some(m.(send := 1 - me.send, fill := Restart(me.fill), pc := PutWeight))
  }

  function SenderStep(c: Config, me: Rank): Option<Rank> {
    match me.pc
    case Filling =>
      if me.fill.next >= |c.ws| then Some(me.(pc := AwaitLast))
      else if me.fill.offset + |c.ws[me.fill.next].bytes| > c.cap then Some(me.(pc := AwaitFlush))
      else Some(me.(pc := PutWeight))
    case AwaitFlush => Launch(me, false)
    case PutWeight =>
      if me.fill.next >= |c.ws| then Raise(me)
      else
        var w, at := c.ws[me.fill.next], me.fill.offset;
        if at + |w.bytes| > c.cap || at + |w.bytes| > |me.bufs[me.send]| then Raise(me)
        else
          Some(me.(bufs := me.bufs[me.send := Overwrite(me.bufs[me.send], at, w.bytes)],
                   fill := Take(me.fill, w),
                   pc := Filling))
    case AwaitLast => Launch(me, true)
    case AwaitFinal => if Idle(me) then Some(me.(op := NoOp, pc := Finished)) else None
    case _ => None
  }

  /** Start receiving into recv_buf. */
  function Receive(me: Rank, pc: PC): Option<Rank> {
    Some(me.(op := Op(1 - me.send, None, MetaPhase, {}), index := 0, pc := pc))
  }

  function YieldOne(me: Rank, after: PC): Option<Rank> {
    if me.index >= |me.metadata.bucketMeta| then Some(me.(pc := after))
    else
      var m := me.metadata.bucketMeta[me.index];
      if InRange(m, me.bufs[me.send]) then
        Some(me.(out := me.out + [View(me.bufs[me.send], m)], index := me.index + 1))
      else Raise(me)
  }

  function ReceiverStep(me: Rank): Option<Rank> {
    match me.pc
    case Start => Receive(me, AwaitNext)
    case AwaitNext =>
      if me.op.NoOp? || !me.op.phase.Complete? then None
      else if me.op.metadata.None? then Raise(me)
      else
        Some(me.(metadata := me.op.metadata.value, op := NoOp, send := 1 - me.send, got := me.got + 1,
                 pc := LoopTop))
    case LoopTop =>
      if me.metadata.isLast then Some(me.(index := 0, pc := YieldingLast)) else Receive(me, Yielding)
    case Yielding => YieldOne(me, AwaitNext)
    case YieldingLast => YieldOne(me, Finished)
    case _ => None
  }

  function MainStep(c: Config, r: nat, me: Rank): Option<Rank> {
    if r == 0 then SenderStep(c, me) else ReceiverStep(me)
  }

  // --------------------------------------------------------------------------
  // The background threads
  // --------------------------------------------------------------------------

  type State = seq<Rank>

  datatype Action = Main(r: nat) | ExchangeMeta(r: nat) | CopyByte(r: nat, i: nat) | EndBroadcast(r: nat)

  predicate InPhase(me: Rank, phase: Phase) {
    me.op.Op? && me.op.phase == phase
  }

  /** Rank r's current collective call is the one rank 0 is serving. */
  predicate Paired(st: State, r: nat) {
    0 < r < |st| && InPhase(st[0], DataPhase) && InPhase(st[r], DataPhase) && st[r].calls == st[0].calls
  }

  function Publish(st: State, m: Metadata): (st': State)
    ensures |st'| == |st|
    ensures forall r :: 0 <= r < |st| ==> st'[r] == st[r].(inbox := st[r].inbox + [m])
  {
    seq(|st|, r requires 0 <= r < |st| => st[r].(inbox := st[r].inbox + [m]))
  }

  function WithPhase(me: Rank, phase: Phase): Rank
    requires me.op.Op?
  {
    me.(op := me.op.(phase := phase))
  }

  function Apply(c: Config, st: State, a: Action): Option<State> {
    match a
    case Main(r) =>
      if r >= |st| then None
      else
        (match MainStep(c, r, st[r])
         case None => None
         case Some(me) => Some(st[r := me]))
    case ExchangeMeta(r) =>
      if r >= |st| || !InPhase(st[r], MetaPhase) then None
      else if r == 0 then
        if st[0].op.metadata.None? then None
        else Some(Publish(st, st[0].op.metadata.value)[0 := WithPhase(st[0], DataPhase)])
      else if st[r].inbox == [] then None
      else
        Some(st[r := st[r].(inbox := st[r].inbox[1..],
                            op := st[r].op.(metadata := Some(st[r].inbox[0]), phase := DataPhase))])
    case CopyByte(r, i) =>
      if !Paired(st, r) then None
      else
        var me, src := st[r], st[0].bufs[st[0].op.bucket];
        if i in me.op.copied || i >= |me.bufs[me.op.bucket]| || i >= |src| then None
        else
          Some(st[r := me.(bufs := me.bufs[me.op.bucket := me.bufs[me.op.bucket][i := src[i]]],
                           op := me.op.(copied := me.op.copied + {i}))])
    case EndBroadcast(r) =>
      if r == 0 then
        if st == [] || !InPhase(st[0], DataPhase) then None
        else if exists q :: 0 < q < |st| && st[q].calls <= st[0].calls then None
        else Some(st[0 := WithPhase(st[0], Complete).(calls := st[0].calls + 1)])
      else if !Paired(st, r) then None
      else if exists i :: 0 <= i < c.cap && i !in st[r].op.copied then None
      else Some(st[r := WithPhase(st[r], Complete).(calls := st[r].calls + 1)])
  }

  predicate InitRank(c: Config, r: nat, me: Rank) {
    && me.pc == (if r == 0 then Filling else Start)
    && |me.bufs[0]| == |me.bufs[1]| == c.cap
    && me.send == 0
    && me.op == NoOp && me.inbox == [] && me.calls == 0
    && me.fill == Fill(0, 0, [], []) && me.out == [] && me.launched == 0 && me.got == 0
  }

  ghost predicate Init(c: Config, st: State) {
    |st| == c.n && forall r :: 0 <= r < |st| ==> InitRank(c, r, st[r])
  }

  // --------------------------------------------------------------------------
  // The invariant
  // --------------------------------------------------------------------------

  ghost predicate PlanFor(c: Config, p: Plan) {
    ValidConfig(c) && Planned(c, p)
  }

  predicate Shape(p: Plan, me: Rank) {
    |me.bufs[0]| == p.cap && |me.bufs[1]| == p.cap
  }

  /** Rank 0's latest broadcast is bucket number launched - 1, intact in its buffer. */
  ghost predicate OpOk(p: Plan, me: Rank) {
    && (me.op.Op? ==>
          && 0 < me.launched <= |p.mds|
          && Holds(p, me.bufs[me.op.bucket], me.launched - 1)
          && me.op.metadata == Some(p.mds[me.launched - 1]))
    && me.launched == me.calls + if me.op.Op? && !me.op.phase.Complete? then 1 else 0
  }

  /** Rank 0 is filling the next bucket, in the buffer it is not broadcasting. */
  ghost predicate FillingOk(c: Config, me: Rank) {
    && FillOk(c.cap, c.ws, me.launched, me.fill, me.bufs[me.send])
    && (me.op.Op? <==> me.launched > 0)
    && (me.op.Op? ==> me.op.bucket == 1 - me.send)
  }

  predicate NextFits(c: Config, me: Rank) {
    me.fill.next < |c.ws| && me.fill.offset + |c.ws[me.fill.next].bytes| <= c.cap
  }

  ghost predicate SenderOk(c: Config, p: Plan, me: Rank) {
    && Shape(p, me) && OpOk(p, me)
    && match me.pc
       case Filling => FillingOk(c, me)
       case PutWeight => FillingOk(c, me) && NextFits(c, me)
       case AwaitFlush => FillingOk(c, me) && me.fill.next < |c.ws| && !NextFits(c, me)
       case AwaitLast => FillingOk(c, me) && me.fill.next == |c.ws|
       case AwaitFinal => me.launched == |p.mds| && me.op.Op? && me.fill.next == |c.ws|
       case Finished => me.launched == |p.mds| && me.op.NoOp? && me.fill.next == |c.ws|
       case _ => false
  }

  /** Bucket number got is being received into recv_buf. */
  ghost predicate ReceivingOk(p: Plan, me: Rank) {
    && me.got < |p.mds| == |p.payloads|
    && me.op.Op?
    && me.op.bucket == 1 - me.send
    && ArrivedOk(p.payloads[me.got], me.bufs[me.op.bucket], me.op.copied)
    && (me.op.phase.MetaPhase? ==> me.op.copied == {})
    && (!me.op.phase.MetaPhase? ==> me.op.metadata == Some(p.mds[me.got]))
    && (me.op.phase.Complete? ==> forall i :: 0 <= i < p.cap ==> i in me.op.copied)
    && me.calls == me.got + if me.op.phase.Complete? then 1 else 0
  }

  /** send_buf and metadata are bucket number got - 1. */
  ghost predicate LoadedOk(p: Plan, me: Rank) {
    && 0 < me.got <= |p.mds|
    && me.metadata == p.mds[me.got - 1]
    && Holds(p, me.bufs[me.send], me.got - 1)
  }

  ghost predicate QuietOk(me: Rank) {
    me.op.NoOp? && me.calls == me.got
  }

  ghost predicate ReceiverOk(p: Plan, me: Rank) {
    && Shape(p, me)
    && match me.pc
       case Start => QuietOk(me) && me.got == 0 && YieldedOk(p, 0, me.out)
       case AwaitNext => ReceivingOk(p, me) && YieldedOk(p, me.got, me.out)
       case LoopTop => QuietOk(me) && LoadedOk(p, me) && YieldedOk(p, me.got - 1, me.out)
       case Yielding => ReceivingOk(p, me) && LoadedOk(p, me) && YieldingOk(p, me.got - 1, me.index, me.out)
       case YieldingLast =>
         && QuietOk(me) && LoadedOk(p, me) && me.got == |p.mds|
         && YieldingOk(p, me.got - 1, me.index, me.out)
       case Finished => QuietOk(me) && me.got == |p.mds| && YieldedOk(p, me.got, me.out)
       case _ => false
  }

  ghost predicate RankOk(c: Config, p: Plan, r: nat, me: Rank) {
    if r == 0 then SenderOk(c, p, me) else ReceiverOk(p, me)
  }

  /** Metadata messages rank 0 has published, and a receiver has taken. */
  function Published(a: Rank): int {
    a.launched - if InPhase(a, MetaPhase) then 1 else 0
  }

  function Taken(b: Rank): nat {
    b.got + if b.op.Op? && !b.op.phase.MetaPhase? then 1 else 0
  }

  /** Rank 0 and a receiver: at most one broadcast apart, in metadata and in bytes. */
  ghost predicate LinkOk(p: Plan, a: Rank, b: Rank) {
    && a.calls <= b.calls <= Taken(b) <= Published(a) <= a.calls + 1
    && Published(a) <= |p.mds|
    && b.inbox == if Taken(b) < Published(a) then [p.mds[Taken(b)]] else []
  }

  ghost predicate RanksOk(c: Config, p: Plan, st: State) {
    forall r :: 0 <= r < |st| ==> RankOk(c, p, r, st[r])
  }

  ghost predicate LinksOk(p: Plan, st: State)
    requires st != []
  {
    forall r :: 0 < r < |st| ==> LinkOk(p, st[0], st[r])
  }

  ghost predicate Inv(c: Config, p: Plan, st: State) {
    |st| == c.n >= 1 && RanksOk(c, p, st) && LinksOk(p, st)
  }

  lemma InitInv(c: Config, p: Plan, st: State)
    requires PlanFor(c, p) && Init(c, st)
    ensures Inv(c, p, st)
  {
    forall r | 0 <= r < |st|
      ensures RankOk(c, p, r, st[r])
    {
      assert InitRank(c, r, st[r]);
      if r == 0 {
        FillStarts(c.cap, c.ws, st[r].bufs[0]);
      }
    }
    forall r | 0 < r < |st|
      ensures LinkOk(p, st[0], st[r])
    {
      assert InitRank(c, 0, st[0]) && InitRank(c, r, st[r]);
    }
  }

  // --------------------------------------------------------------------------
  // Coroutine steps
  // --------------------------------------------------------------------------

  lemma LaunchOk(c: Config, p: Plan, me: Rank)
    requires PlanFor(c, p) && SenderOk(c, p, me) && (me.pc == AwaitFlush || me.pc == AwaitLast) && Idle(me)
    ensures SenderOk(c, p, SenderStep(c, me).value)
  {
    if me.pc == AwaitFlush {
      FillFlushes(c.cap, c.ws, p, me.launched, me.fill, me.bufs[me.send], me.bufs[1 - me.send]);
    } else {
      FillEnds(c.cap, c.ws, p, me.launched, me.fill, me.bufs[me.send]);
    }
  }

  lemma ChooseStepOk(c: Config, p: Plan, me: Rank)
    requires SenderOk(c, p, me) && me.pc == Filling
    ensures SenderStep(c, me).Some? && SenderOk(c, p, SenderStep(c, me).value)
  {
  }

  lemma PutStepOk(c: Config, p: Plan, me: Rank)
    requires ValidConfig(c) && c.cap == p.cap && SenderOk(c, p, me) && me.pc == PutWeight
    ensures SenderStep(c, me).Some? && SenderOk(c, p, SenderStep(c, me).value)
  {
    FillTakes(c.cap, c.ws, me.launched, me.fill, me.bufs[me.send]);
  }

  lemma FinalStepOk(c: Config, p: Plan, me: Rank)
    requires SenderOk(c, p, me) && me.pc == AwaitFinal && SenderStep(c, me).Some?
    ensures SenderOk(c, p, SenderStep(c, me).value)
  {
  }

  lemma SenderStepOk(c: Config, p: Plan, me: Rank)
    requires PlanFor(c, p) && SenderOk(c, p, me) && SenderStep(c, me).Some?
    ensures SenderOk(c, p, SenderStep(c, me).value)
  {
    if me.pc == AwaitFlush || me.pc == AwaitLast {
      LaunchOk(c, p, me);
    } else if me.pc == Filling {
      ChooseStepOk(c, p, me);
    } else if me.pc == PutWeight {
      PutStepOk(c, p, me);
    } else {
      FinalStepOk(c, p, me);
    }
  }

  lemma YieldStepOk(p: Plan, me: Rank)
    requires PlanOk(p) && ReceiverOk(p, me) && (me.pc == Yielding || me.pc == YieldingLast)
    ensures ReceiverStep(me).Some? && ReceiverOk(p, ReceiverStep(me).value)
  {
    if me.index < |me.metadata.bucketMeta| {
      YieldAdvances(p, me.got - 1, me.index, me.out, me.bufs[me.send]);
    } else {
      YieldEnds(p, me.got - 1, me.index, me.out);
    }
  }

  lemma SwapStepOk(p: Plan, me: Rank)
    requires PlanOk(p) && ReceiverOk(p, me) && me.pc == AwaitNext && ReceiverStep(me).Some?
    ensures ReceiverOk(p, ReceiverStep(me).value)
  {
    AllArrived(p.payloads[me.got], me.bufs[me.op.bucket], me.op.copied, p.cap);
  }

  lemma TopStepOk(p: Plan, me: Rank)
    requires PlanOk(p) && ReceiverOk(p, me) && (me.pc == Start || me.pc == LoopTop)
    ensures ReceiverStep(me).Some? && ReceiverOk(p, ReceiverStep(me).value)
  {
    if me.pc == LoopTop {
      YieldStarts(p, me.got - 1, me.out);
    }
  }

  lemma ReceiverStepOk(p: Plan, me: Rank)
    requires PlanOk(p) && ReceiverOk(p, me) && ReceiverStep(me).Some?
    ensures ReceiverOk(p, ReceiverStep(me).value)
  {
    if me.pc == Yielding || me.pc == YieldingLast {
      YieldStepOk(p, me);
    } else if me.pc == AwaitNext {
      SwapStepOk(p, me);
    } else {
      TopStepOk(p, me);
    }
  }

  /** What a coroutine step of rank 0 may change for the receivers: nothing, or one more launch. */
  ghost predicate SenderEffect(me: Rank, m: Rank) {
    && m.calls == me.calls
    && (|| (m.launched == me.launched && (m.op == me.op || (InPhase(me, Complete) && m.op.NoOp?)))
        || (Idle(me) && m.launched == me.launched + 1 && InPhase(m, MetaPhase)))
  }

  ghost predicate ReceiverEffect(me: Rank, m: Rank) {
    m.calls == me.calls && m.inbox == me.inbox && Taken(m) == Taken(me)
  }

  lemma SenderStepEffect(c: Config, p: Plan, me: Rank)
    requires SenderOk(c, p, me) && SenderStep(c, me).Some?
    ensures SenderEffect(me, SenderStep(c, me).value)
  {
  }

  lemma ReceiverStepEffect(p: Plan, me: Rank)
    requires ReceiverOk(p, me) && ReceiverStep(me).Some?
    ensures ReceiverEffect(me, ReceiverStep(me).value)
  {
  }

  lemma SenderKeepsLink(p: Plan, a: Rank, b: Rank, a': Rank)
    requires LinkOk(p, a, b) && SenderEffect(a, a') && OpOk(p, a) && OpOk(p, a')
    ensures LinkOk(p, a', b)
  {
  }

  lemma ReceiverKeepsLink(p: Plan, a: Rank, b: Rank, b': Rank)
    requires LinkOk(p, a, b) && ReceiverEffect(b, b')
    ensures LinkOk(p, a, b')
  {
  }

  /** Only rank 0 changes. */
  lemma RootChanges(c: Config, p: Plan, st: State, me: Rank)
    requires Inv(c, p, st) && SenderOk(c, p, me)
    requires forall q :: 0 < q < |st| ==> LinkOk(p, me, st[q])
    ensures Inv(c, p, st[0 := me])
  {
    var st' := st[0 := me];
    forall q | 0 < q < |st'|
      ensures RankOk(c, p, q, st'[q]) && LinkOk(p, st'[0], st'[q])
    {
      assert RankOk(c, p, q, st[q]);
    }
  }

  /** Only one receiver changes. */
  lemma ReceiverChanges(c: Config, p: Plan, st: State, r: nat, me: Rank)
    requires Inv(c, p, st) && 0 < r < |st| && ReceiverOk(p, me) && LinkOk(p, st[0], me)
    ensures Inv(c, p, st[r := me])
  {
    var st' := st[r := me];
    assert RankOk(c, p, 0, st[0]);
    forall q | 0 < q < |st'|
      ensures RankOk(c, p, q, st'[q]) && LinkOk(p, st'[0], st'[q])
    {
      assert RankOk(c, p, q, st[q]) && LinkOk(p, st[0], st[q]);
    }
  }

  lemma SenderKeepsInv(c: Config, p: Plan, st: State, me: Rank)
    requires Inv(c, p, st) && SenderOk(c, p, me) && SenderEffect(st[0], me)
    ensures Inv(c, p, st[0 := me])
  {
    assert RankOk(c, p, 0, st[0]);
    forall q | 0 < q < |st|
      ensures LinkOk(p, me, st[q])
    {
      SenderKeepsLink(p, st[0], st[q], me);
    }
    RootChanges(c, p, st, me);
  }

  lemma MainKeepsInv(c: Config, p: Plan, st: State, r: nat)
    requires PlanFor(c, p) && Inv(c, p, st) && r < |st| && MainStep(c, r, st[r]).Some?
    ensures Inv(c, p, st[r := MainStep(c, r, st[r]).value])
  {
    assert RankOk(c, p, r, st[r]);
    if r == 0 {
      SenderStepOk(c, p, st[0]);
      SenderStepEffect(c, p, st[0]);
      SenderKeepsInv(c, p, st, SenderStep(c, st[0]).value);
    } else {
      ReceiverStepOk(p, st[r]);
      ReceiverStepEffect(p, st[r]);
      ReceiverKeepsLink(p, st[0], st[r], ReceiverStep(st[r]).value);
      ReceiverChanges(c, p, st, r, ReceiverStep(st[r]).value);
    }
  }

  // --------------------------------------------------------------------------
  // Thread steps
  // --------------------------------------------------------------------------

  lemma PublisherOk(c: Config, p: Plan, me: Rank)
    requires SenderOk(c, p, me) && InPhase(me, MetaPhase)
    ensures me.op.metadata == Some(p.mds[me.launched - 1])
    ensures SenderOk(c, p, WithPhase(me, DataPhase))
  {
  }

  lemma PublishedLinkOk(p: Plan, a: Rank, b: Rank)
    requires LinkOk(p, a, b) && OpOk(p, a) && InPhase(a, MetaPhase)
    ensures LinkOk(p, WithPhase(a, DataPhase), b.(inbox := b.inbox + [p.mds[a.launched - 1]]))
  {
  }

  lemma InboxIrrelevant(p: Plan, me: Rank, inbox: seq<Metadata>)
    requires ReceiverOk(p, me)
    ensures ReceiverOk(p, me.(inbox := inbox))
  {
  }

  lemma PublishedRankOk(p: Plan, a: Rank, b: Rank, b': Rank)
    requires LinkOk(p, a, b) && OpOk(p, a) && InPhase(a, MetaPhase) && ReceiverOk(p, b)
    requires b' == b.(inbox := b.inbox + [p.mds[a.launched - 1]])
    ensures ReceiverOk(p, b') && LinkOk(p, WithPhase(a, DataPhase), b')
  {
    InboxIrrelevant(p, b, b'.inbox);
    PublishedLinkOk(p, a, b);
  }

  lemma PublishedOk(c: Config, p: Plan, st: State, st': State)
    requires Inv(c, p, st) && InPhase(st[0], MetaPhase) && OpOk(p, st[0]) && |st'| == |st|
    requires st'[0] == WithPhase(st[0], DataPhase) && RankOk(c, p, 0, st'[0])
    requires forall r :: 0 < r < |st| ==> st'[r] == st[r].(inbox := st[r].inbox + [p.mds[st[0].launched - 1]])
    ensures Inv(c, p, st')
  {
    forall r | 0 < r < |st'|
      ensures RankOk(c, p, r, st'[r]) && LinkOk(p, st'[0], st'[r])
    {
      assert RankOk(c, p, r, st[r]);
      PublishedRankOk(p, st[0], st[r], st'[r]);
    }
  }

  lemma PublishKeepsInv(c: Config, p: Plan, st: State)
    requires Inv(c, p, st) && InPhase(st[0], MetaPhase)
    ensures st[0].op.metadata.Some?
    ensures Inv(c, p, Publish(st, st[0].op.metadata.value)[0 := WithPhase(st[0], DataPhase)])
  {
    assert RankOk(c, p, 0, st[0]);
    PublisherOk(c, p, st[0]);
    PublishedOk(c, p, st, Publish(st, st[0].op.metadata.value)[0 := WithPhase(st[0], DataPhase)]);
  }

  lemma TakeMetaOk(p: Plan, a: Rank, b: Rank, b': Rank)
    requires ReceiverOk(p, b) && LinkOk(p, a, b) && InPhase(b, MetaPhase) && b.inbox != []
    requires b' == b.(inbox := b.inbox[1..], op := b.op.(metadata := Some(b.inbox[0]), phase := DataPhase))
    ensures ReceiverOk(p, b') && LinkOk(p, a, b')
  {
    assert ReceivingOk(p, b) ==> ReceivingOk(p, b');
  }

  /** The bytes on their way to a receiver are those of the bucket it is receiving. */
  lemma SourceIntact(c: Config, p: Plan, st: State, r: nat)
    requires Inv(c, p, st) && Paired(st, r)
    ensures ReceivingOk(p, st[r]) && Shape(p, st[0])
    ensures Holds(p, st[0].bufs[st[0].op.bucket], st[r].got)
  {
    assert RankOk(c, p, 0, st[0]) && RankOk(c, p, r, st[r]);
  }

  lemma CopyKeepsRank(p: Plan, me: Rank, i: nat, x: byte, me': Rank)
    requires ReceiverOk(p, me) && InPhase(me, DataPhase) && ReceivingOk(p, me) && i < |me.bufs[me.op.bucket]|
    requires i < |p.payloads[me.got]| ==> x == p.payloads[me.got][i]
    requires me' == me.(bufs := me.bufs[me.op.bucket := me.bufs[me.op.bucket][i := x]],
                        op := me.op.(copied := me.op.copied + {i}))
    ensures ReceiverOk(p, me')
  {
    ByteArrives(p.payloads[me.got], me.bufs[me.op.bucket], me.op.copied, i, x);
    assert ReceivingOk(p, me');
    assert me'.bufs[me.send] == me.bufs[me.send];
  }

  lemma CopyKeepsInv(c: Config, p: Plan, st: State, r: nat, i: nat)
    requires Inv(c, p, st) && Apply(c, st, CopyByte(r, i)).Some?
    ensures Inv(c, p, Apply(c, st, CopyByte(r, i)).value)
  {
    SourceIntact(c, p, st, r);
    assert RankOk(c, p, r, st[r]) && LinkOk(p, st[0], st[r]);
    var st' := Apply(c, st, CopyByte(r, i)).value;
    CopyKeepsRank(p, st[r], i, st[0].bufs[st[0].op.bucket][i], st'[r]);
  }

  lemma CompleteOk(p: Plan, a: Rank, b: Rank, b': Rank)
    requires ReceiverOk(p, b) && LinkOk(p, a, b) && ReceivingOk(p, b) && InPhase(b, DataPhase)
    requires forall i :: 0 <= i < p.cap ==> i in b.op.copied
    requires b' == WithPhase(b, Complete).(calls := b.calls + 1)
    ensures ReceiverOk(p, b') && LinkOk(p, a, b')
  {
    assert ReceivingOk(p, b');
  }

  lemma RootEndsOk(c: Config, p: Plan, a: Rank, a': Rank)
    requires SenderOk(c, p, a) && InPhase(a, DataPhase) && a' == WithPhase(a, Complete).(calls := a.calls + 1)
    ensures SenderOk(c, p, a')
  {
  }

  lemma RootEndsLink(p: Plan, a: Rank, b: Rank, a': Rank)
    requires LinkOk(p, a, b) && OpOk(p, a) && InPhase(a, DataPhase) && b.calls > a.calls
    requires a' == WithPhase(a, Complete).(calls := a.calls + 1)
    ensures LinkOk(p, a', b)
  {
  }

  /** Rank 0's call returns when every receiver's has. */
  lemma RootEndsInv(c: Config, p: Plan, st: State)
    requires Inv(c, p, st) && InPhase(st[0], DataPhase)
    requires forall q :: 0 < q < |st| ==> st[q].calls > st[0].calls
    ensures Inv(c, p, st[0 := WithPhase(st[0], Complete).(calls := st[0].calls + 1)])
  {
    var me := WithPhase(st[0], Complete).(calls := st[0].calls + 1);
    assert RankOk(c, p, 0, st[0]);
    RootEndsOk(c, p, st[0], me);
    forall q | 0 < q < |st|
      ensures LinkOk(p, me, st[q])
    {
      RootEndsLink(p, st[0], st[q], me);
    }
    RootChanges(c, p, st, me);
  }

  lemma EndKeepsInv(c: Config, p: Plan, st: State, r: nat)
    requires c.cap == p.cap && Inv(c, p, st) && Apply(c, st, EndBroadcast(r)).Some?
    ensures Inv(c, p, Apply(c, st, EndBroadcast(r)).value)
  {
    assert RankOk(c, p, 0, st[0]);
    if r == 0 {
      RootEndsInv(c, p, st);
    } else {
      SourceIntact(c, p, st, r);
      var me := WithPhase(st[r], Complete).(calls := st[r].calls + 1);
      assert RankOk(c, p, r, st[r]) && LinkOk(p, st[0], st[r]);
      CompleteOk(p, st[0], st[r], me);
      ReceiverChanges(c, p, st, r, me);
    }
  }

  lemma ExchangeKeepsInv(c: Config, p: Plan, st: State, r: nat)
    requires Inv(c, p, st) && Apply(c, st, ExchangeMeta(r)).Some?
    ensures Inv(c, p, Apply(c, st, ExchangeMeta(r)).value)
  {
    if r == 0 {
      PublishKeepsInv(c, p, st);
    } else {
      assert RankOk(c, p, r, st[r]) && LinkOk(p, st[0], st[r]);
      TakeMetaOk(p, st[0], st[r], Apply(c, st, ExchangeMeta(r)).value[r]);
    }
  }

  lemma StepKeepsInv(c: Config, p: Plan, st: State, a: Action)
    requires PlanFor(c, p) && Inv(c, p, st) && Apply(c, st, a).Some?
    ensures Inv(c, p, Apply(c, st, a).value)
  {
    match a
    case Main(r) => MainKeepsInv(c, p, st, r);
    case ExchangeMeta(r) => ExchangeKeepsInv(c, p, st, r);
    case CopyByte(r, i) => CopyKeepsInv(c, p, st, r, i);
    case EndBroadcast(r) => EndKeepsInv(c, p, st, r);
  }

  // --------------------------------------------------------------------------
  // Safety over whole runs
  // --------------------------------------------------------------------------

  ghost function Starts(c: Config): State -> bool {
    st => Init(c, st)
  }

  function Steps(c: Config): (State, Action) -> Option<State> {
    (st, a) => Apply(c, st, a)
  }

  ghost function Invs(c: Config, p: Plan): State -> bool {
    st => Inv(c, p, st)
  }

  /** What happens from an initial state on, under some interleaving. */
  ghost predicate IsRun(c: Config, tr: seq<State>) {
    Runs.IsRun(Starts(c), Steps(c), tr)
  }

  lemma InvIsInvariant(c: Config, p: Plan)
    requires PlanFor(c, p)
    ensures Runs.Invariant(Starts(c), Steps(c), Invs(c, p))
  {
    forall st | Starts(c)(st)
      ensures Invs(c, p)(st)
    {
      InitInv(c, p, st);
    }
    forall st, a | Invs(c, p)(st) && Steps(c)(st, a).Some?
      ensures Invs(c, p)(Steps(c)(st, a).value)
    {
      StepKeepsInv(c, p, st, a);
    }
  }

  lemma RunKeepsInv(c: Config, p: Plan, tr: seq<State>)
    requires PlanFor(c, p) && IsRun(c, tr)
    ensures Inv(c, p, tr[|tr| - 1])
  {
    InvIsInvariant(c, p);
    Runs.RunKeeps(Starts(c), Steps(c), Invs(c, p), tr);
  }

  lemma OutIsPrefix(p: Plan, me: Rank)
    requires PlanOk(p) && ReceiverOk(p, me)
    ensures me.out <= p.sent[|p.mds|]
  {
    if me.pc == Yielding || me.pc == YieldingLast {
      YieldingIsPrefix(p, me.got - 1, me.index, me.out);
    } else if me.pc == LoopTop {
      YieldedIsPrefix(p, me.got - 1, me.out);
    } else {
      YieldedIsPrefix(p, me.got, me.out);
    }
  }

  lemma RankNotRaised(c: Config, p: Plan, r: nat, me: Rank)
    requires RankOk(c, p, r, me)
    ensures me.pc != Raised
  {
  }

  /** In every state of every run no assertion has failed, rank 0's and a receiver's collective
      calls are at most one apart, and a receiver has yielded a prefix of what it should. */
  lemma BroadcastSafety(c: Config, tr: seq<State>, r: nat)
    requires ValidConfig(c) && IsRun(c, tr) && r < c.n
    ensures var st := tr[|tr| - 1];
            && |st| == c.n
            && st[r].pc != Raised
            && (r > 0 ==>
                  && st[0].calls <= st[r].calls <= st[0].calls + 1
                  && |st[r].inbox| <= 1
                  && st[r].out <= (BucketsWellFormed(c.cap, c.ws); DeliveredStream(Buckets(c.cap, c.ws))))
  {
    var p := ThePlan(c);
    RunKeepsInv(c, p, tr);
    var st := tr[|tr| - 1];
    assert RankOk(c, p, r, st[r]);
    RankNotRaised(c, p, r, st[r]);
    if r > 0 {
      OutIsPrefix(p, st[r]);
      assert LinkOk(p, st[0], st[r]);
    }
  }

  lemma CompletePairs(p: Plan, me: Rank)
    requires PlanOk(p) && ReceiverOk(p, me) && InPhase(me, Complete)
    ensures 0 < me.calls <= |p.mds|
    ensures me.op.metadata == Some(p.mds[me.calls - 1])
    ensures p.payloads[me.calls - 1] <= me.bufs[me.op.bucket]
  {
    AllArrived(p.payloads[me.got], me.bufs[me.op.bucket], me.op.copied, p.cap);
  }

  /** When a receiver's j-th broadcast returns, the metadata its thread received is that of
      bucket j and its buffer starts with the bytes of bucket j. */
  lemma MetadataPairsWithPayload(c: Config, tr: seq<State>, r: nat)
    requires ValidConfig(c) && IsRun(c, tr) && 0 < r < c.n
    ensures var st, bs := tr[|tr| - 1], Buckets(c.cap, c.ws);
            |st| == c.n && (InPhase(st[r], Complete) ==>
              && 0 < st[r].calls <= |bs|
              && st[r].op.metadata == Some(MetadataOf(bs, st[r].calls - 1))
              && Payload(bs[st[r].calls - 1]) <= st[r].bufs[st[r].op.bucket])
  {
    var p, st := ThePlan(c), tr[|tr| - 1];
    RunKeepsInv(c, p, tr);
    assert RankOk(c, p, r, st[r]);
    if InPhase(st[r], Complete) {
      CompletePairs(p, st[r]);
    }
  }

  /** Rank 0's buffer in the broadcast that has not returned. */
  predicate InFlight(r: nat, me: Rank, buf: bit) {
    r == 0 && me.op.Op? && !me.op.phase.Complete? && me.op.bucket == buf
  }

  /** A receiver's buffer whose views it is handing out. */
  predicate BeingYielded(me: Rank, buf: bit) {
    (me.pc == Yielding || me.pc == YieldingLast) && me.send == buf
  }

  lemma SenderSpares(c: Config, p: Plan, me: Rank, buf: bit)
    requires SenderOk(c, p, me) && SenderStep(c, me).Some? && InFlight(0, me, buf)
    ensures SenderStep(c, me).value.bufs[buf] == me.bufs[buf]
  {
  }

  lemma ReceiverSpares(me: Rank, buf: bit)
    requires ReceiverStep(me).Some?
    ensures ReceiverStep(me).value.bufs[buf] == me.bufs[buf]
  {
  }

  lemma MainSpares(c: Config, p: Plan, r: nat, me: Rank, buf: bit)
    requires RankOk(c, p, r, me) && MainStep(c, r, me).Some?
    requires InFlight(r, me, buf) || BeingYielded(me, buf)
    ensures MainStep(c, r, me).value.bufs[buf] == me.bufs[buf]
  {
    if r == 0 {
      SenderSpares(c, p, me, buf);
    } else {
      ReceiverSpares(me, buf);
    }
  }

  lemma CopySpares(c: Config, p: Plan, r: nat, me: Rank, buf: bit)
    requires RankOk(c, p, r, me) && r > 0 && InPhase(me, DataPhase) && BeingYielded(me, buf)
    ensures me.op.bucket != buf
  {
  }

  lemma StepSparesBuffers(c: Config, p: Plan, st: State, a: Action, r: nat, buf: bit)
    requires r < |st| && RankOk(c, p, r, st[r]) && Apply(c, st, a).Some?
    requires InFlight(r, st[r], buf) || BeingYielded(st[r], buf)
    ensures Apply(c, st, a).value[r].bufs[buf] == st[r].bufs[buf]
  {
    match a
    case Main(q) =>
      if q == r {
        MainSpares(c, p, r, st[r], buf);
      }
    case CopyByte(q, i) =>
      if q == r {
        CopySpares(c, p, r, st[r], buf);
      }
    case _ =>
  }

  /** No step writes rank 0's buffer while it is being broadcast, or a buffer a receiver is
      yielding from. */
  lemma NoBufferReuse(c: Config, tr: seq<State>, a: Action, r: nat, buf: bit)
    requires ValidConfig(c) && IsRun(c, tr)
    requires var st := tr[|tr| - 1];
             r < |st| && Apply(c, st, a).Some? && (InFlight(r, st[r], buf) || BeingYielded(st[r], buf))
    ensures Apply(c, tr[|tr| - 1], a).value[r].bufs[buf] == tr[|tr| - 1][r].bufs[buf]
  {
    var p := ThePlan(c);
    RunKeepsInv(c, p, tr);
    StepSparesBuffers(c, p, tr[|tr| - 1], a, r, buf);
  }

  /** A buffer the coroutine is working on: rank 0 fills its send_buf, a receiver yields from it. */
  predicate InUse(me: Rank, buf: bit) {
    me.send == buf && me.pc in {Filling, AwaitFlush, PutWeight, AwaitLast, Yielding, YieldingLast}
  }

  lemma RankKeepsApart(c: Config, p: Plan, r: nat, me: Rank, buf: bit)
    requires RankOk(c, p, r, me) && InUse(me, buf) && me.op.Op?
    ensures me.op.bucket != buf
  {
  }

  /** In every state of every run, the buffer a coroutine fills or yields from is not the one its
      background thread sends from or receives into. */
  lemma BuffersApart(c: Config, tr: seq<State>, r: nat, buf: bit)
    requires ValidConfig(c) && IsRun(c, tr)
    requires var st := tr[|tr| - 1]; r < |st| && InUse(st[r], buf) && st[r].op.Op?
    ensures tr[|tr| - 1][r].op.bucket != buf
  {
    var p := ThePlan(c);
    RunKeepsInv(c, p, tr);
    RankKeepsApart(c, p, r, tr[|tr| - 1][r], buf);
  }

  // --------------------------------------------------------------------------
  // Progress
  // --------------------------------------------------------------------------

  ghost predicate CanStep(c: Config, st: State) {
    Runs.CanStep(Steps(c), st)
  }

  lemma ActionCanStep(c: Config, st: State, a: Action)
    requires Apply(c, st, a).Some?
    ensures CanStep(c, st)
  {
    assert Steps(c)(st, a).Some?;
  }

  ghost predicate AllFinished(st: State) {
    forall r :: 0 <= r < |st| ==> st[r].pc == Finished
  }

  lemma MainCanStep(c: Config, st: State, r: nat)
    requires r < |st| && MainStep(c, r, st[r]).Some?
    ensures CanStep(c, st)
  {
    ActionCanStep(c, st, Main(r));
  }

  /** A coroutine that cannot move is waiting for its thread. */
  lemma WhyBlocked(c: Config, p: Plan, r: nat, me: Rank)
    requires RankOk(c, p, r, me) && me.pc != Finished
    ensures MainStep(c, r, me).Some? || InPhase(me, MetaPhase) || InPhase(me, DataPhase)
  {
  }

  lemma PairedCanStep(c: Config, p: Plan, st: State, r: nat)
    requires c.cap == p.cap && Inv(c, p, st) && Paired(st, r)
    ensures CanStep(c, st)
  {
    SourceIntact(c, p, st, r);
    assert RankOk(c, p, r, st[r]);
    if i :| 0 <= i < c.cap && i !in st[r].op.copied {
      ActionCanStep(c, st, CopyByte(r, i));
    } else {
      ActionCanStep(c, st, EndBroadcast(r));
    }
  }

  /** A receiver that rank 0's broadcast is still waiting for can move. */
  lemma LaggardCanStep(c: Config, p: Plan, st: State, r: nat)
    requires c.cap == p.cap && Inv(c, p, st) && 0 < r < |st|
    requires InPhase(st[0], DataPhase) && st[r].calls <= st[0].calls
    ensures CanStep(c, st)
  {
    assert RankOk(c, p, 0, st[0]) && RankOk(c, p, r, st[r]) && LinkOk(p, st[0], st[r]);
    assert st[r].pc != Finished;
    WhyBlocked(c, p, r, st[r]);
    if MainStep(c, r, st[r]).Some? {
      MainCanStep(c, st, r);
    } else if InPhase(st[r], MetaPhase) {
      ActionCanStep(c, st, ExchangeMeta(r));
    } else {
      PairedCanStep(c, p, st, r);
    }
  }

  lemma RootCanStep(c: Config, p: Plan, st: State)
    requires c.cap == p.cap && Inv(c, p, st) && st[0].pc != Finished
    ensures CanStep(c, st)
  {
    assert RankOk(c, p, 0, st[0]);
    WhyBlocked(c, p, 0, st[0]);
    if MainStep(c, 0, st[0]).Some? {
      MainCanStep(c, st, 0);
    } else if InPhase(st[0], MetaPhase) {
      PublishKeepsInv(c, p, st);
      ActionCanStep(c, st, ExchangeMeta(0));
    } else if r :| 0 < r < |st| && st[r].calls <= st[0].calls {
      LaggardCanStep(c, p, st, r);
    } else {
      ActionCanStep(c, st, EndBroadcast(0));
    }
  }

  lemma NeverStuck(c: Config, p: Plan, st: State)
    requires c.cap == p.cap && Inv(c, p, st) && !AllFinished(st)
    ensures CanStep(c, st)
  {
    if st[0].pc != Finished {
      RootCanStep(c, p, st);
    } else {
      var r :| 0 <= r < |st| && st[r].pc != Finished;
      assert RankOk(c, p, 0, st[0]) && RankOk(c, p, r, st[r]) && LinkOk(p, st[0], st[r]);
      WhyBlocked(c, p, r, st[r]);
      MainCanStep(c, st, r);
    }
  }

  // --------------------------------------------------------------------------
  // Termination
  // --------------------------------------------------------------------------

  function PcWeight(pc: PC): nat {
    match pc
    case Filling => 5
    case AwaitFlush => 4
    case PutWeight => 3
    case AwaitLast => 4
    case AwaitFinal => 1
    case Start => 2
    case AwaitNext => 1
    case LoopTop => 3
    case Yielding => 2
    case YieldingLast => 2
    case Finished => 0
    case Raised => 0
  }

  /** Steps a broadcast that copies cap bytes still needs. */
  function OpWork(cap: nat, op: Op): int {
    if op.NoOp? then 0
    else match op.phase
      case MetaPhase => cap + 2
      case DataPhase => cap - |op.copied| + 1
      case Complete => 0
  }

  function Begun(b: Rank): nat {
    b.got + if b.op.Op? then 1 else 0
  }

  /** What a rank still has to do. */
  ghost function Work(c: Config, p: Plan, r: nat, me: Rank): int {
    if r == 0 then
      3 * (|c.ws| - me.fill.next) + 3 * (|p.mds| - me.launched) + PcWeight(me.pc)
      + if me.op.NoOp? then 0 else match me.op.phase case MetaPhase => 2 case DataPhase => 1 case Complete => 0
    else
      3 * (|p.mds| - me.got) + (|p.mds| - Begun(me)) * (p.cap + 3) + OpWork(p.cap, me.op)
      + |LastSent(p)| - |me.out| + PcWeight(me.pc)
  }

  ghost function Chores(c: Config, p: Plan): (nat, Rank) -> int {
    (r: nat, me: Rank) => Work(c, p, r, me)
  }

  ghost function TotalWork(c: Config, p: Plan, st: State): int {
    Runs.Total(Chores(c, p), st)
  }

  ghost function Totals(c: Config, p: Plan): State -> int {
    st => TotalWork(c, p, st)
  }

  lemma TotalWorkShrinks(c: Config, p: Plan, st: State, st': State, r: nat)
    requires |st| == |st'| && r < |st|
    requires Work(c, p, r, st'[r]) < Work(c, p, r, st[r])
    requires forall q :: 0 <= q < |st| && q != r ==> Work(c, p, q, st'[q]) == Work(c, p, q, st[q])
    ensures TotalWork(c, p, st') < TotalWork(c, p, st)
  {
    Runs.TotalShrinks(Chores(c, p), st, st', r);
  }

  lemma OpWorkNonNegative(p: Plan, me: Rank)
    requires ReceiverOk(p, me)
    ensures OpWork(p.cap, me.op) >= 0
  {
    if me.op.Op? {
      assert ReceivingOk(p, me);
      BoundedSetSize(me.op.copied, p.cap);
    }
  }

  lemma ReceiverWithinPlan(p: Plan, me: Rank)
    requires PlanOk(p) && ReceiverOk(p, me)
    ensures Begun(me) <= |p.mds| && |p.sent| == |p.mds| + 1
  {
  }

  /** What is left to do is counted from these differences. */
  ghost predicate WithinWork(p: Plan, me: Rank) {
    && Begun(me) <= |p.mds| && |me.out| <= |LastSent(p)|
    && OpWork(p.cap, me.op) >= 0
  }

  lemma ReceiverWithinWork(p: Plan, me: Rank)
    requires PlanOk(p) && ReceiverOk(p, me)
    ensures WithinWork(p, me)
  {
    OutIsPrefix(p, me);
    OpWorkNonNegative(p, me);
    ReceiverWithinPlan(p, me);
  }

  lemma ReceiverWorkNonNegative(c: Config, p: Plan, r: nat, me: Rank)
    requires r > 0 && WithinWork(p, me)
    ensures Work(c, p, r, me) >= 0
  {
    ProductNonNegative(|p.mds| - Begun(me), p.cap + 3);
  }

  lemma SenderWorkNonNegative(c: Config, p: Plan, me: Rank)
    requires SenderOk(c, p, me)
    ensures Work(c, p, 0, me) >= 0
  {
  }

  lemma WorkNonNegative(c: Config, p: Plan, r: nat, me: Rank)
    requires PlanOk(p) && RankOk(c, p, r, me)
    ensures Work(c, p, r, me) >= 0
  {
    if r == 0 {
      SenderWorkNonNegative(c, p, me);
    } else {
      ReceiverWithinWork(p, me);
      ReceiverWorkNonNegative(c, p, r, me);
    }
  }

  lemma SenderWorkShrinks(c: Config, p: Plan, me: Rank)
    requires SenderOk(c, p, me) && SenderStep(c, me).Some?
    ensures Work(c, p, 0, SenderStep(c, me).value) < Work(c, p, 0, me)
  {
  }

  lemma ReceiveShrinks(c: Config, p: Plan, r: nat, me: Rank, pc: PC)
    requires r > 0 && me.op.NoOp? && PcWeight(pc) < PcWeight(me.pc)
    ensures Work(c, p, r, Receive(me, pc).value) < Work(c, p, r, me)
  {
    assert Begun(Receive(me, pc).value) == Begun(me) + 1;
    ProductStep(|p.mds| - Begun(me), p.cap + 3);
  }

  lemma YieldShrinks(c: Config, p: Plan, r: nat, me: Rank, after: PC)
    requires PlanOk(p) && r > 0 && LoadedOk(p, me) && YieldingOk(p, me.got - 1, me.index, me.out)
    requires PcWeight(after) < PcWeight(me.pc)
    ensures YieldOne(me, after).Some? && Work(c, p, r, YieldOne(me, after).value) < Work(c, p, r, me)
  {
    if me.index < |me.metadata.bucketMeta| {
      YieldAdvances(p, me.got - 1, me.index, me.out, me.bufs[me.send]);
      assert |YieldOne(me, after).value.out| == |me.out| + 1;
    }
  }

  lemma SwapShrinks(c: Config, p: Plan, r: nat, me: Rank)
    requires PlanOk(p) && r > 0 && ReceiverOk(p, me) && me.pc == AwaitNext && ReceiverStep(me).Some?
    ensures Work(c, p, r, ReceiverStep(me).value) < Work(c, p, r, me)
  {
    assert Begun(ReceiverStep(me).value) == Begun(me);
  }

  lemma TopShrinks(c: Config, p: Plan, r: nat, me: Rank)
    requires PlanOk(p) && r > 0 && ReceiverOk(p, me) && me.pc == LoopTop
    ensures ReceiverStep(me).Some? && Work(c, p, r, ReceiverStep(me).value) < Work(c, p, r, me)
  {
    if me.metadata.isLast {
      assert Begun(ReceiverStep(me).value) == Begun(me);
    } else {
      ReceiveShrinks(c, p, r, me, Yielding);
    }
  }

  lemma YieldStepShrinks(c: Config, p: Plan, r: nat, me: Rank)
    requires PlanOk(p) && r > 0 && ReceiverOk(p, me) && (me.pc == Yielding || me.pc == YieldingLast)
    ensures ReceiverStep(me).Some? && Work(c, p, r, ReceiverStep(me).value) < Work(c, p, r, me)
  {
    YieldShrinks(c, p, r, me, if me.pc == Yielding then AwaitNext else Finished);
  }

  lemma ReceiverWorkShrinks(c: Config, p: Plan, r: nat, me: Rank)
    requires PlanOk(p) && r > 0 && ReceiverOk(p, me) && ReceiverStep(me).Some?
    ensures Work(c, p, r, ReceiverStep(me).value) < Work(c, p, r, me)
  {
    match me.pc
    case Start => ReceiveShrinks(c, p, r, me, AwaitNext);
    case AwaitNext => SwapShrinks(c, p, r, me);
    case LoopTop => TopShrinks(c, p, r, me);
    case Yielding => YieldStepShrinks(c, p, r, me);
    case YieldingLast => YieldStepShrinks(c, p, r, me);
    case _ =>
  }

  lemma MainShrinksWork(c: Config, p: Plan, st: State, r: nat)
    requires PlanOk(p) && r < |st| && RankOk(c, p, r, st[r]) && MainStep(c, r, st[r]).Some?
    ensures TotalWork(c, p, st[r := MainStep(c, r, st[r]).value]) < TotalWork(c, p, st)
  {
    if r == 0 {
      SenderWorkShrinks(c, p, st[0]);
    } else {
      ReceiverWorkShrinks(c, p, r, st[r]);
    }
    TotalWorkShrinks(c, p, st, st[r := MainStep(c, r, st[r]).value], r);
  }

  lemma EmptyCopied(p: Plan, me: Rank)
    requires ReceiverOk(p, me) && InPhase(me, MetaPhase)
    ensures me.op.copied == {}
  {
  }

  lemma ExchangeShrinksWork(c: Config, p: Plan, st: State, r: nat)
    requires PlanOk(p) && r < |st| && RankOk(c, p, r, st[r]) && Apply(c, st, ExchangeMeta(r)).Some?
    ensures TotalWork(c, p, Apply(c, st, ExchangeMeta(r)).value) < TotalWork(c, p, st)
  {
    if r > 0 {
      EmptyCopied(p, st[r]);
    }
    TotalWorkShrinks(c, p, st, Apply(c, st, ExchangeMeta(r)).value, r);
  }

  lemma CopyShrinksWork(c: Config, p: Plan, st: State, r: nat, i: nat)
    requires Apply(c, st, CopyByte(r, i)).Some?
    ensures TotalWork(c, p, Apply(c, st, CopyByte(r, i)).value) < TotalWork(c, p, st)
  {
    TotalWorkShrinks(c, p, st, Apply(c, st, CopyByte(r, i)).value, r);
  }

  lemma EndShrinksWork(c: Config, p: Plan, st: State, r: nat)
    requires PlanOk(p) && r < |st| && RankOk(c, p, r, st[r]) && Apply(c, st, EndBroadcast(r)).Some?
    ensures TotalWork(c, p, Apply(c, st, EndBroadcast(r)).value) < TotalWork(c, p, st)
  {
    if r > 0 {
      OpWorkNonNegative(p, st[r]);
      assert ReceivingOk(p, st[r]);
      BoundedSetSize(st[r].op.copied, p.cap);
    }
    TotalWorkShrinks(c, p, st, Apply(c, st, EndBroadcast(r)).value, r);
  }

  lemma StepShrinksWork(c: Config, p: Plan, st: State, a: Action)
    requires PlanOk(p) && Inv(c, p, st) && Apply(c, st, a).Some?
    ensures TotalWork(c, p, Apply(c, st, a).value) < TotalWork(c, p, st)
  {
    match a
    case Main(r) => MainShrinksWork(c, p, st, r);
    case ExchangeMeta(r) => ExchangeShrinksWork(c, p, st, r);
    case CopyByte(r, i) => CopyShrinksWork(c, p, st, r, i);
    case EndBroadcast(r) => EndShrinksWork(c, p, st, r);
  }

  /** The work of one receiver for k buckets that yield m weights. */
  function ReceiverWork(k: nat, cap: nat, m: nat): nat {
    k * (cap + 6) + m + 2
  }

  /** The work of a transfer of k buckets that yield m weights. */
  ghost function WorkOf(c: Config, k: nat, m: nat): int {
    3 * |c.ws| + 3 * k + 5 + (c.n - 1) * ReceiverWork(k, c.cap, m)
  }

  /** The work of a whole transfer, in terms of the configuration alone. */
  ghost function TransferWork(c: Config): int
    requires ValidConfig(c)
  {
    var k := |Buckets(c.cap, c.ws)|;
    BucketsWellFormed(c.cap, c.ws);
    WorkOf(c, k, |DeliveredStream(Buckets(c.cap, c.ws))|)
  }

  lemma InvWorkNonNegative(c: Config, p: Plan, st: State)
    requires PlanOk(p) && Inv(c, p, st)
    ensures TotalWork(c, p, st) >= 0
  {
    forall r: nat | r < |st|
      ensures Chores(c, p)(r, st[r]) >= 0
    {
      WorkNonNegative(c, p, r, st[r]);
    }
    Runs.TotalNonNegative(Chores(c, p), st);
  }

  lemma WorkShrinks(c: Config, p: Plan)
    requires PlanFor(c, p)
    ensures Runs.Shrinks(Steps(c), Invs(c, p), Totals(c, p))
  {
    forall st | Invs(c, p)(st)
      ensures Totals(c, p)(st) >= 0
    {
      InvWorkNonNegative(c, p, st);
    }
    forall st, a | Invs(c, p)(st) && Steps(c)(st, a).Some?
      ensures Totals(c, p)(Steps(c)(st, a).value) < Totals(c, p)(st)
    {
      StepShrinksWork(c, p, st, a);
    }
  }

  lemma InitialReceiverWork(c: Config, p: Plan, r: nat, me: Rank)
    requires InitRank(c, r, me) && r > 0
    ensures Work(c, p, r, me) == ReceiverWork(|p.mds|, p.cap, |LastSent(p)|)
  {
    assert |p.mds| * (p.cap + 6) == |p.mds| * (p.cap + 3) + 3 * |p.mds|;
  }

  lemma InitialTotal(c: Config, p: Plan, st: State, w: int)
    requires Init(c, st) && st != [] && p.cap == c.cap
    requires w == ReceiverWork(|p.mds|, p.cap, |LastSent(p)|)
    ensures TotalWork(c, p, st) == WorkOf(c, |p.mds|, |LastSent(p)|)
  {
    assert InitRank(c, 0, st[0]);
    forall r: nat | 0 < r < |st|
      ensures Chores(c, p)(r, st[r]) == w
    {
      InitialReceiverWork(c, p, r, st[r]);
    }
    Runs.TotalOfEqual(Chores(c, p), st, 3 * |c.ws| + 3 * |p.mds| + 5, w);
  }

  lemma InitialWorkIs(c: Config, st: State)
    requires ValidConfig(c) && Init(c, st)
    ensures TotalWork(c, ThePlan(c), st) == TransferWork(c)
  {
    PlanSizes(c);
    InitialTotal(c, ThePlan(c), st, ReceiverWork(|ThePlan(c).mds|, c.cap, |LastSent(ThePlan(c))|));
  }

  /** Every run, however threads and coroutines are interleaved, ends within a number of steps
      fixed in advance. */
  lemma RunsAreBounded(c: Config, tr: seq<State>)
    requires ValidConfig(c) && IsRun(c, tr)
    ensures |tr| - 1 <= TransferWork(c)
  {
    var p := ThePlan(c);
    InvIsInvariant(c, p);
    WorkShrinks(c, p);
    Runs.RunSpends(Starts(c), Steps(c), Invs(c, p), Totals(c, p), tr);
    InitialWorkIs(c, tr[0]);
  }

  lemma FinishedRank(p: Plan, me: Rank)
    requires PlanOk(p) && ReceiverOk(p, me) && me.pc == Finished
    ensures me.out == p.sent[|p.mds|]
  {
  }

  /** A run that can go no further has finished at every rank, and each receiver has yielded
      the buckets' contents in order. */
  lemma RunsDeliver(c: Config, tr: seq<State>)
    requires ValidConfig(c) && IsRun(c, tr) && !CanStep(c, tr[|tr| - 1])
    ensures var st := tr[|tr| - 1];
            && |st| == c.n && AllFinished(st)
            && forall r :: 0 < r < |st| ==>
                             st[r].out == (BucketsWellFormed(c.cap, c.ws); DeliveredStream(Buckets(c.cap, c.ws)))
  {
    var p, st := ThePlan(c), tr[|tr| - 1];
    RunKeepsInv(c, p, tr);
    if !AllFinished(st) {
      NeverStuck(c, p, st);
    }
    forall r | 0 < r < |st|
      ensures st[r].out == p.sent[|p.mds|]
    {
      assert RankOk(c, p, r, st[r]);
      FinishedRank(p, st[r]);
    }
  }

  // --------------------------------------------------------------------------
  // Runs exist and can be completed
  // --------------------------------------------------------------------------

  /** The theorems above are not empty: there are initial states, ... */
  lemma RunsExist(c: Config) returns (tr: seq<State>)
    requires ValidConfig(c)
    ensures IsRun(c, tr)
  {
    var zeros: seq<byte> := seq(c.cap, _ => 0);
    var bufs: Buffers := [zeros, zeros];
    var none := Metadata([], false);
    tr := [seq(c.n, r => Rank(if r == 0 then Filling else Start, bufs, 0, NoOp, [], 0, Fill(0, 0, [], []), none, 0, [],
                              0, 0))];
  }

  /** ... and every run, wherever the interleaving has taken it, can be continued to its end. */
  lemma RunsCanFinish(c: Config, tr: seq<State>) returns (whole: seq<State>)
    requires ValidConfig(c) && IsRun(c, tr)
    ensures IsRun(c, whole) && tr <= whole && !CanStep(c, whole[|whole| - 1])
  {
    var p := ThePlan(c);
    InvIsInvariant(c, p);
    WorkShrinks(c, p);
    whole := Runs.RunCanFinish(Starts(c), Steps(c), Invs(c, p), Totals(c, p), tr);
  }

  /** The broadcast is a faithful `yield from weights` at every receiver exactly when no bucket
      repeats a name; distinct names are enough. */
  lemma BroadcastRefinesYieldFrom(c: Config, tr: seq<State>, r: nat)
    requires ValidConfig(c) && IsRun(c, tr) && !CanStep(c, tr[|tr| - 1]) && 0 < r < c.n
    ensures |tr[|tr| - 1]| == c.n
    ensures tr[|tr| - 1][r].out == c.ws
            <==> forall k :: 0 <= k < |Buckets(c.cap, c.ws)| ==> DistinctNames(Buckets(c.cap, c.ws)[k])
    ensures DistinctNames(c.ws) ==> tr[|tr| - 1][r].out == c.ws
  {
    RunsDeliver(c, tr);
    StreamDeliveredExactly(c.cap, c.ws);
  }
}
