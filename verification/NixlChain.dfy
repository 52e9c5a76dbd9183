/** The NIXL checkpoint engine: ranks 0 .. n-1 in a chain. Rank 0 packs weights into its
    buffers; every later rank reads bucket after bucket from its predecessor into one
    buffer while it offers the previous bucket, in its other buffer, to its successor.

    The ranks run concurrently, so the engine is a transition system. A local step takes one
    rank from one await (or yield) to the next; a transfer moves one byte at a time, in any
    order, at any moment between begin_read and its completion. */
module NixlChain {
  import opened BucketPacking
  import opened IntSeqs
  import opened Options
  import Runs
  import opened TransferPlan

  /** An outstanding ReadableOperation: its fresh notify key and which of the two registered
      buffers it lets the successor read. Its message carries both, and the metadata. */
  datatype ReadableOp = ReadableOp(notifyKey: nat, localDescs: bit)
  datatype Message = Message(notifyKey: nat, remoteDescs: bit, metadata: Metadata)

  /** A read in flight, from buffer remote of the predecessor into our buffer local. */
  datatype Xfer = NoXfer | Xfer(notifyKey: nat, local: bit, remote: bit, copied: set<nat>, done: bool)

  datatype PC =
      // send_weights
    | Filling | AwaitFlush | PutWeight | AwaitLast | AwaitFinal
      // receive_weights
    | AwaitFirst | AwaitFirstRead | LoopTop | AwaitNext | Yielding | AwaitReadable | AwaitRead
    | YieldingLast | AwaitLastReadable
      // both
    | Finished
    | Raised // an assertion of the program failed

  /** One rank. The last three fields are history: no step tests them. */
  datatype Rank = Rank(
    pc: PC,
    bufs: Buffers,
    send: bit, // which buffer send_buf denotes; recv_buf is the other one
    op: Option<ReadableOp>,
    messages: seq<Message>, // from the predecessor
    notifications: seq<nat>, // from the successor
    fill: Fill, // sender: the bucket being filled in send_buf
    metadata: Metadata, // receiver: the bucket in send_buf
    nextMetadata: Metadata, // the bucket being read
    xfer: Xfer,
    index: nat, // position in the yield loop
    out: seq<Weight>, // everything yielded
    posts: nat, // buckets offered to the successor
    got: nat // buckets read and swapped in
  )

  ghost predicate ValidConfig(c: Config) {
    c.n >= 2 && Sendable(c)
  }

  // --------------------------------------------------------------------------
  // Local steps
  // --------------------------------------------------------------------------

  datatype Outcome = Blocked | Went(me: Rank, sent: seq<Message>)

  datatype Wait = NotYet | WrongKey | Ready(me: Rank)

  /** ReadableOperation.wait_for_complete, or nothing when no operation is outstanding. */
  function WaitOp(me: Rank): Wait {
    if me.op.None? then Ready(me)
    else if me.notifications == [] then NotYet
    else if me.notifications[0] != me.op.value.notifyKey then WrongKey
    else Ready(me.(op := None, notifications := me.notifications[1..]))
  }

  function Raise(me: Rank): Outcome {
    Went(me.(pc := Raised), [])
  }

  /** Wait for the previous bucket, then offer the one just filled. */
  function PostBucket(me: Rank, key: nat, isLast: bool): Outcome {
    match WaitOp(me)
    case NotYet => Blocked
    case WrongKey => Raise(me)
    case Ready(m) =>
      var msg := Message(key, m.send, Metadata(m.fill.bucketMeta, isLast));
      if isLast then
        Went(m.(op := Some(ReadableOp(key, m.send)), posts := m.posts + 1, pc := AwaitFinal), [msg])
      else
        Went(m.(op := Some(ReadableOp(key, m.send)), posts := m.posts + 1, send := 1 - m.send, fill := Restart(m.fill),
                pc := PutWeight), [msg])
  }

  function SenderStep(c: Config, me: Rank, key: nat): Outcome {
    match me.pc
    case Filling =>
      if me.fill.next >= |c.ws| then Went(me.(pc := AwaitLast), [])
      else if me.fill.offset + |c.ws[me.fill.next].bytes| > c.cap then Went(me.(pc := AwaitFlush), [])
      else Went(me.(pc := PutWeight), [])
    case AwaitFlush => PostBucket(me, key, false)
    case PutWeight =>
      if me.fill.next >= |c.ws| then Raise(me)
      else
        var w, at := c.ws[me.fill.next], me.fill.offset;
        if at + |w.bytes| > c.cap || at + |w.bytes| > |me.bufs[me.send]| then Raise(me)
        else
          Went(me.(bufs := me.bufs[me.send := Overwrite(me.bufs[me.send], at, w.bytes)],
                   fill := Take(me.fill, w),
                   pc := Filling), [])
    case AwaitLast => PostBucket(me, key, true)
    case AwaitFinal =>
      match WaitOp(me) {
        case NotYet => Blocked
        case WrongKey => Raise(me)
        case Ready(m) => Went(m.(pc := Finished), [])
      }
    case _ => Blocked
  }

  /** Offer send_buf to the successor, if there is one. */
  function Forward(me: Rank, hasNext: bool, key: nat, pc: PC): Outcome {
    if hasNext then
      Went(me.(op := Some(ReadableOp(key, me.send)), posts := me.posts + 1, index := 0, pc := pc),
           [Message(key, me.send, me.metadata)])
    else
      Went(me.(op := None, index := 0, pc := pc), [])
  }

  /** read_metadata followed by begin_read into recv_buf. */
  function BeginRead(me: Rank, pc: PC): Outcome {
    if me.messages == [] then Blocked
    else
      var m := me.messages[0];
      Went(me.(messages := me.messages[1..], nextMetadata := m.metadata,
               xfer := Xfer(m.notifyKey, 1 - me.send, m.remoteDescs, {}, false), pc := pc), [])
  }

  /** The read has completed: swap the buffers and go back to the loop test. */
  function EndRead(me: Rank): Outcome {
    if me.xfer.NoXfer? || !me.xfer.done then Blocked
    else Went(me.(xfer := NoXfer, got := me.got + 1, metadata := me.nextMetadata, send := 1 - me.send,
                  pc := LoopTop), [])
  }

  /** One turn of the yield loop; leaves it for pc after when the bucket is exhausted. */
  function YieldOne(me: Rank, after: PC): Outcome {
    if me.index >= |me.metadata.bucketMeta| then Went(me.(pc := after), [])
    else
      var m := me.metadata.bucketMeta[me.index];
      if InRange(m, me.bufs[me.send]) then
        Went(me.(out := me.out + [View(me.bufs[me.send], m)], index := me.index + 1), [])
      else Raise(me)
  }

  function WaitThen(me: Rank, pc: PC): Outcome {
    match WaitOp(me)
    case NotYet => Blocked
    case WrongKey => Raise(me)
    case Ready(m) => Went(m.(pc := pc), [])
  }

  function ReceiverStep(hasNext: bool, me: Rank, key: nat): Outcome {
    match me.pc
    case AwaitFirst => BeginRead(me, AwaitFirstRead)
    case AwaitFirstRead => EndRead(me)
    case LoopTop => Forward(me, hasNext, key, if me.metadata.isLast then YieldingLast else AwaitNext)
    case AwaitNext => BeginRead(me, Yielding)
    case Yielding => YieldOne(me, AwaitReadable)
    case AwaitReadable => WaitThen(me, AwaitRead)
    case AwaitRead => EndRead(me)
    case YieldingLast => YieldOne(me, AwaitLastReadable)
    case AwaitLastReadable => WaitThen(me, Finished)
    case _ => Blocked
  }

  function LocalStep(c: Config, r: nat, me: Rank, key: nat): Outcome {
    if r == 0 then SenderStep(c, me, key) else ReceiverStep(r + 1 < c.n, me, key)
  }

  // --------------------------------------------------------------------------
  // The chain
  // --------------------------------------------------------------------------

  type State = seq<Rank>

  datatype Action = Local(r: nat, key: nat) | CopyByte(r: nat, i: nat) | FinishRead(r: nat)

  function Enqueue(st: State, r: nat, sent: seq<Message>): (st': State)
    ensures |st'| == |st|
  {
    if r < |st| then st[r := st[r].(messages := st[r].messages + sent)] else st
  }

  function Apply(c: Config, st: State, a: Action): Option<State> {
    match a
    case Local(r, key) =>
      if r >= |st| then None
      else
        (match LocalStep(c, r, st[r], key)
         case Blocked => None
         case Went(me, sent) => Some(Enqueue(st[r := me], r + 1, sent)))
    case CopyByte(r, i) =>
      if !(0 < r < |st|) then None
      else
        var me := st[r];
        var x := me.xfer;
        if x.NoXfer? || x.done || i in x.copied then None
        else if i >= |me.bufs[x.local]| || i >= |st[r - 1].bufs[x.remote]| then None
        else
          Some(st[r := me.(bufs := me.bufs[x.local := me.bufs[x.local][i := st[r - 1].bufs[x.remote][i]]],
                           xfer := x.(copied := x.copied + {i}))])
    case FinishRead(r) =>
      if !(0 < r < |st|) then None
      else
        var me := st[r];
        var x := me.xfer;
        if x.NoXfer? || x.done || exists i :: 0 <= i < c.cap && i !in x.copied then None
        else
          Some(st[r := me.(xfer := x.(done := true))]
                 [r - 1 := st[r - 1].(notifications := st[r - 1].notifications + [x.notifyKey])])
  }

  predicate InitRank(c: Config, r: nat, me: Rank) {
    && me.pc == (if r == 0 then Filling else AwaitFirst)
    && |me.bufs[0]| == |me.bufs[1]| == c.cap
    && me.send == 0
    && me.op == None && me.messages == [] && me.notifications == []
    && me.fill == Fill(0, 0, [], []) && me.xfer == NoXfer
    && me.out == [] && me.posts == 0 && me.got == 0
  }

  /** Buffers start with arbitrary bytes. */
  ghost predicate Init(c: Config, st: State) {
    |st| == c.n && forall r :: 0 <= r < |st| ==> InitRank(c, r, st[r])
  }

  // --------------------------------------------------------------------------
  // The invariant
  // --------------------------------------------------------------------------

  ghost predicate PlanFor(c: Config, p: Plan) {
    ValidConfig(c) && Planned(c, p)
  }

  predicate Shape(p: Plan, me: Rank) {
    |me.bufs[0]| == p.cap && |me.bufs[1]| == p.cap
  }

  /** The bucket offered last is intact in the buffer it was offered from. */
  ghost predicate PostedIntact(p: Plan, me: Rank) {
    me.op.Some? ==> Holds(p, me.bufs[me.op.value.localDescs], me.posts - 1)
  }

  /** Rank 0 is filling bucket number posts, in the buffer that is not on offer. */
  ghost predicate FillingOk(c: Config, me: Rank) {
    && FillOk(c.cap, c.ws, me.posts, me.fill, me.bufs[me.send])
    && (me.op.Some? <==> me.posts > 0)
    && (me.op.Some? ==> me.op.value.localDescs == 1 - me.send)
  }

  predicate NextFits(c: Config, me: Rank) {
    me.fill.next < |c.ws| && me.fill.offset + |c.ws[me.fill.next].bytes| <= c.cap
  }

  ghost predicate SenderOk(c: Config, p: Plan, me: Rank) {
    && Shape(p, me) && PostedIntact(p, me)
    && me.xfer == NoXfer && me.messages == [] && me.got == 0 && me.out == []
    && match me.pc
       case Filling => FillingOk(c, me)
       case PutWeight => FillingOk(c, me) && NextFits(c, me)
       case AwaitFlush => FillingOk(c, me) && me.fill.next < |c.ws| && !NextFits(c, me)
       case AwaitLast => FillingOk(c, me) && me.fill.next == |c.ws|
       case AwaitFinal => me.posts == |p.mds| && me.op.Some? && me.fill.next == |c.ws|
       case Finished => me.posts == |p.mds| && me.op.None? && me.fill.next == |c.ws|
       case _ => false
  }

  /** The read of bucket number got is under way. */
  ghost predicate ReadingOk(p: Plan, me: Rank) {
    && me.got < |p.mds| == |p.payloads|
    && me.xfer.Xfer?
    && me.xfer.local == 1 - me.send
    && me.nextMetadata == p.mds[me.got]
    && ArrivedOk(p.payloads[me.got], me.bufs[me.xfer.local], me.xfer.copied)
    && (me.xfer.done ==> forall i :: 0 <= i < p.cap ==> i in me.xfer.copied)
  }

  /** send_buf and metadata are bucket number got - 1. */
  ghost predicate LoadedOk(p: Plan, me: Rank) {
    && 0 < me.got <= |p.mds|
    && me.metadata == p.mds[me.got - 1]
    && Holds(p, me.bufs[me.send], me.got - 1)
  }

  ghost predicate OfferedOk(hasNext: bool, me: Rank) {
    && (me.op.Some? <==> hasNext)
    && (me.op.Some? ==> me.op.value.localDescs == me.send)
    && me.posts == if hasNext then me.got else 0
  }

  ghost predicate AckedOk(hasNext: bool, me: Rank) {
    me.op.None? && me.posts == if hasNext then me.got else 0
  }

  ghost predicate ReceiverOk(p: Plan, hasNext: bool, me: Rank) {
    && Shape(p, me) && PostedIntact(p, me)
    && match me.pc
       case AwaitFirst =>
         me.got == 0 && me.posts == 0 && me.op.None? && me.xfer.NoXfer? && YieldedOk(p, 0, me.out)
       case AwaitFirstRead =>
         me.got == 0 && me.posts == 0 && me.op.None? && ReadingOk(p, me) && YieldedOk(p, 0, me.out)
       case LoopTop =>
         && LoadedOk(p, me) && me.op.None? && me.xfer.NoXfer? && YieldedOk(p, me.got - 1, me.out)
         && me.posts == if hasNext then me.got - 1 else 0
       case AwaitNext =>
         && LoadedOk(p, me) && OfferedOk(hasNext, me) && me.xfer.NoXfer? && me.index == 0
         && YieldedOk(p, me.got - 1, me.out) && me.got < |p.mds|
       case Yielding =>
         && LoadedOk(p, me) && OfferedOk(hasNext, me) && ReadingOk(p, me)
         && YieldingOk(p, me.got - 1, me.index, me.out)
       case AwaitReadable =>
         LoadedOk(p, me) && OfferedOk(hasNext, me) && ReadingOk(p, me) && YieldedOk(p, me.got, me.out)
       case AwaitRead =>
         LoadedOk(p, me) && AckedOk(hasNext, me) && ReadingOk(p, me) && YieldedOk(p, me.got, me.out)
       case YieldingLast =>
         && LoadedOk(p, me) && OfferedOk(hasNext, me) && me.xfer.NoXfer? && me.got == |p.mds|
         && YieldingOk(p, me.got - 1, me.index, me.out)
       case AwaitLastReadable =>
         && LoadedOk(p, me) && OfferedOk(hasNext, me) && me.xfer.NoXfer? && me.got == |p.mds|
         && YieldedOk(p, me.got, me.out)
       case Finished =>
         AckedOk(hasNext, me) && me.xfer.NoXfer? && me.got == |p.mds| && YieldedOk(p, me.got, me.out)
       case _ => false
  }

  ghost predicate RankOk(c: Config, p: Plan, r: nat, me: Rank) {
    if r == 0 then SenderOk(c, p, me) else ReceiverOk(p, r + 1 < c.n, me)
  }

  /** Reads a rank has begun, and reads whose bytes have all arrived. */
  function Begun(b: Rank): nat {
    b.got + if b.xfer.Xfer? then 1 else 0
  }

  function Arrived(b: Rank): nat {
    b.got + if b.xfer.Xfer? && b.xfer.done then 1 else 0
  }

  /** Offers whose completion the sender has seen. */
  function Acked(a: Rank): int {
    a.posts - if a.op.Some? then 1 else 0
  }

  /** Between neighbours: at most one bucket is on offer, and exactly one of the message, the
      running transfer and the notification stands for it. */
  ghost predicate LinkOk(p: Plan, a: Rank, b: Rank) {
    && Acked(a) <= Arrived(b) <= Begun(b) <= a.posts <= |p.mds|
    && b.messages == (if a.posts > Begun(b) && a.op.Some?
                      then [Message(a.op.value.notifyKey, a.op.value.localDescs, p.mds[a.posts - 1])] else [])
    && a.notifications == (if Arrived(b) > Acked(a) && a.op.Some? then [a.op.value.notifyKey] else [])
    && (b.xfer.Xfer? && !b.xfer.done && a.op.Some? ==>
          ReadableOp(b.xfer.notifyKey, b.xfer.remote) == a.op.value)
  }

  ghost predicate RanksOk(c: Config, p: Plan, st: State) {
    forall r :: 0 <= r < |st| ==> RankOk(c, p, r, st[r])
  }

  ghost predicate LinksOk(p: Plan, st: State) {
    forall r :: 0 < r < |st| ==> LinkOk(p, st[r - 1], st[r])
  }

  ghost predicate Inv(c: Config, p: Plan, st: State) {
    |st| == c.n && RanksOk(c, p, st) && LinksOk(p, st)
  }

  lemma InitInv(c: Config, p: Plan, st: State)
    requires PlanFor(c, p) && Init(c, st)
    ensures Inv(c, p, st)
  {
    forall r | 0 <= r < |st|
      ensures RankOk(c, p, r, st[r])
    {
      assert InitRank(c, r, st[r]);
      if r == 0 {
        FillStarts(c.cap, c.ws, st[r].bufs[0]);
      }
    }
    forall r | 0 < r < |st|
      ensures LinkOk(p, st[r - 1], st[r])
    {
      assert InitRank(c, r - 1, st[r - 1]) && InitRank(c, r, st[r]);
    }
  }

  // --------------------------------------------------------------------------
  // Local steps keep the rank's own invariant
  // --------------------------------------------------------------------------

  /** What the link to the predecessor says about the inbox. */
  ghost predicate InboxOk(p: Plan, me: Rank) {
    me.messages != [] ==>
      && Begun(me) < |p.mds|
      && me.messages[0].metadata == p.mds[Begun(me)]
  }

  ghost predicate NotificationsOk(me: Rank) {
    me.notifications != [] && me.op.Some? ==> me.notifications[0] == me.op.value.notifyKey
  }

  lemma PutStepOk(c: Config, p: Plan, me: Rank, key: nat)
    requires ValidConfig(c) && c.cap == p.cap && SenderOk(c, p, me) && me.pc == PutWeight
    ensures var o := SenderStep(c, me, key); o.Went? && SenderOk(c, p, o.me)
  {
    FillTakes(c.cap, c.ws, me.posts, me.fill, me.bufs[me.send]);
  }

  lemma FlushStepOk(c: Config, p: Plan, me: Rank, key: nat)
    requires PlanFor(c, p) && SenderOk(c, p, me) && me.pc == AwaitFlush && NotificationsOk(me)
    ensures me.posts < |p.mds|
    ensures var o := SenderStep(c, me, key);
            o.Went? ==> SenderOk(c, p, o.me) && o.sent == [Message(key, me.send, p.mds[me.posts])]
  {
    FillFlushes(c.cap, c.ws, p, me.posts, me.fill, me.bufs[me.send], me.bufs[1 - me.send]);
  }

  lemma LastStepOk(c: Config, p: Plan, me: Rank, key: nat)
    requires PlanFor(c, p) && SenderOk(c, p, me) && me.pc == AwaitLast && NotificationsOk(me)
    ensures me.posts < |p.mds|
    ensures var o := SenderStep(c, me, key);
            o.Went? ==> SenderOk(c, p, o.me) && o.sent == [Message(key, me.send, p.mds[me.posts])]
  {
    FillEnds(c.cap, c.ws, p, me.posts, me.fill, me.bufs[me.send]);
  }

  lemma ChooseStepOk(c: Config, p: Plan, me: Rank, key: nat)
    requires SenderOk(c, p, me) && me.pc == Filling
    ensures var o := SenderStep(c, me, key); o.Went? && SenderOk(c, p, o.me)
  {
  }

  lemma FinalStepOk(c: Config, p: Plan, me: Rank, key: nat)
    requires SenderOk(c, p, me) && NotificationsOk(me) && me.pc == AwaitFinal
    ensures var o := SenderStep(c, me, key); o.Went? ==> SenderOk(c, p, o.me)
  {
  }

  lemma SenderStepOk(c: Config, p: Plan, me: Rank, key: nat)
    requires PlanFor(c, p) && SenderOk(c, p, me) && NotificationsOk(me)
    ensures var o := SenderStep(c, me, key); o.Went? ==> SenderOk(c, p, o.me)
  {
    if me.pc == PutWeight {
      PutStepOk(c, p, me, key);
    } else if me.pc == AwaitFlush {
      FlushStepOk(c, p, me, key);
    } else if me.pc == AwaitLast {
      LastStepOk(c, p, me, key);
    } else if me.pc == Filling {
      ChooseStepOk(c, p, me, key);
    } else if me.pc == AwaitFinal {
      FinalStepOk(c, p, me, key);
    }
  }

  lemma YieldStepOk(p: Plan, hasNext: bool, me: Rank, key: nat)
    requires PlanOk(p) && ReceiverOk(p, hasNext, me) && (me.pc == Yielding || me.pc == YieldingLast)
    ensures var o := ReceiverStep(hasNext, me, key); o.Went? && ReceiverOk(p, hasNext, o.me)
  {
    if me.index < |me.metadata.bucketMeta| {
      YieldAdvances(p, me.got - 1, me.index, me.out, me.bufs[me.send]);
    } else {
      YieldEnds(p, me.got - 1, me.index, me.out);
    }
  }

  /** Once every byte has arrived the local buffer starts with the payload. */
  lemma ReadComplete(p: Plan, me: Rank)
    requires PlanOk(p) && Shape(p, me) && ReadingOk(p, me) && me.xfer.done
    ensures Holds(p, me.bufs[me.xfer.local], me.got)
  {
    AllArrived(p.payloads[me.got], me.bufs[me.xfer.local], me.xfer.copied, p.cap);
  }

  lemma EndStepOk(p: Plan, hasNext: bool, me: Rank, key: nat)
    requires PlanOk(p) && ReceiverOk(p, hasNext, me) && (me.pc == AwaitFirstRead || me.pc == AwaitRead)
    ensures var o := ReceiverStep(hasNext, me, key); o.Went? ==> ReceiverOk(p, hasNext, o.me)
  {
    if me.xfer.done {
      ReadComplete(p, me);
    }
  }

  lemma BeginStepOk(p: Plan, hasNext: bool, me: Rank, key: nat)
    requires PlanOk(p) && ReceiverOk(p, hasNext, me) && InboxOk(p, me)
    requires me.pc == AwaitFirst || me.pc == AwaitNext
    ensures var o := ReceiverStep(hasNext, me, key); o.Went? ==> ReceiverOk(p, hasNext, o.me)
  {
    if me.pc == AwaitNext && me.messages != [] {
      YieldStarts(p, me.got - 1, me.out);
    }
  }

  lemma ForwardStepOk(p: Plan, hasNext: bool, me: Rank, key: nat)
    requires PlanOk(p) && ReceiverOk(p, hasNext, me) && me.pc == LoopTop
    ensures var o := ReceiverStep(hasNext, me, key); o.Went? && ReceiverOk(p, hasNext, o.me)
  {
    YieldStarts(p, me.got - 1, me.out);
  }

  lemma ReceiverStepOk(p: Plan, hasNext: bool, me: Rank, key: nat)
    requires PlanOk(p) && ReceiverOk(p, hasNext, me) && InboxOk(p, me) && NotificationsOk(me)
    ensures var o := ReceiverStep(hasNext, me, key); o.Went? ==> ReceiverOk(p, hasNext, o.me)
  {
    if me.pc == Yielding || me.pc == YieldingLast {
      YieldStepOk(p, hasNext, me, key);
    } else if me.pc == AwaitFirstRead || me.pc == AwaitRead {
      EndStepOk(p, hasNext, me, key);
    } else if me.pc == AwaitFirst || me.pc == AwaitNext {
      BeginStepOk(p, hasNext, me, key);
    } else if me.pc == LoopTop {
      ForwardStepOk(p, hasNext, me, key);
    }
  }

  lemma LocalStepOk(c: Config, p: Plan, r: nat, me: Rank, key: nat)
    requires PlanFor(c, p) && RankOk(c, p, r, me) && InboxOk(p, me) && NotificationsOk(me)
    ensures var o := LocalStep(c, r, me, key); o.Went? ==> RankOk(c, p, r, o.me)
  {
    if r == 0 {
      SenderStepOk(c, p, me, key);
    } else {
      ReceiverStepOk(p, r + 1 < c.n, me, key);
    }
  }

  // --------------------------------------------------------------------------
  // Local steps keep the links
  // --------------------------------------------------------------------------

  /** A step as the successor sees it: nothing, an acknowledgement taken, a bucket offered, or
      both of these in that order. */
  ghost predicate OutwardEffect(p: Plan, me: Rank, m: Rank, sent: seq<Message>, key: nat) {
    var acked := m.notifications != me.notifications;
    && (if acked
        then me.op.Some? && me.notifications != [] && m.notifications == me.notifications[1..]
        else m.notifications == me.notifications)
    && (if sent == []
        then m.posts == me.posts && m.op == if acked then None else me.op
        else
          && (acked || me.op.None?)
          && me.posts < |p.mds|
          && sent == [Message(key, me.send, p.mds[me.posts])]
          && m.posts == me.posts + 1 && m.op == Some(ReadableOp(key, me.send)))
  }

  /** A step as the predecessor sees it: nothing, a read begun, or a read swapped in. */
  ghost predicate InwardEffect(me: Rank, m: Rank) {
    || (m.messages == me.messages && m.xfer == me.xfer && m.got == me.got)
    || (&& me.xfer.NoXfer? && me.messages != [] && m.messages == me.messages[1..]
        && m.xfer.Xfer? && !m.xfer.done && m.xfer.notifyKey == me.messages[0].notifyKey
        && m.xfer.remote == me.messages[0].remoteDescs && m.got == me.got)
    || (me.xfer.Xfer? && me.xfer.done && m.xfer.NoXfer? && m.got == me.got + 1 && m.messages == me.messages)
  }

  lemma PostEffects(c: Config, p: Plan, me: Rank, key: nat)
    requires PlanFor(c, p) && SenderOk(c, p, me) && NotificationsOk(me) && (me.pc == AwaitFlush || me.pc == AwaitLast)
    ensures var o := SenderStep(c, me, key);
            o.Went? ==> OutwardEffect(p, me, o.me, o.sent, key) && InwardEffect(me, o.me)
  {
    if me.pc == AwaitFlush {
      FlushStepOk(c, p, me, key);
    } else {
      LastStepOk(c, p, me, key);
    }
  }

  lemma SenderEffects(c: Config, p: Plan, me: Rank, key: nat)
    requires PlanFor(c, p) && SenderOk(c, p, me) && NotificationsOk(me)
    ensures var o := SenderStep(c, me, key);
            o.Went? ==> OutwardEffect(p, me, o.me, o.sent, key) && InwardEffect(me, o.me)
  {
    if me.pc == AwaitFlush || me.pc == AwaitLast {
      PostEffects(c, p, me, key);
    }
  }

  ghost predicate EffectsOk(p: Plan, hasNext: bool, me: Rank, o: Outcome, key: nat) {
    o.Went? ==>
      && OutwardEffect(p, me, o.me, o.sent, key) && InwardEffect(me, o.me)
      && (!hasNext ==> o.sent == [])
  }

  lemma ReadEffects(p: Plan, hasNext: bool, me: Rank, key: nat)
    requires ReceiverOk(p, hasNext, me) && me.pc in {AwaitFirst, AwaitFirstRead, AwaitNext, AwaitRead}
    ensures EffectsOk(p, hasNext, me, ReceiverStep(hasNext, me, key), key)
  {
  }

  lemma ForwardEffects(p: Plan, hasNext: bool, me: Rank, key: nat)
    requires PlanOk(p) && ReceiverOk(p, hasNext, me) && me.pc == LoopTop
    ensures EffectsOk(p, hasNext, me, ReceiverStep(hasNext, me, key), key)
  {
  }

  lemma WaitEffects(p: Plan, hasNext: bool, me: Rank, key: nat)
    requires ReceiverOk(p, hasNext, me) && NotificationsOk(me) && me.pc in {AwaitReadable, AwaitLastReadable}
    ensures EffectsOk(p, hasNext, me, ReceiverStep(hasNext, me, key), key)
  {
  }

  lemma ReceiverEffects(p: Plan, hasNext: bool, me: Rank, key: nat)
    requires PlanOk(p) && ReceiverOk(p, hasNext, me) && NotificationsOk(me)
    ensures EffectsOk(p, hasNext, me, ReceiverStep(hasNext, me, key), key)
  {
    if me.pc in {AwaitFirst, AwaitFirstRead, AwaitNext, AwaitRead} {
      ReadEffects(p, hasNext, me, key);
    } else if me.pc == LoopTop {
      ForwardEffects(p, hasNext, me, key);
    } else if me.pc in {AwaitReadable, AwaitLastReadable} {
      WaitEffects(p, hasNext, me, key);
    }
  }

  lemma OutwardKeepsLink(p: Plan, a: Rank, b: Rank, a': Rank, sent: seq<Message>, key: nat)
    requires LinkOk(p, a, b) && OutwardEffect(p, a, a', sent, key)
    ensures LinkOk(p, a', b.(messages := b.messages + sent))
  {
  }

  lemma InwardKeepsLink(p: Plan, a: Rank, b: Rank, b': Rank)
    requires LinkOk(p, a, b) && InwardEffect(b, b')
    ensures LinkOk(p, a, b')
  {
  }

  lemma LinkFeedsRank(p: Plan, a: Rank, b: Rank)
    requires LinkOk(p, a, b)
    ensures InboxOk(p, b) && NotificationsOk(a)
  {
  }

  lemma EndsAreQuiet(c: Config, p: Plan, r: nat, me: Rank)
    requires RankOk(c, p, r, me)
    ensures r == 0 ==> me.messages == []
    ensures r > 0 && r + 1 >= c.n ==> me.op.None?
  {
  }

  lemma NeighboursFeedRank(c: Config, p: Plan, st: State, r: nat)
    requires c.n >= 2 && Inv(c, p, st) && r < |st|
    ensures InboxOk(p, st[r]) && NotificationsOk(st[r])
  {
    EndsAreQuiet(c, p, r, st[r]);
    if r > 0 {
      LinkFeedsRank(p, st[r - 1], st[r]);
    }
    if r + 1 < |st| {
      assert LinkOk(p, st[r + 1 - 1], st[r + 1]);
      LinkFeedsRank(p, st[r], st[r + 1]);
    }
  }

  lemma MoreMessagesOk(c: Config, p: Plan, r: nat, me: Rank, sent: seq<Message>)
    requires RankOk(c, p, r, me) && r > 0
    ensures RankOk(c, p, r, me.(messages := me.messages + sent))
  {
  }

  lemma OneRankOk(c: Config, p: Plan, st: State, r: nat, me: Rank)
    requires RanksOk(c, p, st) && r < |st| && RankOk(c, p, r, me)
    ensures RanksOk(c, p, st[r := me])
  {
  }

  lemma LocalKeepsRanks(c: Config, p: Plan, st: State, r: nat, me: Rank, sent: seq<Message>)
    requires RanksOk(c, p, st) && r < |st| && RankOk(c, p, r, me)
    ensures RanksOk(c, p, Enqueue(st[r := me], r + 1, sent))
  {
    OneRankOk(c, p, st, r, me);
    if r + 1 < |st| {
      MoreMessagesOk(c, p, r + 1, st[r + 1], sent);
      OneRankOk(c, p, st[r := me], r + 1, st[r + 1].(messages := st[r + 1].messages + sent));
    }
  }

  lemma MessagesEndLink(p: Plan, a: Rank, b: Rank, sent: seq<Message>)
    requires LinkOk(p, a, b)
    ensures LinkOk(p, a.(messages := a.messages + sent), b)
  {
  }

  lemma LocalKeepsLinks(p: Plan, st: State, r: nat, me: Rank, sent: seq<Message>, key: nat)
    requires LinksOk(p, st) && r < |st|
    requires OutwardEffect(p, st[r], me, sent, key) && InwardEffect(st[r], me)
    ensures LinksOk(p, Enqueue(st[r := me], r + 1, sent))
  {
    var st' := Enqueue(st[r := me], r + 1, sent);
    forall q | 0 < q < |st'|
      ensures LinkOk(p, st'[q - 1], st'[q])
    {
      assert LinkOk(p, st[q - 1], st[q]);
      if q == r {
        InwardKeepsLink(p, st[q - 1], st[q], me);
      } else if q == r + 1 {
        OutwardKeepsLink(p, st[q - 1], st[q], me, sent, key);
      } else if q == r + 2 {
        MessagesEndLink(p, st[q - 1], st[q], sent);
      }
    }
  }

  lemma LocalStepEffects(c: Config, p: Plan, r: nat, me: Rank, key: nat)
    requires PlanFor(c, p) && RankOk(c, p, r, me) && NotificationsOk(me)
    ensures var o := LocalStep(c, r, me, key);
            o.Went? ==> OutwardEffect(p, me, o.me, o.sent, key) && InwardEffect(me, o.me)
  {
    if r == 0 {
      SenderEffects(c, p, me, key);
    } else {
      ReceiverEffects(p, r + 1 < c.n, me, key);
    }
  }

  lemma LocalResult(c: Config, p: Plan, st: State, r: nat, key: nat)
    requires PlanFor(c, p) && Inv(c, p, st) && r < |st| && LocalStep(c, r, st[r], key).Went?
    ensures var o := LocalStep(c, r, st[r], key);
            && RankOk(c, p, r, o.me)
            && OutwardEffect(p, st[r], o.me, o.sent, key) && InwardEffect(st[r], o.me)
  {
    NeighboursFeedRank(c, p, st, r);
    LocalStepOk(c, p, r, st[r], key);
    LocalStepEffects(c, p, r, st[r], key);
  }

  lemma EnqueueKeepsInv(c: Config, p: Plan, st: State, r: nat, me: Rank, sent: seq<Message>, key: nat)
    requires Inv(c, p, st) && r < |st| && RankOk(c, p, r, me)
    requires OutwardEffect(p, st[r], me, sent, key) && InwardEffect(st[r], me)
    ensures Inv(c, p, Enqueue(st[r := me], r + 1, sent))
  {
    LocalKeepsRanks(c, p, st, r, me, sent);
    LocalKeepsLinks(p, st, r, me, sent, key);
  }

  lemma LocalIsEnqueue(c: Config, st: State, r: nat, key: nat, o: Outcome)
    requires r < |st| && o == LocalStep(c, r, st[r], key) && o.Went?
    ensures Apply(c, st, Local(r, key)) == Some(Enqueue(st[r := o.me], r + 1, o.sent))
  {
  }

  lemma ResultKeepsInv(c: Config, p: Plan, st: State, r: nat, key: nat, o: Outcome)
    requires PlanFor(c, p) && Inv(c, p, st) && r < |st| && o == LocalStep(c, r, st[r], key) && o.Went?
    ensures Inv(c, p, Enqueue(st[r := o.me], r + 1, o.sent))
  {
    LocalResult(c, p, st, r, key);
    EnqueueKeepsInv(c, p, st, r, o.me, o.sent, key);
  }

  lemma LocalKeepsInv(c: Config, p: Plan, st: State, r: nat, key: nat)
    requires PlanFor(c, p) && Inv(c, p, st) && r < |st| && LocalStep(c, r, st[r], key).Went?
    ensures Inv(c, p, Apply(c, st, Local(r, key)).value)
  {
    var o := LocalStep(c, r, st[r], key);
    LocalIsEnqueue(c, st, r, key, o);
    ResultKeepsInv(c, p, st, r, key, o);
  }

  // --------------------------------------------------------------------------
  // Transfer steps
  // --------------------------------------------------------------------------

  lemma ReadingRank(c: Config, p: Plan, r: nat, me: Rank)
    requires RankOk(c, p, r, me) && me.xfer.Xfer?
    ensures r > 0 && ReadingOk(p, me)
  {
  }

  lemma PostedRank(c: Config, p: Plan, r: nat, me: Rank)
    requires RankOk(c, p, r, me)
    ensures Shape(p, me) && PostedIntact(p, me)
  {
  }

  /** While a transfer runs, its source still holds the bucket being read. */
  lemma SourceIntact(c: Config, p: Plan, st: State, r: nat)
    requires Inv(c, p, st) && 0 < r < |st| && st[r].xfer.Xfer? && !st[r].xfer.done
    ensures st[r - 1].op == Some(ReadableOp(st[r].xfer.notifyKey, st[r].xfer.remote))
    ensures st[r - 1].posts == st[r].got + 1
    ensures ReadingOk(p, st[r])
    ensures Holds(p, st[r - 1].bufs[st[r].xfer.remote], st[r].got)
  {
    ReadingRank(c, p, r, st[r]);
    PostedRank(c, p, r - 1, st[r - 1]);
    assert LinkOk(p, st[r - 1], st[r]);
  }

  function WithByte(me: Rank, i: nat, x: byte): Rank
    requires me.xfer.Xfer? && i < |me.bufs[me.xfer.local]|
  {
    me.(bufs := me.bufs[me.xfer.local := me.bufs[me.xfer.local][i := x]],
        xfer := me.xfer.(copied := me.xfer.copied + {i}))
  }

  /** The destination of a transfer is never the buffer its rank has on offer or yields from. */
  lemma CopyKeepsRank(p: Plan, hasNext: bool, me: Rank, i: nat, x: byte)
    requires ReceiverOk(p, hasNext, me) && me.xfer.Xfer? && !me.xfer.done && ReadingOk(p, me)
    requires i < |me.bufs[me.xfer.local]|
    requires i < |p.payloads[me.got]| ==> x == p.payloads[me.got][i]
    ensures ReceiverOk(p, hasNext, WithByte(me, i, x))
  {
    var m := WithByte(me, i, x);
    ByteArrives(p.payloads[me.got], me.bufs[me.xfer.local], me.xfer.copied, i, x);
    assert ReadingOk(p, m);
    assert m.bufs[me.send] == me.bufs[me.send];
  }

  lemma CopyKeepsLink(p: Plan, a: Rank, b: Rank, a': Rank, b': Rank)
    requires LinkOk(p, a, b)
    requires a'.posts == a.posts && a'.op == a.op && a'.notifications == a.notifications
    requires b'.messages == b.messages && b'.got == b.got
    requires b'.xfer == b.xfer ||
             (b.xfer.Xfer? && b'.xfer.Xfer? && b'.xfer == b.xfer.(copied := b'.xfer.copied))
    ensures LinkOk(p, a', b')
  {
  }

  lemma CopyKeepsLinks(p: Plan, st: State, r: nat, me: Rank)
    requires LinksOk(p, st) && r < |st|
    requires me.posts == st[r].posts && me.op == st[r].op && me.notifications == st[r].notifications
    requires me.messages == st[r].messages && me.got == st[r].got
    requires st[r].xfer.Xfer? && me.xfer.Xfer? && me.xfer == st[r].xfer.(copied := me.xfer.copied)
    ensures LinksOk(p, st[r := me])
  {
    var st' := st[r := me];
    forall q | 0 < q < |st'|
      ensures LinkOk(p, st'[q - 1], st'[q])
    {
      CopyKeepsLink(p, st[q - 1], st[q], st'[q - 1], st'[q]);
    }
  }

  lemma CopyIs(c: Config, st: State, r: nat, i: nat)
    requires Apply(c, st, CopyByte(r, i)).Some?
    ensures 0 < r < |st| && st[r].xfer.Xfer? && !st[r].xfer.done
    ensures i < |st[r].bufs[st[r].xfer.local]| && i < |st[r - 1].bufs[st[r].xfer.remote]|
    ensures Apply(c, st, CopyByte(r, i)) ==
            Some(st[r := WithByte(st[r], i, st[r - 1].bufs[st[r].xfer.remote][i])])
  {
  }

  lemma CopyKeepsInv(c: Config, p: Plan, st: State, r: nat, i: nat)
    requires Inv(c, p, st) && Apply(c, st, CopyByte(r, i)).Some?
    ensures Inv(c, p, Apply(c, st, CopyByte(r, i)).value)
  {
    CopyIs(c, st, r, i);
    SourceIntact(c, p, st, r);
    var x := st[r - 1].bufs[st[r].xfer.remote][i];
    var me := WithByte(st[r], i, x);
    assert RankOk(c, p, r, st[r]);
    CopyKeepsRank(p, r + 1 < c.n, st[r], i, x);
    OneRankOk(c, p, st, r, me);
    CopyKeepsLinks(p, st, r, me);
  }

  lemma DoneKeepsRank(p: Plan, hasNext: bool, me: Rank)
    requires ReceiverOk(p, hasNext, me) && me.xfer.Xfer?
    requires forall i :: 0 <= i < p.cap ==> i in me.xfer.copied
    ensures ReceiverOk(p, hasNext, me.(xfer := me.xfer.(done := true)))
  {
    var m := me.(xfer := me.xfer.(done := true));
    assert ReadingOk(p, me) ==> ReadingOk(p, m);
  }

  lemma NotifiedRankOk(c: Config, p: Plan, r: nat, me: Rank, ns: seq<nat>)
    requires RankOk(c, p, r, me)
    ensures RankOk(c, p, r, me.(notifications := ns))
  {
  }

  lemma FinishKeepsLinks(p: Plan, st: State, r: nat)
    requires LinksOk(p, st) && 0 < r < |st| && st[r].xfer.Xfer? && !st[r].xfer.done
    ensures LinksOk(p, st[r := st[r].(xfer := st[r].xfer.(done := true))]
                         [r - 1 := st[r - 1].(notifications := st[r - 1].notifications + [st[r].xfer.notifyKey])])
  {
  }

  lemma FinishKeepsRanks(c: Config, p: Plan, st: State, r: nat, ns: seq<nat>)
    requires RanksOk(c, p, st) && 0 < r < |st| && st[r].xfer.Xfer?
    requires forall i :: 0 <= i < p.cap ==> i in st[r].xfer.copied
    ensures RanksOk(c, p, st[r := st[r].(xfer := st[r].xfer.(done := true))]
                            [r - 1 := st[r - 1].(notifications := ns)])
  {
    assert RankOk(c, p, r, st[r]) && RankOk(c, p, r - 1, st[r - 1]);
    DoneKeepsRank(p, r + 1 < c.n, st[r]);
    NotifiedRankOk(c, p, r - 1, st[r - 1], ns);
  }

  lemma FinishIs(c: Config, st: State, r: nat)
    requires Apply(c, st, FinishRead(r)).Some?
    ensures 0 < r < |st| && st[r].xfer.Xfer? && !st[r].xfer.done
    ensures forall i :: 0 <= i < c.cap ==> i in st[r].xfer.copied
    ensures Apply(c, st, FinishRead(r)) ==
            Some(st[r := st[r].(xfer := st[r].xfer.(done := true))]
                   [r - 1 := st[r - 1].(notifications := st[r - 1].notifications + [st[r].xfer.notifyKey])])
  {
  }

  lemma FinishKeepsInv(c: Config, p: Plan, st: State, r: nat)
    requires c.cap == p.cap && Inv(c, p, st) && Apply(c, st, FinishRead(r)).Some?
    ensures Inv(c, p, Apply(c, st, FinishRead(r)).value)
  {
    FinishIs(c, st, r);
    FinishKeepsRanks(c, p, st, r, st[r - 1].notifications + [st[r].xfer.notifyKey]);
    FinishKeepsLinks(p, st, r);
  }

  lemma StepKeepsInv(c: Config, p: Plan, st: State, a: Action)
    requires PlanFor(c, p) && Inv(c, p, st) && Apply(c, st, a).Some?
    ensures Inv(c, p, Apply(c, st, a).value)
  {
    match a
    case Local(r, key) => LocalKeepsInv(c, p, st, r, key);
    case CopyByte(r, i) => CopyKeepsInv(c, p, st, r, i);
    case FinishRead(r) => FinishKeepsInv(c, p, st, r);
  }

  // --------------------------------------------------------------------------
  // Safety over whole runs
  // --------------------------------------------------------------------------

  ghost function Starts(c: Config): State -> bool {
    st => Init(c, st)
  }

  function Steps(c: Config): (State, Action) -> Option<State> {
    (st, a) => Apply(c, st, a)
  }

  ghost function Invs(c: Config, p: Plan): State -> bool {
    st => Inv(c, p, st)
  }

  /** What happens from an initial state on, under some interleaving. */
  ghost predicate IsRun(c: Config, tr: seq<State>) {
    Runs.IsRun(Starts(c), Steps(c), tr)
  }

  lemma InvIsInvariant(c: Config, p: Plan)
    requires PlanFor(c, p)
    ensures Runs.Invariant(Starts(c), Steps(c), Invs(c, p))
  {
    forall st | Starts(c)(st)
      ensures Invs(c, p)(st)
    {
      InitInv(c, p, st);
    }
    forall st, a | Invs(c, p)(st) && Steps(c)(st, a).Some?
      ensures Invs(c, p)(Steps(c)(st, a).value)
    {
      StepKeepsInv(c, p, st, a);
    }
  }

  lemma RunKeepsInv(c: Config, p: Plan, tr: seq<State>)
    requires PlanFor(c, p) && IsRun(c, tr)
    ensures Inv(c, p, tr[|tr| - 1])
  {
    InvIsInvariant(c, p);
    Runs.RunKeeps(Starts(c), Steps(c), Invs(c, p), tr);
  }

  lemma RankNotRaised(c: Config, p: Plan, r: nat, me: Rank)
    requires RankOk(c, p, r, me)
    ensures me.pc != Raised
  {
  }

  lemma OutIsPrefix(c: Config, p: Plan, r: nat, me: Rank)
    requires PlanOk(p) && RankOk(c, p, r, me) && r > 0
    ensures me.out <= p.sent[|p.mds|]
  {
    if me.pc == Yielding || me.pc == YieldingLast {
      YieldingIsPrefix(p, me.got - 1, me.index, me.out);
    } else if YieldedOk(p, me.got, me.out) {
      YieldedIsPrefix(p, me.got, me.out);
    } else {
      YieldedIsPrefix(p, me.got - 1, me.out);
    }
  }

  /** In every state of every run: no assertion has failed (the notify key always matches);
      neighbours are at most one bucket apart, with at most one message and one notification in
      flight; and every receiver has yielded a prefix of what it should. */
  lemma ChainSafety(c: Config, tr: seq<State>, r: nat)
    requires ValidConfig(c) && IsRun(c, tr) && r < c.n
    ensures var st := tr[|tr| - 1];
            && |st| == c.n
            && st[r].pc != Raised
            && (r > 0 ==>
                  && Arrived(st[r]) <= st[r - 1].posts <= Arrived(st[r]) + 1
                  && |st[r].messages| + |st[r - 1].notifications| <= 1
                  && st[r].out <= (BucketsWellFormed(c.cap, c.ws); DeliveredStream(Buckets(c.cap, c.ws))))
  {
    var p := ThePlan(c);
    RunKeepsInv(c, p, tr);
    var st := tr[|tr| - 1];
    RankNotRaised(c, p, r, st[r]);
    if r > 0 {
      OutIsPrefix(c, p, r, st[r]);
      assert LinkOk(p, st[r - 1], st[r]);
    }
  }

  /** A buffer the successor may still be reading from. */
  predicate OnOffer(me: Rank, buf: bit) {
    me.op.Some? && me.op.value.localDescs == buf && me.notifications == []
  }

  /** A buffer whose views the rank is handing out. */
  predicate BeingYielded(me: Rank, buf: bit) {
    (me.pc == Yielding || me.pc == YieldingLast) && me.send == buf
  }

  lemma LocalSparesBuffers(c: Config, p: Plan, r: nat, me: Rank, key: nat, buf: bit)
    requires RankOk(c, p, r, me) && LocalStep(c, r, me, key).Went?
    requires OnOffer(me, buf) || BeingYielded(me, buf)
    ensures LocalStep(c, r, me, key).me.bufs[buf] == me.bufs[buf]
  {
  }

  lemma CopySparesBuffers(c: Config, p: Plan, r: nat, me: Rank, buf: bit)
    requires RankOk(c, p, r, me) && me.xfer.Xfer? && (OnOffer(me, buf) || BeingYielded(me, buf))
    ensures me.xfer.local != buf
  {
  }

  lemma LocalSpares(c: Config, p: Plan, st: State, q: nat, key: nat, r: nat, buf: bit)
    requires r < |st| && RankOk(c, p, r, st[r]) && Apply(c, st, Local(q, key)).Some?
    requires OnOffer(st[r], buf) || BeingYielded(st[r], buf)
    ensures Apply(c, st, Local(q, key)).value[r].bufs[buf] == st[r].bufs[buf]
  {
    var o := LocalStep(c, q, st[q], key);
    if q == r {
      LocalSparesBuffers(c, p, r, st[r], key, buf);
    }
    assert Enqueue(st[q := o.me], q + 1, o.sent)[r].bufs == st[q := o.me][r].bufs;
  }

  lemma CopySpares(c: Config, p: Plan, st: State, q: nat, i: nat, r: nat, buf: bit)
    requires r < |st| && RankOk(c, p, r, st[r]) && Apply(c, st, CopyByte(q, i)).Some?
    requires OnOffer(st[r], buf) || BeingYielded(st[r], buf)
    ensures Apply(c, st, CopyByte(q, i)).value[r].bufs[buf] == st[r].bufs[buf]
  {
    if q == r {
      CopySparesBuffers(c, p, r, st[r], buf);
    }
  }

  lemma StepSparesBuffers(c: Config, p: Plan, st: State, a: Action, r: nat, buf: bit)
    requires r < |st| && RankOk(c, p, r, st[r]) && Apply(c, st, a).Some?
    requires OnOffer(st[r], buf) || BeingYielded(st[r], buf)
    ensures Apply(c, st, a).value[r].bufs[buf] == st[r].bufs[buf]
  {
    match a
    case Local(q, key) => LocalSpares(c, p, st, q, key, r, buf);
    case CopyByte(q, i) => CopySpares(c, p, st, q, i, r, buf);
    case FinishRead(q) =>
  }

  /** No step of any rank writes a buffer that is on offer to a successor or being yielded from. */
  lemma NoBufferReuse(c: Config, tr: seq<State>, a: Action, r: nat, buf: bit)
    requires ValidConfig(c) && IsRun(c, tr)
    requires var st := tr[|tr| - 1];
             r < |st| && Apply(c, st, a).Some? && (OnOffer(st[r], buf) || BeingYielded(st[r], buf))
    ensures Apply(c, tr[|tr| - 1], a).value[r].bufs[buf] == tr[|tr| - 1][r].bufs[buf]
  {
    var p := ThePlan(c);
    RunKeepsInv(c, p, tr);
    StepSparesBuffers(c, p, tr[|tr| - 1], a, r, buf);
  }

  /** A buffer of the predecessor that a rank is reading from, or may begin to read from because of
      a message it has not taken yet. */
  predicate MayRead(reader: Rank, buf: bit) {
    || (reader.xfer.Xfer? && !reader.xfer.done && reader.xfer.remote == buf)
    || exists i :: 0 <= i < |reader.messages| && reader.messages[i].remoteDescs == buf
  }

  /** What a successor may read is what its predecessor has on offer. */
  lemma ReadIsOnOffer(c: Config, p: Plan, st: State, r: nat, buf: bit)
    requires Inv(c, p, st) && r + 1 < |st| && MayRead(st[r + 1], buf)
    ensures OnOffer(st[r], buf) && Holds(p, st[r].bufs[buf], st[r].posts - 1)
  {
    assert LinkOk(p, st[r + 1 - 1], st[r + 1]);
    PostedRank(c, p, r, st[r]);
    if st[r + 1].xfer.Xfer? && !st[r + 1].xfer.done {
      SourceIntact(c, p, st, r + 1);
    }
  }

  /** As long as a successor reads from a buffer, or may begin to, no step of any rank writes it,
      and it holds the bucket it was offered with. */
  lemma NoWriteWhileRead(c: Config, tr: seq<State>, a: Action, r: nat, buf: bit)
    requires ValidConfig(c) && IsRun(c, tr)
    requires var st := tr[|tr| - 1];
             r + 1 < |st| && Apply(c, st, a).Some? && MayRead(st[r + 1], buf)
    ensures var st := tr[|tr| - 1];
            && Apply(c, st, a).value[r].bufs[buf] == st[r].bufs[buf]
            && 0 < st[r].posts <= |Buckets(c.cap, c.ws)|
            && Payload(Buckets(c.cap, c.ws)[st[r].posts - 1]) <= st[r].bufs[buf]
  {
    var p, st := ThePlan(c), tr[|tr| - 1];
    RunKeepsInv(c, p, tr);
    ReadIsOnOffer(c, p, st, r, buf);
    StepSparesBuffers(c, p, st, a, r, buf);
  }

  // --------------------------------------------------------------------------
  // Progress
  // --------------------------------------------------------------------------

  ghost predicate CanStep(c: Config, st: State) {
    Runs.CanStep(Steps(c), st)
  }

  lemma ActionCanStep(c: Config, st: State, a: Action)
    requires Apply(c, st, a).Some?
    ensures CanStep(c, st)
  {
    assert Steps(c)(st, a).Some?;
  }

  ghost predicate AllFinished(st: State) {
    forall r :: 0 <= r < |st| ==> st[r].pc == Finished
  }

  lemma LocalCanStep(c: Config, st: State, r: nat)
    requires r < |st| && LocalStep(c, r, st[r], 0).Went?
    ensures CanStep(c, st)
  {
    ActionCanStep(c, st, Local(r, 0));
  }

  lemma BuffersSized(c: Config, p: Plan, st: State, r: nat)
    requires Inv(c, p, st) && r < |st| && st[r].xfer.Xfer?
    ensures 0 < r && |st[r].bufs[st[r].xfer.local]| == p.cap && |st[r - 1].bufs[st[r].xfer.remote]| == p.cap
  {
    ReadingRank(c, p, r, st[r]);
    PostedRank(c, p, r, st[r]);
    PostedRank(c, p, r - 1, st[r - 1]);
  }

  lemma XferCanStep(c: Config, p: Plan, st: State, r: nat)
    requires c.cap == p.cap && Inv(c, p, st) && r < |st| && st[r].xfer.Xfer? && !st[r].xfer.done
    ensures CanStep(c, st)
  {
    BuffersSized(c, p, st, r);
    if i :| 0 <= i < c.cap && i !in st[r].xfer.copied {
      ActionCanStep(c, st, CopyByte(r, i));
    } else {
      ActionCanStep(c, st, FinishRead(r));
    }
  }

  predicate AwaitsMessage(me: Rank) {
    me.pc == AwaitFirst || me.pc == AwaitNext
  }

  predicate AwaitsRead(me: Rank) {
    me.pc == AwaitFirstRead || me.pc == AwaitRead
  }

  predicate AwaitsAck(me: Rank) {
    me.op.Some? && me.notifications == []
    && me.pc in {AwaitFlush, AwaitLast, AwaitFinal, AwaitReadable, AwaitLastReadable}
  }

  /** The only ways a rank can be held up. */
  lemma WhyBlocked(c: Config, p: Plan, r: nat, me: Rank)
    requires PlanOk(p) && RankOk(c, p, r, me) && me.pc != Finished
    ensures || LocalStep(c, r, me, 0).Went?
            || (r > 0 && AwaitsMessage(me) && me.messages == [] && me.xfer.NoXfer? && me.got < |p.mds|)
            || (AwaitsRead(me) && me.xfer.Xfer? && !me.xfer.done)
            || AwaitsAck(me)
  {
  }

  lemma FinishedRank(c: Config, p: Plan, r: nat, me: Rank)
    requires RankOk(c, p, r, me) && me.pc == Finished && PlanOk(p)
    ensures me.op.None?
    ensures r > 0 ==> me.got == |p.mds| && me.xfer.NoXfer? && me.out == p.sent[|p.mds|]
    ensures r + 1 < c.n ==> me.posts == |p.mds|
  {
  }

  /** Nothing has come, and nothing is on its way. */
  predicate ShortOfMessage(p: Plan, me: Rank) {
    AwaitsMessage(me) && me.messages == [] && me.xfer.NoXfer? && me.got < |p.mds|
  }

  /** A rank that has not finished either makes some step possible or waits for a neighbour. */
  lemma MovesOrWaits(c: Config, p: Plan, st: State, r: nat)
    requires PlanOk(p) && c.cap == p.cap && Inv(c, p, st) && r < |st| && st[r].pc != Finished
    ensures CanStep(c, st) || (r > 0 && ShortOfMessage(p, st[r])) || AwaitsAck(st[r])
  {
    assert RankOk(c, p, r, st[r]);
    WhyBlocked(c, p, r, st[r]);
    if LocalStep(c, r, st[r], 0).Went? {
      LocalCanStep(c, st, r);
    } else if AwaitsRead(st[r]) && st[r].xfer.Xfer? {
      XferCanStep(c, p, st, r);
    }
  }

  lemma NothingOnOffer(p: Plan, a: Rank, b: Rank)
    requires LinkOk(p, a, b) && ShortOfMessage(p, b)
    ensures a.posts < |p.mds| && !AwaitsAck(a)
  {
    assert a.posts == b.got;
  }

  lemma PredecessorBusy(c: Config, p: Plan, st: State, r: nat)
    requires PlanOk(p) && Inv(c, p, st) && 0 < r < |st| && ShortOfMessage(p, st[r])
    ensures st[r - 1].pc != Finished && !AwaitsAck(st[r - 1])
  {
    NothingOnOffer(p, st[r - 1], st[r]);
    if st[r - 1].pc == Finished {
      FinishedRank(c, p, r - 1, st[r - 1]);
      assert false;
    }
  }

  lemma PredecessorCanStep(c: Config, p: Plan, st: State, r: nat)
    requires PlanOk(p) && c.cap == p.cap && Inv(c, p, st) && 0 < r < |st| && ShortOfMessage(p, st[r])
    ensures CanStep(c, st) || (r > 1 && ShortOfMessage(p, st[r - 1]))
  {
    PredecessorBusy(c, p, st, r);
    MovesOrWaits(c, p, st, r - 1);
  }

  /** A rank short of a message waits for a predecessor that can itself move, or is short of one. */
  lemma {:induction false} UpstreamCanStep(c: Config, p: Plan, st: State, r: nat)
    requires PlanOk(p) && c.n >= 2 && c.cap == p.cap && Inv(c, p, st) && 0 < r < |st|
    requires ShortOfMessage(p, st[r])
    ensures CanStep(c, st)
    decreases r
  {
    PredecessorCanStep(c, p, st, r);
    if !CanStep(c, st) {
      UpstreamCanStep(c, p, st, r - 1);
    }
  }

  lemma OfferNeedsNext(c: Config, p: Plan, r: nat, me: Rank)
    requires c.n >= 2 && RankOk(c, p, r, me) && me.op.Some?
    ensures r + 1 < c.n
  {
  }

  lemma SuccessorBusy(c: Config, p: Plan, a: Rank, r: nat, b: Rank)
    requires PlanOk(p) && LinkOk(p, a, b) && RankOk(c, p, r, b) && r > 0
    requires a.op.Some? && a.notifications == []
    ensures b.pc != Finished && !ShortOfMessage(p, b)
  {
    if b.pc == Finished {
      FinishedRank(c, p, r, b);
      assert false;
    }
  }

  lemma SuccessorCanStep(c: Config, p: Plan, st: State, r: nat)
    requires PlanOk(p) && c.n >= 2 && c.cap == p.cap && Inv(c, p, st) && r < |st| && AwaitsAck(st[r])
    ensures CanStep(c, st) || (r + 1 < |st| && AwaitsAck(st[r + 1]))
  {
    OfferNeedsNext(c, p, r, st[r]);
    SuccessorBusy(c, p, st[r], r + 1, st[r + 1]);
    MovesOrWaits(c, p, st, r + 1);
  }

  /** A rank short of an acknowledgement waits for a successor that can itself move, or is short
      of one. */
  lemma {:induction false} DownstreamCanStep(c: Config, p: Plan, st: State, r: nat)
    requires PlanOk(p) && c.n >= 2 && c.cap == p.cap && Inv(c, p, st) && r < |st| && AwaitsAck(st[r])
    ensures CanStep(c, st)
    decreases |st| - r
  {
    SuccessorCanStep(c, p, st, r);
    if !CanStep(c, st) {
      DownstreamCanStep(c, p, st, r + 1);
    }
  }

  lemma NeverStuck(c: Config, p: Plan, st: State)
    requires PlanOk(p) && c.n >= 2 && c.cap == p.cap && Inv(c, p, st) && !AllFinished(st)
    ensures CanStep(c, st)
  {
    var r :| 0 <= r < |st| && st[r].pc != Finished;
    MovesOrWaits(c, p, st, r);
    if AwaitsAck(st[r]) {
      DownstreamCanStep(c, p, st, r);
    } else if r > 0 && ShortOfMessage(p, st[r]) {
      UpstreamCanStep(c, p, st, r);
    }
  }

  // --------------------------------------------------------------------------
  // Termination
  // --------------------------------------------------------------------------

  function PcWeight(pc: PC): nat {
    match pc
    case Filling => 5
    case AwaitFlush => 4
    case PutWeight => 3
    case AwaitLast => 4
    case AwaitFinal => 1
    case AwaitFirst => 4
    case AwaitFirstRead => 1
    case LoopTop => 5
    case AwaitNext => 4
    case Yielding => 3
    case AwaitReadable => 2
    case AwaitRead => 1
    case YieldingLast => 3
    case AwaitLastReadable => 2
    case Finished => 0
    case Raised => 0
  }

  function XferWork(cap: nat, x: Xfer): int {
    if x.NoXfer? then 0 else cap - |x.copied| + if x.done then 0 else 1
  }

  /** What a rank still has to do. */
  ghost function Work(c: Config, p: Plan, r: nat, me: Rank): int {
    if r == 0 then 3 * (|c.ws| - me.fill.next) + PcWeight(me.pc)
    else
      5 * (|p.mds| - me.got) + (|p.mds| - Begun(me)) * (p.cap + 2) + XferWork(p.cap, me.xfer)
      + |LastSent(p)| - |me.out| + PcWeight(me.pc)
  }

  ghost function Chores(c: Config, p: Plan): (nat, Rank) -> int {
    (r: nat, me: Rank) => Work(c, p, r, me)
  }

  ghost function TotalWork(c: Config, p: Plan, st: State): int {
    Runs.Total(Chores(c, p), st)
  }

  ghost function Totals(c: Config, p: Plan): State -> int {
    st => TotalWork(c, p, st)
  }

  lemma ReceiverWithinPlan(c: Config, p: Plan, r: nat, me: Rank)
    requires PlanOk(p) && RankOk(c, p, r, me) && r > 0
    ensures me.got <= |p.mds| && |p.sent| == |p.mds| + 1
  {
  }

  /** What is left to do is counted from these differences. */
  ghost predicate WithinWork(p: Plan, me: Rank) {
    && me.got <= |p.mds| && Begun(me) <= |p.mds| && |me.out| <= |LastSent(p)|
    && XferWork(p.cap, me.xfer) >= 0
  }

  lemma ReceiverWithinWork(c: Config, p: Plan, r: nat, me: Rank)
    requires PlanOk(p) && RankOk(c, p, r, me) && r > 0 && Begun(me) <= |p.mds|
    ensures WithinWork(p, me)
  {
    OutIsPrefix(c, p, r, me);
    XferWorkNonNegative(c, p, r, me);
    ReceiverWithinPlan(c, p, r, me);
  }

  lemma ReceiverWorkNonNegative(c: Config, p: Plan, r: nat, me: Rank)
    requires r > 0 && WithinWork(p, me)
    ensures Work(c, p, r, me) >= 0
  {
    ProductNonNegative(|p.mds| - Begun(me), p.cap + 2);
  }

  lemma SenderWorkNonNegative(c: Config, p: Plan, me: Rank)
    requires SenderOk(c, p, me)
    ensures Work(c, p, 0, me) >= 0
  {
  }

  lemma WorkNonNegative(c: Config, p: Plan, r: nat, me: Rank)
    requires PlanOk(p) && RankOk(c, p, r, me) && (r > 0 ==> Begun(me) <= |p.mds|)
    ensures Work(c, p, r, me) >= 0
  {
    if r == 0 {
      SenderWorkNonNegative(c, p, me);
    } else {
      ReceiverWithinWork(c, p, r, me);
      ReceiverWorkNonNegative(c, p, r, me);
    }
  }

  lemma XferWorkNonNegative(c: Config, p: Plan, r: nat, me: Rank)
    requires RankOk(c, p, r, me)
    ensures XferWork(p.cap, me.xfer) >= 0
  {
    if me.xfer.Xfer? {
      ReadingRank(c, p, r, me);
      PostedRank(c, p, r, me);
      BoundedSetSize(me.xfer.copied, p.cap);
    }
  }

  lemma FillWorkShrinks(c: Config, p: Plan, me: Rank, key: nat)
    requires SenderOk(c, p, me) && me.pc in {Filling, PutWeight} && SenderStep(c, me, key).Went?
    ensures Work(c, p, 0, SenderStep(c, me, key).me) < Work(c, p, 0, me)
  {
  }

  lemma PostWorkShrinks(c: Config, p: Plan, me: Rank, key: nat)
    requires SenderOk(c, p, me) && NotificationsOk(me) && me.pc in {AwaitFlush, AwaitLast, AwaitFinal}
    requires SenderStep(c, me, key).Went?
    ensures Work(c, p, 0, SenderStep(c, me, key).me) < Work(c, p, 0, me)
  {
  }

  lemma SenderWorkShrinks(c: Config, p: Plan, me: Rank, key: nat)
    requires SenderOk(c, p, me) && NotificationsOk(me) && SenderStep(c, me, key).Went?
    ensures Work(c, p, 0, SenderStep(c, me, key).me) < Work(c, p, 0, me)
  {
    if me.pc in {Filling, PutWeight} {
      FillWorkShrinks(c, p, me, key);
    } else {
      PostWorkShrinks(c, p, me, key);
    }
  }

  lemma BeginShrinks(c: Config, p: Plan, r: nat, me: Rank, pc: PC)
    requires r > 0 && me.xfer.NoXfer? && BeginRead(me, pc).Went? && PcWeight(pc) < PcWeight(me.pc)
    ensures Work(c, p, r, BeginRead(me, pc).me) < Work(c, p, r, me)
  {
    assert Begun(BeginRead(me, pc).me) == Begun(me) + 1;
    ProductStep(|p.mds| - Begun(me), p.cap + 2);
  }

  lemma EndShrinks(c: Config, p: Plan, r: nat, me: Rank)
    requires RankOk(c, p, r, me) && r > 0 && EndRead(me).Went? && PcWeight(me.pc) == 1
    ensures Work(c, p, r, EndRead(me).me) < Work(c, p, r, me)
  {
    XferWorkNonNegative(c, p, r, me);
    assert Begun(EndRead(me).me) == Begun(me);
  }

  lemma YieldShrinks(c: Config, p: Plan, r: nat, me: Rank, after: PC)
    requires PlanOk(p) && r > 0 && LoadedOk(p, me) && YieldingOk(p, me.got - 1, me.index, me.out)
    requires PcWeight(after) < PcWeight(me.pc)
    ensures var o := YieldOne(me, after); o.Went? && Work(c, p, r, o.me) < Work(c, p, r, me)
  {
    if me.index < |me.metadata.bucketMeta| {
      YieldAdvances(p, me.got - 1, me.index, me.out, me.bufs[me.send]);
      assert |YieldOne(me, after).me.out| == |me.out| + 1;
    }
  }

  lemma ForwardShrinks(c: Config, p: Plan, r: nat, me: Rank, hasNext: bool, key: nat, pc: PC)
    requires r > 0 && PcWeight(pc) < PcWeight(me.pc)
    ensures Work(c, p, r, Forward(me, hasNext, key, pc).me) < Work(c, p, r, me)
  {
  }

  lemma WaitShrinks(c: Config, p: Plan, r: nat, me: Rank, pc: PC)
    requires r > 0 && PcWeight(pc) < PcWeight(me.pc)
    requires WaitThen(me, pc).Went? && WaitThen(me, pc).me.pc != Raised
    ensures Work(c, p, r, WaitThen(me, pc).me) < Work(c, p, r, me)
  {
  }

  lemma ReadWorkShrinks(c: Config, p: Plan, r: nat, me: Rank, key: nat)
    requires PlanOk(p) && r > 0 && ReceiverOk(p, r + 1 < c.n, me)
    requires LocalStep(c, r, me, key).Went? && (AwaitsMessage(me) || AwaitsRead(me))
    ensures Work(c, p, r, LocalStep(c, r, me, key).me) < Work(c, p, r, me)
  {
    match me.pc
    case AwaitFirst => BeginShrinks(c, p, r, me, AwaitFirstRead);
    case AwaitNext => BeginShrinks(c, p, r, me, Yielding);
    case AwaitFirstRead => EndShrinks(c, p, r, me);
    case AwaitRead => EndShrinks(c, p, r, me);
  }

  lemma YieldWorkShrinks(c: Config, p: Plan, r: nat, me: Rank, key: nat)
    requires PlanOk(p) && r > 0 && ReceiverOk(p, r + 1 < c.n, me) && (me.pc == Yielding || me.pc == YieldingLast)
    ensures var o := LocalStep(c, r, me, key); o.Went? && Work(c, p, r, o.me) < Work(c, p, r, me)
  {
    YieldShrinks(c, p, r, me, if me.pc == Yielding then AwaitReadable else AwaitLastReadable);
  }

  lemma TopWorkShrinks(c: Config, p: Plan, r: nat, me: Rank, key: nat)
    requires r > 0 && me.pc == LoopTop
    ensures var o := LocalStep(c, r, me, key); o.Went? && Work(c, p, r, o.me) < Work(c, p, r, me)
  {
    ForwardShrinks(c, p, r, me, r + 1 < c.n, key, if me.metadata.isLast then YieldingLast else AwaitNext);
  }

  lemma WaitWorkShrinks(c: Config, p: Plan, r: nat, me: Rank, key: nat)
    requires r > 0 && (me.pc == AwaitReadable || me.pc == AwaitLastReadable)
    requires LocalStep(c, r, me, key).Went? && LocalStep(c, r, me, key).me.pc != Raised
    ensures Work(c, p, r, LocalStep(c, r, me, key).me) < Work(c, p, r, me)
  {
    WaitShrinks(c, p, r, me, if me.pc == AwaitReadable then AwaitRead else Finished);
  }

  lemma ReceiverWorkShrinks(c: Config, p: Plan, r: nat, me: Rank, key: nat)
    requires PlanOk(p) && r > 0 && ReceiverOk(p, r + 1 < c.n, me)
    requires LocalStep(c, r, me, key).Went? && LocalStep(c, r, me, key).me.pc != Raised
    ensures Work(c, p, r, LocalStep(c, r, me, key).me) < Work(c, p, r, me)
  {
    match me.pc
    case AwaitFirst => ReadWorkShrinks(c, p, r, me, key);
    case AwaitNext => ReadWorkShrinks(c, p, r, me, key);
    case AwaitFirstRead => ReadWorkShrinks(c, p, r, me, key);
    case AwaitRead => ReadWorkShrinks(c, p, r, me, key);
    case Yielding => YieldWorkShrinks(c, p, r, me, key);
    case YieldingLast => YieldWorkShrinks(c, p, r, me, key);
    case LoopTop => TopWorkShrinks(c, p, r, me, key);
    case AwaitReadable => WaitWorkShrinks(c, p, r, me, key);
    case AwaitLastReadable => WaitWorkShrinks(c, p, r, me, key);
    case _ =>
  }

  lemma LocalWorkShrinks(c: Config, p: Plan, r: nat, me: Rank, key: nat)
    requires PlanOk(p) && RankOk(c, p, r, me) && NotificationsOk(me)
    requires LocalStep(c, r, me, key).Went? && LocalStep(c, r, me, key).me.pc != Raised
    ensures Work(c, p, r, LocalStep(c, r, me, key).me) < Work(c, p, r, me)
  {
    if r == 0 {
      SenderWorkShrinks(c, p, me, key);
    } else {
      ReceiverWorkShrinks(c, p, r, me, key);
    }
  }

  lemma MessagesAreNotWork(c: Config, p: Plan, r: nat, me: Rank, sent: seq<Message>)
    ensures Work(c, p, r, me.(messages := me.messages + sent)) == Work(c, p, r, me)
  {
  }

  /** One rank does some work; nobody else's remaining work changes. */
  lemma TotalWorkShrinks(c: Config, p: Plan, st: State, st': State, r: nat)
    requires |st| == |st'| && r < |st|
    requires Work(c, p, r, st'[r]) < Work(c, p, r, st[r])
    requires forall q :: 0 <= q < |st| && q != r ==> Work(c, p, q, st'[q]) == Work(c, p, q, st[q])
    ensures TotalWork(c, p, st') < TotalWork(c, p, st)
  {
    Runs.TotalShrinks(Chores(c, p), st, st', r);
  }

  lemma LocalWorkResult(c: Config, p: Plan, st: State, r: nat, key: nat)
    requires PlanFor(c, p) && Inv(c, p, st) && r < |st| && LocalStep(c, r, st[r], key).Went?
    ensures Work(c, p, r, LocalStep(c, r, st[r], key).me) < Work(c, p, r, st[r])
  {
    NeighboursFeedRank(c, p, st, r);
    LocalStepOk(c, p, r, st[r], key);
    RankNotRaised(c, p, r, LocalStep(c, r, st[r], key).me);
    LocalWorkShrinks(c, p, r, st[r], key);
  }

  lemma LocalShrinksWork(c: Config, p: Plan, st: State, r: nat, key: nat)
    requires r < |st| && LocalStep(c, r, st[r], key).Went?
    requires Work(c, p, r, LocalStep(c, r, st[r], key).me) < Work(c, p, r, st[r])
    ensures TotalWork(c, p, Apply(c, st, Local(r, key)).value) < TotalWork(c, p, st)
  {
    var o := LocalStep(c, r, st[r], key);
    EnqueueShrinksWork(c, p, st, r, o.me, o.sent);
  }

  lemma EnqueueShrinksWork(c: Config, p: Plan, st: State, r: nat, me: Rank, sent: seq<Message>)
    requires r < |st| && Work(c, p, r, me) < Work(c, p, r, st[r])
    ensures TotalWork(c, p, Enqueue(st[r := me], r + 1, sent)) < TotalWork(c, p, st)
  {
    if r + 1 < |st| {
      MessagesAreNotWork(c, p, r + 1, st[r + 1], sent);
    }
    TotalWorkShrinks(c, p, st, Enqueue(st[r := me], r + 1, sent), r);
  }

  lemma TransferShrinksWork(c: Config, p: Plan, st: State, a: Action)
    requires !a.Local? && Apply(c, st, a).Some?
    ensures TotalWork(c, p, Apply(c, st, a).value) < TotalWork(c, p, st)
  {
    TotalWorkShrinks(c, p, st, Apply(c, st, a).value, a.r);
  }

  lemma StepShrinksWork(c: Config, p: Plan, st: State, a: Action)
    requires PlanFor(c, p) && Inv(c, p, st) && Apply(c, st, a).Some?
    ensures TotalWork(c, p, Apply(c, st, a).value) < TotalWork(c, p, st)
  {
    if a.Local? {
      LocalWorkResult(c, p, st, a.r, a.key);
      LocalShrinksWork(c, p, st, a.r, a.key);
    } else {
      TransferShrinksWork(c, p, st, a);
    }
  }

  /** The work of one receiver for k buckets that yield m weights. */
  function ReceiverWork(k: nat, cap: nat, m: nat): nat {
    k * (cap + 7) + m + 4
  }

  /** The work of a transfer of k buckets that yield m weights. */
  ghost function WorkOf(c: Config, k: nat, m: nat): int {
    3 * |c.ws| + 5 + (c.n - 1) * ReceiverWork(k, c.cap, m)
  }

  /** The work of a whole transfer, in terms of the configuration alone. */
  ghost function TransferWork(c: Config): int
    requires ValidConfig(c)
  {
    var k := |Buckets(c.cap, c.ws)|;
    BucketsWellFormed(c.cap, c.ws);
    WorkOf(c, k, |DeliveredStream(Buckets(c.cap, c.ws))|)
  }

  lemma InitialReceiverWork(c: Config, p: Plan, r: nat, me: Rank)
    requires InitRank(c, r, me) && r > 0
    ensures Work(c, p, r, me) == ReceiverWork(|p.mds|, p.cap, |LastSent(p)|)
  {
    assert |p.mds| * (p.cap + 7) == |p.mds| * (p.cap + 2) + 5 * |p.mds|;
  }

  lemma InvWorkNonNegative(c: Config, p: Plan, st: State)
    requires PlanOk(p) && Inv(c, p, st)
    ensures TotalWork(c, p, st) >= 0
  {
    forall r: nat | r < |st|
      ensures Chores(c, p)(r, st[r]) >= 0
    {
      assert r > 0 ==> LinkOk(p, st[r - 1], st[r]);
      WorkNonNegative(c, p, r, st[r]);
    }
    Runs.TotalNonNegative(Chores(c, p), st);
  }

  lemma WorkShrinks(c: Config, p: Plan)
    requires PlanFor(c, p)
    ensures Runs.Shrinks(Steps(c), Invs(c, p), Totals(c, p))
  {
    forall st | Invs(c, p)(st)
      ensures Totals(c, p)(st) >= 0
    {
      InvWorkNonNegative(c, p, st);
    }
    forall st, a | Invs(c, p)(st) && Steps(c)(st, a).Some?
      ensures Totals(c, p)(Steps(c)(st, a).value) < Totals(c, p)(st)
    {
      StepShrinksWork(c, p, st, a);
    }
  }

  lemma InitialTotal(c: Config, p: Plan, st: State, w: int)
    requires Init(c, st) && st != [] && p.cap == c.cap
    requires w == ReceiverWork(|p.mds|, p.cap, |LastSent(p)|)
    ensures TotalWork(c, p, st) == WorkOf(c, |p.mds|, |LastSent(p)|)
  {
    assert InitRank(c, 0, st[0]);
    forall r: nat | 0 < r < |st|
      ensures Chores(c, p)(r, st[r]) == w
    {
      InitialReceiverWork(c, p, r, st[r]);
    }
    Runs.TotalOfEqual(Chores(c, p), st, 3 * |c.ws| + 5, w);
  }

  lemma InitialWorkIs(c: Config, st: State)
    requires ValidConfig(c) && Init(c, st)
    ensures TotalWork(c, ThePlan(c), st) == TransferWork(c)
  {
    PlanSizes(c);
    InitialTotal(c, ThePlan(c), st, ReceiverWork(|ThePlan(c).mds|, c.cap, |LastSent(ThePlan(c))|));
  }

  /** Every run, however the ranks are interleaved, ends within a number of steps fixed in
      advance. */
  lemma RunsAreBounded(c: Config, tr: seq<State>)
    requires ValidConfig(c) && IsRun(c, tr)
    ensures |tr| - 1 <= TransferWork(c)
  {
    var p := ThePlan(c);
    InvIsInvariant(c, p);
    WorkShrinks(c, p);
    Runs.RunSpends(Starts(c), Steps(c), Invs(c, p), Totals(c, p), tr);
    InitialWorkIs(c, tr[0]);
  }

  /** A run that can go no further has finished at every rank, and each receiver has yielded
      the buckets' contents in order. */
  lemma RunsDeliver(c: Config, tr: seq<State>)
    requires ValidConfig(c) && IsRun(c, tr) && !CanStep(c, tr[|tr| - 1])
    ensures var st := tr[|tr| - 1];
            && |st| == c.n && AllFinished(st)
            && forall r :: 0 < r < |st| ==>
                             st[r].out == (BucketsWellFormed(c.cap, c.ws); DeliveredStream(Buckets(c.cap, c.ws)))
  {
    var p, st := ThePlan(c), tr[|tr| - 1];
    RunKeepsInv(c, p, tr);
    if !AllFinished(st) {
      NeverStuck(c, p, st);
    }
    forall r | 0 < r < |st|
      ensures st[r].out == p.sent[|p.mds|]
    {
      FinishedRank(c, p, r, st[r]);
    }
  }

  // --------------------------------------------------------------------------
  // Runs exist and can be completed
  // --------------------------------------------------------------------------

  /** The theorems above are not empty: there are initial states, ... */
  lemma RunsExist(c: Config) returns (tr: seq<State>)
    requires ValidConfig(c)
    ensures IsRun(c, tr)
  {
    var zeros: seq<byte> := seq(c.cap, _ => 0);
    var bufs: Buffers := [zeros, zeros];
    var none := Metadata([], false);
    tr := [seq(c.n, r => Rank(if r == 0 then Filling else AwaitFirst, bufs, 0, None, [], [], Fill(0, 0, [], []), none,
                              none, NoXfer, 0, [], 0, 0))];
  }

  /** ... and every run, wherever the interleaving has taken it, can be continued to its end. */
  lemma RunsCanFinish(c: Config, tr: seq<State>) returns (whole: seq<State>)
    requires ValidConfig(c) && IsRun(c, tr)
    ensures IsRun(c, whole) && tr <= whole && !CanStep(c, whole[|whole| - 1])
  {
    var p := ThePlan(c);
    InvIsInvariant(c, p);
    WorkShrinks(c, p);
    whole := Runs.RunCanFinish(Starts(c), Steps(c), Invs(c, p), Totals(c, p), tr);
  }

  /** The chain is a faithful `yield from weights` at every receiver exactly when no bucket
      repeats a name; distinct names are enough. */
  lemma ChainRefinesYieldFrom(c: Config, tr: seq<State>, r: nat)
    requires ValidConfig(c) && IsRun(c, tr) && !CanStep(c, tr[|tr| - 1]) && 0 < r < c.n
    ensures |tr[|tr| - 1]| == c.n
    ensures tr[|tr| - 1][r].out == c.ws
            <==> forall k :: 0 <= k < |Buckets(c.cap, c.ws)| ==> DistinctNames(Buckets(c.cap, c.ws)[k])
    ensures DistinctNames(c.ws) ==> tr[|tr| - 1][r].out == c.ws
  {
    RunsDeliver(c, tr);
    StreamDeliveredExactly(c.cap, c.ws);
  }
}
