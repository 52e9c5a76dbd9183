/** AsyncDoubleBufferGroupOffloadHandler: its counters, its three dictionaries, and the four
    calls that the autograd hooks make on it. */
module ActivationHandler {
  import opened ActivationOffload
  import opened ActivationStreams
  import opened Options
  import opened Shapes

  /** What a push returns: a tag to pop later, or the tensor itself when it is not offloaded. */
  datatype Handle = Tagged(tag: Tag) | Untouched(tensor: Tensor)

  /** The bulk copy of group k has been issued and not yet brought back. */
  predicate Issued(forward: bool, n: nat, g: int, live: nat, k: int) {
    if forward then g > 0 && 0 <= k <= live && k < n else 0 <= k < live
  }

  ghost predicate AliasesAgreeIn(pushed: map<Tag, Tensor>) {
    forall a, b :: a in pushed && b in pushed && a.group == b.group && pushed[a].key == pushed[b].key
                   ==> pushed[a].data == pushed[b].data
  }

  ghost predicate AllHost(mapping: Mapping) {
    forall k :: k in mapping ==> mapping[k].Host?
  }

  /** What is kept for a tag leads back to the tensor t that was pushed under it. */
  ghost predicate Recoverable(s: Saved, t: Tensor, copies: map<int, Mapping>, group: int, forward: bool) {
    match s
    case OnDevice(u) => SameValue(u, t) && (forward ==> u == t)
    case Moved(key, shape) =>
      && group in copies && key in copies[group]
      && shape == t.shape && copies[group][key].tensor.data == t.data
  }

  // --------------------------------------------------------------------------
  // The parts of the invariant, over the values of the fields
  // --------------------------------------------------------------------------

  ghost predicate WindowsOk(n: nat, layers: nat, windows: map<int, int>) {
    && 0 < n <= layers
    && (forall i :: i in windows <==> 0 <= i < n)
    && (forall i :: 0 <= i < n ==> windows[i] == Window(n, layers, i))
  }

  /** Exactly live windows lie before group g. */
  ghost predicate LiveOk(n: nat, layers: nat, g: int, live: nat)
    requires n > 0
  {
    && live <= n
    && (live > 0 ==> Window(n, layers, live - 1) < g)
    && (live < n ==> Window(n, layers, live) >= g)
  }

  ghost predicate CountersOk(n: nat, layers: nat, forward: bool, g: int, live: nat, offloaded: int, count: nat)
    requires n > 0
  {
    && 0 <= g <= layers
    && (forward ==> g < layers)
    && LiveOk(n, layers, g, live)
    && offloaded == (if forward then live else if g == 0 then 0 else if live == 0 then 1 else live)
    && (!forward ==> count == 0)
  }

  ghost predicate TagsOk(pushed: map<Tag, Tensor>, forward: bool, g: int, count: nat) {
    forall tag :: tag in pushed ==>
      && 0 <= tag.group
      && (if forward then tag.group < g || (tag.group == g && tag.index < count) else tag.group <= g)
      && WellFormed(pushed[tag])
  }

  ghost predicate CopiesIssued(copies: map<int, Mapping>, n: nat, forward: bool, g: int, live: nat) {
    && (forall k :: k in copies <==> Issued(forward, n, g, live, k))
    && (forall k :: k in copies ==> AllHost(copies[k]))
  }

  ghost predicate AllRecoverable(states: States, pushed: map<Tag, Tensor>, copies: map<int, Mapping>, forward: bool) {
    && states.Keys == pushed.Keys
    && forall tag :: tag in pushed ==> Recoverable(states[tag], pushed[tag], copies, tag.group, forward)
  }

  /** Group k's tensors are saved before its copy is issued. */
  predicate Leaves(n: nat, layers: nat, k: int) {
    n < layers || k == 0
  }

  /** A tensor is off the device exactly when its group's copy has been issued, and was issued
      late enough to take it along. */
  ghost predicate MovesOk(n: nat, layers: nat, states: States, copies: map<int, Mapping>) {
    forall tag :: tag in states ==> (states[tag].Moved? <==> tag.group in copies && Leaves(n, layers, tag.group))
  }

  ghost predicate BufsOk(bufs: map<Tag, Option<Tensor>>, pushed: map<Tag, Tensor>, n: nat, forward: bool, live: nat) {
    && (forall tag :: tag in bufs <==> tag in pushed && tag.group < n)
    && (forall tag :: tag in bufs ==> bufs[tag] == if forward && tag.group >= live then Some(pushed[tag]) else None)
  }

  /** The fields of a handler, with three ghost ones: what has been pushed and not popped,
      whether the pass runs forward (until the last forward commit; again once everything has
      been popped), and how many windows lie before the current group. */
  datatype Fields = Fields(
    n: nat,
    layers: nat,
    windows: map<int, int>,
    g: int,
    count: nat,
    states: States,
    bufs: map<Tag, Option<Tensor>>,
    offloaded: int,
    copies: map<int, Mapping>,
    pushed: map<Tag, Tensor>,
    forward: bool,
    live: nat
  )

  ghost predicate Ok(f: Fields) {
    && WindowsOk(f.n, f.layers, f.windows)
    && CountersOk(f.n, f.layers, f.forward, f.g, f.live, f.offloaded, f.count)
    && TagsOk(f.pushed, f.forward, f.g, f.count)
    && AliasesAgreeIn(f.pushed)
    && CopiesIssued(f.copies, f.n, f.forward, f.g, f.live)
    && AllRecoverable(f.states, f.pushed, f.copies, f.forward)
    && MovesOk(f.n, f.layers, f.states, f.copies)
    && BufsOk(f.bufs, f.pushed, f.n, f.forward, f.live)
  }

  /** As after construction: nothing pending, counters at zero, all three dictionaries empty. */
  ghost predicate AtRest(f: Fields) {
    && f.g == 0 && f.count == 0 && f.offloaded == 0
    && f.states == map[] && f.bufs == map[] && f.copies == map[]
    && f.forward && f.pushed == map[]
  }

  // --------------------------------------------------------------------------
  // Push
  // --------------------------------------------------------------------------

  ghost function Push(f: Fields, t: Tensor): Fields {
    var tag := Tag(f.g, f.count);
    f.(count := f.count + 1,
       states := f.states[tag := OnDevice(t)],
       bufs := if f.g < f.n then f.bufs[tag := Some(t)] else f.bufs,
       pushed := f.pushed[tag := t])
  }

  /** t agrees with what was pushed from the same storage in this group. */
  ghost predicate Agrees(f: Fields, t: Tensor) {
    forall a :: a in f.pushed && a.group == f.g && f.pushed[a].key == t.key ==> f.pushed[a].data == t.data
  }

  lemma PushTag(pushed: map<Tag, Tensor>, states: States, copies: map<int, Mapping>, g: int, count: nat, t: Tensor)
    requires TagsOk(pushed, true, g, count) && AliasesAgreeIn(pushed) && AllRecoverable(states, pushed, copies, true)
    requires WellFormed(t) && g >= 0
    requires forall a :: a in pushed && a.group == g && pushed[a].key == t.key ==> pushed[a].data == t.data
    ensures var tag := Tag(g, count);
            && tag !in pushed
            && TagsOk(pushed[tag := t], true, g, count + 1)
            && AliasesAgreeIn(pushed[tag := t])
            && AllRecoverable(states[tag := OnDevice(t)], pushed[tag := t], copies, true)
  {
  }

  /** Only groups whose layer has been committed are issued with their tensors, so nothing is
      pushed into such a group. */
  lemma IssuedBeforeGroup(n: nat, layers: nat, g: int, live: nat, k: int)
    requires 0 < n <= layers && LiveOk(n, layers, g, live) && Issued(true, n, g, live, k) && Leaves(n, layers, k)
    ensures k < g
  {
    if k == live && live > 0 {
      WindowLate(n, layers, live - 1);
    } else if k > 0 {
      WindowBounds(n, layers, live - 1);
    }
  }

  /** Groups before the first live window lie before the current group. */
  lemma LiveBeforeGroup(n: nat, layers: nat, g: int, live: nat)
    requires 0 < n <= layers && LiveOk(n, layers, g, live) && g >= 0
    ensures live <= g
  {
    if live > 0 {
      WindowBounds(n, layers, live - 1);
    }
  }

  lemma PushKeepsMoved(f: Fields, t: Tensor)
    requires WindowsOk(f.n, f.layers, f.windows) && LiveOk(f.n, f.layers, f.g, f.live) && f.forward
    requires CopiesIssued(f.copies, f.n, true, f.g, f.live)
    requires MovesOk(f.n, f.layers, f.states, f.copies)
    ensures MovesOk(f.n, f.layers, Push(f, t).states, f.copies)
  {
    if f.g in f.copies && Leaves(f.n, f.layers, f.g) {
      IssuedBeforeGroup(f.n, f.layers, f.g, f.live, f.g);
    }
  }

  lemma PushKeepsBufs(f: Fields, t: Tensor)
    requires BufsOk(f.bufs, f.pushed, f.n, true, f.live) && f.live <= f.g
    ensures BufsOk(Push(f, t).bufs, Push(f, t).pushed, f.n, true, f.live)
  {
  }

  lemma PushOk(f: Fields, t: Tensor)
    requires Ok(f) && f.forward && WellFormed(t) && Agrees(f, t)
    ensures Tag(f.g, f.count) !in f.pushed
    ensures Ok(Push(f, t))
  {
    PushTag(f.pushed, f.states, f.copies, f.g, f.count, t);
    LiveBeforeGroup(f.n, f.layers, f.g, f.live);
    PushKeepsMoved(f, t);
    PushKeepsBufs(f, t);
  }

  // --------------------------------------------------------------------------
  // Pop
  // --------------------------------------------------------------------------

  ghost function Pop(f: Fields, tag: Tag): Fields {
    EndPass(f.(states := f.states - {tag}, bufs := f.bufs - {tag}, pushed := f.pushed - {tag}))
  }

  /** The pass is over when the first layer has run backward and everything has been popped. */
  ghost function EndPass(f: Fields): Fields {
    if f.g == 0 && f.pushed == map[] then f.(forward := true) else f
  }

  lemma EndPassOk(f: Fields)
    requires Ok(f) && !f.forward
    ensures Ok(EndPass(f))
    ensures f.g == 0 && f.pushed == map[] ==> AtRest(EndPass(f))
  {
    if f.g == 0 && f.pushed == map[] {
      LiveBeforeGroup(f.n, f.layers, f.g, f.live);
      assert forall k :: k !in f.copies;
      assert forall tag :: tag !in f.bufs;
      assert f.states.Keys == {};
    }
  }

  lemma RemoveOk(f: Fields, tag: Tag)
    requires Ok(f)
    ensures Ok(f.(states := f.states - {tag}, bufs := f.bufs - {tag}, pushed := f.pushed - {tag}))
  {
  }

  /** A group's tensors are back on the device when its layer runs backward. */
  lemma PopFindsTensor(f: Fields, tag: Tag)
    requires Ok(f) && !f.forward && tag in f.pushed && tag.group == f.g
    ensures tag in f.states && f.states[tag].OnDevice?
    ensures SameValue(f.states[tag].tensor, f.pushed[tag])
  {
    LiveBeforeGroup(f.n, f.layers, f.g, f.live);
    assert Recoverable(f.states[tag], f.pushed[tag], f.copies, tag.group, false);
  }

  lemma PopOk(f: Fields, tag: Tag)
    requires Ok(f) && !f.forward
    ensures Ok(Pop(f, tag))
    ensures f.g == 0 && f.pushed - {tag} == map[] ==> AtRest(Pop(f, tag))
  {
    RemoveOk(f, tag);
    EndPassOk(f.(states := f.states - {tag}, bufs := f.bufs - {tag}, pushed := f.pushed - {tag}));
  }

  // --------------------------------------------------------------------------
  // Forward commit
  // --------------------------------------------------------------------------

  /** The copy of group k is issued, keeping mapping. */
  ghost function Offload(f: Fields, k: int, mapping: Mapping): Fields {
    f.(states := MovedStates(f.states, k), copies := f.copies[k := mapping])
  }

  /** Group k's buffer references are dropped. */
  function Freed(bufs: map<Tag, Option<Tensor>>, k: int): map<Tag, Option<Tensor>> {
    map tag | tag in bufs :: if tag.group == k then None else bufs[tag]
  }

  /** The first group's copy is issued at the first commit. */
  ghost function Kickstart(f: Fields, m0: Mapping): Fields {
    if f.g == 0 then Offload(f, 0, m0) else f
  }

  ghost predicate WindowEnds(f: Fields) {
    f.live in f.windows && f.windows[f.live] == f.g
  }

  /** At the end of a window its group's buffers go and the next group's copy is issued. */
  ghost function Slide(f: Fields, m1: Mapping): Fields {
    if !WindowEnds(f) then f
    else
      var more := f.live < f.n - 1;
      f.(bufs := Freed(f.bufs, f.live),
         states := if more then MovedStates(f.states, f.live + 1) else f.states,
         copies := if more then f.copies[f.live + 1 := m1] else f.copies,
         live := f.live + 1,
         offloaded := f.offloaded + 1)
  }

  ghost function Advance(f: Fields): Fields {
    f.(g := f.g + 1, count := 0, forward := f.g + 1 < f.layers)
  }

  ghost function CommitForward(f: Fields, m0: Mapping, m1: Mapping): Fields {
    Advance(Slide(Kickstart(f, m0), m1))
  }

  /** The mappings a commit keeps are faithful to the groups they were built from. */
  ghost predicate MappingsFit(f: Fields, m0: Mapping, m1: Mapping) {
    && (f.g == 0 ==> HoldsGroup(f.states, 0, m0))
    && (WindowEnds(f) && f.live < f.n - 1 ==> HoldsGroup(Kickstart(f, m0).states, f.live + 1, m1))
  }

  /** A group that has not been issued is all on the device. */
  lemma UnissuedOnDevice(states: States, pushed: map<Tag, Tensor>, copies: map<int, Mapping>, forward: bool, k: int)
    requires AllRecoverable(states, pushed, copies, forward) && k !in copies
    ensures GroupOnDevice(states, k)
  {
  }

  /** Issuing the copy of a group loses nothing. */
  lemma OffloadRecoverable(states: States, pushed: map<Tag, Tensor>, copies: map<int, Mapping>, k: int,
                           mapping: Mapping)
    requires AllRecoverable(states, pushed, copies, true) && AliasesAgreeIn(pushed)
    requires k !in copies && HoldsGroup(states, k, mapping)
    ensures AllRecoverable(MovedStates(states, k), pushed, copies[k := mapping], true)
    ensures AllHost(mapping)
  {
    var after, copies' := MovedStates(states, k), copies[k := mapping];
    forall tag | tag in pushed
      ensures Recoverable(after[tag], pushed[tag], copies', tag.group, true)
    {
      assert Recoverable(states[tag], pushed[tag], copies, tag.group, true);
      if tag.group == k {
        var key := states[tag].tensor.key;
        assert key in mapping;
        var other :| other in states && other.group == k && states[other].OnDevice?
                     && mapping[key] == Host(states[other].tensor) && states[other].tensor.key == key;
        assert Recoverable(states[other], pushed[other], copies, k, true);
      }
    }
  }

  /** What a copy takes along: a group whose copy is issued too early has no tensors yet. */
  lemma OffloadMoves(n: nat, layers: nat, states: States, copies: map<int, Mapping>, k: int, mapping: Mapping)
    requires MovesOk(n, layers, states, copies) && k !in copies
    requires Leaves(n, layers, k) || forall tag :: tag in states ==> tag.group != k
    ensures MovesOk(n, layers, MovedStates(states, k), copies[k := mapping])
  {
  }

  /** What holds of the states and copies in the middle of a forward commit. */
  ghost predicate MidOk(n: nat, layers: nat, states: States, pushed: map<Tag, Tensor>, copies: map<int, Mapping>,
                        issued: int)
  {
    && AllRecoverable(states, pushed, copies, true) && AliasesAgreeIn(pushed)
    && (forall k :: k in copies <==> 0 <= k < issued)
    && (forall k :: k in copies ==> AllHost(copies[k]))
    && MovesOk(n, layers, states, copies)
  }

  ghost predicate NoneYet(states: States, k: int) {
    forall tag :: tag in states ==> tag.group != k
  }

  lemma OffloadMidOk(n: nat, layers: nat, states: States, pushed: map<Tag, Tensor>, copies: map<int, Mapping>,
                     k: int, mapping: Mapping)
    requires MidOk(n, layers, states, pushed, copies, k) && k >= 0 && HoldsGroup(states, k, mapping)
    requires Leaves(n, layers, k) || NoneYet(states, k)
    ensures MidOk(n, layers, MovedStates(states, k), pushed, copies[k := mapping], k + 1)
  {
    OffloadRecoverable(states, pushed, copies, k, mapping);
    OffloadMoves(n, layers, states, copies, k, mapping);
  }

  lemma KickstartOk(f: Fields, m0: Mapping)
    requires Ok(f) && f.forward && (f.g == 0 ==> HoldsGroup(f.states, 0, m0))
    ensures f.live < f.n
    ensures var h := Kickstart(f, m0); MidOk(f.n, f.layers, h.states, f.pushed, h.copies, f.live + 1)
  {
    if f.live == f.n {
      WindowBounds(f.n, f.layers, f.live - 1);
      assert false;
    }
    LiveBeforeGroup(f.n, f.layers, f.g, f.live);
    if f.g == 0 {
      OffloadMidOk(f.n, f.layers, f.states, f.pushed, f.copies, 0, m0);
    }
  }

  lemma LiveAdvances(f: Fields)
    requires WindowsOk(f.n, f.layers, f.windows) && LiveOk(f.n, f.layers, f.g, f.live) && f.live < f.n
    ensures LiveOk(f.n, f.layers, f.g + 1, if WindowEnds(f) then f.live + 1 else f.live)
  {
    if WindowEnds(f) && f.live + 1 < f.n {
      WindowGap(f.n, f.layers, f.live);
    }
  }

  /** With as many groups as layers, the group whose copy is issued next has not begun. */
  lemma NextGroupEarly(f: Fields)
    requires Ok(f) && f.forward
    ensures Leaves(f.n, f.layers, f.live + 1) || NoneYet(f.states, f.live + 1)
  {
    if f.n == f.layers {
      WindowOfEach(f.n, f.live);
      if f.live > 0 {
        WindowOfEach(f.n, f.live - 1);
      }
      assert f.live >= f.g;
      assert forall tag :: tag in f.states ==> tag in f.pushed;
    }
  }

  /** What a slide makes of the states and copies. */
  ghost predicate Slid(f: Fields, m1: Mapping, states: States, copies: map<int, Mapping>, live: nat) {
    if WindowEnds(f) && f.live < f.n - 1
    then states == MovedStates(f.states, f.live + 1) && copies == f.copies[f.live + 1 := m1] && live == f.live + 1
    else states == f.states && copies == f.copies && live == if WindowEnds(f) then f.live + 1 else f.live
  }

  lemma SlideSlides(f: Fields, m1: Mapping)
    ensures var h := Slide(f, m1); Slid(f, m1, h.states, h.copies, h.live)
  {
  }

  lemma SlideMidOk(f: Fields, m1: Mapping, states: States, copies: map<int, Mapping>, live: nat)
    requires MidOk(f.n, f.layers, f.states, f.pushed, f.copies, f.live + 1) && f.live < f.n
    requires WindowEnds(f) && f.live < f.n - 1 ==> HoldsGroup(f.states, f.live + 1, m1)
    requires Leaves(f.n, f.layers, f.live + 1) || NoneYet(f.states, f.live + 1)
    requires Slid(f, m1, states, copies, live)
    ensures MidOk(f.n, f.layers, states, f.pushed, copies, if live < f.n then live + 1 else f.n)
  {
    if WindowEnds(f) && f.live < f.n - 1 {
      OffloadMidOk(f.n, f.layers, f.states, f.pushed, f.copies, f.live + 1, m1);
    }
  }

  lemma FreedOk(f: Fields)
    requires BufsOk(f.bufs, f.pushed, f.n, true, f.live)
    ensures BufsOk(Freed(f.bufs, f.live), f.pushed, f.n, true, f.live + 1)
  {
  }

  lemma LastFree(f: Fields, live: nat)
    requires BufsOk(f.bufs, f.pushed, f.n, true, live) && live == f.n
    ensures BufsOk(f.bufs, f.pushed, f.n, false, live)
  {
  }

  /** Every window has ended by the last commit. */
  lemma AllWindowsEnd(n: nat, layers: nat, live: nat)
    requires 0 < n <= layers && LiveOk(n, layers, layers, live)
    ensures live == n
  {
    if live < n {
      WindowBounds(n, layers, live);
    }
  }

  lemma AdvanceOk(f: Fields, h: Fields)
    requires Ok(f) && f.forward && f.live < f.n
    requires h == f.(states := h.states, copies := h.copies, bufs := h.bufs, live := h.live, offloaded := h.offloaded)
    requires h.live == h.offloaded == (if WindowEnds(f) then f.live + 1 else f.live)
    requires MidOk(f.n, f.layers, h.states, f.pushed, h.copies, if h.live < f.n then h.live + 1 else f.n)
    requires BufsOk(h.bufs, h.pushed, h.n, true, h.live)
    ensures Ok(Advance(h))
  {
    LiveAdvances(f);
    if f.g + 1 == f.layers {
      AllWindowsEnd(f.n, f.layers, h.live);
      LastFree(h, h.live);
      StillRecoverable(h.states, h.pushed, h.copies);
    }
  }

  lemma StillRecoverable(states: States, pushed: map<Tag, Tensor>, copies: map<int, Mapping>)
    requires AllRecoverable(states, pushed, copies, true)
    ensures AllRecoverable(states, pushed, copies, false)
  {
    forall tag | tag in pushed
      ensures Recoverable(states[tag], pushed[tag], copies, tag.group, false)
    {
      assert Recoverable(states[tag], pushed[tag], copies, tag.group, true);
    }
  }

  lemma SlideFrame(f: Fields, m1: Mapping)
    requires f.live == f.offloaded
    ensures var h := Slide(f, m1);
            && h == f.(states := h.states, copies := h.copies, bufs := h.bufs, live := h.live, offloaded := h.offloaded)
            && h.live == h.offloaded == (if WindowEnds(f) then f.live + 1 else f.live)
            && h.bufs == if WindowEnds(f) then Freed(f.bufs, f.live) else f.bufs
  {
  }

  /** Where a forward commit stands before it advances to the next group. */
  ghost predicate Stands(f: Fields, h: Fields) {
    && h == f.(states := h.states, copies := h.copies, bufs := h.bufs, live := h.live, offloaded := h.offloaded)
    && h.live == h.offloaded == (if WindowEnds(f) then f.live + 1 else f.live)
    && h.bufs == (if WindowEnds(f) then Freed(f.bufs, f.live) else f.bufs)
  }

  lemma CommitStands(f: Fields, m0: Mapping, m1: Mapping)
    requires f.live == f.offloaded
    ensures Stands(f, Slide(Kickstart(f, m0), m1))
  {
    var k := Kickstart(f, m0);
    assert k.live == k.offloaded == f.live && k.bufs == f.bufs && (WindowEnds(k) <==> WindowEnds(f));
    SlideFrame(k, m1);
  }

  lemma KickstartKeeps(f: Fields, m0: Mapping)
    ensures var h := Kickstart(f, m0);
            && h == f.(states := h.states, copies := h.copies) && h.states.Keys == f.states.Keys
            && (WindowEnds(h) <==> WindowEnds(f))
  {
  }

  lemma NextEarlyStill(f: Fields, states: States)
    requires Ok(f) && f.forward && states.Keys == f.states.Keys
    ensures Leaves(f.n, f.layers, f.live + 1) || NoneYet(states, f.live + 1)
  {
    NextGroupEarly(f);
    forall tag | tag in states
      ensures tag in f.states
    {
      assert tag in states.Keys;
    }
  }

  /** After the first step of a commit the second can be taken. */
  lemma KickstartMid(f: Fields, k: Fields, m0: Mapping)
    requires Ok(f) && f.forward && (f.g == 0 ==> HoldsGroup(f.states, 0, m0)) && k == Kickstart(f, m0)
    ensures k.live < k.n && MidOk(k.n, k.layers, k.states, k.pushed, k.copies, k.live + 1)
    ensures Leaves(k.n, k.layers, k.live + 1) || NoneYet(k.states, k.live + 1)
  {
    KickstartOk(f, m0);
    KickstartKeeps(f, m0);
    NextEarlyStill(f, k.states);
  }

  lemma SecondMappingFits(f: Fields, k: Fields, m0: Mapping, m1: Mapping)
    requires MappingsFit(f, m0, m1) && k == Kickstart(f, m0)
    ensures WindowEnds(k) && k.live < k.n - 1 ==> HoldsGroup(k.states, k.live + 1, m1)
  {
    KickstartKeeps(f, m0);
  }

  lemma CommitMid(f: Fields, k: Fields, m0: Mapping, m1: Mapping, h: Fields)
    requires Ok(f) && f.forward && MappingsFit(f, m0, m1) && k == Kickstart(f, m0) && h == Slide(k, m1)
    ensures MidOk(k.n, k.layers, h.states, k.pushed, h.copies, if h.live < k.n then h.live + 1 else k.n)
  {
    KickstartMid(f, k, m0);
    SecondMappingFits(f, k, m0, m1);
    SlideSlides(k, m1);
    SlideMidOk(k, m1, h.states, h.copies, h.live);
  }

  lemma CommitForwardOk(f: Fields, m0: Mapping, m1: Mapping)
    requires Ok(f) && f.forward && MappingsFit(f, m0, m1)
    ensures Ok(CommitForward(f, m0, m1))
  {
    var k := Kickstart(f, m0);
    var h := Slide(k, m1);
    KickstartMid(f, k, m0);
    KickstartKeeps(f, m0);
    CommitMid(f, k, m0, m1, h);
    CommitStands(f, m0, m1);
    FreedOk(f);
    AdvanceOk(f, h);
  }

  /** A buffer reference is dropped only once its group's copy has been issued; and with fewer
      offloaded groups than layers, only once its tensor has in fact been moved. */
  lemma DroppedOnlyWhenIssued(f: Fields, m0: Mapping, m1: Mapping, tag: Tag)
    requires Ok(f) && f.forward && MappingsFit(f, m0, m1)
    requires tag in f.bufs && f.bufs[tag].Some?
    requires tag in CommitForward(f, m0, m1).bufs && CommitForward(f, m0, m1).bufs[tag].None?
    ensures tag.group in Kickstart(f, m0).copies
    ensures f.n < f.layers ==> tag in f.states && Kickstart(f, m0).states[tag].Moved?
  {
    KickstartOk(f, m0);
    var k := Kickstart(f, m0);
    SlideFrame(k, m1);
    assert tag.group == k.live;
    assert tag in k.states;
  }

  // --------------------------------------------------------------------------
  // Backward commit
  // --------------------------------------------------------------------------

  ghost predicate ReloadDue(f: Fields) {
    f.live > 0 && f.live - 1 in f.windows && f.windows[f.live - 1] == f.g - 1
  }

  /** One group back; the group whose window is reached is brought back to the device. */
  ghost function Retreat(f: Fields, after: States): Fields {
    if ReloadDue(f)
    then f.(g := f.g - 1, states := after, copies := f.copies - {f.live - 1}, live := f.live - 1,
            offloaded := if f.g == 1 then 0 else if f.offloaded > 1 then f.offloaded - 1 else f.offloaded)
    else f.(g := f.g - 1, offloaded := if f.g == 1 then 0 else f.offloaded)
  }

  ghost function CommitBackward(f: Fields, after: States): Fields {
    EndPass(Retreat(f, after))
  }

  /** after is the states of f with the group of its last live window brought back. */
  ghost predicate ReloadedIn(f: Fields, after: States) {
    && f.live - 1 in f.copies
    && Reloaded(f.states, after, f.live - 1, f.copies[f.live - 1])
  }

  /** The tensors of the layers after the current group have all been popped. */
  ghost predicate LayerDone(f: Fields) {
    forall tag :: tag in f.pushed ==> tag.group < f.g
  }

  /** Bringing a group back loses nothing. */
  lemma ReloadRecoverable(states: States, after: States, pushed: map<Tag, Tensor>, copies: map<int, Mapping>, k: int)
    requires AllRecoverable(states, pushed, copies, false) && k in copies && Reloaded(states, after, k, copies[k])
    ensures AllRecoverable(after, pushed, copies - {k}, false)
  {
    forall tag | tag in pushed
      ensures Recoverable(after[tag], pushed[tag], copies - {k}, tag.group, false)
    {
      assert Recoverable(states[tag], pushed[tag], copies, tag.group, false);
    }
  }

  lemma ReloadMoves(n: nat, layers: nat, states: States, after: States, copies: map<int, Mapping>, k: int)
    requires MovesOk(n, layers, states, copies) && k in copies && Reloaded(states, after, k, copies[k])
    ensures MovesOk(n, layers, after, copies - {k})
  {
  }

  lemma LiveRetreats(f: Fields)
    requires WindowsOk(f.n, f.layers, f.windows) && LiveOk(f.n, f.layers, f.g, f.live)
    ensures LiveOk(f.n, f.layers, f.g - 1, if ReloadDue(f) then f.live - 1 else f.live)
  {
    if f.live > 1 {
      WindowGap(f.n, f.layers, f.live - 2);
    }
  }

  /** Group live - 1 can be brought back: its copies are there, one for each moved tensor, and
      of the right size. */
  ghost predicate ReloadReady(f: Fields) {
    && f.offloaded == f.live && 0 < f.live <= f.n
    && f.live - 1 in f.copies && AllHost(f.copies[f.live - 1])
    && forall tag :: tag in f.states && tag.group == f.live - 1 && f.states[tag].Moved? ==>
         && f.states[tag].key in f.copies[f.live - 1]
         && |f.copies[f.live - 1][f.states[tag].key].tensor.data| == Numel(f.states[tag].shape)
  }

  /** The lookup and the reload of a backward commit find what they need. */
  lemma ReloadPossible(f: Fields)
    requires Ok(f) && !f.forward && f.g > 0
    ensures f.offloaded - 1 in f.windows
    ensures f.windows[f.offloaded - 1] == f.g - 1 <==> ReloadDue(f)
    ensures ReloadDue(f) ==> ReloadReady(f)
  {
    forall tag | tag in f.states
      ensures Recoverable(f.states[tag], f.pushed[tag], f.copies, tag.group, false) && WellFormed(f.pushed[tag])
    {
    }
  }

  lemma RetreatOk(f: Fields, h: Fields)
    requires Ok(f) && !f.forward && f.g > 0 && LayerDone(f)
    requires h == f.(g := f.g - 1, states := h.states, copies := h.copies, live := h.live, offloaded := h.offloaded)
    requires h.live == (if ReloadDue(f) then f.live - 1 else f.live)
    requires h.offloaded == if h.g == 0 then 0 else if h.live == 0 then 1 else h.live
    requires AllRecoverable(h.states, h.pushed, h.copies, false)
    requires CopiesIssued(h.copies, h.n, false, h.g, h.live)
    requires MovesOk(f.n, f.layers, h.states, h.copies)
    ensures Ok(h)
  {
    LiveRetreats(f);
  }

  lemma RetreatedOk(f: Fields, after: States, h: Fields)
    requires Ok(f) && !f.forward && f.g > 0 && LayerDone(f) && h == Retreat(f, after)
    requires ReloadDue(f) ==> ReloadedIn(f, after)
    ensures Ok(h) && !h.forward
  {
    if ReloadDue(f) {
      ReloadRecoverable(f.states, after, f.pushed, f.copies, f.live - 1);
      ReloadMoves(f.n, f.layers, f.states, after, f.copies, f.live - 1);
      CopiesRetreat(f.copies, f.n, f.g, f.live);
    }
    RetreatOk(f, h);
  }

  lemma CopiesRetreat(copies: map<int, Mapping>, n: nat, g: int, live: nat)
    requires CopiesIssued(copies, n, false, g, live) && live > 0
    ensures CopiesIssued(copies - {live - 1}, n, false, g - 1, live - 1)
  {
  }

  lemma CommitBackwardOk(f: Fields, after: States)
    requires Ok(f) && !f.forward && f.g > 0 && LayerDone(f)
    requires ReloadDue(f) ==> ReloadedIn(f, after)
    ensures var h := CommitBackward(f, after);
            Ok(h) && (h.g == 0 && h.pushed == map[] ==> AtRest(h))
  {
    RetreatedOk(f, after, Retreat(f, after));
    EndPassOk(Retreat(f, after));
  }

  /** Where a tensor is, at any moment: on the host exactly between the issue of its group's copy
      and its reload, but with as many groups as layers only the first group ever leaves. */
  lemma OffDeviceExactly(f: Fields, tag: Tag)
    requires Ok(f) && tag in f.states
    ensures f.states[tag].Moved? <==>
            Issued(f.forward, f.n, f.g, f.live, tag.group) && (f.n < f.layers || tag.group == 0)
  {
  }

  // --------------------------------------------------------------------------
  // Streams
  // --------------------------------------------------------------------------

  /** Forward, at most the group of the next window is on its way out. Backward, nothing is, and
      from the first commit on the inward stream knows it; at most the group brought back last is
      on its way in, and its layer has not been reached. */
  ghost predicate Synced(f: Fields, s: Streams) {
    && (if f.forward
        then s.inward == {} && forall tag :: tag in s.outward ==> tag in f.pushed && tag.group == f.live
        else
          && s.unsaved == {} && s.outward == {} && (f.g < f.layers ==> s.unseen == {})
          && forall tag :: tag in s.inward ==> f.n < f.layers && tag.group == f.live < f.g)
    && (AtRest(f) ==> s == QUIET)
  }

  /** A tensor on its way out still has its buffer reference. */
  lemma KeptAlive(f: Fields, s: Streams, tag: Tag)
    requires Ok(f) && Synced(f, s) && tag in s.outward
    ensures tag in f.bufs && f.bufs[tag] == Some(f.pushed[tag])
  {
    if f.live == f.n {
      WindowBounds(f.n, f.layers, f.live - 1);
    }
  }

  /** A tensor whose layer runs backward is not on its way in. */
  lemma PopSettled(f: Fields, s: Streams, tag: Tag)
    requires Synced(f, s) && !f.forward && tag.group == f.g
    ensures tag !in s.inward
  {
  }

  lemma PushSynced(f: Fields, t: Tensor, s: Streams)
    requires f.forward && Synced(f, s)
    ensures Synced(Push(f, t), Computed(s, Tag(f.g, f.count)))
  {
    assert Tag(f.g, f.count) in Push(f, t).pushed;
  }

  lemma PopSynced(f: Fields, tag: Tag, s: Streams)
    requires Ok(f) && !f.forward && Synced(f, s)
    ensures Synced(Pop(f, tag), s)
  {
  }

  ghost function KickstartStreams(f: Fields, s: Streams): Streams {
    if f.g == 0 then IssueOutward(OutwardWaits(s), TagsOf(f.states.Keys, 0)) else s
  }

  ghost function SlideStreams(f: Fields, s: Streams): Streams {
    if !WindowEnds(f) then s
    else
      var w := ComputeWaitsOutward(OutwardWaits(s));
      if f.live < f.n - 1 then IssueOutward(w, TagsOf(f.states.Keys, f.live + 1)) else w
  }

  ghost function CommitStreams(f: Fields, s: Streams): Streams {
    SlideStreams(f, KickstartStreams(f, s))
  }

  lemma CommitKeeps(f: Fields, m0: Mapping, m1: Mapping)
    requires f.live == f.offloaded
    ensures var h := CommitForward(f, m0, m1);
            && h.pushed == f.pushed && h.g == f.g + 1 && h.n == f.n && h.layers == f.layers
            && (h.forward <==> f.g + 1 < f.layers) && h.live == if WindowEnds(f) then f.live + 1 else f.live
  {
    CommitStands(f, m0, m1);
  }

  /** The last forward commit ends the last window. */
  lemma LastCommit(f: Fields)
    requires Ok(f) && f.forward && f.g + 1 == f.layers
    ensures WindowEnds(f) && f.live == f.n - 1
  {
    if f.live == f.n {
      WindowBounds(f.n, f.layers, f.live - 1);
      assert false;
    }
    LiveAdvances(f);
    AllWindowsEnd(f.n, f.layers, if WindowEnds(f) then f.live + 1 else f.live);
  }

  /** After a forward commit, only the group of the next window is on its way out. */
  lemma CommitOutward(f: Fields, s: Streams, tag: Tag)
    requires f.states.Keys == f.pushed.Keys && (f.g == 0 ==> f.live == 0)
    requires forall t :: t in s.outward ==> t in f.pushed && t.group == f.live
    requires tag in CommitStreams(f, s).outward
    ensures tag in f.pushed && tag.group == if WindowEnds(f) then f.live + 1 else f.live
  {
    assert tag in f.states.Keys <==> tag in f.pushed;
  }

  lemma CommitForwardSynced(f: Fields, h: Fields, s: Streams)
    requires Ok(f) && f.forward && Synced(f, s)
    requires h.pushed == f.pushed && h.g == f.g + 1 && h.n == f.n && h.layers == f.layers
    requires (h.forward <==> f.g + 1 < f.layers) && h.live == if WindowEnds(f) then f.live + 1 else f.live
    ensures Synced(h, CommitStreams(f, s))
  {
    LiveBeforeGroup(f.n, f.layers, f.g, f.live);
    if h.forward {
      forall tag | tag in CommitStreams(f, s).outward
        ensures tag in h.pushed && tag.group == h.live
      {
        CommitOutward(f, s, tag);
      }
    } else {
      LastCommit(f);
    }
  }

  ghost function RetreatStreams(f: Fields, s: Streams): Streams {
    var r := if ReloadDue(f)
             then IssueInward(ComputeWaitsInward(InwardWaits(s)), MovedOf(f.states, f.live - 1))
             else s;
    if f.g == 1 then ComputeWaitsInward(r) else r
  }

  /** Backward, the host copies that a reload reads are complete as far as the inward stream is
      concerned. */
  lemma ReloadSettled(f: Fields, s: Streams)
    requires Synced(f, s) && !f.forward
    ensures InwardWaits(s).unseen == {}
  {
  }

  /** The first backward commit brings a group back. */
  lemma FirstReload(f: Fields)
    requires Ok(f) && !f.forward && f.g == f.layers
    ensures ReloadDue(f)
  {
    AllWindowsEnd(f.n, f.layers, f.live);
    WindowBounds(f.n, f.layers, f.n - 1);
  }

  lemma WindowAhead(n: nat, layers: nat, i: nat, g: int)
    requires 0 < n <= layers && i < n && Leaves(n, layers, i) && Window(n, layers, i) == g > 0
    ensures n < layers && i < g
  {
    if n < layers {
      WindowLate(n, layers, i);
    } else {
      WindowOfEach(n, i);
    }
  }

  /** What is on its way in after a reload belongs to a layer not reached yet. */
  lemma ReloadedAhead(f: Fields, tag: Tag)
    requires Ok(f) && !f.forward && f.g > 1 && ReloadDue(f) && tag in MovedOf(f.states, f.live - 1)
    ensures f.n < f.layers && tag.group == f.live - 1 < f.g - 1
  {
    assert f.states[tag].Moved? && Leaves(f.n, f.layers, tag.group);
    WindowAhead(f.n, f.layers, f.live - 1, f.g - 1);
  }

  /** So does what was on its way in already. */
  lemma StillAhead(f: Fields)
    requires Ok(f) && !f.forward && f.g > 1 && !ReloadDue(f) && f.n < f.layers && f.live < f.g
    ensures f.live < f.g - 1
  {
    LiveRetreats(f);
    if f.live > 0 {
      WindowLate(f.n, f.layers, f.live - 1);
    }
  }

  lemma RetreatSynced(f: Fields, s: Streams, h: Fields, t: Streams)
    requires Ok(f) && !f.forward && f.g > 0 && Synced(f, s) && t == RetreatStreams(f, s)
    requires !h.forward && h.g == f.g - 1 && h.n == f.n && h.layers == f.layers
    requires h.live == if ReloadDue(f) then f.live - 1 else f.live
    ensures Synced(h, t)
  {
    if f.g == f.layers {
      FirstReload(f);
    }
    forall tag | tag in t.inward
      ensures h.n < h.layers && tag.group == h.live < h.g
    {
      if ReloadDue(f) {
        ReloadedAhead(f, tag);
      } else {
        StillAhead(f);
      }
    }
  }

  lemma RetreatKeeps(f: Fields, after: States)
    ensures var h := Retreat(f, after);
            && h.forward == f.forward && h.g == f.g - 1 && h.n == f.n && h.layers == f.layers
            && h.live == if ReloadDue(f) then f.live - 1 else f.live
  {
  }

  lemma EndPassSynced(f: Fields, s: Streams)
    requires Synced(f, s) && !f.forward && f.layers > 0
    ensures Synced(EndPass(f), s)
  {
  }

  lemma CommitBackwardSynced(f: Fields, after: States, s: Streams)
    requires Ok(f) && !f.forward && f.g > 0 && Synced(f, s)
    ensures Synced(CommitBackward(f, after), RetreatStreams(f, s))
  {
    RetreatKeeps(f, after);
    RetreatSynced(f, s, Retreat(f, after), RetreatStreams(f, s));
    EndPassSynced(Retreat(f, after), RetreatStreams(f, s));
  }

  // --------------------------------------------------------------------------
  // How much stays on the device
  // --------------------------------------------------------------------------

  /** A group occupies device memory through a saved tensor or a buffer reference. */
  ghost predicate Resident(f: Fields, k: int) {
    exists tag :: tag in f.states && tag.group == k
                  && (f.states[tag].OnDevice? || (tag in f.bufs && f.bufs[tag].Some?))
  }

  lemma CallerLive(f: Fields)
    requires WindowsOk(f.n, f.layers, f.windows) && LiveOk(f.n, f.layers, f.g, f.live)
    requires f.n == f.layers - 1 && f.n >= 2
    ensures f.live >= Min(f.g - 1, f.n)
  {
    if f.live < f.n {
      CallerWindow(f.layers, f.live);
    }
  }

  /** As the caller sets the handler up, one layer is not offloaded; then at any moment only two
      neighbouring groups can be resident: the current one and the one before it. */
  lemma AtMostTwoResident(f: Fields, k: int)
    requires Ok(f) && f.n == f.layers - 1 && f.n >= 2 && Resident(f, k)
    ensures f.g - 1 <= k <= f.g
  {
    var tag :| tag in f.states && tag.group == k
               && (f.states[tag].OnDevice? || (tag in f.bufs && f.bufs[tag].Some?));
    CallerLive(f);
    assert tag in f.pushed;
    assert Recoverable(f.states[tag], f.pushed[tag], f.copies, k, f.forward);
  }

  /** What the steps of a forward commit rely on. */
  ghost predicate CommitReady(f: Fields) {
    && f.live == f.offloaded && f.live in f.windows
    && (f.g == 0 ==> GroupOnDevice(f.states, 0))
    && GroupOnDevice(f.states, f.live + 1)
  }

  lemma CommitPossible(f: Fields)
    requires Ok(f) && f.forward
    ensures CommitReady(f)
  {
    UnissuedOnDevice(f.states, f.pushed, f.copies, true, f.live + 1);
    if f.g == 0 {
      UnissuedOnDevice(f.states, f.pushed, f.copies, true, 0);
    }
    if f.live == f.n {
      WindowBounds(f.n, f.layers, f.live - 1);
    }
  }

  lemma StillReady(f: Fields, m0: Mapping, k: Fields)
    requires CommitReady(f) && k == Kickstart(f, m0)
    ensures GroupOnDevice(k.states, f.live + 1)
  {
  }

  /** The three steps of a forward commit, put together. */
  lemma CommitIs(f: Fields, k: Fields, s: Fields, h: Fields, m0: Mapping, m1: Mapping)
    requires k == Kickstart(f, m0) && s == Slide(k, m1) && h == Advance(s)
    requires f.g == 0 ==> HoldsGroup(f.states, 0, m0)
    requires WindowEnds(k) && k.live < k.n - 1 ==> HoldsGroup(k.states, k.live + 1, m1)
    ensures MappingsFit(f, m0, m1) && h == CommitForward(f, m0, m1)
  {
    KickstartKeeps(f, m0);
  }

  lemma CommitStreamsIs(f: Fields, k: Fields, m0: Mapping, s: Streams)
    requires k == Kickstart(f, m0)
    ensures SlideStreams(k, KickstartStreams(f, s)) == CommitStreams(f, s)
  {
    KickstartKeeps(f, m0);
  }

  lemma UncommitIs(f: Fields, r: Fields, h: Fields, after: States)
    requires r == Retreat(f, after) && h == EndPass(r)
    ensures h == CommitBackward(f, after)
  {
  }

  // --------------------------------------------------------------------------
  // The handler
  // --------------------------------------------------------------------------

  class Handler {
    const numOffloadGroup: nat
    const numLayers: nat
    var currentGroup: int
    var tensorCount: nat
    var tagToState: States
    var tagToBuf: map<Tag, Option<Tensor>>
    var offloadedGroupCount: int
    var layerWindowMap: map<int, int>
    var groupOffloadMapping: map<int, Mapping>

    ghost var pushed: map<Tag, Tensor>
    ghost var forward: bool
    ghost var live: nat
    ghost var streams: Streams

    ghost function View(): Fields
      reads this
    {
      Fields(numOffloadGroup, numLayers, layerWindowMap, currentGroup, tensorCount, tagToState, tagToBuf,
             offloadedGroupCount, groupOffloadMapping, pushed, forward, live)
    }

    ghost predicate Valid()
      reads this
    {
      Ok(View()) && Synced(View(), streams)
    }

    constructor (n: nat, layers: nat)
      requires 0 < n <= layers
      ensures Valid() && AtRest(View()) && numOffloadGroup == n && numLayers == layers
    {
      numOffloadGroup, numLayers := n, layers;
      currentGroup, tensorCount, offloadedGroupCount := 0, 0, 0;
      tagToState, tagToBuf, groupOffloadMapping := map[], map[], map[];
      pushed, forward, live, streams := map[], true, 0, QUIET;
      layerWindowMap := map[];
      new;
      var constant := 0;
      for i := 0 to n
        modifies this`layerWindowMap
        invariant forall k :: k in layerWindowMap <==> 0 <= k < i
        invariant forall k :: 0 <= k < i ==> layerWindowMap[k] == Window(n, layers, k)
        invariant constant == Min(i, layers % n)
      {
        var window := layers / n * (i + 1) - 1;
        if i < layers % n {
          window := window + i + 1;
          constant := i + 1;
        } else {
          window := window + constant;
        }
        assert window == Window(n, layers, i);
        layerWindowMap := layerWindowMap[i := window];
      }
      WindowBounds(n, layers, 0);
    }

    // ------------------------------------------------------------------------
    // Bulk copies
    // ------------------------------------------------------------------------

    /** Moves every tensor of a group to the host, one copy for each storage key. */
    method BulkOffloadGroup(g: int)
      requires GroupOnDevice(tagToState, g)
      requires TagsOf(tagToState.Keys, g) !! streams.unsaved // what is copied has been computed
      modifies this`tagToState, this`groupOffloadMapping, this`streams
      ensures streams == IssueOutward(old(streams), TagsOf(old(tagToState).Keys, g))
      ensures tagToState == MovedStates(old(tagToState), g)
      ensures g in groupOffloadMapping
      ensures groupOffloadMapping == old(groupOffloadMapping)[g := groupOffloadMapping[g]]
      ensures HoldsGroup(old(tagToState), g, groupOffloadMapping[g])
    {
      var mapping: Mapping := map[];
      var todo := tagToState.Keys;
      ghost var was := tagToState;
      while todo != {}
        modifies this`tagToState
        invariant todo <= was.Keys && tagToState.Keys == was.Keys
        invariant forall tag :: tag in was ==>
                    tagToState[tag] == if tag in todo || tag.group != g then was[tag] else Leave(was[tag])
        invariant forall tag :: tag in was && tag !in todo && tag.group == g ==> was[tag].tensor.key in mapping
        invariant forall k :: k in mapping ==>
                    exists tag :: tag in was && tag.group == g && was[tag].OnDevice?
                                  && mapping[k] == Device(was[tag].tensor) && was[tag].tensor.key == k
      {
        var tag :| tag in todo;
        var state := tagToState[tag];
        if tag.group == g {
          assert state == was[tag] && state.OnDevice?;
          var key := state.tensor.key;
          if key !in mapping {
            mapping := mapping[key := Device(state.tensor)];
          }
          tagToState := tagToState[tag := Moved(key, state.tensor.shape)];
        }
        todo := todo - {tag};
      }
      assert tagToState == MovedStates(was, g);
      streams := IssueOutward(streams, TagsOf(was.Keys, g));
      var copied := CopyOut(mapping);
      forall k | k in copied
        ensures exists tag :: tag in was && tag.group == g && was[tag].OnDevice?
                              && copied[k] == Host(was[tag].tensor) && was[tag].tensor.key == k
      {
        assert k in mapping;
      }
      groupOffloadMapping := groupOffloadMapping[g := copied];
    }

    /** Replaces every device tensor of a mapping by its host copy. */
    method CopyOut(mapping: Mapping) returns (copied: Mapping)
      requires forall k :: k in mapping ==> mapping[k].Device?
      ensures copied.Keys == mapping.Keys
      ensures forall k :: k in mapping ==> copied[k] == Host(mapping[k].tensor)
    {
      copied := mapping;
      var todo := mapping.Keys;
      while todo != {}
        invariant todo <= mapping.Keys == copied.Keys
        invariant forall k :: k in mapping ==> copied[k] == if k in todo then mapping[k] else Host(mapping[k].tensor)
      {
        var key :| key in todo;
        copied := copied[key := Host(copied[key].tensor)];
        todo := todo - {key};
      }
    }

    /** Brings the host copies back into new device storage. */
    method CopyIn(mapping: Mapping) returns (back: Mapping)
      requires AllHost(mapping)
      ensures back.Keys == mapping.Keys
      ensures forall k :: k in mapping ==> back[k].Device? && SameValue(back[k].tensor, mapping[k].tensor)
    {
      back := mapping;
      var todo := mapping.Keys;
      while todo != {}
        invariant todo <= mapping.Keys == back.Keys
        invariant forall k :: k in mapping ==>
                    if k in todo then back[k] == mapping[k]
                    else back[k].Device? && SameValue(back[k].tensor, mapping[k].tensor)
      {
        var key :| key in todo;
        var address: int := *;
        back := back[key := Device(back[key].tensor.(key := Key(address, back[key].tensor.key.dtype)))];
        todo := todo - {key};
      }
    }

    method BulkReloadGroup(g: int)
      requires g < numOffloadGroup
      requires g in groupOffloadMapping && AllHost(groupOffloadMapping[g])
      requires forall tag :: tag in tagToState && tag.group == g && tagToState[tag].Moved? ==>
                 && tagToState[tag].key in groupOffloadMapping[g]
                 && |groupOffloadMapping[g][tagToState[tag].key].tensor.data| == Numel(tagToState[tag].shape)
      requires MovedOf(tagToState, g) !! streams.unseen // the host copies read are complete
      modifies this`tagToState, this`groupOffloadMapping, this`streams
      ensures streams == IssueInward(old(streams), MovedOf(old(tagToState), g))
      ensures groupOffloadMapping == old(groupOffloadMapping) - {g}
      ensures Reloaded(old(tagToState), tagToState, g, old(groupOffloadMapping)[g])
    {
      ghost var was, copies := tagToState, groupOffloadMapping[g];
      var mapping := groupOffloadMapping[g];
      groupOffloadMapping := groupOffloadMapping - {g};
      streams := IssueInward(streams, MovedOf(was, g));
      mapping := CopyIn(mapping);
      var todo := tagToState.Keys;
      while todo != {}
        modifies this`tagToState
        invariant todo <= was.Keys && tagToState.Keys == was.Keys
        invariant forall tag :: tag in was && (tag in todo || tag.group != g) ==> tagToState[tag] == was[tag]
        invariant forall tag :: tag in was && tag !in todo && tag.group == g ==>
                    BroughtBack(tagToState[tag], was[tag], copies)
      {
        var tag :| tag in todo;
        var state := tagToState[tag];
        if tag.group == g && !state.OnDevice? {
          var tensor := mapping[state.key].tensor;
          assert |tensor.data| == Numel(state.shape); // view(shape) does not fail
          tagToState := tagToState[tag := OnDevice(tensor.(shape := state.shape))];
        }
        todo := todo - {tag};
      }
    }

    // ------------------------------------------------------------------------
    // The calls made by the hooks
    // ------------------------------------------------------------------------

    /** Records a tensor under the next tag of the current group. */
    method Record(tensor: Tensor) returns (tag: Tag)
      requires Tag(currentGroup, tensorCount) !in tagToState // the program's own assertion
      modifies this`tensorCount, this`tagToState, this`tagToBuf, this`pushed, this`streams
      ensures streams == Computed(old(streams), tag)
      ensures tag == Tag(old(currentGroup), old(tensorCount))
      ensures View() == Push(old(View()), tensor)
    {
      tag := Tag(currentGroup, tensorCount);
      tensorCount := tensorCount + 1;
      tagToState := tagToState[tag := OnDevice(tensor)];
      if currentGroup < numOffloadGroup {
        tagToBuf := tagToBuf[tag := Some(tensor)];
      }
      pushed := pushed[tag := tensor];
      streams := Computed(streams, tag);
    }

    /** A tensor saved while the current group's layer runs forward. */
    method TensorPush(tensor: Tensor, needOffload: bool) returns (handle: Handle)
      requires Valid() && forward && WellFormed(tensor)
      requires needOffload ==> Agrees(View(), tensor)
      modifies this`tensorCount, this`tagToState, this`tagToBuf, this`pushed, this`streams
      ensures Valid()
      ensures needOffload ==>
                && handle == Tagged(Tag(currentGroup, old(tensorCount))) && handle.tag !in old(pushed)
                && View() == Push(old(View()), tensor)
      ensures !needOffload ==> handle == Untouched(tensor) && View() == old(View())
    {
      if !needOffload {
        return Untouched(tensor);
      }
      PushOk(View(), tensor);
      PushSynced(View(), tensor, streams);
      var tag := Record(tensor);
      handle := Tagged(tag);
    }

    /** Takes a tag out of the dictionaries. */
    method Remove(tag: Tag) returns (tensor: Tensor)
      requires tag in tagToState && tagToState[tag].OnDevice? // the program's own assertions
      requires tag !in streams.inward // its copy is complete
      modifies this`tagToState, this`tagToBuf, this`pushed, this`forward
      ensures tensor == old(tagToState)[tag].tensor
      ensures View() == Pop(old(View()), tag)
    {
      var state := tagToState[tag];
      tagToState := tagToState - {tag};
      tagToBuf := tagToBuf - {tag};
      pushed := pushed - {tag};
      tensor := state.tensor;
      forward := EndPass(View()).forward;
    }

    /** Gives back, with its elements, what was pushed under a handle whose layer is running
        backward. */
    method TensorPop(handle: Handle) returns (tensor: Tensor)
      requires Valid()
      requires handle.Tagged? ==> !forward && handle.tag in pushed && handle.tag.group == currentGroup
      modifies this`tagToState, this`tagToBuf, this`pushed, this`forward
      ensures Valid()
      ensures handle.Untouched? ==> tensor == handle.tensor && View() == old(View())
      ensures handle.Tagged? ==> SameValue(tensor, old(pushed)[handle.tag]) && View() == Pop(old(View()), handle.tag)
      ensures handle.Tagged? && currentGroup == 0 && pushed == map[] ==> AtRest(View())
    {
      if handle.Untouched? {
        return handle.tensor;
      }
      PopFindsTensor(View(), handle.tag);
      PopSettled(View(), streams, handle.tag);
      PopOk(View(), handle.tag);
      PopSynced(View(), handle.tag, streams);
      tensor := Remove(handle.tag);
    }

    /** Drops the buffer references of a group. */
    method FreeBufs(k: int)
      requires forall tag :: tag in tagToBuf && tag.group == k ==> tag !in streams.outward // no copy reads it
      modifies this`tagToBuf
      ensures tagToBuf == Freed(old(tagToBuf), k)
    {
      ghost var was := tagToBuf;
      var todo := tagToBuf.Keys;
      while todo != {}
        invariant todo <= was.Keys == tagToBuf.Keys
        invariant forall tag :: tag in was ==>
                    tagToBuf[tag] == if tag !in todo && tag.group == k then None else was[tag]
      {
        var tag :| tag in todo;
        if tag.group == k {
          tagToBuf := tagToBuf[tag := None];
        }
        todo := todo - {tag};
      }
    }

    /** For the first group, the copy starts at its own commit. */
    method KickstartOffload() returns (ghost m0: Mapping)
      requires currentGroup == 0 ==> GroupOnDevice(tagToState, 0)
      modifies this`tagToState, this`groupOffloadMapping, this`streams
      ensures currentGroup == 0 ==> HoldsGroup(old(tagToState), 0, m0)
      ensures View() == Kickstart(old(View()), m0)
      ensures streams == KickstartStreams(old(View()), old(streams))
    {
      m0 := map[];
      if currentGroup == 0 {
        streams := OutwardWaits(streams);
        BulkOffloadGroup(0);
        m0 := groupOffloadMapping[0];
      }
    }

    /** A window has ended: free its group, start on the next one. */
    method EndWindow() returns (ghost m1: Mapping)
      requires offloadedGroupCount == live
      requires live < numOffloadGroup - 1 ==> GroupOnDevice(tagToState, live + 1)
      modifies this`tagToState, this`tagToBuf, this`groupOffloadMapping, this`offloadedGroupCount, this`live
      modifies this`streams
      ensures tagToBuf == Freed(old(tagToBuf), old(live)) && live == offloadedGroupCount == old(live) + 1
      ensures old(live) < numOffloadGroup - 1 ==>
                && HoldsGroup(old(tagToState), live, m1) && tagToState == MovedStates(old(tagToState), live)
                && groupOffloadMapping == old(groupOffloadMapping)[live := m1]
                && streams == IssueOutward(ComputeWaitsOutward(OutwardWaits(old(streams))),
                                           TagsOf(old(tagToState).Keys, live))
      ensures old(live) >= numOffloadGroup - 1 ==>
                && tagToState == old(tagToState) && groupOffloadMapping == old(groupOffloadMapping)
                && streams == ComputeWaitsOutward(OutwardWaits(old(streams)))
    {
      m1 := map[];
      streams := ComputeWaitsOutward(OutwardWaits(streams));
      FreeBufs(offloadedGroupCount);
      if offloadedGroupCount < numOffloadGroup - 1 {
        BulkOffloadGroup(offloadedGroupCount + 1);
        m1 := groupOffloadMapping[offloadedGroupCount + 1];
      }
      offloadedGroupCount := offloadedGroupCount + 1;
      live := live + 1;
    }

    /** The second step of a forward commit. */
    method SlideWindow() returns (ghost m1: Mapping)
      requires offloadedGroupCount == live && live in layerWindowMap
      requires live < numOffloadGroup - 1 ==> GroupOnDevice(tagToState, live + 1)
      modifies this`tagToState, this`tagToBuf, this`groupOffloadMapping, this`offloadedGroupCount, this`live
      modifies this`streams
      ensures WindowEnds(old(View())) && old(live) < numOffloadGroup - 1 ==>
                HoldsGroup(old(tagToState), old(live) + 1, m1)
      ensures View() == Slide(old(View()), m1)
      ensures streams == SlideStreams(old(View()), old(streams))
    {
      m1 := map[];
      if layerWindowMap[offloadedGroupCount] == currentGroup {
        m1 := EndWindow();
      }
    }

    /** The base class's commit: on to the next group. */
    method NextGroup()
      modifies this`currentGroup, this`tensorCount, this`forward
      ensures View() == Advance(old(View()))
    {
      currentGroup := currentGroup + 1;
      tensorCount := 0;
      forward := currentGroup < numLayers;
    }

    /** The steps of a forward commit. */
    method Commit() returns (ghost m0: Mapping, ghost m1: Mapping)
      requires CommitReady(View())
      modifies this
      ensures MappingsFit(old(View()), m0, m1)
      ensures View() == CommitForward(old(View()), m0, m1)
      ensures streams == CommitStreams(old(View()), old(streams))
    {
      ghost var f, s0 := View(), streams;
      m0 := KickstartOffload();
      ghost var k := View();
      StillReady(f, m0, k);
      m1 := SlideWindow();
      ghost var s := View();
      NextGroup();
      CommitIs(f, k, s, View(), m0, m1);
      CommitStreamsIs(f, k, m0, s0);
    }

    /** The layer of the current group has run forward. */
    method OnGroupCommitForward() returns (ghost m0: Mapping, ghost m1: Mapping)
      requires Valid() && forward
      modifies this
      ensures Valid()
      ensures MappingsFit(old(View()), m0, m1) && View() == CommitForward(old(View()), m0, m1)
    {
      ghost var f := View();
      CommitPossible(f);
      ghost var s := streams;
      m0, m1 := Commit();
      CommitForwardOk(f, m0, m1);
      CommitKeeps(f, m0, m1);
      CommitForwardSynced(f, View(), s);
    }

    /** A group's window is reached again: bring the group back. */
    method BringBack()
      requires ReloadReady(View()) && live <= numOffloadGroup && InwardWaits(streams).unseen == {}
      modifies this`tagToState, this`groupOffloadMapping, this`offloadedGroupCount, this`live, this`streams
      ensures live == old(live) - 1 && old(live) - 1 in old(groupOffloadMapping)
      ensures Reloaded(old(tagToState), tagToState, live, old(groupOffloadMapping)[live])
      ensures groupOffloadMapping == old(groupOffloadMapping) - {live}
      ensures offloadedGroupCount == if old(offloadedGroupCount) > 1 then old(offloadedGroupCount) - 1
                                     else old(offloadedGroupCount)
      ensures streams == IssueInward(ComputeWaitsInward(InwardWaits(old(streams))), MovedOf(old(tagToState), live))
    {
      streams := ComputeWaitsInward(InwardWaits(streams));
      BulkReloadGroup(offloadedGroupCount - 1);
      offloadedGroupCount := offloadedGroupCount - if offloadedGroupCount > 1 then 1 else 0;
      live := live - 1;
    }

    method StepBack() returns (ghost after: States)
      requires currentGroup > 0 && offloadedGroupCount - 1 in layerWindowMap
      requires layerWindowMap[offloadedGroupCount - 1] == currentGroup - 1 <==> ReloadDue(View())
      requires ReloadDue(View()) ==> ReloadReady(View())
      requires InwardWaits(streams).unseen == {}
      modifies this`currentGroup, this`tagToState, this`groupOffloadMapping, this`offloadedGroupCount, this`live
      modifies this`streams
      ensures ReloadDue(old(View())) ==> ReloadedIn(old(View()), after)
      ensures View() == Retreat(old(View()), after)
      ensures streams == RetreatStreams(old(View()), old(streams))
    {
      currentGroup := currentGroup - 1;
      assert currentGroup >= 0; // the program's own assertion
      if layerWindowMap[offloadedGroupCount - 1] == currentGroup {
        BringBack();
      }
      after := tagToState;
      if currentGroup == 0 {
        streams := ComputeWaitsInward(streams);
        offloadedGroupCount := 0;
      }
    }

    ghost method FlipIfDone()
      modifies this`forward
      ensures View() == EndPass(old(View()))
    {
      forward := EndPass(View()).forward;
    }

    /** The steps of a backward commit. */
    method Uncommit() returns (ghost after: States)
      requires currentGroup > 0 && offloadedGroupCount - 1 in layerWindowMap
      requires layerWindowMap[offloadedGroupCount - 1] == currentGroup - 1 <==> ReloadDue(View())
      requires ReloadDue(View()) ==> ReloadReady(View())
      requires InwardWaits(streams).unseen == {}
      modifies this
      ensures ReloadDue(old(View())) ==> ReloadedIn(old(View()), after)
      ensures View() == CommitBackward(old(View()), after)
      ensures streams == RetreatStreams(old(View()), old(streams))
    {
      ghost var f := View();
      after := StepBack();
      ghost var r := View();
      FlipIfDone();
      UncommitIs(f, r, View(), after);
    }

    /** The layers after the current group have run backward. */
    method OnGroupCommitBackward() returns (ghost after: States)
      requires Valid() && !forward && currentGroup > 0 && LayerDone(View())
      modifies this
      ensures Valid()
      ensures View() == CommitBackward(old(View()), after)
      ensures currentGroup == 0 && pushed == map[] ==> AtRest(View())
    {
      ghost var f := View();
      ghost var s := streams;
      ReloadPossible(f);
      ReloadSettled(f, s);
      after := Uncommit();
      CommitBackwardOk(f, after);
      CommitBackwardSynced(f, after, s);
    }
  }
}
