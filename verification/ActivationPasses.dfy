/** Whole training passes over the handler, in the order the autograd hooks produce: every
    layer's pushes and its forward commit, then, last layer first, its backward commit and its
    pops, which may come in any order within the layer. */
module ActivationPasses {
  import opened ActivationHandler
  import opened ActivationOffload
  import opened ActivationStreams

  /** A tensor a layer saves, and whether the handler is asked to offload it. */
  datatype Activation = Activation(tensor: Tensor, offload: bool)

  type Layer = seq<Activation>

  /** Offloaded tensors of the layer that share storage have the same elements. */
  ghost predicate LayerOk(layer: Layer) {
    && (forall i :: 0 <= i < |layer| ==> WellFormed(layer[i].tensor))
    && (forall i, j :: 0 <= i < |layer| && 0 <= j < |layer| && layer[i].offload && layer[j].offload
                       && layer[i].tensor.key == layer[j].tensor.key
                       ==> layer[i].tensor.data == layer[j].tensor.data)
  }

  /** The handles of a layer whose positions are in left stand for its tensors, and for nothing
      else in its group. */
  ghost predicate HandlesOk(pushed: map<Tag, Tensor>, g: int, layer: Layer, handles: seq<Handle>, left: set<nat>) {
    && |handles| <= |layer|
    && (forall i :: i in left ==>
          && i < |handles|
          && if layer[i].offload
             then handles[i].Tagged? && handles[i].tag in pushed && handles[i].tag.group == g
                  && pushed[handles[i].tag] == layer[i].tensor
             else handles[i] == Untouched(layer[i].tensor))
    && (forall i, j :: i in left && j in left && i != j && handles[i].Tagged? && handles[j].Tagged?
                       ==> handles[i].tag != handles[j].tag)
    && (forall tag :: tag in pushed && tag.group == g ==> exists i :: i in left && handles[i] == Tagged(tag))
  }

  function UpTo(n: nat): (s: set<nat>)
    ensures forall i: nat :: i in s <==> i < n
  {
    if n == 0 then {} else UpTo(n - 1) + {n - 1}
  }

  /** The pushed tensors of earlier groups are left alone. */
  ghost predicate SameBelow(before: map<Tag, Tensor>, after: map<Tag, Tensor>, g: int) {
    forall tag: Tag :: tag.group < g ==>
      (tag in before <==> tag in after) && (tag in before ==> before[tag] == after[tag])
  }

  lemma HandlesPush(pushed: map<Tag, Tensor>, g: int, layer: Layer, handles: seq<Handle>, left: set<nat>, h: Handle,
                    pushed': map<Tag, Tensor>)
    requires |handles| < |layer| && HandlesOk(pushed, g, layer, handles, left)
    requires var a := layer[|handles|];
             if a.offload
             then h.Tagged? && h.tag.group == g && h.tag !in pushed && pushed' == pushed[h.tag := a.tensor]
             else h == Untouched(a.tensor) && pushed' == pushed
    ensures HandlesOk(pushed', g, layer, handles + [h], left + {|handles|})
    ensures SameBelow(pushed, pushed', g)
  {
    var after, left' := handles + [h], left + {|handles|};
    forall tag | tag in pushed' && tag.group == g
      ensures exists i :: i in left' && after[i] == Tagged(tag)
    {
      if tag in pushed {
        var i :| i in left && handles[i] == Tagged(tag);
        assert i in left' && after[i] == Tagged(tag);
      } else {
        assert |handles| in left' && after[|handles|] == Tagged(tag);
      }
    }
  }

  lemma AgreesInLayer(f: Fields, layer: Layer, handles: seq<Handle>, i: nat)
    requires LayerOk(layer) && i < |layer| && layer[i].offload
    requires HandlesOk(f.pushed, f.g, layer, handles, UpTo(|handles|))
    ensures Agrees(f, layer[i].tensor)
  {
    forall a | a in f.pushed && a.group == f.g && f.pushed[a].key == layer[i].tensor.key
      ensures f.pushed[a].data == layer[i].tensor.data
    {
      var j :| j in UpTo(|handles|) && handles[j] == Tagged(a);
      assert f.pushed[a] == layer[j].tensor && layer[j].offload;
    }
  }

  method Save(h: Handler, a: Activation) returns (handle: Handle)
    requires h.Valid() && h.forward && WellFormed(a.tensor) && (a.offload ==> Agrees(h.View(), a.tensor))
    modifies h
    ensures h.Valid() && h.forward && h.currentGroup == old(h.currentGroup)
    ensures if a.offload
            then handle.Tagged? && handle.tag.group == h.currentGroup && handle.tag !in old(h.pushed)
                 && h.pushed == old(h.pushed)[handle.tag := a.tensor]
            else handle == Untouched(a.tensor) && h.pushed == old(h.pushed)
  {
    handle := h.TensorPush(a.tensor, a.offload);
  }

  method SaveOne(h: Handler, layer: Layer, handles: seq<Handle>) returns (handles': seq<Handle>)
    requires h.Valid() && h.forward && LayerOk(layer) && |handles| < |layer|
    requires HandlesOk(h.pushed, h.currentGroup, layer, handles, UpTo(|handles|))
    modifies h
    ensures h.Valid() && h.forward && h.currentGroup == old(h.currentGroup)
    ensures |handles'| == |handles| + 1 && HandlesOk(h.pushed, h.currentGroup, layer, handles', UpTo(|handles'|))
    ensures SameBelow(old(h.pushed), h.pushed, h.currentGroup)
  {
    if layer[|handles|].offload {
      AgreesInLayer(h.View(), layer, handles, |handles|);
    }
    var handle := Save(h, layer[|handles|]);
    HandlesPush(old(h.pushed), h.currentGroup, layer, handles, UpTo(|handles|), handle, h.pushed);
    handles' := handles + [handle];
  }

  ghost predicate NoneIn(pushed: map<Tag, Tensor>, g: int) {
    forall tag :: tag in pushed ==> tag.group != g
  }

  /** One layer's forward: what it saves, in order. */
  method ForwardLayer(h: Handler, layer: Layer) returns (handles: seq<Handle>)
    requires h.Valid() && h.forward && NoneIn(h.pushed, h.currentGroup) && LayerOk(layer)
    modifies h
    ensures h.Valid() && h.forward && h.currentGroup == old(h.currentGroup)
    ensures |handles| == |layer| && HandlesOk(h.pushed, h.currentGroup, layer, handles, UpTo(|layer|))
    ensures SameBelow(old(h.pushed), h.pushed, h.currentGroup)
  {
    handles := [];
    while |handles| < |layer|
      invariant h.Valid() && h.forward && h.currentGroup == old(h.currentGroup)
      invariant |handles| <= |layer| && HandlesOk(h.pushed, h.currentGroup, layer, handles, UpTo(|handles|))
      invariant SameBelow(old(h.pushed), h.pushed, h.currentGroup)
    {
      handles := SaveOne(h, layer, handles);
    }
  }

  lemma HandlesPop(pushed: map<Tag, Tensor>, g: int, layer: Layer, handles: seq<Handle>, left: set<nat>, i: nat,
                   pushed': map<Tag, Tensor>)
    requires i in left && HandlesOk(pushed, g, layer, handles, left)
    requires pushed' == if handles[i].Tagged? then pushed - {handles[i].tag} else pushed
    ensures HandlesOk(pushed', g, layer, handles, left - {i})
    ensures SameBelow(pushed, pushed', g)
  {
    forall tag | tag in pushed' && tag.group == g
      ensures exists j :: j in left - {i} && handles[j] == Tagged(tag)
    {
      var j :| j in left && handles[j] == Tagged(tag);
      assert j in left - {i};
    }
  }

  /** The backward half of a pass: it is over just when the first layer is done and everything
      has been popped, and then the handler is as it was constructed. */
  ghost predicate Backward(f: Fields) {
    && (f.forward <==> f.g == 0 && f.pushed == map[])
    && (f.forward ==> AtRest(f))
  }

  lemma PopIsBackward(f: Fields, tag: Tag)
    requires Ok(f) && !f.forward
    ensures Backward(Pop(f, tag)) && Pop(f, tag).g == f.g && Pop(f, tag).pushed == f.pushed - {tag}
  {
    PopOk(f, tag);
  }

  method RestoreOne(h: Handler, layer: Layer, handles: seq<Handle>, ghost left: set<nat>, i: nat)
    returns (tensor: Tensor)
    requires h.Valid() && Backward(h.View()) && i in left && HandlesOk(h.pushed, h.currentGroup, layer, handles, left)
    modifies h
    ensures h.Valid() && Backward(h.View()) && h.currentGroup == old(h.currentGroup)
    ensures SameValue(tensor, layer[i].tensor)
    ensures HandlesOk(h.pushed, h.currentGroup, layer, handles, left - {i})
    ensures SameBelow(old(h.pushed), h.pushed, h.currentGroup)
  {
    HandlesPop(h.pushed, h.currentGroup, layer, handles, left, i,
               if handles[i].Tagged? then h.pushed - {handles[i].tag} else h.pushed);
    if handles[i].Tagged? {
      PopIsBackward(h.View(), handles[i].tag);
    }
    tensor := h.TensorPop(handles[i]);
  }

  /** An order in which to ask for n saved tensors: each position once. */
  ghost predicate IsOrder(order: seq<nat>, n: nat) {
    && (forall i: nat :: i in order <==> i < n)
    && forall j, k :: 0 <= j < k < |order| ==> order[j] != order[k]
  }

  /** Every tensor equals the one that was saved at the position asked for. */
  ghost predicate Restored(layer: Layer, order: seq<nat>, tensors: seq<Tensor>) {
    && |tensors| == |order|
    && forall j :: 0 <= j < |order| ==> order[j] < |layer| && SameValue(tensors[j], layer[order[j]].tensor)
  }

  /** The positions still to be asked for. */
  function Rest(order: seq<nat>, j: nat): set<nat>
    requires j <= |order|
  {
    set i | i in order[j..]
  }

  /** The first positions of the order have been asked for and their tensors restored. */
  ghost predicate Midway(before: map<Tag, Tensor>, pushed: map<Tag, Tensor>, g: int, layer: Layer,
                         handles: seq<Handle>, order: seq<nat>, tensors: seq<Tensor>)
  {
    && IsOrder(order, |layer|) && |tensors| <= |order|
    && HandlesOk(pushed, g, layer, handles, Rest(order, |tensors|))
    && SameBelow(before, pushed, g)
    && Restored(layer, order[..|tensors|], tensors)
  }

  lemma RestSteps(order: seq<nat>, n: nat, j: nat)
    requires IsOrder(order, n) && j < |order|
    ensures order[j] in Rest(order, j) && Rest(order, j + 1) == Rest(order, j) - {order[j]}
  {
    assert order[j..] == [order[j]] + order[j + 1..];
    assert order[j] !in order[j + 1..];
  }

  lemma MidwaySteps(before: map<Tag, Tensor>, pushed: map<Tag, Tensor>, pushed': map<Tag, Tensor>, g: int, layer: Layer,
                    handles: seq<Handle>, order: seq<nat>, tensors: seq<Tensor>, t: Tensor)
    requires |tensors| < |order| && Midway(before, pushed, g, layer, handles, order, tensors)
    requires order[|tensors|] < |layer| && SameValue(t, layer[order[|tensors|]].tensor)
    requires HandlesOk(pushed', g, layer, handles, Rest(order, |tensors|) - {order[|tensors|]})
    requires SameBelow(pushed, pushed', g)
    ensures Midway(before, pushed', g, layer, handles, order, tensors + [t])
  {
    RestSteps(order, |layer|, |tensors|);
  }

  method RestoreStep(h: Handler, ghost before: map<Tag, Tensor>, layer: Layer, handles: seq<Handle>, order: seq<nat>,
                     tensors: seq<Tensor>)
    returns (tensors': seq<Tensor>)
    requires h.Valid() && Backward(h.View()) && |tensors| < |order|
    requires Midway(before, h.pushed, h.currentGroup, layer, handles, order, tensors)
    modifies h
    ensures h.Valid() && Backward(h.View()) && h.currentGroup == old(h.currentGroup)
    ensures |tensors'| == |tensors| + 1 && Midway(before, h.pushed, h.currentGroup, layer, handles, order, tensors')
  {
    ghost var was := h.pushed;
    RestSteps(order, |layer|, |tensors|);
    var tensor := RestoreOne(h, layer, handles, Rest(order, |tensors|), order[|tensors|]);
    MidwaySteps(before, was, h.pushed, h.currentGroup, layer, handles, order, tensors, tensor);
    tensors' := tensors + [tensor];
  }

  lemma MidwayStarts(pushed: map<Tag, Tensor>, g: int, layer: Layer, handles: seq<Handle>, order: seq<nat>)
    requires HandlesOk(pushed, g, layer, handles, UpTo(|layer|)) && IsOrder(order, |layer|)
    ensures Midway(pushed, pushed, g, layer, handles, order, [])
  {
    assert Rest(order, 0) == UpTo(|layer|);
  }

  lemma MidwayEnds(before: map<Tag, Tensor>, pushed: map<Tag, Tensor>, g: int, layer: Layer,
                   handles: seq<Handle>, order: seq<nat>, tensors: seq<Tensor>)
    requires |tensors| == |order| && Midway(before, pushed, g, layer, handles, order, tensors)
    ensures NoneIn(pushed, g) && SameBelow(before, pushed, g) && Restored(layer, order, tensors)
  {
    assert order[..|tensors|] == order;
    assert Rest(order, |tensors|) == {};
  }

  /** One layer's backward: it asks for what it saved, in whatever order. */
  method BackwardLayer(h: Handler, layer: Layer, handles: seq<Handle>, order: seq<nat>) returns (tensors: seq<Tensor>)
    requires h.Valid() && Backward(h.View()) && IsOrder(order, |layer|)
    requires HandlesOk(h.pushed, h.currentGroup, layer, handles, UpTo(|layer|))
    modifies h
    ensures h.Valid() && Backward(h.View()) && h.currentGroup == old(h.currentGroup)
    ensures NoneIn(h.pushed, h.currentGroup) && SameBelow(old(h.pushed), h.pushed, h.currentGroup)
    ensures Restored(layer, order, tensors)
  {
    MidwayStarts(h.pushed, h.currentGroup, layer, handles, order);
    tensors := [];
    while |tensors| < |order|
      invariant |tensors| <= |order|
      invariant h.Valid() && Backward(h.View()) && h.currentGroup == old(h.currentGroup)
      invariant Midway(old(h.pushed), h.pushed, h.currentGroup, layer, handles, order, tensors)
    {
      tensors := RestoreStep(h, old(h.pushed), layer, handles, order, tensors);
    }
    MidwayEnds(old(h.pushed), h.pushed, h.currentGroup, layer, handles, order, tensors);
  }

  /** The layers before g are waiting with their handles. */
  ghost predicate Waiting(pushed: map<Tag, Tensor>, layers: seq<Layer>, handles: seq<seq<Handle>>, g: int) {
    && 0 <= g <= |handles| <= |layers|
    && forall k :: 0 <= k < g ==>
         HandlesOk(pushed, k, layers[k], handles[k], UpTo(|layers[k]|))
  }

  lemma HandlesBelow(before: map<Tag, Tensor>, after: map<Tag, Tensor>, g: int, k: int, layer: Layer,
                     handles: seq<Handle>, left: set<nat>)
    requires k < g && SameBelow(before, after, g) && HandlesOk(before, k, layer, handles, left)
    ensures HandlesOk(after, k, layer, handles, left)
  {
    forall tag | tag in after && tag.group == k
      ensures exists i :: i in left && handles[i] == Tagged(tag)
    {
      assert tag in before;
    }
  }

  lemma StillWaiting(before: map<Tag, Tensor>, after: map<Tag, Tensor>, layers: seq<Layer>,
                     handles: seq<seq<Handle>>, g: int)
    requires Waiting(before, layers, handles, g) && SameBelow(before, after, g)
    ensures Waiting(after, layers, handles, g)
  {
    forall k | 0 <= k < g
      ensures HandlesOk(after, k, layers[k], handles[k], UpTo(|layers[k]|))
    {
      HandlesBelow(before, after, g, k, layers[k], handles[k], UpTo(|layers[k]|));
    }
  }

  lemma KickstartFrame(f: Fields, m0: Mapping)
    ensures var h := Kickstart(f, m0); h.pushed == f.pushed && h.g == f.g && h.layers == f.layers
  {
  }

  lemma SlideKeeps(f: Fields, m1: Mapping)
    ensures var h := Slide(f, m1); h.pushed == f.pushed && h.g == f.g && h.layers == f.layers
  {
  }

  lemma CommitForwardFrame(f: Fields, m0: Mapping, m1: Mapping, h: Fields)
    requires h == CommitForward(f, m0, m1)
    ensures h.pushed == f.pushed && h.g == f.g + 1 && h.count == 0 && (h.forward <==> f.g + 1 < f.layers)
  {
    KickstartFrame(f, m0);
    SlideKeeps(Kickstart(f, m0), m1);
  }

  lemma RetreatFrame(f: Fields, after: States)
    ensures var h := Retreat(f, after); h.pushed == f.pushed && h.g == f.g - 1 && h.forward == f.forward
  {
  }

  lemma CommitBackwardFrame(f: Fields, after: States, h: Fields)
    requires h == CommitBackward(f, after) && !f.forward && (h.g == 0 && h.pushed == map[] ==> AtRest(h))
    ensures h.pushed == f.pushed && h.g == f.g - 1 && Backward(h)
  {
    RetreatFrame(f, after);
  }

  lemma NoneAhead(f: Fields)
    requires Ok(f) && f.forward && f.count == 0
    ensures NoneIn(f.pushed, f.g)
  {
  }

  lemma AllDoneBefore(f: Fields)
    requires Ok(f) && Backward(f) && NoneIn(f.pushed, f.g)
    ensures LayerDone(f)
  {
  }

  lemma ForwardDone(f: Fields, h: Fields)
    requires Ok(f) && f.forward && h.pushed == f.pushed && h.g == f.g + 1
    ensures LayerDone(h)
  {
  }

  method CommitLayer(h: Handler)
    requires h.Valid() && h.forward
    modifies h
    ensures h.Valid() && h.pushed == old(h.pushed) && h.currentGroup == old(h.currentGroup) + 1
    ensures h.tensorCount == 0 && (h.forward <==> h.currentGroup < h.numLayers) && LayerDone(h.View())
  {
    ghost var f := h.View();
    ghost var m0, m1 := h.OnGroupCommitForward();
    CommitForwardFrame(f, m0, m1, h.View());
    ForwardDone(f, h.View());
  }

  method UncommitLayer(h: Handler)
    requires h.Valid() && !h.forward && h.currentGroup > 0 && LayerDone(h.View())
    modifies h
    ensures h.Valid() && h.pushed == old(h.pushed) && h.currentGroup == old(h.currentGroup) - 1
    ensures Backward(h.View())
  {
    ghost var f := h.View();
    ghost var after := h.OnGroupCommitBackward();
    CommitBackwardFrame(f, after, h.View());
  }

  /** One layer of the forward pass. */
  method ForwardOne(h: Handler, layers: seq<Layer>, handles: seq<seq<Handle>>) returns (handles': seq<seq<Handle>>)
    requires h.Valid() && h.forward && h.tensorCount == 0 && h.currentGroup == |handles| < |layers|
    requires LayerOk(layers[|handles|]) && Waiting(h.pushed, layers, handles, |handles|)
    modifies h
    ensures h.Valid() && h.currentGroup == |handles'| == |handles| + 1 && h.tensorCount == 0
    ensures (h.forward <==> h.currentGroup < h.numLayers) && LayerDone(h.View())
    ensures Waiting(h.pushed, layers, handles', |handles'|)
  {
    NoneAhead(h.View());
    ghost var before := h.pushed;
    var hs := ForwardLayer(h, layers[|handles|]);
    StillWaiting(before, h.pushed, layers, handles, |handles|);
    MoreWaiting(h.pushed, layers, handles, hs);
    CommitLayer(h);
    handles' := handles + [hs];
  }

  lemma MoreWaiting(pushed: map<Tag, Tensor>, layers: seq<Layer>, handles: seq<seq<Handle>>, hs: seq<Handle>)
    requires |handles| < |layers| && Waiting(pushed, layers, handles, |handles|)
    requires HandlesOk(pushed, |handles|, layers[|handles|], hs, UpTo(|layers[|handles|]|))
    ensures Waiting(pushed, layers, handles + [hs], |handles| + 1)
  {
  }

  method ForwardPass(h: Handler, layers: seq<Layer>) returns (handles: seq<seq<Handle>>)
    requires h.Valid() && AtRest(h.View()) && |layers| == h.numLayers > 0
    requires forall k :: 0 <= k < |layers| ==> LayerOk(layers[k])
    modifies h
    ensures h.Valid() && !h.forward && h.currentGroup == |layers| && LayerDone(h.View())
    ensures |handles| == |layers| && Waiting(h.pushed, layers, handles, |layers|)
  {
    handles := [];
    while |handles| < |layers|
      invariant h.Valid() && h.currentGroup == |handles| <= |layers| && h.tensorCount == 0
      invariant (h.forward <==> |handles| < |layers|) && (handles != [] ==> LayerDone(h.View()))
      invariant Waiting(h.pushed, layers, handles, |handles|)
    {
      handles := ForwardOne(h, layers, handles);
    }
  }

  ghost predicate AreOrders(orders: seq<seq<nat>>, layers: seq<Layer>) {
    |orders| == |layers| && forall k :: 0 <= k < |layers| ==> IsOrder(orders[k], |layers[k]|)
  }

  /** Every layer got its own tensors back. */
  ghost predicate PassRestored(layers: seq<Layer>, orders: seq<seq<nat>>, tensors: seq<seq<Tensor>>) {
    |tensors| == |orders| == |layers| && forall k :: 0 <= k < |layers| ==> Restored(layers[k], orders[k], tensors[k])
  }

  lemma RestoredOneMore(layers: seq<Layer>, orders: seq<seq<nat>>, k: nat, ts: seq<Tensor>, tensors: seq<seq<Tensor>>)
    requires k < |layers| == |orders| && Restored(layers[k], orders[k], ts)
    requires PassRestored(layers[k + 1..], orders[k + 1..], tensors)
    ensures PassRestored(layers[k..], orders[k..], [ts] + tensors)
  {
    assert layers[k..] == [layers[k]] + layers[k + 1..] && orders[k..] == [orders[k]] + orders[k + 1..];
  }

  /** One layer of the backward pass. */
  method BackwardOne(h: Handler, layers: seq<Layer>, handles: seq<seq<Handle>>, order: seq<nat>, k: nat)
    returns (tensors: seq<Tensor>)
    requires h.Valid() && !h.forward && h.currentGroup == k + 1 && LayerDone(h.View())
    requires |layers| == |handles| && Waiting(h.pushed, layers, handles, k + 1) && IsOrder(order, |layers[k]|)
    modifies h
    ensures h.Valid() && Backward(h.View()) && h.currentGroup == k && LayerDone(h.View())
    ensures Waiting(h.pushed, layers, handles, k)
    ensures Restored(layers[k], order, tensors)
  {
    UncommitLayer(h);
    ghost var before := h.pushed;
    tensors := BackwardLayer(h, layers[k], handles[k], order);
    StillWaiting(before, h.pushed, layers, handles, k);
    AllDoneBefore(h.View());
  }

  method BackwardPass(h: Handler, layers: seq<Layer>, handles: seq<seq<Handle>>, orders: seq<seq<nat>>)
    returns (tensors: seq<seq<Tensor>>)
    requires h.Valid() && !h.forward && h.currentGroup == |layers| == |handles| && LayerDone(h.View())
    requires |layers| > 0 && Waiting(h.pushed, layers, handles, |layers|) && AreOrders(orders, layers)
    modifies h
    ensures h.Valid() && AtRest(h.View())
    ensures PassRestored(layers, orders, tensors)
  {
    tensors := [];
    for k := |layers| downto 0
      invariant h.Valid() && Backward(h.View()) && h.currentGroup == k && LayerDone(h.View())
      invariant Waiting(h.pushed, layers, handles, k)
      invariant PassRestored(layers[k..], orders[k..], tensors)
    {
      var ts := BackwardOne(h, layers, handles, orders[k], k);
      RestoredOneMore(layers, orders, k, ts, tensors);
      tensors := [ts] + tensors;
    }
    NothingLeft(h.View());
    assert layers[0..] == layers && orders[0..] == orders;
  }

  lemma NothingLeft(f: Fields)
    requires Ok(f) && Backward(f) && f.g == 0 && LayerDone(f)
    ensures AtRest(f)
  {
    assert forall tag :: tag !in f.pushed;
  }

  /** A pass gives every layer its own tensors back, whatever the order within each layer, and
      leaves the handler as it was constructed, with its streams in order. */
  method RunPass(h: Handler, layers: seq<Layer>, orders: seq<seq<nat>>) returns (tensors: seq<seq<Tensor>>)
    requires h.Valid() && AtRest(h.View()) && |layers| == h.numLayers > 0
    requires AreOrders(orders, layers) && forall k :: 0 <= k < |layers| ==> LayerOk(layers[k])
    modifies h
    ensures h.Valid() && AtRest(h.View()) && h.streams == QUIET
    ensures PassRestored(layers, orders, tensors)
  {
    var handles := ForwardPass(h, layers);
    tensors := BackwardPass(h, layers, handles, orders);
  }

  /** A pass over a model of that many layers. */
  ghost predicate PassOk(pass: seq<Layer>, orders: seq<seq<nat>>, layers: nat) {
    |pass| == layers && AreOrders(orders, pass) && forall k :: 0 <= k < layers ==> LayerOk(pass[k])
  }

  /** Any number of passes, over any number of layers and offloaded groups, asking for each layer's
      tensors in any order. */
  method Train(n: nat, layers: nat, passes: seq<seq<Layer>>, orders: seq<seq<seq<nat>>>)
    returns (tensors: seq<seq<seq<Tensor>>>)
    requires 0 < n <= layers && |orders| == |passes|
    requires forall p :: 0 <= p < |passes| ==> PassOk(passes[p], orders[p], layers)
    ensures |tensors| == |passes|
    ensures forall p :: 0 <= p < |passes| ==> PassRestored(passes[p], orders[p], tensors[p])
  {
    var h := new Handler(n, layers);
    tensors := [];
    for p := 0 to |passes|
      invariant h.Valid() && AtRest(h.View()) && h.numLayers == layers && fresh(h)
      invariant |tensors| == p
      invariant forall q :: 0 <= q < p ==> PassRestored(passes[q], orders[q], tensors[q])
    {
      assert PassOk(passes[p], orders[p], layers);
      var ts := RunPass(h, passes[p], orders[p]);
      tensors := tensors + [ts];
    }
  }
}
