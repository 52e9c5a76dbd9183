/** The asynchronous activation-offload handler: activations saved during the forward pass are
    copied to the host group by group, and copied back one group ahead during the backward
    pass. A copy takes its values where it is issued; whether it is complete where it is used is
    followed separately, by the streams it runs on. */
module ActivationOffload {
  import opened Shapes

  // --------------------------------------------------------------------------
  // When groups move: the window map
  // --------------------------------------------------------------------------

  function Min(a: int, b: int): int {
    if a <= b then a else b
  }

  /** The layer at whose commit group i stops being needed on the device, when n groups are
      offloaded over layers layers: the first layers % n windows are one layer longer. */
  function Window(n: nat, layers: nat, i: nat): int
    requires n > 0
  {
    layers / n * (i + 1) + Min(i + 1, layers % n) - 1
  }

  /** Neighbouring windows are layers / n apart, or one more. */
  lemma WindowGap(n: nat, layers: nat, i: nat)
    requires 0 < n <= layers
    ensures Window(n, layers, i + 1) == Window(n, layers, i) + layers / n + if i + 1 < layers % n then 1 else 0
    ensures Window(n, layers, i) < Window(n, layers, i + 1)
  {
    var q := layers / n;
    assert q * (i + 2) == q * (i + 1) + q;
    assert q >= 1;
  }

  lemma {:induction false} WindowIncreases(n: nat, layers: nat, i: nat, j: nat)
    requires 0 < n <= layers && i < j
    ensures Window(n, layers, i) < Window(n, layers, j)
  {
    WindowGap(n, layers, j - 1);
    if i < j - 1 {
      WindowIncreases(n, layers, i, j - 1);
    }
  }

  /** No group is given up before its own layer, and the last one goes with the last layer. */
  lemma WindowBounds(n: nat, layers: nat, i: nat)
    requires 0 < n <= layers && i < n
    ensures i <= Window(n, layers, i) <= layers - 1
    ensures Window(n, layers, n - 1) == layers - 1
  {
    var q, r := layers / n, layers % n;
    assert q * (i + 1) >= i + 1 by {
      MultiplyAtLeast(q, i + 1);
    }
    assert q * n + r == layers;
    if i < n - 1 {
      WindowIncreases(n, layers, i, n - 1);
    }
  }

  lemma MultiplyAtLeast(q: int, x: int)
    requires q >= 1 && x >= 0
    ensures q * x >= x
  {
  }

  /** The copy of group i + 1 is issued at the end of window i. It comes after the group has been
      saved, for every group copied that way, exactly when fewer groups are offloaded than there
      are layers, or there is only one group. */
  lemma OffloadsAfterSaving(n: nat, layers: nat)
    requires 0 < n <= layers
    ensures (n < layers || n == 1) <==> forall i :: 0 <= i < n - 1 ==> Window(n, layers, i) >= i + 1
  {
    if n < layers {
      forall i | 0 <= i < n - 1
        ensures Window(n, layers, i) >= i + 1
      {
        WindowLate(n, layers, i);
      }
    } else {
      WindowOfEach(n, 0);
    }
  }

  /** With as many groups as layers, every window is one layer. */
  lemma WindowOfEach(n: nat, i: nat)
    requires n > 0
    ensures Window(n, n, i) == i
  {
    assert n / n == 1 && n % n == 0;
  }

  lemma WindowLate(n: nat, layers: nat, i: nat)
    requires 0 < n < layers && i < n
    ensures Window(n, layers, i) >= i + 1
  {
    var q, r := layers / n, layers % n;
    if q >= 2 {
      assert q * (i + 1) >= 2 * (i + 1) by {
        MultiplyAtLeast(q - 1, i + 1);
        assert q * (i + 1) == (q - 1) * (i + 1) + (i + 1);
      }
    } else {
      assert q * n + r == layers;
      assert q == 1 && r >= 1;
    }
  }

  /** With one layer fewer offloaded than there are, as the caller sets it up, group i goes at
      the commit of layer i + 1. */
  lemma CallerWindow(layers: nat, i: nat)
    requires layers >= 3 && i < layers - 1
    ensures Window(layers - 1, layers, i) == i + 1
  {
    assert layers / (layers - 1) == 1 && layers % (layers - 1) == 1;
  }

  // --------------------------------------------------------------------------
  // Tensors and their copies
  // --------------------------------------------------------------------------

  /** A storage and an offset in it, in one number, and the element type: how the handler recognises
      tensors that share their elements. */
  datatype Key = Key(address: int, dtype: nat)

  /** A tensor's elements are listed in row-major order of its shape. */
  datatype Tensor = Tensor(key: Key, shape: seq<nat>, data: seq<int>)

  predicate WellFormed(t: Tensor) {
    |t.data| == Numel(t.shape)
  }

  /** Equal but for where they are stored. */
  predicate SameValue(t: Tensor, u: Tensor) {
    t.shape == u.shape && t.data == u.data
  }

  datatype Tag = Tag(group: int, index: nat)

  /** A tensor on the device, or the key and shape left behind when it was moved to the host. */
  datatype Saved = OnDevice(tensor: Tensor) | Moved(key: Key, shape: seq<nat>)

  /** An entry of an offload mapping: a device tensor or its host copy. */
  datatype Slot = Device(tensor: Tensor) | Host(tensor: Tensor)

  type States = map<Tag, Saved>
  type Mapping = map<Key, Slot>

  /** Every tensor of the group that shares storage has the same elements. */
  ghost predicate AliasesAgree(m: States, g: int) {
    forall a, b :: a in m && b in m && a.group == g && b.group == g
                   && m[a].OnDevice? && m[b].OnDevice? && m[a].tensor.key == m[b].tensor.key
                   ==> m[a].tensor.data == m[b].tensor.data
  }

  ghost predicate GroupOnDevice(m: States, g: int) {
    forall tag :: tag in m && tag.group == g ==> m[tag].OnDevice?
  }

  /** mapping holds, for every storage key in the group, a host copy of some tensor with that key. */
  ghost predicate HoldsGroup(m: States, g: int, mapping: Mapping) {
    && (forall tag :: tag in m && tag.group == g && m[tag].OnDevice? ==> m[tag].tensor.key in mapping)
    && (forall k :: k in mapping ==>
          exists tag :: tag in m && tag.group == g && m[tag].OnDevice? && mapping[k] == Host(m[tag].tensor)
                        && m[tag].tensor.key == k)
  }

  function Leave(s: Saved): Saved {
    if s.OnDevice? then Moved(s.tensor.key, s.tensor.shape) else s
  }

  function MovedStates(m: States, g: int): States {
    map tag | tag in m :: if tag.group == g then Leave(m[tag]) else m[tag]
  }

  ghost predicate BroughtBack(s: Saved, was: Saved, mapping: Mapping) {
    if was.OnDevice? then s == was
    else
      && s.OnDevice? && s.tensor.shape == was.shape
      && was.key in mapping && s.tensor.data == mapping[was.key].tensor.data
  }

  /** after is states with group k brought back from mapping, in fresh storage. */
  ghost predicate Reloaded(states: States, after: States, k: int, mapping: Mapping) {
    && after.Keys == states.Keys
    && (forall tag :: tag in after && tag.group != k ==> after[tag] == states[tag])
    && (forall tag :: tag in after && tag.group == k ==> BroughtBack(after[tag], states[tag], mapping))
  }

  /** Every tensor of the group is back on the device with its own shape and elements. */
  ghost predicate GroupRestored(m: States, after: States, g: int) {
    forall tag :: tag in m && tag.group == g ==>
      tag in after && m[tag].OnDevice? && after[tag].OnDevice? && SameValue(after[tag].tensor, m[tag].tensor)
  }

  /** Offloading and reloading a group gives every tensor of the group its own elements back
      exactly when tensors that share a storage key agree, whichever of them the mapping kept:
      the key ignores strides. */
  lemma RoundTripExact(m: States, g: int, mapping: Mapping, after: States)
    requires GroupOnDevice(m, g) && HoldsGroup(m, g, mapping)
    requires Reloaded(MovedStates(m, g), after, g, mapping)
    ensures AliasesAgree(m, g) <==> GroupRestored(m, after, g)
  {
    forall tag | tag in m && tag.group == g
      ensures after[tag].OnDevice? && after[tag].tensor.shape == m[tag].tensor.shape
      ensures m[tag].tensor.key in mapping && after[tag].tensor.data == mapping[m[tag].tensor.key].tensor.data
    {
      assert MovedStates(m, g)[tag] == Leave(m[tag]);
      assert BroughtBack(after[tag], Leave(m[tag]), mapping);
    }
  }

  lemma DisagreeingIsLost(m: States, x: Tensor, y: Tensor, mapping: Mapping, after: States)
    requires x.key == y.key && x.data != y.data
    requires m == map[Tag(0, 0) := OnDevice(x), Tag(0, 1) := OnDevice(y)]
    requires HoldsGroup(m, 0, mapping) && Reloaded(MovedStates(m, 0), after, 0, mapping)
    ensures !GroupRestored(m, after, 0)
  {
    assert m[Tag(0, 0)] == OnDevice(x) && m[Tag(0, 1)] == OnDevice(y);
    RoundTripExact(m, 0, mapping, after);
  }

  /** A matrix and its transpose, saved as two views of the same storage. */
  const MATRIX := Tensor(Key(0, 0), [2, 2], [1, 2, 3, 4])
  const TRANSPOSE := Tensor(Key(0, 0), [2, 2], [1, 3, 2, 4])
  const TWO_VIEWS: States := map[Tag(0, 0) := OnDevice(MATRIX), Tag(0, 1) := OnDevice(TRANSPOSE)]

  /** One of the two comes back with its elements in the wrong order. */
  lemma TransposeIsLost(mapping: Mapping, after: States)
    requires HoldsGroup(TWO_VIEWS, 0, mapping) && Reloaded(MovedStates(TWO_VIEWS, 0), after, 0, mapping)
    ensures GroupOnDevice(TWO_VIEWS, 0) && !GroupRestored(TWO_VIEWS, after, 0)
  {
    assert MATRIX.data[1] != TRANSPOSE.data[1];
    DisagreeingIsLost(TWO_VIEWS, MATRIX, TRANSPOSE, mapping, after);
  }
}
