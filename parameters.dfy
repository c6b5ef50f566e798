/** The cartpole example's `parameters(model, newParams)`: reads a model's layer
    parameters as one flat vector, or writes a flat vector back into the layers. */
module Parameters {
  import opened JsArray
  import opened JsSparse

  /** A layer's optional weight and bias tensors, by their `data` arrays; a layer
      without parameters (an activation, say) has neither. */
  datatype Layer = Layer(weight: Option<seq<real>>, bias: Option<seq<real>>)

  /** What a tensor contributes to the flat vector: its data, or nothing when absent. */
  function Data(t: Option<seq<real>>): seq<real>
  {
    if t.Some? then t.value else []
  }

  /** What one layer contributes to the flat vector: its weight data, then its bias data. */
  function LayerData(layer: Layer): seq<real>
  {
    Data(layer.weight) + Data(layer.bias)
  }

  /** The getter's result: every layer's data, in layer order. */
  function Flatten(layers: seq<Layer>): seq<real>
  {
    if layers == [] then [] else LayerData(layers[0]) + Flatten(layers[1..])
  }

  /** The number of parameters: the total length of all weight and bias data. */
  function Total(layers: seq<Layer>): nat
  {
    if layers == [] then 0
    else |Data(layers[0].weight)| + |Data(layers[0].bias)| + Total(layers[1..])
  }

  /** A tensor or layers after the setter has passed it, with the offset it moved to. */
  datatype Placed<T> = Placed(value: T, next: nat)

  /** The end of the window of length `n` at `offset`, clamped to the end of `p`. */
  function WindowEnd(p: seq<real>, offset: nat, n: nat): (r: nat)
    ensures r <= |p| && (offset <= |p| ==> offset <= r)
  {
    if offset + n <= |p| then offset + n else |p|
  }

  /** One tensor in the setter: a present tensor with nonempty data receives the next
      slice of `p` (as long as its data, clamped to the end of `p`) and the offset
      advances by that slice's length; any other tensor is left as it is. */
  function AssignTensor(t: Option<seq<real>>, p: seq<real>, offset: nat): Placed<Option<seq<real>>>
  {
    if t.Some? && |t.value| > 0 then
      var lo := if offset <= |p| then offset else |p|;
      var hi := WindowEnd(p, lo, |t.value|);
      Placed(Some(p[lo..hi]), hi)
    else Placed(t, offset)
  }

  /** The slice a tensor receives is `p.slice(offset, offset + length)`, and the offset
      advances by the length of that slice. */
  lemma AssignTensorIsSlice(t: Option<seq<real>>, p: seq<real>, offset: nat)
    requires t.Some? && |t.value| > 0 && offset <= |p|
    ensures var data := Slice(p, offset, offset + |t.value|);
      AssignTensor(t, p, offset) == Placed(Some(data), offset + |data|)
  {
    SliceForward(p, offset, offset + |t.value|);
  }

  /** One layer in the setter: its weight, then its bias. */
  function AssignLayer(layer: Layer, p: seq<real>, offset: nat): Placed<Layer>
  {
    var w := AssignTensor(layer.weight, p, offset);
    var b := AssignTensor(layer.bias, p, w.next);
    Placed(Layer(w.value, b.value), b.next)
  }

  /** The layers after the setter has run over them starting at `offset`. */
  function Assign(layers: seq<Layer>, p: seq<real>, offset: nat): seq<Layer>
  {
    if layers == [] then []
    else
      var first := AssignLayer(layers[0], p, offset);
      [first.value] + Assign(layers[1..], p, first.next)
  }

  /** A tensor receives the window of `p` at `offset` as long as its data, clamped to
      the end of `p`, and the offset moves to the end of that window. */
  lemma AssignTensorWindow(t: Option<seq<real>>, p: seq<real>, offset: nat)
    requires offset <= |p|
    ensures var r := AssignTensor(t, p, offset);
      && r.next == WindowEnd(p, offset, |Data(t)|)
      && Data(r.value) == p[offset..r.next]
      && r.value.Some? == t.Some?
  {
  }

  /** A layer receives the window of `p` at `offset` as long as its data, clamped. */
  lemma AssignLayerWindow(layer: Layer, p: seq<real>, offset: nat)
    requires offset <= |p|
    ensures var r := AssignLayer(layer, p, offset);
      && r.next == WindowEnd(p, offset, |LayerData(layer)|)
      && LayerData(r.value) == p[offset..r.next]
  {
    var w := AssignTensor(layer.weight, p, offset);
    var b := AssignTensor(layer.bias, p, w.next);
    AssignTensorWindow(layer.weight, p, offset);
    AssignTensorWindow(layer.bias, p, w.next);
    assert p[offset..b.next] == p[offset..w.next] + p[w.next..b.next];
  }

  /** The getter's length is the sum of the data lengths; absent tensors add nothing. */
  lemma {:induction false} FlattenLength(layers: seq<Layer>)
    ensures |Flatten(layers)| == Total(layers)
  {
    if layers != [] {
      FlattenLength(layers[1..]);
    }
  }

  lemma {:induction false} FlattenAppend(a: seq<Layer>, b: seq<Layer>)
    ensures Flatten(a + b) == Flatten(a) + Flatten(b)
  {
    if a == [] {
      assert a + b == b;
    } else {
      assert (a + b)[0] == a[0] && (a + b)[1..] == a[1..] + b;
      FlattenAppend(a[1..], b);
      var x, y, z := LayerData(a[0]), Flatten(a[1..]), Flatten(b);
      assert Flatten(a + b) == x + (y + z);
      assert x + (y + z) == (x + y) + z;
    }
  }

  /** The setter keeps the number of layers, which tensors are present, and every
      tensor that is absent or has empty data. */
  lemma {:induction false} AssignKeepsShape(layers: seq<Layer>, p: seq<real>, offset: nat)
    ensures |Assign(layers, p, offset)| == |layers|
    ensures forall i :: 0 <= i < |layers| ==>
      && Assign(layers, p, offset)[i].weight.Some? == layers[i].weight.Some?
      && Assign(layers, p, offset)[i].bias.Some? == layers[i].bias.Some?
    ensures forall i :: 0 <= i < |layers| && Data(layers[i].weight) == [] ==>
      Assign(layers, p, offset)[i].weight == layers[i].weight
    ensures forall i :: 0 <= i < |layers| && Data(layers[i].bias) == [] ==>
      Assign(layers, p, offset)[i].bias == layers[i].bias
  {
    if layers != [] {
      var first := AssignLayer(layers[0], p, offset);
      AssignKeepsShape(layers[1..], p, first.next);
      var r := Assign(layers, p, offset);
      forall i | 1 <= i < |layers|
        ensures r[i] == Assign(layers[1..], p, first.next)[i - 1]
      {
      }
    }
  }

  /** Two consecutive clamped windows make up the clamped window of their total length. */
  lemma WindowEndStep(p: seq<real>, offset: nat, a: nat, b: nat)
    ensures WindowEnd(p, WindowEnd(p, offset, a), b) == WindowEnd(p, offset, a + b)
  {
  }

  lemma SliceSplit(p: seq<real>, lo: nat, mid: nat, hi: nat)
    requires lo <= mid <= hi <= |p|
    ensures p[lo..hi] == p[lo..mid] + p[mid..hi]
  {
  }

  lemma FlattenAssignCons(layers: seq<Layer>, p: seq<real>, offset: nat)
    requires layers != []
    ensures var first := AssignLayer(layers[0], p, offset);
      Flatten(Assign(layers, p, offset)) == LayerData(first.value) + Flatten(Assign(layers[1..], p, first.next))
  {
    var first := AssignLayer(layers[0], p, offset);
    assert ([first.value] + Assign(layers[1..], p, first.next))[1..] == Assign(layers[1..], p, first.next);
  }

  /** Reading after writing: the layers hold the window of `p` that starts at `offset`
      and is as long as the parameter count, clamped to the end of `p`. */
  lemma {:induction false} ReadAfterAssign(layers: seq<Layer>, p: seq<real>, offset: nat)
    requires offset <= |p|
    ensures Flatten(Assign(layers, p, offset)) == p[offset..WindowEnd(p, offset, Total(layers))]
  {
    if layers != [] {
      var first := AssignLayer(layers[0], p, offset);
      FlattenAssignCons(layers, p, offset);
      AssignLayerWindow(layers[0], p, offset);
      ReadAfterAssign(layers[1..], p, first.next);
      WindowEndStep(p, offset, |LayerData(layers[0])|, Total(layers[1..]));
      SliceSplit(p, offset, first.next, WindowEnd(p, offset, Total(layers)));
    }
  }

  /** Round trip, read after set: writing a vector exactly as long as the parameter
      count and reading back returns that vector; entries past the count are ignored. */
  lemma ReadAfterSet(layers: seq<Layer>, p: seq<real>)
    requires |p| >= Total(layers)
    ensures Flatten(Assign(layers, p, 0)) == p[..Total(layers)]
    ensures |p| == Total(layers) ==> Flatten(Assign(layers, p, 0)) == p
  {
    ReadAfterAssign(layers, p, 0);
  }

  /** A vector shorter than the parameter count fills the layers in order and leaves
      the later data truncated: the layers read back as exactly that vector. */
  lemma ShortSet(layers: seq<Layer>, p: seq<real>)
    requires |p| < Total(layers)
    ensures Flatten(Assign(layers, p, 0)) == p
    ensures Total(Assign(layers, p, 0)) < Total(layers)
  {
    ReadAfterAssign(layers, p, 0);
    FlattenLength(Assign(layers, p, 0));
  }

  /** Writing `[]` (a truthy array, so the setter runs) empties every tensor's data
      and keeps which tensors are present. */
  lemma {:induction false} SetEmpty(layers: seq<Layer>, offset: nat)
    ensures |Assign(layers, [], offset)| == |layers|
    ensures forall i :: 0 <= i < |layers| ==>
      && Data(Assign(layers, [], offset)[i].weight) == []
      && Data(Assign(layers, [], offset)[i].bias) == []
      && Assign(layers, [], offset)[i].weight.Some? == layers[i].weight.Some?
      && Assign(layers, [], offset)[i].bias.Some? == layers[i].bias.Some?
  {
    if layers != [] {
      var first := AssignLayer(layers[0], [], offset);
      SetEmpty(layers[1..], first.next);
      var r := Assign(layers, [], offset);
      forall i | 1 <= i < |layers|
        ensures r[i] == Assign(layers[1..], [], first.next)[i - 1]
      {
      }
    }
  }

  /** A tensor whose own data sits in `p` at `offset` gets that same data back. */
  lemma AssignTensorOwnData(t: Option<seq<real>>, p: seq<real>, offset: nat)
    requires offset + |Data(t)| <= |p| && p[offset..offset + |Data(t)|] == Data(t)
    ensures AssignTensor(t, p, offset) == Placed(t, offset + |Data(t)|)
  {
  }

  /** Where the data of a layer sits in `p`, the layer gets that same data back. */
  lemma AssignLayerOwnData(l: Layer, p: seq<real>, offset: nat)
    requires offset + |Data(l.weight)| + |Data(l.bias)| <= |p|
    requires p[offset..offset + |Data(l.weight)|] == Data(l.weight)
    requires p[offset + |Data(l.weight)|..offset + |Data(l.weight)| + |Data(l.bias)|] == Data(l.bias)
    ensures AssignLayer(l, p, offset) == Placed(l, offset + |Data(l.weight)| + |Data(l.bias)|)
  {
    AssignTensorOwnData(l.weight, p, offset);
    AssignTensorOwnData(l.bias, p, offset + |Data(l.weight)|);
  }

  /** The pieces of `before + (w + b + rest)`, where they sit. */
  lemma Pieces(before: seq<real>, w: seq<real>, b: seq<real>, rest: seq<real>)
    ensures var p := before + (w + b + rest);
      && p[|before|..|before| + |w|] == w
      && p[|before| + |w|..|before| + |w| + |b|] == b
      && p == (before + w + b) + rest
  {
    var p := before + (w + b + rest);
    assert p[|before|..|before| + |w|] == w;
    assert p[|before| + |w|..|before| + |w| + |b|] == b;
  }

  /** Round trip, set then read, in context: the flat vector of `layers`, written back
      from its own position after any prefix, leaves the layers as they were. */
  lemma {:induction false} AssignOwnData(layers: seq<Layer>, before: seq<real>)
    ensures Assign(layers, before + Flatten(layers), |before|) == layers
  {
    if layers != [] {
      var l := layers[0];
      var w, b, rest := Data(l.weight), Data(l.bias), Flatten(layers[1..]);
      Pieces(before, w, b, rest);
      AssignLayerOwnData(l, before + Flatten(layers), |before|);
      AssignOwnData(layers[1..], before + w + b);
      assert layers == [l] + layers[1..];
    }
  }

  /** Round trip, set then read: `parameters(m, parameters(m))` changes no layer. */
  lemma SetThenRead(layers: seq<Layer>)
    ensures Assign(layers, Flatten(layers), 0) == layers
  {
    AssignOwnData(layers, []);
    assert [] + Flatten(layers) == Flatten(layers);
  }

  lemma FlattenSnoc(layers: seq<Layer>, i: nat)
    requires i < |layers|
    ensures Flatten(layers[..i + 1]) == Flatten(layers[..i]) + Data(layers[i].weight) + Data(layers[i].bias)
  {
    assert layers[..i + 1] == layers[..i] + [layers[i]];
    FlattenAppend(layers[..i], [layers[i]]);
    assert Flatten([layers[i]]) == LayerData(layers[i]);
  }

  lemma AssignStep(layers: seq<Layer>, p: seq<real>, i: nat, offset: nat)
    requires i < |layers|
    ensures var first := AssignLayer(layers[i], p, offset);
      Assign(layers[i..], p, offset) == [first.value] + Assign(layers[i + 1..], p, first.next)
  {
    assert layers[i..][1..] == layers[i + 1..];
  }

  /** The setter's `forEach` callback for one layer: its weight, then its bias, each
      given `newParams.slice(paramIndex, paramIndex + length)` when present with
      nonempty data, `paramIndex` advancing by the new data's length. */
  method SetLayer(layer: Layer, newParams: seq<real>, paramIndex: nat) returns (updated: Layer, next: nat)
    requires paramIndex <= |newParams|
    ensures Placed(updated, next) == AssignLayer(layer, newParams, paramIndex)
    ensures next <= |newParams|
  {
    updated, next := layer, paramIndex;
    if updated.weight.Some? && |updated.weight.value| > 0 {
      AssignTensorIsSlice(layer.weight, newParams, next);
      var data := Slice(newParams, next, next + |updated.weight.value|);
      updated := updated.(weight := Some(data));
      next := next + |data|;
    }
    assert next == AssignTensor(layer.weight, newParams, paramIndex).next <= |newParams|;
    if updated.bias.Some? && |updated.bias.value| > 0 {
      AssignTensorIsSlice(layer.bias, newParams, next);
      var data := Slice(newParams, next, next + |updated.bias.value|);
      updated := updated.(bias := Some(data));
      next := next + |data|;
    }
  }

  /** A model whose layers' tensors the setter reassigns in place. */
  class Model {
    var layers: seq<Layer>

    constructor (layers: seq<Layer>)
      ensures this.layers == layers
    {
      this.layers := layers;
    }

    /** The getter path: concatenates each layer's weight data, then bias data, into a
        fresh vector; the model is not modified. */
    method Get() returns (paramVector: seq<real>)
      ensures paramVector == Flatten(layers)
      ensures |paramVector| == Total(layers)
    {
      paramVector := [];
      var i := 0;
      while i < |layers|
        invariant 0 <= i <= |layers|
        invariant paramVector == Flatten(layers[..i])
      {
        var layer := layers[i];
        if layer.weight.Some? {
          paramVector := paramVector + layer.weight.value;
        }
        if layer.bias.Some? {
          paramVector := paramVector + layer.bias.value;
        }
        FlattenSnoc(layers, i);
        i := i + 1;
      }
      assert layers[..i] == layers;
      FlattenLength(layers);
    }

    /** The setter path: walks the layers with a running `paramIndex`, giving each
        present tensor with nonempty data the next slice of `newParams`. */
    method Set(newParams: seq<real>)
      modifies this
      ensures layers == Assign(old(layers), newParams, 0)
    {
      ghost var original := layers;
      var paramIndex: nat := 0;
      var i := 0;
      while i < |layers|
        invariant 0 <= i <= |layers| == |original|
        invariant layers[i..] == original[i..]
        invariant paramIndex <= |newParams|
        invariant Assign(original, newParams, 0) == layers[..i] + Assign(original[i..], newParams, paramIndex)
      {
        AssignStep(original, newParams, i, paramIndex);
        var layer;
        layer, paramIndex := SetLayer(layers[i], newParams, paramIndex);
        layers := layers[i := layer];
        assert layers[..i + 1] == layers[..i] + [layer];
        i := i + 1;
      }
      assert layers[..i] == layers;
    }

    /** `parameters(model, newParams)`: with `newParams` present (any array, even an
        empty one, is truthy) the setter runs and the result is `undefined`; otherwise
        the getter's vector is returned. */
    method Parameters(newParams: Option<seq<real>>) returns (r: Option<seq<real>>)
      modifies this
      ensures newParams.Some? ==> r == None && layers == Assign(old(layers), newParams.value, 0)
      ensures newParams.None? ==> r == Some(Flatten(layers)) && layers == old(layers)
    {
      if newParams.Some? {
        Set(newParams.value);
        r := None;
      } else {
        var paramVector := Get();
        r := Some(paramVector);
      }
    }
  }
}
