/** Tensors as shaped buffers whose entries are reals or a non-finite mark. */
module Tensors {

  datatype Scalar = Finite(value: real) | NonFinite

  datatype Tensor = Tensor(shape: seq<nat>, data: seq<Scalar>) {

    predicate AllFinite() {
      forall i :: 0 <= i < |data| ==> data[i].Finite?
    }
  }

  function AddScaled(x: Scalar, d: real, v: Scalar): Scalar {
    if x.Finite? && v.Finite? then Finite(x.value + d * v.value) else NonFinite
  }

  /** x + d * v, entry by entry. */
  function Axpy(x: Tensor, d: real, v: Tensor): (r: Tensor)
    requires |x.data| == |v.data|
    ensures r.shape == x.shape && |r.data| == |x.data|
    ensures x.AllFinite() && v.AllFinite() ==> r.AllFinite()
  {
    Tensor(x.shape, seq(|x.data|, i requires 0 <= i < |x.data| => AddScaled(x.data[i], d, v.data[i])))
  }

  /** (1 - d) * x + d * v, entry by entry. */
  function Lerp(x: Tensor, d: real, v: Tensor): (r: Tensor)
    requires |x.data| == |v.data|
    ensures r.shape == x.shape && |r.data| == |x.data|
    ensures x.AllFinite() && v.AllFinite() ==> r.AllFinite()
  {
    Tensor(x.shape, seq(|x.data|, i requires 0 <= i < |x.data| =>
      if x.data[i].Finite? && v.data[i].Finite? then Finite((1.0 - d) * x.data[i].value + d * v.data[i].value)
      else NonFinite))
  }
}
