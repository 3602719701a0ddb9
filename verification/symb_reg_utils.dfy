/**
 * The operator set handed to the genetic-programming regressor and its one
 * custom operator, an exponential clipped at 100000.
 */
module SymbRegUtils {

  /** The clipping bound of the safe exponential. */
  const MaxValue: real := 100000.0

  function Min(a: real, b: real): real { if a <= b then a else b }

  /**
   * Element-wise min(e^x, 100000). The exponential itself is numpy's and is a
   * parameter here; the model is total, as the source is once floating-point
   * errors are suppressed.
   */
  function ClippedExp(xs: seq<real>, exp: real -> real): (r: seq<real>)
    ensures |r| == |xs|
    ensures forall i :: 0 <= i < |xs| ==> r[i] <= MaxValue
    ensures forall i :: 0 <= i < |xs| && exp(xs[i]) <= MaxValue ==> r[i] == exp(xs[i])
    ensures forall i :: 0 <= i < |xs| && exp(xs[i]) > MaxValue ==> r[i] == MaxValue
  {
    seq(|xs|, i requires 0 <= i < |xs| => Min(exp(xs[i]), MaxValue))
  }

  /** The clipping acts on each element alone, so splitting the input splits the output. */
  lemma ClippedExpElementwise(a: seq<real>, b: seq<real>, exp: real -> real)
    ensures ClippedExp(a + b, exp) == ClippedExp(a, exp) + ClippedExp(b, exp)
  {
    var l, r := ClippedExp(a + b, exp), ClippedExp(a, exp) + ClippedExp(b, exp);
    forall i | 0 <= i < |l| ensures l[i] == r[i] {
      if i < |a| {
        assert (a + b)[i] == a[i];
      } else {
        assert (a + b)[i] == b[i - |a|];
      }
    }
  }

  /**
   * For any exponential with e^x >= 1 + x (true of the real one), a large input
   * such as 10^10 yields exactly the bound, never an overflow.
   */
  lemma ClippedExpSaturates(x: real, exp: real -> real)
    requires forall y :: exp(y) >= 1.0 + y
    requires x >= MaxValue
    ensures ClippedExp([x], exp) == [MaxValue]
  {
    assert exp(x) >= 1.0 + x;
  }

  /** A monotone exponential stays monotone after clipping. */
  lemma ClippedExpMonotone(xs: seq<real>, exp: real -> real)
    requires forall y, z :: y <= z ==> exp(y) <= exp(z)
    requires forall i, j :: 0 <= i < j < |xs| ==> xs[i] <= xs[j]
    ensures forall i, j :: 0 <= i < j < |xs| ==> ClippedExp(xs, exp)[i] <= ClippedExp(xs, exp)[j]
  {
    var r := ClippedExp(xs, exp);
    forall i, j | 0 <= i < j < |xs| ensures r[i] <= r[j] {
      assert exp(xs[i]) <= exp(xs[j]);
    }
  }

  /**
   * An entry of the function set: either one of the regressor's built-in
   * operators, given by name, or an operator made from a Python function with
   * its own name and arity (here only the clipped exponential).
   */
  datatype Primitive = Builtin(name: string) | Made(name: string, arity: nat)

  /** Arity of the regressor's built-in operators used here. */
  function BuiltinArity(name: string): nat
  {
    if name in {"add", "sub", "mul", "div"} then 2 else 1
  }

  function Arity(p: Primitive): nat
  {
    match p
    case Builtin(name) => BuiltinArity(name)
    case Made(_, arity) => arity
  }

  function FunctionSet(): (fs: seq<Primitive>)
    ensures |fs| == 10
    ensures forall i :: 0 <= i < 9 ==> fs[i].Builtin?
    ensures fs[9] == Made("exp", 1)
    ensures forall i, j :: 0 <= i < j < |fs| ==> fs[i].name != fs[j].name
    ensures forall i :: 0 <= i < |fs| ==> (Arity(fs[i]) == 2 <==> i < 4)
  {
    [Builtin("add"), Builtin("sub"), Builtin("mul"), Builtin("div"),
     Builtin("sqrt"), Builtin("log"), Builtin("sin"), Builtin("cos"), Builtin("abs"),
     Made("exp", 1)]
  }
}
