/**
 * The algebraic expression trees the converter works on, the prefix terms the
 * parser reads from a program's text, and the tree operations the converter
 * applies: substitution of a symbol, replacement of Float literals, pre-order
 * traversal.
 *
 * The algebra engine's own canonical forms (a - b stored as a + (-1)*b, and so
 * on) are not modelled: a tree keeps the operators it was built from.
 */
module Expressions {
  import opened Wrappers

  datatype BinOp = Add | Sub | Mul | Div | Pow

  /** An expression tree. Integer and Float literals are distinct kinds of leaf. */
  datatype Expr =
    | Integer(i: int)
    | Float(v: real)
    | Symbol(name: string)
    | Neg(arg: Expr)
    | Binary(op: BinOp, left: Expr, right: Expr)
    | Apply(fn: string, arg: Expr)

  /** A parsed program text before the converter has given its names a meaning. */
  datatype Term =
    | Name(id: string)
    | IntLit(i: int)
    | FloatLit(v: real)
    | Call(callee: string, args: seq<Term>)

  /** The converter's names for the binary operators. */
  function BinOpName(op: BinOp): string
  {
    match op
    case Sub => "sub"
    case Div => "div"
    case Mul => "mul"
    case Add => "add"
    case Pow => "pow"
  }

  function BinOpOfName(name: string): (r: Option<BinOp>)
    ensures r.Some? ==> BinOpName(r.value) == name
    ensures forall op :: BinOpName(op) == name ==> r == Some(op)
  {
    if name == "sub" then Some(Sub)
    else if name == "div" then Some(Div)
    else if name == "mul" then Some(Mul)
    else if name == "add" then Some(Add)
    else if name == "pow" then Some(Pow)
    else None
  }

  /** The names the converter interprets itself; every other call is left to the engine's own functions. */
  predicate IsConverterName(name: string)
  {
    BinOpOfName(name).Some? || name == "neg"
  }

  /** No function application in the tree carries one of the converter's names. */
  predicate PlainFunctions(e: Expr)
  {
    match e
    case Integer(_) => true
    case Float(_) => true
    case Symbol(_) => true
    case Neg(a) => PlainFunctions(a)
    case Binary(_, l, r) => PlainFunctions(l) && PlainFunctions(r)
    case Apply(f, a) => !IsConverterName(f) && PlainFunctions(a)
  }

  /**
   * Reads a parsed term with the converter: sub, div, mul, add and pow become
   * the binary operators, neg becomes negation, any other call is a function
   * application. A converter name called with the wrong number of arguments
   * raises (None), as does a call of another name with other than one argument.
   */
  function Convert(t: Term): (r: Option<Expr>)
    ensures r.Some? ==> PlainFunctions(r.value)
    ensures t.Call? && BinOpOfName(t.callee).Some? && |t.args| != 2 ==> r == None
    ensures t.Call? && t.callee == "neg" && |t.args| != 1 ==> r == None
  {
    match t
    case Name(id) => Some(Symbol(id))
    case IntLit(i) => Some(Integer(i))
    case FloatLit(v) => Some(Float(v))
    case Call(f, args) =>
      if BinOpOfName(f).Some? then
        if |args| != 2 then None
        else
          var l, r := Convert(args[0]), Convert(args[1]);
          if l.Some? && r.Some? then Some(Binary(BinOpOfName(f).value, l.value, r.value)) else None
      else if f == "neg" then
        if |args| != 1 then None
        else
          var a := Convert(args[0]);
          if a.Some? then Some(Neg(a.value)) else None
      else if |args| != 1 then None
      else
        var a := Convert(args[0]);
        if a.Some? then Some(Apply(f, a.value)) else None
  }

  /** The prefix rendering of a tree, in the form the regressor prints its programs. */
  function PrefixForm(e: Expr): Term
  {
    match e
    case Integer(i) => IntLit(i)
    case Float(v) => FloatLit(v)
    case Symbol(n) => Name(n)
    case Neg(a) => Call("neg", [PrefixForm(a)])
    case Binary(op, l, r) => Call(BinOpName(op), [PrefixForm(l), PrefixForm(r)])
    case Apply(f, a) => Call(f, [PrefixForm(a)])
  }

  /** The converter reads every operator name as the operator it names: converting a prefix rendering gives the tree back. */
  lemma {:induction false} ConvertPrefixForm(e: Expr)
    requires PlainFunctions(e)
    ensures Convert(PrefixForm(e)) == Some(e)
  {
    match e
    case Integer(_) =>
    case Float(_) =>
    case Symbol(_) =>
    case Neg(a) =>
      ConvertPrefixForm(a);
    case Binary(op, l, r) =>
      ConvertPrefixForm(l);
      ConvertPrefixForm(r);
    case Apply(f, a) =>
      ConvertPrefixForm(a);
  }

  /** The names of the symbols in a tree. */
  function Symbols(e: Expr): set<string>
  {
    match e
    case Integer(_) => {}
    case Float(_) => {}
    case Symbol(n) => {n}
    case Neg(a) => Symbols(a)
    case Binary(_, l, r) => Symbols(l) + Symbols(r)
    case Apply(_, a) => Symbols(a)
  }

  /** The values of the Float literals in a tree. */
  function FloatSet(e: Expr): set<real>
  {
    match e
    case Integer(_) => {}
    case Float(v) => {v}
    case Symbol(_) => {}
    case Neg(a) => FloatSet(a)
    case Binary(_, l, r) => FloatSet(l) + FloatSet(r)
    case Apply(_, a) => FloatSet(a)
  }

  /** Replaces every occurrence of the symbol x by v, all at once. */
  function Subst(e: Expr, x: string, v: Expr): (r: Expr)
    ensures x !in Symbols(v) ==> x !in Symbols(r)
    ensures x !in Symbols(e) ==> r == e
    ensures Symbols(r) <= (Symbols(e) - {x}) + Symbols(v)
    ensures Symbols(e) - {x} <= Symbols(r)
    ensures x in Symbols(e) ==> Symbols(v) <= Symbols(r)
    ensures FloatSet(r) <= FloatSet(e) + FloatSet(v)
  {
    match e
    case Integer(_) => e
    case Float(_) => e
    case Symbol(n) => if n == x then v else e
    case Neg(a) => Neg(Subst(a, x, v))
    case Binary(op, l, r) => Binary(op, Subst(l, x, v), Subst(r, x, v))
    case Apply(f, a) => Apply(f, Subst(a, x, v))
  }

  /** Replaces each Float literal v by Float(f(v)), at every depth. */
  function MapFloats(e: Expr, f: real -> real): (r: Expr)
    ensures Symbols(r) == Symbols(e)
    ensures forall w :: w in FloatSet(r) <==> exists u :: u in FloatSet(e) && w == f(u)
  {
    match e
    case Integer(_) => e
    case Float(v) => Float(f(v))
    case Symbol(_) => e
    case Neg(a) => Neg(MapFloats(a, f))
    case Binary(op, l, r) => Binary(op, MapFloats(l, f), MapFloats(r, f))
    case Apply(fn, a) => Apply(fn, MapFloats(a, f))
  }

  ghost predicate Idempotent(f: real -> real)
  {
    forall v :: f(f(v)) == f(v)
  }

  /** After mapping with an idempotent f (a rounding), every literal at every depth is a fixed point of f. */
  lemma MapFloatsFixed(e: Expr, f: real -> real)
    requires Idempotent(f)
    ensures forall w :: w in FloatSet(MapFloats(e, f)) ==> f(w) == w
  {
  }

  /** Mapping twice with an idempotent f is mapping once. */
  lemma {:induction false} MapFloatsIdempotent(e: Expr, f: real -> real)
    requires Idempotent(f)
    ensures MapFloats(MapFloats(e, f), f) == MapFloats(e, f)
  {
    match e
    case Integer(_) =>
    case Float(v) =>
    case Symbol(_) =>
    case Neg(a) =>
      MapFloatsIdempotent(a, f);
    case Binary(op, l, r) =>
      MapFloatsIdempotent(l, f);
      MapFloatsIdempotent(r, f);
    case Apply(fn, a) =>
      MapFloatsIdempotent(a, f);
  }

  /** Replaces every Float literal equal to a by Float(b) (one substitution of a number). */
  function SubstFloat(e: Expr, a: real, b: real): Expr
  {
    match e
    case Integer(_) => e
    case Float(v) => if v == a then Float(b) else e
    case Symbol(_) => e
    case Neg(x) => Neg(SubstFloat(x, a, b))
    case Binary(op, l, r) => Binary(op, SubstFloat(l, a, b), SubstFloat(r, a, b))
    case Apply(fn, x) => Apply(fn, SubstFloat(x, a, b))
  }

  /** Maps only the literals whose value lies in done. */
  function MapFloatsIn(e: Expr, done: set<real>, f: real -> real): Expr
  {
    match e
    case Integer(_) => e
    case Float(v) => if v in done then Float(f(v)) else e
    case Symbol(_) => e
    case Neg(a) => Neg(MapFloatsIn(a, done, f))
    case Binary(op, l, r) => Binary(op, MapFloatsIn(l, done, f), MapFloatsIn(r, done, f))
    case Apply(fn, a) => Apply(fn, MapFloatsIn(a, done, f))
  }

  /**
   * One step of rounding by substitution: substituting a by f(a) in a tree whose
   * literals from done are already mapped maps the literals from done + {a}.
   */
  lemma {:induction false} SubstFloatStep(e: Expr, done: set<real>, a: real, f: real -> real)
    requires Idempotent(f)
    ensures SubstFloat(MapFloatsIn(e, done, f), a, f(a)) == MapFloatsIn(e, done + {a}, f)
  {
    match e
    case Integer(_) =>
    case Float(v) =>
      assert f(f(v)) == f(v);
    case Symbol(_) =>
    case Neg(x) =>
      SubstFloatStep(x, done, a, f);
    case Binary(op, l, r) =>
      SubstFloatStep(l, done, a, f);
      SubstFloatStep(r, done, a, f);
    case Apply(fn, x) =>
      SubstFloatStep(x, done, a, f);
  }

  lemma {:induction false} MapFloatsInNone(e: Expr, f: real -> real)
    ensures MapFloatsIn(e, {}, f) == e
  {
    match e
    case Integer(_) =>
    case Float(_) =>
    case Symbol(_) =>
    case Neg(x) =>
      MapFloatsInNone(x, f);
    case Binary(_, l, r) =>
      MapFloatsInNone(l, f);
      MapFloatsInNone(r, f);
    case Apply(_, x) =>
      MapFloatsInNone(x, f);
  }

  lemma {:induction false} MapFloatsInAll(e: Expr, done: set<real>, f: real -> real)
    requires FloatSet(e) <= done
    ensures MapFloatsIn(e, done, f) == MapFloats(e, f)
  {
    match e
    case Integer(_) =>
    case Float(_) =>
    case Symbol(_) =>
    case Neg(x) =>
      MapFloatsInAll(x, done, f);
    case Binary(_, l, r) =>
      MapFloatsInAll(l, done, f);
      MapFloatsInAll(r, done, f);
    case Apply(_, x) =>
      MapFloatsInAll(x, done, f);
  }

  /** The nodes of a tree in pre-order: a node, then its children left to right. */
  function Preorder(e: Expr): (r: seq<Expr>)
    ensures 1 <= |r| && r[0] == e
  {
    match e
    case Integer(_) => [e]
    case Float(_) => [e]
    case Symbol(_) => [e]
    case Neg(a) => [e] + Preorder(a)
    case Binary(_, l, r) => [e] + Preorder(l) + Preorder(r)
    case Apply(_, a) => [e] + Preorder(a)
  }

  /** The traversal meets a Float literal with value v exactly when v is a literal of the tree. */
  lemma {:induction false} PreorderFloats(e: Expr, v: real)
    ensures Float(v) in Preorder(e) <==> v in FloatSet(e)
  {
    match e
    case Integer(_) =>
    case Float(_) =>
    case Symbol(_) =>
    case Neg(a) =>
      PreorderFloats(a, v);
    case Binary(_, l, r) =>
      PreorderFloats(l, v);
      PreorderFloats(r, v);
      assert Preorder(e) == [e] + (Preorder(l) + Preorder(r));
    case Apply(_, a) =>
      PreorderFloats(a, v);
  }

  /** The traversal meets the symbol n exactly when n is a symbol of the tree. */
  lemma {:induction false} PreorderSymbols(e: Expr, n: string)
    ensures Symbol(n) in Preorder(e) <==> n in Symbols(e)
  {
    match e
    case Integer(_) =>
    case Float(_) =>
    case Symbol(_) =>
    case Neg(a) =>
      PreorderSymbols(a, n);
    case Binary(_, l, r) =>
      PreorderSymbols(l, n);
      PreorderSymbols(r, n);
      assert Preorder(e) == [e] + (Preorder(l) + Preorder(r));
    case Apply(_, a) =>
      PreorderSymbols(a, n);
  }
}
