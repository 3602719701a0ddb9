/**
 * Conversion of a fitted symbolic model into a simplified, renamed,
 * back-substituted and rounded expression (convert_symb).
 *
 * The algebra engine's parser, simplifier and rounding are foreign; they are
 * the fields of an Engine value. ConvertSpec states the conversion on whole
 * trees; ConvertSymbolic performs it the way the source does, one substitution
 * at a time while walking the tree in pre-order, and is proved against
 * ConvertSpec.
 */
module ConvertSymb {
  import opened Wrappers
  import opened Text
  import opened Expressions
  import SymbRegUtils

  /**
   * The fitted models the converter accepts, each carrying the text that str()
   * gives for it: a regressor's program, a meta model's expression, a pursuit
   * model's expression together with its projections P1, P2, ... in order.
   */
  datatype SymbolicModel =
    | Regressor(program: string)
    | MetaModel(expression: string)
    | PursuitModel(expression: string, projections: seq<Expr>)
    | OtherModel

  /** A converted expression, or the raw text returned for an over-long program. */
  datatype Converted = Expression(e: Expr) | RawText(s: string)

  datatype ConvertError = UnknownSymbolicModel | ParseFailure

  /** The algebra engine: sympify's parser, simplify, and round(a, n). */
  datatype Engine = Engine(parse: string -> Option<Term>, simplify: Expr -> Expr, round: (real, int) -> real)

  /** Texts longer than this are returned unconverted. */
  const MaxTextLength: nat := 500

  /** The text a model is converted from; only the three known kinds have one. */
  function ModelText(m: SymbolicModel): (s: string)
    requires !m.OtherModel?
    ensures m.Regressor? ==> s == m.program
    ensures !m.Regressor? ==> s == m.expression
  {
    match m
    case Regressor(p) => p
    case MetaModel(e) => e
    case PursuitModel(e, _) => e
  }

  predicate NoBrackets(s: string)
  {
    forall i :: 0 <= i < |s| ==> s[i] != '[' && s[i] != ']'
  }

  /** Deletes every '[' and ']' and keeps every other character in order. */
  function StripBrackets(s: string): (r: string)
    ensures NoBrackets(r)
    ensures |r| <= |s|
  {
    if s == [] then []
    else if s[0] == '[' || s[0] == ']' then StripBrackets(s[1..])
    else [s[0]] + StripBrackets(s[1..])
  }

  /** A single bracket is deleted and any other single character is kept. */
  lemma StripBracketsChar(c: char)
    ensures StripBrackets([c]) == if c == '[' || c == ']' then [] else [c]
  {
  }

  lemma {:induction false} StripBracketsAppend(a: string, b: string)
    ensures StripBrackets(a + b) == StripBrackets(a) + StripBrackets(b)
  {
    if a == [] {
      assert a + b == b;
    } else {
      assert (a + b)[1..] == a[1..] + b;
      StripBracketsAppend(a[1..], b);
    }
  }

  /** Text without brackets passes unchanged, and only such text does. */
  lemma {:induction false} StripBracketsUnchanged(s: string)
    ensures StripBrackets(s) == s <==> NoBrackets(s)
  {
    if s != [] {
      StripBracketsUnchanged(s[1..]);
      if s[0] == '[' || s[0] == ']' {
        assert |StripBrackets(s)| < |s| by { assert |StripBrackets(s[1..])| <= |s[1..]|; }
      }
    }
  }

  lemma StripBracketsIdempotent(s: string)
    ensures StripBrackets(StripBrackets(s)) == StripBrackets(s)
  {
    StripBracketsUnchanged(StripBrackets(s));
  }

  /** The name of the (k+1)-th projection symbol: P1, P2, ... */
  function ProjectionName(k: nat): string
  {
    "P" + NatToString(k + 1)
  }

  lemma ProjectionNameInjective(j: nat, k: nat)
    ensures ProjectionName(j) == ProjectionName(k) ==> j == k
  {
    if ProjectionName(j) == ProjectionName(k) {
      assert ProjectionName(j)[1..] == NatToString(j + 1);
      assert ProjectionName(k)[1..] == NatToString(k + 1);
      NatToStringInjective(j + 1, k + 1);
    }
  }

  /** The first k projections substituted, in index order. */
  function SubstProjections(e: Expr, projections: seq<Expr>, k: nat): Expr
    requires k <= |projections|
  {
    if k == 0 then e
    else Subst(SubstProjections(e, projections, k - 1), ProjectionName(k - 1), projections[k - 1])
  }

  /** n_decimals is used only when truthy: None and 0 mean no rounding. */
  predicate RoundingRequested(nDecimals: Option<int>)
  {
    nDecimals.Some? && nDecimals.value != 0
  }

  function Rounder(eng: Engine, d: int): real -> real
  {
    v => eng.round(v, d)
  }

  /** The text parsed with the converter and simplified. */
  function Simplified(text: string, eng: Engine): Result<Expr, ConvertError>
  {
    match eng.parse(StripBrackets(text))
    case None => Err(ParseFailure)
    case Some(t) =>
      match Convert(t)
      case None => Err(ParseFailure)
      case Some(e) => Ok(eng.simplify(e))
  }

  /** X0 renamed to x when the input is one-dimensional. */
  function Renamed(e: Expr, nDim: Option<int>): Expr
  {
    if nDim == Some(1) then Subst(e, "X0", Symbol("x")) else e
  }

  /** The projections substituted back, for pursuit models only. */
  function BackSubstituted(e: Expr, m: SymbolicModel): Expr
  {
    if m.PursuitModel? then SubstProjections(e, m.projections, |m.projections|) else e
  }

  function Rounded(e: Expr, nDecimals: Option<int>, eng: Engine): Expr
  {
    if RoundingRequested(nDecimals) then MapFloats(e, Rounder(eng, nDecimals.value)) else e
  }

  /** The whole conversion, on whole trees. */
  function ConvertSpec(m: SymbolicModel, nDim: Option<int>, nDecimals: Option<int>, eng: Engine): (r: Result<Converted, ConvertError>)
    ensures r == Err(UnknownSymbolicModel) <==> m.OtherModel?
    ensures r.Ok? && r.value.RawText? <==> !m.OtherModel? && |ModelText(m)| > MaxTextLength
    ensures r.Ok? && r.value.RawText? ==> r.value.s == ModelText(m)
    ensures !m.OtherModel? && |ModelText(m)| <= MaxTextLength ==>
              (r.Ok? <==> Simplified(ModelText(m), eng).Ok?)
  {
    if m.OtherModel? then Err(UnknownSymbolicModel)
    else
      var text := ModelText(m);
      if |text| > MaxTextLength then Ok(RawText(text))
      else
        match Simplified(text, eng)
        case Err(err) => Err(err)
        case Ok(s) => Ok(Expression(Rounded(BackSubstituted(Renamed(s, nDim), m), nDecimals, eng)))
  }

  /** No projection body mentions its own projection symbol. */
  predicate ProjectionsClosed(m: SymbolicModel)
  {
    m.PursuitModel? ==>
      forall k :: 0 <= k < |m.projections| ==> ProjectionName(k) !in Symbols(m.projections[k])
  }

  /**
   * When the one-by-one substitutions of the source agree with the whole-tree
   * operations: the rounding is idempotent (if used) and no projection brings
   * back its own symbol.
   */
  ghost predicate StepwiseAgrees(m: SymbolicModel, nDecimals: Option<int>, eng: Engine)
  {
    && ProjectionsClosed(m)
    && (RoundingRequested(nDecimals) ==> Idempotent(Rounder(eng, nDecimals.value)))
  }

  function FloatsOf(nodes: seq<Expr>): set<real>
  {
    set i | 0 <= i < |nodes| && nodes[i].Float? :: nodes[i].v
  }

  /**
   * convert_symb as written: dispatch on the model kind, the length guard, the
   * parse and simplification, the rename, one substitution per projection
   * symbol met in a pre-order walk, one substitution per Float literal met in a
   * pre-order walk.
   */
  method ConvertSymbolic(m: SymbolicModel, nDim: Option<int>, nDecimals: Option<int>, eng: Engine)
    returns (r: Result<Converted, ConvertError>)
    ensures r.Err? <==> ConvertSpec(m, nDim, nDecimals, eng).Err?
    ensures r.Err? || r.value.RawText? ==> r == ConvertSpec(m, nDim, nDecimals, eng)
    ensures StepwiseAgrees(m, nDecimals, eng) ==> r == ConvertSpec(m, nDim, nDecimals, eng)
  {
    if m.OtherModel? {
      return Err(UnknownSymbolicModel);
    }
    var text := ModelText(m);
    if |text| > MaxTextLength {
      return Ok(RawText(text));
    }
    var simplified := Simplified(text, eng);
    if simplified.Err? {
      return Err(simplified.error);
    }
    var e := Renamed(simplified.value, nDim);
    ghost var agrees := StepwiseAgrees(m, nDecimals, eng);
    ghost var renamed := e;
    if m.PursuitModel? {
      var projections := m.projections;
      var k := 0;
      while k < |projections|
        invariant 0 <= k <= |projections|
        invariant agrees ==> e == SubstProjections(renamed, projections, k)
      {
        e := SubstOnePass(e, ProjectionName(k), projections[k]);
        k := k + 1;
      }
    }
    ghost var substituted := e;
    assert agrees ==> substituted == BackSubstituted(renamed, m);
    if RoundingRequested(nDecimals) {
      var d := nDecimals.value;
      e := RoundOnePass(e, Rounder(eng, d));
    }
    r := Ok(Expression(e));
  }

  /**
   * Walks the pre-order nodes of e and, at every symbol named x, substitutes v
   * into the current expression (the walk itself stays on the original tree).
   */
  method SubstOnePass(e: Expr, x: string, v: Expr) returns (r: Expr)
    ensures x !in Symbols(v) ==> r == Subst(e, x, v)
  {
    var nodes := Preorder(e);
    r := e;
    var j := 0;
    while j < |nodes|
      invariant 0 <= j <= |nodes|
      invariant x !in Symbols(v) ==> r == (if Symbol(x) in nodes[..j] then Subst(e, x, v) else e)
    {
      if nodes[j].Symbol? && nodes[j].name == x {
        assert nodes[..j + 1] == nodes[..j] + [nodes[j]];
        r := Subst(r, nodes[j].name, v);
      } else {
        assert nodes[..j + 1] == nodes[..j] + [nodes[j]];
      }
      j := j + 1;
    }
    assert nodes[..j] == nodes;
    PreorderSymbols(e, x);
  }

  /**
   * Walks the pre-order nodes of e and, at every Float literal a, substitutes
   * f(a) for a in the current expression.
   */
  method RoundOnePass(e: Expr, f: real -> real) returns (r: Expr)
    ensures Idempotent(f) ==> r == MapFloats(e, f)
  {
    var nodes := Preorder(e);
    r := e;
    ghost var done: set<real> := {};
    MapFloatsInNone(e, f);
    var j := 0;
    while j < |nodes|
      invariant 0 <= j <= |nodes|
      invariant done == FloatsOf(nodes[..j])
      invariant Idempotent(f) ==> r == MapFloatsIn(e, done, f)
    {
      assert nodes[..j + 1] == nodes[..j] + [nodes[j]];
      if nodes[j].Float? {
        var a := nodes[j].v;
        if Idempotent(f) {
          SubstFloatStep(e, done, a, f);
        }
        r := SubstFloat(r, a, f(a));
        done := done + {a};
      }
      j := j + 1;
    }
    assert nodes[..j] == nodes;
    forall v | v in FloatSet(e) ensures v in done {
      PreorderFloats(e, v);
      var i :| 0 <= i < |nodes| && nodes[i] == Float(v);
    }
    if Idempotent(f) {
      MapFloatsInAll(e, done, f);
    }
  }

  /** Dispatch: a model of an unknown kind raises, whatever the other arguments. */
  lemma UnknownModelRaises(nDim: Option<int>, nDecimals: Option<int>, eng: Engine)
    ensures ConvertSpec(OtherModel, nDim, nDecimals, eng) == Err(UnknownSymbolicModel)
  {
  }

  /** For one-dimensional input, a regressor or meta model's result no longer mentions X0. */
  lemma OneDimRenamesX0(m: SymbolicModel, nDecimals: Option<int>, eng: Engine)
    requires !m.PursuitModel?
    ensures var r := ConvertSpec(m, Some(1), nDecimals, eng);
      r.Ok? && r.value.Expression? ==> "X0" !in Symbols(r.value.e)
  {
  }

  /** For any other dimension (None included) the symbols are those of the simplified expression. */
  lemma OtherDimKeepsSymbols(m: SymbolicModel, nDim: Option<int>, nDecimals: Option<int>, eng: Engine)
    requires !m.PursuitModel? && !m.OtherModel? && nDim != Some(1)
    requires |ModelText(m)| <= MaxTextLength
    requires Simplified(ModelText(m), eng).Ok?
    ensures ConvertSpec(m, nDim, nDecimals, eng)
         == Ok(Expression(Rounded(Simplified(ModelText(m), eng).value, nDecimals, eng)))
    ensures Symbols(ConvertSpec(m, nDim, nDecimals, eng).value.e) == Symbols(Simplified(ModelText(m), eng).value)
  {
  }

  /**
   * The rename comes before the back-substitution, so an X0 inside a projection
   * body survives even for one-dimensional input.
   */
  lemma ProjectionBodiesNotRenamed()
    ensures var eng := Engine(s => Some(Name(s)), e => e, (v, d) => v);
      ConvertSpec(PursuitModel("P1", [Symbol("X0")]), Some(1), None, eng) == Ok(Expression(Symbol("X0")))
  {
    var eng := Engine(s => Some(Name(s)), e => e, (v, d) => v);
    assert StripBrackets("P1") == "P1";
    assert NatToString(1) == "1";
    assert ProjectionName(0) == "P1";
    assert Simplified("P1", eng) == Ok(Symbol("P1"));
  }

  /** When no projection body mentions a projection symbol, none of P1..Pk is left after back-substitution. */
  lemma {:induction false} ProjectionsEliminated(e: Expr, projections: seq<Expr>, k: nat)
    requires k <= |projections|
    requires forall i, j :: 0 <= i < |projections| && 0 <= j < |projections| ==> ProjectionName(j) !in Symbols(projections[i])
    ensures forall j :: 0 <= j < k ==> ProjectionName(j) !in Symbols(SubstProjections(e, projections, k))
  {
    if k > 0 {
      ProjectionsEliminated(e, projections, k - 1);
      var prev := SubstProjections(e, projections, k - 1);
      var next := SubstProjections(e, projections, k);
      assert next == Subst(prev, ProjectionName(k - 1), projections[k - 1]);
      forall j | 0 <= j < k ensures ProjectionName(j) !in Symbols(next) {
        assert ProjectionName(j) !in Symbols(projections[k - 1]);
        if j < k - 1 {
          assert ProjectionName(j) !in Symbols(prev);
        }
      }
    }
  }

  /** A pursuit model's result mentions none of its projection symbols, when the bodies mention none. */
  lemma PursuitResultHasNoProjections(text: string, projections: seq<Expr>, nDim: Option<int>, nDecimals: Option<int>, eng: Engine)
    requires forall i, j :: 0 <= i < |projections| && 0 <= j < |projections| ==> ProjectionName(j) !in Symbols(projections[i])
    ensures var r := ConvertSpec(PursuitModel(text, projections), nDim, nDecimals, eng);
      r.Ok? && r.value.Expression? ==>
        forall j :: 0 <= j < |projections| ==> ProjectionName(j) !in Symbols(r.value.e)
  {
    var r := ConvertSpec(PursuitModel(text, projections), nDim, nDecimals, eng);
    if r.Ok? && r.value.Expression? {
      var s := Simplified(text, eng).value;
      ProjectionsEliminated(Renamed(s, nDim), projections, |projections|);
    }
  }

  /** With no rounding requested (None or 0) the result does not depend on the rounding at all. */
  lemma NoRoundingWhenFalsy(m: SymbolicModel, nDim: Option<int>, nDecimals: Option<int>, eng: Engine, otherRound: (real, int) -> real)
    requires !RoundingRequested(nDecimals)
    ensures ConvertSpec(m, nDim, nDecimals, eng) == ConvertSpec(m, nDim, None, eng.(round := otherRound))
  {
    if !m.OtherModel? && |ModelText(m)| <= MaxTextLength {
      assert Simplified(ModelText(m), eng) == Simplified(ModelText(m), eng.(round := otherRound));
    }
  }

  /**
   * With an idempotent rounding, rounding the result again changes nothing: every
   * Float at every depth, projections' included, is already rounded.
   */
  lemma RoundedEverywhere(m: SymbolicModel, nDim: Option<int>, d: int, eng: Engine)
    requires d != 0
    requires Idempotent(Rounder(eng, d))
    ensures var r := ConvertSpec(m, nDim, Some(d), eng);
      r.Ok? && r.value.Expression? ==> MapFloats(r.value.e, Rounder(eng, d)) == r.value.e
  {
    var r := ConvertSpec(m, nDim, Some(d), eng);
    if r.Ok? && r.value.Expression? {
      var s := Simplified(ModelText(m), eng).value;
      MapFloatsIdempotent(BackSubstituted(Renamed(s, nDim), m), Rounder(eng, d));
    }
  }

  /**
   * Every operator of the regressor's function set is read by the converter:
   * the binary ones as the algebra's operators, the unary ones as applications
   * of the function of that name.
   */
  lemma FunctionSetIsConverted(a: Term, b: Term)
    requires Convert(a).Some? && Convert(b).Some?
    ensures var fs := SymbRegUtils.FunctionSet();
      forall i :: 0 <= i < |fs| && SymbRegUtils.Arity(fs[i]) == 2 ==>
        Convert(Call(fs[i].name, [a, b])) == Some(Binary(BinOpOfName(fs[i].name).value, Convert(a).value, Convert(b).value))
    ensures var fs := SymbRegUtils.FunctionSet();
      forall i :: 0 <= i < |fs| && SymbRegUtils.Arity(fs[i]) == 1 ==>
        Convert(Call(fs[i].name, [a])) == Some(Apply(fs[i].name, Convert(a).value))
  {
    var fs := SymbRegUtils.FunctionSet();
    forall i | 0 <= i < |fs| && SymbRegUtils.Arity(fs[i]) == 2
      ensures Convert(Call(fs[i].name, [a, b])) == Some(Binary(BinOpOfName(fs[i].name).value, Convert(a).value, Convert(b).value))
    {
      var f := fs[i].name;
      assert f == "add" || f == "sub" || f == "mul" || f == "div" by {
        assert i < 4;
        assert i == 0 || i == 1 || i == 2 || i == 3;
      }
      assert BinOpOfName(f).Some?;
    }
    forall i | 0 <= i < |fs| && SymbRegUtils.Arity(fs[i]) == 1
      ensures Convert(Call(fs[i].name, [a])) == Some(Apply(fs[i].name, Convert(a).value))
    {
      var f := fs[i].name;
      assert f == "sqrt" || f == "log" || f == "sin" || f == "cos" || f == "abs" || f == "exp" by {
        assert 4 <= i < 10;
        assert i == 4 || i == 5 || i == 6 || i == 7 || i == 8 || i == 9;
      }
      assert !IsConverterName(f);
    }
  }
}
