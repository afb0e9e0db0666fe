/** Evaluation of expressions over four-valued vectors. */
module Evaluator {
  import opened Bits

  datatype BinOp = And | Or | Xor
  datatype RedOp = RAnd | RNand | ROr | RNor | RXor | RXnor

  datatype Expr =
    | Var(name: string)
    | Lit(bits: Vec)
    | Not(e: Expr)
    | Bin(op: BinOp, a: Expr, b: Expr)
    | Xnor(a: Expr, b: Expr)
    | Red(red: RedOp, e: Expr)
    | LogAnd(a: Expr, b: Expr)
    | LogOr(a: Expr, b: Expr)
    | LogNot(e: Expr)
    | Equal(a: Expr, b: Expr)
    | Cond(c: Expr, a: Expr, b: Expr)

  // ---- the operators on vectors ----

  function Apply(op: BinOp, a: Bit, b: Bit): Bit {
    match op
    case And => OpAnd(a, b)
    case Or => OpOr(a, b)
    case Xor => OpXor(a, b)
  }

  function Bitwise(op: BinOp, a: Vec, b: Vec): (r: Vec)
    ensures |r| == Max(|a|, |b|) && forall i :: 0 <= i < |r| ==> r[i] == Apply(op, At(a, i), At(b, i))
  {
    seq(Max(|a|, |b|), i requires 0 <= i => Apply(op, At(a, i), At(b, i)))
  }

  function Complement(a: Vec): (r: Vec)
    ensures |r| == |a| && forall i :: 0 <= i < |r| ==> r[i] == OpNot(a[i])
  {
    seq(|a|, i requires 0 <= i < |a| => OpNot(a[i]))
  }

  function Step(op: RedOp, x: Bit, b: Bit): Bit {
    match op
    case RAnd => OpAnd(x, b)
    case RNand => OpAnd(x, b)
    case ROr => OpOr(x, b)
    case RNor => OpOr(x, b)
    case RXor => OpXor(x, b)
    case RXnor => OpXor(x, b)
  }

  /** The accumulator after the bits of v have been folded into x. */
  function Folded(op: RedOp, x: Bit, v: Vec): Bit
    decreases v
  {
    if v == [] then x else Folded(op, Step(op, x, v[0]), v[1..])
  }

  /** The inverted reductions exchange 0 and 1 at the end; unknown values stay. */
  function Finish(op: RedOp, x: Bit): Bit {
    if op.RNand? || op.RNor? || op.RXnor? then (if x == L then H else if x == H then L else x) else x
  }

  function Reduced(op: RedOp, v: Vec): Bit
    requires v != []
  {
    Finish(op, Folded(op, v[0], v[1..]))
  }

  predicate HasUnknown(v: Vec) {
    exists i :: 0 <= i < |v| && !Known(v[i])
  }

  predicate HasHigh(v: Vec) {
    exists i :: 0 <= i < |v| && v[i] == H
  }

  /** The truth value of a vector: high if any bit is, else unknown if any bit is, else low. */
  function Truth(v: Vec): Bit {
    if HasHigh(v) then H else if HasUnknown(v) then X else L
  }

  predicate SameValue(a: Vec, b: Vec) {
    forall i :: 0 <= i < Max(|a|, |b|) ==> At(a, i) == At(b, i)
  }

  function Equals(a: Vec, b: Vec): Bit {
    if HasUnknown(a) || HasUnknown(b) then X else FromBool(SameValue(a, b))
  }

  function Both(x: Bit, y: Bit): Bit {
    if x == H && y == H then H else if x == L || y == L then L else X
  }

  function Either(x: Bit, y: Bit): Bit {
    if x == H || y == H then H else if x == L && y == L then L else X
  }

  /** An undecided condition keeps the bits on which both arms agree. */
  function Blend(a: Vec, b: Vec): (r: Vec)
    ensures |r| == Max(|a|, |b|)
    ensures forall i :: 0 <= i < |r| ==> r[i] == if At(a, i) == At(b, i) && At(a, i) != Z then At(a, i) else X
  {
    seq(Max(|a|, |b|), i requires 0 <= i => if At(a, i) == At(b, i) && At(a, i) != Z then At(a, i) else X)
  }

  /** The value of ?: from those of the condition and the arms. */
  function CondVal(c: Vec, v: Vec, w: Vec): Vec {
    if HasUnknown(c) then Blend(v, w) else if HasHigh(c) then v else w
  }

  // ---- evaluation ----

  /** The values of the variables. */
  type Env = string -> Vec

  function Eval(e: Expr, env: Env): Vec
    decreases e
  {
    match e
    case Var(x) => env(x)
    case Lit(v) => v
    case Not(a) => Complement(Eval(a, env))
    case Bin(op, a, b) => Bitwise(op, Eval(a, env), Eval(b, env))
    case Xnor(a, b) => Complement(Bitwise(Xor, Eval(a, env), Eval(b, env)))
    case Red(op, a) => var v := Eval(a, env); if v == [] then [X] else [Reduced(op, v)]
    case LogAnd(a, b) => [Both(Truth(Eval(a, env)), Truth(Eval(b, env)))]
    case LogOr(a, b) => [Either(Truth(Eval(a, env)), Truth(Eval(b, env)))]
    case LogNot(a) =>
      var t := Truth(Eval(a, env));
      [if t == H then L else if t == L then H else X]
    case Equal(a, b) => [Equals(Eval(a, env), Eval(b, env))]
    case Cond(c, a, b) => CondVal(Eval(c, env), Eval(a, env), Eval(b, env))
  }

  // ---- the same operators as the loops they are ----

  method BitwiseLoop(op: BinOp, a: Vec, b: Vec) returns (d: array<Bit>)
    ensures fresh(d) && d[..] == Bitwise(op, a, b)
  {
    d := new Bit[Max(|a|, |b|)](_ => X);
    var i := 0;
    while i < d.Length
      invariant 0 <= i <= d.Length
      invariant forall j :: 0 <= j < i ==> d[j] == Apply(op, At(a, j), At(b, j))
    {
      var i1 := if i < |a| then a[i] else L;
      var i2 := if i < |b| then b[i] else L;
      d[i] := Apply(op, i1, i2);
      i := i + 1;
    }
  }

  method ReduceLoop(op: RedOp, v: Vec) returns (x: Bit)
    requires v != []
    ensures x == Reduced(op, v)
  {
    x := v[0];
    var i := 1;
    while i < |v|
      invariant 1 <= i <= |v|
      invariant Folded(op, x, v[i..]) == Folded(op, v[0], v[1..])
    {
      assert v[i..][0] == v[i] && v[i..][1..] == v[i + 1..];
      x := Step(op, x, v[i]);
      i := i + 1;
    }
    x := Finish(op, x);
  }

  /** The test of a vector's bits: it returns at the first high one. */
  method TruthLoop(v: Vec) returns (t: Bit)
    ensures t == Truth(v)
  {
    var x := false;
    for i := 0 to |v|
      invariant forall j :: 0 <= j < i ==> v[j] != H
      invariant x <==> exists j :: 0 <= j < i && !Known(v[j])
    {
      if v[i] == H {
        return H;
      } else if v[i] != L {
        x := true;
      }
    }
    t := if x then X else L;
  }

  /** The condition of ?: is undecided as soon as any bit is, high bits notwithstanding. */
  method ConditionLoop(v: Vec) returns (t: Bit)
    ensures t == if HasUnknown(v) then X else if HasHigh(v) then H else L
  {
    t := L;
    for i := 0 to |v|
      invariant forall j :: 0 <= j < i ==> Known(v[j])
      invariant t == if exists j :: 0 <= j < i && v[j] == H then H else L
    {
      if v[i] == H {
        t := H;
      } else if v[i] == X || v[i] == Z {
        assert !Known(v[i]);
        return X;
      }
    }
  }

  method EqualsLoop(a: Vec, b: Vec) returns (r: Bit)
    ensures r == Equals(a, b)
  {
    if HasUnknown(a) || HasUnknown(b) {
      return X;
    }
    var wd := if |a| < |b| then |a| else |b|;
    for i := 0 to wd
      invariant forall j :: 0 <= j < i ==> a[j] == b[j]
    {
      if a[i] != b[i] {
        assert At(a, i) != At(b, i);
        return L;
      }
    }
    if |a| > |b| {
      for i := |b| to |a|
        invariant forall j :: 0 <= j < i ==> At(a, j) == At(b, j)
      {
        if a[i] != L {
          assert At(a, i) != At(b, i);
          return L;
        }
      }
    } else {
      for i := |a| to |b|
        invariant forall j :: 0 <= j < i ==> At(a, j) == At(b, j)
      {
        if b[i] != L {
          assert At(a, i) != At(b, i);
          return L;
        }
      }
    }
    r := H;
  }

  /** The evaluator, operator by operator, over the loops. */
  method Evaluate(e: Expr, env: Env) returns (r: Vec)
    ensures r == Eval(e, env)
    decreases e
  {
    match e {
      case Var(x) => r := env(x);
      case Lit(v) => r := v;
      case Not(a) =>
        var v := Evaluate(a, env);
        r := Complement(v);
      case Bin(op, a, b) =>
        var v := Evaluate(a, env);
        var w := Evaluate(b, env);
        var d := BitwiseLoop(op, v, w);
        r := d[..];
      case Xnor(a, b) =>
        var v := Evaluate(a, env);
        var w := Evaluate(b, env);
        var d := BitwiseLoop(Xor, v, w);
        r := Complement(d[..]);
      case Red(op, a) =>
        var v := Evaluate(a, env);
        if v == [] {
          r := [X];
        } else {
          var x := ReduceLoop(op, v);
          r := [x];
        }
      case LogAnd(a, b) =>
        var v := Evaluate(a, env);
        var w := Evaluate(b, env);
        var x := TruthLoop(v);
        var y := TruthLoop(w);
        r := [Both(x, y)];
      case LogOr(a, b) =>
        var v := Evaluate(a, env);
        var w := Evaluate(b, env);
        var x := TruthLoop(v);
        var y := TruthLoop(w);
        r := [Either(x, y)];
      case LogNot(a) =>
        var v := Evaluate(a, env);
        var t := TruthLoop(v);
        r := [if t == H then L else if t == L then H else X];
      case Equal(a, b) =>
        var v := Evaluate(a, env);
        var w := Evaluate(b, env);
        var x := EqualsLoop(v, w);
        r := [x];
      case Cond(c, a, b) =>
        var v := Evaluate(c, env);
        var t := ConditionLoop(v);
        if t == H {
          r := Evaluate(a, env);
        } else if t == L {
          r := Evaluate(b, env);
        } else {
          var x := Evaluate(a, env);
          var y := Evaluate(b, env);
          r := Blend(x, y);
        }
    }
  }

  // ---- sizes ----

  type Widths = string -> nat

  function Width(e: Expr, w: Widths): nat
    decreases e
  {
    match e
    case Var(x) => w(x)
    case Lit(v) => |v|
    case Not(a) => Width(a, w)
    case Bin(_, a, b) => Max(Width(a, w), Width(b, w))
    case Xnor(a, b) => Max(Width(a, w), Width(b, w))
    case Cond(_, a, _) => Width(a, w)
    case _ => 1
  }

  /** No vector is empty, and the two arms of every ?: are equally wide. Operands may differ. */
  predicate WellSized(e: Expr, w: Widths)
    decreases e
  {
    match e
    case Var(x) => w(x) > 0
    case Lit(v) => v != []
    case Not(a) => WellSized(a, w)
    case Bin(_, a, b) => WellSized(a, w) && WellSized(b, w)
    case Xnor(a, b) => WellSized(a, w) && WellSized(b, w)
    case Red(_, a) => WellSized(a, w)
    case LogAnd(a, b) => WellSized(a, w) && WellSized(b, w)
    case LogOr(a, b) => WellSized(a, w) && WellSized(b, w)
    case LogNot(a) => WellSized(a, w)
    case Equal(a, b) => WellSized(a, w) && WellSized(b, w)
    case Cond(c, a, b) =>
      WellSized(c, w) && WellSized(a, w) && WellSized(b, w) && Width(a, w) == Width(b, w)
  }

  ghost predicate HasWidths(env: Env, w: Widths) {
    forall x :: |env(x)| == w(x)
  }

  lemma {:induction false} EvalWidth(e: Expr, env: Env, w: Widths)
    requires WellSized(e, w) && HasWidths(env, w)
    ensures |Eval(e, env)| == Width(e, w) > 0
    decreases e
  {
    match e
    case Var(x) =>
    case Lit(v) =>
    case Not(a) => EvalWidth(a, env, w);
    case Bin(_, a, b) => EvalWidth(a, env, w); EvalWidth(b, env, w);
    case Xnor(a, b) => EvalWidth(a, env, w); EvalWidth(b, env, w);
    case Cond(c, a, b) => EvalWidth(c, env, w); EvalWidth(a, env, w); EvalWidth(b, env, w);
    case _ =>
  }

  // ---- more information in, no contradiction out ----

  ghost predicate FillsEnv(env: Env, env': Env) {
    forall x :: FillsVec(env(x), env'(x))
  }

  lemma {:induction false} FoldedFills(op: RedOp, x: Bit, x': Bit, v: Vec, v': Vec)
    requires Fills(x, x') && FillsVec(v, v')
    ensures Fills(Folded(op, x, v), Folded(op, x', v'))
    decreases v
  {
    if v != [] {
      FoldedFills(op, Step(op, x, v[0]), Step(op, x', v'[0]), v[1..], v'[1..]);
    }
  }

  lemma FillsAt(v: Vec, v': Vec, i: nat)
    requires FillsVec(v, v')
    ensures Fills(At(v, i), At(v', i))
  {
  }

  lemma TruthFills(v: Vec, v': Vec)
    requires FillsVec(v, v')
    ensures Fills(Truth(v), Truth(v'))
  {
    if HasHigh(v) {
      var i :| 0 <= i < |v| && v[i] == H;
      assert v'[i] == H;
    } else if !HasUnknown(v) {
      assert forall i :: 0 <= i < |v| ==> Known(v[i]) && v'[i] == v[i];
    }
  }

  lemma EqualsFills(v: Vec, v': Vec, w: Vec, w': Vec)
    requires FillsVec(v, v') && FillsVec(w, w')
    ensures Fills(Equals(v, w), Equals(v', w'))
  {
    if !HasUnknown(v) && !HasUnknown(w) {
      KnownIsFixed(v, v');
      KnownIsFixed(w, w');
    }
  }

  lemma KnownIsFixed(v: Vec, v': Vec)
    requires FillsVec(v, v') && !HasUnknown(v)
    ensures v' == v
  {
    assert forall i :: 0 <= i < |v| ==> Known(v[i]);
  }

  /** The evaluator never takes back what it has said: replacing unknown bits of the variables, by
      known bits or by other unknown ones, changes no bit of the result that was 0 or 1. */
  lemma {:induction false} Monotone(e: Expr, env: Env, env': Env, w: Widths)
    requires WellSized(e, w) && HasWidths(env, w) && FillsEnv(env, env')
    ensures FillsVec(Eval(e, env), Eval(e, env'))
    decreases e
  {
    EvalWidth(e, env, w);
    match e
    case Var(x) =>
    case Lit(v) =>
    case Not(a) => Monotone(a, env, env', w);
    case Bin(op, a, b) =>
      Monotone(a, env, env', w);
      Monotone(b, env, env', w);
      BitwiseFills(op, Eval(a, env), Eval(a, env'), Eval(b, env), Eval(b, env'));
    case Xnor(a, b) =>
      Monotone(a, env, env', w);
      Monotone(b, env, env', w);
      BitwiseFills(Xor, Eval(a, env), Eval(a, env'), Eval(b, env), Eval(b, env'));
    case Red(op, a) =>
      Monotone(a, env, env', w);
      EvalWidth(a, env, w);
      var v, v' := Eval(a, env), Eval(a, env');
      FoldedFills(op, v[0], v'[0], v[1..], v'[1..]);
    case LogAnd(a, b) =>
      Monotone(a, env, env', w);
      Monotone(b, env, env', w);
      TruthFills(Eval(a, env), Eval(a, env'));
      TruthFills(Eval(b, env), Eval(b, env'));
    case LogOr(a, b) =>
      Monotone(a, env, env', w);
      Monotone(b, env, env', w);
      TruthFills(Eval(a, env), Eval(a, env'));
      TruthFills(Eval(b, env), Eval(b, env'));
    case LogNot(a) =>
      Monotone(a, env, env', w);
      TruthFills(Eval(a, env), Eval(a, env'));
    case Equal(a, b) =>
      Monotone(a, env, env', w);
      Monotone(b, env, env', w);
      EqualsFills(Eval(a, env), Eval(a, env'), Eval(b, env), Eval(b, env'));
    case Cond(c, a, b) =>
      Monotone(c, env, env', w);
      Monotone(a, env, env', w);
      Monotone(b, env, env', w);
      EvalWidth(a, env, w);
      EvalWidth(b, env, w);
      CondFills(Eval(c, env), Eval(c, env'), Eval(a, env), Eval(a, env'), Eval(b, env), Eval(b, env'));
  }

  lemma BitwiseFills(op: BinOp, v: Vec, v': Vec, w: Vec, w': Vec)
    requires FillsVec(v, v') && FillsVec(w, w')
    ensures FillsVec(Bitwise(op, v, w), Bitwise(op, v', w'))
  {
    forall i | 0 <= i < Max(|v|, |w|) ensures Fills(Bitwise(op, v, w)[i], Bitwise(op, v', w')[i]) {
      FillsAt(v, v', i);
      FillsAt(w, w', i);
    }
  }

  /** A condition that becomes decided picks an arm, and both arms agree with the blend. */
  lemma CondFills(c: Vec, c': Vec, v: Vec, v': Vec, w: Vec, w': Vec)
    requires FillsVec(c, c') && FillsVec(v, v') && FillsVec(w, w') && |v| == |w|
    ensures FillsVec(CondVal(c, v, w), CondVal(c', v', w'))
  {
    if !HasUnknown(c) {
      KnownIsFixed(c, c');
    } else {
      forall i | 0 <= i < |v| ensures Fills(Blend(v, w)[i], Blend(v', w')[i]) {
        assert At(v, i) == v[i] && At(w, i) == w[i];
      }
    }
  }

  // ---- the two-valued reference ----

  type BoolEnv = string -> seq<bool>

  function BoolAt(v: seq<bool>, i: nat): bool {
    i < |v| && v[i]
  }

  predicate Any(v: seq<bool>) {
    exists i :: 0 <= i < |v| && v[i]
  }

  predicate All(v: seq<bool>) {
    forall i :: 0 <= i < |v| ==> v[i]
  }

  function Ones(v: seq<bool>): nat {
    if v == [] then 0 else (if v[0] then 1 else 0) + Ones(v[1..])
  }

  /** Logic as in the textbook: reductions are all, any and parity; conditions are any. */
  function Eval2(e: Expr, env: BoolEnv): seq<bool>
    decreases e
  {
    match e
    case Var(x) => env(x)
    case Lit(v) => seq(|v|, i requires 0 <= i < |v| => v[i] == H)
    case Not(a) => Complement2(Eval2(a, env))
    case Bin(op, a, b) => Bitwise2(op, Eval2(a, env), Eval2(b, env))
    case Xnor(a, b) => Complement2(Bitwise2(Xor, Eval2(a, env), Eval2(b, env)))
    case Red(op, a) => [Reduced2(op, Eval2(a, env))]
    case LogAnd(a, b) => [Any(Eval2(a, env)) && Any(Eval2(b, env))]
    case LogOr(a, b) => [Any(Eval2(a, env)) || Any(Eval2(b, env))]
    case LogNot(a) => [!Any(Eval2(a, env))]
    case Equal(a, b) =>
      var v, w := Eval2(a, env), Eval2(b, env);
      [forall i :: 0 <= i < Max(|v|, |w|) ==> BoolAt(v, i) == BoolAt(w, i)]
    case Cond(c, a, b) => if Any(Eval2(c, env)) then Eval2(a, env) else Eval2(b, env)
  }

  function Complement2(v: seq<bool>): (r: seq<bool>)
    ensures |r| == |v| && forall i :: 0 <= i < |v| ==> r[i] == !v[i]
  {
    seq(|v|, i requires 0 <= i < |v| => !v[i])
  }

  function Bitwise2(op: BinOp, v: seq<bool>, w: seq<bool>): (r: seq<bool>)
    ensures |r| == Max(|v|, |w|) && forall i :: 0 <= i < |r| ==> r[i] == Apply2(op, BoolAt(v, i), BoolAt(w, i))
  {
    seq(Max(|v|, |w|), i requires 0 <= i => Apply2(op, BoolAt(v, i), BoolAt(w, i)))
  }

  function Apply2(op: BinOp, a: bool, b: bool): bool {
    match op
    case And => a && b
    case Or => a || b
    case Xor => a != b
  }

  function Reduced2(op: RedOp, v: seq<bool>): bool {
    match op
    case RAnd => All(v)
    case RNand => !All(v)
    case ROr => Any(v)
    case RNor => !Any(v)
    case RXor => Ones(v) % 2 == 1
    case RXnor => Ones(v) % 2 == 0
  }

  /** The literals of the expression have no unknown bits. */
  predicate KnownLiterals(e: Expr)
    decreases e
  {
    match e
    case Var(_) => true
    case Lit(v) => AllKnown(v)
    case Not(a) => KnownLiterals(a)
    case Bin(_, a, b) => KnownLiterals(a) && KnownLiterals(b)
    case Xnor(a, b) => KnownLiterals(a) && KnownLiterals(b)
    case Red(_, a) => KnownLiterals(a)
    case LogAnd(a, b) => KnownLiterals(a) && KnownLiterals(b)
    case LogOr(a, b) => KnownLiterals(a) && KnownLiterals(b)
    case LogNot(a) => KnownLiterals(a)
    case Equal(a, b) => KnownLiterals(a) && KnownLiterals(b)
    case Cond(c, a, b) => KnownLiterals(c) && KnownLiterals(a) && KnownLiterals(b)
  }

  function Known4(env: BoolEnv): Env {
    (x: string) => FromBools(env(x))
  }

  lemma {:induction false} FoldedKnown(op: RedOp, x: bool, v: seq<bool>)
    ensures Folded(op, FromBool(x), FromBools(v)) == FromBool(
              match op
              case RAnd => x && All(v)
              case RNand => x && All(v)
              case ROr => x || Any(v)
              case RNor => x || Any(v)
              case RXor => ((if x then 1 else 0) + Ones(v)) % 2 == 1
              case RXnor => ((if x then 1 else 0) + Ones(v)) % 2 == 1)
    decreases v
  {
    if v != [] {
      var y := match op case RAnd => x && v[0] case RNand => x && v[0] case ROr => x || v[0]
                        case RNor => x || v[0] case RXor => x != v[0] case RXnor => x != v[0];
      assert FromBools(v)[1..] == FromBools(v[1..]);
      FoldedKnown(op, y, v[1..]);
      AnyTail(v);
    }
  }

  lemma AnyTail(v: seq<bool>)
    requires v != []
    ensures Any(v) <==> v[0] || Any(v[1..])
    ensures All(v) <==> v[0] && All(v[1..])
  {
    assert forall i :: 0 < i < |v| ==> v[i] == v[1..][i - 1];
    assert forall i :: 0 <= i < |v| - 1 ==> v[1..][i] == v[i + 1];
  }

  lemma ReducedKnown(op: RedOp, v: seq<bool>)
    requires v != []
    ensures Reduced(op, FromBools(v)) == FromBool(Reduced2(op, v))
  {
    FoldedKnown(op, v[0], v[1..]);
    assert FromBools(v)[1..] == FromBools(v[1..]);
    AnyTail(v);
  }

  lemma TruthKnown(v: seq<bool>)
    ensures !HasUnknown(FromBools(v)) && (HasHigh(FromBools(v)) <==> Any(v))
    ensures Truth(FromBools(v)) == FromBool(Any(v))
  {
    if Any(v) {
      var i :| 0 <= i < |v| && v[i];
      assert FromBools(v)[i] == H;
    }
  }

  lemma AtKnown(v: seq<bool>, i: nat)
    ensures At(FromBools(v), i) == FromBool(BoolAt(v, i))
  {
  }

  lemma ComplementKnown(v: seq<bool>)
    ensures Complement(FromBools(v)) == FromBools(Complement2(v))
  {
  }

  lemma BitwiseKnown(op: BinOp, v: seq<bool>, w: seq<bool>)
    ensures Bitwise(op, FromBools(v), FromBools(w)) == FromBools(Bitwise2(op, v, w))
  {
    forall i: nat ensures At(FromBools(v), i) == FromBool(BoolAt(v, i)) && At(FromBools(w), i) == FromBool(BoolAt(w, i)) {
      AtKnown(v, i);
      AtKnown(w, i);
    }
  }

  lemma EqualsKnown(v: seq<bool>, w: seq<bool>)
    ensures Equals(FromBools(v), FromBools(w)) ==
            FromBool(forall i :: 0 <= i < Max(|v|, |w|) ==> BoolAt(v, i) == BoolAt(w, i))
  {
    TruthKnown(v);
    TruthKnown(w);
    forall i: nat ensures At(FromBools(v), i) == At(FromBools(w), i) <==> BoolAt(v, i) == BoolAt(w, i) {
      AtKnown(v, i);
      AtKnown(w, i);
    }
  }

  /** On known inputs the evaluator computes the two-valued logic, and nothing unknown. */
  lemma {:induction false} ExactWhenKnown(e: Expr, env: BoolEnv, w: Widths)
    requires WellSized(e, w) && HasWidths(Known4(env), w) && KnownLiterals(e)
    ensures Eval(e, Known4(env)) == FromBools(Eval2(e, env))
    decreases e
  {
    var env4 := Known4(env);
    EvalWidth(e, env4, w);
    match e
    case Var(x) =>
    case Lit(v) =>
      assert forall i :: 0 <= i < |v| ==> Known(v[i]);
    case Not(a) =>
      ExactWhenKnown(a, env, w);
      ComplementKnown(Eval2(a, env));
    case Bin(op, a, b) =>
      ExactWhenKnown(a, env, w);
      ExactWhenKnown(b, env, w);
      BitwiseKnown(op, Eval2(a, env), Eval2(b, env));
    case Xnor(a, b) =>
      ExactWhenKnown(a, env, w);
      ExactWhenKnown(b, env, w);
      BitwiseKnown(Xor, Eval2(a, env), Eval2(b, env));
      ComplementKnown(Bitwise2(Xor, Eval2(a, env), Eval2(b, env)));
    case Red(op, a) =>
      ExactWhenKnown(a, env, w);
      EvalWidth(a, env4, w);
      ReducedKnown(op, Eval2(a, env));
    case LogAnd(a, b) =>
      ExactWhenKnown(a, env, w);
      ExactWhenKnown(b, env, w);
      TruthKnown(Eval2(a, env));
      TruthKnown(Eval2(b, env));
    case LogOr(a, b) =>
      ExactWhenKnown(a, env, w);
      ExactWhenKnown(b, env, w);
      TruthKnown(Eval2(a, env));
      TruthKnown(Eval2(b, env));
    case LogNot(a) =>
      ExactWhenKnown(a, env, w);
      TruthKnown(Eval2(a, env));
    case Equal(a, b) =>
      ExactWhenKnown(a, env, w);
      ExactWhenKnown(b, env, w);
      EqualsKnown(Eval2(a, env), Eval2(b, env));
    case Cond(c, a, b) =>
      ExactWhenKnown(c, env, w);
      ExactWhenKnown(a, env, w);
      ExactWhenKnown(b, env, w);
      TruthKnown(Eval2(c, env));
  }

  /** Every result bit that is 0 or 1 has that value in two-valued logic, for every way of choosing
      the unknown input bits. */
  lemma SoundForEveryFilling(e: Expr, env: Env, choice: BoolEnv, w: Widths)
    requires WellSized(e, w) && HasWidths(env, w) && KnownLiterals(e) && FillsEnv(env, Known4(choice))
    ensures FillsVec(Eval(e, env), FromBools(Eval2(e, choice)))
  {
    Monotone(e, env, Known4(choice), w);
    assert HasWidths(Known4(choice), w);
    ExactWhenKnown(e, choice, w);
  }

  /** Filling in the condition never contradicts the value of ?:, exactly if its arms are equally
      wide. */
  lemma CondFillsExactlyWhen(v: Vec, w: Vec)
    ensures (forall c, c' :: FillsVec(c, c') ==> FillsVec(CondVal(c, v, w), CondVal(c', v, w))) <==> |v| == |w|
  {
    if |v| == |w| {
      forall c, c' | FillsVec(c, c') ensures FillsVec(CondVal(c, v, w), CondVal(c', v, w)) {
        CondFills(c, c', v, v, w, w);
      }
    } else {
      var c, high, low := [X], [H], [L];
      assert !Known(c[0]) && high[0] == H && FillsVec(c, high) && FillsVec(c, low);
      assert CondVal(c, v, w) == Blend(v, w) && CondVal(high, v, w) == v && CondVal(low, v, w) == w;
    }
  }

  /** The bits as an operator reads them, with those beyond the width low, are never contradicted. */
  ghost predicate ReadsRight(v: Vec, v': Vec) {
    forall i: nat :: Fills(At(v, i), At(v', i))
  }

  /** An operator that reads its operand bit by bit sees no contradiction in ?:, whatever the widths. */
  lemma CondReadsRight(c: Vec, c': Vec, v: Vec, w: Vec)
    requires FillsVec(c, c')
    ensures ReadsRight(CondVal(c, v, w), CondVal(c', v, w))
  {
    if !HasUnknown(c) {
      KnownIsFixed(c, c');
    } else {
      var r := Blend(v, w);
      forall i: nat ensures Fills(At(r, i), At(v, i)) && Fills(At(r, i), At(w, i)) {
      }
    }
  }

  /** The longer arm is nowhere low beyond the width of the other. */
  ghost predicate NoLowBeyond(v: Vec, w: Vec) {
    forall i :: |v| <= i < |w| || |w| <= i < |v| ==> At(v, i) != L || At(w, i) != L
  }

  /** The complement is taken in the width of the operand. It sees no contradiction exactly if no bit
      of the longer arm is low beyond the width of the other. */
  lemma NotCondReadsRightExactlyWhen(v: Vec, w: Vec)
    ensures (forall c, c' :: FillsVec(c, c') ==>
               ReadsRight(Complement(CondVal(c, v, w)), Complement(CondVal(c', v, w))))
            <==> NoLowBeyond(v, w)
  {
    if NoLowBeyond(v, w) {
      forall c, c' | FillsVec(c, c')
        ensures ReadsRight(Complement(CondVal(c, v, w)), Complement(CondVal(c', v, w)))
      {
        NotCondReadsRight(c, c', v, w);
      }
    } else {
      var i :| (|v| <= i < |w| || |w| <= i < |v|) && At(v, i) == L && At(w, i) == L;
      var c, high, low := [X], [H], [L];
      assert !Known(c[0]) && high[0] == H && FillsVec(c, high) && FillsVec(c, low);
      assert CondVal(c, v, w) == Blend(v, w) && CondVal(high, v, w) == v && CondVal(low, v, w) == w;
      assert At(Complement(Blend(v, w)), i) == H;
      assert At(Complement(if i >= |v| then v else w), i) == L;
    }
  }

  lemma NotCondReadsRight(c: Vec, c': Vec, v: Vec, w: Vec)
    requires FillsVec(c, c') && NoLowBeyond(v, w)
    ensures ReadsRight(Complement(CondVal(c, v, w)), Complement(CondVal(c', v, w)))
  {
    if !HasUnknown(c) {
      KnownIsFixed(c, c');
    } else {
      var r := Blend(v, w);
      forall i: nat
        ensures Fills(At(Complement(r), i), At(Complement(v), i)) && Fills(At(Complement(r), i), At(Complement(w), i))
      {
      }
    }
  }

  /** Without equally wide arms it fails: ~(c ? 1'b1 : 2'b01) with c unknown has bit 1 high, but
      once c is high the result has no bit 1 at all, and it reads as low. */
  lemma UnequalArmsContradict(env: Env, env': Env)
    requires env("c") == [X] && env'("c") == [H]
    ensures var e := Not(Cond(Var("c"), Lit([H]), Lit([H, L])));
            At(Eval(e, env), 1) == H && At(Eval(e, env'), 1) == L
  {
    var c := Var("c");
    assert HasUnknown(Eval(c, env)) by {
      assert !Known(Eval(c, env)[0]);
    }
    assert !HasUnknown(Eval(c, env')) && HasHigh(Eval(c, env')) by {
      assert Eval(c, env')[0] == H;
    }
    var r := Blend([H], [H, L]);
    assert Max(1, 2) == 2 && |r| == 2;
    assert r[1] == L;
  }

  // ---- known exactly when all fillings agree ----

  /** The values that bit b may turn out to have: its own when it is known, and either otherwise. */
  predicate MayBe(b: Bit, x: bool) {
    Known(b) ==> b == FromBool(x)
  }

  predicate MayBeAll(v: Vec, w: seq<bool>) {
    |w| == |v| && forall i :: 0 <= i < |v| ==> MayBe(v[i], w[i])
  }

  /** A bit of a bitwise result is known exactly if it comes out the same for all values that the two
      operand bits may have. */
  lemma BitwiseIsTight(op: BinOp, a: Expr, b: Expr, env: Env, i: nat, r: bool)
    requires i < |Eval(Bin(op, a, b), env)|
    ensures |Eval(Bin(op, a, b), env)| == Max(|Eval(a, env)|, |Eval(b, env)|)
    ensures Eval(Bin(op, a, b), env)[i] == FromBool(r) <==>
              forall x: bool, y: bool :: MayBe(At(Eval(a, env), i), x) && MayBe(At(Eval(b, env), i), y) ==> Apply2(op, x, y) == r
  {
    ApplyIsTight(op, At(Eval(a, env), i), At(Eval(b, env), i), r);
  }

  lemma ApplyIsTight(op: BinOp, p: Bit, q: Bit, r: bool)
    ensures Apply(op, p, q) == FromBool(r) <==>
              forall x: bool, y: bool :: MayBe(p, x) && MayBe(q, y) ==> Apply2(op, x, y) == r
  {
    assert MayBe(p, Turned(p, true)) && MayBe(p, Turned(p, false)) && MayBe(q, Turned(q, true)) && MayBe(q, Turned(q, false));
  }

  /** A value that b may have: its own, or x. */
  function Turned(b: Bit, x: bool): bool {
    if Known(b) then b == H else x
  }

  lemma XnorIsTight(a: Expr, b: Expr, env: Env, i: nat, r: bool)
    requires i < |Eval(Xnor(a, b), env)|
    ensures Eval(Xnor(a, b), env)[i] == FromBool(r) <==> AlwaysSame(At(Eval(a, env), i), At(Eval(b, env), i), r)
  {
    SameIsTight(At(Eval(a, env), i), At(Eval(b, env), i), r);
  }

  /** Whether the two are the same comes out as r for all values that they may have. */
  predicate AlwaysSame(p: Bit, q: Bit, r: bool) {
    forall x: bool, y: bool :: MayBe(p, x) && MayBe(q, y) ==> (x == y) == r
  }

  lemma SameIsTight(p: Bit, q: Bit, r: bool)
    ensures OpNot(Apply(Xor, p, q)) == FromBool(r) <==> AlwaysSame(p, q, r)
  {
    assert MayBe(p, Turned(p, true)) && MayBe(p, Turned(p, false)) && MayBe(q, Turned(q, true)) && MayBe(q, Turned(q, false));
  }

  /** The complement turns known bits round and leaves the others unknown. */
  lemma ComplementIsTight(a: Expr, env: Env, i: nat, r: bool)
    requires i < |Eval(Not(a), env)|
    ensures |Eval(Not(a), env)| == |Eval(a, env)|
    ensures Eval(Not(a), env)[i] == FromBool(r) <==> forall x: bool :: MayBe(Eval(a, env)[i], x) ==> !x == r
  {
    var p := Eval(a, env)[i];
    assert MayBe(p, Turned(p, true)) && MayBe(p, Turned(p, false));
  }

  // ---- reductions ----

  predicate IsAnd(op: RedOp) {
    op.RAnd? || op.RNand?
  }

  predicate IsOr(op: RedOp) {
    op.ROr? || op.RNor?
  }

  lemma {:induction false} FoldedAnd(op: RedOp, x: Bit, v: Vec)
    requires IsAnd(op)
    ensures Folded(op, x, v) == L <==> x == L || L in v
    ensures Folded(op, x, v) == H <==> x == H && forall i :: 0 <= i < |v| ==> v[i] == H
    decreases v
  {
    if v != [] {
      FoldedAnd(op, Step(op, x, v[0]), v[1..]);
      assert v == [v[0]] + v[1..];
      AllTail(v, H);
    }
  }

  lemma {:induction false} FoldedOr(op: RedOp, x: Bit, v: Vec)
    requires IsOr(op)
    ensures Folded(op, x, v) == H <==> x == H || H in v
    ensures Folded(op, x, v) == L <==> x == L && forall i :: 0 <= i < |v| ==> v[i] == L
    decreases v
  {
    if v != [] {
      FoldedOr(op, Step(op, x, v[0]), v[1..]);
      assert v == [v[0]] + v[1..];
      AllTail(v, L);
    }
  }

  lemma {:induction false} FoldedXor(op: RedOp, x: Bit, v: Vec)
    requires op.RXor? || op.RXnor?
    ensures Known(Folded(op, x, v)) <==> Known(x) && AllKnown(v)
    decreases v
  {
    if v != [] {
      FoldedXor(op, Step(op, x, v[0]), v[1..]);
      assert AllKnown(v) <==> Known(v[0]) && AllKnown(v[1..]) by {
        assert forall i :: 0 < i < |v| ==> v[i] == v[1..][i - 1];
        assert forall i :: 0 <= i < |v[1..]| ==> v[1..][i] == v[i + 1];
      }
    }
  }

  lemma AllTail(v: Vec, b: Bit)
    requires v != []
    ensures (forall i :: 0 <= i < |v| ==> v[i] == b) <==> v[0] == b && forall i :: 0 <= i < |v[1..]| ==> v[1..][i] == b
  {
    assert forall i :: 0 < i < |v| ==> v[i] == v[1..][i - 1];
    assert forall i :: 0 <= i < |v[1..]| ==> v[1..][i] == v[i + 1];
  }

  /** All unknown bits turn out the same. */
  function Filled(v: Vec, x: bool): (w: seq<bool>)
    ensures MayBeAll(v, w) && forall i :: 0 <= i < |v| ==> w[i] == if Known(v[i]) then v[i] == H else x
  {
    seq(|v|, i requires 0 <= i < |v| => if Known(v[i]) then v[i] == H else x)
  }

  lemma {:induction false} OnesFlip(w: seq<bool>, i: nat)
    requires i < |w|
    ensures Ones(w[i := !w[i]]) % 2 != Ones(w) % 2
  {
    if i == 0 {
      assert w[0 := !w[0]][1..] == w[1..];
    } else {
      OnesFlip(w[1..], i - 1);
      assert w[i := !w[i]][1..] == w[1..][i - 1 := !w[1..][i - 1]];
    }
  }

  /** An unknown reduction can still come out either way. */
  lemma UnknownReduction(op: RedOp, v: Vec) returns (w: seq<bool>, u: seq<bool>)
    requires v != [] && !Known(Reduced(op, v))
    ensures MayBeAll(v, w) && MayBeAll(v, u) && Reduced2(op, w) != Reduced2(op, u)
  {
    w, u := Filled(v, false), Filled(v, true);
    assert v == [v[0]] + v[1..];
    if IsAnd(op) {
      FoldedAnd(op, v[0], v[1..]);
      AllTail(v, H);
      var i :| 0 <= i < |v| && v[i] != H;
      assert !w[i] && All(u);
    } else if IsOr(op) {
      FoldedOr(op, v[0], v[1..]);
      AllTail(v, L);
      var i :| 0 <= i < |v| && v[i] != L;
      assert u[i] && !Any(w);
    } else {
      FoldedXor(op, v[0], v[1..]);
      assert forall i :: 0 < i < |v| ==> v[i] == v[1..][i - 1];
      var i :| 0 <= i < |v| && !Known(v[i]);
      u := w[i := !w[i]];
      OnesFlip(w, i);
    }
  }

  /** A reduction is known exactly if it comes out the same for all values that the bits may have. */
  lemma ReductionIsTight(op: RedOp, a: Expr, env: Env, r: bool)
    requires Eval(a, env) != []
    ensures Eval(Red(op, a), env) == [FromBool(r)] <==> forall w :: MayBeAll(Eval(a, env), w) ==> Reduced2(op, w) == r
  {
    var v := Eval(a, env);
    forall w | MayBeAll(v, w) ensures Fills(Reduced(op, v), FromBool(Reduced2(op, w))) {
      assert FillsVec(v, FromBools(w));
      FoldedFills(op, v[0], FromBools(w)[0], v[1..], FromBools(w)[1..]);
      ReducedKnown(op, w);
    }
    if Known(Reduced(op, v)) {
      assert MayBeAll(v, Filled(v, true));
    } else {
      var w, u := UnknownReduction(op, v);
    }
  }

  // ---- truth values ----

  /** The truth value of a vector is known exactly if it is the same for all values of its bits. */
  lemma TruthIsTight(v: Vec, r: bool)
    ensures Truth(v) == FromBool(r) <==> forall w :: MayBeAll(v, w) ==> Any(w) == r
  {
    var w, u := Filled(v, false), Filled(v, true);
    if HasHigh(v) {
      var i :| 0 <= i < |v| && v[i] == H;
      forall x | MayBeAll(v, x) ensures Any(x) {
        assert MayBe(v[i], x[i]);
      }
      assert Any(w);
    } else if HasUnknown(v) {
      var i :| 0 <= i < |v| && !Known(v[i]);
      assert u[i] && !Any(w);
    } else {
      forall x | MayBeAll(v, x) ensures !Any(x) {
        assert forall i :: 0 <= i < |v| ==> v[i] == L && MayBe(v[i], x[i]);
      }
      assert !Any(w);
    }
  }

  /** The conjunction is r for all values that these may have, and so on. */
  predicate AlwaysBoth(p: Bit, q: Bit, r: bool) {
    forall x: bool, y: bool :: MayBe(p, x) && MayBe(q, y) ==> (x && y) == r
  }

  predicate AlwaysEither(p: Bit, q: Bit, r: bool) {
    forall x: bool, y: bool :: MayBe(p, x) && MayBe(q, y) ==> (x || y) == r
  }

  predicate AlwaysNot(p: Bit, r: bool) {
    forall x: bool :: MayBe(p, x) ==> !x == r
  }

  lemma BothIsTight(p: Bit, q: Bit, r: bool)
    ensures Both(p, q) == FromBool(r) <==> AlwaysBoth(p, q, r)
  {
    assert MayBe(p, Turned(p, true)) && MayBe(p, Turned(p, false)) && MayBe(q, Turned(q, true)) && MayBe(q, Turned(q, false));
  }

  lemma EitherIsTight(p: Bit, q: Bit, r: bool)
    ensures Either(p, q) == FromBool(r) <==> AlwaysEither(p, q, r)
  {
    assert MayBe(p, Turned(p, true)) && MayBe(p, Turned(p, false)) && MayBe(q, Turned(q, true)) && MayBe(q, Turned(q, false));
  }

  lemma NeitherIsTight(p: Bit, r: bool)
    ensures (if p == H then L else if p == L then H else X) == FromBool(r) <==> AlwaysNot(p, r)
  {
    assert MayBe(p, Turned(p, true)) && MayBe(p, Turned(p, false));
  }

  /** Logical results are known exactly if they are the same for all truth values that the operands
      may have. */
  lemma LogicIsTight(a: Expr, b: Expr, env: Env, r: bool)
    ensures var p, q := Truth(Eval(a, env)), Truth(Eval(b, env));
      && (Eval(LogAnd(a, b), env) == [FromBool(r)] <==> AlwaysBoth(p, q, r))
      && (Eval(LogOr(a, b), env) == [FromBool(r)] <==> AlwaysEither(p, q, r))
      && (Eval(LogNot(a), env) == [FromBool(r)] <==> AlwaysNot(p, r))
  {
    var p, q := Truth(Eval(a, env)), Truth(Eval(b, env));
    BothIsTight(p, q, r);
    EitherIsTight(p, q, r);
    NeitherIsTight(p, r);
    assert Eval(LogAnd(a, b), env) == [Both(p, q)] && Eval(LogOr(a, b), env) == [Either(p, q)];
  }

  // ---- where the code answers x by a rule of its own ----

  /** A comparison is x if and only if some bit of either operand is unknown, even where the other bits
      already differ; otherwise it tells whether all bits agree, with missing ones low. */
  lemma ComparisonIs(a: Expr, b: Expr, env: Env)
    ensures var v, w := Eval(a, env), Eval(b, env);
      var unknown := (exists i :: 0 <= i < |v| && v[i] != L && v[i] != H) || (exists i :: 0 <= i < |w| && w[i] != L && w[i] != H);
      && (unknown ==> Eval(Equal(a, b), env) == [X])
      && (!unknown ==>
            Eval(Equal(a, b), env) == [if forall i: nat :: i < |v| || i < |w| ==> At(v, i) == At(w, i) then H else L])
  {
    var v, w := Eval(a, env), Eval(b, env);
    if forall i: nat :: i < |v| || i < |w| ==> At(v, i) == At(w, i) {
      assert SameValue(v, w);
    }
  }

  /** The choice is undecided if and only if some bit of the condition is unknown, even where another is
      high. Then a bit is known exactly if both arms have it, with missing ones low, and x otherwise. */
  lemma ChoiceIs(c: Expr, a: Expr, b: Expr, env: Env)
    ensures var k, v, w, r := Eval(c, env), Eval(a, env), Eval(b, env), Eval(Cond(c, a, b), env);
      if exists i :: 0 <= i < |k| && k[i] != L && k[i] != H then
        && |r| == Max(|v|, |w|)
        && forall i :: 0 <= i < |r| ==> r[i] == if At(v, i) == At(w, i) && Known(At(v, i)) then At(v, i) else X
      else r == if H in k then v else w
  {
    var k, v, w := Eval(c, env), Eval(a, env), Eval(b, env);
    assert HasUnknown(k) <==> exists i :: 0 <= i < |k| && k[i] != L && k[i] != H;
    assert HasHigh(k) <==> H in k;
  }
}
