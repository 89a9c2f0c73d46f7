/** The type rules of expressions and statements, said without the functions that compute them. */
module Typing {
  import opened IntTypes
  import opened Syntax

  /** e is well typed and has type t. */
  ghost predicate HasTy(g: seq<Ty>, e: Expr, t: Ty)
    decreases e, 0
  {
    match e
    case Lit(u, _) => t == u
    case Var(x) => x < |g| && t == g[x]
    case Neg(a) => HasTy(g, a, t) && t in {I8, I16, I32, I64, BOOL}
    case Not(a) => HasTy(g, a, t)
    case Arith(_, l, r) => HasTy(g, l, t) && HasTy(g, r, t)
    case Cmp(_, l, r) => t == BOOL && exists u :: HasTy(g, l, u) && HasTy(g, r, u)
    case Logic(_, l, r) => t == BOOL && HasTy(g, l, BOOL) && HasTy(g, r, BOOL)
    case As(a, to) => t == to && exists u :: HasTy(g, a, u) && (to == BOOL ==> u == BOOL)
    case Call(_, res, args) => t == res && forall i | 0 <= i < |args| :: Typed(g, args[i])
  }

  ghost predicate Typed(g: seq<Ty>, e: Expr)
    decreases e, 1
  {
    exists u :: HasTy(g, e, u)
  }

  /** The walker's type of an expression is the one the rules give, and it refuses exactly the
      expressions to which they give none: no mixed operands, no minus on an unsigned type, no
      cast of a number to bool. */
  lemma {:induction false} TypedIff(g: seq<Ty>, e: Expr, t: Ty)
    ensures TypeE(g, e) == Some(t) <==> HasTy(g, e, t)
    decreases e, 0
  {
    match e
    case Lit(_, _) =>
    case Var(_) =>
    case Neg(a) => TypedIff(g, a, t);
    case Not(a) => TypedIff(g, a, t);
    case Arith(_, l, r) =>
      TypedIff(g, l, t);
      TypedIff(g, r, t);
    case Cmp(_, l, r) =>
      TypedSome(g, l);
      TypedSome(g, r);
      if TypeE(g, l).Some? { TypedIff(g, r, TypeE(g, l).value); }
    case Logic(_, l, r) =>
      TypedIff(g, l, BOOL);
      TypedIff(g, r, BOOL);
    case As(a, to) =>
      TypedSome(g, a);
      forall u
        ensures GenCastOp(u, to) != Bad <==> to == BOOL ==> u == BOOL
      {
        CastLegal(u, to);
      }
    case Call(_, _, args) =>
      forall i | 0 <= i < |args|
        ensures TypeE(g, args[i]).Some? <==> Typed(g, args[i])
      {
        TypedSome(g, args[i]);
      }
  }

  lemma {:induction false} TypedSome(g: seq<Ty>, e: Expr)
    ensures TypeE(g, e).Some? <==> Typed(g, e)
    ensures forall u :: TypeE(g, e) == Some(u) <==> HasTy(g, e, u)
    decreases e, 1
  {
    forall u
      ensures TypeE(g, e) == Some(u) <==> HasTy(g, e, u)
    {
      TypedIff(g, e, u);
    }
    if TypeE(g, e).Some? {
      assert HasTy(g, e, TypeE(g, e).value);
    }
  }

  // ----- statements -----

  /** s and all statements in it, each with the return type of its function. */
  function Parts(ret: Option<Ty>, s: Stmt): seq<(Option<Ty>, Stmt)>
    decreases s
  {
    [(ret, s)] +
    match s
    case Block(ss) => PartsSeq(ret, ss)
    case If(_, bodies, remain) => PartsSeq(ret, bodies) + if remain.Some? then Parts(ret, remain.value) else []
    case While(_, b) => Parts(ret, b)
    case Loop(b) => Parts(ret, b)
    case For(_, _, b) => Parts(ret, b)
    case FnDef(r, b) => Parts(r, b)
    case _ => []
  }

  function PartsSeq(ret: Option<Ty>, ss: seq<Stmt>): seq<(Option<Ty>, Stmt)>
    decreases ss
  {
    if ss == [] then [] else Parts(ret, ss[0]) + PartsSeq(ret, ss[1..])
  }

  /** The statement has no type error of its own. */
  ghost predicate RuleOk(g: seq<Ty>, ret: Option<Ty>, s: Stmt) {
    match s
    case ExprStmt(e) => Typed(g, e)
    case Assign(x, e) => x < |g| && HasTy(g, e, g[x])
    case AssignOp(x, _, e) => x < |g| && HasTy(g, e, g[x])
    case If(conds, bodies, _) => |conds| == |bodies| && forall i | 0 <= i < |conds| :: HasTy(g, conds[i], BOOL)
    case While(c, _) => HasTy(g, c, BOOL)
    case For(x, src, _) =>
      x < |g| &&
      (match src
       case Range(lo, hi, _) => g[x] != BOOL && HasTy(g, lo, g[x]) && HasTy(g, hi, g[x])
       case Array(base, count) =>
         base + count <= |g| && count < 0x1_0000_0000_0000_0000 && forall k | base <= k < base + count :: g[k] == g[x])
    case Ret(v) => if v.Some? then ret.Some? && HasTy(g, v.value, ret.value) else ret.None?
    case FnDef(r, b) => r.Some? ==> RetFlag(b, false)
    case _ => true
  }

  /** One level: the statement's own rule, and its parts. */
  lemma RuleStep(g: seq<Ty>, ret: Option<Ty>, s: Stmt)
    ensures WellTyped(g, ret, s) <==>
            RuleOk(g, ret, s) &&
            match s
            case Block(_) => forall i | 0 <= i < |s.ss| :: WellTyped(g, ret, s.ss[i])
            case If(_, _, _) =>
              (forall i | 0 <= i < |s.bodies| :: WellTyped(g, ret, s.bodies[i])) &&
              (s.remain.Some? ==> WellTyped(g, ret, s.remain.value))
            case While(_, _) => WellTyped(g, ret, s.body)
            case Loop(_) => WellTyped(g, ret, s.body)
            case For(_, _, _) => WellTyped(g, ret, s.body)
            case FnDef(_, _) => WellTyped(g, s.ret, s.body)
            case _ => true
  {
    hide TypeE, HasTy, RetFlag;
    match s
    case ExprStmt(e) => TypedSome(g, e);
    case Assign(x, e) => TypedSome(g, e);
    case AssignOp(x, _, e) => TypedSome(g, e);
    case If(conds, _, _) =>
      forall i | 0 <= i < |conds|
        ensures TypeE(g, conds[i]) == Some(BOOL) <==> HasTy(g, conds[i], BOOL)
      {
        TypedIff(g, conds[i], BOOL);
      }
    case While(c, _) => TypedIff(g, c, BOOL);
    case For(x, src, _) =>
      if src.Range? {
        TypedSome(g, src.lo);
        TypedSome(g, src.hi);
      }
    case Ret(v) =>
      if v.Some? {
        TypedSome(g, v.value);
      }
    case _ =>
  }

  /** A statement is accepted exactly when no part of it, nested functions included, has a type
      error of its own. */
  lemma {:induction false} WellTypedIff(g: seq<Ty>, ret: Option<Ty>, s: Stmt)
    ensures WellTyped(g, ret, s) <==> forall p | p in Parts(ret, s) :: RuleOk(g, p.0, p.1)
    decreases s
  {
    hide RuleOk, WellTyped;
    RuleStep(g, ret, s);
    assert Parts(ret, s)[0] == (ret, s);
    match s
    case Block(ss) => WellTypedSeq(g, ret, ss);
    case If(_, bodies, remain) =>
      WellTypedSeq(g, ret, bodies);
      if remain.Some? {
        WellTypedIff(g, ret, remain.value);
      }
    case While(_, b) => WellTypedIff(g, ret, b);
    case Loop(b) => WellTypedIff(g, ret, b);
    case For(_, _, b) => WellTypedIff(g, ret, b);
    case FnDef(r, b) => WellTypedIff(g, r, b);
    case _ =>
  }

  lemma {:induction false} WellTypedSeq(g: seq<Ty>, ret: Option<Ty>, ss: seq<Stmt>)
    ensures (forall i | 0 <= i < |ss| :: WellTyped(g, ret, ss[i])) <==>
            forall p | p in PartsSeq(ret, ss) :: RuleOk(g, p.0, p.1)
    decreases ss
  {
    hide RuleOk, WellTyped;
    if ss != [] {
      WellTypedIff(g, ret, ss[0]);
      WellTypedSeq(g, ret, ss[1..]);
      assert (forall i | 0 <= i < |ss| :: WellTyped(g, ret, ss[i])) <==>
             WellTyped(g, ret, ss[0]) && forall i | 0 <= i < |ss[1..]| :: WellTyped(g, ret, ss[1..][i]) by {
        assert forall i | 0 < i < |ss| :: ss[1..][i - 1] == ss[i];
      }
    }
  }
}
