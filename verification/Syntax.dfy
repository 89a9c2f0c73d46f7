/** The statement and expression trees the code generator walks, with the checks it
    makes on the way (each `caerror` is a failure here). */
module Syntax {
  import opened IntTypes

  datatype Option<+T> = None | Some(value: T)

  /** Variables are already resolved to numbered slots; `g` gives each slot its type. */
  datatype Expr =
    | Lit(ty: Ty, val: int)
    | Var(slot: nat)
    | Neg(arg: Expr)
    | Not(arg: Expr)
    | Arith(aop: ArithOp, left: Expr, right: Expr)
    | Cmp(cop: CmpOp, left: Expr, right: Expr)
    | Logic(isAnd: bool, left: Expr, right: Expr)
    | As(arg: Expr, to: Ty)
    | Call(fn: string, res: Ty, args: seq<Expr>)

  datatype ForSource =
    | Range(lo: Expr, hi: Expr, inclusive: bool)
    | Array(base: nat, count: nat)

  datatype Stmt =
    | Skip
    | ExprStmt(e: Expr)
    | Assign(x: nat, e: Expr)
    | AssignOp(x: nat, op: ArithOp, e: Expr)
    | Block(ss: seq<Stmt>)
    | If(conds: seq<Expr>, bodies: seq<Stmt>, remain: Option<Stmt>)
    | While(cond: Expr, body: Stmt)
    | Loop(body: Stmt)
    | For(x: nat, src: ForSource, body: Stmt)
    | Break
    | Continue
    | Ret(value: Option<Expr>)
    | Goto(target: string)
    | Label(name: string)
    | FnDef(ret: Option<Ty>, body: Stmt)

  // ----- the checks made while walking -----

  function TypeE(g: seq<Ty>, e: Expr): Option<Ty> {
    match e
    case Lit(t, _) => Some(t)
    case Var(x) => if x < |g| then Some(g[x]) else None
    case Neg(a) =>
      var t := TypeE(g, a);
      if t.Some? && (Signed(t.value) || t.value == BOOL) then t else None
    case Not(a) => TypeE(g, a)
    case Arith(_, l, r) => if TypeE(g, l) == TypeE(g, r) then TypeE(g, l) else None
    case Cmp(_, l, r) => if TypeE(g, l) == TypeE(g, r) != None then Some(BOOL) else None
    case Logic(_, l, r) => if TypeE(g, l) == TypeE(g, r) == Some(BOOL) then Some(BOOL) else None
    case As(a, to) =>
      var t := TypeE(g, a);
      if t.Some? && GenCastOp(t.value, to) != Bad then Some(to) else None
    case Call(_, res, args) =>
      if forall i | 0 <= i < |args| :: TypeE(g, args[i]).Some? then Some(res) else None
  }

  /** A literal's pattern; a bool literal is the truth of its value. */
  function LitValue(t: Ty, v: int): (r: int)
    ensures InRange(t, r)
  {
    if t == BOOL then (if v != 0 then 1 else 0) else Wrap(t, v)
  }

  /** Is the flag `g_with_ret_value` set after walking s, when it was f before?  A nested
      function definition resets it and does not restore it. */
  predicate RetFlag(s: Stmt, f: bool) {
    match s
    case Ret(_) => true
    case Block(ss) => RetFlagSeq(ss, f)
    case If(_, bodies, remain) =>
      if remain.Some? then RetFlag(remain.value, RetFlagSeq(bodies, f)) else RetFlagSeq(bodies, f)
    case While(_, b) => RetFlag(b, f)
    case Loop(b) => RetFlag(b, f)
    case For(_, _, b) => RetFlag(b, f)
    case FnDef(_, b) => RetFlag(b, false)
    case _ => f
  }

  predicate RetFlagSeq(ss: seq<Stmt>, f: bool) {
    if ss == [] then f else RetFlagSeq(ss[1..], RetFlag(ss[0], f))
  }

  predicate ForSourceOk(g: seq<Ty>, x: nat, src: ForSource) {
    x < |g| &&
    match src
    case Range(lo, hi, _) => TypeE(g, lo) == TypeE(g, hi) == Some(g[x]) && IsInteger(g[x])
    case Array(base, count) =>
      base + count <= |g| && count < Size(U64) && forall k | base <= k < base + count :: g[k] == g[x]
  }

  /** No type error is reported while walking s in a function that returns `ret`. */
  predicate WellTyped(g: seq<Ty>, ret: Option<Ty>, s: Stmt)
    decreases s
  {
    match s
    case ExprStmt(e) => TypeE(g, e).Some?
    case Assign(x, e) => x < |g| && TypeE(g, e) == Some(g[x])
    case AssignOp(x, _, e) => x < |g| && TypeE(g, e) == Some(g[x])
    case Block(ss) => forall i | 0 <= i < |ss| :: WellTyped(g, ret, ss[i])
    case If(conds, bodies, remain) =>
      && |conds| == |bodies|
      && (forall i | 0 <= i < |conds| :: TypeE(g, conds[i]) == Some(BOOL))
      && (forall i | 0 <= i < |bodies| :: WellTyped(g, ret, bodies[i]))
      && (remain.Some? ==> WellTyped(g, ret, remain.value))
    case While(c, b) => TypeE(g, c) == Some(BOOL) && WellTyped(g, ret, b)
    case Loop(b) => WellTyped(g, ret, b)
    case For(x, src, b) => ForSourceOk(g, x, src) && WellTyped(g, ret, b)
    case Ret(v) => if v.Some? then ret.Some? && TypeE(g, v.value) == ret else ret.None?
    case FnDef(r, b) => WellTyped(g, r, b) && (r.Some? ==> RetFlag(b, false))
    case _ => true
  }

  /** The loop-control stack is not empty at any break or continue.  It is not saved across
      a nested function, so a loop of the enclosing function is enough. */
  predicate LoopStackOk(s: Stmt, inLoop: bool) {
    match s
    case Break => inLoop
    case Continue => inLoop
    case Block(ss) => forall i | 0 <= i < |ss| :: LoopStackOk(ss[i], inLoop)
    case If(_, bodies, remain) =>
      (forall i | 0 <= i < |bodies| :: LoopStackOk(bodies[i], inLoop)) &&
      (remain.Some? ==> LoopStackOk(remain.value, inLoop))
    case While(_, b) => LoopStackOk(b, true)
    case Loop(b) => LoopStackOk(b, true)
    case For(_, _, b) => LoopStackOk(b, true)
    case FnDef(_, b) => LoopStackOk(b, inLoop)
    case _ => true
  }

  // ----- labels -----

  /** The labels defined in s; with `deep`, also those of nested functions. */
  function Labels(s: Stmt, deep: bool): set<string> {
    match s
    case Label(l) => {l}
    case Block(ss) => LabelsSeq(ss, deep)
    case If(_, bodies, remain) =>
      LabelsSeq(bodies, deep) + if remain.Some? then Labels(remain.value, deep) else {}
    case While(_, b) => Labels(b, deep)
    case Loop(b) => Labels(b, deep)
    case For(_, _, b) => Labels(b, deep)
    case FnDef(_, b) => if deep then Labels(b, deep) else {}
    case _ => {}
  }

  function LabelsSeq(ss: seq<Stmt>, deep: bool): set<string> {
    if ss == [] then {} else Labels(ss[0], deep) + LabelsSeq(ss[1..], deep)
  }

  /** No label is defined twice, nested functions included. */
  predicate DistinctLabels(s: Stmt) {
    match s
    case Block(ss) => DistinctLabelsSeq(ss)
    case If(_, bodies, remain) =>
      DistinctLabelsSeq(bodies) &&
      (remain.Some? ==> DistinctLabels(remain.value) && LabelsSeq(bodies, true) !! Labels(remain.value, true))
    case While(_, b) => DistinctLabels(b)
    case Loop(b) => DistinctLabels(b)
    case For(_, _, b) => DistinctLabels(b)
    case FnDef(_, b) => DistinctLabels(b)
    case _ => true
  }

  predicate DistinctLabelsSeq(ss: seq<Stmt>) {
    ss == [] ||
    (DistinctLabels(ss[0]) && DistinctLabelsSeq(ss[1..]) && Labels(ss[0], true) !! LabelsSeq(ss[1..], true))
  }

  lemma ShallowLabels(s: Stmt)
    ensures Labels(s, false) <= Labels(s, true)
  {
    match s
    case Block(ss) => ShallowLabelsSeq(ss);
    case If(_, bodies, remain) =>
      ShallowLabelsSeq(bodies);
      if remain.Some? { ShallowLabels(remain.value); }
    case While(_, b) => ShallowLabels(b);
    case Loop(b) => ShallowLabels(b);
    case For(_, _, b) => ShallowLabels(b);
    case _ =>
  }

  lemma ShallowLabelsSeq(ss: seq<Stmt>)
    ensures LabelsSeq(ss, false) <= LabelsSeq(ss, true)
  {
    if ss != [] {
      ShallowLabels(ss[0]);
      ShallowLabelsSeq(ss[1..]);
    }
  }
}
