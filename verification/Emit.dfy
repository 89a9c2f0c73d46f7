/** What each walk function appends, as a function of the builder state: the specification
    the walker in Generator.dfy is proved against.

    The builder appends to the block at the insertion point.  A new block is first created
    detached (it only gets an id) and is placed in the function later. */
module Emit {
  import opened IntTypes
  import opened Syntax
  import opened Target

  datatype Builder = Builder(
    blocks: Code,
    placed: seq<(nat, BB)>,  // (function, block), in the order of placing
    cur: BB,                 // the insertion point
    nbb: nat, nreg: nat, nslot: nat, nfn: nat)

  datatype LoopCtl = LoopCtl(cond: BB, out: BB)

  /** What does not change while one statement is walked: the slot types, the function and
      its return slot and block, and the enclosing loops (innermost last). */
  datatype Ctx = Ctx(g: seq<Ty>, fn: nat, ret: Option<Ty>, retbb: BB, retslot: nat, loops: seq<LoopCtl>)

  /** An operand: the address of a slot, still to be loaded, or a value. */
  datatype Operand = Slot(slot: nat, ty: Ty) | Val(v: Value, ty: Ty)

  function Text(b: Builder, bb: BB): seq<Instr> {
    if bb in b.blocks then b.blocks[bb] else []
  }

  function Append(b: Builder, i: Instr): Builder {
    b.(blocks := b.blocks[b.cur := Text(b, b.cur) + [i]])
  }

  /** Puts a block into the function and moves the insertion point to it. */
  function Place(b: Builder, fn: nat, bb: BB): Builder {
    b.(placed := b.placed + [(fn, bb)], cur := bb, blocks := b.blocks[bb := Text(b, bb)])
  }

  function NewBB(b: Builder, k: nat): Builder {
    b.(nbb := b.nbb + k)
  }

  /** Adds an instruction that defines the next register. */
  function Define(b: Builder, i: Instr): (Builder, Value) {
    (Append(b, i).(nreg := b.nreg + 1), Reg(b.nreg))
  }

  /** A branch, then a fresh block for what may follow it in the source. */
  function Leave(b: Builder, fn: nat, target: BB): Builder {
    Place(NewBB(Append(b, Br(target)), 1), fn, Anon(b.nbb))
  }

  // ----- expressions -----

  /** Loads an operand that is still an address, as popping it does. */
  function Force(b: Builder, o: Operand): (Builder, Value) {
    match o
    case Slot(s, _) => Define(b, Load(b.nreg, s))
    case Val(v, _) => (b, v)
  }

  function EmitR(c: Ctx, e: Expr, b: Builder): (Builder, Value)
    requires TypeE(c.g, e).Some?
    decreases e, 1
  {
    var (b1, o) := EmitE(c, e, b);
    Force(b1, o)
  }

  function EmitE(c: Ctx, e: Expr, b: Builder): (r: (Builder, Operand))
    requires TypeE(c.g, e).Some?
    ensures r.1.ty == TypeE(c.g, e).value
    decreases e, 0
  {
    match e
    case Lit(_, _) => (b, Val(Const(Encode(e.ty, LitValue(e.ty, e.val))), e.ty))
    case Var(_) => (b, Slot(e.slot, c.g[e.slot]))
    case Neg(_) =>
      var t := TypeE(c.g, e.arg).value;
      var (b1, v) := EmitR(c, e.arg, b);
      var (b2, d) := Define(b1, NegI(b1.nreg, Size(t), v));
      (b2, Val(d, t))
    case Not(_) =>
      var t := TypeE(c.g, e.arg).value;
      var (b1, v) := EmitR(c, e.arg, b);
      var (b2, d) := Define(b1, NotI(b1.nreg, Size(t), v));
      (b2, Val(d, t))
    case Arith(_, _, _) =>
      var t := TypeE(c.g, e.left).value;
      var (b1, v1) := EmitR(c, e.left, b);
      var (b2, v2) := EmitR(c, e.right, b1);
      var (b3, d) := Define(b2, ArithI(b2.nreg, e.aop, Size(t), v1, v2));
      (b3, Val(d, t))
    case Cmp(_, _, _) =>
      var t := TypeE(c.g, e.left).value;
      var (b1, v1) := EmitR(c, e.left, b);
      var (b2, v2) := EmitR(c, e.right, b1);
      var (b3, d) := Define(b2, CmpI(b2.nreg, CmpPred(t, e.cop), Size(t), v1, v2));
      (b3, Val(d, BOOL))
    case Logic(_, _, _) =>
      var (b1, v1) := EmitR(c, e.left, b);
      var (b2, v2) := EmitR(c, e.right, EnterRight(c, e.isAnd, b1, v1));
      var b3 := Place(Append(b2, Br(Anon(b1.nbb + 1))), c.fn, Anon(b1.nbb + 1));
      var (b4, d) := Define(b3, Phi(b3.nreg, b2.cur, v2, b1.cur, v1));
      (b4, Val(d, BOOL))
    case As(_, _) =>
      var op := GenCastOp(TypeE(c.g, e.arg).value, e.to);
      var (b1, v) := EmitR(c, e.arg, b);
      if op == NoOp then (b1, Val(v, e.to)) else
      var (b2, d) := Define(b1, CastI(b1.nreg, op, Size(TypeE(c.g, e.arg).value), Size(e.to), v));
      (b2, Val(d, e.to))
    case Call(_, _, _) =>
      var (b1, vs) := EmitArgs(c, e.args, b);
      var (b2, d) := Define(b1, CallI(b1.nreg, e.fn, Size(e.res), vs));
      (Append(b2, Store(d, b2.nslot)).(nslot := b2.nslot + 1), Slot(b2.nslot, e.res))
  }

  /** The branch after the left operand of `&&` or `||`: blocks nbb (right operand) and
      nbb + 1 (the join). */
  function EnterRight(c: Ctx, isAnd: bool, b: Builder, v: Value): Builder {
    var right, out := Anon(b.nbb), Anon(b.nbb + 1);
    Place(NewBB(Append(b, if isAnd then CondBr(v, right, out) else CondBr(v, out, right)), 2), c.fn, right)
  }

  function EmitArgs(c: Ctx, es: seq<Expr>, b: Builder): (r: (Builder, seq<Value>))
    requires forall i | 0 <= i < |es| :: TypeE(c.g, es[i]).Some?
    decreases es, 0
  {
    if es == [] then (b, []) else
    var (b1, v) := EmitR(c, es[0], b);
    var (b2, vs) := EmitArgs(c, es[1..], b1);
    (b2, [v] + vs)
  }

  // ----- statements -----

  /** In range for the walk: types are right and the loop-control stack is never empty. */
  predicate Accepted(c: Ctx, s: Stmt) {
    WellTyped(c.g, c.ret, s) && LoopStackOk(s, c.loops != [])
  }

  function EmitS(c: Ctx, s: Stmt, b: Builder): Builder
    requires Accepted(c, s)
    decreases s, 1
  {
    match s
    case Skip => b
    case ExprStmt(e) => EmitE(c, e, b).0
    case Assign(x, e) =>
      var (b1, v) := EmitR(c, e, b);
      Append(b1, Store(v, x))
    case AssignOp(x, op, e) =>
      var (b1, v) := EmitR(c, e, b);
      var (b2, l) := Define(b1, Load(b1.nreg, x));
      var (b3, d) := Define(b2, ArithI(b2.nreg, op, Size(c.g[x]), l, v));
      Append(b3, Store(d, x))
    case Block(ss) => EmitSeq(c, ss, b)
    case If(conds, bodies, remain) =>
      var out := Anon(b.nbb);
      var b1 := EmitConds(c, conds, b.nbb + 1, NewBB(b, IfBlocks(s)));
      var b2 := Append(b1, Br(if remain.Some? then ElseBlock(b.nbb + 1, |conds|) else out));
      var b3 := EmitBodies(c, bodies, b.nbb + 1, out, b2);
      var b4 := if remain.Some? then EmitArm(c, remain.value, ElseBlock(b.nbb + 1, |conds|), out, b3) else b3;
      Place(b4, c.fn, out)
    case While(cond, body) =>
      var condbb, bodybb, out := Anon(b.nbb), Anon(b.nbb + 1), Anon(b.nbb + 2);
      var b1 := Place(Append(NewBB(b, 3), Br(condbb)), c.fn, condbb);
      var (b2, v) := EmitR(c, cond, b1);
      var b3 := Place(Append(b2, CondBr(v, bodybb, out)), c.fn, bodybb);
      var b4 := EmitS(InLoop(c, condbb, out), body, b3);
      Place(Append(b4, Br(condbb)), c.fn, out)
    case Loop(body) =>
      var loopbb, out := Anon(b.nbb), Anon(b.nbb + 1);
      var b1 := Place(Append(NewBB(b, 2), Br(loopbb)), c.fn, loopbb);
      var b2 := EmitS(InLoop(c, loopbb, out), body, b1);
      Place(Append(b2, Br(loopbb)), c.fn, out)
    case For(x, src, body) =>
      var condbb, out := Anon(b.nbb), Anon(b.nbb + 2);
      var h := EmitForHead(c, s, b);
      var b1 := EmitS(InLoop(c, condbb, out), body, h);
      Place(Append(b1, Br(condbb)), c.fn, out)
    case Break => Leave(b, c.fn, c.loops[|c.loops| - 1].out)
    case Continue => Leave(b, c.fn, c.loops[|c.loops| - 1].cond)
    case Ret(v) =>
      if v.None? then Leave(b, c.fn, c.retbb) else
      var (b1, r) := EmitR(c, v.value, b);
      Leave(Append(b1, Store(r, c.retslot)), c.fn, c.retbb)
    case Goto(l) => Leave(b, c.fn, Named(l))
    case Label(l) => Place(Append(b, Br(Named(l))), c.fn, Named(l))
    case FnDef(r, body) => EmitFn(c, r, body, b)
  }

  function InLoop(c: Ctx, condbb: BB, out: BB): Ctx {
    c.(loops := c.loops + [LoopCtl(condbb, out)])
  }

  function EmitSeq(c: Ctx, ss: seq<Stmt>, b: Builder): Builder
    requires forall i | 0 <= i < |ss| :: Accepted(c, ss[i])
    decreases ss, 0
  {
    if ss == [] then b else EmitSeq(c, ss[1..], EmitS(c, ss[0], b))
  }

  // An if-chain creates outbb, then for each condition i a pair condbb_i, bodybb_i, then the
  // block of the final else.

  function IfBlocks(s: Stmt): nat
    requires s.If?
  {
    1 + 2 * |s.conds| + if s.remain.Some? then 1 else 0
  }

  /** The block of the final else. */
  function ElseBlock(base: nat, n: nat): BB { Anon(base + 2 * n) }

  /** The conditions come first, each in the block its predecessor falls to. */
  function EmitConds(c: Ctx, conds: seq<Expr>, base: nat, b: Builder): Builder
    requires forall i | 0 <= i < |conds| :: TypeE(c.g, conds[i]) == Some(BOOL)
    decreases conds, 0
  {
    if conds == [] then b else
    var (b1, v) := EmitR(c, conds[0], b);
    EmitConds(c, conds[1..], base + 2, Place(Append(b1, CondBr(v, Anon(base + 1), Anon(base))), c.fn, Anon(base)))
  }

  function EmitBodies(c: Ctx, bodies: seq<Stmt>, base: nat, out: BB, b: Builder): Builder
    requires forall i | 0 <= i < |bodies| :: Accepted(c, bodies[i])
    decreases bodies, 0
  {
    if bodies == [] then b else
    EmitBodies(c, bodies[1..], base + 2, out, EmitArm(c, bodies[0], Anon(base + 1), out, b))
  }

  function EmitArm(c: Ctx, s: Stmt, bb: BB, out: BB, b: Builder): Builder
    requires Accepted(c, s)
    decreases s, 2
  {
    Append(EmitS(c, s, Place(b, c.fn, bb)), Br(out))
  }

  /** Everything of a `for` before its body: the bounds, the index slot, the test, the copy
      to the variable and the step of the index. */
  function EmitForHead(c: Ctx, s: Stmt, b: Builder): Builder
    requires s.For? && ForSourceOk(c.g, s.x, s.src)
  {
    var (b1, first, last) := EmitBounds(c, s.src, NewBB(b, 3));
    EmitForTest(c, s, b.nbb, b1.nslot, last, Append(b1, Store(first, b1.nslot)).(nslot := b1.nslot + 1))
  }

  function EmitBounds(c: Ctx, src: ForSource, b: Builder): (Builder, Value, Value)
    requires src.Range? ==> TypeE(c.g, src.lo).Some? && TypeE(c.g, src.hi).Some?
  {
    match src
    case Range(lo, hi, _) =>
      var (b1, v1) := EmitR(c, lo, b);
      var (b2, v2) := EmitR(c, hi, b1);
      (b2, v1, v2)
    case Array(_, count) => (b, Const(0), Const(count))
  }

  function ForPred(s: Stmt, t: Ty): Pred
    requires s.For?
  {
    match s.src
    case Array(_, _) => ULT
    case Range(_, _, inclusive) =>
      if Signed(t) then (if inclusive then SLE else SLT) else if inclusive then ULE else ULT
  }

  function EmitForTest(c: Ctx, s: Stmt, id: nat, idx: nat, last: Value, b: Builder): Builder
    requires s.For? && ForSourceOk(c.g, s.x, s.src)
  {
    var t := if s.src.Array? then U64 else c.g[s.x];
    var b1 := Place(Append(b, Br(Anon(id))), c.fn, Anon(id));
    var (b2, i) := Define(b1, Load(b1.nreg, idx));
    var (b3, go) := Define(b2, CmpI(b2.nreg, ForPred(s, t), Size(t), i, last));
    var b4 := Place(Append(b3, CondBr(go, Anon(id + 1), Anon(id + 2))), c.fn, Anon(id + 1));
    var (b5, item) := if s.src.Array? then Define(b4, LoadAt(b4.nreg, s.src.base, i)) else (b4, i);
    var b6 := Append(b5, Store(item, s.x));
    var (b7, j) := Define(b6, Load(b6.nreg, idx));
    var (b8, next) := Define(b7, ArithI(b7.nreg, Add, Size(t), j, Const(1)));
    Append(b8, Store(next, idx))
  }

  // ----- functions -----

  /** A function definition: its blocks are new, the insertion point comes back. */
  function EmitFn(c: Ctx, ret: Option<Ty>, body: Stmt, b: Builder): Builder
    requires WellTyped(c.g, ret, body) && LoopStackOk(body, c.loops != [])
    decreases body, 2
  {
    var c1 := FnCtx(c, ret, b);
    EmitExit(c1, EmitS(c1, body, FnEntry(ret, b))).(cur := b.cur)
  }

  /** Block nbb is the exit block and nbb + 1 the entry.  The loop-control stack is the
      enclosing function's. */
  function FnCtx(c: Ctx, ret: Option<Ty>, b: Builder): Ctx {
    Ctx(c.g, b.nfn, ret, Anon(b.nbb), b.nslot, c.loops)
  }

  function FnEntry(ret: Option<Ty>, b: Builder): Builder {
    var b1 := Place(NewBB(b, 2), b.nfn, Anon(b.nbb + 1));
    b1.(nfn := b.nfn + 1, nslot := if ret.Some? then b.nslot + 1 else b.nslot)
  }

  function EmitExit(c: Ctx, b: Builder): Builder {
    FinalReturn(c, Place(Append(b, Br(c.retbb)), c.fn, c.retbb))
  }

  function FinalReturn(c: Ctx, b: Builder): Builder {
    if c.ret.None? then Append(b, RetVoid) else
    var (b1, v) := Define(b, Load(b.nreg, c.retslot));
    Append(b1, RetI(v))
  }
}
