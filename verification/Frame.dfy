/** What walking an expression or statement can change: it appends to the block at the
    insertion point and creates blocks of its own; everything else stays as it was. */
module Frame {
  import opened IntTypes
  import opened Syntax
  import opened Target
  import opened Emit

  ghost predicate Ready(b: Builder) {
    b.cur in b.blocks && Counted(b)
  }

  ghost predicate Counted(b: Builder) {
    forall k: nat :: Anon(k) in b.blocks ==> k < b.nbb
  }

  ghost predicate FreshLabels(b: Builder, ls: set<string>) {
    forall l | l in ls :: Named(l) !in b.blocks
  }

  /** b1 is reached from b; every block b did not have is one of Anon(lo..) or a label of ls. */
  ghost predicate Grown(b: Builder, b1: Builder, lo: nat, ls: set<string>) {
    && b.nbb <= b1.nbb && b.nreg <= b1.nreg && b.nslot <= b1.nslot && b.nfn <= b1.nfn
    && b.placed <= b1.placed
    && (forall bb | bb in b.blocks ::
          bb in b1.blocks && b.blocks[bb] <= b1.blocks[bb] && (bb != b.cur ==> b.blocks[bb] == b1.blocks[bb]))
    && (forall bb | bb in b1.blocks && bb !in b.blocks ::
          if bb.Anon? then lo <= bb.id < b1.nbb else bb.name in ls)
    && (b1.cur == b.cur || b1.cur !in b.blocks)
    && b1.cur in b1.blocks
  }

  ghost predicate Within(x: Code, y: Code) {
    forall bb | bb in x :: bb in y && x[bb] <= y[bb]
  }

  lemma GrownTrans(b: Builder, b1: Builder, b2: Builder, lo: nat, lo1: nat, lo2: nat, ls: set<string>,
                   ls1: set<string>, ls2: set<string>)
    requires Ready(b) && Grown(b, b1, lo1, ls1) && Grown(b1, b2, lo2, ls2)
    requires lo <= lo1 && lo <= lo2 && ls1 <= ls && ls2 <= ls
    ensures Grown(b, b2, lo, ls)
  {
    forall bb | bb in b.blocks
      ensures bb in b2.blocks && b.blocks[bb] <= b2.blocks[bb] && (bb != b.cur ==> b.blocks[bb] == b2.blocks[bb])
    {
      assert bb in b1.blocks;
    }
  }

  /** Grown, with Ready at the end: the form the proofs below chain. */
  ghost predicate Grows(b: Builder, b1: Builder, lo: nat, ls: set<string>) {
    && Ready(b) && Ready(b1) && Grown(b, b1, lo, ls)
    && b.nbb <= b1.nbb && b.nreg <= b1.nreg && b.nslot <= b1.nslot
  }

  // Consequences, for proofs that hide the quantifiers above.

  lemma StillFree(b: Builder, b1: Builder, lo: nat, ls: set<string>, k: nat)
    requires Grows(b, b1, lo, ls) && k < lo && Anon(k) !in b.blocks
    ensures Anon(k) !in b1.blocks
  {
  }

  lemma NotYet(b: Builder, k: nat)
    requires Ready(b) && k >= b.nbb
    ensures Anon(k) !in b.blocks
  {
  }

  lemma WithinOf(b: Builder, b1: Builder, lo: nat, ls: set<string>, code: Code)
    requires Grows(b, b1, lo, ls) && Within(b1.blocks, code)
    ensures Within(b.blocks, code)
  {
  }

  lemma NameFree(b: Builder, ls: set<string>, l: string)
    requires FreshLabels(b, ls) && l in ls
    ensures Named(l) !in b.blocks
  {
  }

  lemma StillFresh(b: Builder, b1: Builder, lo: nat, used: set<string>, ls: set<string>)
    requires Grows(b, b1, lo, used) && used !! ls && FreshLabels(b, ls)
    ensures FreshLabels(b1, ls)
  {
  }

  lemma Chain(b: Builder, b1: Builder, b2: Builder, lo: nat, lo2: nat, ls: set<string>, ls2: set<string>)
    requires Grows(b, b1, lo, ls) && Grows(b1, b2, lo2, ls2)
    requires lo <= lo2 && ls2 <= ls
    ensures Grows(b, b2, lo, ls)
  {
    GrownTrans(b, b1, b2, lo, lo, lo2, ls, ls, ls2);
  }

  lemma GrowsRefl(b: Builder, lo: nat, ls: set<string>)
    requires Ready(b)
    ensures Grows(b, b, lo, ls)
  {
  }

  lemma GrowsAppend(b: Builder, i: Instr, lo: nat, ls: set<string>)
    requires Ready(b)
    ensures Grows(b, Append(b, i), lo, ls)
  {
  }

  lemma GrowsDefine(b: Builder, i: Instr, lo: nat, ls: set<string>)
    requires Ready(b)
    ensures Grows(b, Define(b, i).0, lo, ls)
  {
  }

  /** A store into a slot of its own. */
  lemma GrowsSlot(b: Builder, v: Value, lo: nat)
    requires Ready(b)
    ensures Grows(b, Append(b, Store(v, b.nslot)).(nslot := b.nslot + 1), lo, {})
  {
  }

  lemma GrowsNewBB(b: Builder, k: nat, lo: nat, ls: set<string>)
    requires Ready(b)
    ensures Grows(b, NewBB(b, k), lo, ls)
  {
  }

  lemma GrowsPlace(b: Builder, fn: nat, bb: BB, lo: nat, ls: set<string>)
    requires Ready(b) && bb !in b.blocks
    requires if bb.Anon? then lo <= bb.id < b.nbb else bb.name in ls
    ensures Grows(b, Place(b, fn, bb), lo, ls)
  {
  }

  /** Ends the block at the insertion point and starts another one, already created. */
  lemma GrowsTurn(b: Builder, i: Instr, fn: nat, bb: BB, lo: nat, ls: set<string>)
    requires Ready(b) && bb !in b.blocks
    requires if bb.Anon? then lo <= bb.id < b.nbb else bb.name in ls
    ensures Grows(b, Place(Append(b, i), fn, bb), lo, ls)
  {
    GrowsAppend(b, i, lo, ls);
    GrowsPlace(Append(b, i), fn, bb, lo, ls);
    Chain(b, Append(b, i), Place(Append(b, i), fn, bb), lo, lo, ls, ls);
  }

  lemma GrowsLeave(b: Builder, fn: nat, target: BB, ls: set<string>)
    requires Ready(b)
    ensures Grows(b, Leave(b, fn, target), b.nbb, ls)
  {
  }

  // ----- expressions -----

  lemma GrowsForce(b: Builder, o: Operand, lo: nat, ls: set<string>)
    requires Ready(b)
    ensures Grows(b, Force(b, o).0, lo, ls)
  {
  }

  lemma GrowsEnterRight(c: Ctx, isAnd: bool, b: Builder, v: Value)
    requires Ready(b)
    ensures Grows(b, EnterRight(c, isAnd, b, v), b.nbb, {})
    ensures Anon(b.nbb + 1) !in EnterRight(c, isAnd, b, v).blocks
    ensures EnterRight(c, isAnd, b, v).nbb == b.nbb + 2
  {
  }

  lemma {:induction false} GrowsR(c: Ctx, e: Expr, b: Builder)
    requires TypeE(c.g, e).Some? && Ready(b)
    ensures Grows(b, EmitR(c, e, b).0, b.nbb, {})
    decreases e, 1
  {
    GrowsE(c, e, b);
    var (b1, o) := EmitE(c, e, b);
    GrowsForce(b1, o, b.nbb, {});
    Chain(b, b1, Force(b1, o).0, b.nbb, b.nbb, {}, {});
  }

  lemma {:induction false} GrowsE(c: Ctx, e: Expr, b: Builder)
    requires TypeE(c.g, e).Some? && Ready(b)
    ensures Grows(b, EmitE(c, e, b).0, b.nbb, {})
    decreases e, 0, 1
  {
    hide Grown, Counted;
    var bb := EmitE(c, e, b).0;
    match e
    case Lit(t, v) => GrowsRefl(b, b.nbb, {});
    case Var(x) => GrowsRefl(b, b.nbb, {});
    case Neg(a) =>
      GrowsR(c, a, b);
      var (b1, v) := EmitR(c, a, b);
      GrowsDefine(b1, NegI(b1.nreg, Size(TypeE(c.g, a).value), v), b.nbb, {});
      Chain(b, b1, bb, b.nbb, b.nbb, {}, {});
    case Not(a) =>
      GrowsR(c, a, b);
      var (b1, v) := EmitR(c, a, b);
      GrowsDefine(b1, NotI(b1.nreg, Size(TypeE(c.g, a).value), v), b.nbb, {});
      Chain(b, b1, bb, b.nbb, b.nbb, {}, {});
    case Arith(op, l, r) =>
      var (b1, v1) := EmitR(c, l, b);
      var (b2, v2) := EmitR(c, r, b1);
      GrowsBoth(c, e, b);
      GrowsDefine(b2, ArithI(b2.nreg, op, Size(TypeE(c.g, l).value), v1, v2), b.nbb, {});
      Chain(b, b2, bb, b.nbb, b.nbb, {}, {});
    case Cmp(op, l, r) =>
      var (b1, v1) := EmitR(c, l, b);
      var (b2, v2) := EmitR(c, r, b1);
      GrowsBoth(c, e, b);
      GrowsDefine(b2, CmpI(b2.nreg, CmpPred(TypeE(c.g, l).value, op), Size(TypeE(c.g, l).value), v1, v2), b.nbb, {});
      Chain(b, b2, bb, b.nbb, b.nbb, {}, {});
    case Logic(isAnd, l, r) =>
      GrowsLogic(c, e, b);
    case As(a, to) =>
      GrowsR(c, a, b);
      var (b1, v) := EmitR(c, a, b);
      var op := GenCastOp(TypeE(c.g, a).value, to);
      GrowsDefine(b1, CastI(b1.nreg, op, Size(TypeE(c.g, a).value), Size(to), v), b.nbb, {});
      if op != NoOp {
        Chain(b, b1, bb, b.nbb, b.nbb, {}, {});
      }
    case Call(fn, res, args) =>
      GrowsArgs(c, args, b);
      var (b1, vs) := EmitArgs(c, args, b);
      var (b2, d) := Define(b1, CallI(b1.nreg, fn, Size(res), vs));
      GrowsDefine(b1, CallI(b1.nreg, fn, Size(res), vs), b.nbb, {});
      Chain(b, b1, b2, b.nbb, b.nbb, {}, {});
      GrowsSlot(b2, d, b.nbb);
      Chain(b, b2, bb, b.nbb, b.nbb, {}, {});
  }

  lemma {:induction false} GrowsBoth(c: Ctx, e: Expr, b: Builder)
    requires e.Arith? || e.Cmp?
    requires TypeE(c.g, e).Some? && Ready(b)
    ensures Grows(b, EmitR(c, e.right, EmitR(c, e.left, b).0).0, b.nbb, {})
    decreases e, 0, 0
  {
    hide Grown, Counted;
    GrowsR(c, e.left, b);
    var b1 := EmitR(c, e.left, b).0;
    GrowsR(c, e.right, b1);
    Chain(b, b1, EmitR(c, e.right, b1).0, b.nbb, b1.nbb, {}, {});
  }

  lemma TypeLogic(g: seq<Ty>, e: Expr)
    requires e.Logic?
    ensures TypeE(g, e) == if TypeE(g, e.left) == TypeE(g, e.right) == Some(BOOL) then Some(BOOL) else None
  {
  }

  lemma {:induction false} GrowsLogic(c: Ctx, e: Expr, b: Builder)
    requires e.Logic? && TypeE(c.g, e).Some? && Ready(b)
    ensures Grows(b, EmitE(c, e, b).0, b.nbb, {})
    ensures LogicJoinFree(c, e, b)
    decreases e, 0, 0
  {
    hide Grown, Counted;
    var (b1, v1) := EmitR(c, e.left, b);
    var b1' := EnterRight(c, e.isAnd, b1, v1);
    var (b2, v2) := EmitR(c, e.right, b1');
    var out := Anon(b1.nbb + 1);
    GrowsR(c, e.left, b);
    GrowsEnterRight(c, e.isAnd, b1, v1);
    Chain(b, b1, b1', b.nbb, b1.nbb, {}, {});
    GrowsR(c, e.right, b1');
    StillFree(b1', b2, b1'.nbb, {}, b1.nbb + 1);
    Chain(b, b1', b2, b.nbb, b1'.nbb, {}, {});
    var b3 := Place(Append(b2, Br(out)), c.fn, out);
    GrowsTurn(b2, Br(out), c.fn, out, b.nbb, {});
    Chain(b, b2, b3, b.nbb, b.nbb, {}, {});
    GrowsDefine(b3, Phi(b3.nreg, b2.cur, v2, b1.cur, v1), b.nbb, {});
    Chain(b, b3, EmitE(c, e, b).0, b.nbb, b.nbb, {}, {});
  }

  /** The join block of `&&`, `||` is still empty when it is placed. */
  ghost predicate LogicJoinFree(c: Ctx, e: Expr, b: Builder)
    requires e.Logic? && TypeE(c.g, e).Some?
  {
    var (b1, v1) := EmitR(c, e.left, b);
    Anon(b1.nbb + 1) !in EmitR(c, e.right, EnterRight(c, e.isAnd, b1, v1)).0.blocks
  }

  lemma {:induction false} GrowsArgs(c: Ctx, es: seq<Expr>, b: Builder)
    requires (forall i | 0 <= i < |es| :: TypeE(c.g, es[i]).Some?) && Ready(b)
    ensures Grows(b, EmitArgs(c, es, b).0, b.nbb, {})
    decreases es, 0
  {
    if es != [] {
      GrowsR(c, es[0], b);
      var b1 := EmitR(c, es[0], b).0;
      GrowsArgs(c, es[1..], b1);
      Chain(b, b1, EmitArgs(c, es, b).0, b.nbb, b1.nbb, {}, {});
    }
  }

  // ----- statements -----

  lemma AcceptedLoop(c: Ctx, s: Stmt, loopbb: BB, out: BB)
    requires s.Loop?
    ensures Accepted(c, s) <==> Accepted(InLoop(c, loopbb, out), s.body)
  {
    hide TypeE;
  }

  lemma AcceptedWhile(c: Ctx, s: Stmt, condbb: BB, out: BB)
    requires s.While?
    ensures Accepted(c, s) <==> TypeE(c.g, s.cond) == Some(BOOL) && Accepted(InLoop(c, condbb, out), s.body)
  {
    hide TypeE;
  }

  lemma AcceptedFor(c: Ctx, s: Stmt, condbb: BB, out: BB)
    requires s.For?
    ensures Accepted(c, s) <==> ForSourceOk(c.g, s.x, s.src) && Accepted(InLoop(c, condbb, out), s.body)
  {
    hide TypeE, ForSourceOk;
  }

  lemma AcceptsIf(c: Ctx, s: Stmt)
    requires s.If?
    ensures Accepted(c, s) <==>
              && |s.conds| == |s.bodies|
              && (forall i | 0 <= i < |s.conds| :: TypeE(c.g, s.conds[i]) == Some(BOOL))
              && (forall i | 0 <= i < |s.bodies| :: Accepted(c, s.bodies[i]))
              && (s.remain.Some? ==> Accepted(c, s.remain.value))
  {
    hide TypeE;
  }

  lemma LoopLabels(s: Stmt)
    requires s.While? || s.Loop? || s.For?
    ensures Labels(s, true) == Labels(s.body, true) && (DistinctLabels(s) <==> DistinctLabels(s.body))
  {
  }

  /** Every statement only grows the code, by blocks of its own and of its labels. */
  lemma {:induction false} GrowsS(c: Ctx, s: Stmt, b: Builder)
    requires Accepted(c, s) && Ready(b) && DistinctLabels(s) && FreshLabels(b, Labels(s, true))
    ensures Grows(b, EmitS(c, s, b), b.nbb, Labels(s, true))
    decreases s, 1
  {
    hide Grown, Counted, FreshLabels, EmitForHead, EmitR, EmitE, EmitFn, Leave, EmitConds, EmitBodies, EmitSeq;
    var ls := Labels(s, true);
    match s
    case Skip => GrowsRefl(b, b.nbb, ls);
    case ExprStmt(e) =>
      GrowsE(c, e, b);
      Weaken(b, EmitS(c, s, b), b.nbb, {}, b.nbb, ls);
    case Assign(x, e) =>
      GrowsStore(c, s, b);
      Weaken(b, EmitS(c, s, b), b.nbb, {}, b.nbb, ls);
    case AssignOp(x, op, e) =>
      GrowsStore(c, s, b);
      Weaken(b, EmitS(c, s, b), b.nbb, {}, b.nbb, ls);
    case Block(ss) => GrowsSeq(c, ss, b);
    case If(_, _, _) => GrowsIf(c, s, b);
    case While(cond, body) =>
      var (b3, _) := WhileHead(c, s, b);
      GrowsWhileHead(c, s, b);
      GrowsTail(c, body, Anon(b.nbb), Anon(b.nbb + 2), b, b3);
    case Loop(body) =>
      GrowsLoopHead(c, b);
      GrowsTail(c, body, Anon(b.nbb), Anon(b.nbb + 1), b, LoopHead(c, b));
    case For(x, src, body) =>
      GrowsForHead(c, s, b);
      GrowsTail(c, body, Anon(b.nbb), Anon(b.nbb + 2), b, EmitForHead(c, s, b));
    case Break => GrowsLeave(b, c.fn, c.loops[|c.loops| - 1].out, ls);
    case Continue => GrowsLeave(b, c.fn, c.loops[|c.loops| - 1].cond, ls);
    case Ret(v) =>
      GrowsRet(c, v, b);
      Weaken(b, EmitS(c, s, b), b.nbb, {}, b.nbb, ls);
    case Goto(l) => GrowsLeave(b, c.fn, Named(l), ls);
    case Label(l) =>
      NameFree(b, ls, l);
      GrowsTurn(b, Br(Named(l)), c.fn, Named(l), b.nbb, ls);
    case FnDef(r, body) => GrowsFn(c, r, body, b);
  }

  lemma GrowsStore(c: Ctx, s: Stmt, b: Builder)
    requires s.Assign? || s.AssignOp?
    requires Accepted(c, s) && Ready(b)
    ensures Grows(b, EmitS(c, s, b), b.nbb, {})
  {
    hide Grown, Counted;
    GrowsR(c, s.e, b);
    var (b1, v) := EmitR(c, s.e, b);
    if s.Assign? {
      GrowsAppend(b1, Store(v, s.x), b.nbb, {});
      Chain(b, b1, EmitS(c, s, b), b.nbb, b.nbb, {}, {});
    } else {
      var (b2, l) := Define(b1, Load(b1.nreg, s.x));
      var (b3, d) := Define(b2, ArithI(b2.nreg, s.op, Size(c.g[s.x]), l, v));
      GrowsDefine(b1, Load(b1.nreg, s.x), b.nbb, {});
      Chain(b, b1, b2, b.nbb, b.nbb, {}, {});
      GrowsDefine(b2, ArithI(b2.nreg, s.op, Size(c.g[s.x]), l, v), b.nbb, {});
      Chain(b, b2, b3, b.nbb, b.nbb, {}, {});
      GrowsAppend(b3, Store(d, s.x), b.nbb, {});
      Chain(b, b3, EmitS(c, s, b), b.nbb, b.nbb, {}, {});
    }
  }

  lemma GrowsRet(c: Ctx, v: Option<Expr>, b: Builder)
    requires Accepted(c, Ret(v)) && Ready(b)
    ensures Grows(b, EmitS(c, Ret(v), b), b.nbb, {})
  {
    hide Grown, Counted;
    if v.None? {
      GrowsLeave(b, c.fn, c.retbb, {});
    } else {
      GrowsR(c, v.value, b);
      var (b1, r) := EmitR(c, v.value, b);
      var b2 := Append(b1, Store(r, c.retslot));
      GrowsAppend(b1, Store(r, c.retslot), b.nbb, {});
      Chain(b, b1, b2, b.nbb, b.nbb, {}, {});
      GrowsLeave(b2, c.fn, c.retbb, {});
      Chain(b, b2, EmitS(c, Ret(v), b), b.nbb, b2.nbb, {}, {});
    }
  }

  lemma Weaken(b: Builder, b1: Builder, lo: nat, ls: set<string>, lo1: nat, ls1: set<string>)
    requires Grows(b, b1, lo, ls) && lo1 <= lo && ls <= ls1
    ensures Grows(b, b1, lo1, ls1)
  {
  }

  lemma {:induction false} GrowsSeq(c: Ctx, ss: seq<Stmt>, b: Builder)
    requires (forall i | 0 <= i < |ss| :: Accepted(c, ss[i])) && Ready(b)
    requires DistinctLabelsSeq(ss) && FreshLabels(b, LabelsSeq(ss, true))
    ensures Grows(b, EmitSeq(c, ss, b), b.nbb, LabelsSeq(ss, true))
    decreases ss, 0
  {
    if ss != [] {
      GrowsS(c, ss[0], b);
      var b1 := EmitS(c, ss[0], b);
      var ls := LabelsSeq(ss, true);
      Weaken(b, b1, b.nbb, Labels(ss[0], true), b.nbb, ls);
      StillFresh(b, b1, b.nbb, Labels(ss[0], true), LabelsSeq(ss[1..], true));
      GrowsSeq(c, ss[1..], b1);
      Chain(b, b1, EmitSeq(c, ss, b), b.nbb, b1.nbb, ls, LabelsSeq(ss[1..], true));
    }
  }

  /** The parts of a loop and of a while before the body. */
  ghost function LoopHead(c: Ctx, b: Builder): Builder {
    Place(Append(NewBB(b, 2), Br(Anon(b.nbb))), c.fn, Anon(b.nbb))
  }

  lemma GrowsLoopHead(c: Ctx, b: Builder)
    requires Ready(b)
    ensures Grows(b, LoopHead(c, b), b.nbb, {}) && LoopHead(c, b).nbb == b.nbb + 2
    ensures Anon(b.nbb + 1) !in LoopHead(c, b).blocks
  {
  }

  ghost function WhileHead(c: Ctx, s: Stmt, b: Builder): (Builder, Value)
    requires s.While? && TypeE(c.g, s.cond).Some?
  {
    var b1 := Place(Append(NewBB(b, 3), Br(Anon(b.nbb))), c.fn, Anon(b.nbb));
    var (b2, v) := EmitR(c, s.cond, b1);
    (Place(Append(b2, CondBr(v, Anon(b.nbb + 1), Anon(b.nbb + 2))), c.fn, Anon(b.nbb + 1)), v)
  }

  lemma GrowsWhileTest(c: Ctx, b: Builder)
    requires Ready(b)
    ensures var b1 := Place(Append(NewBB(b, 3), Br(Anon(b.nbb))), c.fn, Anon(b.nbb));
            Grows(b, b1, b.nbb, {}) && b1.nbb == b.nbb + 3 &&
            Anon(b.nbb + 1) !in b1.blocks && Anon(b.nbb + 2) !in b1.blocks
  {
  }

  lemma GrowsWhileHead(c: Ctx, s: Stmt, b: Builder)
    requires s.While? && TypeE(c.g, s.cond).Some? && Ready(b)
    ensures Grows(b, WhileHead(c, s, b).0, b.nbb, {})
    ensures Anon(b.nbb + 2) !in WhileHead(c, s, b).0.blocks && WhileHead(c, s, b).0.nbb >= b.nbb + 3
  {
    hide Grown, Counted;
    var b1 := Place(Append(NewBB(b, 3), Br(Anon(b.nbb))), c.fn, Anon(b.nbb));
    GrowsWhileTest(c, b);
    GrowsR(c, s.cond, b1);
    var (b2, v) := EmitR(c, s.cond, b1);
    StillFree(b1, b2, b1.nbb, {}, b.nbb + 1);
    StillFree(b1, b2, b1.nbb, {}, b.nbb + 2);
    Chain(b, b1, b2, b.nbb, b1.nbb, {}, {});
    GrowsTurn(b2, CondBr(v, Anon(b.nbb + 1), Anon(b.nbb + 2)), c.fn, Anon(b.nbb + 1), b.nbb, {});
    Chain(b, b2, WhileHead(c, s, b).0, b.nbb, b.nbb, {}, {});
  }

  /** The end of every loop: body, branch back, exit block. */
  lemma {:induction false} GrowsTail(c: Ctx, body: Stmt, back: BB, out: BB, b: Builder, b1: Builder)
    requires Accepted(InLoop(c, back, out), body) && DistinctLabels(body)
    requires Grows(b, b1, b.nbb, {}) && FreshLabels(b, Labels(body, true))
    requires out.Anon? && b.nbb <= out.id < b1.nbb && out !in b1.blocks
    ensures var b2 := EmitS(InLoop(c, back, out), body, b1);
            out !in b2.blocks &&
            Grows(b1, b2, b1.nbb, Labels(body, true)) &&
            Grows(b2, Place(Append(b2, Br(back)), c.fn, out), b.nbb, Labels(body, true)) &&
            Grows(b, Place(Append(b2, Br(back)), c.fn, out), b.nbb, Labels(body, true))
    decreases body, 2
  {
    hide Grown, Counted;
    var ls := Labels(body, true);
    var b2 := EmitS(InLoop(c, back, out), body, b1);
    StillFresh(b, b1, b.nbb, {}, ls);
    GrowsS(InLoop(c, back, out), body, b1);
    StillFree(b1, b2, b1.nbb, ls, out.id);
    Weaken(b, b1, b.nbb, {}, b.nbb, ls);
    Chain(b, b1, b2, b.nbb, b1.nbb, ls, ls);
    GrowsTurn(b2, Br(back), c.fn, out, b.nbb, ls);
    Chain(b, b2, Place(Append(b2, Br(back)), c.fn, out), b.nbb, b.nbb, ls, ls);
  }

  lemma GrowsBounds(c: Ctx, src: ForSource, b: Builder)
    requires src.Range? ==> TypeE(c.g, src.lo).Some? && TypeE(c.g, src.hi).Some?
    requires Ready(b)
    ensures Grows(b, EmitBounds(c, src, b).0, b.nbb, {})
  {
    hide Grown, Counted;
    if src.Range? {
      GrowsR(c, src.lo, b);
      var b1 := EmitR(c, src.lo, b).0;
      GrowsR(c, src.hi, b1);
      Chain(b, b1, EmitR(c, src.hi, b1).0, b.nbb, b1.nbb, {}, {});
    } else {
      GrowsRefl(b, b.nbb, {});
    }
  }

  lemma GrowsForHead(c: Ctx, s: Stmt, b: Builder)
    requires s.For? && ForSourceOk(c.g, s.x, s.src) && Ready(b)
    ensures Grows(b, EmitForHead(c, s, b), b.nbb, {})
    ensures Anon(b.nbb + 2) !in EmitForHead(c, s, b).blocks && EmitForHead(c, s, b).nbb >= b.nbb + 3
  {
    hide Grown, Counted, EmitForTest, EmitBounds;
    GrowsForSlot(c, s, b);
    var (b1, first, last) := EmitBounds(c, s.src, NewBB(b, 3));
    var b2 := ForSlot(c, s, b);
    GrowsForTest(c, s, b.nbb, b1.nslot, last, b2);
    Chain(b, b2, EmitForHead(c, s, b), b.nbb, b.nbb, {}, {});
  }

  /** The bounds, and the first one stored to the index slot. */
  ghost function ForSlot(c: Ctx, s: Stmt, b: Builder): Builder
    requires s.For? && ForSourceOk(c.g, s.x, s.src)
  {
    var (b1, first, last) := EmitBounds(c, s.src, NewBB(b, 3));
    Append(b1, Store(first, b1.nslot)).(nslot := b1.nslot + 1)
  }

  lemma GrowsForSlot(c: Ctx, s: Stmt, b: Builder)
    requires s.For? && ForSourceOk(c.g, s.x, s.src) && Ready(b)
    ensures Grows(b, ForSlot(c, s, b), b.nbb, {}) && ForSlot(c, s, b).nbb >= b.nbb + 3
    ensures forall k: nat | b.nbb <= k < b.nbb + 3 :: Anon(k) !in ForSlot(c, s, b).blocks
  {
    hide Grown, Counted;
    var b0, b2 := NewBB(b, 3), ForSlot(c, s, b);
    GrowsNewBB(b, 3, b.nbb, {});
    GrowsBounds(c, s.src, b0);
    var (b1, first, last) := EmitBounds(c, s.src, b0);
    GrowsSlot(b1, first, b0.nbb);
    Chain(b0, b1, b2, b0.nbb, b0.nbb, {}, {});
    forall k: nat | b.nbb <= k < b.nbb + 3
      ensures Anon(k) !in b2.blocks
    {
      NotYet(b, k);
      StillFree(b0, b2, b0.nbb, {}, k);
    }
    Chain(b, b0, b2, b.nbb, b0.nbb, {}, {});
  }

  /** The test block of a for, up to the copy into the variable, and the rest. */
  ghost function ForCopy(c: Ctx, s: Stmt, id: nat, idx: nat, last: Value, b: Builder): Builder
    requires s.For? && ForSourceOk(c.g, s.x, s.src)
  {
    var t := if s.src.Array? then U64 else c.g[s.x];
    var b1 := Place(Append(b, Br(Anon(id))), c.fn, Anon(id));
    var (b2, i) := Define(b1, Load(b1.nreg, idx));
    var (b3, go) := Define(b2, CmpI(b2.nreg, ForPred(s, t), Size(t), i, last));
    var b4 := Place(Append(b3, CondBr(go, Anon(id + 1), Anon(id + 2))), c.fn, Anon(id + 1));
    var (b5, item) := if s.src.Array? then Define(b4, LoadAt(b4.nreg, s.src.base, i)) else (b4, i);
    Append(b5, Store(item, s.x))
  }

  lemma GrowsForTest(c: Ctx, s: Stmt, id: nat, idx: nat, last: Value, b: Builder)
    requires s.For? && ForSourceOk(c.g, s.x, s.src) && Ready(b)
    requires id + 2 < b.nbb && Anon(id) !in b.blocks && Anon(id + 1) !in b.blocks && Anon(id + 2) !in b.blocks
    ensures Grows(b, EmitForTest(c, s, id, idx, last, b), id, {})
    ensures Anon(id + 2) !in EmitForTest(c, s, id, idx, last, b).blocks
  {
    hide Grown, Counted;
    GrowsForCopy(c, s, id, idx, last, b);
    var b6 := ForCopy(c, s, id, idx, last, b);
    GrowsForStep(if s.src.Array? then U64 else c.g[s.x], idx, b6, id);
    Chain(b, b6, EmitForTest(c, s, id, idx, last, b), id, id, {}, {});
  }

  lemma GrowsForCopy(c: Ctx, s: Stmt, id: nat, idx: nat, last: Value, b: Builder)
    requires s.For? && ForSourceOk(c.g, s.x, s.src) && Ready(b)
    requires id + 2 < b.nbb && Anon(id) !in b.blocks && Anon(id + 1) !in b.blocks && Anon(id + 2) !in b.blocks
    ensures Grows(b, ForCopy(c, s, id, idx, last, b), id, {})
    ensures Anon(id + 2) !in ForCopy(c, s, id, idx, last, b).blocks
  {
    hide Grown, Counted;
    var t := if s.src.Array? then U64 else c.g[s.x];
    var b1 := Place(Append(b, Br(Anon(id))), c.fn, Anon(id));
    GrowsTurn(b, Br(Anon(id)), c.fn, Anon(id), id, {});
    var (b2, i) := Define(b1, Load(b1.nreg, idx));
    GrowsDefine(b1, Load(b1.nreg, idx), id, {});
    Chain(b, b1, b2, id, id, {}, {});
    var (b3, go) := Define(b2, CmpI(b2.nreg, ForPred(s, t), Size(t), i, last));
    GrowsDefine(b2, CmpI(b2.nreg, ForPred(s, t), Size(t), i, last), id, {});
    Chain(b, b2, b3, id, id, {}, {});
    var b4 := Place(Append(b3, CondBr(go, Anon(id + 1), Anon(id + 2))), c.fn, Anon(id + 1));
    GrowsTurn(b3, CondBr(go, Anon(id + 1), Anon(id + 2)), c.fn, Anon(id + 1), id, {});
    Chain(b, b3, b4, id, id, {}, {});
    var (b5, item) := if s.src.Array? then Define(b4, LoadAt(b4.nreg, s.src.base, i)) else (b4, i);
    if s.src.Array? {
      GrowsDefine(b4, LoadAt(b4.nreg, s.src.base, i), id, {});
      Chain(b, b4, b5, id, id, {}, {});
    }
    GrowsAppend(b5, Store(item, s.x), id, {});
    Chain(b, b5, Append(b5, Store(item, s.x)), id, id, {}, {});
  }

  lemma GrowsForStep(t: Ty, idx: nat, b: Builder, lo: nat)
    requires Ready(b)
    ensures var (b7, j) := Define(b, Load(b.nreg, idx));
            var (b8, next) := Define(b7, ArithI(b7.nreg, Add, Size(t), j, Const(1)));
            Grows(b, Append(b8, Store(next, idx)), lo, {}) && Append(b8, Store(next, idx)).blocks.Keys == b.blocks.Keys
  {
    hide Grown, Counted;
    var (b7, j) := Define(b, Load(b.nreg, idx));
    GrowsDefine(b, Load(b.nreg, idx), lo, {});
    KeysDefine(b, Load(b.nreg, idx));
    var (b8, next) := Define(b7, ArithI(b7.nreg, Add, Size(t), j, Const(1)));
    GrowsDefine(b7, ArithI(b7.nreg, Add, Size(t), j, Const(1)), lo, {});
    KeysDefine(b7, ArithI(b7.nreg, Add, Size(t), j, Const(1)));
    Chain(b, b7, b8, lo, lo, {}, {});
    GrowsAppend(b8, Store(next, idx), lo, {});
    KeysDefine(b8, Store(next, idx));
    Chain(b, b8, Append(b8, Store(next, idx)), lo, lo, {}, {});
  }

  lemma KeysDefine(b: Builder, i: Instr)
    requires Ready(b)
    ensures Append(b, i).blocks.Keys == b.blocks.Keys && Append(b, i).cur in b.blocks
  {
  }

  // ----- if-chains -----

  /** Created by the if-chain and not placed yet: body blocks of the conditions from `base`
      on, and the ids from base + 2n up to hi. */
  ghost predicate ArmsFree(b: Builder, base: nat, n: nat, hi: nat) {
    && (forall i: nat | i < n :: Anon(base + 2 * i + 1) !in b.blocks)
    && (forall k: nat | base + 2 * n <= k < hi :: Anon(k) !in b.blocks)
  }

  lemma ArmsFreeTail(b: Builder, b1: Builder, base: nat, n: nat, hi: nat)
    requires n > 0 && ArmsFree(b, base, n, hi) && base + 2 * n <= hi <= b.nbb
    requires forall k: nat | k < b.nbb && Anon(k) !in b.blocks && k != base + 1 :: Anon(k) !in b1.blocks
    ensures ArmsFree(b1, base + 2, n - 1, hi)
  {
    forall i: nat | i < n - 1
      ensures Anon(base + 2 + 2 * i + 1) !in b1.blocks
    {
      assert Anon(base + 2 * (i + 1) + 1) !in b.blocks;
    }
  }

  lemma {:induction false} GrowsConds(c: Ctx, conds: seq<Expr>, base: nat, lo: nat, hi: nat, b: Builder)
    requires (forall i | 0 <= i < |conds| :: TypeE(c.g, conds[i]) == Some(BOOL)) && Ready(b)
    requires lo <= base && base + 2 * |conds| <= hi <= b.nbb
    requires forall k: nat | base <= k < hi :: Anon(k) !in b.blocks
    ensures Grows(b, EmitConds(c, conds, base, b), lo, {})
    ensures ArmsFree(EmitConds(c, conds, base, b), base, |conds|, hi)
    ensures forall k: nat | k < base && Anon(k) !in b.blocks :: Anon(k) !in EmitConds(c, conds, base, b).blocks
    decreases conds
  {
    hide Grown, Counted;
    if conds == [] {
      GrowsRefl(b, lo, {});
    } else {
      GrowsR(c, conds[0], b);
      var (b1, v) := EmitR(c, conds[0], b);
      forall k: nat | k < b.nbb && Anon(k) !in b.blocks
        ensures Anon(k) !in b1.blocks
      {
        StillFree(b, b1, b.nbb, {}, k);
      }
      Weaken(b, b1, b.nbb, {}, lo, {});
      var b2 := Place(Append(b1, CondBr(v, Anon(base + 1), Anon(base))), c.fn, Anon(base));
      GrowsTurn(b1, CondBr(v, Anon(base + 1), Anon(base)), c.fn, Anon(base), lo, {});
      Chain(b, b1, b2, lo, lo, {}, {});
      GrowsConds(c, conds[1..], base + 2, lo, hi, b2);
      var b3 := EmitConds(c, conds[1..], base + 2, b2);
      Chain(b, b2, b3, lo, lo, {}, {});
      forall i: nat | i < |conds|
        ensures Anon(base + 2 * i + 1) !in b3.blocks
      {
        if i > 0 {
          assert Anon(base + 2 + 2 * (i - 1) + 1) !in b3.blocks;
        }
      }
    }
  }

  lemma {:induction false} GrowsArm(c: Ctx, s: Stmt, bb: BB, out: BB, lo: nat, b: Builder)
    requires Accepted(c, s) && Ready(b) && DistinctLabels(s) && FreshLabels(b, Labels(s, true))
    requires bb.Anon? && lo <= bb.id < b.nbb && bb !in b.blocks
    ensures Grows(b, EmitArm(c, s, bb, out, b), lo, Labels(s, true))
    ensures Grows(Place(b, c.fn, bb), EmitS(c, s, Place(b, c.fn, bb)), b.nbb, Labels(s, true))
    ensures forall k: nat | k < b.nbb && Anon(k) !in b.blocks && k != bb.id ::
            Anon(k) !in EmitArm(c, s, bb, out, b).blocks
    decreases s, 2
  {
    hide Grown, Counted;
    var ls := Labels(s, true);
    var b1 := Place(b, c.fn, bb);
    GrowsPlace(b, c.fn, bb, lo, ls);
    GrowsPlace(b, c.fn, bb, lo, {});
    StillFresh(b, b1, lo, {}, ls);
    GrowsS(c, s, b1);
    var b2 := EmitS(c, s, b1);
    forall k: nat | k < b.nbb && Anon(k) !in b.blocks && k != bb.id
      ensures Anon(k) !in b2.blocks
    {
      StillFree(b1, b2, b1.nbb, ls, k);
    }
    assert Append(b2, Br(out)).blocks.Keys == b2.blocks.Keys by { KeysDefine(b2, Br(out)); }
    Chain(b, b1, b2, lo, b1.nbb, ls, ls);
    GrowsAppend(b2, Br(out), lo, ls);
    Chain(b, b2, Append(b2, Br(out)), lo, lo, ls, ls);
  }

  lemma {:induction false} GrowsBodies(c: Ctx, bodies: seq<Stmt>, base: nat, out: BB, lo: nat, hi: nat, b: Builder)
    requires (forall i | 0 <= i < |bodies| :: Accepted(c, bodies[i])) && Ready(b)
    requires DistinctLabelsSeq(bodies) && FreshLabels(b, LabelsSeq(bodies, true))
    requires lo <= base && base + 2 * |bodies| <= hi <= b.nbb && ArmsFree(b, base, |bodies|, hi)
    ensures Grows(b, EmitBodies(c, bodies, base, out, b), lo, LabelsSeq(bodies, true))
    ensures forall k: nat | base + 2 * |bodies| <= k < hi :: Anon(k) !in EmitBodies(c, bodies, base, out, b).blocks
    ensures forall k: nat | k < base && Anon(k) !in b.blocks :: Anon(k) !in EmitBodies(c, bodies, base, out, b).blocks
    decreases bodies, 0
  {
    hide Grown, Counted, EmitS, EmitArm, Accepted, Labels, DistinctLabels;
    if bodies == [] {
      GrowsRefl(b, lo, {});
    } else {
      var ls, ls1 := LabelsSeq(bodies, true), LabelsSeq(bodies[1..], true);
      assert Anon(base + 2 * 0 + 1) !in b.blocks;
      GrowsArm(c, bodies[0], Anon(base + 1), out, lo, b);
      var b1 := EmitArm(c, bodies[0], Anon(base + 1), out, b);
      StillFresh(b, b1, lo, Labels(bodies[0], true), ls1);
      ArmsFreeTail(b, b1, base, |bodies|, hi);
      GrowsBodies(c, bodies[1..], base + 2, out, lo, hi, b1);
      Weaken(b, b1, lo, Labels(bodies[0], true), lo, ls);
      Chain(b, b1, EmitBodies(c, bodies, base, out, b), lo, lo, ls, ls1);
    }
  }

  /** The chain up to the branch that ends the last condition block. */
  ghost function IfConds(c: Ctx, s: Stmt, b: Builder): Builder
    requires s.If? && Accepted(c, s)
  {
    EmitConds(c, s.conds, b.nbb + 1, NewBB(b, IfBlocks(s)))
  }

  ghost function IfTurn(c: Ctx, s: Stmt, b: Builder): Builder
    requires s.If? && Accepted(c, s)
  {
    Append(IfConds(c, s, b), Br(if s.remain.Some? then ElseBlock(b.nbb + 1, |s.conds|) else Anon(b.nbb)))
  }

  ghost function IfArms(c: Ctx, s: Stmt, b: Builder): Builder
    requires s.If? && Accepted(c, s)
  {
    EmitBodies(c, s.bodies, b.nbb + 1, Anon(b.nbb), IfTurn(c, s, b))
  }

  ghost function IfElse(c: Ctx, s: Stmt, b: Builder): Builder
    requires s.If? && Accepted(c, s)
  {
    if s.remain.Some? then EmitArm(c, s.remain.value, ElseBlock(b.nbb + 1, |s.conds|), Anon(b.nbb), IfArms(c, s, b))
    else IfArms(c, s, b)
  }

  lemma AcceptedIf(c: Ctx, s: Stmt)
    requires s.If? && Accepted(c, s)
    ensures |s.conds| == |s.bodies|
    ensures forall i | 0 <= i < |s.conds| :: TypeE(c.g, s.conds[i]) == Some(BOOL)
    ensures forall i | 0 <= i < |s.bodies| :: Accepted(c, s.bodies[i])
    ensures s.remain.Some? ==> Accepted(c, s.remain.value)
  {
  }

  lemma UnfoldIf(c: Ctx, s: Stmt, b: Builder)
    requires s.If? && Accepted(c, s)
    ensures EmitS(c, s, b) == Place(IfElse(c, s, b), c.fn, Anon(b.nbb))
  {
    hide TypeE, WellTyped, LoopStackOk, EmitArm, EmitBodies, EmitConds;
    AcceptedIf(c, s);
  }

  lemma IfFresh(s: Stmt, b: Builder)
    requires s.If? && FreshLabels(b, Labels(s, true))
    ensures FreshLabels(b, LabelsSeq(s.bodies, true)) &&
            (s.remain.Some? ==> FreshLabels(b, Labels(s.remain.value, true)))
  {
  }

  /** The conditions of a chain and the branch that ends the last of them. */
  lemma IfStart(c: Ctx, s: Stmt, b: Builder)
    requires s.If? && Accepted(c, s) && Ready(b) && FreshLabels(b, Labels(s, true))
    ensures Grows(NewBB(b, IfBlocks(s)), IfConds(c, s, b), b.nbb, {}) &&
            Grows(IfConds(c, s, b), IfTurn(c, s, b), b.nbb, {})
    ensures Grows(b, IfTurn(c, s, b), b.nbb, Labels(s, true)) && b.nbb + IfBlocks(s) <= IfTurn(c, s, b).nbb
    ensures ArmsFree(IfTurn(c, s, b), b.nbb + 1, |s.conds|, b.nbb + IfBlocks(s)) &&
            Anon(b.nbb) !in IfTurn(c, s, b).blocks
    ensures FreshLabels(IfTurn(c, s, b), Labels(s, true))
  {
    hide Grown, Counted, EmitS, EmitBodies, EmitConds, EmitArm, WellTyped, LoopStackOk, Accepted, Labels;
    AcceptedIf(c, s);
    var lo, hi, ls := b.nbb, b.nbb + IfBlocks(s), Labels(s, true);
    var b0 := NewBB(b, IfBlocks(s));
    GrowsNewBB(b, IfBlocks(s), lo, ls);
    forall k: nat | lo <= k < hi
      ensures Anon(k) !in b0.blocks
    {
      NotYet(b, k);
    }
    GrowsConds(c, s.conds, lo + 1, lo, hi, b0);
    var b1, b2 := IfConds(c, s, b), IfTurn(c, s, b);
    Weaken(b0, b1, lo, {}, lo, ls);
    Chain(b, b0, b1, lo, lo, ls, ls);
    GrowsAppend(b1, Br(if s.remain.Some? then ElseBlock(b.nbb + 1, |s.conds|) else Anon(b.nbb)), lo, {});
    Chain(b, b1, b2, lo, lo, ls, {});
    KeysDefine(b1, Br(if s.remain.Some? then ElseBlock(b.nbb + 1, |s.conds|) else Anon(b.nbb)));
    StillFresh(b0, b1, lo, {}, ls);
  }

  lemma {:induction false} GrowsIf(c: Ctx, s: Stmt, b: Builder)
    requires s.If? && Accepted(c, s) && Ready(b) && DistinctLabels(s) && FreshLabels(b, Labels(s, true))
    ensures EmitS(c, s, b) == Place(IfElse(c, s, b), c.fn, Anon(b.nbb))
    ensures Grows(b, EmitS(c, s, b), b.nbb, Labels(s, true))
    ensures Grows(NewBB(b, IfBlocks(s)), IfConds(c, s, b), b.nbb, {}) &&
            Grows(IfConds(c, s, b), IfTurn(c, s, b), b.nbb, {})
    ensures ArmsFree(IfTurn(c, s, b), b.nbb + 1, |s.conds|, b.nbb + IfBlocks(s)) &&
            Anon(b.nbb) !in IfElse(c, s, b).blocks
    ensures FreshLabels(IfTurn(c, s, b), LabelsSeq(s.bodies, true))
    ensures Grows(IfTurn(c, s, b), IfArms(c, s, b), b.nbb, LabelsSeq(s.bodies, true))
    ensures Grows(IfArms(c, s, b), IfElse(c, s, b), b.nbb, Labels(s, true))
    ensures Grows(IfElse(c, s, b), EmitS(c, s, b), b.nbb, {})
    ensures s.remain.Some? ==> ElseBlock(b.nbb + 1, |s.conds|) !in IfArms(c, s, b).blocks
    ensures s.remain.Some? ==> FreshLabels(IfArms(c, s, b), Labels(s.remain.value, true))
    decreases s, 0
  {
    hide Grown, Counted, EmitS, EmitBodies, EmitConds, EmitArm, WellTyped, LoopStackOk, Accepted;
    AcceptedIf(c, s);
    UnfoldIf(c, s, b);
    IfStart(c, s, b);
    var lo, hi, ls := b.nbb, b.nbb + IfBlocks(s), Labels(s, true);
    var b2 := IfTurn(c, s, b);
    IfFresh(s, b2);
    GrowsBodies(c, s.bodies, lo + 1, Anon(lo), lo, hi, b2);
    var b3, b4 := IfArms(c, s, b), IfElse(c, s, b);
    Chain(b, b2, b3, lo, lo, ls, LabelsSeq(s.bodies, true));
    if s.remain.Some? {
      StillFresh(b2, b3, lo, LabelsSeq(s.bodies, true), Labels(s.remain.value, true));
      GrowsArm(c, s.remain.value, ElseBlock(lo + 1, |s.conds|), Anon(lo), lo, b3);
      Weaken(b3, b4, lo, Labels(s.remain.value, true), lo, ls);
    } else {
      GrowsRefl(b3, lo, ls);
    }
    Chain(b, b3, b4, lo, lo, ls, ls);
    GrowsPlace(b4, c.fn, Anon(lo), lo, {});
    Chain(b, b4, EmitS(c, s, b), lo, lo, ls, {});
  }

  // ----- functions -----

  /** The walk of a function's body. */
  ghost function FnBody(c: Ctx, ret: Option<Ty>, body: Stmt, b: Builder): Builder
    requires WellTyped(c.g, ret, body) && LoopStackOk(body, c.loops != [])
  {
    EmitS(FnCtx(c, ret, b), body, FnEntry(ret, b))
  }

  lemma {:induction false} GrowsFn(c: Ctx, ret: Option<Ty>, body: Stmt, b: Builder)
    requires WellTyped(c.g, ret, body) && LoopStackOk(body, c.loops != []) && Ready(b)
    requires DistinctLabels(body) && FreshLabels(b, Labels(body, true))
    ensures Grows(b, EmitFn(c, ret, body, b), b.nbb, Labels(body, true))
    ensures var c1, b0, b1 := FnCtx(c, ret, b), FnEntry(ret, b), FnBody(c, ret, body, b);
            && Ready(b0) && FreshLabels(b0, Labels(body, true)) && Grows(b0, b1, b0.nbb, Labels(body, true))
            && c1.retbb !in b1.blocks && Grows(b1, EmitExit(c1, b1), b.nbb, {})
    decreases body, 2
  {
    hide Grown, Counted;
    var c1, ls := FnCtx(c, ret, b), Labels(body, true);
    var b0 := FnEntry(ret, b);
    GrowsFnEntry(ret, b, ls);
    GrowsS(c1, body, b0);
    var b1 := EmitS(c1, body, b0);
    StillFree(b0, b1, b0.nbb, ls, b.nbb);
    Chain(b, b0, b1, b.nbb, b0.nbb, ls, ls);
    GrowsExit(c1, b1, b.nbb);
    Chain(b, b1, EmitExit(c1, b1), b.nbb, b.nbb, ls, {});
    Restored(b, EmitExit(c1, b1), ls);
  }

  lemma GrowsFnEntry(ret: Option<Ty>, b: Builder, ls: set<string>)
    requires Ready(b) && FreshLabels(b, ls)
    ensures Grows(b, FnEntry(ret, b), b.nbb, ls) && FreshLabels(FnEntry(ret, b), ls)
    ensures Anon(b.nbb) !in FnEntry(ret, b).blocks && FnEntry(ret, b).nbb == b.nbb + 2
  {
  }

  lemma Restored(b: Builder, b1: Builder, ls: set<string>)
    requires Grows(b, b1, b.nbb, ls)
    ensures Grows(b, b1.(cur := b.cur), b.nbb, ls)
  {
  }

  lemma GrowsExit(c: Ctx, b: Builder, lo: nat)
    requires Ready(b) && c.retbb.Anon? && lo <= c.retbb.id < b.nbb && c.retbb !in b.blocks
    ensures Grows(b, EmitExit(c, b), lo, {})
  {
    hide Grown, Counted;
    GrowsTurn(b, Br(c.retbb), c.fn, c.retbb, lo, {});
    var b1 := Place(Append(b, Br(c.retbb)), c.fn, c.retbb);
    if c.ret.None? {
      GrowsAppend(b1, RetVoid, lo, {});
      Chain(b, b1, EmitExit(c, b), lo, lo, {}, {});
    } else {
      var (b2, v) := Define(b1, Load(b1.nreg, c.retslot));
      GrowsDefine(b1, Load(b1.nreg, c.retslot), lo, {});
      Chain(b, b1, b2, lo, lo, {}, {});
      GrowsAppend(b2, RetI(v), lo, {});
      Chain(b, b2, EmitExit(c, b), lo, lo, {}, {});
    }
  }

  /** The block where a nested function is defined is left as it was. */
  lemma FnKeepsCur(c: Ctx, ret: Option<Ty>, body: Stmt, b: Builder)
    requires WellTyped(c.g, ret, body) && LoopStackOk(body, c.loops != []) && Ready(b)
    requires DistinctLabels(body) && FreshLabels(b, Labels(body, true))
    ensures EmitFn(c, ret, body, b).cur == b.cur && Text(EmitFn(c, ret, body, b), b.cur) == Text(b, b.cur)
  {
    hide Grown, Counted, EmitS, EmitExit, FreshLabels, Labels;
    GrowsFn(c, ret, body, b);
    var c1, b0 := FnCtx(c, ret, b), FnEntry(ret, b);
    var b1 := EmitS(c1, body, b0);
    NotYet(b, b.nbb + 1);
    Untouched(b0, b1, b0.nbb, Labels(body, true), b.cur);
    Untouched(b1, EmitExit(c1, b1), b.nbb, {}, b.cur);
  }

  lemma Untouched(b: Builder, b1: Builder, lo: nat, ls: set<string>, bb: BB)
    requires Grows(b, b1, lo, ls) && bb in b.blocks && bb != b.cur
    ensures bb in b1.blocks && b1.blocks[bb] == b.blocks[bb] && bb != b1.cur
  {
  }
}
