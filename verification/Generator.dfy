/** The walker itself: it moves the insertion point of one builder and keeps the operand
    stack, the loop-control stack, the label map and the current function in fields.  Every
    method is proved against the functions of Emit. */
module Generator {
  import opened IntTypes
  import opened Syntax
  import opened Target
  import opened Emit
  import opened Frame

  /** What a function definition node carries while its body is walked. */
  datatype FnNode = FnNode(fn: nat, ret: Option<Ty>, retbb: BB, retslot: nat)

  class Walker {
    const g: seq<Ty>

    // the builder
    var blocks: Code
    var placed: seq<(nat, BB)>
    var cur: BB
    var nbb: nat
    var nreg: nat
    var nslot: nat
    var nfn: nat

    // the walker's own state
    var oprandStack: seq<Operand>
    var loopControls: seq<LoopCtl>
    var labelMap: map<string, BB>
    var currFn: FnNode
    var currFnStack: seq<FnNode>
    var withRetValue: bool

    /** Outside all functions: the insertion point is in no function, and no code is there. */
    constructor (g: seq<Ty>)
      ensures Valid() && this.g == g && currFn == FnNode(0, None, Anon(0), 0) && currFnStack == []
      ensures oprandStack == [] && loopControls == [] && !withRetValue
      ensures IR() == Builder(map[Anon(0) := []], [], Anon(0), 1, 0, |g|, 1)
    {
      this.g := g;
      blocks, placed, cur := map[Anon(0) := []], [], Anon(0);
      nbb, nreg, nslot, nfn := 1, 0, |g|, 1;
      oprandStack, loopControls, labelMap := [], [], map[];
      currFn, currFnStack, withRetValue := FnNode(0, None, Anon(0), 0), [], false;
    }

    /** Every label has the one block its name stands for. */
    ghost predicate Valid()
      reads this
    {
      forall l | l in labelMap :: labelMap[l] == Named(l)
    }

    ghost function IR(): Builder
      reads this
    {
      Builder(blocks, placed, cur, nbb, nreg, nslot, nfn)
    }

    ghost function Context(): Ctx
      reads this
    {
      Ctx(g, currFn.fn, currFn.ret, currFn.retbb, currFn.retslot, loopControls)
    }

    /** All that stays as it is while code is only appended. */
    twostate predicate Kept()
      reads this
    {
      && currFn == old(currFn) && currFnStack == old(currFnStack) && loopControls == old(loopControls)
      && labelMap == old(labelMap) && withRetValue == old(withRetValue)
    }

    // ----- the builder -----

    method Insert(i: Instr)
      modifies this
      ensures IR() == Append(old(IR()), i) && Kept() && oprandStack == old(oprandStack)
    {
      blocks := blocks[cur := (if cur in blocks then blocks[cur] else []) + [i]];
    }

    method GenBB() returns (bb: BB)
      modifies this
      ensures bb == Anon(old(nbb)) && IR() == NewBB(old(IR()), 1) && Kept() && oprandStack == old(oprandStack)
    {
      bb := Anon(nbb);
      nbb := nbb + 1;
    }

    /** Pushes the block into the function and sets the insertion point. */
    method SetInsertPoint(fn: nat, bb: BB)
      modifies this
      ensures IR() == Place(old(IR()), fn, bb) && Kept() && oprandStack == old(oprandStack)
    {
      placed := placed + [(fn, bb)];
      blocks := blocks[bb := if bb in blocks then blocks[bb] else []];
      cur := bb;
    }

    /** An instruction with a result. */
    method Create(i: Instr) returns (v: Value)
      modifies this
      ensures (IR(), v) == Define(old(IR()), i) && Kept() && oprandStack == old(oprandStack)
    {
      Insert(i);
      v := Reg(nreg);
      nreg := nreg + 1;
    }

    method GenEntryBlockVar(init: Value) returns (slot: nat)
      modifies this
      ensures slot == old(nslot)
      ensures IR() == Append(old(IR()), Store(init, slot)).(nslot := slot + 1) && Kept() &&
              oprandStack == old(oprandStack)
    {
      slot := nslot;
      nslot := nslot + 1;
      Insert(Store(init, slot));
    }

    /** A branch away, then a fresh block so that no terminator lands in mid-block. */
    method BranchAway(target: BB)
      modifies this
      ensures IR() == Leave(old(IR()), currFn.fn, target) && Kept() && oprandStack == old(oprandStack)
    {
      Insert(Br(target));
      var extra := GenBB();
      SetInsertPoint(currFn.fn, extra);
    }

    // ----- expressions -----

    method PopRightValue() returns (v: Value, t: Ty)
      requires oprandStack != []
      modifies this
      ensures oprandStack == old(oprandStack[..|oprandStack| - 1]) && t == old(oprandStack[|oprandStack| - 1]).ty
      ensures (IR(), v) == Force(old(IR()), old(oprandStack[|oprandStack| - 1])) && Kept()
    {
      var o := oprandStack[|oprandStack| - 1];
      oprandStack := oprandStack[..|oprandStack| - 1];
      t := o.ty;
      match o
      case Slot(s, _) => v := Create(Load(nreg, s));
      case Val(v0, _) => v := v0;
    }

    /** Walks an expression: exactly one operand is left, on top of an untouched stack. */
    method WalkExpr(e: Expr) returns (ok: bool)
      modifies this
      decreases e, 3
      ensures Kept() && (ok <==> TypeE(g, e).Some?)
      ensures ok ==> var (b1, o) := EmitE(old(Context()), e, old(IR()));
                     IR() == b1 && oprandStack == old(oprandStack) + [o]
      ensures e.Lit? ==> ok && HoldsLiteral(oprandStack[|oprandStack| - 1], e.ty, e.val)
    {
      if e.Lit? {
        LiteralHeld(e.ty, e.val);
      }
      match e
      case Lit(t, v) =>
        oprandStack := oprandStack + [Val(Const(Encode(t, LitValue(t, v))), t)];
        ok := true;
      case Var(x) =>
        ok := x < |g|;
        if ok {
          oprandStack := oprandStack + [Slot(x, g[x])];
        }
      case Neg(_) => ok := WalkUnary(e);
      case Not(_) => ok := WalkUnary(e);
      case Arith(_, _, _) => ok := WalkOp2(e);
      case Cmp(_, _, _) => ok := WalkOp2(e);
      case Logic(_, _, _) => ok := WalkOp2(e);
      case As(_, _) => ok := WalkAs(e);
      case Call(_, _, _) => ok := WalkCall(e);
    }

    /** Walks an expression and pops it: the operand stack is as before. */
    method WalkValue(e: Expr) returns (ok: bool, v: Value, t: Ty)
      modifies this
      decreases e, 4
      ensures Kept() && (ok <==> TypeE(g, e).Some?)
      ensures ok ==> t == TypeE(g, e).value && oprandStack == old(oprandStack)
      ensures ok ==> (IR(), v) == EmitR(old(Context()), e, old(IR()))
    {
      ok := WalkExpr(e);
      if ok {
        v, t := PopRightValue();
      } else {
        v, t := Const(0), BOOL;
      }
    }

    method WalkUnary(e: Expr) returns (ok: bool)
      requires e.Neg? || e.Not?
      modifies this
      decreases e, 2
      ensures Kept() && (ok <==> TypeE(g, e).Some?)
      ensures ok && e.Neg? ==> oprandStack != [] && oprandStack[|oprandStack| - 1].ty in {I8, I16, I32, I64, BOOL}
      ensures ok ==> var (b1, o) := EmitE(old(Context()), e, old(IR()));
                     IR() == b1 && oprandStack == old(oprandStack) + [o]
    {
      var v, t;
      ok, v, t := WalkValue(e.arg);
      if !ok {
        return;
      }
      if e.Neg? && !(Signed(t) || t == BOOL) {
        return false;
      }
      v := Create(if e.Neg? then NegI(nreg, Size(t), v) else NotI(nreg, Size(t), v));
      oprandStack := oprandStack + [Val(v, t)];
    }

    method WalkOp2(e: Expr) returns (ok: bool)
      requires e.Arith? || e.Cmp? || e.Logic?
      modifies this
      decreases e, 2
      ensures Kept() && (ok <==> TypeE(g, e).Some?)
      ensures ok ==> var (b1, o) := EmitE(old(Context()), e, old(IR()));
                     IR() == b1 && oprandStack == old(oprandStack) + [o]
    {
      var v1, t1;
      ok, v1, t1 := WalkValue(e.left);
      if !ok {
        return;
      }
      if e.Logic? {
        if t1 != BOOL {
          return false;
        }
        ok := WalkLandor(e, v1);
        return;
      }
      var v2, t2;
      ok, v2, t2 := WalkValue(e.right);
      if !ok {
        return;
      }
      if t1 != t2 {
        return false;
      }
      var v3;
      if e.Arith? {
        v3 := Create(ArithI(nreg, e.aop, Size(t1), v1, v2));
        oprandStack := oprandStack + [Val(v3, t1)];
      } else {
        v3 := Create(CmpI(nreg, CmpPred(t1, e.cop), Size(t1), v1, v2));
        oprandStack := oprandStack + [Val(v3, BOOL)];
      }
    }

    /** The part of `&&` and `||` after the left operand. */
    method WalkLandor(e: Expr, v1: Value) returns (ok: bool)
      requires e.Logic? && TypeE(g, e.left) == Some(BOOL)
      modifies this
      decreases e, 1
      ensures Kept() && (ok <==> TypeE(g, e).Some?)
      ensures ok ==> LandorPart(old(Context()), e, v1, old(IR()), IR())
      ensures ok ==> oprandStack == old(oprandStack) + [Val(Reg(nreg - 1), BOOL)] && nreg > 0
    {
      hide EmitR, EmitE, TypeE, EnterRight;
      TypeLogic(g, e);
      var v1bb := cur;
      var outbb := EnterThen(e.isAnd, v1);
      var v2, t2;
      ok, v2, t2 := WalkValue(e.right);
      if !ok {
        return;
      }
      if t2 != BOOL {
        return false;
      }
      var phi := Join(outbb, v1bb, v1, v2);
      oprandStack := oprandStack + [Val(phi, BOOL)];
    }

    method EnterThen(isAnd: bool, v1: Value) returns (outbb: BB)
      modifies this
      ensures Kept() && oprandStack == old(oprandStack)
      ensures outbb == Anon(old(nbb) + 1) && IR() == EnterRight(old(Context()), isAnd, old(IR()), v1)
    {
      var thenbb := GenBB();
      outbb := GenBB();
      Insert(CondBr(v1, if isAnd then thenbb else outbb, if isAnd then outbb else thenbb));
      SetInsertPoint(currFn.fn, thenbb);
    }

    /** The right operand may have ended in another block than it began in: the phi names the
        block at the insertion point. */
    method Join(outbb: BB, v1bb: BB, v1: Value, v2: Value) returns (phi: Value)
      modifies this
      ensures Kept() && oprandStack == old(oprandStack)
      ensures var b3 := Place(Append(old(IR()), Br(outbb)), currFn.fn, outbb);
              (IR(), phi) == Define(b3, Phi(b3.nreg, old(cur), v2, v1bb, v1))
    {
      var v2bb := cur;
      Insert(Br(outbb));
      SetInsertPoint(currFn.fn, outbb);
      phi := Create(Phi(nreg, v2bb, v2, v1bb, v1));
    }

    method WalkAs(e: Expr) returns (ok: bool)
      requires e.As?
      modifies this
      decreases e, 2
      ensures Kept() && (ok <==> TypeE(g, e).Some?)
      ensures ok ==> var (b1, o) := EmitE(old(Context()), e, old(IR()));
                     IR() == b1 && oprandStack == old(oprandStack) + [o]
    {
      var v, t;
      ok, v, t := WalkValue(e.arg);
      if !ok {
        return;
      }
      var op := GenCastOp(t, e.to);
      if op == Bad {
        return false;
      }
      if op != NoOp {
        v := Create(CastI(nreg, op, Size(t), Size(e.to), v));
      }
      oprandStack := oprandStack + [Val(v, e.to)];
    }

    method WalkCall(e: Expr) returns (ok: bool)
      requires e.Call?
      modifies this
      decreases e, 2
      ensures Kept() && (ok <==> TypeE(g, e).Some?)
      ensures ok ==> var (b1, o) := EmitE(old(Context()), e, old(IR()));
                     IR() == b1 && oprandStack == old(oprandStack) + [o]
    {
      var argv: seq<Value>;
      ok, argv := ValuesFromExprs(e.args);
      if !ok {
        return;
      }
      var ret := Create(CallI(nreg, e.fn, Size(e.res), argv));
      var slot := GenEntryBlockVar(ret);
      oprandStack := oprandStack + [Slot(slot, e.res)];
    }

    method ValuesFromExprs(exprs: seq<Expr>) returns (ok: bool, argv: seq<Value>)
      modifies this
      decreases exprs, 0
      ensures Kept() && (ok <==> forall i | 0 <= i < |exprs| :: TypeE(g, exprs[i]).Some?)
      ensures ok ==> oprandStack == old(oprandStack) && (IR(), argv) == EmitArgs(old(Context()), exprs, old(IR()))
    {
      argv := [];
      for i := 0 to |exprs|
        invariant Kept() && oprandStack == old(oprandStack)
        invariant forall j | 0 <= j < i :: TypeE(g, exprs[j]).Some?
        invariant EmitArgs(old(Context()), exprs[..i], old(IR())) == (IR(), argv)
      {
        var v, t;
        ok, v, t := WalkValue(exprs[i]);
        if !ok {
          return;
        }
        EmitArgsSnoc(old(Context()), exprs[..i], exprs[i], old(IR()));
        assert exprs[..i + 1] == exprs[..i] + [exprs[i]];
        argv := argv + [v];
      }
      assert exprs[..|exprs|] == exprs;
      ok := true;
    }

    // ----- statements -----

    /** The current function and the loop-control stack are as before; the operand stack may
        have grown: assignments and expression statements leave entries that are never used. */
    twostate predicate Restored()
      reads this
    {
      && currFn == old(currFn) && currFnStack == old(currFnStack) && loopControls == old(loopControls)
      && old(oprandStack) <= oprandStack
    }

    /** Walks a statement. */
    method WalkStmt(s: Stmt) returns (ok: bool)
      requires Valid()
      modifies this
      decreases s, 3
      ensures Valid() && (ok <==> Accepted(old(Context()), s))
      ensures ok ==> Restored() && IR() == EmitS(old(Context()), s, old(IR()))
      ensures ok ==> withRetValue == RetFlag(s, old(withRetValue))
    {
      hide EmitE, EmitR, EmitSeq, EmitConds, EmitBodies, EmitArm, EmitFn, EmitForHead, TypeE;
      match s
      case Skip => ok := true;
      case ExprStmt(e) => ok := WalkExpr(e);
      case Assign(x, e) => ok := WalkAssign(s);
      case AssignOp(x, op, e) => ok := WalkAssign(s);
      case Block(ss) => ok := WalkStmtList(ss);
      case If(_, _, _) => ok := WalkIf(s);
      case While(_, _) => ok := WalkWhile(s);
      case Loop(_) => ok := WalkLoop(s);
      case For(_, _, _) => ok := WalkFor(s);
      case Break => ok := WalkBreak();
      case Continue => ok := WalkContinue();
      case Ret(v) => ok := WalkRet(v);
      case Goto(l) =>
        WalkGoto(l);
        ok := true;
      case Label(l) =>
        WalkLabel(l);
        ok := true;
      case FnDef(r, body) => ok := WalkFnDefine(r, body);
    }

    method WalkAssign(s: Stmt) returns (ok: bool)
      requires s.Assign? || s.AssignOp?
      modifies this
      ensures labelMap == old(labelMap) && withRetValue == old(withRetValue)
      ensures ok <==> s.x < |g| && TypeE(g, s.e) == Some(g[s.x])
      ensures ok ==> Restored() && IR() == EmitS(old(Context()), s, old(IR()))
    {
      var v, t;
      ok, v, t := WalkValue(s.e);
      if !ok || s.x >= |g| || t != g[s.x] {
        return false;
      }
      if s.AssignOp? {
        var old_ := Create(Load(nreg, s.x));
        v := Create(ArithI(nreg, s.op, Size(t), old_, v));
      }
      Insert(Store(v, s.x));
      oprandStack := oprandStack + [Slot(s.x, t)];
    }

    method WalkStmtList(ss: seq<Stmt>) returns (ok: bool)
      requires Valid()
      modifies this
      decreases ss, 0
      ensures Valid() && (ok <==> forall i | 0 <= i < |ss| :: Accepted(old(Context()), ss[i]))
      ensures ok ==> Restored() && IR() == EmitSeq(old(Context()), ss, old(IR()))
      ensures ok ==> withRetValue == RetFlagSeq(ss, old(withRetValue))
    {
      hide EmitS, EmitR, EmitE, WellTyped, LoopStackOk, Accepted, TypeE, RetFlag, Size;
      for i := 0 to |ss|
        invariant Valid() && Restored()
        invariant forall j | 0 <= j < i :: Accepted(old(Context()), ss[j])
        invariant IR() == EmitSeq(old(Context()), ss[..i], old(IR()))
        invariant withRetValue == RetFlagSeq(ss[..i], old(withRetValue))
      {
        ok := WalkStmt(ss[i]);
        if !ok {
          return;
        }
        EmitSeqSnoc(old(Context()), ss[..i], ss[i], old(IR()));
        RetFlagSnoc(ss[..i], ss[i], old(withRetValue));
        assert ss[..i + 1] == ss[..i] + [ss[i]];
      }
      assert ss[..|ss|] == ss;
      ok := true;
    }

    method WalkBreak() returns (ok: bool)
      modifies this
      ensures ok <==> old(loopControls) != []
      ensures Kept() && oprandStack == old(oprandStack)
      ensures ok ==> IR() == EmitS(old(Context()), Break, old(IR()))
    {
      ok := loopControls != [];
      if ok {
        BranchAway(loopControls[|loopControls| - 1].out);
      }
    }

    method WalkContinue() returns (ok: bool)
      modifies this
      ensures ok <==> old(loopControls) != []
      ensures Kept() && oprandStack == old(oprandStack)
      ensures ok ==> IR() == EmitS(old(Context()), Continue, old(IR()))
    {
      ok := loopControls != [];
      if ok {
        BranchAway(loopControls[|loopControls| - 1].cond);
      }
    }

    method WalkRet(value: Option<Expr>) returns (ok: bool)
      modifies this
      ensures labelMap == old(labelMap) && (ok <==> WellTyped(g, old(currFn).ret, Ret(value)))
      ensures ok ==> Restored() && withRetValue && IR() == EmitS(old(Context()), Ret(value), old(IR()))
    {
      if value.Some? {
        var v, t;
        ok, v, t := WalkValue(value.value);
        if !ok || currFn.ret != Some(t) {
          return false;
        }
        Insert(Store(v, currFn.retslot));
      } else if currFn.ret.Some? {
        return false;
      }
      BranchAway(currFn.retbb);
      withRetValue := true;
      ok := true;
    }

    /** The block of a label: from the map, or a new one that is entered there. */
    method LabelBlock(l: string) returns (bb: BB)
      requires Valid()
      modifies this`labelMap
      ensures bb == Named(l) && Valid() && labelMap == old(labelMap)[l := bb]
    {
      if l in labelMap {
        bb := labelMap[l];
        assert labelMap == labelMap[l := bb];
      } else {
        bb := Named(l);
        labelMap := labelMap[l := bb];
      }
    }

    method WalkGoto(l: string)
      requires Valid()
      modifies this
      ensures Valid() && Restored() && withRetValue == old(withRetValue)
      ensures IR() == EmitS(old(Context()), Goto(l), old(IR()))
    {
      var bb := LabelBlock(l);
      BranchAway(bb);
    }

    method WalkLabel(l: string)
      requires Valid()
      modifies this
      ensures Valid() && Restored() && withRetValue == old(withRetValue)
      ensures IR() == EmitS(old(Context()), Label(l), old(IR()))
    {
      var bb := LabelBlock(l);
      Insert(Br(bb));
      SetInsertPoint(currFn.fn, bb);
    }

    /** The body of a loop: the control entry is pushed for the walk of the body, then the
        branch back is added and the block after the loop is entered. */
    method WalkLoopBody(body: Stmt, condbb: BB, outbb: BB) returns (ok: bool)
      requires Valid()
      modifies this
      decreases body, 4
      ensures Valid() && (ok <==> Accepted(InLoop(old(Context()), condbb, outbb), body))
      ensures ok ==> Restored() && withRetValue == RetFlag(body, old(withRetValue))
      ensures ok ==> IR() == Place(Append(EmitS(InLoop(old(Context()), condbb, outbb), body, old(IR())), Br(condbb)),
                                   currFn.fn, outbb)
    {
      loopControls := loopControls + [LoopCtl(condbb, outbb)];
      ok := WalkStmt(body);
      if !ok {
        return;
      }
      loopControls := loopControls[..|loopControls| - 1];
      Insert(Br(condbb));
      SetInsertPoint(currFn.fn, outbb);
    }

    method WalkLoop(s: Stmt) returns (ok: bool)
      requires s.Loop? && Valid()
      modifies this
      decreases s, 2
      ensures Valid() && (ok <==> Accepted(old(Context()), s))
      ensures ok ==> Restored() && IR() == EmitS(old(Context()), s, old(IR()))
      ensures ok ==> withRetValue == RetFlag(s.body, old(withRetValue))
    {
      hide EmitS, EmitR, EmitE, WellTyped, LoopStackOk, TypeE, RetFlag, Size;
      UnfoldLoop(Context(), s, IR());
      var loopbb := GenBB();
      var endloopbb := GenBB();
      Insert(Br(loopbb));
      SetInsertPoint(currFn.fn, loopbb);
      ok := WalkLoopBody(s.body, loopbb, endloopbb);
    }

    method WalkWhile(s: Stmt) returns (ok: bool)
      requires s.While? && Valid()
      modifies this
      decreases s, 2
      ensures Valid() && (ok <==> Accepted(old(Context()), s))
      ensures ok ==> Restored() && IR() == EmitS(old(Context()), s, old(IR()))
      ensures ok ==> withRetValue == RetFlag(s.body, old(withRetValue))
    {
      hide EmitS, EmitR, EmitE, EmitConds, EmitBodies, EmitArm, EmitSeq, WellTyped, LoopStackOk, TypeE, RetFlag,
           RetFlagSeq, Size;
      UnfoldWhile(Context(), s, IR());
      var condbb := GenBB();
      var whilebb := GenBB();
      var endwhilebb := GenBB();
      Insert(Br(condbb));
      SetInsertPoint(currFn.fn, condbb);
      var cond, t;
      ok, cond, t := WalkValue(s.cond);
      if !ok || t != BOOL {
        return false;
      }
      Insert(CondBr(cond, whilebb, endwhilebb));
      SetInsertPoint(currFn.fn, whilebb);
      ok := WalkLoopBody(s.body, condbb, endwhilebb);
    }

    method WalkFor(s: Stmt) returns (ok: bool)
      requires s.For? && Valid()
      modifies this
      decreases s, 2
      ensures Valid() && (ok <==> Accepted(old(Context()), s))
      ensures ok ==> Restored() && IR() == EmitS(old(Context()), s, old(IR()))
      ensures ok ==> withRetValue == RetFlag(s.body, old(withRetValue))
    {
      hide EmitS, EmitR, EmitE, WellTyped, LoopStackOk, TypeE, RetFlag, Size, EmitForTest, EmitBounds, ForSourceOk;
      UnfoldFor(Context(), s, IR());
      var condbb := GenBB();
      var loopbb := GenBB();
      var endloopbb := GenBB();
      var first, last;
      ok, first, last := WalkBounds(s.x, s.src);
      if !ok {
        return;
      }
      var idx := GenEntryBlockVar(first);
      ForTest(s, condbb, loopbb, endloopbb, idx, last);
      ok := WalkLoopBody(s.body, condbb, endloopbb);
    }

    method WalkBounds(x: nat, src: ForSource) returns (ok: bool, first: Value, last: Value)
      modifies this
      ensures Kept() && (ok <==> ForSourceOk(g, x, src))
      ensures ok ==>
                oprandStack == old(oprandStack) && (IR(), first, last) == EmitBounds(old(Context()), src, old(IR()))
    {
      first, last := Const(0), Const(0);
      match src
      case Range(lo, hi, _) =>
        var t1, t2;
        ok, first, t1 := WalkValue(lo);
        if ok {
          ok, last, t2 := WalkValue(hi);
          ok := ok && x < |g| && t1 == g[x] && t2 == g[x] && IsInteger(g[x]);
        }
      case Array(base, count) =>
        last := Const(count);
        ok := x < |g| && base + count <= |g| && count < Size(U64) &&
            forall k | base <= k < base + count :: g[k] == g[x];
    }

    /** The condition block, the copy to the variable, and the step of the index, which comes
        before the body. */
    method ForTest(s: Stmt, condbb: BB, loopbb: BB, endloopbb: BB, idx: nat, last: Value)
      requires s.For? && ForSourceOk(g, s.x, s.src)
      requires condbb.Anon? && loopbb == Anon(condbb.id + 1) && endloopbb == Anon(condbb.id + 2)
      modifies this
      ensures Kept() && oprandStack == old(oprandStack)
      ensures IR() == EmitForTest(old(Context()), s, condbb.id, idx, last, old(IR()))
    {
      hide Size;
      ForCondition(s, condbb, loopbb, endloopbb, idx, last);
      ForStep(if s.src.Array? then U64 else g[s.x], idx);
    }

    method ForCondition(s: Stmt, condbb: BB, loopbb: BB, endloopbb: BB, idx: nat, last: Value)
      requires s.For? && ForSourceOk(g, s.x, s.src)
      requires condbb.Anon? && loopbb == Anon(condbb.id + 1) && endloopbb == Anon(condbb.id + 2)
      modifies this
      ensures Kept() && oprandStack == old(oprandStack)
      ensures IR() == ForCopy(old(Context()), s, condbb.id, idx, last, old(IR()))
    {
      hide Size, Append, Place, Define, ForPred;
      var t := if s.src.Array? then U64 else g[s.x];
      var index, go := ForCompare(t, ForPred(s, t), condbb, idx, last);
      Insert(CondBr(go, loopbb, endloopbb));
      SetInsertPoint(currFn.fn, loopbb);
      CopyItem(s, index);
    }

    method CopyItem(s: Stmt, index: Value)
      requires s.For?
      modifies this
      ensures Kept() && oprandStack == old(oprandStack)
      ensures var (b1, item) := if s.src.Array? then Define(old(IR()), LoadAt(old(nreg), s.src.base, index))
              else (old(IR()), index);
              IR() == Append(b1, Store(item, s.x))
    {
      var item := index;
      if s.src.Array? {
        item := Create(LoadAt(nreg, s.src.base, index));
      }
      Insert(Store(item, s.x));
    }

    method ForCompare(t: Ty, pred: Pred, condbb: BB, idx: nat, last: Value) returns (index: Value, go: Value)
      modifies this
      ensures Kept() && oprandStack == old(oprandStack)
      ensures var b1 := Place(Append(old(IR()), Br(condbb)), currFn.fn, condbb);
              var (b2, i) := Define(b1, Load(b1.nreg, idx));
              index == i && (IR(), go) == Define(b2, CmpI(b2.nreg, pred, Size(t), i, last))
    {
      hide Size;
      Insert(Br(condbb));
      SetInsertPoint(currFn.fn, condbb);
      index := Create(Load(nreg, idx));
      go := Create(CmpI(nreg, pred, Size(t), index, last));
    }

    method ForStep(t: Ty, idx: nat)
      modifies this
      ensures Kept() && oprandStack == old(oprandStack)
      ensures var (b1, j) := Define(old(IR()), Load(old(nreg), idx));
              var (b2, next) := Define(b1, ArithI(b1.nreg, Add, Size(t), j, Const(1)));
              IR() == Append(b2, Store(next, idx))
    {
      hide Size;
      var again := Create(Load(nreg, idx));
      var next := Create(ArithI(nreg, Add, Size(t), again, Const(1)));
      Insert(Store(next, idx));
    }

    method WalkIf(s: Stmt) returns (ok: bool)
      requires s.If? && Valid()
      modifies this
      decreases s, 2
      ensures Valid() && (ok <==> Accepted(old(Context()), s))
      ensures ok ==> Restored() && IR() == EmitS(old(Context()), s, old(IR()))
      ensures ok ==> withRetValue == RetFlag(s, old(withRetValue))
    {
      hide EmitS, EmitR, EmitE, WellTyped, LoopStackOk, TypeE, RetFlag, Size, EmitArm, EmitBodies, EmitConds,
           Accepted, ElseBlock;
      AcceptsIf(Context(), s);
      if |s.conds| != |s.bodies| {
        return false;
      }
      ghost var base := nbb + 1;
      var outbb, condbbs, bodybbs := GenIfBlocks(|s.conds|, s.remain.Some?);
      ok := WalkConds(s.conds, base, condbbs, bodybbs);
      if !ok {
        return;
      }
      Insert(Br(if s.remain.Some? then bodybbs[|s.conds|] else outbb));
      ok := WalkBodies(s.bodies, base, bodybbs, outbb);
      if !ok {
        return;
      }
      if s.remain.Some? {
        ok := WalkArm(s.remain.value, bodybbs[|s.conds|], outbb);
        if !ok {
          return;
        }
      }
      SetInsertPoint(currFn.fn, outbb);
      UnfoldIf(old(Context()), s, old(IR()));
      assert withRetValue == RetFlag(s, old(withRetValue)) by { RetFlagIf(s, old(withRetValue)); }
    }

    /** Creates all blocks of an if-chain, in the source's order. */
    method GenIfBlocks(n: nat, withElse: bool) returns (outbb: BB, condbbs: seq<BB>, bodybbs: seq<BB>)
      modifies this
      ensures outbb == Anon(old(nbb)) && |condbbs| == n && |bodybbs| == n + if withElse then 1 else 0
      ensures forall i | 0 <= i < n ::
              condbbs[i] == Anon(old(nbb) + 1 + 2 * i) && bodybbs[i] == Anon(old(nbb) + 2 + 2 * i)
      ensures withElse ==> bodybbs[n] == ElseBlock(old(nbb) + 1, n)
      ensures IR() == NewBB(old(IR()), 1 + 2 * n + if withElse then 1 else 0)
      ensures Kept() && oprandStack == old(oprandStack)
    {
      outbb := GenBB();
      condbbs, bodybbs := [], [];
      for i := 0 to n
        invariant |condbbs| == |bodybbs| == i && Kept() && oprandStack == old(oprandStack)
        invariant IR() == NewBB(old(IR()), 1 + 2 * i)
        invariant forall j | 0 <= j < i ::
                  condbbs[j] == Anon(old(nbb) + 1 + 2 * j) && bodybbs[j] == Anon(old(nbb) + 2 + 2 * j)
      {
        var condbb := GenBB();
        var bodybb := GenBB();
        condbbs, bodybbs := condbbs + [condbb], bodybbs + [bodybb];
      }
      if withElse {
        var elsebb := GenBB();
        bodybbs := bodybbs + [elsebb];
      }
    }

    method WalkConds(conds: seq<Expr>, ghost base: nat, condbbs: seq<BB>, bodybbs: seq<BB>) returns (ok: bool)
      requires |condbbs| == |conds| <= |bodybbs|
      requires forall i | 0 <= i < |conds| :: condbbs[i] == Anon(base + 2 * i) && bodybbs[i] == Anon(base + 2 * i + 1)
      modifies this
      ensures Kept() && (ok <==> forall i | 0 <= i < |conds| :: TypeE(g, conds[i]) == Some(BOOL))
      ensures ok ==> oprandStack == old(oprandStack) && IR() == EmitConds(old(Context()), conds, base, old(IR()))
    {
      hide EmitR, EmitE, TypeE, Size;
      for i := 0 to |conds|
        invariant Kept() && oprandStack == old(oprandStack)
        invariant forall j | 0 <= j < i :: TypeE(g, conds[j]) == Some(BOOL)
        invariant IR() == EmitConds(old(Context()), conds[..i], base, old(IR()))
      {
        var cond, t;
        ok, cond, t := WalkValue(conds[i]);
        if !ok || t != BOOL {
          return false;
        }
        Insert(CondBr(cond, bodybbs[i], condbbs[i]));
        SetInsertPoint(currFn.fn, condbbs[i]);
        EmitCondsSnoc(old(Context()), conds[..i], conds[i], base, old(IR()));
        assert conds[..i + 1] == conds[..i] + [conds[i]];
      }
      assert conds[..|conds|] == conds;
      ok := true;
    }

    method WalkBodies(bodies: seq<Stmt>, ghost base: nat, bodybbs: seq<BB>, outbb: BB) returns (ok: bool)
      requires Valid() && |bodies| <= |bodybbs|
      requires forall i | 0 <= i < |bodies| :: bodybbs[i] == Anon(base + 2 * i + 1)
      modifies this
      decreases bodies, 0
      ensures Valid() && (ok <==> forall i | 0 <= i < |bodies| :: Accepted(old(Context()), bodies[i]))
      ensures ok ==> Restored() && IR() == EmitBodies(old(Context()), bodies, base, outbb, old(IR()))
      ensures ok ==> withRetValue == RetFlagSeq(bodies, old(withRetValue))
    {
      hide EmitS, EmitR, EmitE, EmitArm, WellTyped, LoopStackOk, Accepted, TypeE, RetFlag, Size;
      for i := 0 to |bodies|
        invariant Valid() && Restored()
        invariant forall j | 0 <= j < i :: Accepted(old(Context()), bodies[j])
        invariant IR() == EmitBodies(old(Context()), bodies[..i], base, outbb, old(IR()))
        invariant withRetValue == RetFlagSeq(bodies[..i], old(withRetValue))
      {
        ok := WalkArm(bodies[i], bodybbs[i], outbb);
        if !ok {
          return;
        }
        EmitBodiesSnoc(old(Context()), bodies[..i], bodies[i], base, outbb, old(IR()));
        RetFlagSnoc(bodies[..i], bodies[i], old(withRetValue));
        assert bodies[..i + 1] == bodies[..i] + [bodies[i]];
      }
      assert bodies[..|bodies|] == bodies;
      ok := true;
    }

    method WalkArm(body: Stmt, bodybb: BB, outbb: BB) returns (ok: bool)
      requires Valid()
      modifies this
      decreases body, 4
      ensures Valid() && (ok <==> Accepted(old(Context()), body))
      ensures ok ==> Restored() && IR() == EmitArm(old(Context()), body, bodybb, outbb, old(IR()))
      ensures ok ==> withRetValue == RetFlag(body, old(withRetValue))
    {
      SetInsertPoint(currFn.fn, bodybb);
      ok := WalkStmt(body);
      if ok {
        Insert(Br(outbb));
      }
    }

    // ----- functions -----

    /** Saves the insertion point and the current function, walks the body, adds the exit
        block and restores both.  `withRetValue` and the loop-control stack are not saved. */
    method WalkFnDefine(ret: Option<Ty>, body: Stmt) returns (ok: bool)
      requires Valid()
      modifies this
      decreases body, 4
      ensures Valid()
      ensures ok <==>
                WellTyped(g, ret, body) && LoopStackOk(body, old(loopControls) != []) &&
                (ret.Some? ==> RetFlag(body, false))
      ensures ok ==> Restored() && IR() == EmitFn(old(Context()), ret, body, old(IR()))
      ensures ok ==> withRetValue == RetFlag(body, false)
    {
      hide EmitS, WellTyped, LoopStackOk, RetFlag, EmitExit, FnEntry;
      var savedInsertBB := cur;
      EnterFunction(ret);
      ok := WalkStmt(body);
      if !ok {
        return;
      }
      ok := GenerateExit();
      if !ok {
        return;
      }
      cur := savedInsertBB;
      currFn := currFnStack[|currFnStack| - 1];
      currFnStack := currFnStack[..|currFnStack| - 1];
    }

    method EnterFunction(ret: Option<Ty>)
      modifies this
      ensures IR() == FnEntry(ret, old(IR())) && Context() == FnCtx(old(Context()), ret, old(IR()))
      ensures currFnStack == old(currFnStack + [currFn]) && !withRetValue
      ensures loopControls == old(loopControls) && oprandStack == old(oprandStack) && labelMap == old(labelMap)
    {
      withRetValue := false;
      currFnStack := currFnStack + [currFn];
      var entry := BeginFunction(ret);
      assert IR() == NewBB(old(IR()), 2);
      SetInsertPoint(currFn.fn, entry);
      assert IR() == Place(NewBB(old(IR()), 2), old(nfn), entry);
      nfn := nfn + 1;
      if ret.Some? {
        nslot := nslot + 1;
      }
    }

    /** Creates the exit and the entry block and makes the function current. */
    method BeginFunction(ret: Option<Ty>) returns (entry: BB)
      modifies this`nbb, this`currFn
      ensures entry == Anon(old(nbb) + 1) && nbb == old(nbb) + 2 && currFn == FnNode(nfn, ret, Anon(old(nbb)), nslot)
    {
      var retbb := Anon(nbb);
      entry := Anon(nbb + 1);
      nbb := nbb + 2;
      currFn := FnNode(nfn, ret, retbb, nslot);
    }

    method GenerateExit() returns (ok: bool)
      modifies this
      ensures Kept() && oprandStack == old(oprandStack) && (ok <==> (currFn.ret.Some? ==> withRetValue))
      ensures ok ==> IR() == EmitExit(old(Context()), old(IR()))
    {
      Insert(Br(currFn.retbb));
      SetInsertPoint(currFn.fn, currFn.retbb);
      ok := GenerateFinalReturn();
    }

    /** A non-void function must have set the return flag. */
    method GenerateFinalReturn() returns (ok: bool)
      modifies this
      ensures Kept() && oprandStack == old(oprandStack) && (ok <==> (currFn.ret.Some? ==> withRetValue))
      ensures ok ==> IR() == FinalReturn(old(Context()), old(IR()))
    {
      ok := true;
      if currFn.ret.None? {
        Insert(RetVoid);
      } else if withRetValue {
        var v := Create(Load(nreg, currFn.retslot));
        Insert(RetI(v));
      } else {
        ok := false;
      }
    }
  }

  /** What `&&` and `||` add after the left operand's value v1. */
  ghost predicate LandorPart(c: Ctx, e: Expr, v1: Value, b: Builder, b4: Builder)
    requires e.Logic? && TypeE(c.g, e.right).Some?
  {
    var (b2, v2) := EmitR(c, e.right, EnterRight(c, e.isAnd, b, v1));
    var b3 := Place(Append(b2, Br(Anon(b.nbb + 1))), c.fn, Anon(b.nbb + 1));
    b4 == Define(b3, Phi(b3.nreg, b2.cur, v2, b.cur, v1)).0
  }

  /** Arguments one at a time, from the left. */
  lemma {:induction false} EmitArgsSnoc(c: Ctx, es: seq<Expr>, e: Expr, b: Builder)
    requires (forall i | 0 <= i < |es| :: TypeE(c.g, es[i]).Some?) && TypeE(c.g, e).Some?
    ensures var (b1, vs) := EmitArgs(c, es, b);
            var (b2, v) := EmitR(c, e, b1);
            EmitArgs(c, es + [e], b) == (b2, vs + [v])
    decreases es
  {
    if es == [] {
      var (b1, v) := EmitR(c, e, b);
      assert es + [e] == [e] && [e][1..] == [];
      assert [v] + [] == [] + [v];
    } else {
      hide EmitR;
      var (b1, v0) := EmitR(c, es[0], b);
      EmitArgsSnoc(c, es[1..], e, b1);
      assert (es + [e])[0] == es[0] && (es + [e])[1..] == es[1..] + [e];
      var (b2, vs) := EmitArgs(c, es[1..], b1);
      var (b3, v) := EmitR(c, e, b2);
      assert [v0] + (vs + [v]) == ([v0] + vs) + [v];
    }
  }

  lemma {:induction false} EmitSeqSnoc(c: Ctx, ss: seq<Stmt>, s: Stmt, b: Builder)
    requires (forall i | 0 <= i < |ss| :: Accepted(c, ss[i])) && Accepted(c, s)
    ensures EmitSeq(c, ss + [s], b) == EmitS(c, s, EmitSeq(c, ss, b))
    decreases ss
  {
    hide EmitS, Accepted;
    if ss == [] {
      assert ss + [s] == [s] && [s][1..] == [];
    } else {
      EmitSeqSnoc(c, ss[1..], s, EmitS(c, ss[0], b));
      assert (ss + [s])[0] == ss[0] && (ss + [s])[1..] == ss[1..] + [s];
    }
  }

  lemma {:induction false} RetFlagSnoc(ss: seq<Stmt>, s: Stmt, f: bool)
    ensures RetFlagSeq(ss + [s], f) == RetFlag(s, RetFlagSeq(ss, f))
    decreases ss
  {
    hide RetFlag;
    if ss == [] {
      assert ss + [s] == [s] && [s][1..] == [];
    } else {
      RetFlagSnoc(ss[1..], s, RetFlag(ss[0], f));
      assert (ss + [s])[0] == ss[0] && (ss + [s])[1..] == ss[1..] + [s];
    }
  }

  lemma {:induction false} EmitCondsSnoc(c: Ctx, conds: seq<Expr>, e: Expr, base: nat, b: Builder)
    requires (forall i | 0 <= i < |conds| :: TypeE(c.g, conds[i]) == Some(BOOL)) && TypeE(c.g, e) == Some(BOOL)
    ensures var id := base + 2 * |conds|;
            var (b1, v) := EmitR(c, e, EmitConds(c, conds, base, b));
            EmitConds(c, conds + [e], base, b) == Place(Append(b1, CondBr(v, Anon(id + 1), Anon(id))), c.fn, Anon(id))
    decreases conds
  {
    hide EmitR, TypeE;
    if conds == [] {
      assert conds + [e] == [e] && [e][1..] == [];
    } else {
      var (b1, v) := EmitR(c, conds[0], b);
      EmitCondsSnoc(c, conds[1..], e, base + 2, Place(Append(b1, CondBr(v, Anon(base + 1), Anon(base))), c.fn,
                                                      Anon(base)));
      assert (conds + [e])[0] == conds[0] && (conds + [e])[1..] == conds[1..] + [e];
    }
  }

  lemma {:induction false} EmitBodiesSnoc(c: Ctx, bodies: seq<Stmt>, s: Stmt, base: nat, out: BB, b: Builder)
    requires (forall i | 0 <= i < |bodies| :: Accepted(c, bodies[i])) && Accepted(c, s)
    ensures EmitBodies(c, bodies + [s], base, out, b) ==
            EmitArm(c, s, Anon(base + 2 * |bodies| + 1), out, EmitBodies(c, bodies, base, out, b))
    decreases bodies
  {
    hide EmitArm, Accepted;
    if bodies == [] {
      assert bodies + [s] == [s] && [s][1..] == [];
    } else {
      EmitBodiesSnoc(c, bodies[1..], s, base + 2, out, EmitArm(c, bodies[0], Anon(base + 1), out, b));
      assert (bodies + [s])[0] == bodies[0] && (bodies + [s])[1..] == bodies[1..] + [s];
    }
  }

  // What the tree walk unfolds to, one statement form at a time.

  lemma UnfoldLoop(c: Ctx, s: Stmt, b: Builder)
    requires s.Loop?
    ensures Accepted(c, s) <==> Accepted(InLoop(c, Anon(b.nbb), Anon(b.nbb + 1)), s.body)
    ensures Accepted(c, s) ==>
            var b1 := EmitS(InLoop(c, Anon(b.nbb), Anon(b.nbb + 1)), s.body, LoopHead(c, b));
            EmitS(c, s, b) == Place(Append(b1, Br(Anon(b.nbb))), c.fn, Anon(b.nbb + 1))
  {
    hide TypeE, WellTyped, LoopStackOk, Accepted;
    AcceptedLoop(c, s, Anon(b.nbb), Anon(b.nbb + 1));
  }

  lemma UnfoldWhile(c: Ctx, s: Stmt, b: Builder)
    requires s.While?
    ensures Accepted(c, s) <==>
              TypeE(c.g, s.cond) == Some(BOOL) && Accepted(InLoop(c, Anon(b.nbb), Anon(b.nbb + 2)), s.body)
    ensures Accepted(c, s) ==>
            var b1 := EmitS(InLoop(c, Anon(b.nbb), Anon(b.nbb + 2)), s.body, WhileHead(c, s, b).0);
            EmitS(c, s, b) == Place(Append(b1, Br(Anon(b.nbb))), c.fn, Anon(b.nbb + 2))
  {
    hide TypeE, WellTyped, LoopStackOk, Accepted, EmitR;
    AcceptedWhile(c, s, Anon(b.nbb), Anon(b.nbb + 2));
  }

  lemma UnfoldFor(c: Ctx, s: Stmt, b: Builder)
    requires s.For?
    ensures Accepted(c, s) <==>
              ForSourceOk(c.g, s.x, s.src) && Accepted(InLoop(c, Anon(b.nbb), Anon(b.nbb + 2)), s.body)
    ensures Accepted(c, s) ==>
            var b1 := EmitS(InLoop(c, Anon(b.nbb), Anon(b.nbb + 2)), s.body, EmitForHead(c, s, b));
            EmitS(c, s, b) == Place(Append(b1, Br(Anon(b.nbb))), c.fn, Anon(b.nbb + 2))
  {
    hide TypeE, WellTyped, LoopStackOk, Accepted, ForSourceOk, EmitForHead;
    AcceptedFor(c, s, Anon(b.nbb), Anon(b.nbb + 2));
  }

  lemma RetFlagIf(s: Stmt, f: bool)
    requires s.If?
    ensures RetFlag(s, f) == if s.remain.Some? then RetFlag(s.remain.value, RetFlagSeq(s.bodies, f))
            else RetFlagSeq(s.bodies, f)
  {
  }

  /** A constant of type t whose pattern reads back as v; for bool, whether v is not 0. */
  predicate HoldsLiteral(o: Operand, t: Ty, v: int) {
    && o.Val? && o.ty == t && o.v.Const?
    && (t == BOOL ==> o.v.n == if v != 0 then 1 else 0)
    && (t != BOOL && InRange(t, v) ==> Decode(t, o.v.n) == v)
  }

  lemma LiteralHeld(t: Ty, v: int)
    ensures HoldsLiteral(Val(Const(Encode(t, LitValue(t, v))), t), t, v)
  {
    if InRange(t, v) {
      WrapInRange(t, v);
      DecodeEncode(t, v);
    }
  }
}
