/** The code emitted for an expression computes its value: running it from the insertion
    point before the walk reaches the insertion point after it. */
module SimExpr {
  import opened IntTypes
  import opened Syntax
  import opened Source
  import opened Target
  import opened Emit
  import opened Frame

  /** The machine stands at the insertion point. */
  ghost predicate At(ms: Machine, b: Builder) {
    ms.Run? && ms.bb == b.cur && ms.pc == |Text(b, b.cur)|
  }

  /** Memory holds the store, as bit patterns, and the same calls were made. */
  ghost predicate Agrees(g: seq<Ty>, st: State, ms: Machine) {
    && ms.Run? && ms.trace == st.trace && |st.store| == |g|
    && forall x | 0 <= x < |g| :: x in ms.mem && ms.mem[x] == Encode(g[x], st.store[x])
  }

  /** The registers and hidden slots in use at b (other than the return slot) are not touched. */
  ghost predicate Keeps(c: Ctx, b: Builder, ms: Machine, ms1: Machine) {
    && ms.Run? && ms1.Run?
    && (forall r | r in ms.regs && r < b.nreg :: r in ms1.regs && ms1.regs[r] == ms.regs[r])
    && (forall k | k in ms.mem && |c.g| <= k < b.nslot && !(c.ret.Some? && k == c.retslot) ::
          k in ms1.mem && ms1.mem[k] == ms.mem[k])
  }

  lemma KeepsTrans(c: Ctx, b: Builder, b1: Builder, ms: Machine, ms1: Machine, ms2: Machine)
    requires Keeps(c, b, ms, ms1) && Keeps(c, b1, ms1, ms2) && b.nreg <= b1.nreg && b.nslot <= b1.nslot
    ensures Keeps(c, b, ms, ms2)
  {
  }

  /** A value the machine already has, held by a register below `nreg` if by any. */
  ghost predicate Holds(v: Value, nreg: nat, n: nat, ms: Machine) {
    ms.Run? && Known(v, ms.regs) && ValueOf(v, ms.regs) == n && (v.Reg? ==> v.r < nreg)
  }

  lemma HoldsOn(c: Ctx, b: Builder, v: Value, n: nat, ms: Machine, ms1: Machine)
    requires Holds(v, b.nreg, n, ms) && Keeps(c, b, ms, ms1)
    ensures Holds(v, b.nreg, n, ms1)
  {
  }

  ghost predicate HoldsOperand(c: Ctx, b: Builder, o: Operand, n: nat, ms: Machine) {
    match o
    case Slot(s, _) => ms.Run? && s in ms.mem && ms.mem[s] == n && s < b.nslot
    case Val(v, _) => Holds(v, b.nreg, n, ms)
  }

  // ----- one instruction -----

  lemma Fetch(w: World, code: Code, b: Builder, i: Instr, ms: Machine)
    requires At(ms, b) && Ready(b) && Within(Append(b, i).blocks, code)
    ensures Step(w, code, ms) == Exec(w, i, ms)
    ensures Steps(w, code, ms, 1) == Exec(w, i, ms)
  {
    assert Append(b, i).blocks[b.cur][ms.pc] == i;
    assert Steps(w, code, ms, 1) == Steps(w, code, Step(w, code, ms), 0);
  }

  /** A defining instruction. */
  lemma DoDefine(w: World, code: Code, c: Ctx, b: Builder, i: Instr, n: nat, ms: Machine, st: State)
    requires At(ms, b) && Ready(b) && Within(Append(b, i).blocks, code) && Agrees(c.g, st, ms)
    requires Exec(w, i, ms) == SetReg(ms, b.nreg, n)
    ensures var ms1 := SetReg(ms, b.nreg, n);
            Steps(w, code, ms, 1) == ms1 && At(ms1, Define(b, i).0) && Agrees(c.g, st, ms1) && Keeps(c, b, ms, ms1) &&
            Holds(Reg(b.nreg), b.nreg + 1, n, ms1)
  {
    Fetch(w, code, b, i, ms);
  }

  /** A store to a hidden slot that is not in use yet, or to the return slot. */
  lemma DoStoreHidden(w: World, code: Code, c: Ctx, b: Builder, v: Value, slot: nat, n: nat, ms: Machine, st: State)
    requires At(ms, b) && Ready(b) && Within(Append(b, Store(v, slot)).blocks, code) && Agrees(c.g, st, ms)
    requires Holds(v, b.nreg, n, ms) && |c.g| <= slot && (slot >= b.nslot || (c.ret.Some? && slot == c.retslot))
    ensures var ms1 := Exec(w, Store(v, slot), ms);
            Steps(w, code, ms, 1) == ms1 && At(ms1, Append(b, Store(v, slot))) && Agrees(c.g, st, ms1) &&
                Keeps(c, b, ms, ms1) &&
            slot in ms1.mem && ms1.mem[slot] == n
  {
    Fetch(w, code, b, Store(v, slot), ms);
  }

  ghost predicate AtTop(ms: Machine, bb: BB) {
    ms.Run? && ms.bb == bb && ms.pc == 0
  }

  /** A branch taken. */
  lemma DoJump(w: World, code: Code, c: Ctx, b: Builder, i: Instr, target: BB, ms: Machine, st: State)
    requires At(ms, b) && Ready(b) && Within(Append(b, i).blocks, code) && Agrees(c.g, st, ms)
    requires Exec(w, i, ms) == Enter(ms, target)
    ensures var ms1 := Enter(ms, target);
            Steps(w, code, ms, 1) == ms1 && AtTop(ms1, target) && Agrees(c.g, st, ms1) && Keeps(c, b, ms, ms1)
  {
    Fetch(w, code, b, i, ms);
  }

  /** A block is empty when it is placed, so its top is the insertion point. */
  lemma AtPlaced(ms: Machine, b: Builder, fn: nat, bb: BB)
    requires AtTop(ms, bb) && bb !in b.blocks
    ensures At(ms, Place(b, fn, bb))
  {
  }

  lemma WithinTurn(b: Builder, i: Instr, b1: Builder, bb: BB, code: Code)
    requires Ready(b) && bb !in b.blocks && b1.blocks == Append(b, i).blocks[bb := []] && Within(b1.blocks, code)
    ensures Within(Append(b, i).blocks, code)
  {
    forall x | x in Append(b, i).blocks
      ensures x in code && Append(b, i).blocks[x] <= code[x]
    {
      assert x in b1.blocks && b1.blocks[x] == Append(b, i).blocks[x];
    }
  }

  // ----- expressions -----

  /** What running the code of e from b to b1 achieves. */
  ghost predicate Computes(w: World, code: Code, c: Ctx, b: Builder, b1: Builder, ms: Machine, st1: State, n: nat,
                           ms1: Machine) {
    ms1 == Steps(w, code, ms, n) && At(ms1, b1) && Agrees(c.g, st1, ms1) && Keeps(c, b, ms, ms1)
  }

  lemma ComputesThen(w: World, code: Code, c: Ctx, b: Builder, b1: Builder, b2: Builder, ms: Machine, st1: State,
                     st2: State, n1: nat, ms1: Machine, n2: nat, ms2: Machine)
    requires Computes(w, code, c, b, b1, ms, st1, n1, ms1) && Computes(w, code, c, b1, b2, ms1, st2, n2, ms2)
    requires b.nreg <= b1.nreg && b.nslot <= b1.nslot
    ensures Computes(w, code, c, b, b2, ms, st2, n1 + n2, ms2)
  {
    StepsAdd(w, code, ms, n1, n2);
    KeepsTrans(c, b, b1, ms, ms1, ms2);
  }

  ghost predicate CanRun(code: Code, c: Ctx, b: Builder, b1: Builder, ms: Machine, st: State) {
    && Ready(b) && |c.g| <= b.nslot && StoreOk(c.g, st.store)
    && Within(b1.blocks, code) && At(ms, b) && Agrees(c.g, st, ms)
  }

  /** The value of an expression, in the form the consumer pops it. */
  lemma {:induction false} SimR(w: World, code: Code, c: Ctx, e: Expr, b: Builder, ms: Machine, st: State)
    returns (n: nat, ms1: Machine)
    requires TypeE(c.g, e).Some? && CanRun(code, c, b, EmitR(c, e, b).0, ms, st)
    ensures Computes(w, code, c, b, EmitR(c, e, b).0, ms, EvalE(w, c.g, e, st).1, n, ms1)
    ensures Holds(EmitR(c, e, b).1, EmitR(c, e, b).0.nreg, Encode(TypeE(c.g, e).value, EvalE(w, c.g, e, st).0), ms1)
    decreases e, 1
  {
    hide Grown, Counted, Keeps, Agrees, Within;
    var (b1, o) := EmitE(c, e, b);
    var (b2, v) := Force(b1, o);
    GrowsE(c, e, b);
    GrowsForce(b1, o, b1.nbb, {});
    WithinOf(b1, b2, b1.nbb, {}, code);
    var st1 := EvalE(w, c.g, e, st).1;
    var bits := Encode(TypeE(c.g, e).value, EvalE(w, c.g, e, st).0);
    n, ms1 := SimE(w, code, c, e, b, ms, st);
    if o.Slot? {
      DoDefine(w, code, c, b1, Load(b1.nreg, o.slot), bits, ms1, st1);
      var ms2 := SetReg(ms1, b1.nreg, bits);
      ComputesThen(w, code, c, b, b1, b2, ms, st1, st1, n, ms1, 1, ms2);
      n, ms1 := n + 1, ms2;
    }
  }

  lemma {:induction false} SimE(w: World, code: Code, c: Ctx, e: Expr, b: Builder, ms: Machine, st: State)
    returns (n: nat, ms1: Machine)
    requires TypeE(c.g, e).Some? && CanRun(code, c, b, EmitE(c, e, b).0, ms, st)
    ensures Computes(w, code, c, b, EmitE(c, e, b).0, ms, EvalE(w, c.g, e, st).1, n, ms1)
    ensures HoldsOperand(c, EmitE(c, e, b).0, EmitE(c, e, b).1, Encode(TypeE(c.g, e).value, EvalE(w, c.g, e, st).0),
                         ms1)
    decreases e, 0, 2
  {
    match e
    case Lit(t, v) => n, ms1 := SimLeaf(w, code, c, e, b, ms, st);
    case Var(x) => n, ms1 := SimLeaf(w, code, c, e, b, ms, st);
    case Neg(a) => n, ms1 := SimUnary(w, code, c, e, b, ms, st);
    case Not(a) => n, ms1 := SimUnary(w, code, c, e, b, ms, st);
    case Arith(op, l, r) => n, ms1 := SimBinary(w, code, c, e, b, ms, st);
    case Cmp(op, l, r) => n, ms1 := SimBinary(w, code, c, e, b, ms, st);
    case Logic(isAnd, l, r) => n, ms1 := SimLogic(w, code, c, e, b, ms, st);
    case As(a, to) => n, ms1 := SimUnary(w, code, c, e, b, ms, st);
    case Call(fn, res, args) => n, ms1 := SimCall(w, code, c, e, b, ms, st);
  }

  lemma SimLeaf(w: World, code: Code, c: Ctx, e: Expr, b: Builder, ms: Machine, st: State)
    returns (n: nat, ms1: Machine)
    requires e.Lit? || e.Var?
    requires TypeE(c.g, e).Some? && CanRun(code, c, b, EmitE(c, e, b).0, ms, st)
    ensures Computes(w, code, c, b, EmitE(c, e, b).0, ms, EvalE(w, c.g, e, st).1, n, ms1)
    ensures HoldsOperand(c, EmitE(c, e, b).0, EmitE(c, e, b).1, Encode(TypeE(c.g, e).value, EvalE(w, c.g, e, st).0),
                         ms1)
  {
    n, ms1 := 0, ms;
  }

  /** The instruction after the operands, and its result. */
  ghost function LastInstr(c: Ctx, e: Expr, b: Builder): Instr
    requires TypeE(c.g, e).Some? && (e.Neg? || e.Not? || e.As? || e.Arith? || e.Cmp?)
  {
    match e
    case Neg(a) => var (b1, v) := EmitR(c, a, b); NegI(b1.nreg, Size(TypeE(c.g, a).value), v)
    case Not(a) => var (b1, v) := EmitR(c, a, b); NotI(b1.nreg, Size(TypeE(c.g, a).value), v)
    case As(a, to) =>
      var (b1, v) := EmitR(c, a, b);
      CastI(b1.nreg, GenCastOp(TypeE(c.g, a).value, to), Size(TypeE(c.g, a).value), Size(to), v)
    case Arith(op, l, r) =>
      var (b1, v1) := EmitR(c, l, b);
      var (b2, v2) := EmitR(c, r, b1);
      ArithI(b2.nreg, op, Size(TypeE(c.g, l).value), v1, v2)
    case Cmp(op, l, r) =>
      var (b1, v1) := EmitR(c, l, b);
      var (b2, v2) := EmitR(c, r, b1);
      CmpI(b2.nreg, CmpPred(TypeE(c.g, l).value, op), Size(TypeE(c.g, l).value), v1, v2)
  }

  lemma UnaryUnfold(w: World, c: Ctx, e: Expr, b: Builder, st: State)
    requires (e.Neg? || e.Not? || e.As?) && TypeE(c.g, e).Some? && StoreOk(c.g, st.store)
    ensures TypeE(c.g, e.arg).Some?
    ensures EvalE(w, c.g, e, st).1 == EvalE(w, c.g, e.arg, st).1
    ensures InRange(TypeE(c.g, e.arg).value, EvalE(w, c.g, e.arg, st).0)
    ensures var b1 := EmitR(c, e.arg, b).0;
            if e.As? && GenCastOp(TypeE(c.g, e.arg).value, e.to) == NoOp then
              EmitE(c, e, b) == (b1, Val(EmitR(c, e.arg, b).1, e.to))
            else
              EmitE(c, e, b) == (Define(b1, LastInstr(c, e, b)).0, Val(Reg(b1.nreg), TypeE(c.g, e).value))
  {
  }

  /** The instruction computes the source operation on patterns. */
  lemma ExecUnary(w: World, c: Ctx, e: Expr, b: Builder, st: State, ms: Machine)
    requires (e.Neg? || e.Not? || e.As?) && TypeE(c.g, e).Some? && StoreOk(c.g, st.store)
    requires var (b1, v) := EmitR(c, e.arg, b);
             Holds(v, b1.nreg, Encode(TypeE(c.g, e.arg).value, EvalE(w, c.g, e.arg, st).0), ms)
    ensures Exec(w, LastInstr(c, e, b), ms) ==
            SetReg(ms, EmitR(c, e.arg, b).0.nreg, Encode(TypeE(c.g, e).value, EvalE(w, c.g, e, st).0))
    ensures e.As? && GenCastOp(TypeE(c.g, e.arg).value, e.to) == NoOp ==>
            Encode(TypeE(c.g, e).value, EvalE(w, c.g, e, st).0) ==
                Encode(TypeE(c.g, e.arg).value, EvalE(w, c.g, e.arg, st).0)
  {
    hide EmitR, EmitE, Size, Encode, Wrap, CastRow, CmpRow;
    var t, x := TypeE(c.g, e.arg).value, EvalE(w, c.g, e.arg, st).0;
    UnaryExact(t, x);
    if e.As? {
      CastLegal(t, e.to);
      CastExact(t, e.to, x);
    }
  }

  /** Negation, complement and `as`: one instruction at most after the operand. */
  lemma {:induction false} SimUnary(w: World, code: Code, c: Ctx, e: Expr, b: Builder, ms: Machine, st: State)
    returns (n: nat, ms1: Machine)
    requires e.Neg? || e.Not? || e.As?
    requires TypeE(c.g, e).Some? && CanRun(code, c, b, EmitE(c, e, b).0, ms, st)
    ensures Computes(w, code, c, b, EmitE(c, e, b).0, ms, EvalE(w, c.g, e, st).1, n, ms1)
    ensures HoldsOperand(c, EmitE(c, e, b).0, EmitE(c, e, b).1, Encode(TypeE(c.g, e).value, EvalE(w, c.g, e, st).0),
                         ms1)
    decreases e, 0, 0
  {
    hide Grown, Counted, Keeps, Agrees, Within, Encode, EvalE, EmitE, EmitR, TypeE, Exec, LastInstr, Steps;
    UnaryUnfold(w, c, e, b, st);
    var b1, b2 := EmitR(c, e.arg, b).0, EmitE(c, e, b).0;
    var st1 := EvalE(w, c.g, e.arg, st).1;
    GrowsR(c, e.arg, b);
    if e.As? && GenCastOp(TypeE(c.g, e.arg).value, e.to) == NoOp {
      n, ms1 := SimR(w, code, c, e.arg, b, ms, st);
      ExecUnary(w, c, e, b, st, ms1);
    } else {
      var i, bits := LastInstr(c, e, b), Encode(TypeE(c.g, e).value, EvalE(w, c.g, e, st).0);
      GrowsDefine(b1, i, b1.nbb, {});
      WithinOf(b1, b2, b1.nbb, {}, code);
      var n1, msA := SimR(w, code, c, e.arg, b, ms, st);
      ExecUnary(w, c, e, b, st, msA);
      DoDefine(w, code, c, b1, i, bits, msA, st1);
      n, ms1 := n1 + 1, SetReg(msA, b1.nreg, bits);
      ComputesThen(w, code, c, b, b1, b2, ms, st1, st1, n1, msA, 1, ms1);
    }
  }

  lemma BinaryUnfold(w: World, c: Ctx, e: Expr, b: Builder, st: State)
    requires (e.Arith? || e.Cmp?) && TypeE(c.g, e).Some? && StoreOk(c.g, st.store)
    ensures TypeE(c.g, e.left).Some? && TypeE(c.g, e.left) == TypeE(c.g, e.right)
    ensures var (x, st1) := EvalE(w, c.g, e.left, st);
            var (y, st2) := EvalE(w, c.g, e.right, st1);
            EvalE(w, c.g, e, st).1 == st2
    ensures var b2 := EmitR(c, e.right, EmitR(c, e.left, b).0).0;
            EmitE(c, e, b) == (Define(b2, LastInstr(c, e, b)).0, Val(Reg(b2.nreg), TypeE(c.g, e).value))
  {
  }

  lemma ExecBinary(w: World, c: Ctx, e: Expr, b: Builder, st: State, ms: Machine, nreg: nat)
    requires (e.Arith? || e.Cmp?) && TypeE(c.g, e).Some? && StoreOk(c.g, st.store)
    requires TypeE(c.g, e.left).Some? && TypeE(c.g, e.left) == TypeE(c.g, e.right)
    requires var (x, st1) := EvalE(w, c.g, e.left, st);
             var (y, st2) := EvalE(w, c.g, e.right, st1);
             var (b1, v1) := EmitR(c, e.left, b);
             var (b2, v2) := EmitR(c, e.right, b1);
             var t := TypeE(c.g, e.left).value;
             Holds(v1, nreg, Encode(t, x), ms) && Holds(v2, nreg, Encode(t, y), ms)
    ensures var b2 := EmitR(c, e.right, EmitR(c, e.left, b).0).0;
            Exec(w, LastInstr(c, e, b), ms) == SetReg(ms, b2.nreg, Encode(TypeE(c.g, e).value, EvalE(w, c.g, e, st).0))
  {
    hide EmitR, EmitE, Encode, Wrap, CmpPred, HoldsBits, CmpInt, ArithBits, ArithInt;
    var t := TypeE(c.g, e.left).value;
    var (x, st1) := EvalE(w, c.g, e.left, st);
    var (y, st2) := EvalE(w, c.g, e.right, st1);
    if e.Arith? {
      ArithAgrees(t, e.aop, x, y);
    } else {
      CmpAgrees(t, e.cop, x, y);
      EncodeBool();
    }
  }

  lemma {:induction false} SimBinary(w: World, code: Code, c: Ctx, e: Expr, b: Builder, ms: Machine, st: State)
    returns (n: nat, ms1: Machine)
    requires e.Arith? || e.Cmp?
    requires TypeE(c.g, e).Some? && CanRun(code, c, b, EmitE(c, e, b).0, ms, st)
    ensures Computes(w, code, c, b, EmitE(c, e, b).0, ms, EvalE(w, c.g, e, st).1, n, ms1)
    ensures HoldsOperand(c, EmitE(c, e, b).0, EmitE(c, e, b).1, Encode(TypeE(c.g, e).value, EvalE(w, c.g, e, st).0),
                         ms1)
    decreases e, 0, 0
  {
    hide Grown, Counted, Keeps, Agrees, Within, Encode, EvalE, EmitE, EmitR, TypeE, Exec, LastInstr, Steps;
    BinaryUnfold(w, c, e, b, st);
    var t := TypeE(c.g, e.left).value;
    var (x, st1) := EvalE(w, c.g, e.left, st);
    var (y, st2) := EvalE(w, c.g, e.right, st1);
    var (b1, v1) := EmitR(c, e.left, b);
    var (b2, v2) := EmitR(c, e.right, b1);
    var b3, i := EmitE(c, e, b).0, LastInstr(c, e, b);
    GrowsR(c, e.left, b);
    GrowsR(c, e.right, b1);
    GrowsDefine(b2, i, b2.nbb, {});
    WithinOf(b2, b3, b2.nbb, {}, code);
    WithinOf(b1, b2, b1.nbb, {}, code);
    var n1, msA := SimR(w, code, c, e.left, b, ms, st);
    var n2, msB := SimR(w, code, c, e.right, b1, msA, st1);
    HoldsOn(c, b1, v1, Encode(t, x), msA, msB);
    ComputesThen(w, code, c, b, b1, b2, ms, st1, st2, n1, msA, n2, msB);
    ExecBinary(w, c, e, b, st, msB, b2.nreg);
    var bits := Encode(TypeE(c.g, e).value, EvalE(w, c.g, e, st).0);
    DoDefine(w, code, c, b2, i, bits, msB, st2);
    n, ms1 := n1 + n2 + 1, SetReg(msB, b2.nreg, bits);
    ComputesThen(w, code, c, b, b2, b3, ms, st2, st2, n1 + n2, msB, 1, ms1);
  }

  lemma EncodeBool()
    ensures Encode(BOOL, 0) == 0 && Encode(BOOL, 1) == 1 && Size(BOOL) == 2
    ensures forall v | InRange(BOOL, v) :: Encode(BOOL, v) == v && (v == 0 || v == 1)
  {
  }

  /** The branch on the left operand, as an instruction. */
  ghost function LogicTurn(isAnd: bool, b: Builder, v: Value): Instr {
    if isAnd then CondBr(v, Anon(b.nbb), Anon(b.nbb + 1)) else CondBr(v, Anon(b.nbb + 1), Anon(b.nbb))
  }

  ghost function LogicPhi(c: Ctx, e: Expr, b: Builder): Instr
    requires e.Logic? && TypeE(c.g, e).Some?
  {
    var (b1, v1) := EmitR(c, e.left, b);
    var (b2, v2) := EmitR(c, e.right, EnterRight(c, e.isAnd, b1, v1));
    Phi(b2.nreg, b2.cur, v2, b1.cur, v1)
  }

  ghost function LogicJoin(c: Ctx, e: Expr, b: Builder): Builder
    requires e.Logic? && TypeE(c.g, e).Some?
  {
    var (b1, v1) := EmitR(c, e.left, b);
    var b2 := EmitR(c, e.right, EnterRight(c, e.isAnd, b1, v1)).0;
    Place(Append(b2, Br(Anon(b1.nbb + 1))), c.fn, Anon(b1.nbb + 1))
  }

  /** The definitions, unfolded once. */
  lemma LogicUnfold(w: World, c: Ctx, e: Expr, b: Builder, st: State)
    requires e.Logic? && TypeE(c.g, e).Some? && StoreOk(c.g, st.store)
    ensures TypeE(c.g, e) == TypeE(c.g, e.left) == TypeE(c.g, e.right) == Some(BOOL)
    ensures EmitE(c, e, b).0 == Define(LogicJoin(c, e, b), LogicPhi(c, e, b)).0
    ensures EmitE(c, e, b).1 == Val(Reg(LogicJoin(c, e, b).nreg), BOOL)
    ensures var (x, st1) := EvalE(w, c.g, e.left, st);
            InRange(BOOL, x) &&
            EvalE(w, c.g, e, st) == if (x != 0) == e.isAnd then EvalE(w, c.g, e.right, st1) else (x, st1)
  {
  }

  lemma ExecTurn(w: World, isAnd: bool, b: Builder, v: Value, x: int, nreg: nat, ms: Machine)
    requires InRange(BOOL, x) && Holds(v, nreg, Encode(BOOL, x), ms)
    ensures Exec(w, LogicTurn(isAnd, b, v), ms) == Enter(ms, if (x != 0) == isAnd then Anon(b.nbb) else Anon(b.nbb + 1))
  {
    EncodeBool();
  }

  /** `&&` and `||`: when the left operand decides, the join is entered from the block the
      left operand ended in; otherwise from the block the right operand ended in.  These are
      the two blocks the phi names. */
  lemma {:induction false} SimLogic(w: World, code: Code, c: Ctx, e: Expr, b: Builder, ms: Machine, st: State)
    returns (n: nat, ms1: Machine)
    requires e.Logic?
    requires TypeE(c.g, e).Some? && CanRun(code, c, b, EmitE(c, e, b).0, ms, st)
    ensures Computes(w, code, c, b, EmitE(c, e, b).0, ms, EvalE(w, c.g, e, st).1, n, ms1)
    ensures HoldsOperand(c, EmitE(c, e, b).0, EmitE(c, e, b).1, Encode(TypeE(c.g, e).value, EvalE(w, c.g, e, st).0),
                         ms1)
    decreases e, 0, 1
  {
    hide Grown, Counted, Keeps, Agrees, Within, Exec, EvalE, EmitE, EmitR, TypeE;
    LogicUnfold(w, c, e, b, st);
    var (x, st1) := EvalE(w, c.g, e.left, st);
    var (b1, v1) := EmitR(c, e.left, b);
    LogicWithin(code, c, e, b);
    var n1, msA := SimR(w, code, c, e.left, b, ms, st);
    ExecTurn(w, e.isAnd, b1, v1, x, b1.nreg, msA);
    var turn := LogicTurn(e.isAnd, b1, v1);
    var b3, phi := LogicJoin(c, e, b), LogicPhi(c, e, b);
    var st2 := EvalE(w, c.g, e, st).1;
    var bits := Encode(BOOL, EvalE(w, c.g, e, st).0);
    var n3, msJ;
    if (x != 0) == e.isAnd {
      var right := Anon(b1.nbb);
      DoJump(w, code, c, b1, turn, right, msA, st1);
      n3, msJ := SimRight(w, code, c, e, b, ms, st, n1, msA);
    } else {
      var out := Anon(b1.nbb + 1);
      DoJump(w, code, c, b1, turn, out, msA, st1);
      n3, msJ := n1 + 1, Enter(msA, out);
      AtPlaced(msJ, Append(EmitR(c, e.right, EnterRight(c, e.isAnd, b1, v1)).0, Br(out)), c.fn, out);
      ComputesThen(w, code, c, b, b1, b3, ms, st1, st1, n1, msA, 1, msJ);
      ExecPhi(w, phi, false, bits, msJ);
    }
    DoDefine(w, code, c, b3, phi, bits, msJ, st2);
    n, ms1 := n3 + 1, SetReg(msJ, b3.nreg, bits);
    ComputesThen(w, code, c, b, b3, EmitE(c, e, b).0, ms, st2, st2, n3, msJ, 1, ms1);
  }

  lemma ExecPhi(w: World, phi: Instr, first: bool, bits: nat, ms: Machine)
    requires phi.Phi? && ms.Run? && phi.b1 != phi.b2
    requires ms.prev == (if first then phi.b1 else phi.b2)
    requires Known(if first then phi.v1 else phi.v2, ms.regs) &&
             ValueOf(if first then phi.v1 else phi.v2, ms.regs) == bits
    ensures Exec(w, phi, ms) == SetReg(ms, phi.d, bits)
  {
  }

  /** The right operand, when it is needed, up to the join. */
  lemma {:induction false} SimRight(w: World, code: Code, c: Ctx, e: Expr, b: Builder, ms: Machine, st: State,
                                    n1: nat, msA: Machine)
    returns (n: nat, msJ: Machine)
    requires e.Logic?
    requires TypeE(c.g, e).Some? && CanRun(code, c, b, EmitE(c, e, b).0, ms, st)
    requires var (x, st1) := EvalE(w, c.g, e.left, st);
             var (b1, v1) := EmitR(c, e.left, b);
             (x != 0) == e.isAnd &&
             Computes(w, code, c, b, b1, ms, st1, n1, msA) && Steps(w, code, msA, 1) == Enter(msA, Anon(b1.nbb)) &&
             AtTop(Enter(msA, Anon(b1.nbb)), Anon(b1.nbb)) && Agrees(c.g, st1, Enter(msA, Anon(b1.nbb))) &&
             Keeps(c, b1, msA, Enter(msA, Anon(b1.nbb)))
    ensures Computes(w, code, c, b, LogicJoin(c, e, b), ms, EvalE(w, c.g, e, st).1, n, msJ)
    ensures Exec(w, LogicPhi(c, e, b), msJ) == SetReg(msJ, LogicJoin(c, e, b).nreg,
                                                      Encode(BOOL, EvalE(w, c.g, e, st).0))
    decreases e, 0, 0
  {
    hide Grown, Counted, Keeps, Agrees, Within, Encode, EvalE, EmitE, EmitR, TypeE, Steps;
    LogicUnfold(w, c, e, b, st);
    var (x, st1) := EvalE(w, c.g, e.left, st);
    var (y, st2) := EvalE(w, c.g, e.right, st1);
    var (b1, v1) := EmitR(c, e.left, b);
    var b1' := EnterRight(c, e.isAnd, b1, v1);
    var (b2, v2) := EmitR(c, e.right, b1');
    var right, out := Anon(b1.nbb), Anon(b1.nbb + 1);
    LogicWithin(code, c, e, b);
    var msR := Enter(msA, right);
    AtPlaced(msR, NewBB(Append(b1, LogicTurn(e.isAnd, b1, v1)), 2), c.fn, right);
    ComputesThen(w, code, c, b, b1, b1', ms, st1, st1, n1, msA, 1, msR);
    var n2, msB := SimR(w, code, c, e.right, b1', msR, st1);
    ComputesThen(w, code, c, b, b1', b2, ms, st1, st2, n1 + 1, msR, n2, msB);
    DoJump(w, code, c, b2, Br(out), out, msB, st2);
    n, msJ := n1 + 1 + n2 + 1, Enter(msB, out);
    AtPlaced(msJ, Append(b2, Br(out)), c.fn, out);
    ComputesThen(w, code, c, b, b2, LogicJoin(c, e, b), ms, st2, st2, n1 + 1 + n2, msB, 1, msJ);
    ExecPhi(w, LogicPhi(c, e, b), true, Encode(BOOL, y), msJ);
  }

  /** The intermediate builder states of a Logic are prefixes of the final code, its blocks
      are empty when placed, and its operands end in different blocks. */
  lemma LogicWithin(code: Code, c: Ctx, e: Expr, b: Builder)
    requires e.Logic? && TypeE(c.g, e.left).Some? && TypeE(c.g, e.right).Some? && TypeE(c.g, e).Some?
    requires Ready(b) && Within(EmitE(c, e, b).0.blocks, code)
    ensures var (b1, v1) := EmitR(c, e.left, b);
            var b1' := EnterRight(c, e.isAnd, b1, v1);
            var (b2, v2) := EmitR(c, e.right, b1');
            var right, out := Anon(b1.nbb), Anon(b1.nbb + 1);
            var turn := if e.isAnd then CondBr(v1, right, out) else CondBr(v1, out, right);
            && Grows(b, b1, b.nbb, {}) && Grows(b1, b1', b1.nbb, {}) && Grows(b1', b2, b1'.nbb, {})
            && Ready(Place(Append(b2, Br(out)), c.fn, out))
            && Within(b1.blocks, code) && Within(Append(b1, turn).blocks, code) && Within(b1'.blocks, code)
            && Within(b2.blocks, code) && Within(Append(b2, Br(out)).blocks, code)
            && right !in b1.blocks && out !in b2.blocks && b1.cur != b2.cur
  {
    hide Grown, Counted, Within, EmitR, TypeE;
    var (b1, v1) := EmitR(c, e.left, b);
    var b1' := EnterRight(c, e.isAnd, b1, v1);
    var (b2, v2) := EmitR(c, e.right, b1');
    var right, out := Anon(b1.nbb), Anon(b1.nbb + 1);
    var turn := if e.isAnd then CondBr(v1, right, out) else CondBr(v1, out, right);
    var b3 := Place(Append(b2, Br(out)), c.fn, out);
    var phi := Phi(b3.nreg, b2.cur, v2, b1.cur, v1);
    GrowsR(c, e.left, b);
    NotYet(b1, b1.nbb);
    GrowsEnterRight(c, e.isAnd, b1, v1);
    GrowsR(c, e.right, b1');
    GrowsLogic(c, e, b);
    GrowsTurn(b2, Br(out), c.fn, out, b1.nbb, {});
    GrowsDefine(b3, phi, b3.nbb, {});
    WithinOf(b3, EmitE(c, e, b).0, b3.nbb, {}, code);
    WithinTurn(b2, Br(out), b3, out, code);
    WithinOf(b2, b3, b1.nbb, {}, code);
    WithinOf(b1', b2, b1'.nbb, {}, code);
    WithinTurn(b1, turn, b1', right, code);
    WithinOf(b1, b1', b1.nbb, {}, code);
    EndsApart(b1', b2, b1'.nbb, {}, b1.cur);
  }

  lemma EndsApart(b: Builder, b1: Builder, lo: nat, ls: set<string>, bb: BB)
    requires Grows(b, b1, lo, ls) && bb in b.blocks && bb != b.cur
    ensures b1.cur != bb
  {
  }

  lemma CallUnfold(w: World, c: Ctx, e: Expr, b: Builder, st: State)
    requires e.Call? && TypeE(c.g, e).Some? && StoreOk(c.g, st.store)
    ensures TypeE(c.g, e) == Some(e.res) && forall i | 0 <= i < |e.args| :: TypeE(c.g, e.args[i]).Some?
    ensures var (b1, vs) := EmitArgs(c, e.args, b);
            var (b2, d) := Define(b1, CallI(b1.nreg, e.fn, Size(e.res), vs));
            EmitE(c, e, b) == (Append(b2, Store(d, b2.nslot)).(nslot := b2.nslot + 1), Slot(b2.nslot, e.res))
    ensures var (bits, st1) := EvalArgs(w, c.g, e.args, st);
            EvalE(w, c.g, e, st) ==
              (Wrap(e.res, w.ext(e.fn, bits, st1.trace)), st1.(trace := st1.trace + [Event(e.fn, bits)]))
  {
    hide EmitArgs, EvalArgs, Wrap, Size;
  }

  lemma {:induction false} SimCall(w: World, code: Code, c: Ctx, e: Expr, b: Builder, ms: Machine, st: State)
    returns (n: nat, ms1: Machine)
    requires e.Call?
    requires TypeE(c.g, e).Some? && CanRun(code, c, b, EmitE(c, e, b).0, ms, st)
    ensures Computes(w, code, c, b, EmitE(c, e, b).0, ms, EvalE(w, c.g, e, st).1, n, ms1)
    ensures HoldsOperand(c, EmitE(c, e, b).0, EmitE(c, e, b).1, Encode(TypeE(c.g, e).value, EvalE(w, c.g, e, st).0),
                         ms1)
    decreases e, 0, 0
  {
    hide Grown, Counted, Keeps, Agrees, Within, Encode, Size, Wrap, EmitE, EvalE, TypeE, EmitArgs, EvalArgs, Exec,
         Steps;
    CallUnfold(w, c, e, b, st);
    var (b1, vs) := EmitArgs(c, e.args, b);
    var (bits, st1) := EvalArgs(w, c.g, e.args, st);
    var i := CallI(b1.nreg, e.fn, Size(e.res), vs);
    var (b2, d) := Define(b1, i);
    var b3 := EmitE(c, e, b).0;
    GrowsArgs(c, e.args, b);
    GrowsDefine(b1, i, b1.nbb, {});
    GrowsSlot(b2, d, b2.nbb);
    WithinOf(b2, b3, b2.nbb, {}, code);
    WithinOf(b1, b2, b1.nbb, {}, code);
    var n1, msA := SimArgs(w, code, c, e.args, b, ms, st);
    AllKnown(vs, b1.nreg, bits, msA);
    var res := w.ext(e.fn, bits, st1.trace);
    EncodeWrap(e.res, res);
    ResultBits(e.res, res);
    var st2 := EvalE(w, c.g, e, st).1;
    DoCall(w, code, c, b1, i, bits, msA, st1);
    var msB := Exec(w, i, msA);
    ComputesThen(w, code, c, b, b1, b2, ms, st1, st2, n1, msA, 1, msB);
    DoStoreHidden(w, code, c, b2, d, b2.nslot, res % Size(e.res), msB, st2);
    n, ms1 := n1 + 1 + 1, Exec(w, Store(d, b2.nslot), msB);
    ComputesThen(w, code, c, b, b2, b3, ms, st2, st2, n1 + 1, msB, 1, ms1);
  }

  lemma ResultBits(t: Ty, n: nat)
    ensures n % Size(t) == Encode(t, Wrap(t, n)) && Size(t) > 0
  {
    EncodeWrap(t, n);
  }

  lemma DoCall(w: World, code: Code, c: Ctx, b: Builder, i: Instr, bits: seq<nat>, ms: Machine, st: State)
    requires At(ms, b) && Ready(b) && Within(Append(b, i).blocks, code) && Agrees(c.g, st, ms)
    requires i.CallI? && i.m > 0 && i.d == b.nreg && (forall k | 0 <= k < |i.args| :: Known(i.args[k], ms.regs))
    requires ValuesOf(i.args, ms.regs) == bits
    ensures var ms1 := Exec(w, i, ms);
            Steps(w, code, ms, 1) == ms1 && At(ms1, Define(b, i).0) && Keeps(c, b, ms, ms1) &&
            Agrees(c.g, st.(trace := st.trace + [Event(i.fn, bits)]), ms1) &&
            Holds(Reg(b.nreg), b.nreg + 1, w.ext(i.fn, bits, st.trace) % i.m, ms1)
  {
    Fetch(w, code, b, i, ms);
  }

  ghost predicate HoldsAll(vs: seq<Value>, nreg: nat, bits: seq<nat>, ms: Machine) {
    |vs| == |bits| && forall k | 0 <= k < |vs| :: Holds(vs[k], nreg, bits[k], ms)
  }

  lemma {:induction false} AllKnown(vs: seq<Value>, nreg: nat, bits: seq<nat>, ms: Machine)
    requires HoldsAll(vs, nreg, bits, ms) && ms.Run?
    ensures (forall k | 0 <= k < |vs| :: Known(vs[k], ms.regs)) && ValuesOf(vs, ms.regs) == bits
    decreases vs
  {
    assert forall k | 0 <= k < |vs| :: Known(vs[k], ms.regs);
    if vs != [] {
      AllKnown(vs[1..], nreg, bits[1..], ms);
    }
  }

  lemma {:induction false} SimArgs(w: World, code: Code, c: Ctx, es: seq<Expr>, b: Builder, ms: Machine, st: State)
    returns (n: nat, ms1: Machine)
    requires (forall i | 0 <= i < |es| :: TypeE(c.g, es[i]).Some?) && CanRun(code, c, b, EmitArgs(c, es, b).0, ms, st)
    ensures Computes(w, code, c, b, EmitArgs(c, es, b).0, ms, EvalArgs(w, c.g, es, st).1, n, ms1)
    ensures HoldsAll(EmitArgs(c, es, b).1, EmitArgs(c, es, b).0.nreg, EvalArgs(w, c.g, es, st).0, ms1)
    decreases es, 0
  {
    hide Grown, Counted, Agrees, Within, Encode;
    if es == [] {
      n, ms1 := 0, ms;
    } else {
      var (x, st1) := EvalE(w, c.g, es[0], st);
      var (b1, v) := EmitR(c, es[0], b);
      var b2 := EmitArgs(c, es[1..], b1).0;
      GrowsR(c, es[0], b);
      GrowsArgs(c, es[1..], b1);
      WithinOf(b1, b2, b1.nbb, {}, code);
      var n1, msA := SimR(w, code, c, es[0], b, ms, st);
      var n2, msB := SimArgs(w, code, c, es[1..], b1, msA, st1);
      HoldsOn(c, b1, v, Encode(TypeE(c.g, es[0]).value, x), msA, msB);
      n, ms1 := n1 + n2, msB;
      ComputesThen(w, code, c, b, b1, b2, ms, st1, EvalArgs(w, c.g, es, st).1, n1, msA, n2, msB);
    }
  }
}
