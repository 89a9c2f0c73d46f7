/** The emitted code of small programs, block by block, as the repository's tests list it. */
module Listings {
  import opened IntTypes
  import opened Syntax
  import opened Target
  import opened Emit
  import opened Frame

  /** Some instructions more in the current block, the last of `regs` of them defining. */
  function Adding(b: Builder, text: seq<Instr>, regs: nat): Builder {
    b.(blocks := b.blocks[b.cur := Text(b, b.cur) + text], nreg := b.nreg + regs)
  }

  lemma AppendMore(b: Builder, text: seq<Instr>, regs: nat, i: Instr)
    ensures Append(Adding(b, text, regs), i) == Adding(b, text + [i], regs)
    ensures Define(Adding(b, text, regs), i) == (Adding(b, text + [i], regs + 1), Reg(b.nreg + regs))
  {
    assert Text(b, b.cur) + text + [i] == Text(b, b.cur) + (text + [i]);
  }

  lemma AddNone(b: Builder)
    requires b.cur in b.blocks
    ensures Adding(b, [], 0) == b
  {
    assert Text(b, b.cur) + [] == b.blocks[b.cur];
  }

  lemma VarText(c: Ctx, x: nat, b: Builder)
    requires x < |c.g|
    ensures EmitR(c, Var(x), b) == Define(b, Load(b.nreg, x))
  {
    assert EmitE(c, Var(x), b) == (b, Slot(x, c.g[x]));
  }

  lemma LitText(c: Ctx, t: Ty, v: int, b: Builder)
    ensures EmitR(c, Lit(t, v), b) == (b, Const(Encode(t, LitValue(t, v))))
  {
    assert EmitE(c, Lit(t, v), b).0 == b;
  }

  lemma CmpText(c: Ctx, op: CmpOp, x: nat, y: nat, b: Builder, text: seq<Instr>, regs: nat)
    requires x < |c.g| && y < |c.g| && c.g[x] == c.g[y]
    ensures TypeE(c.g, Cmp(op, Var(x), Var(y))) == Some(BOOL)
    ensures var r, m := b.nreg + regs, Size(c.g[x]);
            EmitR(c, Cmp(op, Var(x), Var(y)), Adding(b, text, regs)) ==
            (Adding(b, text + [Load(r, x), Load(r + 1, y), CmpI(r + 2, CmpPred(c.g[x], op), m, Reg(r), Reg(r + 1))],
                    regs + 3), Reg(r + 2))
  {
    hide Size, CmpPred, Append, Define, EmitR;
    var e, r := Cmp(op, Var(x), Var(y)), b.nreg + regs;
    var text1 := text + [Load(r, x)];
    var text2 := text1 + [Load(r + 1, y)];
    var text3 := text2 + [CmpI(r + 2, CmpPred(c.g[x], op), Size(c.g[x]), Reg(r), Reg(r + 1))];
    VarText(c, x, Adding(b, text, regs));
    AppendMore(b, text, regs, Load(r, x));
    VarText(c, y, Adding(b, text1, regs + 1));
    AppendMore(b, text1, regs + 1, Load(r + 1, y));
    AppendMore(b, text2, regs + 2, CmpI(r + 2, CmpPred(c.g[x], op), Size(c.g[x]), Reg(r), Reg(r + 1)));
    assert text3 == text + [Load(r, x), Load(r + 1, y), text3[|text3| - 1]];
    CmpUnfold(c, e, Adding(b, text, regs));
  }

  lemma CmpUnfold(c: Ctx, e: Expr, b: Builder)
    requires e.Cmp? && TypeE(c.g, e.left) == TypeE(c.g, e.right) != None
    ensures TypeE(c.g, e) == Some(BOOL)
    ensures var t := TypeE(c.g, e.left).value;
            var (b1, v1) := EmitR(c, e.left, b);
            var (b2, v2) := EmitR(c, e.right, b1);
            EmitR(c, e, b) == Define(b2, CmpI(b2.nreg, CmpPred(t, e.cop), Size(t), v1, v2))
  {
    hide Size, CmpPred;
    assert EmitE(c, e, b).1.Val?;
  }

  /** A listing: the blocks of a function, in the order of placing. */
  predicate Lists(b: Builder, listing: seq<(BB, seq<Instr>)>) {
    |b.placed| == |listing| && forall k | 0 <= k < |listing| ::
      b.placed[k].1 == listing[k].0 && Text(b, listing[k].0) == listing[k].1
  }

  // ----- test/op/land.ca.ll and test/op/lor.ca.ll -----

  const LandTypes: seq<Ty> := [I32, I32, BOOL]

  function LandTest(isAnd: bool): Expr {
    Logic(isAnd, Cmp(Lt, Var(0), Var(1)), Cmp(Gt, Var(0), Var(1)))
  }

  /** `let a = 1; let b = 2; let e = (a < b) && (a > b);` or with `||` */
  function LandBody(isAnd: bool): Stmt {
    Block([Assign(0, Lit(I32, 1)), Assign(1, Lit(I32, 2)), Assign(2, LandTest(isAnd))])
  }

  function LandListing(isAnd: bool): seq<(BB, seq<Instr>)> {
    [(Anon(2), [Store(Const(1), 0), Store(Const(2), 1), Load(0, 0), Load(1, 1),
                CmpI(2, SLT, 0x1_0000_0000, Reg(0), Reg(1)),
                if isAnd then CondBr(Reg(2), Anon(3), Anon(4)) else CondBr(Reg(2), Anon(4), Anon(3))]),
     (Anon(3), [Load(3, 0), Load(4, 1), CmpI(5, SGT, 0x1_0000_0000, Reg(3), Reg(4)), Br(Anon(4))]),
     (Anon(4), [Phi(6, Anon(3), Reg(5), Anon(2), Reg(2)), Store(Reg(6), 2), Br(Anon(1))]),
     (Anon(1), [RetVoid])]
  }

  function Fresh(nslot: nat): Builder {
    Builder(map[Anon(0) := []], [], Anon(0), 1, 0, nslot, 1)
  }

  lemma LogicText(c: Ctx, e: Expr, b: Builder)
    requires e.Logic? && TypeE(c.g, e) == Some(BOOL)
    ensures TypeE(c.g, e.left) == TypeE(c.g, e.right) == Some(BOOL)
    ensures var (b1, v1) := EmitR(c, e.left, b);
            var (b2, v2) := EmitR(c, e.right, EnterRight(c, e.isAnd, b1, v1));
            var b3 := Place(Append(b2, Br(Anon(b1.nbb + 1))), c.fn, Anon(b1.nbb + 1));
            EmitR(c, e, b) == Define(b3, Phi(b3.nreg, b2.cur, v2, b1.cur, v1))
  {
    assert EmitE(c, e, b).1.Val?;
  }

  lemma LandIs(isAnd: bool)
    ensures WellTyped(LandTypes, None, LandBody(isAnd)) && LoopStackOk(LandBody(isAnd), false)
    ensures var c := Ctx(LandTypes, 0, None, Anon(0), 0, []);
            Lists(EmitFn(c, None, LandBody(isAnd), Fresh(3)), LandListing(isAnd))
  {
    hide EmitR, TypeE, Size, EmitS, EnterRight;
    var c0 := Ctx(LandTypes, 0, None, Anon(0), 0, []);
    var c, b := FnCtx(c0, None, Fresh(3)), FnEntry(None, Fresh(3));
    LandTyped(isAnd);
    var b1 := LandRun(isAnd, c, b);
  }

  lemma LandRun(isAnd: bool, c: Ctx, b: Builder) returns (b1: Builder)
    requires c == Ctx(LandTypes, 1, None, Anon(1), 3, [])
    requires b == Builder(map[Anon(0) := [], Anon(2) := []], [(1, Anon(2))], Anon(2), 3, 0, 3, 2)
    ensures Accepted(c, LandBody(isAnd)) && b1 == EmitS(c, LandBody(isAnd), b)
    ensures b1.placed == [(1, Anon(2)), (1, Anon(3)), (1, Anon(4))] && b1.cur == Anon(4) && b1.nreg == 7
    ensures var l := LandListing(isAnd);
            Text(b1, Anon(2)) == l[0].1 && Text(b1, Anon(3)) == l[1].1 && Text(b1, Anon(4)) + [Br(Anon(1))] == l[2].1
    ensures Anon(1) !in b1.blocks
  {
    hide EmitR, TypeE, Size, EnterRight, Text, Append, Place, EmitS, Accepted, Define;
    var e, text := LandTest(isAnd), [Store(Const(1), 0), Store(Const(2), 1)];
    LandTyped(isAnd);
    LandStores(isAnd, c, b);
    LogicText(c, e, Adding(b, text, 0));
    CmpText(c, Lt, 0, 1, b, text, 0);
    Widths();
    var text1 := text + [Load(0, 0), Load(1, 1), CmpI(2, SLT, 0x1_0000_0000, Reg(0), Reg(1))];
    assert text1 == [Store(Const(1), 0), Store(Const(2), 1), Load(0, 0), Load(1, 1),
                     CmpI(2, SLT, 0x1_0000_0000, Reg(0), Reg(1))];
    var bL := Adding(b, text1, 3);
    var bR := EnterRight(c, isAnd, bL, Reg(2));
    RightEntered(isAnd, c, bL, Reg(2));
    AddNone(bR);
    CmpText(c, Gt, 0, 1, bR, [], 0);
    var text2 := [Load(3, 0), Load(4, 1), CmpI(5, SGT, 0x1_0000_0000, Reg(3), Reg(4))];
    assert [] + text2 == text2;
    var b2 := Adding(bR, text2, 3);
    var b3 := Place(Append(b2, Br(Anon(4))), 1, Anon(4));
    TurnText(b2, Br(Anon(4)), 1, Anon(4));
    TurnTexts(b2, Br(Anon(4)), 1, Anon(4));
    LandLast(b3, Phi(6, Anon(3), Reg(5), Anon(2), Reg(2)));
    b1 := EmitS(c, LandBody(isAnd), b);
    LandEnd(isAnd, b, bL, bR, b2, b3, b1);
  }

  lemma LandLast(b: Builder, phi: Instr)
    requires Text(b, b.cur) == []
    ensures var (b1, v) := Define(b, phi);
            v == Reg(b.nreg) && Append(b1, Store(v, 2)) == Adding(b, [phi, Store(Reg(b.nreg), 2)], 1)
  {
    assert [] + [phi] + [Store(Reg(b.nreg), 2)] == [] + [phi, Store(Reg(b.nreg), 2)];
  }

  lemma LandEnd(isAnd: bool, b: Builder, bL: Builder, bR: Builder, b2: Builder, b3: Builder, b1: Builder)
    requires b == Builder(map[Anon(0) := [], Anon(2) := []], [(1, Anon(2))], Anon(2), 3, 0, 3, 2)
    requires bL == Adding(b, [Store(Const(1), 0), Store(Const(2), 1), Load(0, 0), Load(1, 1),
                              CmpI(2, SLT, 0x1_0000_0000, Reg(0), Reg(1))], 3)
    requires bR == Turned(bL.(nbb := 5), if isAnd then CondBr(Reg(2), Anon(3), Anon(4))
                          else CondBr(Reg(2), Anon(4), Anon(3)),
                          1, Anon(3))
    requires b2 == Adding(bR, [Load(3, 0), Load(4, 1), CmpI(5, SGT, 0x1_0000_0000, Reg(3), Reg(4))], 3)
    requires b3 == Turned(b2, Br(Anon(4)), 1, Anon(4))
    requires b1 == Adding(b3, [Phi(6, Anon(3), Reg(5), Anon(2), Reg(2)), Store(Reg(6), 2)], 1)
    ensures b1.placed == [(1, Anon(2)), (1, Anon(3)), (1, Anon(4))] && b1.cur == Anon(4) && b1.nreg == 7
    ensures var l := LandListing(isAnd);
            Text(b1, Anon(2)) == l[0].1 && Text(b1, Anon(3)) == l[1].1 && Text(b1, Anon(4)) + [Br(Anon(1))] == l[2].1
    ensures Anon(1) !in b1.blocks
  {
  }

  lemma RightEntered(isAnd: bool, c: Ctx, b: Builder, v: Value)
    requires b.cur in b.blocks && Anon(b.nbb) !in b.blocks
    ensures var turn := if isAnd then CondBr(v, Anon(b.nbb), Anon(b.nbb + 1))
                        else CondBr(v, Anon(b.nbb + 1), Anon(b.nbb));
            EnterRight(c, isAnd, b, v) == Turned(b.(nbb := b.nbb + 2), turn, c.fn, Anon(b.nbb))
    ensures EnterRight(c, isAnd, b, v).cur in EnterRight(c, isAnd, b, v).blocks
  {
  }

  lemma Widths()
    ensures Size(I32) == 0x1_0000_0000
  {
  }

  lemma LandStores(isAnd: bool, c: Ctx, b: Builder)
    requires c.g == LandTypes && b.cur in b.blocks
    ensures Accepted(c, LandBody(isAnd))
    ensures var (b1, v) := EmitR(c, LandTest(isAnd), Adding(b, [Store(Const(1), 0), Store(Const(2), 1)], 0));
            TypeE(c.g, LandTest(isAnd)).Some? && EmitS(c, LandBody(isAnd), b) == Append(b1, Store(v, 2))
  {
    hide EmitR, TypeE, Size;
    var ss := LandBody(isAnd).ss;
    LandTyped(isAnd);
    LitText(c, I32, 1, b);
    LitText(c, I32, 2, Append(b, Store(Const(1), 0)));
    assert ss[1..] == [Assign(1, Lit(I32, 2)), Assign(2, LandTest(isAnd))];
    assert ss[1..][1..] == [Assign(2, LandTest(isAnd))];
    var b1 := EmitS(c, ss[0], b);
    var b2 := EmitS(c, ss[1], b1);
    assert Text(b2, b.cur) == Text(b, b.cur) + [Store(Const(1), 0), Store(Const(2), 1)];
    assert b2 == Adding(b, [Store(Const(1), 0), Store(Const(2), 1)], 0);
    assert EmitSeq(c, ss[1..][1..], b2) == EmitSeq(c, [], EmitS(c, ss[2], b2));
    assert EmitSeq(c, ss[1..], b1) == EmitSeq(c, ss[1..][1..], b2);
    assert EmitSeq(c, ss, b) == EmitSeq(c, ss[1..], b1);
  }

  lemma LandTyped(isAnd: bool)
    ensures TypeE(LandTypes, LandTest(isAnd)) == Some(BOOL) && TypeE(LandTypes, Lit(I32, 1)) == Some(I32)
    ensures TypeE(LandTypes, Lit(I32, 2)) == Some(I32)
    ensures Encode(I32, LitValue(I32, 1)) == 1 && Encode(I32, LitValue(I32, 2)) == 2
  {
  }

  // ----- test/flow/while3.ca.ll, the prints left out -----

  const LoopTypes: seq<Ty> := [I32, I32]

  function BreakArm(): Stmt {
    Block([Break, Assign(1, Lit(I32, 2)), AssignOp(1, Add, Lit(I32, 2))])
  }

  function CountBody(): Stmt {
    Block([AssignOp(0, Add, Lit(I32, 1)), CountIf()])
  }

  function CountIf(): Stmt {
    If([Cmp(Gt, Var(0), Lit(I32, 10))], [BreakArm()], None)
  }

  /** `let i = 0; while (true) { i += 1; if (i > 10) { break; let a = 2; a += 2; } }` */
  function WhileBody(): Stmt {
    Block([Assign(0, Lit(I32, 0)), While(Lit(BOOL, 1), CountBody())])
  }

  const W32: nat := 0x1_0000_0000

  function WhileListing(): seq<(BB, seq<Instr>)> {
    [(Anon(2), [Store(Const(0), 0), Br(Anon(3))]),
     (Anon(3), [CondBr(Const(1), Anon(4), Anon(5))]),
     (Anon(4), [Load(0, 0), ArithI(1, Add, W32, Reg(0), Const(1)), Store(Reg(1), 0),
                Load(2, 0), CmpI(3, SGT, W32, Reg(2), Const(10)), CondBr(Reg(3), Anon(8), Anon(7))]),
     (Anon(7), [Br(Anon(6))]),
     (Anon(8), [Br(Anon(5))]),
     (Anon(9), [Store(Const(2), 1), Load(4, 1), ArithI(5, Add, W32, Reg(4), Const(2)), Store(Reg(5), 1), Br(Anon(6))]),
     (Anon(6), [Br(Anon(3))]),
     (Anon(5), [Br(Anon(1))]),
     (Anon(1), [RetVoid])]
  }

  /** Ends the current block with i and goes on in bb. */
  function Turned(b: Builder, i: Instr, fn: nat, bb: BB): Builder {
    b.(blocks := b.blocks[b.cur := Text(b, b.cur) + [i]][bb := []], placed := b.placed + [(fn, bb)], cur := bb)
  }

  lemma TurnText(b: Builder, i: Instr, fn: nat, bb: BB)
    requires bb !in b.blocks && b.cur in b.blocks
    ensures Place(Append(b, i), fn, bb) == Turned(b, i, fn, bb)
  {
  }

  function BumpText(r: nat, x: nat, k: nat): seq<Instr> {
    [Load(r, x), ArithI(r + 1, Add, W32, Reg(r), Const(k)), Store(Reg(r + 1), x)]
  }

  lemma BumpIs(c: Ctx, x: nat, k: nat, b: Builder, text: seq<Instr>, regs: nat)
    requires x < |c.g| && c.g[x] == I32 && k < 0x8000_0000
    ensures Accepted(c, AssignOp(x, Add, Lit(I32, k)))
    ensures EmitS(c, AssignOp(x, Add, Lit(I32, k)), Adding(b, text, regs)) ==
            Adding(b, text + BumpText(b.nreg + regs, x, k), regs + 2)
  {
    hide EmitR, Append, Define, Encode, LitValue;
    var r, a := b.nreg + regs, Adding(b, text, regs);
    LitNumber(k);
    LitText(c, I32, k, a);
    var t1 := text + [Load(r, x)];
    var t2 := t1 + [ArithI(r + 1, Add, W32, Reg(r), Const(k))];
    AppendMore(b, text, regs, Load(r, x));
    AppendMore(b, t1, regs + 1, ArithI(r + 1, Add, W32, Reg(r), Const(k)));
    AppendMore(b, t2, regs + 2, Store(Reg(r + 1), x));
    assert t2 + [Store(Reg(r + 1), x)] == text + BumpText(r, x, k);
  }

  lemma LitNumber(k: nat)
    requires k < 0x8000_0000
    ensures Encode(I32, LitValue(I32, k)) == k && Size(I32) == W32
  {
  }

  function ArmText(r: nat): seq<Instr> {
    [Store(Const(2), 1)] + BumpText(r, 1, 2)
  }

  lemma ArmIs(c: Ctx, b: Builder)
    requires c.g == LoopTypes && c.loops != [] && b.cur in b.blocks && Anon(b.nbb) !in b.blocks
    ensures Accepted(c, BreakArm())
    ensures EmitS(c, BreakArm(), b) ==
            Adding(Turned(b.(nbb := b.nbb + 1), Br(c.loops[|c.loops| - 1].out), c.fn, Anon(b.nbb)), ArmText(b.nreg), 2)
  {
    hide EmitR, EmitS, Accepted, BumpText, Adding;
    var ss := BreakArm().ss;
    var b1 := Turned(b.(nbb := b.nbb + 1), Br(c.loops[|c.loops| - 1].out), c.fn, Anon(b.nbb));
    BreakIs(c, b);
    ConstIs(c, 1, 2, b1);
    BumpIs(c, 1, 2, b1, [Store(Const(2), 1)], 0);
    ThreeStmts(c, ss, b);
    BlockSteps(c, BreakArm(), b);
  }

  lemma BreakIs(c: Ctx, b: Builder)
    requires c.loops != [] && b.cur in b.blocks && Anon(b.nbb) !in b.blocks
    ensures Accepted(c, Break)
    ensures EmitS(c, Break, b) == Turned(b.(nbb := b.nbb + 1), Br(c.loops[|c.loops| - 1].out), c.fn, Anon(b.nbb))
  {
  }

  lemma ConstIs(c: Ctx, x: nat, k: nat, b: Builder)
    requires x < |c.g| && c.g[x] == I32 && k < 0x8000_0000 && b.cur in b.blocks
    ensures Accepted(c, Assign(x, Lit(I32, k)))
    ensures EmitS(c, Assign(x, Lit(I32, k)), b) == Adding(b, [Store(Const(k), x)], 0)
  {
    hide EmitR, Encode, LitValue;
    LitNumber(k);
    LitText(c, I32, k, b);
    AddNone(b);
    AppendMore(b, [], 0, Store(Const(k), x));
    assert [] + [Store(Const(k), x)] == [Store(Const(k), x)];
  }

  lemma ThreeStmts(c: Ctx, ss: seq<Stmt>, b: Builder)
    requires |ss| == 3 && forall i | 0 <= i < 3 :: Accepted(c, ss[i])
    ensures EmitSeq(c, ss, b) == EmitS(c, ss[2], EmitS(c, ss[1], EmitS(c, ss[0], b)))
  {
    hide EmitS, Accepted;
    var b1 := EmitS(c, ss[0], b);
    var b2 := EmitS(c, ss[1], b1);
    assert ss[1..][1..] == ss[2..] && ss[2..][1..] == [];
    assert EmitSeq(c, ss[2..], b2) == EmitSeq(c, ss[2..][1..], EmitS(c, ss[2], b2));
    assert EmitSeq(c, ss[1..], b1) == EmitSeq(c, ss[2..], b2);
  }

  lemma TestIs(c: Ctx, b: Builder, text: seq<Instr>, regs: nat)
    requires c.g == LoopTypes
    ensures var e, r := Cmp(Gt, Var(0), Lit(I32, 10)), b.nreg + regs;
            && TypeE(c.g, e) == Some(BOOL)
            && EmitR(c, e, Adding(b, text, regs)) ==
                 (Adding(b, text + [Load(r, 0), CmpI(r + 1, SGT, W32, Reg(r), Const(10))], regs + 2), Reg(r + 1))
  {
    hide EmitR, Append, Define, Encode, LitValue;
    var e, r := Cmp(Gt, Var(0), Lit(I32, 10)), b.nreg + regs;
    var t1 := text + [Load(r, 0)];
    LitNumber(10);
    VarText(c, 0, Adding(b, text, regs));
    AppendMore(b, text, regs, Load(r, 0));
    LitText(c, I32, 10, Adding(b, t1, regs + 1));
    AppendMore(b, t1, regs + 1, CmpI(r + 1, SGT, W32, Reg(r), Const(10)));
    CmpUnfold(c, e, Adding(b, text, regs));
    assert t1 + [CmpI(r + 1, SGT, W32, Reg(r), Const(10))] ==
           text + [Load(r, 0), CmpI(r + 1, SGT, W32, Reg(r), Const(10))];
  }

  /** The whole if, from the block b is in. */
  function IfCode(c: Ctx, b: Builder): Builder
    requires c.loops != []
  {
    var r, o := b.nreg, Anon(b.nbb);
    var test := [Load(r, 0), CmpI(r + 1, SGT, W32, Reg(r), Const(10)),
                 CondBr(Reg(r + 1), Anon(b.nbb + 2), Anon(b.nbb + 1))];
    Builder(b.blocks[b.cur := Text(b, b.cur) + test][Anon(b.nbb + 1) := [Br(o)]]
              [Anon(b.nbb + 2) := [Br(c.loops[|c.loops| - 1].out)]]
              [Anon(b.nbb + 3) := ArmText(r + 2) + [Br(o)]][o := []],
            b.placed + [(c.fn, Anon(b.nbb + 1)), (c.fn, Anon(b.nbb + 2)), (c.fn, Anon(b.nbb + 3)), (c.fn, o)],
            o, b.nbb + 4, r + 4, b.nslot, b.nfn)
  }

  ghost predicate Room(b: Builder) {
    b.cur in b.blocks && forall k: nat | b.nbb <= k :: Anon(k) !in b.blocks
  }

  /** Up to the branch that ends the block of the only condition. */
  function IfFront(b: Builder, fn: nat): Builder {
    var r := b.nreg;
    var test := [Load(r, 0), CmpI(r + 1, SGT, W32, Reg(r), Const(10)),
                 CondBr(Reg(r + 1), Anon(b.nbb + 2), Anon(b.nbb + 1))];
    Builder(b.blocks[b.cur := Text(b, b.cur) + test][Anon(b.nbb + 1) := [Br(Anon(b.nbb))]],
            b.placed + [(fn, Anon(b.nbb + 1))], Anon(b.nbb + 1), b.nbb + 3, r + 2, b.nslot, b.nfn)
  }

  lemma FrontIs(c: Ctx, b: Builder)
    requires c.g == LoopTypes && Room(b) && Accepted(c, CountIf())
    ensures IfTurn(c, CountIf(), b) == IfFront(b, c.fn)
  {
    hide EmitR, EmitS, Accepted, Adding, Append, Place;
    var s, r, b0 := CountIf(), b.nreg, b.(nbb := b.nbb + 3);
    var cmp := [Load(r, 0), CmpI(r + 1, SGT, W32, Reg(r), Const(10))];
    var turn := CondBr(Reg(r + 1), Anon(b.nbb + 2), Anon(b.nbb + 1));
    TestIs(c, b0, [], 0);
    AddNone(b0);
    assert [] + cmp == cmp;
    OneCond(c, s.conds, b.nbb + 1, b0);
    AppendMore(b0, cmp, 2, turn);
    assert cmp + [turn] == [cmp[0], cmp[1], turn];
    FrontTurned(b, c.fn, cmp + [turn]);
  }

  lemma FrontTurned(b: Builder, fn: nat, text: seq<Instr>)
    requires Room(b)
    requires var r := b.nreg;
             text == [Load(r, 0), CmpI(r + 1, SGT, W32, Reg(r), Const(10)),
                      CondBr(Reg(r + 1), Anon(b.nbb + 2), Anon(b.nbb + 1))]
    ensures Append(Place(Adding(b.(nbb := b.nbb + 3), text, 2), fn, Anon(b.nbb + 1)), Br(Anon(b.nbb))) == IfFront(b, fn)
  {
    var b1 := Adding(b.(nbb := b.nbb + 3), text, 2);
    assert Text(b1, Anon(b.nbb + 1)) == [] && [] + [Br(Anon(b.nbb))] == [Br(Anon(b.nbb))];
  }

  lemma IfIs(c: Ctx, b: Builder)
    requires c.g == LoopTypes && c.loops != [] && Room(b)
    ensures Accepted(c, CountIf()) && EmitS(c, CountIf(), b) == IfCode(c, b)
  {
    hide EmitR, EmitS, Accepted, BumpText, ArmText, Adding, Append;
    var s, o := CountIf(), Anon(b.nbb);
    TestIs(c, b, [], 0);
    IfOk(c, b);
    UnfoldIf(c, s, b);
    FrontIs(c, b);
    var b2 := IfFront(b, c.fn);
    OneBody(c, s.bodies, b.nbb + 1, o, b2);
    ArmIn(c, b2, Anon(b.nbb + 2), o);
    IfLast(c, b, Adding(Turned(Place(b2, c.fn, Anon(b.nbb + 2)).(nbb := b.nbb + 4), Br(c.loops[|c.loops| - 1].out),
                               c.fn,
                               Anon(b.nbb + 3)), ArmText(b.nreg + 2), 2));
  }

  lemma ArmIn(c: Ctx, b: Builder, bb: BB, o: BB)
    requires c.g == LoopTypes && c.loops != [] && Anon(b.nbb) !in b.blocks && bb != Anon(b.nbb)
    ensures Accepted(c, BreakArm())
    ensures var b1 := Place(b, c.fn, bb);
            EmitArm(c, BreakArm(), bb, o, b) ==
            Append(Adding(Turned(b1.(nbb := b1.nbb + 1), Br(c.loops[|c.loops| - 1].out), c.fn, Anon(b1.nbb)),
                          ArmText(b1.nreg), 2), Br(o))
  {
    hide EmitS, Adding, Append, Accepted;
    ArmIs(c, Place(b, c.fn, bb));
  }

  lemma IfLast(c: Ctx, b: Builder, b3: Builder)
    requires c.loops != [] && Room(b)
    requires b3 == Adding(Turned(Place(IfFront(b, c.fn), c.fn, Anon(b.nbb + 2)).(nbb := b.nbb + 4),
                                 Br(c.loops[|c.loops| - 1].out), c.fn, Anon(b.nbb + 3)), ArmText(b.nreg + 2), 2)
    ensures Place(Append(b3, Br(Anon(b.nbb))), c.fn, Anon(b.nbb)) == IfCode(c, b)
  {
    hide ArmText;
    var f, o, arm := c.fn, Anon(b.nbb), ArmText(b.nreg + 2);
    var front := IfFront(b, f);
    assert b3.placed + [(f, o)] == front.placed + [(f, Anon(b.nbb + 2)), (f, Anon(b.nbb + 3)), (f, o)];
    assert Text(front, Anon(b.nbb + 2)) == [] && [] + [Br(c.loops[|c.loops| - 1].out)] ==
           [Br(c.loops[|c.loops| - 1].out)];
    assert [] + arm == arm;
    assert Text(Append(b3, Br(o)), o) == [];
    assert Append(b3, Br(o)).blocks[o := []] == IfCode(c, b).blocks;
  }

  lemma IfOk(c: Ctx, b: Builder)
    requires c.g == LoopTypes && c.loops != [] && b.cur in b.blocks && Anon(b.nbb) !in b.blocks
    requires TypeE(c.g, Cmp(Gt, Var(0), Lit(I32, 10))) == Some(BOOL)
    ensures Accepted(c, CountIf()) && Accepted(c, BreakArm())
  {
    hide EmitS, TypeE;
    ArmIs(c, b);
  }

  lemma OneCond(c: Ctx, conds: seq<Expr>, base: nat, b: Builder)
    requires |conds| == 1 && TypeE(c.g, conds[0]) == Some(BOOL)
    ensures var (b1, v) := EmitR(c, conds[0], b);
            EmitConds(c, conds, base, b) == Place(Append(b1, CondBr(v, Anon(base + 1), Anon(base))), c.fn, Anon(base))
  {
  }

  lemma OneBody(c: Ctx, bodies: seq<Stmt>, base: nat, out: BB, b: Builder)
    requires |bodies| == 1 && Accepted(c, bodies[0])
    ensures EmitBodies(c, bodies, base, out, b) == EmitArm(c, bodies[0], Anon(base + 1), out, b)
  {
  }

  lemma TwoStmts(c: Ctx, ss: seq<Stmt>, b: Builder)
    requires |ss| == 2 && forall i | 0 <= i < 2 :: Accepted(c, ss[i])
    ensures EmitSeq(c, ss, b) == EmitS(c, ss[1], EmitS(c, ss[0], b))
  {
    hide EmitS, Accepted;
    var b1 := EmitS(c, ss[0], b);
    assert ss[1..][1..] == [];
    assert EmitSeq(c, ss[1..], b1) == EmitSeq(c, ss[1..][1..], EmitS(c, ss[1], b1));
  }

  lemma CountIs(c: Ctx, b: Builder)
    requires c.g == LoopTypes && c.loops != [] && Room(b)
    ensures Accepted(c, CountBody())
    ensures EmitS(c, CountBody(), b) == IfCode(c, Adding(b, BumpText(b.nreg, 0, 1), 2))
  {
    hide BumpText, IfCode, EmitS, Accepted, Adding;
    var text := BumpText(b.nreg, 0, 1);
    AddNone(b);
    BumpIs(c, 0, 1, b, [], 0);
    assert [] + text == text;
    RoomMore(b, text, 2);
    IfIs(c, Adding(b, text, 2));
    CountOk(c);
    CountSteps(c, b);
  }

  lemma RoomMore(b: Builder, text: seq<Instr>, regs: nat)
    requires Room(b)
    ensures Room(Adding(b, text, regs)) && Adding(b, text, regs).nreg == b.nreg + regs
  {
  }

  lemma CountSteps(c: Ctx, b: Builder)
    requires Accepted(c, AssignOp(0, Add, Lit(I32, 1))) && Accepted(c, CountIf()) && Accepted(c, CountBody())
    ensures EmitS(c, CountBody(), b) == EmitS(c, CountIf(), EmitS(c, AssignOp(0, Add, Lit(I32, 1)), b))
  {
    hide EmitR, EmitE, Accepted;
    TwoStmts(c, CountBody().ss, b);
  }

  lemma CountOk(c: Ctx)
    requires Accepted(c, AssignOp(0, Add, Lit(I32, 1))) && Accepted(c, CountIf())
    ensures Accepted(c, CountBody())
  {
  }

  /** The loop's head, from a block b is in. */
  function WhileFront(b: Builder, fn: nat): Builder {
    Turned(Turned(b.(nbb := b.nbb + 3), Br(Anon(b.nbb)), fn, Anon(b.nbb)),
           CondBr(Const(1), Anon(b.nbb + 1), Anon(b.nbb + 2)), fn, Anon(b.nbb + 1))
  }

  lemma WhileIs(c: Ctx, b: Builder)
    requires c.g == LoopTypes && Room(b)
    ensures Accepted(c, While(Lit(BOOL, 1), CountBody()))
    ensures var c1, b1 := InLoop(c, Anon(b.nbb), Anon(b.nbb + 2)), WhileFront(b, c.fn);
            EmitS(c, While(Lit(BOOL, 1), CountBody()), b) ==
            Place(Append(IfCode(c1, Adding(b1, BumpText(b1.nreg, 0, 1), 2)), Br(Anon(b.nbb))), c.fn, Anon(b.nbb + 2))
  {
    hide BumpText, IfCode, EmitR, EmitS, Encode, LitValue, Accepted, Adding, CountBody;
    var c1, b1 := InLoop(c, Anon(b.nbb), Anon(b.nbb + 2)), WhileFront(b, c.fn);
    LitText(c, BOOL, 1, Turned(b.(nbb := b.nbb + 3), Br(Anon(b.nbb)), c.fn, Anon(b.nbb)));
    TrueBit();
    FrontRoom(b, c.fn);
    CountIs(c1, b1);
    WhileSteps(c, While(Lit(BOOL, 1), CountBody()), b);
  }

  lemma FrontRoom(b: Builder, fn: nat)
    requires Room(b)
    ensures Room(WhileFront(b, fn)) && Anon(b.nbb) !in b.blocks
    ensures Anon(b.nbb + 1) !in Turned(b.(nbb := b.nbb + 3), Br(Anon(b.nbb)), fn, Anon(b.nbb)).blocks
  {
  }

  lemma WhileSteps(c: Ctx, s: Stmt, b: Builder)
    requires s.While? && TypeE(c.g, s.cond) == Some(BOOL)
    requires Accepted(InLoop(c, Anon(b.nbb), Anon(b.nbb + 2)), s.body)
    ensures Accepted(c, s)
    ensures var c1 := InLoop(c, Anon(b.nbb), Anon(b.nbb + 2));
            var (b2, v) := EmitR(c, s.cond, Place(Append(NewBB(b, 3), Br(Anon(b.nbb))), c.fn, Anon(b.nbb)));
            EmitS(c, s, b) ==
            Place(Append(EmitS(c1, s.body, Place(Append(b2, CondBr(v, Anon(b.nbb + 1), Anon(b.nbb + 2))), c.fn,
                                                 Anon(b.nbb + 1))), Br(Anon(b.nbb))), c.fn, Anon(b.nbb + 2))
  {
    hide EmitR, EmitE;
  }

  lemma TrueBit()
    ensures Encode(BOOL, LitValue(BOOL, 1)) == 1
  {
  }

  /** The blocks of while3 in the order and with the contents of its listing. */
  lemma WhileListed()
    ensures WellTyped(LoopTypes, None, WhileBody()) && LoopStackOk(WhileBody(), false)
    ensures var c := Ctx(LoopTypes, 0, None, Anon(0), 0, []);
            Lists(EmitFn(c, None, WhileBody(), Fresh(2)), WhileListing())
  {
    hide EmitR, EmitS, Encode, LitValue, IfCode, CountBody;
    var c0 := Ctx(LoopTypes, 0, None, Anon(0), 0, []);
    var c, b := FnCtx(c0, None, Fresh(2)), FnEntry(None, Fresh(2));
    var ss := WhileBody().ss;
    var b1 := Adding(b, [Store(Const(0), 0)], 0);
    ConstIs(c, 0, 0, b);
    WhileIs(c, b1);
    TwoStmts(c, ss, b);
    BlockSteps(c, WhileBody(), b);
    WhileTyped(c);
    assert b == Builder(map[Anon(0) := [], Anon(2) := []], [(1, Anon(2))], Anon(2), 3, 0, 2, 2);
    assert [] + [Store(Const(0), 0)] == [Store(Const(0), 0)];
    assert b1.blocks == map[Anon(0) := [], Anon(2) := [Store(Const(0), 0)]];
    assert InLoop(c, Anon(3), Anon(5)) == InLoop(c, Anon(b1.nbb), Anon(b1.nbb + 2));
    assert EmitS(c, WhileBody(), b) == EmitS(c, ss[1], b1);
    WhileDone(c, b1, EmitS(c, WhileBody(), b));
  }

  lemma BlockSteps(c: Ctx, s: Stmt, b: Builder)
    requires s.Block? && forall i | 0 <= i < |s.ss| :: Accepted(c, s.ss[i])
    ensures Accepted(c, s) && EmitS(c, s, b) == EmitSeq(c, s.ss, b)
  {
    hide EmitSeq;
  }

  lemma WhileTyped(c: Ctx)
    requires c.g == LoopTypes && c.ret == None && c.loops == [] && Accepted(c, WhileBody())
    ensures WellTyped(LoopTypes, None, WhileBody()) && LoopStackOk(WhileBody(), false)
  {
  }

  // The texts of the blocks.

  lemma IfTexts(c: Ctx, b: Builder)
    requires c.loops != [] && Room(b)
    ensures var r, o, b1 := b.nreg, Anon(b.nbb), IfCode(c, b);
            && Text(b1, b.cur) == Text(b, b.cur) +
                 [Load(r, 0), CmpI(r + 1, SGT, W32, Reg(r), Const(10)),
                  CondBr(Reg(r + 1), Anon(b.nbb + 2), Anon(b.nbb + 1))]
            && Text(b1, Anon(b.nbb + 1)) == [Br(o)]
            && Text(b1, Anon(b.nbb + 2)) == [Br(c.loops[|c.loops| - 1].out)]
            && Text(b1, Anon(b.nbb + 3)) == ArmText(r + 2) + [Br(o)]
            && Text(b1, o) == [] && b1.cur == o && b1.nbb == b.nbb + 4
            && b1.placed == b.placed + [(c.fn, Anon(b.nbb + 1)), (c.fn, Anon(b.nbb + 2)), (c.fn, Anon(b.nbb + 3)),
                                        (c.fn, o)]
            && (forall bb | bb != b.cur && (bb.Named? || bb.id < b.nbb) :: Text(b1, bb) == Text(b, bb))
            && (forall k: nat | b.nbb + 4 <= k :: Anon(k) !in b1.blocks)
  {
    hide ArmText;
  }

  lemma TurnTexts(b: Builder, i: Instr, fn: nat, bb: BB)
    requires bb !in b.blocks && b.cur in b.blocks
    ensures var b1 := Place(Append(b, i), fn, bb);
            && Text(b1, b.cur) == Text(b, b.cur) + [i] && Text(b1, bb) == [] && b1.cur == bb
            && b1.placed == b.placed + [(fn, bb)] && b1.nbb == b.nbb
            && forall x | x != bb && x != b.cur :: Text(b1, x) == Text(b, x)
  {
  }

  lemma WhileDone(c: Ctx, b: Builder, b1: Builder)
    requires c == Ctx(LoopTypes, 1, None, Anon(1), 2, [])
    requires b == Builder(map[Anon(0) := [], Anon(2) := [Store(Const(0), 0)]], [(1, Anon(2))], Anon(2), 3, 0, 2, 2)
    requires var c1, front := InLoop(c, Anon(3), Anon(5)), WhileFront(b, 1);
             b1 == Place(Append(IfCode(c1, Adding(front, BumpText(0, 0, 1), 2)), Br(Anon(3))), 1, Anon(5))
    ensures Lists(EmitExit(c, b1), WhileListing())
  {
    hide Place, Append, Text, IfCode;
    WhileTexts(c, b, b1);
    TurnTexts(b1, Br(Anon(1)), 1, Anon(1));
    AddTexts(Place(Append(b1, Br(Anon(1))), 1, Anon(1)), [RetVoid], 0);
    ExitIs(c, b1);
    ListedAll(EmitExit(c, b1));
  }

  lemma WhileTexts(c: Ctx, b: Builder, b1: Builder)
    requires c == Ctx(LoopTypes, 1, None, Anon(1), 2, [])
    requires b == Builder(map[Anon(0) := [], Anon(2) := [Store(Const(0), 0)]], [(1, Anon(2))], Anon(2), 3, 0, 2, 2)
    requires var c1, front := InLoop(c, Anon(3), Anon(5)), WhileFront(b, 1);
             b1 == Place(Append(IfCode(c1, Adding(front, BumpText(0, 0, 1), 2)), Br(Anon(3))), 1, Anon(5))
    ensures forall k | 0 <= k < 7 :: Text(b1, WhileListing()[k].0) == WhileListing()[k].1
    ensures b1.placed == [(1, Anon(2)), (1, Anon(3)), (1, Anon(4)), (1, Anon(7)), (1, Anon(8)), (1, Anon(9)),
                          (1, Anon(6)),
                          (1, Anon(5))]
    ensures Text(b1, Anon(5)) == [] && b1.cur == Anon(5) && Anon(1) !in b1.blocks && Anon(5) in b1.blocks
  {
    hide IfCode, Place, Append, Text, WhileFront;
    var c1, front := InLoop(c, Anon(3), Anon(5)), WhileFront(b, 1);
    WhileFrontTexts(b, front);
    AddTexts(front, BumpText(0, 0, 1), 2);
    var b2 := Adding(front, BumpText(0, 0, 1), 2);
    IfTexts(c1, b2);
    var b3 := IfCode(c1, b2);
    InBlocks(c1, b2);
    TurnTexts(b3, Br(Anon(3)), 1, Anon(5));
    NotIn(b1, b3, Br(Anon(3)));
  }

  lemma AddTexts(b: Builder, text: seq<Instr>, regs: nat)
    ensures var b1 := Adding(b, text, regs);
            && Text(b1, b.cur) == Text(b, b.cur) + text && b1.cur == b.cur && b1.placed == b.placed && b1.nbb == b.nbb
            && (forall x | x != b.cur :: Text(b1, x) == Text(b, x)) && (Room(b) ==> Room(b1))
  {
  }

  lemma ExitIs(c: Ctx, b: Builder)
    requires c.ret == None && c.retbb == Anon(1) && c.fn == 1
    ensures EmitExit(c, b) == Adding(Place(Append(b, Br(Anon(1))), 1, Anon(1)), [RetVoid], 0)
  {
  }

  lemma InBlocks(c: Ctx, b: Builder)
    requires c.loops != [] && Room(b)
    ensures IfCode(c, b).cur in IfCode(c, b).blocks && Room(IfCode(c, b))
    ensures forall bb | bb !in b.blocks && (bb.Named? || bb.id < b.nbb) :: bb !in IfCode(c, b).blocks
  {
  }

  lemma NotIn(b1: Builder, b: Builder, i: Instr)
    requires b1 == Place(Append(b, i), 1, Anon(5)) && b.cur in b.blocks
    ensures b1.cur in b1.blocks && (Anon(1) !in b.blocks ==> Anon(1) !in b1.blocks)
  {
  }

  lemma WhileFrontTexts(b: Builder, b1: Builder)
    requires b == Builder(map[Anon(0) := [], Anon(2) := [Store(Const(0), 0)]], [(1, Anon(2))], Anon(2), 3, 0, 2, 2)
    requires b1 == WhileFront(b, 1)
    ensures Text(b1, Anon(2)) == [Store(Const(0), 0), Br(Anon(3))]
    ensures Text(b1, Anon(3)) == [CondBr(Const(1), Anon(4), Anon(5))] && Text(b1, Anon(4)) == []
    ensures b1.placed == [(1, Anon(2)), (1, Anon(3)), (1, Anon(4))] && b1.cur == Anon(4) && b1.nbb == 6 && b1.nreg == 0
    ensures Room(b1) && Anon(5) !in b1.blocks && Anon(1) !in b1.blocks
  {
  }

  lemma ListedAll(b: Builder)
    requires var l := WhileListing(); |b.placed| == 9 && |l| == 9 && forall k | 0 <= k < 9 :: b.placed[k].1 == l[k].0
    requires forall k | 0 <= k < 9 :: Text(b, WhileListing()[k].0) == WhileListing()[k].1
    ensures Lists(b, WhileListing())
  {
  }
}
