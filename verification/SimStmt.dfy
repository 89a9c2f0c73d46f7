/** The code emitted for a statement does what the statement does: each outcome of the
    big-step evaluation is a place in the code where the machine arrives. */
module SimStmt {
  import opened IntTypes
  import opened Syntax
  import opened Source
  import opened Target
  import opened Emit
  import opened Frame
  import opened SimExpr

  /** Where each outcome leaves the machine. */
  ghost predicate Lands(c: Ctx, b1: Builder, o: Outcome, ms: Machine) {
    match o
    case Normal => At(ms, b1)
    case Broke => c.loops != [] && AtTop(ms, c.loops[|c.loops| - 1].out)
    case Continued => c.loops != [] && AtTop(ms, c.loops[|c.loops| - 1].cond)
    case Returned(v) =>
      AtTop(ms, c.retbb) &&
      (v.Some? <==> c.ret.Some?) &&
      (v.Some? ==>
         InRange(c.ret.value, v.value) && c.retslot in ms.mem && ms.mem[c.retslot] == Encode(c.ret.value, v.value))
    case Jump(l) => AtTop(ms, Named(l))
    case Timeout => ms.Run?
    case Wild => true
  }

  /** n steps from ms reach what (o, st1) says.  A transfer of control takes a step; a
      Timeout has used all its fuel. */
  ghost predicate Reaches(w: World, code: Code, c: Ctx, b: Builder, b1: Builder, o: Outcome, st1: State, ms: Machine,
                          fuel: nat, n: nat, ms1: Machine) {
    && ms1 == Steps(w, code, ms, n)
    && (o.Wild? || (Lands(c, b1, o, ms1) && Agrees(c.g, st1, ms1) && Keeps(c, b, ms, ms1)))
    && (o.Broke? || o.Continued? || o.Jump? ==> n >= 1)
    && (o.Timeout? ==> n >= fuel)
  }

  /** Steps before a run. */
  lemma Before(w: World, code: Code, c: Ctx, b: Builder, b': Builder, b1: Builder, o: Outcome, st1: State,
               ms: Machine, n0: nat, ms0: Machine, fuel: nat, fuel0: nat, n: nat, ms1: Machine)
    requires ms0 == Steps(w, code, ms, n0) && Keeps(c, b, ms, ms0)
    requires Reaches(w, code, c, b', b1, o, st1, ms0, fuel, n, ms1)
    requires b.nreg <= b'.nreg && b.nslot <= b'.nslot && fuel0 <= n0 + fuel
    ensures Reaches(w, code, c, b, b1, o, st1, ms, fuel0, n0 + n, ms1)
  {
    StepsAdd(w, code, ms, n0, n);
    if !o.Wild? {
      KeepsTrans(c, b, b', ms, ms0, ms1);
    }
  }

  lemma KeepsRefl(c: Ctx, b: Builder, ms: Machine)
    requires ms.Run?
    ensures Keeps(c, b, ms, ms)
  {
  }

  lemma KeepsLess(c: Ctx, b: Builder, b1: Builder, ms: Machine, ms1: Machine)
    requires Keeps(c, b1, ms, ms1) && b.nreg <= b1.nreg && b.nslot <= b1.nslot
    ensures Keeps(c, b, ms, ms1)
  {
  }

  /** The hidden slots the context relies on are in place. */
  ghost predicate CtxOk(c: Ctx, b: Builder) {
    |c.g| <= b.nslot && (c.ret.Some? ==> |c.g| <= c.retslot < b.nslot)
  }

  ghost predicate Starts(entry: Option<string>, b: Builder, ms: Machine) {
    match entry case None => At(ms, b) case Some(l) => AtTop(ms, Named(l))
  }

  ghost predicate CanSim(code: Code, c: Ctx, s: Stmt, entry: Option<string>, b: Builder, ms: Machine, st: State) {
    && Accepted(c, s) && EntryOk(s, entry) && DistinctLabels(s) && FreshLabels(b, Labels(s, true))
    && Ready(b) && CtxOk(c, b) && StoreOk(c.g, st.store) && Agrees(c.g, st, ms)
    && Within(EmitS(c, s, b).blocks, code) && Starts(entry, b, ms)
  }

  lemma CanEval(code: Code, c: Ctx, s: Stmt, entry: Option<string>, b: Builder, ms: Machine, st: State)
    requires CanSim(code, c, s, entry, b, ms, st)
    ensures Accepted(c, s) && WellTyped(c.g, c.ret, s) && StoreOk(c.g, st.store) && EntryOk(s, entry)
  {
  }

  // ----- straight-line statements -----

  lemma DoStoreVar(w: World, code: Code, c: Ctx, b: Builder, v: Value, x: nat, val: int, ms: Machine, st: State)
    requires At(ms, b) && Ready(b) && Within(Append(b, Store(v, x)).blocks, code) && Agrees(c.g, st, ms)
    requires x < |c.g| && Holds(v, b.nreg, Encode(c.g[x], val), ms)
    ensures var ms1 := Exec(w, Store(v, x), ms);
            Steps(w, code, ms, 1) == ms1 && At(ms1, Append(b, Store(v, x))) && Keeps(c, b, ms, ms1) &&
            Agrees(c.g, st.(store := st.store[x := val]), ms1)
  {
    Fetch(w, code, b, Store(v, x), ms);
  }

  lemma SimAssign(w: World, code: Code, c: Ctx, s: Stmt, b: Builder, ms: Machine, st: State)
    returns (n: nat, ms1: Machine)
    requires s.Assign? && CanSim(code, c, s, None, b, ms, st)
    ensures Computes(w, code, c, b, EmitS(c, s, b), ms, EvalS(w, c.g, c.ret, s, None, st, 0).1, n, ms1)
  {
    hide Grown, Counted, Keeps, Agrees, Within, Exec, Steps, EmitR, EvalE;
    var (b1, v) := EmitR(c, s.e, b);
    var (x, st1) := EvalE(w, c.g, s.e, st);
    GrowsR(c, s.e, b);
    GrowsAppend(b1, Store(v, s.x), b1.nbb, {});
    WithinOf(b1, EmitS(c, s, b), b1.nbb, {}, code);
    var n1, msA := SimR(w, code, c, s.e, b, ms, st);
    DoStoreVar(w, code, c, b1, v, s.x, x, msA, st1);
    n, ms1 := n1 + 1, Exec(w, Store(v, s.x), msA);
    ComputesThen(w, code, c, b, b1, EmitS(c, s, b), ms, st1, st1.(store := st1.store[s.x := x]), n1, msA, 1, ms1);
  }

  lemma SimAssignOp(w: World, code: Code, c: Ctx, s: Stmt, b: Builder, ms: Machine, st: State)
    returns (n: nat, ms1: Machine)
    requires s.AssignOp? && CanSim(code, c, s, None, b, ms, st)
    ensures Computes(w, code, c, b, EmitS(c, s, b), ms, EvalS(w, c.g, c.ret, s, None, st, 0).1, n, ms1)
  {
    hide Grown, Counted, Keeps, Within, Exec, Steps, EmitR, EvalE, Encode, Size, Wrap, ArithInt, TypeE;
    var (b1, v) := EmitR(c, s.e, b);
    var (y, st1) := EvalE(w, c.g, s.e, st);
    GrowsR(c, s.e, b);
    AssignOpWithin(code, c, s, b1, v);
    WithinOf(b1, EmitS(c, s, b), b1.nbb, {}, code);
    var n1, msA := SimR(w, code, c, s.e, b, ms, st);
    var n2, msB := SimUpdate(w, code, c, s, b1, v, y, msA, st1);
    n, ms1 := n1 + n2, msB;
    var st2 := st1.(store := st1.store[s.x := Wrap(c.g[s.x], ArithInt(s.op, st1.store[s.x], y))]);
    ComputesThen(w, code, c, b, b1, EmitS(c, s, b), ms, st1, st2, n1, msA, n2, msB);
  }

  /** Load, operation and store of `x op= e`, the value of e being in v. */
  ghost function Update(c: Ctx, s: Stmt, b1: Builder, v: Value): Builder
    requires s.AssignOp? && s.x < |c.g|
  {
    var (b2, l) := Define(b1, Load(b1.nreg, s.x));
    var (b3, d) := Define(b2, ArithI(b2.nreg, s.op, Size(c.g[s.x]), l, v));
    Append(b3, Store(d, s.x))
  }

  lemma AssignOpWithin(code: Code, c: Ctx, s: Stmt, b1: Builder, v: Value)
    requires s.AssignOp? && s.x < |c.g| && Ready(b1)
    ensures Grows(b1, Update(c, s, b1, v), b1.nbb, {})
  {
    hide Grown, Counted, Size;
    var (b2, l) := Define(b1, Load(b1.nreg, s.x));
    var i := ArithI(b2.nreg, s.op, Size(c.g[s.x]), l, v);
    var (b3, d) := Define(b2, i);
    GrowsDefine(b1, Load(b1.nreg, s.x), b1.nbb, {});
    GrowsDefine(b2, i, b1.nbb, {});
    GrowsAppend(b3, Store(d, s.x), b1.nbb, {});
    Chain(b1, b2, b3, b1.nbb, b1.nbb, {}, {});
    Chain(b1, b3, Update(c, s, b1, v), b1.nbb, b1.nbb, {}, {});
  }

  lemma SimUpdate(w: World, code: Code, c: Ctx, s: Stmt, b1: Builder, v: Value, y: int, ms: Machine, st: State)
    returns (n: nat, ms1: Machine)
    requires s.AssignOp? && s.x < |c.g| <= b1.nslot && Ready(b1) && Within(Update(c, s, b1, v).blocks, code)
    requires At(ms, b1) && Agrees(c.g, st, ms) && Holds(v, b1.nreg, Encode(c.g[s.x], y), ms)
    ensures var next := Wrap(c.g[s.x], ArithInt(s.op, st.store[s.x], y));
            Computes(w, code, c, b1, Update(c, s, b1, v), ms, st.(store := st.store[s.x := next]), n, ms1)
  {
    hide Grown, Counted, Keeps, Within, Exec, Steps, Encode, Size, Wrap, ArithInt;
    var t := c.g[s.x];
    var (b2, l) := Define(b1, Load(b1.nreg, s.x));
    var i := ArithI(b2.nreg, s.op, Size(t), l, v);
    var (b3, d) := Define(b2, i);
    var b4 := Update(c, s, b1, v);
    GrowsDefine(b1, Load(b1.nreg, s.x), b1.nbb, {});
    GrowsDefine(b2, i, b2.nbb, {});
    GrowsAppend(b3, Store(d, s.x), b3.nbb, {});
    WithinOf(b3, b4, b3.nbb, {}, code);
    WithinOf(b2, b3, b2.nbb, {}, code);
    var was := Encode(t, st.store[s.x]);
    ExecLoad(w, b1.nreg, s.x, was, ms);
    DoDefine(w, code, c, b1, Load(b1.nreg, s.x), was, ms, st);
    var msB := SetReg(ms, b1.nreg, was);
    HoldsOn(c, b1, v, Encode(t, y), ms, msB);
    ArithAgrees(t, s.op, st.store[s.x], y);
    var next := Wrap(t, ArithInt(s.op, st.store[s.x], y));
    ExecArith(w, i, was, Encode(t, y), Encode(t, next), msB);
    DoDefine(w, code, c, b2, i, Encode(t, next), msB, st);
    var msC := SetReg(msB, b2.nreg, Encode(t, next));
    ComputesThen(w, code, c, b1, b2, b3, ms, st, st, 1, msB, 1, msC);
    DoStoreVar(w, code, c, b3, d, s.x, next, msC, st);
    n, ms1 := 3, Exec(w, Store(d, s.x), msC);
    ComputesThen(w, code, c, b1, b3, b4, ms, st, st.(store := st.store[s.x := next]), 2, msC, 1, ms1);
  }

  lemma ExecLoad(w: World, d: nat, slot: nat, n: nat, ms: Machine)
    requires ms.Run? && slot in ms.mem && ms.mem[slot] == n
    ensures Exec(w, Load(d, slot), ms) == SetReg(ms, d, n)
  {
  }

  lemma ExecArith(w: World, i: Instr, x: nat, y: nat, n: nat, ms: Machine)
    requires i.ArithI? && i.m > 0 && ms.Run? && Known(i.a, ms.regs) && Known(i.b, ms.regs)
    requires ValueOf(i.a, ms.regs) == x && ValueOf(i.b, ms.regs) == y && ArithBits(i.op, i.m, x, y) == n
    ensures Exec(w, i, ms) == SetReg(ms, i.d, n)
  {
  }

  /** break, continue, goto: one branch. */
  lemma SimLeave(w: World, code: Code, c: Ctx, b: Builder, target: BB, ms: Machine, st: State)
    requires At(ms, b) && Ready(b) && Within(Leave(b, c.fn, target).blocks, code) && Agrees(c.g, st, ms)
    ensures var ms1 := Enter(ms, target);
            Steps(w, code, ms, 1) == ms1 && AtTop(ms1, target) && Agrees(c.g, st, ms1) && Keeps(c, b, ms, ms1)
  {
    NotYet(b, b.nbb);
    WithinTurn(b, Br(target), Leave(b, c.fn, target), Anon(b.nbb), code);
    DoJump(w, code, c, b, Br(target), target, ms, st);
  }

  lemma SimRet(w: World, code: Code, c: Ctx, s: Stmt, b: Builder, ms: Machine, st: State, fuel: nat)
    returns (n: nat, ms1: Machine)
    requires s.Ret? && CanSim(code, c, s, None, b, ms, st)
    ensures var (o, st1) := EvalS(w, c.g, c.ret, s, None, st, fuel);
            Reaches(w, code, c, b, EmitS(c, s, b), o, st1, ms, fuel, n, ms1)
  {
    hide Grown, Counted, Keeps, Agrees, Within, Exec, Steps, EmitR, EvalE, Leave;
    if s.value.None? {
      SimLeave(w, code, c, b, c.retbb, ms, st);
      n, ms1 := 1, Enter(ms, c.retbb);
    } else {
      var (b1, v) := EmitR(c, s.value.value, b);
      var (x, st1) := EvalE(w, c.g, s.value.value, st);
      var b2 := Append(b1, Store(v, c.retslot));
      GrowsR(c, s.value.value, b);
      GrowsAppend(b1, Store(v, c.retslot), b1.nbb, {});
      GrowsLeave(b2, c.fn, c.retbb, {});
      WithinOf(b2, EmitS(c, s, b), b2.nbb, {}, code);
      WithinOf(b1, b2, b1.nbb, {}, code);
      var n1, msA := SimR(w, code, c, s.value.value, b, ms, st);
      DoStoreHidden(w, code, c, b1, v, c.retslot, Encode(c.ret.value, x), msA, st1);
      var msB := Exec(w, Store(v, c.retslot), msA);
      ComputesThen(w, code, c, b, b1, b2, ms, st1, st1, n1, msA, 1, msB);
      SimLeave(w, code, c, b2, c.retbb, msB, st1);
      n, ms1 := n1 + 1 + 1, Enter(msB, c.retbb);
      StepsAdd(w, code, ms, n1 + 1, 1);
      KeepsTrans(c, b, b2, ms, msB, ms1);
    }
  }

  lemma SimLabel(w: World, code: Code, c: Ctx, l: string, entry: Option<string>, b: Builder, ms: Machine, st: State)
    returns (n: nat, ms1: Machine)
    requires CanSim(code, c, Label(l), entry, b, ms, st)
    ensures Computes(w, code, c, b, EmitS(c, Label(l), b), ms, st, n, ms1)
  {
    hide Grown, Counted, Keeps, Agrees, Within, Exec, Steps;
    NameFree(b, Labels(Label(l), true), l);
    var b1 := EmitS(c, Label(l), b);
    if entry.None? {
      WithinTurn(b, Br(Named(l)), b1, Named(l), code);
      ExecBr(w, Named(l), ms);
      DoJump(w, code, c, b, Br(Named(l)), Named(l), ms, st);
      n, ms1 := 1, Enter(ms, Named(l));
    } else {
      n, ms1 := 0, ms;
      StepsZero(w, code, ms);
      KeepsRefl(c, b, ms);
    }
    AtPlaced(ms1, Append(b, Br(Named(l))), c.fn, Named(l));
  }

  lemma ExecBr(w: World, target: BB, ms: Machine)
    requires ms.Run?
    ensures Exec(w, Br(target), ms) == Enter(ms, target)
  {
  }

  lemma StepsZero(w: World, code: Code, ms: Machine)
    ensures Steps(w, code, ms, 0) == ms
  {
  }

  // ----- the statement lemma and its cases -----

  /** Every statement, from its start or from a label inside it. */
  lemma {:induction false} SimS(w: World, code: Code, c: Ctx, s: Stmt, entry: Option<string>, b: Builder,
                                ms: Machine, st: State, fuel: nat)
    returns (n: nat, ms1: Machine)
    requires CanSim(code, c, s, entry, b, ms, st)
    ensures var (o, st1) := EvalS(w, c.g, c.ret, s, entry, st, fuel);
            Reaches(w, code, c, b, EmitS(c, s, b), o, st1, ms, fuel, n, ms1)
    decreases fuel, s, 3
  {
    hide Grown, Counted, Keeps, Agrees, Within, Steps, FreshLabels, EmitS, EvalS, Reaches, CanSim;
    CanEval(code, c, s, entry, b, ms, st);
    match s
    case Block(ss) => n, ms1 := SimBlock(w, code, c, s, entry, b, ms, st, fuel);
    case If(_, _, _) => n, ms1 := SimIf(w, code, c, s, entry, b, ms, st, fuel);
    case While(_, _) => n, ms1 := SimLoop(w, code, c, s, entry, b, ms, st, fuel);
    case Loop(_) => n, ms1 := SimLoop(w, code, c, s, entry, b, ms, st, fuel);
    case For(_, _, _) => n, ms1 := SimFor(w, code, c, s, entry, b, ms, st, fuel);
    case _ => n, ms1 := SimSimple(w, code, c, s, entry, b, ms, st, fuel);
  }

  ghost predicate IsSimple(s: Stmt) {
    !(s.Block? || s.If? || s.While? || s.Loop? || s.For?)
  }

  lemma {:induction false} SimSimple(w: World, code: Code, c: Ctx, s: Stmt, entry: Option<string>, b: Builder,
                                     ms: Machine, st: State, fuel: nat)
    returns (n: nat, ms1: Machine)
    requires IsSimple(s) && CanSim(code, c, s, entry, b, ms, st)
    ensures var (o, st1) := EvalS(w, c.g, c.ret, s, entry, st, fuel);
            Reaches(w, code, c, b, EmitS(c, s, b), o, st1, ms, fuel, n, ms1)
  {
    hide Grown, Counted, Keeps, Agrees, Within, Exec, Steps, EmitE, EmitR, EvalE, Leave, EmitFn;
    match s
    case ExprStmt(e) => n, ms1 := SimE(w, code, c, e, b, ms, st);
    case Assign(_, _) => n, ms1 := SimAssign(w, code, c, s, b, ms, st);
    case AssignOp(_, _, _) => n, ms1 := SimAssignOp(w, code, c, s, b, ms, st);
    case Break =>
      SimLeave(w, code, c, b, c.loops[|c.loops| - 1].out, ms, st);
      n, ms1 := 1, Enter(ms, c.loops[|c.loops| - 1].out);
    case Continue =>
      SimLeave(w, code, c, b, c.loops[|c.loops| - 1].cond, ms, st);
      n, ms1 := 1, Enter(ms, c.loops[|c.loops| - 1].cond);
    case Goto(l) =>
      SimLeave(w, code, c, b, Named(l), ms, st);
      n, ms1 := 1, Enter(ms, Named(l));
    case Ret(_) => n, ms1 := SimRet(w, code, c, s, b, ms, st, fuel);
    case Label(l) => n, ms1 := SimLabel(w, code, c, l, entry, b, ms, st);
    case Skip => n, ms1 := SimNothing(w, code, c, b, ms);
    case FnDef(r, body) =>
      FnKeepsCur(c, r, body, b);
      n, ms1 := SimNothing(w, code, c, b, ms);
  }

  lemma SimNothing(w: World, code: Code, c: Ctx, b: Builder, ms: Machine) returns (n: nat, ms1: Machine)
    requires ms.Run?
    ensures ms1 == ms == Steps(w, code, ms, n) && Keeps(c, b, ms, ms1)
  {
    n, ms1 := 0, ms;
  }

  // sequences

  ghost predicate CanSimSeq(code: Code, c: Ctx, ss: seq<Stmt>, entry: Option<string>, b: Builder, ms: Machine,
                            st: State) {
    && (forall i | 0 <= i < |ss| :: Accepted(c, ss[i])) && (entry.Some? ==> entry.value in LabelsSeq(ss, false))
    && DistinctLabelsSeq(ss) && FreshLabels(b, LabelsSeq(ss, true))
    && Ready(b) && CtxOk(c, b) && StoreOk(c.g, st.store) && Agrees(c.g, st, ms)
    && Within(EmitSeq(c, ss, b).blocks, code) && Starts(entry, b, ms)
  }

  lemma {:induction false} SimBlock(w: World, code: Code, c: Ctx, s: Stmt, entry: Option<string>, b: Builder,
                                    ms: Machine, st: State, fuel: nat)
    returns (n: nat, ms1: Machine)
    requires s.Block? && CanSim(code, c, s, entry, b, ms, st)
    ensures var (o, st1) := EvalS(w, c.g, c.ret, s, entry, st, fuel);
            Reaches(w, code, c, b, EmitS(c, s, b), o, st1, ms, fuel, n, ms1)
    decreases fuel, s, 2
  {
    n, ms1 := SimSeq(w, code, c, s.ss, entry, b, ms, st, fuel);
  }

  lemma {:induction false} SimSeq(w: World, code: Code, c: Ctx, ss: seq<Stmt>, entry: Option<string>, b: Builder,
                                  ms: Machine, st: State, fuel: nat)
    returns (n: nat, ms1: Machine)
    requires CanSimSeq(code, c, ss, entry, b, ms, st)
    ensures var (o, st1) := EvalSeq(w, c.g, c.ret, ss, entry, st, fuel);
            Reaches(w, code, c, b, EmitSeq(c, ss, b), o, st1, ms, fuel, n, ms1)
    decreases fuel, ss, 0
  {
    hide Grown, Counted, Keeps, Agrees, Within, Steps, FreshLabels, EmitS, EvalS;
    if ss == [] {
      n, ms1 := SimNothing(w, code, c, b, ms);
    } else {
      var b1 := EmitS(c, ss[0], b);
      var b2 := EmitSeq(c, ss[1..], b1);
      HeadFresh(b, ss);
      GrowsS(c, ss[0], b);
      StillFresh(b, b1, b.nbb, Labels(ss[0], true), LabelsSeq(ss[1..], true));
      GrowsSeq(c, ss[1..], b1);
      if entry.Some? && entry.value !in Labels(ss[0], false) {
        n, ms1 := SimSeq(w, code, c, ss[1..], entry, b1, ms, st, fuel);
        var (o, st1) := EvalSeq(w, c.g, c.ret, ss, entry, st, fuel);
        KeepsRefl(c, b, ms);
        StepsZero(w, code, ms);
        Before(w, code, c, b, b1, b2, o, st1, ms, 0, ms, fuel, fuel, n, ms1);
      } else {
        WithinOf(b1, b2, b1.nbb, LabelsSeq(ss[1..], true), code);
        var (o, st1) := EvalS(w, c.g, c.ret, ss[0], entry, st, fuel);
        var n1, msA := SimS(w, code, c, ss[0], entry, b, ms, st, fuel);
        if o.Normal? {
          var (o2, st2) := EvalSeq(w, c.g, c.ret, ss[1..], None, st1, fuel);
          var n2, msB := SimSeq(w, code, c, ss[1..], None, b1, msA, st1, fuel);
          n, ms1 := n1 + n2, msB;
          Before(w, code, c, b, b1, b2, o2, st2, ms, n1, msA, fuel, fuel, n2, msB);
        } else {
          n, ms1 := n1, msA;
        }
      }
    }
  }

  lemma HeadFresh(b: Builder, ss: seq<Stmt>)
    requires ss != [] && FreshLabels(b, LabelsSeq(ss, true))
    ensures FreshLabels(b, Labels(ss[0], true)) && FreshLabels(b, LabelsSeq(ss[1..], true))
  {
  }

  // while and loop

  ghost function Top(b: Builder): BB { Anon(b.nbb) }

  ghost function Out(s: Stmt, b: Builder): BB
    requires s.While? || s.Loop?
  {
    if s.While? then Anon(b.nbb + 2) else Anon(b.nbb + 1)
  }

  /** The builder at the start of the body. */
  ghost function BodyStart(c: Ctx, s: Stmt, b: Builder): Builder
    requires (s.While? && TypeE(c.g, s.cond).Some?) || s.Loop?
  {
    if s.While? then WhileHead(c, s, b).0 else LoopHead(c, b)
  }

  ghost function BodyEnd(c: Ctx, s: Stmt, b: Builder): Builder
    requires (s.While? || s.Loop?) && Accepted(c, s)
  {
    EmitS(InLoop(c, Top(b), Out(s, b)), s.body, BodyStart(c, s, b))
  }

  /** The builder states of a loop, and that they are prefixes of the final code. */
  lemma LoopShape(code: Code, c: Ctx, s: Stmt, b: Builder)
    requires (s.While? || s.Loop?) && Accepted(c, s) && DistinctLabels(s) && FreshLabels(b, Labels(s, true)) && Ready(b)
    requires Within(EmitS(c, s, b).blocks, code)
    ensures EmitS(c, s, b) == Place(Append(BodyEnd(c, s, b), Br(Top(b))), c.fn, Out(s, b))
    ensures var b3, b4 := BodyStart(c, s, b), BodyEnd(c, s, b);
            && Grows(b, b3, b.nbb, {}) && Grows(b3, b4, b3.nbb, Labels(s.body, true)) &&
               FreshLabels(b3, Labels(s.body, true))
            && Out(s, b) !in b4.blocks
            && Within(Append(b4, Br(Top(b))).blocks, code) && Within(b4.blocks, code) && Within(b3.blocks, code)
  {
    hide Grown, Counted, Within, FreshLabels, WhileHead, LoopHead, EmitS, BodyEnd;
    BodyEndIs(c, s, b);
    var b3, b4 := BodyStart(c, s, b), BodyEnd(c, s, b);
    if s.While? {
      GrowsWhileHead(c, s, b);
    } else {
      GrowsLoopHead(c, b);
    }
    LoopUnfold(c, s, b);
    GrowsTail(c, s.body, Top(b), Out(s, b), b, b3);
    StillFresh(b, b3, b.nbb, {}, Labels(s.body, true));
    WithinTurn(b4, Br(Top(b)), EmitS(c, s, b), Out(s, b), code);
    WithinOf(b4, EmitS(c, s, b), b.nbb, Labels(s.body, true), code);
    WithinOf(b3, b4, b3.nbb, Labels(s.body, true), code);
  }

  lemma LoopUnfold(c: Ctx, s: Stmt, b: Builder)
    requires (s.While? || s.Loop?) && Accepted(c, s)
    ensures EmitS(c, s, b) == Place(Append(BodyEnd(c, s, b), Br(Top(b))), c.fn, Out(s, b))
  {
  }

  lemma {:induction false} SimLoop(w: World, code: Code, c: Ctx, s: Stmt, entry: Option<string>, b: Builder,
                                   ms: Machine, st: State, fuel: nat)
    returns (n: nat, ms1: Machine)
    requires (s.While? || s.Loop?) && CanSim(code, c, s, entry, b, ms, st)
    ensures var (o, st1) := EvalS(w, c.g, c.ret, s, entry, st, fuel);
            Reaches(w, code, c, b, EmitS(c, s, b), o, st1, ms, fuel, n, ms1)
    decreases fuel, s, 2
  {
    hide Grown, Counted, Keeps, Agrees, Within, Steps, FreshLabels, EmitS, WhileHead, LoopHead;
    LoopShape(code, c, s, b);
    if entry.None? {
      var (o, st1) := Repeat(w, c.g, c.ret, s, None, st, fuel);
      LoopEnter(w, code, c, s, b, ms, st);
      var msT := Enter(ms, Top(b));
      var n1;
      n1, ms1 := SimRepeat(w, code, c, s, None, b, msT, st, fuel);
      n := 1 + n1;
      Before(w, code, c, b, b, EmitS(c, s, b), o, st1, ms, 1, msT, fuel, fuel, n1, ms1);
    } else {
      n, ms1 := SimRepeat(w, code, c, s, entry, b, ms, st, fuel);
    }
  }

  /** The branch from before the loop to its top. */
  lemma LoopEnter(w: World, code: Code, c: Ctx, s: Stmt, b: Builder, ms: Machine, st: State)
    requires (s.While? || s.Loop?) && Accepted(c, s) && Ready(b) && Within(BodyStart(c, s, b).blocks, code)
    requires At(ms, b) && Agrees(c.g, st, ms)
    ensures var ms1 := Enter(ms, Top(b));
            Steps(w, code, ms, 1) == ms1 && AtTop(ms1, Top(b)) && Agrees(c.g, st, ms1) && Keeps(c, b, ms, ms1)
  {
    hide Grown, Counted, Within, Agrees, Keeps, EmitR;
    NotYet(b, b.nbb);
    var b1 := if s.While? then Place(Append(NewBB(b, 3), Br(Top(b))), c.fn, Top(b)) else LoopHead(c, b);
    if s.While? {
      GrowsWhileHead(c, s, b);
      GrowsWhileTest(c, b);
      WhileTestWithin(code, c, s, b);
    }
    WithinTurn(b, Br(Top(b)), b1, Top(b), code);
    DoJump(w, code, c, b, Br(Top(b)), Top(b), ms, st);
  }

  /** The states inside the head of a while. */
  lemma WhileTestWithin(code: Code, c: Ctx, s: Stmt, b: Builder)
    requires s.While? && TypeE(c.g, s.cond).Some? && Ready(b) && Within(WhileHead(c, s, b).0.blocks, code)
    ensures var b1 := Place(Append(NewBB(b, 3), Br(Top(b))), c.fn, Top(b));
            var (b2, v) := EmitR(c, s.cond, b1);
            && Grows(b, b1, b.nbb, {}) && Grows(b1, b2, b1.nbb, {})
            && Within(b1.blocks, code) && Within(b2.blocks, code)
            && Within(Append(b2, CondBr(v, Anon(b.nbb + 1), Anon(b.nbb + 2))).blocks, code)
            && Anon(b.nbb) !in b.blocks && Anon(b.nbb + 1) !in b2.blocks
  {
    hide Grown, Counted, Within, EmitR;
    var b1 := Place(Append(NewBB(b, 3), Br(Top(b))), c.fn, Top(b));
    var (b2, v) := EmitR(c, s.cond, b1);
    var turn := CondBr(v, Anon(b.nbb + 1), Anon(b.nbb + 2));
    NotYet(b, b.nbb);
    GrowsWhileTest(c, b);
    GrowsR(c, s.cond, b1);
    StillFree(b1, b2, b1.nbb, {}, b.nbb + 1);
    GrowsTurn(b2, turn, c.fn, Anon(b.nbb + 1), b.nbb, {});
    WithinTurn(b2, turn, WhileHead(c, s, b).0, Anon(b.nbb + 1), code);
    WithinOf(b2, WhileHead(c, s, b).0, b.nbb, {}, code);
    WithinOf(b1, b2, b1.nbb, {}, code);
  }

  /** From the top of the loop to its body or its exit. */
  lemma SimTest(w: World, code: Code, c: Ctx, s: Stmt, b: Builder, ms: Machine, st: State)
    returns (n: nat, ms1: Machine)
    requires (s.While? || s.Loop?) && Accepted(c, s) && Ready(b) && CtxOk(c, b) && StoreOk(c.g, st.store)
    requires Within(BodyStart(c, s, b).blocks, code) && AtTop(ms, Top(b)) && Agrees(c.g, st, ms)
    ensures var (v, st1) := if s.While? then EvalE(w, c.g, s.cond, st) else (1, st);
            ms1 == Steps(w, code, ms, n) && Agrees(c.g, st1, ms1) && Keeps(c, b, ms, ms1) &&
            (if v != 0 then At(ms1, BodyStart(c, s, b)) else AtTop(ms1, Out(s, b)))
  {
    hide Grown, Counted, Within, Agrees, Keeps, EmitR, EvalE, Exec, Steps;
    NotYet(b, b.nbb);
    if s.Loop? {
      n, ms1 := 0, ms;
      StepsZero(w, code, ms);
      KeepsRefl(c, b, ms);
      AtPlaced(ms, Append(NewBB(b, 2), Br(Top(b))), c.fn, Top(b));
    } else {
      var b1 := Place(Append(NewBB(b, 3), Br(Top(b))), c.fn, Top(b));
      var (b2, v) := EmitR(c, s.cond, b1);
      var (x, st1) := EvalE(w, c.g, s.cond, st);
      var turn := CondBr(v, Anon(b.nbb + 1), Anon(b.nbb + 2));
      WhileTestWithin(code, c, s, b);
      AtPlaced(ms, Append(NewBB(b, 3), Br(Top(b))), c.fn, Top(b));
      var n1, msA := SimR(w, code, c, s.cond, b1, ms, st);
      var target := if x != 0 then Anon(b.nbb + 1) else Anon(b.nbb + 2);
      ExecCond(w, turn, x, b2.nreg, msA);
      DoJump(w, code, c, b2, turn, target, msA, st1);
      n, ms1 := n1 + 1, Enter(msA, target);
      StepsAdd(w, code, ms, n1, 1);
      KeepsTrans(c, b1, b2, ms, msA, ms1);
      KeepsLess(c, b, b1, ms, ms1);
      if x != 0 {
        AtPlaced(ms1, Append(b2, turn), c.fn, Anon(b.nbb + 1));
      }
    }
  }

  lemma ExecCond(w: World, i: Instr, x: int, nreg: nat, ms: Machine)
    requires i.CondBr? && InRange(BOOL, x) && Holds(i.cond, nreg, Encode(BOOL, x), ms)
    ensures Exec(w, i, ms) == Enter(ms, if x != 0 then i.yes else i.no)
  {
    EncodeBool();
  }

  ghost predicate CanRepeat(code: Code, c: Ctx, s: Stmt, entry: Option<string>, b: Builder, ms: Machine, st: State) {
    && (s.While? || s.Loop?) && Accepted(c, s) && EntryOk(s, entry) && DistinctLabels(s) &&
       FreshLabels(b, Labels(s, true))
    && Ready(b) && CtxOk(c, b) && StoreOk(c.g, st.store) && Agrees(c.g, st, ms) && Within(EmitS(c, s, b).blocks, code)
    && AtTop(ms, if entry.Some? then Named(entry.value) else Top(b))
  }

  /** The iterations: from the top, or from a label in the body. */
  lemma {:induction false} SimRepeat(w: World, code: Code, c: Ctx, s: Stmt, entry: Option<string>, b: Builder,
                                     ms: Machine, st: State, fuel: nat)
    returns (n: nat, ms1: Machine)
    requires CanRepeat(code, c, s, entry, b, ms, st)
    ensures var (o, st1) := Repeat(w, c.g, c.ret, s, entry, st, fuel);
            Reaches(w, code, c, b, EmitS(c, s, b), o, st1, ms, fuel, n, ms1)
    decreases fuel, s, 1
  {
    hide Grown, Counted, Keeps, Agrees, Within, Steps, FreshLabels, EmitS, EvalS, EvalE, WhileHead, LoopHead,
         BodyStart, BodyEnd, Repeat;
    LoopShape(code, c, s, b);
    RepeatUnfold(w, c, s, entry, st, fuel);
    var b3, b4 := BodyStart(c, s, b), BodyEnd(c, s, b);
    var (v, st1) := if entry.None? && s.While? then EvalE(w, c.g, s.cond, st) else (1, st);
    var n1, msA := 0, ms;
    if entry.None? {
      n1, msA := SimTest(w, code, c, s, b, ms, st);
    } else {
      StepsZero(w, code, ms);
      KeepsRefl(c, b, ms);
    }
    if v == 0 {
      n, ms1 := n1, msA;
      AtPlaced(ms1, Append(b4, Br(Top(b))), c.fn, Out(s, b));
    } else {
      var (o, st2) := Repeat(w, c.g, c.ret, s, entry, st, fuel);
      var n2, msB := SimIteration(w, code, c, s, entry, b, msA, st1, fuel);
      n, ms1 := n1 + n2, msB;
      Before(w, code, c, b, b, EmitS(c, s, b), o, st2, ms, n1, msA, fuel, fuel, n2, msB);
    }
  }

  /** What follows the test. */
  ghost function Iteration(w: World, g: seq<Ty>, ret: Option<Ty>, s: Stmt, entry: Option<string>, st: State,
                           fuel: nat): (Outcome, State)
    requires s.While? || s.Loop?
    requires WellTyped(g, ret, s) && StoreOk(g, st.store) && EntryOk(s, entry)
  {
    var (o, st2) := EvalS(w, g, ret, s.body, entry, st, fuel);
    if o.Normal? || o.Continued? then
      if fuel == 0 then (Timeout, st2) else Repeat(w, g, ret, s, None, st2, fuel - 1)
    else if o.Broke? then (Normal, st2)
    else (o, st2)
  }

  lemma RepeatUnfold(w: World, c: Ctx, s: Stmt, entry: Option<string>, st: State, fuel: nat)
    requires (s.While? || s.Loop?) && WellTyped(c.g, c.ret, s) && StoreOk(c.g, st.store) && EntryOk(s, entry)
    ensures var (v, st1) := if entry.None? && s.While? then EvalE(w, c.g, s.cond, st) else (1, st);
            Repeat(w, c.g, c.ret, s, entry, st, fuel) ==
            if v == 0 then (Normal, st1) else Iteration(w, c.g, c.ret, s, entry, st1, fuel)
  {
  }

  /** One pass through the body, and what follows it. */
  lemma {:induction false} SimIteration(w: World, code: Code, c: Ctx, s: Stmt, entry: Option<string>, b: Builder,
                                        ms: Machine, st: State, fuel: nat)
    returns (n: nat, ms1: Machine)
    requires (s.While? || s.Loop?) && Accepted(c, s) && EntryOk(s, entry) && DistinctLabels(s) &&
             FreshLabels(b, Labels(s, true))
    requires Ready(b) && CtxOk(c, b) && StoreOk(c.g, st.store) && Agrees(c.g, st, ms) &&
             Within(EmitS(c, s, b).blocks, code)
    requires if entry.Some? then AtTop(ms, Named(entry.value)) else At(ms, BodyStart(c, s, b))
    ensures var (o, st1) := Iteration(w, c.g, c.ret, s, entry, st, fuel);
            Reaches(w, code, c, b, EmitS(c, s, b), o, st1, ms, fuel, n, ms1)
    decreases fuel, s, 0
  {
    hide Grown, Counted, Keeps, Agrees, Within, Steps, FreshLabels, EmitS, EvalS, EvalE, WhileHead, LoopHead,
         BodyStart, BodyEnd, Repeat;
    LoopShape(code, c, s, b);
    BodyEndIs(c, s, b);
    var b3, b4 := BodyStart(c, s, b), BodyEnd(c, s, b);
    var c1 := InLoop(c, Top(b), Out(s, b));
    var (o, st2) := EvalS(w, c.g, c.ret, s.body, entry, st, fuel);
    var n2, msB := SimS(w, code, c1, s.body, entry, b3, ms, st, fuel);
    LoopOf(w, code, c, c1, b3, b4, o, st2, ms, fuel, n2, msB);
    if o.Normal? || o.Continued? {
      var n3, msC := SimBack(w, code, c, Top(b), b3, b4, o, ms, st2, n2, msB);
      KeepsLess(c, b, b3, ms, msC);
      n, ms1 := n3, msC;
      if fuel > 0 {
        var (o3, st3) := Repeat(w, c.g, c.ret, s, None, st2, fuel - 1);
        var n4, msD := SimRepeat(w, code, c, s, None, b, msC, st2, fuel - 1);
        n, ms1 := n3 + n4, msD;
        Before(w, code, c, b, b, EmitS(c, s, b), o3, st3, ms, n3, msC, fuel - 1, fuel, n4, msD);
      }
    } else {
      n, ms1 := n2, msB;
      if !o.Wild? {
        KeepsLess(c, b, b3, ms, ms1);
      }
      if o.Broke? {
        AtPlaced(ms1, Append(b4, Br(Top(b))), c.fn, Out(s, b));
      }
    }
  }

  lemma BodyEndIs(c: Ctx, s: Stmt, b: Builder)
    requires (s.While? || s.Loop?) && Accepted(c, s)
    ensures BodyEnd(c, s, b) == EmitS(InLoop(c, Top(b), Out(s, b)), s.body, BodyStart(c, s, b))
  {
  }

  /** A run in the body, seen from outside the loop: other transfers pass through. */
  lemma LoopOf(w: World, code: Code, c: Ctx, c1: Ctx, b: Builder, b1: Builder, o: Outcome, st1: State, ms: Machine,
               fuel: nat, n: nat, ms1: Machine)
    requires c1 == c.(loops := c1.loops) && c1.loops != [] && Reaches(w, code, c1, b, b1, o, st1, ms, fuel, n, ms1)
    ensures ms1 == Steps(w, code, ms, n) && (!o.Wild? ==> Agrees(c.g, st1, ms1) && Keeps(c, b, ms, ms1))
    ensures o.Normal? ==> At(ms1, b1)
    ensures o.Continued? ==> AtTop(ms1, c1.loops[|c1.loops| - 1].cond) && n >= 1
    ensures o.Broke? ==> AtTop(ms1, c1.loops[|c1.loops| - 1].out) && n >= 1
    ensures !(o.Normal? || o.Broke? || o.Continued?) ==> Reaches(w, code, c, b, b1, o, st1, ms, fuel, n, ms1)
  {
  }

  /** The end of an iteration: by the branch back, or already back by `continue`. */
  lemma SimBack(w: World, code: Code, c: Ctx, top: BB, b: Builder, b1: Builder, o: Outcome, msA: Machine, st: State,
                n2: nat, msB: Machine)
    returns (n: nat, ms1: Machine)
    requires Ready(b1) && Within(Append(b1, Br(top)).blocks, code) && b.nreg <= b1.nreg && b.nslot <= b1.nslot
    requires msB == Steps(w, code, msA, n2) && Agrees(c.g, st, msB) && Keeps(c, b, msA, msB)
    requires (o.Normal? && At(msB, b1)) || (o.Continued? && AtTop(msB, top) && n2 >= 1)
    ensures n >= 1 && ms1 == Steps(w, code, msA, n) && AtTop(ms1, top) && Agrees(c.g, st, ms1) && Keeps(c, b, msA, ms1)
  {
    hide Agrees, Keeps, Within, Steps, Exec;
    if o.Normal? {
      ExecBr(w, top, msB);
      DoJump(w, code, c, b1, Br(top), top, msB, st);
      n, ms1 := n2 + 1, Enter(msB, top);
      StepsAdd(w, code, msA, n2, 1);
      KeepsTrans(c, b, b1, msA, msB, ms1);
    } else {
      n, ms1 := n2, msB;
    }
  }

  // if-chains

  /** Like Reaches, for one arm of an if-chain, which ends with a branch to `out`. */
  ghost predicate ReachesArm(w: World, code: Code, c: Ctx, b: Builder, out: BB, o: Outcome, st1: State, ms: Machine,
                             fuel: nat, n: nat, ms1: Machine) {
    && ms1 == Steps(w, code, ms, n)
    && (o.Wild? || ((if o.Normal? then AtTop(ms1, out) else Lands(c, b, o, ms1)) && Agrees(c.g, st1, ms1) &&
                    Keeps(c, b, ms, ms1)))
    && (o.Broke? || o.Continued? || o.Jump? ==> n >= 1)
    && (o.Timeout? ==> n >= fuel)
  }

  lemma {:induction false} SimArm(w: World, code: Code, c: Ctx, s: Stmt, entry: Option<string>, bb: BB, out: BB,
                                  b: Builder, ms: Machine, st: State, fuel: nat)
    returns (n: nat, ms1: Machine)
    requires Accepted(c, s) && EntryOk(s, entry) && DistinctLabels(s) && FreshLabels(b, Labels(s, true))
    requires Ready(b) && CtxOk(c, b) && StoreOk(c.g, st.store) && Agrees(c.g, st, ms)
    requires bb.Anon? && bb.id < b.nbb && bb !in b.blocks && Within(EmitArm(c, s, bb, out, b).blocks, code)
    requires AtTop(ms, if entry.Some? then Named(entry.value) else bb)
    ensures var (o, st1) := EvalS(w, c.g, c.ret, s, entry, st, fuel);
            ReachesArm(w, code, c, b, out, o, st1, ms, fuel, n, ms1)
    decreases fuel, s, 4
  {
    hide Grown, Counted, Keeps, Agrees, Within, Steps, FreshLabels, EmitS, EvalS, Exec;
    var b1 := Place(b, c.fn, bb);
    var b2 := EmitS(c, s, b1);
    GrowsPlace(b, c.fn, bb, bb.id, {});
    StillFresh(b, b1, bb.id, {}, Labels(s, true));
    GrowsS(c, s, b1);
    GrowsAppend(b2, Br(out), b2.nbb, {});
    WithinOf(b2, Append(b2, Br(out)), b2.nbb, {}, code);
    if entry.None? {
      AtPlaced(ms, b, c.fn, bb);
    }
    var (o, st1) := EvalS(w, c.g, c.ret, s, entry, st, fuel);
    n, ms1 := SimS(w, code, c, s, entry, b1, ms, st, fuel);
    if o.Normal? {
      ExecBr(w, out, ms1);
      DoJump(w, code, c, b2, Br(out), out, ms1, st1);
      StepsAdd(w, code, ms, n, 1);
      KeepsTrans(c, b1, b2, ms, ms1, Enter(ms1, out));
      n, ms1 := n + 1, Enter(ms1, out);
    }
    if !o.Wild? {
      KeepsLess(c, b, b1, ms, ms1);
    }
  }

  /** The arm of body k. */
  lemma {:induction false} SimArms(w: World, code: Code, c: Ctx, bodies: seq<Stmt>, k: nat, entry: Option<string>,
                                   base: nat, hi: nat, out: BB,
                                   b: Builder, ms: Machine, st: State, fuel: nat)
    returns (n: nat, ms1: Machine)
    requires (forall i | 0 <= i < |bodies| :: Accepted(c, bodies[i])) && k < |bodies| && EntryOk(bodies[k], entry)
    requires DistinctLabelsSeq(bodies) && FreshLabels(b, LabelsSeq(bodies, true))
    requires Ready(b) && CtxOk(c, b) && StoreOk(c.g, st.store) && Agrees(c.g, st, ms)
    requires base + 2 * |bodies| <= hi <= b.nbb && ArmsFree(b, base, |bodies|, hi)
    requires Within(EmitBodies(c, bodies, base, out, b).blocks, code)
    requires AtTop(ms, if entry.Some? then Named(entry.value) else Anon(base + 2 * k + 1))
    ensures var (o, st1) := EvalS(w, c.g, c.ret, bodies[k], entry, st, fuel);
            ReachesArm(w, code, c, b, out, o, st1, ms, fuel, n, ms1)
    decreases fuel, bodies, 0
  {
    hide Grown, Counted, Keeps, Agrees, Within, Steps, FreshLabels, EmitArm, EvalS, Labels, DistinctLabels,
         ReachesArm, EmitS;
    var b1 := EmitArm(c, bodies[0], Anon(base + 1), out, b);
    HeadFresh(b, bodies);
    assert Anon(base + 2 * 0 + 1) !in b.blocks;
    GrowsArm(c, bodies[0], Anon(base + 1), out, base, b);
    StillFresh(b, b1, base, Labels(bodies[0], true), LabelsSeq(bodies[1..], true));
    ArmsFreeTail(b, b1, base, |bodies|, hi);
    GrowsBodies(c, bodies[1..], base + 2, out, base, hi, b1);
    if k == 0 {
      WithinOf(b1, EmitBodies(c, bodies, base, out, b), base, LabelsSeq(bodies[1..], true), code);
      n, ms1 := SimArm(w, code, c, bodies[0], entry, Anon(base + 1), out, b, ms, st, fuel);
    } else {
      assert bodies[1..][k - 1] == bodies[k];
      var (o, st1) := EvalS(w, c.g, c.ret, bodies[k], entry, st, fuel);
      n, ms1 := SimArms(w, code, c, bodies[1..], k - 1, entry, base + 2, hi, out, b1, ms, st, fuel);
      ArmOf(w, code, c, b, b1, out, o, st1, ms, fuel, n, ms1);
    }
  }

  /** The conditions: to the chosen body, or past the last one. */
  lemma {:induction false} SimConds(w: World, code: Code, c: Ctx, conds: seq<Expr>, base: nat, hi: nat, b: Builder,
                                    ms: Machine, st: State)
    returns (n: nat, ms1: Machine)
    requires forall i | 0 <= i < |conds| :: TypeE(c.g, conds[i]) == Some(BOOL)
    requires Ready(b) && CtxOk(c, b) && StoreOk(c.g, st.store) && Agrees(c.g, st, ms) && At(ms, b)
    requires base + 2 * |conds| <= hi <= b.nbb && (forall k: nat | base <= k < hi :: Anon(k) !in b.blocks)
    requires Within(EmitConds(c, conds, base, b).blocks, code)
    ensures var (k, st1) := Choose(w, c.g, conds, st);
            ms1 == Steps(w, code, ms, n) && Agrees(c.g, st1, ms1) && Keeps(c, b, ms, ms1) &&
            if k < |conds| then AtTop(ms1, Anon(base + 2 * k + 1)) else At(ms1, EmitConds(c, conds, base, b))
    decreases conds
  {
    hide Grown, Counted, Keeps, Agrees, Within, Steps, EmitR, EvalE, Exec, EmitConds;
    if conds == [] {
      CondsNil(c, conds, base, b);
      n, ms1 := SimNothing(w, code, c, b, ms);
    } else {
      var (x, st1) := EvalE(w, c.g, conds[0], st);
      var (b1, v) := EmitR(c, conds[0], b);
      var b2 := CondsTurn(c, conds, base, b);
      CondsWithin(code, c, conds, base, hi, b);
      var n1, msB := SimCond(w, code, c, conds, base, b, ms, st);
      n, ms1 := n1, msB;
      if x == 0 {
        var n2, msC := SimConds(w, code, c, conds[1..], base + 2, hi, b2, msB, st1);
        n, ms1 := n1 + n2, msC;
        StepsAdd(w, code, ms, n1, n2);
        KeepsTrans(c, b, b2, ms, msB, ms1);
      }
    }
  }

  lemma CondsNil(c: Ctx, conds: seq<Expr>, base: nat, b: Builder)
    requires conds == []
    ensures EmitConds(c, conds, base, b) == b
  {
  }

  /** The builder after the first condition. */
  ghost function CondsTurn(c: Ctx, conds: seq<Expr>, base: nat, b: Builder): Builder
    requires conds != [] && TypeE(c.g, conds[0]).Some?
  {
    var (b1, v) := EmitR(c, conds[0], b);
    Place(Append(b1, CondBr(v, Anon(base + 1), Anon(base))), c.fn, Anon(base))
  }

  lemma CondsWithin(code: Code, c: Ctx, conds: seq<Expr>, base: nat, hi: nat, b: Builder)
    requires conds != [] && (forall i | 0 <= i < |conds| :: TypeE(c.g, conds[i]) == Some(BOOL)) && Ready(b)
    requires base + 2 * |conds| <= hi <= b.nbb && (forall k: nat | base <= k < hi :: Anon(k) !in b.blocks)
    requires Within(EmitConds(c, conds, base, b).blocks, code)
    ensures var (b1, v) := EmitR(c, conds[0], b);
            var b2 := CondsTurn(c, conds, base, b);
            && Grows(b, b1, b.nbb, {}) && Grows(b1, b2, base, {}) && b2.nbb >= b.nbb
            && EmitConds(c, conds, base, b) == EmitConds(c, conds[1..], base + 2, b2)
            && Within(b2.blocks, code) && Within(b1.blocks, code)
            && Within(Append(b1, CondBr(v, Anon(base + 1), Anon(base))).blocks, code)
            && Anon(base) !in b1.blocks && (forall k: nat | base + 2 <= k < hi :: Anon(k) !in b2.blocks)
  {
    hide Grown, Counted, Within, EmitR;
    var (b1, v) := EmitR(c, conds[0], b);
    var turn := CondBr(v, Anon(base + 1), Anon(base));
    var b2 := CondsTurn(c, conds, base, b);
    GrowsR(c, conds[0], b);
    forall k: nat | base <= k < hi
      ensures Anon(k) !in b1.blocks
    {
      StillFree(b, b1, b.nbb, {}, k);
    }
    GrowsTurn(b1, turn, c.fn, Anon(base), base, {});
    GrowsConds(c, conds[1..], base + 2, base, hi, b2);
    WithinOf(b2, EmitConds(c, conds, base, b), base, {}, code);
    WithinTurn(b1, turn, b2, Anon(base), code);
    WithinOf(b1, b2, base, {}, code);
  }

  /** One condition: to its body, or to the block of the next one. */
  lemma SimCond(w: World, code: Code, c: Ctx, conds: seq<Expr>, base: nat, b: Builder, ms: Machine, st: State)
    returns (n: nat, ms1: Machine)
    requires conds != [] && TypeE(c.g, conds[0]) == Some(BOOL)
    requires Ready(b) && CtxOk(c, b) && StoreOk(c.g, st.store) && Agrees(c.g, st, ms) && At(ms, b)
    requires var (b1, v) := EmitR(c, conds[0], b);
             && Within(b1.blocks, code) && Within(Append(b1, CondBr(v, Anon(base + 1), Anon(base))).blocks, code)
             && Anon(base) !in b1.blocks && Grows(b, b1, b.nbb, {})
    ensures var (x, st1) := EvalE(w, c.g, conds[0], st);
            ms1 == Steps(w, code, ms, n) && Agrees(c.g, st1, ms1) && Keeps(c, b, ms, ms1) &&
            if x != 0 then AtTop(ms1, Anon(base + 1)) else At(ms1, CondsTurn(c, conds, base, b))
  {
    hide Grown, Counted, Keeps, Agrees, Within, Steps, EmitR, EvalE, Exec;
    var (b1, v) := EmitR(c, conds[0], b);
    var (x, st1) := EvalE(w, c.g, conds[0], st);
    var turn := CondBr(v, Anon(base + 1), Anon(base));
    var n1, msA := SimR(w, code, c, conds[0], b, ms, st);
    var target := if x != 0 then Anon(base + 1) else Anon(base);
    ExecCond(w, turn, x, b1.nreg, msA);
    DoJump(w, code, c, b1, turn, target, msA, st1);
    n, ms1 := n1 + 1, Enter(msA, target);
    StepsAdd(w, code, ms, n1, 1);
    KeepsTrans(c, b, b1, ms, msA, ms1);
    if x == 0 {
      AtPlaced(ms1, Append(b1, turn), c.fn, Anon(base));
    }
  }

  /** The builder states of an if-chain are prefixes of the final code. */
  lemma IfWithin(code: Code, c: Ctx, s: Stmt, b: Builder)
    requires s.If? && Accepted(c, s) && Ready(b) && DistinctLabels(s) && FreshLabels(b, Labels(s, true))
    requires Within(EmitS(c, s, b).blocks, code)
    ensures Within(IfConds(c, s, b).blocks, code) && Within(IfTurn(c, s, b).blocks, code)
    ensures Within(IfArms(c, s, b).blocks, code) && Within(IfElse(c, s, b).blocks, code)
    ensures b.nreg <= IfConds(c, s, b).nreg <= IfTurn(c, s, b).nreg <= IfArms(c, s, b).nreg
    ensures b.nslot <= IfConds(c, s, b).nslot <= IfTurn(c, s, b).nslot <= IfArms(c, s, b).nslot
    ensures forall k: nat | b.nbb <= k < b.nbb + IfBlocks(s) :: Anon(k) !in NewBB(b, IfBlocks(s)).blocks
  {
    hide Grown, Within, EmitS, EmitConds, EmitBodies, EmitArm;
    GrowsIf(c, s, b);
    WithinOf(IfElse(c, s, b), EmitS(c, s, b), b.nbb, {}, code);
    WithinOf(IfArms(c, s, b), IfElse(c, s, b), b.nbb, Labels(s, true), code);
    WithinOf(IfTurn(c, s, b), IfArms(c, s, b), b.nbb, LabelsSeq(s.bodies, true), code);
    WithinOf(IfConds(c, s, b), IfTurn(c, s, b), b.nbb, {}, code);
  }

  lemma {:induction false} SimIf(w: World, code: Code, c: Ctx, s: Stmt, entry: Option<string>, b: Builder,
                                 ms: Machine, st: State, fuel: nat)
    returns (n: nat, ms1: Machine)
    requires s.If? && CanSim(code, c, s, entry, b, ms, st)
    ensures var (o, st1) := EvalS(w, c.g, c.ret, s, entry, st, fuel);
            Reaches(w, code, c, b, EmitS(c, s, b), o, st1, ms, fuel, n, ms1)
    decreases fuel, s, 2
  {
    hide Grown, Counted, Keeps, Agrees, Within, Steps, FreshLabels, EmitS, EmitConds, EmitBodies, EmitArm, Choose,
         WellTyped, LoopStackOk, EvalS;
    var out, base, hi := Anon(b.nbb), b.nbb + 1, b.nbb + IfBlocks(s);
    GrowsIf(c, s, b);
    IfWithin(code, c, s, b);
    AcceptedIf(c, s);
    var (k, st1) := if entry.None? then Choose(w, c.g, s.conds, st) else (Holder(s.bodies, entry.value), st);
    var n1, msA := 0, ms;
    if entry.None? {
      n1, msA := SimConds(w, code, c, s.conds, base, hi, NewBB(b, IfBlocks(s)), ms, st);
      KeepsLess(c, b, NewBB(b, IfBlocks(s)), ms, msA);
    } else {
      StepsZero(w, code, ms);
      KeepsRefl(c, b, ms);
    }
    var (o, st2) := EvalS(w, c.g, c.ret, s, entry, st, fuel);
    IfEval(w, c, s, entry, st, fuel);
    var n2, msB;
    if k < |s.bodies| {
      n2, msB := SimArms(w, code, c, s.bodies, k, entry, base, hi, out, IfTurn(c, s, b), msA, st1, fuel);
      ArmOf(w, code, c, b, IfTurn(c, s, b), out, o, st2, msA, fuel, n2, msB);
    } else {
      n2, msB := SimElse(w, code, c, s, entry, b, msA, st1, fuel);
    }
    n, ms1 := n1 + n2, msB;
    IfDone(w, code, c, b, IfElse(c, s, b), out, o, st2, ms, n1, msA, fuel, n2, msB);
  }

  lemma IfEval(w: World, c: Ctx, s: Stmt, entry: Option<string>, st: State, fuel: nat)
    requires s.If? && Accepted(c, s) && StoreOk(c.g, st.store) && EntryOk(s, entry)
    ensures var (k, st1) := if entry.None? then Choose(w, c.g, s.conds, st) else (Holder(s.bodies, entry.value), st);
            && (k < |s.bodies| ==> EntryOk(s.bodies[k], entry) && WellTyped(c.g, c.ret, s.bodies[k]) &&
                                   EvalS(w, c.g, c.ret, s, entry, st, fuel) ==
                                   EvalS(w, c.g, c.ret, s.bodies[k], entry, st1, fuel))
            && (k >= |s.bodies| && s.remain.Some? ==>
                  EntryOk(s.remain.value, entry) && WellTyped(c.g, c.ret, s.remain.value) &&
                  EvalS(w, c.g, c.ret, s, entry, st, fuel) == EvalS(w, c.g, c.ret, s.remain.value, entry, st1, fuel))
            && (k >= |s.bodies| && s.remain.None? ==>
                entry.None? && EvalS(w, c.g, c.ret, s, entry, st, fuel) == (Normal, st1))
  {
  }

  lemma ArmOf(w: World, code: Code, c: Ctx, b: Builder, b1: Builder, out: BB, o: Outcome, st1: State, ms: Machine,
              fuel: nat, n: nat, ms1: Machine)
    requires ReachesArm(w, code, c, b1, out, o, st1, ms, fuel, n, ms1) && b.nreg <= b1.nreg && b.nslot <= b1.nslot
    ensures ReachesArm(w, code, c, b, out, o, st1, ms, fuel, n, ms1)
  {
  }

  /** The end of the chain: `out` is placed last. */
  lemma IfDone(w: World, code: Code, c: Ctx, b: Builder, b4: Builder, out: BB, o: Outcome, st2: State,
               ms: Machine, n1: nat, msA: Machine, fuel: nat, n2: nat, msB: Machine)
    requires msA == Steps(w, code, ms, n1) && Keeps(c, b, ms, msA)
    requires ReachesArm(w, code, c, b, out, o, st2, msA, fuel, n2, msB) && out !in b4.blocks
    ensures Reaches(w, code, c, b, Place(b4, c.fn, out), o, st2, ms, fuel, n1 + n2, msB)
  {
    hide Keeps, Agrees;
    StepsAdd(w, code, ms, n1, n2);
    if !o.Wild? {
      KeepsTrans(c, b, b, ms, msA, msB);
    }
    if o.Normal? {
      AtPlaced(msB, b4, c.fn, out);
    }
  }

  /** No condition holds (or the entry label is in the final else). */
  lemma {:induction false} SimElse(w: World, code: Code, c: Ctx, s: Stmt, entry: Option<string>, b: Builder,
                                   ms: Machine, st: State, fuel: nat)
    returns (n: nat, ms1: Machine)
    requires s.If? && Accepted(c, s) && DistinctLabels(s) && FreshLabels(b, Labels(s, true)) && Ready(b) && CtxOk(c, b)
    requires StoreOk(c.g, st.store) && Agrees(c.g, st, ms) && Within(EmitS(c, s, b).blocks, code)
    requires if entry.None? then At(ms, IfConds(c, s, b)) else AtTop(ms, Named(entry.value)) && s.remain.Some?
    requires s.remain.Some? ==> EntryOk(s.remain.value, entry)
    ensures var (o, st1) := if s.remain.Some? then EvalS(w, c.g, c.ret, s.remain.value, entry, st, fuel)
            else (Normal, st);
            ReachesArm(w, code, c, b, Anon(b.nbb), o, st1, ms, fuel, n, ms1)
    decreases fuel, s, 1
  {
    hide Grown, Counted, Keeps, Agrees, Within, Steps, FreshLabels, EmitS, EmitConds, EmitBodies, EmitArm, EvalS,
         Exec, Accepted, WellTyped, LoopStackOk;
    GrowsIf(c, s, b);
    IfWithin(code, c, s, b);
    AcceptedIf(c, s);
    var out := Anon(b.nbb);
    var target := if s.remain.Some? then ElseBlock(b.nbb + 1, |s.conds|) else out;
    var n0, ms0 := 0, ms;
    if entry.None? {
      ExecBr(w, target, ms);
      DoJump(w, code, c, IfConds(c, s, b), Br(target), target, ms, st);
      n0, ms0 := 1, Enter(ms, target);
      KeepsLess(c, b, IfConds(c, s, b), ms, ms0);
    } else {
      StepsZero(w, code, ms);
      KeepsRefl(c, b, ms);
    }
    if s.remain.None? {
      n, ms1 := n0, ms0;
    } else {
      var (o, st1) := EvalS(w, c.g, c.ret, s.remain.value, entry, st, fuel);
      var n1, msB := SimArm(w, code, c, s.remain.value, entry, target, out, IfArms(c, s, b), ms0, st, fuel);
      n, ms1 := n0 + n1, msB;
      ArmOf(w, code, c, b, IfArms(c, s, b), out, o, st1, ms0, fuel, n1, msB);
      StepsAdd(w, code, ms, n0, n1);
      if !o.Wild? {
        KeepsTrans(c, b, b, ms, ms0, msB);
      }
    }
  }

  // for

  /** The builder states of a `for`: after the bounds, after the store to the index slot, at
      the start of the body and at its end. */
  ghost function ForBounds(c: Ctx, s: Stmt, b: Builder): (Builder, Value, Value)
    requires s.For? && ForSourceOk(c.g, s.x, s.src)
  {
    EmitBounds(c, s.src, NewBB(b, 3))
  }

  ghost function ForEnd(c: Ctx, s: Stmt, b: Builder): Builder
    requires s.For? && Accepted(c, s)
  {
    EmitS(InLoop(c, Anon(b.nbb), Anon(b.nbb + 2)), s.body, EmitForHead(c, s, b))
  }

  lemma ForUnfold(c: Ctx, s: Stmt, b: Builder)
    requires s.For? && Accepted(c, s)
    ensures EmitS(c, s, b) == Place(Append(ForEnd(c, s, b), Br(Anon(b.nbb))), c.fn, Anon(b.nbb + 2))
    ensures ForEnd(c, s, b) == EmitS(InLoop(c, Anon(b.nbb), Anon(b.nbb + 2)), s.body, EmitForHead(c, s, b))
    ensures EmitForHead(c, s, b) == EmitForTest(c, s, b.nbb, ForBounds(c, s, b).0.nslot, ForBounds(c, s, b).2,
                                                ForSlot(c, s, b))
    ensures var (b1, first, _) := ForBounds(c, s, b);
            ForSlot(c, s, b) == Append(b1, Store(first, b1.nslot)).(nslot := b1.nslot + 1)
  {
    hide TypeE, EmitR, EmitForTest, EmitBounds, WellTyped, LoopStackOk;
    AcceptedFor(c, s, Anon(b.nbb), Anon(b.nbb + 2));
  }

  lemma BodyTyped(c: Ctx, s: Stmt, cond: BB, out: BB)
    requires s.For? && Accepted(InLoop(c, cond, out), s.body)
    ensures WellTyped(c.g, c.ret, s.body)
  {
  }

  lemma RangeTyped(c: Ctx, s: Stmt)
    requires s.For? && ForSourceOk(c.g, s.x, s.src)
    ensures s.x < |c.g| && (s.src.Range? ==> TypeE(c.g, s.src.lo).Some? && TypeE(c.g, s.src.hi).Some?)
  {
  }

  lemma ForShape(code: Code, c: Ctx, s: Stmt, b: Builder)
    requires s.For? && Accepted(c, s) && DistinctLabels(s) && FreshLabels(b, Labels(s, true)) && Ready(b)
    requires Within(EmitS(c, s, b).blocks, code)
    ensures var b1, bs, bh, be := ForBounds(c, s, b).0, ForSlot(c, s, b), EmitForHead(c, s, b), ForEnd(c, s, b);
            && Grows(NewBB(b, 3), b1, b.nbb + 3, {}) && Grows(b1, bs, b.nbb, {}) && Grows(bs, bh, b.nbb, {})
            && Grows(bh, be, bh.nbb, Labels(s.body, true)) && FreshLabels(bh, Labels(s.body, true))
            && bh.nslot > b1.nslot
            && Within(b1.blocks, code) && Within(bs.blocks, code) && Within(bh.blocks, code) && Within(be.blocks, code)
            && Within(Append(be, Br(Anon(b.nbb))).blocks, code)
            && Anon(b.nbb + 2) !in be.blocks
            && (forall k: nat | b.nbb <= k < b.nbb + 3 :: Anon(k) !in bs.blocks) && bs.nbb >= b.nbb + 3
  {
    hide Grown, Counted, Within, FreshLabels, EmitS, EmitForHead, EmitForTest, EmitBounds, ForEnd, ForSlot, Accepted,
         Labels, DistinctLabels, ForSourceOk;
    AcceptedFor(c, s, Anon(b.nbb), Anon(b.nbb + 2));
    LoopLabels(s);
    RangeTyped(c, s);
    var (b1, first, last) := ForBounds(c, s, b);
    var bs, bh, be := ForSlot(c, s, b), EmitForHead(c, s, b), ForEnd(c, s, b);
    var ls := Labels(s.body, true);
    ForUnfold(c, s, b);
    GrowsNewBB(b, 3, b.nbb, {});
    GrowsBounds(c, s.src, NewBB(b, 3));
    GrowsSlot(b1, first, b.nbb);
    GrowsForSlot(c, s, b);
    GrowsForTest(c, s, b.nbb, b1.nslot, last, bs);
    GrowsForHead(c, s, b);
    GrowsTail(c, s.body, Anon(b.nbb), Anon(b.nbb + 2), b, bh);
    StillFresh(b, bh, b.nbb, {}, ls);
    WithinTurn(be, Br(Anon(b.nbb)), EmitS(c, s, b), Anon(b.nbb + 2), code);
    WithinOf(be, EmitS(c, s, b), b.nbb, ls, code);
    WithinOf(bh, be, bh.nbb, ls, code);
    WithinOf(bs, bh, b.nbb, {}, code);
    WithinOf(b1, bs, b.nbb, {}, code);
  }

  /** The machine is at the test with index i and end `end`. */
  ghost predicate AtTest(c: Ctx, s: Stmt, b: Builder, i: int, end: int, ms: Machine)
    requires s.For? && ForSourceOk(c.g, s.x, s.src)
  {
    var (b1, first, last) := ForBounds(c, s, b);
    var t := IndexType(c.g, s);
    && AtTop(ms, Anon(b.nbb)) && InRange(t, i) && InRange(t, end)
    && b1.nslot in ms.mem && ms.mem[b1.nslot] == Encode(t, i)
    && Holds(last, b1.nreg, Encode(t, end), ms)
    && (s.src.Array? ==> end == s.src.count)
  }

  lemma {:induction false} SimFor(w: World, code: Code, c: Ctx, s: Stmt, entry: Option<string>, b: Builder,
                                  ms: Machine, st: State, fuel: nat)
    returns (n: nat, ms1: Machine)
    requires s.For? && CanSim(code, c, s, entry, b, ms, st)
    ensures var (o, st1) := EvalS(w, c.g, c.ret, s, entry, st, fuel);
            Reaches(w, code, c, b, EmitS(c, s, b), o, st1, ms, fuel, n, ms1)
    decreases fuel, s, 2
  {
    hide Grown, Counted, Keeps, Agrees, Within, Steps, FreshLabels, EmitS, EvalFor, ForBounds;
    if entry.Some? {
      n, ms1 := 0, ms;
      StepsZero(w, code, ms);
    } else {
      var n1, msA, i, end, st1 := SimBounds(w, code, c, s, b, ms, st);
      var (o, st2) := EvalFor(w, c.g, c.ret, s, i, end, st1, fuel);
      assert EvalS(w, c.g, c.ret, s, entry, st, fuel) == (o, st2);
      var n2, msB := SimIter(w, code, c, s, i, end, b, msA, st1, fuel);
      n, ms1 := n1 + n2, msB;
      Before(w, code, c, b, ForBounds(c, s, b).0, EmitS(c, s, b), o, st2, ms, n1, msA, fuel, fuel, n2, msB);
    }
  }

  /** The bounds, the store to the index slot and the branch to the test. */
  lemma SimBounds(w: World, code: Code, c: Ctx, s: Stmt, b: Builder, ms: Machine, st: State)
    returns (n: nat, ms1: Machine, i: int, end: int, st1: State)
    requires s.For? && CanSim(code, c, s, None, b, ms, st)
    ensures ms1 == Steps(w, code, ms, n) && Agrees(c.g, st1, ms1) && Keeps(c, b, ms, ms1) &&
            AtTest(c, s, b, i, end, ms1)
    ensures StoreOk(c.g, st1.store) && b.nreg <= ForBounds(c, s, b).0.nreg && b.nslot <= ForBounds(c, s, b).0.nslot
    ensures s.src.Array? ==> i == 0 && end == s.src.count && st1 == st
    ensures s.src.Range? ==>
            var (x, sta) := EvalE(w, c.g, s.src.lo, st); i == x && (end, st1) == EvalE(w, c.g, s.src.hi, sta)
  {
    hide Grown, Counted, Keeps, Agrees, Within, Steps, FreshLabels, EmitS, Exec, EmitForTest, ForSlot, EmitForHead,
         ForEnd, EvalE, EmitR, Encode, Size, Labels, DistinctLabels, EmitBounds, EntryOk;
    var (b1, first, last) := ForBounds(c, s, b);
    var bs, t := ForSlot(c, s, b), IndexType(c.g, s);
    ForShape(code, c, s, b);
    ForUnfold(c, s, b);
    var n1, msA;
    n1, msA, i, end, st1 := SimBoundValues(w, code, c, s, NewBB(b, 3), ms, st);
    KeepsLess(c, b, NewBB(b, 3), ms, msA);
    DoStoreHidden(w, code, c, b1, first, b1.nslot, Encode(t, i), msA, st1);
    var msB := Exec(w, Store(first, b1.nslot), msA);
    StepsAdd(w, code, ms, n1, 1);
    KeepsTrans(c, b, b1, ms, msA, msB);
    HoldsOn(c, b1, last, Encode(t, end), msA, msB);
    ForTestStart(code, c, s, b);
    ExecBr(w, Anon(b.nbb), msB);
    DoJump(w, code, c, bs, Br(Anon(b.nbb)), Anon(b.nbb), msB, st1);
    n, ms1 := n1 + 1 + 1, Enter(msB, Anon(b.nbb));
    StepsAdd(w, code, ms, n1 + 1, 1);
    KeepsTrans(c, b, bs, ms, msB, ms1);
  }

  lemma SimBoundValues(w: World, code: Code, c: Ctx, s: Stmt, b: Builder, ms: Machine, st: State)
    returns (n: nat, ms1: Machine, i: int, end: int, st1: State)
    requires s.For? && ForSourceOk(c.g, s.x, s.src) && Ready(b) && CtxOk(c, b) && StoreOk(c.g, st.store)
    requires Within(EmitBounds(c, s.src, b).0.blocks, code) && At(ms, b) && Agrees(c.g, st, ms)
    ensures var (b1, first, last) := EmitBounds(c, s.src, b);
            var t := IndexType(c.g, s);
            && ms1 == Steps(w, code, ms, n) && At(ms1, b1) && Agrees(c.g, st1, ms1) && Keeps(c, b, ms, ms1)
            && StoreOk(c.g, st1.store) && InRange(t, i) && InRange(t, end)
            && Holds(first, b1.nreg, Encode(t, i), ms1) && Holds(last, b1.nreg, Encode(t, end), ms1)
    ensures s.src.Array? ==> i == 0 && end == s.src.count && st1 == st
    ensures s.src.Range? ==>
            var (x, sta) := EvalE(w, c.g, s.src.lo, st); i == x && (end, st1) == EvalE(w, c.g, s.src.hi, sta)
  {
    hide Grown, Counted, Keeps, Agrees, Within, Steps, EmitR, EvalE;
    if s.src.Array? {
      n, ms1 := SimNothing(w, code, c, b, ms);
      i, end, st1 := 0, s.src.count, st;
    } else {
      hide Encode;
      var lo, hi := s.src.lo, s.src.hi;
      var b1 := EmitR(c, lo, b).0;
      GrowsR(c, lo, b);
      GrowsR(c, hi, b1);
      WithinOf(b1, EmitR(c, hi, b1).0, b1.nbb, {}, code);
      var (x, sta) := EvalE(w, c.g, lo, st);
      var (y, stb) := EvalE(w, c.g, hi, sta);
      i, end, st1 := x, y, stb;
      var n1, msA := SimR(w, code, c, lo, b, ms, st);
      var n2, msB := SimR(w, code, c, hi, b1, msA, sta);
      HoldsOn(c, b1, EmitR(c, lo, b).1, Encode(IndexType(c.g, s), i), msA, msB);
      n, ms1 := n1 + n2, msB;
      ComputesThen(w, code, c, b, b1, EmitR(c, hi, b1).0, ms, sta, st1, n1, msA, n2, msB);
    }
  }

  // the test of a `for`, block by block

  ghost function TestTop(c: Ctx, id: nat, b: Builder): Builder {
    Place(Append(b, Br(Anon(id))), c.fn, Anon(id))
  }

  ghost function TestCmp(c: Ctx, s: Stmt, id: nat, idx: nat, last: Value, b: Builder): (Builder, Instr, Instr)
    requires s.For? && s.x < |c.g|
  {
    var b1 := TestTop(c, id, b);
    var b2 := Define(b1, Load(b1.nreg, idx)).0;
    var t := IndexType(c.g, s);
    var cmp := CmpI(b2.nreg, ForPred(s, t), Size(t), Reg(b1.nreg), last);
    (Define(b2, cmp).0, cmp, CondBr(Reg(b2.nreg), Anon(id + 1), Anon(id + 2)))
  }

  ghost function TestBody(c: Ctx, s: Stmt, id: nat, idx: nat, last: Value, b: Builder): Builder
    requires s.For? && s.x < |c.g|
  {
    var (b3, _, turn) := TestCmp(c, s, id, idx, last, b);
    Place(Append(b3, turn), c.fn, Anon(id + 1))
  }

  ghost function TestItem(c: Ctx, s: Stmt, id: nat, idx: nat, last: Value, b: Builder): (Builder, Value)
    requires s.For? && s.x < |c.g|
  {
    var i, b4 := Reg(TestTop(c, id, b).nreg), TestBody(c, s, id, idx, last, b);
    if s.src.Array? then Define(b4, LoadAt(b4.nreg, s.src.base, i)) else (b4, i)
  }

  lemma TestUnfold(c: Ctx, s: Stmt, id: nat, idx: nat, last: Value, b: Builder)
    requires s.For? && ForSourceOk(c.g, s.x, s.src)
    ensures ForCopy(c, s, id, idx, last, b) == Append(TestItem(c, s, id, idx, last, b).0,
                                                      Store(TestItem(c, s, id, idx, last, b).1, s.x))
    ensures var b6 := ForCopy(c, s, id, idx, last, b);
            var (b7, j) := Define(b6, Load(b6.nreg, idx));
            var (b8, next) := Define(b7, ArithI(b7.nreg, Add, Size(IndexType(c.g, s)), j, Const(1)));
            EmitForTest(c, s, id, idx, last, b) == Append(b8, Store(next, idx))
  {
  }

  ghost predicate TestFree(id: nat, b: Builder) {
    id + 2 < b.nbb && Anon(id) !in b.blocks && Anon(id + 1) !in b.blocks && Anon(id + 2) !in b.blocks
  }

  /** Everything up to the copy to the variable is a prefix of the final code. */
  lemma TestWithin(code: Code, c: Ctx, s: Stmt, id: nat, idx: nat, last: Value, b: Builder)
    requires s.For? && ForSourceOk(c.g, s.x, s.src) && Ready(b) && TestFree(id, b)
    requires Within(ForCopy(c, s, id, idx, last, b).blocks, code)
    ensures var b1 := TestTop(c, id, b);
            var (b3, cmp, turn) := TestCmp(c, s, id, idx, last, b);
            var b2 := Define(b1, Load(b1.nreg, idx)).0;
            var b4 := TestBody(c, s, id, idx, last, b);
            var b5 := TestItem(c, s, id, idx, last, b).0;
            && Grows(b, b1, id, {}) && Grows(b1, b2, id, {}) && Grows(b2, b3, id, {}) && Grows(b3, b4, id, {}) &&
               Grows(b4, b5, id, {})
            && Within(Append(b, Br(Anon(id))).blocks, code) && Within(b1.blocks, code) && Within(b2.blocks, code)
            && Within(b3.blocks, code) && Within(Append(b3, turn).blocks, code) && Within(b4.blocks, code) &&
               Within(b5.blocks, code)
            && Anon(id + 1) !in b3.blocks
  {
    hide Grown, Counted, Within, ForCopy;
    TestUnfold(c, s, id, idx, last, b);
    var b1 := TestTop(c, id, b);
    var (b3, cmp, turn) := TestCmp(c, s, id, idx, last, b);
    var b2 := Define(b1, Load(b1.nreg, idx)).0;
    var b4 := TestBody(c, s, id, idx, last, b);
    var (b5, item) := TestItem(c, s, id, idx, last, b);
    GrowsTurn(b, Br(Anon(id)), c.fn, Anon(id), id, {});
    GrowsDefine(b1, Load(b1.nreg, idx), id, {});
    GrowsDefine(b2, cmp, id, {});
    GrowsTurn(b3, turn, c.fn, Anon(id + 1), id, {});
    if s.src.Array? {
      GrowsDefine(b4, LoadAt(b4.nreg, s.src.base, Reg(b1.nreg)), id, {});
    } else {
      GrowsRefl(b4, id, {});
    }
    GrowsAppend(b5, Store(item, s.x), id, {});
    WithinOf(b5, Append(b5, Store(item, s.x)), id, {}, code);
    WithinOf(b4, b5, id, {}, code);
    WithinTurn(b3, turn, b4, Anon(id + 1), code);
    WithinOf(b3, b4, id, {}, code);
    WithinOf(b2, b3, id, {}, code);
    WithinOf(b1, b2, id, {}, code);
    WithinTurn(b, Br(Anon(id)), b1, Anon(id), code);
  }

  /** The same for one `for`, with the code of its whole head. */
  lemma ForTestStart(code: Code, c: Ctx, s: Stmt, b: Builder)
    requires s.For? && Accepted(c, s) && Ready(b) && Ready(ForSlot(c, s, b))
    requires (forall k: nat | b.nbb <= k < b.nbb + 3 :: Anon(k) !in ForSlot(c, s, b).blocks) &&
             ForSlot(c, s, b).nbb >= b.nbb + 3
    requires Within(EmitForHead(c, s, b).blocks, code)
    ensures var idx, last, bs := ForBounds(c, s, b).0.nslot, ForBounds(c, s, b).2, ForSlot(c, s, b);
            TestFree(b.nbb, bs) && Within(ForCopy(c, s, b.nbb, idx, last, bs).blocks, code) &&
            Ready(ForCopy(c, s, b.nbb, idx, last, bs)) &&
            Within(Append(bs, Br(Anon(b.nbb))).blocks, code)
  {
    hide Grown, Counted, Within, ForCopy, EmitForTest, EmitBounds, ForSlot, EmitForHead;
    var idx, last, bs := ForBounds(c, s, b).0.nslot, ForBounds(c, s, b).2, ForSlot(c, s, b);
    ForUnfold(c, s, b);
    GrowsForCopy(c, s, b.nbb, idx, last, bs);
    TestUnfold(c, s, b.nbb, idx, last, bs);
    GrowsForStep(IndexType(c.g, s), idx, ForCopy(c, s, b.nbb, idx, last, bs), b.nbb);
    WithinOf(ForCopy(c, s, b.nbb, idx, last, bs), EmitForHead(c, s, b), b.nbb, {}, code);
    TestWithin(code, c, s, b.nbb, idx, last, bs);
  }

  lemma ForPredIs(s: Stmt, g: seq<Ty>, i: int, end: int)
    requires s.For? && s.x < |g| && (s.src.Range? ==> IsInteger(g[s.x]))
    ensures var t := IndexType(g, s);
            InRange(t, i) && InRange(t, end) ==>
            (HoldsBits(ForPred(s, t), Size(t), Encode(t, i), Encode(t, end)) <==> ForGoes(s, i, end))
  {
    var t := IndexType(g, s);
    if InRange(t, i) && InRange(t, end) {
      var op := if s.src.Range? && s.src.inclusive then Le else Lt;
      CmpAgrees(t, op, i, end);
      CmpRowBySign(t);
      assert ForPred(s, t) == CmpPred(t, op);
    }
  }

  /** The test: on to the body block, or out. */
  lemma SimCheck(w: World, code: Code, c: Ctx, s: Stmt, i: int, end: int, b: Builder, ms: Machine, st: State)
    returns (n: nat, ms1: Machine)
    requires s.For? && Accepted(c, s) && DistinctLabels(s) && FreshLabels(b, Labels(s, true)) && Ready(b) && CtxOk(c, b)
    requires StoreOk(c.g, st.store) && Within(EmitS(c, s, b).blocks, code) && AtTest(c, s, b, i, end, ms) &&
             Agrees(c.g, st, ms)
    ensures var (b1, _, last) := ForBounds(c, s, b);
            var bs := ForSlot(c, s, b);
            var t := IndexType(c.g, s);
            && n >= 1 && ms1 == Steps(w, code, ms, n) && Agrees(c.g, st, ms1) && Keeps(c, bs, ms, ms1)
            && if ForGoes(s, i, end) then
                 At(ms1, TestBody(c, s, b.nbb, b1.nslot, last, bs)) &&
                 Holds(Reg(TestTop(c, b.nbb, bs).nreg), TestBody(c, s, b.nbb, b1.nslot, last, bs).nreg, Encode(t, i),
                       ms1)
               else AtTop(ms1, Anon(b.nbb + 2))
  {
    hide Grown, Counted, Keeps, Agrees, Within, Steps, FreshLabels, EmitS, Exec, EmitForTest, ForSlot, EmitForHead,
         ForEnd, ForBounds, ForCopy, Encode, Size, HoldsBits, ForPred;
    var (b1, first, last) := ForBounds(c, s, b);
    var bs, t, id, idx := ForSlot(c, s, b), IndexType(c.g, s), b.nbb, b1.nslot;
    ForShape(code, c, s, b);
    ForTestStart(code, c, s, b);
    TestWithin(code, c, s, id, idx, last, bs);
    var bt := TestTop(c, id, bs);
    var bl := Define(bt, Load(bt.nreg, idx)).0;
    var (bc, cmp, turn) := TestCmp(c, s, id, idx, last, bs);
    AtPlaced(ms, Append(bs, Br(Anon(id))), c.fn, Anon(id));
    ExecLoad(w, bt.nreg, idx, Encode(t, i), ms);
    DoDefine(w, code, c, bt, Load(bt.nreg, idx), Encode(t, i), ms, st);
    var msA := SetReg(ms, bt.nreg, Encode(t, i));
    HoldsOn(c, bt, last, Encode(t, end), ms, msA);
    ForPredIs(s, c.g, i, end);
    var goes := if ForGoes(s, i, end) then 1 else 0;
    ExecCmp(w, cmp, Encode(t, i), Encode(t, end), goes, msA);
    DoDefine(w, code, c, bl, cmp, goes, msA, st);
    var msB := SetReg(msA, bl.nreg, goes);
    StepsAdd(w, code, ms, 1, 1);
    KeepsTrans(c, bt, bl, ms, msA, msB);
    HoldsOn(c, bl, Reg(bt.nreg), Encode(t, i), msA, msB);
    var target := if ForGoes(s, i, end) then Anon(id + 1) else Anon(id + 2);
    ExecTurnBit(w, turn, goes, msB);
    DoJump(w, code, c, bc, turn, target, msB, st);
    n, ms1 := 3, Enter(msB, target);
    StepsAdd(w, code, ms, 2, 1);
    KeepsTrans(c, bt, bc, ms, msB, ms1);
    KeepsLess(c, bs, bt, ms, ms1);
    if ForGoes(s, i, end) {
      AtPlaced(ms1, Append(bc, turn), c.fn, Anon(id + 1));
    }
  }

  lemma ExecCmp(w: World, i: Instr, x: nat, y: nat, n: nat, ms: Machine)
    requires i.CmpI? && ms.Run? && Known(i.a, ms.regs) && Known(i.b, ms.regs)
    requires ValueOf(i.a, ms.regs) == x && ValueOf(i.b, ms.regs) == y &&
             n == (if HoldsBits(i.pred, i.m, x, y) then 1 else 0)
    ensures Exec(w, i, ms) == SetReg(ms, i.d, n)
  {
  }

  lemma ExecTurnBit(w: World, i: Instr, x: nat, ms: Machine)
    requires i.CondBr? && ms.Run? && Known(i.cond, ms.regs) && ValueOf(i.cond, ms.regs) == x && x < 2
    ensures Exec(w, i, ms) == Enter(ms, if x == 1 then i.yes else i.no)
  {
  }

  /** The copy to the variable. */
  lemma SimCopy(w: World, code: Code, c: Ctx, s: Stmt, i: int, id: nat, idx: nat, last: Value, b: Builder,
                ms: Machine, st: State) returns (n: nat, ms1: Machine)
    requires s.For? && ForSourceOk(c.g, s.x, s.src) && Ready(b) && TestFree(id, b) && |c.g| <= b.nslot
    requires StoreOk(c.g, st.store) && Agrees(c.g, st, ms) && InRange(IndexType(c.g, s), i)
    requires s.src.Array? ==> 0 <= i < s.src.count
    requires Within(ForCopy(c, s, id, idx, last, b).blocks, code) && At(ms, TestBody(c, s, id, idx, last, b))
    requires Holds(Reg(TestTop(c, id, b).nreg), TestBody(c, s, id, idx, last, b).nreg, Encode(IndexType(c.g, s), i), ms)
    ensures ms1 == Steps(w, code, ms, n) && At(ms1, ForCopy(c, s, id, idx, last, b)) &&
            Keeps(c, TestBody(c, s, id, idx, last, b), ms, ms1)
    ensures Agrees(c.g, st.(store := st.store[s.x := ItemAt(s, i, st.store)]), ms1)
  {
    hide Grown, Counted, Keeps, Agrees, Within, Steps, Exec, TestBody, TestTop, Encode, ForCopy;
    TestWithin(code, c, s, id, idx, last, b);
    TestUnfold(c, s, id, idx, last, b);
    var b4 := TestBody(c, s, id, idx, last, b);
    var (b5, item) := TestItem(c, s, id, idx, last, b);
    var val := ItemAt(s, i, st.store);
    var n1, msA := SimItem(w, code, c, s, i, id, idx, last, b, ms, st);
    DoStoreVar(w, code, c, b5, item, s.x, val, msA, st);
    n, ms1 := n1 + 1, Exec(w, Store(item, s.x), msA);
    StepsAdd(w, code, ms, n1, 1);
    KeepsTrans(c, b4, b5, ms, msA, ms1);
  }

  lemma SimItem(w: World, code: Code, c: Ctx, s: Stmt, i: int, id: nat, idx: nat, last: Value, b: Builder,
                ms: Machine, st: State) returns (n: nat, ms1: Machine)
    requires s.For? && ForSourceOk(c.g, s.x, s.src) && Ready(b) && TestFree(id, b)
    requires StoreOk(c.g, st.store) && Agrees(c.g, st, ms) && InRange(IndexType(c.g, s), i)
    requires s.src.Array? ==> 0 <= i < s.src.count
    requires Within(ForCopy(c, s, id, idx, last, b).blocks, code) && At(ms, TestBody(c, s, id, idx, last, b))
    requires Holds(Reg(TestTop(c, id, b).nreg), TestBody(c, s, id, idx, last, b).nreg, Encode(IndexType(c.g, s), i), ms)
    ensures var (b5, item) := TestItem(c, s, id, idx, last, b);
            && ms1 == Steps(w, code, ms, n) && At(ms1, b5) && Keeps(c, TestBody(c, s, id, idx, last, b), ms, ms1) &&
               Agrees(c.g, st, ms1)
            && Holds(item, b5.nreg, Encode(c.g[s.x], ItemAt(s, i, st.store)), ms1)
  {
    hide Grown, Counted, Keeps, Agrees, Within, Steps, Exec, TestBody, TestTop, ForCopy;
    TestWithin(code, c, s, id, idx, last, b);
    var b4 := TestBody(c, s, id, idx, last, b);
    var val := ItemAt(s, i, st.store);
    if s.src.Array? {
      var load := LoadAt(b4.nreg, s.src.base, Reg(TestTop(c, id, b).nreg));
      assert Encode(U64, i) == i;
      AgreesAt(c.g, st, ms, s.src.base + i);
      ExecLoadAt(w, load, i, Encode(c.g[s.x], val), ms);
      DoDefine(w, code, c, b4, load, Encode(c.g[s.x], val), ms, st);
      n, ms1 := 1, SetReg(ms, b4.nreg, Encode(c.g[s.x], val));
    } else {
      n, ms1 := SimNothing(w, code, c, b4, ms);
    }
  }

  lemma AgreesAt(g: seq<Ty>, st: State, ms: Machine, x: nat)
    requires Agrees(g, st, ms) && x < |g|
    ensures x in ms.mem && ms.mem[x] == Encode(g[x], st.store[x])
  {
  }

  lemma ExecLoadAt(w: World, i: Instr, k: nat, n: nat, ms: Machine)
    requires i.LoadAt? && ms.Run? && Known(i.idx, ms.regs) && ValueOf(i.idx, ms.regs) == k
    requires i.base + k in ms.mem && ms.mem[i.base + k] == n
    ensures Exec(w, i, ms) == SetReg(ms, i.d, n)
  {
  }

  /** The step of the index, before the body. */
  lemma SimStepIndex(w: World, code: Code, c: Ctx, t: Ty, i: int, idx: nat, b: Builder, ms: Machine, st: State)
    returns (n: nat, ms1: Machine)
    requires Ready(b) && At(ms, b) && Agrees(c.g, st, ms) && |c.g| <= idx < b.nslot && idx in ms.mem &&
             ms.mem[idx] == Encode(t, i)
    requires var (b7, j) := Define(b, Load(b.nreg, idx));
             var (b8, next) := Define(b7, ArithI(b7.nreg, Add, Size(t), j, Const(1)));
             Within(Append(b8, Store(next, idx)).blocks, code)
    ensures var (b7, j) := Define(b, Load(b.nreg, idx));
            var (b8, next) := Define(b7, ArithI(b7.nreg, Add, Size(t), j, Const(1)));
            && ms1 == Steps(w, code, ms, n) && At(ms1, Append(b8, Store(next, idx))) && Agrees(c.g, st, ms1)
            && Keeps(c, b.(nslot := idx), ms, ms1) && idx in ms1.mem && ms1.mem[idx] == Encode(t, Wrap(t, i + 1))
  {
    hide Grown, Counted, Keeps, Agrees, Within, Steps, Exec, Encode, Wrap, Size;
    var load := Load(b.nreg, idx);
    var (b7, j) := Define(b, load);
    var add := ArithI(b7.nreg, Add, Size(t), j, Const(1));
    var (b8, next) := Define(b7, add);
    GrowsDefine(b, load, b.nbb, {});
    GrowsDefine(b7, add, b7.nbb, {});
    GrowsAppend(b8, Store(next, idx), b8.nbb, {});
    WithinOf(b8, Append(b8, Store(next, idx)), b8.nbb, {}, code);
    WithinOf(b7, b8, b7.nbb, {}, code);
    ExecLoad(w, b.nreg, idx, Encode(t, i), ms);
    DoDefine(w, code, c, b, load, Encode(t, i), ms, st);
    var msA := SetReg(ms, b.nreg, Encode(t, i));
    EncodeOne(t);
    ArithAgrees(t, Add, i, 1);
    var bits := Encode(t, Wrap(t, i + 1));
    ExecArith(w, add, Encode(t, i), 1, bits, msA);
    DoDefine(w, code, c, b7, add, bits, msA, st);
    var msB := SetReg(msA, b7.nreg, bits);
    StepsAdd(w, code, ms, 1, 1);
    KeepsTrans(c, b, b7, ms, msA, msB);
    ReadySlot(b8, idx);
    DoStoreHidden(w, code, c, b8.(nslot := idx), next, idx, bits, msB, st);
    n, ms1 := 3, Exec(w, Store(next, idx), msB);
    StepsAdd(w, code, ms, 2, 1);
    KeepsLess(c, b.(nslot := idx), b, ms, msB);
    KeepsTrans(c, b.(nslot := idx), b8.(nslot := idx), ms, msB, ms1);
  }

  lemma ReadySlot(b: Builder, nslot: nat)
    requires Ready(b)
    ensures Ready(b.(nslot := nslot))
  {
  }

  lemma EncodeOne(t: Ty)
    ensures Encode(t, 1) == 1
  {
  }

  /** From the test to the start of the body, when the index goes on. */
  lemma SimHead(w: World, code: Code, c: Ctx, s: Stmt, i: int, end: int, b: Builder, ms: Machine, st: State)
    returns (n: nat, ms1: Machine)
    requires s.For? && Accepted(c, s) && DistinctLabels(s) && FreshLabels(b, Labels(s, true)) && Ready(b) && CtxOk(c, b)
    requires StoreOk(c.g, st.store) && Within(EmitS(c, s, b).blocks, code) && AtTest(c, s, b, i, end, ms) &&
             Agrees(c.g, st, ms)
    requires ForGoes(s, i, end)
    ensures var (b1, _, last) := ForBounds(c, s, b);
            var t := IndexType(c.g, s);
            && (s.src.Array? ==> 0 <= i < s.src.count)
            && n >= 1 && ms1 == Steps(w, code, ms, n) && At(ms1, EmitForHead(c, s, b)) && Keeps(c, b1, ms, ms1)
            && Agrees(c.g, st.(store := st.store[s.x := ItemAt(s, i, st.store)]), ms1)
            && b1.nslot in ms1.mem && ms1.mem[b1.nslot] == Encode(t, Wrap(t, i + 1))
  {
    hide Grown, Counted, Keeps, Agrees, Within, Steps, FreshLabels, EmitS, Exec, EmitForTest, ForSlot, EmitForHead,
         ForEnd, ForBounds, ForCopy, TestBody, TestTop, Encode, Wrap, Size;
    var (b1, first, last) := ForBounds(c, s, b);
    var bs, t, id, idx := ForSlot(c, s, b), IndexType(c.g, s), b.nbb, b1.nslot;
    ForShape(code, c, s, b);
    ForUnfold(c, s, b);
    ForTestStart(code, c, s, b);
    TestWithin(code, c, s, id, idx, last, bs);
    TestUnfold(c, s, id, idx, last, bs);
    var b4, b6 := TestBody(c, s, id, idx, last, bs), ForCopy(c, s, id, idx, last, bs);
    GrowsForCopy(c, s, id, idx, last, bs);
    var n1, msA := SimCheck(w, code, c, s, i, end, b, ms, st);
    var n2, msB := SimCopy(w, code, c, s, i, id, idx, last, bs, msA, st);
    StepsAdd(w, code, ms, n1, n2);
    KeepsTrans(c, bs, b4, ms, msA, msB);
    SlotKept(c, bs, idx, ms, msB);
    var st1 := st.(store := st.store[s.x := ItemAt(s, i, st.store)]);
    var n3, msC := SimStepIndex(w, code, c, t, i, idx, b6, msB, st1);
    n, ms1 := n1 + n2 + n3, msC;
    StepsAdd(w, code, ms, n1 + n2, n3);
    KeepsLess(c, b1, bs, ms, msB);
    KeepsTrans(c, b1, b6.(nslot := idx), ms, msB, msC);
  }

  lemma SlotKept(c: Ctx, b: Builder, k: nat, ms: Machine, ms1: Machine)
    requires Keeps(c, b, ms, ms1) && k in ms.mem && |c.g| <= k < b.nslot && !(c.ret.Some? && k == c.retslot)
    ensures k in ms1.mem && ms1.mem[k] == ms.mem[k]
  {
  }

  /** The iterations of a `for`, from the test. */
  lemma {:induction false} SimIter(w: World, code: Code, c: Ctx, s: Stmt, i: int, end: int, b: Builder, ms: Machine,
                                   st: State, fuel: nat)
    returns (n: nat, ms1: Machine)
    requires s.For? && Accepted(c, s) && DistinctLabels(s) && FreshLabels(b, Labels(s, true)) && Ready(b) && CtxOk(c, b)
    requires StoreOk(c.g, st.store) && Within(EmitS(c, s, b).blocks, code) && AtTest(c, s, b, i, end, ms) &&
             Agrees(c.g, st, ms)
    ensures var (o, st1) := EvalFor(w, c.g, c.ret, s, i, end, st, fuel);
            Reaches(w, code, c, ForBounds(c, s, b).0, EmitS(c, s, b), o, st1, ms, fuel, n, ms1)
    decreases fuel, s, 1
  {
    hide Grown, Counted, Keeps, Agrees, Within, Steps, FreshLabels, EmitS, Exec, EmitForTest, ForSlot, EmitForHead,
         ForEnd, ForBounds, ForCopy, TestBody, TestTop, Encode, EvalBody, EvalFor, Wrap, Size;
    var (b1, first, last) := ForBounds(c, s, b);
    var t, cond, out := IndexType(c.g, s), Anon(b.nbb), Anon(b.nbb + 2);
    var be := ForEnd(c, s, b);
    ForShape(code, c, s, b);
    ForUnfold(c, s, b);
    if !ForGoes(s, i, end) {
      n, ms1 := SimCheck(w, code, c, s, i, end, b, ms, st);
      ForStops(w, c, s, i, end, st, fuel);
      KeepsLess(c, b1, ForSlot(c, s, b), ms, ms1);
      AtPlaced(ms1, Append(be, Br(cond)), c.fn, out);
    } else {
      var n1, msA := SimHead(w, code, c, s, i, end, b, ms, st);
      HoldsOn(c, b1, last, Encode(t, end), ms, msA);
      var st1 := st.(store := st.store[s.x := ItemAt(s, i, st.store)]);
      var (o, st2) := ForAfter(w, c, s, i, end, st1, fuel);
      ForGoesOn(w, c, s, i, end, st, fuel);
      var n2, msB := SimForBody(w, code, c, s, i, end, b, msA, st1, fuel);
      n, ms1 := n1 + n2, msB;
      Before(w, code, c, b1, b1, EmitS(c, s, b), o, st2, ms, n1, msA, fuel, fuel, n2, msB);
    }
  }

  /** The body of iteration i and the iterations after it. */
  ghost function ForAfter(w: World, c: Ctx, s: Stmt, i: int, end: int, st1: State, fuel: nat): (Outcome, State)
    requires s.For? && WellTyped(c.g, c.ret, s) && StoreOk(c.g, st1.store)
    requires s.src.Array? ==> end == s.src.count
  {
    var (o, st2) := EvalBody(w, c.g, c.ret, s.body, None, st1, fuel);
    if o.Normal? || o.Continued? then
      if fuel == 0 then (Timeout, st2)
      else EvalFor(w, c.g, c.ret, s, Wrap(IndexType(c.g, s), i + 1), end, st2, fuel - 1)
    else if o.Broke? then (Normal, st2)
    else (o, st2)
  }

  lemma ForStops(w: World, c: Ctx, s: Stmt, i: int, end: int, st: State, fuel: nat)
    requires s.For? && WellTyped(c.g, c.ret, s) && StoreOk(c.g, st.store)
    requires InRange(IndexType(c.g, s), i) && (s.src.Array? ==> end == s.src.count) && !ForGoes(s, i, end)
    ensures EvalFor(w, c.g, c.ret, s, i, end, st, fuel) == (Normal, st)
  {
  }

  lemma ForGoesOn(w: World, c: Ctx, s: Stmt, i: int, end: int, st: State, fuel: nat)
    requires s.For? && WellTyped(c.g, c.ret, s) && StoreOk(c.g, st.store)
    requires InRange(IndexType(c.g, s), i) && (s.src.Array? ==> end == s.src.count) && ForGoes(s, i, end)
    ensures StoreOk(c.g, st.store[s.x := ItemAt(s, i, st.store)])
    ensures EvalFor(w, c.g, c.ret, s, i, end, st, fuel) ==
            ForAfter(w, c, s, i, end, st.(store := st.store[s.x := ItemAt(s, i, st.store)]), fuel)
  {
  }

  lemma {:induction false} SimForBody(w: World, code: Code, c: Ctx, s: Stmt, i: int, end: int, b: Builder,
                                      ms: Machine, st: State, fuel: nat)
    returns (n: nat, ms1: Machine)
    requires s.For? && Accepted(c, s) && DistinctLabels(s) && FreshLabels(b, Labels(s, true)) && Ready(b) && CtxOk(c, b)
    requires StoreOk(c.g, st.store) && Within(EmitS(c, s, b).blocks, code) && Agrees(c.g, st, ms)
    requires InRange(IndexType(c.g, s), end) && (s.src.Array? ==> end == s.src.count)
    requires var (b1, _, last) := ForBounds(c, s, b);
             var t := IndexType(c.g, s);
             At(ms, EmitForHead(c, s, b)) && Holds(last, b1.nreg, Encode(t, end), ms) &&
             b1.nslot in ms.mem && ms.mem[b1.nslot] == Encode(t, Wrap(t, i + 1))
    ensures var (o, st1) := ForAfter(w, c, s, i, end, st, fuel);
            Reaches(w, code, c, ForBounds(c, s, b).0, EmitS(c, s, b), o, st1, ms, fuel, n, ms1)
    decreases fuel, s, 0
  {
    hide Grown, Counted, Keeps, Agrees, Within, Steps, FreshLabels, EmitS, EmitForHead, ForBounds, Encode, EvalBody,
         EvalFor, Wrap, Labels, Accepted, DistinctLabels, ForSourceOk;
    AcceptedFor(c, s, Anon(b.nbb), Anon(b.nbb + 2));
    RangeTyped(c, s);
    BodyTyped(c, s, Anon(b.nbb), Anon(b.nbb + 2));
    var b1, t := ForBounds(c, s, b).0, IndexType(c.g, s);
    var (o, st2) := EvalBody(w, c.g, c.ret, s.body, None, st, fuel);
    n, ms1 := SimForOnce(w, code, c, s, i, end, b, ms, st, fuel);
    if (o.Normal? || o.Continued?) && fuel > 0 {
      var (o3, st3) := EvalFor(w, c.g, c.ret, s, Wrap(t, i + 1), end, st2, fuel - 1);
      var n3, msD := SimIter(w, code, c, s, Wrap(t, i + 1), end, b, ms1, st2, fuel - 1);
      Before(w, code, c, b1, b1, EmitS(c, s, b), o3, st3, ms, n, ms1, fuel - 1, fuel, n3, msD);
      n, ms1 := n + n3, msD;
    }
  }

  /** The body once, and the way back to the test if the loop goes on. */
  lemma {:induction false} SimForOnce(w: World, code: Code, c: Ctx, s: Stmt, i: int, end: int, b: Builder,
                                      ms: Machine, st: State, fuel: nat)
    returns (n: nat, ms1: Machine)
    requires s.For? && Accepted(c, s) && DistinctLabels(s) && FreshLabels(b, Labels(s, true)) && Ready(b) && CtxOk(c, b)
    requires StoreOk(c.g, st.store) && Within(EmitS(c, s, b).blocks, code) && Agrees(c.g, st, ms)
    requires InRange(IndexType(c.g, s), end) && (s.src.Array? ==> end == s.src.count)
    requires var (b1, _, last) := ForBounds(c, s, b);
             var t := IndexType(c.g, s);
             At(ms, EmitForHead(c, s, b)) && Holds(last, b1.nreg, Encode(t, end), ms) &&
             b1.nslot in ms.mem && ms.mem[b1.nslot] == Encode(t, Wrap(t, i + 1))
    ensures var (o, st1) := EvalBody(w, c.g, c.ret, s.body, None, st, fuel);
            var b1 := ForBounds(c, s, b).0;
            && StoreOk(c.g, st1.store)
            && if o.Normal? || o.Continued? then
                 && AtTest(c, s, b, Wrap(IndexType(c.g, s), i + 1), end, ms1)
                 && n >= 1 && ms1 == Steps(w, code, ms, n) && Agrees(c.g, st1, ms1) && Keeps(c, b1, ms, ms1)
               else
                 Reaches(w, code, c, b1, EmitS(c, s, b), if o.Broke? then Normal else o, st1, ms, fuel, n, ms1)
    decreases fuel, s, 0, 0
  {
    hide Grown, Counted, Keeps, Agrees, Within, Steps, FreshLabels, EmitS, Exec, EmitForTest, ForSlot, EmitForHead,
         ForEnd, ForBounds, Encode, EvalBody, EvalFor, Wrap, Size, Labels, Accepted, DistinctLabels, ForSourceOk;
    AcceptedFor(c, s, Anon(b.nbb), Anon(b.nbb + 2));
    LoopLabels(s);
    RangeTyped(c, s);
    BodyTyped(c, s, Anon(b.nbb), Anon(b.nbb + 2));
    var (b1, first, last) := ForBounds(c, s, b);
    var t, cond, out := IndexType(c.g, s), Anon(b.nbb), Anon(b.nbb + 2);
    var bh, be, c1 := EmitForHead(c, s, b), ForEnd(c, s, b), InLoop(c, cond, out);
    ForShape(code, c, s, b);
    ForUnfold(c, s, b);
    ForLabels(s);
    var (o, st2) := EvalBody(w, c.g, c.ret, s.body, None, st, fuel);
    n, ms1 := SimBody(w, code, c1, s.body, None, bh, ms, st, fuel);
    LoopOf(w, code, c, c1, bh, be, o, st2, ms, fuel, n, ms1);
    if o.Normal? || o.Continued? {
      n, ms1 := SimBack(w, code, c, cond, bh, be, o, ms, st2, n, ms1);
      SlotKept(c, bh, b1.nslot, ms, ms1);
      KeepsLess(c, b1, bh, ms, ms1);
      HoldsOn(c, b1, last, Encode(t, end), ms, ms1);
    } else if !o.Wild? {
      KeepsLess(c, b1, bh, ms, ms1);
      if o.Broke? {
        AtPlaced(ms1, Append(be, Br(cond)), c.fn, out);
      }
    }
  }

  lemma ForLabels(s: Stmt)
    requires s.For?
    ensures Labels(s, true) == Labels(s.body, true)
  {
  }

  /** A body with its own gotos: each re-entry is at a label of the body. */
  lemma {:induction false} SimBody(w: World, code: Code, c: Ctx, s: Stmt, entry: Option<string>, b: Builder,
                                   ms: Machine, st: State, fuel: nat)
    returns (n: nat, ms1: Machine)
    requires CanSim(code, c, s, entry, b, ms, st)
    ensures var (o, st1) := EvalBody(w, c.g, c.ret, s, entry, st, fuel);
            Reaches(w, code, c, b, EmitS(c, s, b), o, st1, ms, fuel, n, ms1)
    decreases fuel, s, 4
  {
    hide Grown, Counted, Keeps, Agrees, Within, Steps, FreshLabels, EmitS, EvalS;
    var (o, st1) := EvalS(w, c.g, c.ret, s, entry, st, fuel);
    n, ms1 := SimS(w, code, c, s, entry, b, ms, st, fuel);
    if o.Jump? && o.target in Labels(s, false) && fuel > 0 {
      var (o2, st2) := EvalBody(w, c.g, c.ret, s, Some(o.target), st1, fuel - 1);
      var n2, msB := SimBody(w, code, c, s, Some(o.target), b, ms1, st1, fuel - 1);
      Before(w, code, c, b, b, EmitS(c, s, b), o2, st2, ms, n, ms1, fuel - 1, fuel, n2, msB);
      n, ms1 := n + n2, msB;
    }
  }
}
