/** A compiled function does what its source does, in both directions. */
module Lowering {
  import opened IntTypes
  import opened Syntax
  import opened Source
  import opened Target
  import opened Emit
  import opened Frame
  import opened SimExpr
  import opened SimStmt
  import opened Structured

  /** The machine has stopped with the source's store and calls. */
  ghost predicate Leaves(g: seq<Ty>, st: State, ms: Machine) {
    && ms.Halt? && ms.trace == st.trace && |st.store| == |g|
    && (forall x | 0 <= x < |g| :: x in ms.mem && ms.mem[x] == Encode(g[x], st.store[x]))
  }

  /** And with its result. */
  ghost predicate StopsWith(g: seq<Ty>, ret: Option<Ty>, v: Option<int>, st: State, ms: Machine) {
    && Leaves(g, st, ms)
    && (ret.Some? <==> v.Some?)
    && ms.res == if v.Some? then Some(Encode(ret.value, v.value)) else None
  }

  /** The function is accepted and its code is part of the whole program's code; the machine
      is at its entry with the arguments in place. */
  ghost predicate CanStart(code: Code, c: Ctx, ret: Option<Ty>, body: Stmt, b: Builder, ms: Machine, st: State) {
    && WellTyped(c.g, ret, body) && LoopStackOk(body, c.loops != [])
    && DistinctLabels(body) && FreshLabels(b, Labels(body, true)) && Ready(b) && |c.g| <= b.nslot
    && Within(EmitFn(c, ret, body, b).blocks, code)
    && StoreOk(c.g, st.store) && Agrees(c.g, st, ms) && AtTop(ms, Anon(b.nbb + 1))
  }

  /** What a source outcome means for the machine.  A value-returning body that falls off its
      end loads the return slot: the machine stops there if nobody ever wrote the slot, and
      otherwise returns what is in it, with store and calls as the source left them. */
  ghost predicate Meets(g: seq<Ty>, ret: Option<Ty>, o: Outcome, st: State, ms: Machine) {
    match o
    case Returned(v) => StopsWith(g, ret, v, st, ms)
    case Normal => if ret.None? then StopsWith(g, ret, None, st, ms) else !ms.Run? && (ms.Halt? ==> Leaves(g, st, ms))
    case Timeout => ms.Run?
    case _ => true
  }

  /** The walk of a function's body, and the exit block it leads to. */
  ghost function ExitBlock(c: Ctx, ret: Option<Ty>, body: Stmt, b: Builder): Builder
    requires WellTyped(c.g, ret, body) && LoopStackOk(body, c.loops != [])
  {
    var c1 := FnCtx(c, ret, b);
    Place(Append(EmitS(c1, body, FnEntry(ret, b)), Br(c1.retbb)), c1.fn, c1.retbb)
  }

  /** Running the body: its end and its returns both lead to the exit block. */
  lemma {:induction false} BodyRuns(w: World, code: Code, c: Ctx, ret: Option<Ty>, body: Stmt, b: Builder,
                                    ms: Machine, st: State, fuel: nat)
    returns (n: nat, ms1: Machine)
    requires CanStart(code, c, ret, body, b, ms, st)
    ensures ms1 == Steps(w, code, ms, n)
    ensures var (o, st1) := EvalBody(w, c.g, ret, body, None, st, fuel);
            && (o.Timeout? ==> ms1.Run? && n >= fuel)
            && (o.Returned? || o.Normal? ==> AtTop(ms1, Anon(b.nbb)) && Agrees(c.g, st1, ms1))
            && (o.Returned? ==> (ret.Some? <==> o.v.Some?))
            && (o.Returned? && o.v.Some? ==> b.nslot in ms1.mem && ms1.mem[b.nslot] == Encode(ret.value, o.v.value))
  {
    hide Grown, Counted, Keeps, Agrees, Within, Steps, Exec, FreshLabels, EmitS, EvalBody, Labels, WellTyped,
         LoopStackOk;
    var c1, b0 := FnCtx(c, ret, b), FnEntry(ret, b);
    var b1 := EmitS(c1, body, b0);
    var (o, st1) := EvalBody(w, c.g, ret, body, None, st, fuel);
    FunctionWithin(code, c, ret, body, b);
    NotYet(b, b.nbb + 1);
    AtPlaced(ms, NewBB(b, 2), b.nfn, Anon(b.nbb + 1));
    n, ms1 := SimBody(w, code, c1, body, None, b0, ms, st, fuel);
    if o.Normal? {
      ExecBr(w, c1.retbb, ms1);
      DoJump(w, code, c1, b1, Br(c1.retbb), c1.retbb, ms1, st1);
      StepsAdd(w, code, ms, n, 1);
      n, ms1 := n + 1, Enter(ms1, c1.retbb);
    }
  }

  /** Forward: a run that finishes stops the machine as Meets says; a run that needs more fuel
      keeps the machine running. */
  lemma {:induction false} FunctionRuns(w: World, code: Code, c: Ctx, ret: Option<Ty>, body: Stmt, b: Builder,
                                        ms: Machine, st: State, fuel: nat)
    returns (n: nat, ms1: Machine)
    requires CanStart(code, c, ret, body, b, ms, st)
    ensures ms1 == Steps(w, code, ms, n)
    ensures var (o, st1) := EvalBody(w, c.g, ret, body, None, st, fuel);
            Meets(c.g, ret, o, st1, ms1) && (o.Timeout? ==> n >= fuel)
  {
    hide Grown, Counted, Agrees, Within, Steps, EmitS, EvalBody, WellTyped, LoopStackOk, Meets, FreshLabels, Labels;
    var (o, st1) := EvalBody(w, c.g, ret, body, None, st, fuel);
    n, ms1 := BodyRuns(w, code, c, ret, body, b, ms, st, fuel);
    if o.Returned? || o.Normal? {
      var c1, b1 := FnCtx(c, ret, b), EmitS(FnCtx(c, ret, b), body, FnEntry(ret, b));
      FunctionWithin(code, c, ret, body, b);
      AtPlaced(ms1, Append(b1, Br(c1.retbb)), c1.fn, c1.retbb);
      var n2, msH := ExitMeets(w, code, c1, ExitBlock(c, ret, body, b), o, ms1, st1);
      StepsAdd(w, code, ms, n, n2);
      n, ms1 := n + n2, msH;
    } else {
      OtherMeets(c.g, ret, o, st1, ms1);
    }
  }

  lemma OtherMeets(g: seq<Ty>, ret: Option<Ty>, o: Outcome, st: State, ms: Machine)
    requires !o.Returned? && !o.Normal? && (o.Timeout? ==> ms.Run?)
    ensures Meets(g, ret, o, st, ms)
  {
  }

  /** From the exit block on. */
  lemma ExitMeets(w: World, code: Code, c: Ctx, b: Builder, o: Outcome, ms: Machine, st: State)
    returns (n: nat, ms1: Machine)
    requires o.Returned? || o.Normal?
    requires Ready(b) && At(ms, b) && Agrees(c.g, st, ms) && Within(FinalReturn(c, b).blocks, code)
    requires o.Returned? ==> (c.ret.Some? <==> o.v.Some?)
    requires o.Returned? && o.v.Some? ==> c.retslot in ms.mem && ms.mem[c.retslot] == Encode(c.ret.value, o.v.value)
    ensures ms1 == Steps(w, code, ms, n) && Meets(c.g, c.ret, o, st, ms1)
  {
    hide Grown, Counted, Agrees, Within, Steps, Exec, StopsWith, Leaves;
    if o.Returned? {
      n, ms1 := SimExit(w, code, c, b, o.v, ms, st);
    } else if c.ret.None? {
      n, ms1 := SimExit(w, code, c, b, None, ms, st);
    } else {
      n, ms1 := FallOff(w, code, c, b, ms, st);
    }
  }

  /** Nothing was returned: the slot may hold anything, or nothing. */
  lemma FallOff(w: World, code: Code, c: Ctx, b: Builder, ms: Machine, st: State) returns (n: nat, ms1: Machine)
    requires c.ret.Some? && Ready(b) && At(ms, b) && Agrees(c.g, st, ms) && Within(FinalReturn(c, b).blocks, code)
    ensures ms1 == Steps(w, code, ms, n) && !ms1.Run? && (ms1.Halt? ==> Leaves(c.g, st, ms1))
    ensures ms1.Halt? <==> c.retslot in ms.mem
    ensures ms1.Halt? ==> ms1.res == Some(ms.mem[c.retslot])
  {
    var load := Load(b.nreg, c.retslot);
    var b1 := Define(b, load).0;
    GrowsDefine(b, load, 0, {});
    GrowsAppend(b1, RetI(Reg(b.nreg)), 0, {});
    WithinOf(b1, Append(b1, RetI(Reg(b.nreg))), 0, {}, code);
    if c.retslot in ms.mem {
      var bits := ms.mem[c.retslot];
      DoDefine(w, code, c, b, load, bits, ms, st);
      var msA := SetReg(ms, b.nreg, bits);
      Fetch(w, code, b1, RetI(Reg(b.nreg)), msA);
      n, ms1 := 2, Exec(w, RetI(Reg(b.nreg)), msA);
      StepsAdd(w, code, ms, 1, 1);
    } else {
      Fetch(w, code, b, load, ms);
      n, ms1 := 1, Exec(w, load, ms);
    }
  }

  lemma FunctionWithin(code: Code, c: Ctx, ret: Option<Ty>, body: Stmt, b: Builder)
    requires WellTyped(c.g, ret, body) && LoopStackOk(body, c.loops != [])
    requires DistinctLabels(body) && FreshLabels(b, Labels(body, true)) && Ready(b) && |c.g| <= b.nslot
    requires Within(EmitFn(c, ret, body, b).blocks, code)
    ensures var c1, b0 := FnCtx(c, ret, b), FnEntry(ret, b);
            var b1 := EmitS(c1, body, b0);
            && Ready(b0) && FreshLabels(b0, Labels(body, true)) && Accepted(c1, body) && CtxOk(c1, b0)
            && Ready(b1) && Within(b1.blocks, code) && Within(Append(b1, Br(c1.retbb)).blocks, code)
            && Within(EmitExit(c1, b1).blocks, code) && c1.retbb !in b1.blocks
            && Ready(Place(Append(b1, Br(c1.retbb)), c1.fn, c1.retbb))
  {
    hide Grown, Counted, Within, FreshLabels, EmitS, EmitExit, Labels, WellTyped, LoopStackOk;
    GrowsFn(c, ret, body, b);
    var c1, b0 := FnCtx(c, ret, b), FnEntry(ret, b);
    var b1 := EmitS(c1, body, b0);
    WithinOf(b1, EmitExit(c1, b1), b.nbb, {}, code);
    ExitTurn(code, c1, b1);
  }

  lemma ExitTurn(code: Code, c: Ctx, b: Builder)
    requires Ready(b) && c.retbb.Anon? && c.retbb.id < b.nbb && c.retbb !in b.blocks &&
             Within(EmitExit(c, b).blocks, code)
    ensures Within(Append(b, Br(c.retbb)).blocks, code) && Ready(Place(Append(b, Br(c.retbb)), c.fn, c.retbb))
  {
    hide Grown, Counted, Within;
    var b1 := Place(Append(b, Br(c.retbb)), c.fn, c.retbb);
    GrowsTurn(b, Br(c.retbb), c.fn, c.retbb, c.retbb.id, {});
    if c.ret.None? {
      GrowsAppend(b1, RetVoid, 0, {});
      WithinOf(b1, EmitExit(c, b), 0, {}, code);
    } else {
      var (b2, v) := Define(b1, Load(b1.nreg, c.retslot));
      GrowsDefine(b1, Load(b1.nreg, c.retslot), 0, {});
      GrowsAppend(b2, RetI(v), 0, {});
      WithinOf(b2, EmitExit(c, b), 0, {}, code);
      WithinOf(b1, b2, 0, {}, code);
    }
    WithinTurn(b, Br(c.retbb), b1, c.retbb, code);
  }

  /** The exit block: load the return slot, return it. */
  lemma SimExit(w: World, code: Code, c: Ctx, b: Builder, v: Option<int>, ms: Machine, st: State)
    returns (n: nat, ms1: Machine)
    requires Ready(b) && At(ms, b) && Agrees(c.g, st, ms) && (c.ret.Some? <==> v.Some?)
    requires v.Some? ==> c.retslot in ms.mem && ms.mem[c.retslot] == Encode(c.ret.value, v.value)
    requires Within(if c.ret.None? then Append(b, RetVoid).blocks
                    else Append(Define(b, Load(b.nreg, c.retslot)).0, RetI(Reg(b.nreg))).blocks, code)
    ensures ms1 == Steps(w, code, ms, n) && StopsWith(c.g, c.ret, v, st, ms1)
  {
    if c.ret.None? {
      Fetch(w, code, b, RetVoid, ms);
      n, ms1 := 1, Exec(w, RetVoid, ms);
    } else {
      var load := Load(b.nreg, c.retslot);
      var b1 := Define(b, load).0;
      var bits := Encode(c.ret.value, v.value);
      GrowsDefine(b, load, 0, {});
      GrowsAppend(b1, RetI(Reg(b.nreg)), 0, {});
      WithinOf(b1, Append(b1, RetI(Reg(b.nreg))), 0, {}, code);
      DoDefine(w, code, c, b, load, bits, ms, st);
      var msA := SetReg(ms, b.nreg, bits);
      Fetch(w, code, b1, RetI(Reg(b.nreg)), msA);
      n, ms1 := 2, Exec(w, RetI(Reg(b.nreg)), msA);
      StepsAdd(w, code, ms, 1, 1);
    }
  }

  /** Backward: if the machine is no longer running, the source run is finished too (a closed
      body has no other outcome), and the machine stopped as Meets says. */
  lemma FunctionReflects(w: World, code: Code, c: Ctx, ret: Option<Ty>, body: Stmt, b: Builder, ms: Machine,
                         st: State, n: nat)
    requires CanStart(code, c, ret, body, b, ms, st) && Closed(body)
    requires !Steps(w, code, ms, n).Run?
    ensures var (o, st1) := EvalBody(w, c.g, ret, body, None, st, n + 1);
            (o.Returned? || o.Normal?) && Meets(c.g, ret, o, st1, Steps(w, code, ms, n))
  {
    hide EvalBody, Steps, CanStart, StopsWith, Leaves;
    StartStore(code, c, ret, body, b, ms, st);
    ClosedOutcome(w, c.g, ret, body, st, n + 1);
    var k, ms1 := FunctionRuns(w, code, c, ret, body, b, ms, st, n + 1);
    var (o, st1) := EvalBody(w, c.g, ret, body, None, st, n + 1);
    var msN := Steps(w, code, ms, n);
    if k >= n {
      StepsAdd(w, code, ms, n, k - n);
      StepsStopped(w, code, msN, k - n);
    } else if !ms1.Run? {
      StepsAdd(w, code, ms, k, n - k);
      StepsStopped(w, code, ms1, n - k);
    }
    if o.Returned? {
      StopsHalts(c.g, ret, o.v, st1, ms1);
    } else if ret.None? {
      StopsHalts(c.g, ret, None, st1, ms1);
    }
  }

  lemma StartStore(code: Code, c: Ctx, ret: Option<Ty>, body: Stmt, b: Builder, ms: Machine, st: State)
    requires CanStart(code, c, ret, body, b, ms, st)
    ensures WellTyped(c.g, ret, body) && StoreOk(c.g, st.store)
  {
  }

  lemma StopsHalts(g: seq<Ty>, ret: Option<Ty>, v: Option<int>, st: State, ms: Machine)
    requires StopsWith(g, ret, v, st, ms)
    ensures ms.Halt?
  {
  }

  /** A closed body that never finishes keeps the machine running for ever, and only such a
      body does. */
  lemma DivergesIff(w: World, code: Code, c: Ctx, ret: Option<Ty>, body: Stmt, b: Builder, ms: Machine, st: State)
    requires CanStart(code, c, ret, body, b, ms, st) && Closed(body)
    ensures (forall fuel: nat :: EvalBody(w, c.g, ret, body, None, st, fuel).0.Timeout?) <==>
            (forall n: nat :: Steps(w, code, ms, n).Run?)
  {
    hide EvalBody, Steps, CanStart, StopsWith, Leaves, StoreOk, WellTyped, Closed;
    StartStore(code, c, ret, body, b, ms, st);
    if forall fuel: nat :: EvalBody(w, c.g, ret, body, None, st, fuel).0.Timeout? {
      forall n: nat
        ensures Steps(w, code, ms, n).Run?
      {
        var k, ms1 := FunctionRuns(w, code, c, ret, body, b, ms, st, n);
        assert EvalBody(w, c.g, ret, body, None, st, n).0.Timeout?;
        RunningBefore(w, code, ms, n, k);
      }
    } else {
      var fuel: nat :| !EvalBody(w, c.g, ret, body, None, st, fuel).0.Timeout?;
      ClosedOutcome(w, c.g, ret, body, st, fuel);
      var n, ms1 := FunctionRuns(w, code, c, ret, body, b, ms, st, fuel);
      MeetsStops(c.g, ret, EvalBody(w, c.g, ret, body, None, st, fuel).0,
                 EvalBody(w, c.g, ret, body, None, st, fuel).1, ms1);
      assert !Steps(w, code, ms, n).Run?;
    }
  }

  lemma MeetsStops(g: seq<Ty>, ret: Option<Ty>, o: Outcome, st: State, ms: Machine)
    requires Meets(g, ret, o, st, ms) && (o.Returned? || o.Normal?)
    ensures !ms.Run?
  {
  }

  lemma RunningBefore(w: World, code: Code, ms: Machine, n: nat, k: nat)
    requires n <= k && Steps(w, code, ms, k).Run?
    ensures Steps(w, code, ms, n).Run?
  {
    StepsAdd(w, code, ms, n, k - n);
    if !Steps(w, code, ms, n).Run? {
      StepsStopped(w, code, Steps(w, code, ms, n), k - n);
    }
  }
}
