/** Laws of the source language: what its operators compute, and which statements can stand for
    which others.  They pin the big-step meaning down from outside. */
module Laws {
  import opened IntTypes
  import opened Syntax
  import opened Source
  import opened FallsOff

  // ----- expressions -----

  /** A literal that fits its type is that number; a bool literal is whether it is not 0. */
  lemma LitMeans(w: World, g: seq<Ty>, t: Ty, v: int, st: State)
    requires StoreOk(g, st.store)
    ensures t == BOOL ==> EvalE(w, g, Lit(t, v), st) == (if v != 0 then 1 else 0, st)
    ensures t != BOOL && InRange(t, v) ==> EvalE(w, g, Lit(t, v), st) == (v, st)
  {
    if InRange(t, v) {
      WrapInRange(t, v);
    }
  }

  /** Left before right, and left minus right. */
  lemma ArithMeans(w: World, g: seq<Ty>, l: Expr, r: Expr, st: State)
    requires TypeE(g, l) == TypeE(g, r) != None && StoreOk(g, st.store)
    ensures var t := TypeE(g, l).value;
            var (x, st1) := EvalE(w, g, l, st);
            var (y, st2) := EvalE(w, g, r, st1);
            && EvalE(w, g, Arith(Add, l, r), st) == (Wrap(t, x + y), st2)
            && EvalE(w, g, Arith(Sub, l, r), st) == (Wrap(t, x - y), st2)
            && EvalE(w, g, Arith(Mul, l, r), st) == (Wrap(t, x * y), st2)
  {
    hide Wrap;
  }

  lemma CmpMeans(w: World, g: seq<Ty>, l: Expr, r: Expr, st: State)
    requires TypeE(g, l) == TypeE(g, r) != None && StoreOk(g, st.store)
    ensures var (x, st1) := EvalE(w, g, l, st);
            var (y, st2) := EvalE(w, g, r, st1);
            && EvalE(w, g, Cmp(Lt, l, r), st) == (if x < y then 1 else 0, st2)
            && EvalE(w, g, Cmp(Gt, l, r), st) == (if x > y then 1 else 0, st2)
            && EvalE(w, g, Cmp(Ge, l, r), st) == (if x >= y then 1 else 0, st2)
            && EvalE(w, g, Cmp(Le, l, r), st) == (if x <= y then 1 else 0, st2)
            && EvalE(w, g, Cmp(Ne, l, r), st) == (if x != y then 1 else 0, st2)
            && EvalE(w, g, Cmp(Eq, l, r), st) == (if x == y then 1 else 0, st2)
  {
  }

  /** `!` of a bool is the other bool. */
  lemma UnaryMeans(w: World, g: seq<Ty>, e: Expr, st: State)
    requires TypeE(g, e).Some? && StoreOk(g, st.store)
    ensures var (x, st1) := EvalE(w, g, e, st);
            && (TypeE(g, Neg(e)).Some? ==> EvalE(w, g, Neg(e), st) == (Wrap(TypeE(g, e).value, -x), st1))
            && (TypeE(g, e) == Some(BOOL) ==> EvalE(w, g, Not(e), st) == (1 - x, st1))
            && (Signed(TypeE(g, e).value) ==> EvalE(w, g, Not(e), st) == (-1 - x, st1))
  {
    hide Wrap, Signed, InRange;
    NotWraps(TypeE(g, e).value, EvalE(w, g, e, st).0);
  }

  lemma NotWraps(t: Ty, x: int)
    requires InRange(t, x)
    ensures t == BOOL ==> Wrap(t, -1 - x) == 1 - x
    ensures Signed(t) ==> Wrap(t, -1 - x) == -1 - x
  {
    if Signed(t) {
      WrapInRange(t, -1 - x);
    }
  }

  /** A cast gives the value of the new type that differs by a multiple of 2^width. */
  lemma AsMeans(w: World, g: seq<Ty>, e: Expr, to: Ty, st: State)
    requires TypeE(g, As(e, to)).Some? && StoreOk(g, st.store)
    ensures TypeE(g, e).Some?
    ensures var (x, st1) := EvalE(w, g, e, st);
            var (y, st2) := EvalE(w, g, As(e, to), st);
            st2 == st1 && InRange(to, y) && exists k :: y == x + k * Size(to)
  {
    var (x, st1) := EvalE(w, g, e, st);
    WrapIs(to, x, Wrap(to, x));
  }

  /** The right operand is evaluated, and its calls made, only where the left does not decide. */
  lemma LogicMeans(w: World, g: seq<Ty>, l: Expr, r: Expr, st: State)
    requires TypeE(g, l) == TypeE(g, r) == Some(BOOL) && StoreOk(g, st.store)
    ensures var (x, st1) := EvalE(w, g, l, st);
            && EvalE(w, g, Logic(true, l, r), st) == (if x == 0 then (0, st1) else EvalE(w, g, r, st1))
            && EvalE(w, g, Logic(false, l, r), st) == (if x == 0 then EvalE(w, g, r, st1) else (1, st1))
  {
  }

  /** `!(l && r)` is `!l || !r`, with the same calls. */
  lemma DeMorgan(w: World, g: seq<Ty>, l: Expr, r: Expr, st: State)
    requires TypeE(g, l) == TypeE(g, r) == Some(BOOL) && StoreOk(g, st.store)
    ensures EvalE(w, g, Not(Logic(true, l, r)), st) == EvalE(w, g, Logic(false, Not(l), Not(r)), st)
  {
    hide Wrap;
    var (x, st1) := EvalE(w, g, l, st);
    UnaryMeans(w, g, l, st);
    UnaryMeans(w, g, r, st1);
    UnaryMeans(w, g, Logic(true, l, r), st);
    LogicMeans(w, g, l, r, st);
    LogicMeans(w, g, Not(l), Not(r), st);
  }

  // ----- statements -----

  /** `x op= e` is `x = x op e`. */
  lemma AssignOpLaw(w: World, g: seq<Ty>, ret: Option<Ty>, x: nat, op: ArithOp, e: Expr, st: State, fuel: nat)
    requires x < |g| && TypeE(g, e) == Some(g[x]) && StoreOk(g, st.store)
    ensures TypeE(g, Var(x)) == Some(g[x]) && TypeE(g, Arith(op, Var(x), e)) == Some(g[x])
    ensures EvalS(w, g, ret, AssignOp(x, op, e), None, st, fuel) ==
            EvalS(w, g, ret, Assign(x, Arith(op, Var(x), e)), None, st, fuel)
  {
    hide Wrap;
    assert EvalE(w, g, Var(x), st) == (st.store[x], st);
  }

  /** An assignment changes its slot and no other. */
  lemma AssignLaw(w: World, g: seq<Ty>, ret: Option<Ty>, x: nat, e: Expr, st: State, fuel: nat)
    requires x < |g| && TypeE(g, e) == Some(g[x]) && StoreOk(g, st.store)
    ensures var (v, st1) := EvalE(w, g, e, st);
            var (o, st2) := EvalS(w, g, ret, Assign(x, e), None, st, fuel);
            && o == Normal && st2.trace == st1.trace && |st2.store| == |st.store| && st2.store[x] == v
            && (forall y | 0 <= y < |g| && y != x :: st2.store[y] == st.store[y])
            && EvalE(w, g, Var(x), st2).0 == v
  {
  }

  /** A chain of conditions is an if whose else is the rest of the chain. */
  lemma ElseIfLaw(w: World, g: seq<Ty>, ret: Option<Ty>, conds: seq<Expr>, bodies: seq<Stmt>, remain: Option<Stmt>,
                  st: State, fuel: nat)
    requires conds != [] && WellTyped(g, ret, If(conds, bodies, remain)) && StoreOk(g, st.store)
    ensures WellTyped(g, ret, If(conds[1..], bodies[1..], remain))
    ensures var rest := If(conds[1..], bodies[1..], remain);
            var (v, st1) := EvalE(w, g, conds[0], st);
            EvalS(w, g, ret, If(conds, bodies, remain), None, st, fuel) ==
            EvalS(w, g, ret, if v == 1 then bodies[0] else rest, None, st1, fuel)
  {
    var (v, st1) := EvalE(w, g, conds[0], st);
    if v == 0 {
      var k := Choose(w, g, conds[1..], st1).0;
      assert Choose(w, g, conds, st).0 == k + 1;
      if k < |conds| - 1 {
        assert bodies[1..][k] == bodies[k + 1];
      }
    }
  }

  /** Without conditions the else is left. */
  lemma ElseLaw(w: World, g: seq<Ty>, ret: Option<Ty>, remain: Option<Stmt>, st: State, fuel: nat)
    requires WellTyped(g, ret, If([], [], remain)) && StoreOk(g, st.store)
    ensures EvalS(w, g, ret, If([], [], remain), None, st, fuel) ==
            if remain.Some? then EvalS(w, g, ret, remain.value, None, st, fuel) else (Normal, st)
  {
  }

  /** One condition: the body where it is true, and otherwise the else. */
  lemma IfLaw(w: World, g: seq<Ty>, ret: Option<Ty>, c: Expr, s: Stmt, t: Stmt, st: State, fuel: nat)
    requires TypeE(g, c) == Some(BOOL) && WellTyped(g, ret, s) && WellTyped(g, ret, t) && StoreOk(g, st.store)
    ensures WellTyped(g, ret, If([c], [s], Some(t)))
    ensures var (v, st1) := EvalE(w, g, c, st);
            EvalS(w, g, ret, If([c], [s], Some(t)), None, st, fuel) ==
            EvalS(w, g, ret, if v == 1 then s else t, None, st1, fuel)
  {
    hide EvalS;
    ElseIfLaw(w, g, ret, [c], [s], Some(t), st, fuel);
    assert [c][1..] == [] && [s][1..] == [];
    if EvalE(w, g, c, st).0 == 0 {
      ElseLaw(w, g, ret, Some(t), EvalE(w, g, c, st).1, fuel);
    }
  }

  /** `while c s` is `loop { if c s else break }`. */
  lemma {:induction false} WhileLaw(w: World, g: seq<Ty>, ret: Option<Ty>, c: Expr, s: Stmt, st: State, fuel: nat)
    requires TypeE(g, c) == Some(BOOL) && WellTyped(g, ret, s) && StoreOk(g, st.store)
    ensures WellTyped(g, ret, While(c, s)) && WellTyped(g, ret, Loop(If([c], [s], Some(Break))))
    ensures EvalS(w, g, ret, While(c, s), None, st, fuel) ==
            EvalS(w, g, ret, Loop(If([c], [s], Some(Break))), None, st, fuel)
    decreases fuel
  {
    hide EvalE, TypeE, EvalS;
    var a, b := While(c, s), Loop(If([c], [s], Some(Break)));
    IfLaw(w, g, ret, c, s, Break, st, fuel);
    BreakLaw(w, g, ret, EvalE(w, g, c, st).1, fuel);
    LoopsRepeat(w, g, ret, a, st, fuel);
    LoopsRepeat(w, g, ret, b, st, fuel);
    var (v, st1) := EvalE(w, g, c, st);
    if v == 1 && fuel > 0 {
      var (o, st2) := EvalS(w, g, ret, s, None, st1, fuel);
      WhileLaw(w, g, ret, c, s, st2, fuel - 1);
      LoopsRepeat(w, g, ret, a, st2, fuel - 1);
      LoopsRepeat(w, g, ret, b, st2, fuel - 1);
    }
  }

  lemma LoopsRepeat(w: World, g: seq<Ty>, ret: Option<Ty>, s: Stmt, st: State, fuel: nat)
    requires (s.While? || s.Loop?) && WellTyped(g, ret, s) && StoreOk(g, st.store)
    ensures EvalS(w, g, ret, s, None, st, fuel) == Repeat(w, g, ret, s, None, st, fuel)
  {
    hide Repeat;
  }

  lemma BreakLaw(w: World, g: seq<Ty>, ret: Option<Ty>, st: State, fuel: nat)
    requires StoreOk(g, st.store)
    ensures EvalS(w, g, ret, Break, None, st, fuel) == (Broke, st)
    ensures EvalS(w, g, ret, Continue, None, st, fuel) == (Continued, st)
  {
  }

  /** `continue` at the end of a loop's body changes nothing. */
  lemma {:induction false} ContinueLaw(w: World, g: seq<Ty>, ret: Option<Ty>, c: Expr, s: Stmt, st: State, fuel: nat)
    requires TypeE(g, c) == Some(BOOL) && WellTyped(g, ret, s) && StoreOk(g, st.store)
    ensures WellTyped(g, ret, While(c, s)) && WellTyped(g, ret, While(c, Block([s, Continue])))
    ensures EvalS(w, g, ret, While(c, Block([s, Continue])), None, st, fuel) ==
            EvalS(w, g, ret, While(c, s), None, st, fuel)
    decreases fuel
  {
    hide EvalE, TypeE, EvalS;
    var b := Block([s, Continue]);
    var (v, st1) := EvalE(w, g, c, st);
    var (o, st2) := EvalS(w, g, ret, s, None, st1, fuel);
    PairLaw(w, g, ret, s, Continue, st1, fuel);
    BreakLaw(w, g, ret, st2, fuel);
    LoopsRepeat(w, g, ret, While(c, b), st, fuel);
    LoopsRepeat(w, g, ret, While(c, s), st, fuel);
    if v == 1 && fuel > 0 {
      ContinueLaw(w, g, ret, c, s, st2, fuel - 1);
      LoopsRepeat(w, g, ret, While(c, b), st2, fuel - 1);
      LoopsRepeat(w, g, ret, While(c, s), st2, fuel - 1);
    }
  }

  /** One statement after the other; what follows a return, a jump, a break or a continue is not
      reached. */
  lemma PairLaw(w: World, g: seq<Ty>, ret: Option<Ty>, s: Stmt, t: Stmt, st: State, fuel: nat)
    requires WellTyped(g, ret, s) && WellTyped(g, ret, t) && StoreOk(g, st.store)
    ensures WellTyped(g, ret, Block([s, t]))
    ensures var (o, st1) := EvalS(w, g, ret, s, None, st, fuel);
            EvalS(w, g, ret, Block([s, t]), None, st, fuel) ==
            if o.Normal? then EvalS(w, g, ret, t, None, st1, fuel) else (o, st1)
  {
    var ss := [s, t];
    assert ss[1..] == [t] && [t][1..] == [];
    assert forall i | 0 <= i < 2 :: WellTyped(g, ret, ss[i]);
    var (o, st1) := EvalS(w, g, ret, s, None, st, fuel);
    var (o2, st2) := EvalS(w, g, ret, t, None, st1, fuel);
    assert EvalSeq(w, g, ret, [], None, st2, fuel) == (Normal, st2);
    assert EvalSeq(w, g, ret, [t], None, st1, fuel) == (o2, st2);
    assert EvalSeq(w, g, ret, ss, None, st, fuel) == if o.Normal? then (o2, st2) else (o, st1);
  }

  /** A return leaves with the value of its expression. */
  lemma ReturnLaw(w: World, g: seq<Ty>, t: Ty, e: Expr, st: State, fuel: nat)
    requires TypeE(g, e) == Some(t) && StoreOk(g, st.store)
    ensures var (v, st1) := EvalE(w, g, e, st);
            EvalBody(w, g, Some(t), Ret(Some(e)), None, st, fuel) == (Returned(Some(v)), st1)
  {
  }

  /** A while written with a goto: `l: if c { s; goto l; }`. */
  function Again(l: string, c: Expr, s: Stmt): Stmt {
    Block([Label(l), If([c], [Block([s, Goto(l)])], None)])
  }

  lemma {:induction false} GotoLaw(w: World, g: seq<Ty>, ret: Option<Ty>, l: string, c: Expr, s: Stmt,
                                   entry: Option<string>,
                                   st: State, fuel: nat)
    requires TypeE(g, c) == Some(BOOL) && WellTyped(g, ret, s) && StoreOk(g, st.store) && entry in {None, Some(l)}
    requires NoGoto(s) && !May(s, Brk) && !May(s, Cont)
    ensures WellTyped(g, ret, Again(l, c, s)) && WellTyped(g, ret, While(c, s)) && l in Labels(Again(l, c, s), false)
    ensures EvalBody(w, g, ret, Again(l, c, s), entry, st, fuel) == EvalS(w, g, ret, While(c, s), None, st, fuel)
    decreases fuel
  {
    hide EvalE, TypeE, EvalS, May;
    AgainOk(g, ret, l, c, s);
    AgainOnce(w, g, ret, l, c, s, entry, st, fuel);
    LoopsRepeat(w, g, ret, While(c, s), st, fuel);
    var (v, st1) := EvalE(w, g, c, st);
    if v == 1 {
      var (o, st2) := EvalS(w, g, ret, s, None, st1, fuel);
      Only(w, g, ret, s, st1, fuel);
      if o.Normal? && fuel > 0 {
        GotoLaw(w, g, ret, l, c, s, Some(l), st2, fuel - 1);
        LoopsRepeat(w, g, ret, While(c, s), st2, fuel - 1);
      }
    }
  }

  lemma AgainOk(g: seq<Ty>, ret: Option<Ty>, l: string, c: Expr, s: Stmt)
    requires TypeE(g, c) == Some(BOOL) && WellTyped(g, ret, s)
    ensures WellTyped(g, ret, Again(l, c, s)) && l in Labels(Again(l, c, s), false)
    ensures WellTyped(g, ret, Block([s, Goto(l)])) && WellTyped(g, ret, If([c], [Block([s, Goto(l)])], None))
  {
    hide TypeE;
    assert LabelsSeq(Again(l, c, s).ss, false) == {l} + LabelsSeq(Again(l, c, s).ss[1..], false);
    assert WellTyped(g, ret, Block([s, Goto(l)]));
  }

  /** Once through, from the top or from the label. */
  lemma AgainOnce(w: World, g: seq<Ty>, ret: Option<Ty>, l: string, c: Expr, s: Stmt, entry: Option<string>,
                  st: State, fuel: nat)
    requires TypeE(g, c) == Some(BOOL) && WellTyped(g, ret, s) && StoreOk(g, st.store) && entry in {None, Some(l)}
    ensures WellTyped(g, ret, Again(l, c, s)) && l in Labels(Again(l, c, s), false)
    ensures var (v, st1) := EvalE(w, g, c, st);
            var (o, st2) := EvalS(w, g, ret, s, None, st1, fuel);
            EvalS(w, g, ret, Again(l, c, s), entry, st, fuel) ==
            if v == 0 then (Normal, st1) else if o.Normal? then (Jump(l), st2) else (o, st2)
  {
    hide EvalE, TypeE;
    AgainOk(g, ret, l, c, s);
    var arm := Block([s, Goto(l)]);
    var test := If([c], [arm], None);
    var (v, st1) := EvalE(w, g, c, st);
    TopLaw(w, g, ret, l, test, entry, st, fuel);
    ElseIfLaw(w, g, ret, [c], [arm], None, st, fuel);
    assert [c][1..] == [] && [arm][1..] == [];
    if v == 0 {
      ElseLaw(w, g, ret, None, st1, fuel);
    } else {
      PairLaw(w, g, ret, s, Goto(l), st1, fuel);
      JumpLaw(w, g, ret, l, EvalS(w, g, ret, s, None, st1, fuel).1, fuel);
    }
  }

  lemma JumpLaw(w: World, g: seq<Ty>, ret: Option<Ty>, l: string, st: State, fuel: nat)
    requires StoreOk(g, st.store)
    ensures EvalS(w, g, ret, Goto(l), None, st, fuel) == (Jump(l), st)
  {
  }

  /** A label does nothing, and a jump to it goes on behind it. */
  lemma TopLaw(w: World, g: seq<Ty>, ret: Option<Ty>, l: string, t: Stmt, entry: Option<string>, st: State, fuel: nat)
    requires WellTyped(g, ret, t) && StoreOk(g, st.store) && entry in {None, Some(l)}
    ensures WellTyped(g, ret, Block([Label(l), t])) && l in Labels(Block([Label(l), t]), false)
    ensures EvalS(w, g, ret, Block([Label(l), t]), entry, st, fuel) == EvalS(w, g, ret, t, None, st, fuel)
  {
    var ss := [Label(l), t];
    assert ss[1..] == [t] && [t][1..] == [];
    assert forall i | 0 <= i < 2 :: WellTyped(g, ret, ss[i]);
    assert LabelsSeq(ss, false) == {l} + LabelsSeq(ss[1..], false);
    var (o, st1) := EvalS(w, g, ret, t, None, st, fuel);
    assert EvalSeq(w, g, ret, [], None, st1, fuel) == (Normal, st1);
    assert EvalSeq(w, g, ret, [t], None, st, fuel) == (o, st1);
    assert EvalS(w, g, ret, ss[0], entry, st, fuel) == (Normal, st);
    assert EvalSeq(w, g, ret, ss, entry, st, fuel) == (o, st1);
  }

  /** A jump into the body of a loop runs the rest of the body, and then the loop. */
  lemma EnterLaw(w: World, g: seq<Ty>, ret: Option<Ty>, l: string, c: Expr, s: Stmt, t: Stmt, st: State, fuel: nat)
    requires TypeE(g, c) == Some(BOOL) && WellTyped(g, ret, s) && WellTyped(g, ret, t) && StoreOk(g, st.store)
    requires l !in Labels(s, false)
    ensures var loop := While(c, Block([s, Label(l), t]));
            && WellTyped(g, ret, loop) && l in Labels(loop, false)
            && EvalS(w, g, ret, loop, Some(l), st, fuel) ==
                 var (o, st1) := EvalS(w, g, ret, t, None, st, fuel);
                 if o.Normal? || o.Continued? then
                   if fuel == 0 then (Timeout, st1) else EvalS(w, g, ret, loop, None, st1, fuel - 1)
                 else if o.Broke? then (Normal, st1) else (o, st1)
  {
    hide TypeE;
    var body := Block([s, Label(l), t]);
    var loop := While(c, body);
    MiddleLaw(w, g, ret, l, s, t, st, fuel);
    hide EvalS;
    EntersRepeat(w, g, ret, loop, l, st, fuel);
    var (o, st1) := EvalS(w, g, ret, t, None, st, fuel);
    if fuel > 0 {
      LoopsRepeat(w, g, ret, loop, st1, fuel - 1);
    }
  }

  lemma EntersRepeat(w: World, g: seq<Ty>, ret: Option<Ty>, s: Stmt, l: string, st: State, fuel: nat)
    requires s.While? && WellTyped(g, ret, s) && StoreOk(g, st.store) && l in Labels(s, false)
    ensures EvalS(w, g, ret, s, Some(l), st, fuel) == Repeat(w, g, ret, s, Some(l), st, fuel)
  {
    hide Repeat;
  }

  lemma MiddleLaw(w: World, g: seq<Ty>, ret: Option<Ty>, l: string, s: Stmt, t: Stmt, st: State, fuel: nat)
    requires WellTyped(g, ret, s) && WellTyped(g, ret, t) && StoreOk(g, st.store) && l !in Labels(s, false)
    ensures WellTyped(g, ret, Block([s, Label(l), t])) && l in Labels(Block([s, Label(l), t]), false)
    ensures EvalS(w, g, ret, Block([s, Label(l), t]), Some(l), st, fuel) == EvalS(w, g, ret, t, None, st, fuel)
  {
    var ss := [s, Label(l), t];
    assert forall i | 0 <= i < 3 :: WellTyped(g, ret, ss[i]);
    assert ss[1..] == [Label(l), t];
    assert LabelsSeq(ss[1..], false) == {l} + LabelsSeq(ss[1..][1..], false);
    assert LabelsSeq(ss, false) == Labels(s, false) + LabelsSeq(ss[1..], false);
    TopLaw(w, g, ret, l, t, Some(l), st, fuel);
    assert EvalS(w, g, ret, Block([Label(l), t]), Some(l), st, fuel) == EvalSeq(w, g, ret, ss[1..], Some(l), st, fuel);
    assert EvalSeq(w, g, ret, ss, Some(l), st, fuel) == EvalSeq(w, g, ret, ss[1..], Some(l), st, fuel);
  }

  // ----- calls -----

  /** The arguments are evaluated, then the call is made with their patterns; nothing but the
      record of calls changes. */
  lemma CallMeans(w: World, g: seq<Ty>, f: string, res: Ty, args: seq<Expr>, st: State)
    requires TypeE(g, Call(f, res, args)).Some? && StoreOk(g, st.store)
    ensures forall i | 0 <= i < |args| :: TypeE(g, args[i]).Some?
    ensures var (bits, st1) := EvalArgs(w, g, args, st);
            EvalE(w, g, Call(f, res, args), st) ==
            (Wrap(res, w.ext(f, bits, st1.trace)), State(st.store, st1.trace + [Event(f, bits)]))
  {
    hide Wrap, Encode, EvalArgs;
  }

  /** The last argument is evaluated after all the others. */
  lemma {:induction false} ArgsMeans(w: World, g: seq<Ty>, args: seq<Expr>, e: Expr, st: State)
    requires (forall i | 0 <= i < |args| :: TypeE(g, args[i]).Some?) && TypeE(g, e).Some? && StoreOk(g, st.store)
    ensures var (bits, st1) := EvalArgs(w, g, args, st);
            var (x, st2) := EvalE(w, g, e, st1);
            EvalArgs(w, g, args + [e], st) == (bits + [Encode(TypeE(g, e).value, x)], st2)
    decreases |args|
  {
    hide Encode, EvalE, TypeE;
    var more := args + [e];
    if args == [] {
      var (x, st1) := EvalE(w, g, e, st);
      var p := Encode(TypeE(g, e).value, x);
      assert more == [e] && [e][1..] == [] && EvalArgs(w, g, [], st) == ([], st);
      assert EvalArgs(w, g, [], st1) == ([], st1) && [p] + [] == [p] == [] + [p];
    } else {
      assert more[0] == args[0] && more[1..] == args[1..] + [e];
      var (v, st0) := EvalE(w, g, args[0], st);
      ArgsMeans(w, g, args[1..], e, st0);
      var (bits, st1) := EvalArgs(w, g, args[1..], st0);
      var p, q := Encode(TypeE(g, args[0]).value, v), Encode(TypeE(g, e).value, EvalE(w, g, e, st1).0);
      assert [p] + (bits + [q]) == [p] + bits + [q];
    }
  }
}
