/** Which blocks a walk places, in which function, and in which order the labels come. */
module Placement {
  import opened IntTypes
  import opened Syntax
  import opened Target
  import opened Emit
  import opened Frame

  /** The label blocks among the placed ones, in order. */
  function Names(placed: seq<(nat, BB)>): seq<(nat, string)> {
    if placed == [] then [] else
    var (fn, bb) := placed[|placed| - 1];
    Names(placed[..|placed| - 1]) + if bb.Named? then [(fn, bb.name)] else []
  }

  lemma {:induction false} NamesIn(placed: seq<(nat, BB)>, fn: nat, l: string)
    ensures (fn, Named(l)) in placed <==> (fn, l) in Names(placed)
  {
    if placed != [] {
      var last := placed[|placed| - 1];
      NamesIn(placed[..|placed| - 1], fn, l);
      assert placed == placed[..|placed| - 1] + [last];
      assert last.1.Named? ==> ((fn, l) == (last.0, last.1.name) <==> (fn, Named(l)) == last);
    }
  }

  /** The functions defined in s. */
  function FnCount(s: Stmt): nat {
    match s
    case Block(ss) => FnCountSeq(ss)
    case If(_, bodies, remain) => FnCountSeq(bodies) + if remain.Some? then FnCount(remain.value) else 0
    case While(_, b) => FnCount(b)
    case Loop(b) => FnCount(b)
    case For(_, _, b) => FnCount(b)
    case FnDef(_, b) => 1 + FnCount(b)
    case _ => 0
  }

  function FnCountSeq(ss: seq<Stmt>): nat {
    if ss == [] then 0 else FnCount(ss[0]) + FnCountSeq(ss[1..])
  }

  /** The label definitions of s, in order, each with its function; functions are numbered
      from n in the order they are met. */
  function Defs(fn: nat, n: nat, s: Stmt): seq<(nat, string)>
    decreases s
  {
    match s
    case Label(l) => [(fn, l)]
    case Block(ss) => DefsSeq(fn, n, ss)
    case If(_, bodies, remain) =>
      DefsSeq(fn, n, bodies) + if remain.Some? then Defs(fn, n + FnCountSeq(bodies), remain.value) else []
    case While(_, b) => Defs(fn, n, b)
    case Loop(b) => Defs(fn, n, b)
    case For(_, _, b) => Defs(fn, n, b)
    case FnDef(_, b) => Defs(n, n + 1, b)
    case _ => []
  }

  function DefsSeq(fn: nat, n: nat, ss: seq<Stmt>): seq<(nat, string)>
    decreases ss
  {
    if ss == [] then [] else Defs(fn, n, ss[0]) + DefsSeq(fn, n + FnCount(ss[0]), ss[1..])
  }

  /** A definition counted for fn is one of its own labels; nested functions have later
      numbers. */
  lemma {:induction false} DefsOwn(fn: nat, n: nat, s: Stmt, l: string)
    requires fn < n
    ensures (fn, l) in Defs(fn, n, s) <==> l in Labels(s, false)
    ensures forall d | d in Defs(fn, n, s) :: d.0 == fn || n <= d.0
    decreases s
  {
    match s
    case Block(ss) => DefsOwnSeq(fn, n, ss, l);
    case If(_, bodies, remain) =>
      DefsOwnSeq(fn, n, bodies, l);
      if remain.Some? { DefsOwn(fn, n + FnCountSeq(bodies), remain.value, l); }
    case While(_, b) => DefsOwn(fn, n, b, l);
    case Loop(b) => DefsOwn(fn, n, b, l);
    case For(_, _, b) => DefsOwn(fn, n, b, l);
    case FnDef(_, b) => DefsOwn(n, n + 1, b, l);
    case _ =>
  }

  lemma {:induction false} DefsOwnSeq(fn: nat, n: nat, ss: seq<Stmt>, l: string)
    requires fn < n
    ensures (fn, l) in DefsSeq(fn, n, ss) <==> l in LabelsSeq(ss, false)
    ensures forall d | d in DefsSeq(fn, n, ss) :: d.0 == fn || n <= d.0
    decreases ss
  {
    if ss != [] {
      DefsOwn(fn, n, ss[0], l);
      DefsOwnSeq(fn, n + FnCount(ss[0]), ss[1..], l);
    }
  }

  lemma {:induction false} NamesConcat(p: seq<(nat, BB)>, q: seq<(nat, BB)>)
    ensures Names(p + q) == Names(p) + Names(q)
    decreases q
  {
    if q == [] {
      assert p + q == p;
    } else {
      NamesConcat(p, q[..|q| - 1]);
      assert (p + q)[..|p + q| - 1] == p + q[..|q| - 1];
    }
  }

  // ----- what a walk adds -----

  predicate Fits(e: (nat, BB), fn: nat, lo: nat, n: nat, n1: nat) {
    (e.0 == fn || n <= e.0 < n1) && (e.1.Anon? ==> lo <= e.1.id)
  }

  /** Code and placed blocks only grow; the new blocks belong to fn or to new functions, the
      anonymous ones have ids from lo on, and the labels among them are exactly ds. */
  ghost predicate Adds(b: Builder, b1: Builder, fn: nat, lo: nat, ds: seq<(nat, string)>, n: nat) {
    && b.placed <= b1.placed && Within(b.blocks, b1.blocks) && b.nbb <= b1.nbb && b1.nfn == b.nfn + n
    && Names(b1.placed) == Names(b.placed) + ds
    && (forall k | |b.placed| <= k < |b1.placed| :: Fits(b1.placed[k], fn, lo, b.nfn, b1.nfn))
    && (b1.cur == b.cur || (fn, b1.cur) in b1.placed)
  }

  lemma AddsTrans(b: Builder, b1: Builder, b2: Builder, fn: nat, lo: nat, lo2: nat, ds: seq<(nat, string)>,
                  ds2: seq<(nat, string)>, n: nat, n2: nat)
    requires Adds(b, b1, fn, lo, ds, n) && Adds(b1, b2, fn, lo2, ds2, n2) && lo <= lo2
    ensures Adds(b, b2, fn, lo, ds + ds2, n + n2)
  {
    forall k | |b.placed| <= k < |b2.placed|
      ensures Fits(b2.placed[k], fn, lo, b.nfn, b2.nfn)
    {
      if k < |b1.placed| {
        assert b2.placed[k] == b1.placed[k];
      }
    }
    assert Names(b2.placed) == Names(b.placed) + (ds + ds2);
  }

  /** The frequent case: no labels on one side. */
  lemma AddsThen(b: Builder, b1: Builder, b2: Builder, fn: nat, lo: nat, lo2: nat, ds: seq<(nat, string)>, n: nat)
    requires Adds(b, b1, fn, lo, ds, n) && Adds(b1, b2, fn, lo2, [], 0) && lo <= lo2
    ensures Adds(b, b2, fn, lo, ds, n)
  {
    AddsTrans(b, b1, b2, fn, lo, lo2, ds, [], n, 0);
    assert ds + [] == ds;
  }

  lemma AddsAfter(b: Builder, b1: Builder, b2: Builder, fn: nat, lo: nat, lo2: nat, ds: seq<(nat, string)>, n: nat)
    requires Adds(b, b1, fn, lo, [], 0) && Adds(b1, b2, fn, lo2, ds, n) && lo <= lo2
    ensures Adds(b, b2, fn, lo, ds, n)
  {
    AddsTrans(b, b1, b2, fn, lo, lo2, [], ds, 0, n);
    assert [] + ds == ds;
  }

  /** The labels among the new blocks. */
  lemma NewNames(b: Builder, b1: Builder, fn: nat, lo: nat, ds: seq<(nat, string)>, n: nat)
    requires Adds(b, b1, fn, lo, ds, n)
    ensures b.placed <= b1.placed && Names(b1.placed[|b.placed|..]) == ds
  {
    NamesConcat(b.placed, b1.placed[|b.placed|..]);
    assert b.placed + b1.placed[|b.placed|..] == b1.placed;
    var old_, new_ := Names(b.placed), Names(b1.placed[|b.placed|..]);
    assert (old_ + new_)[|old_|..] == new_ && (old_ + ds)[|old_|..] == ds;
  }

  lemma AddsRefl(b: Builder, fn: nat, lo: nat)
    ensures Adds(b, b, fn, lo, [], 0)
  {
  }

  lemma AddsAppend(b: Builder, i: Instr, fn: nat, lo: nat)
    ensures Adds(b, Append(b, i), fn, lo, [], 0) && Adds(b, Define(b, i).0, fn, lo, [], 0)
  {
  }

  lemma AddsNewBB(b: Builder, k: nat, fn: nat, lo: nat)
    ensures Adds(b, NewBB(b, k), fn, lo, [], 0)
  {
  }

  lemma AddsPlace(b: Builder, fn: nat, bb: BB, lo: nat)
    requires bb.Anon? ==> lo <= bb.id
    ensures Adds(b, Place(b, fn, bb), fn, lo, if bb.Named? then [(fn, bb.name)] else [], 0)
  {
    assert (b.placed + [(fn, bb)])[..|b.placed|] == b.placed;
  }

  lemma AddsTurn(b: Builder, i: Instr, fn: nat, bb: BB, lo: nat)
    requires bb.Anon? ==> lo <= bb.id
    ensures Adds(b, Place(Append(b, i), fn, bb), fn, lo, if bb.Named? then [(fn, bb.name)] else [], 0)
  {
    hide Adds;
    AddsAppend(b, i, fn, lo);
    AddsPlace(Append(b, i), fn, bb, lo);
    AddsAfter(b, Append(b, i), Place(Append(b, i), fn, bb), fn, lo, lo, if bb.Named? then [(fn, bb.name)] else [], 0);
  }

  lemma AddsLeave(b: Builder, fn: nat, target: BB)
    ensures Adds(b, Leave(b, fn, target), fn, b.nbb, [], 0)
  {
    hide Adds;
    var b1 := Append(b, Br(target));
    AddsAppend(b, Br(target), fn, b.nbb);
    AddsNewBB(b1, 1, fn, b.nbb);
    AddsThen(b, b1, NewBB(b1, 1), fn, b.nbb, b.nbb, [], 0);
    AddsPlace(NewBB(b1, 1), fn, Anon(b.nbb), b.nbb);
    AddsThen(b, NewBB(b1, 1), Leave(b, fn, target), fn, b.nbb, b.nbb, [], 0);
  }

  // ----- expressions -----

  lemma {:induction false} AddsR(c: Ctx, e: Expr, b: Builder, lo: nat)
    requires TypeE(c.g, e).Some? && lo <= b.nbb
    ensures Adds(b, EmitR(c, e, b).0, c.fn, lo, [], 0) && b.nbb <= EmitR(c, e, b).0.nbb
    decreases e, 1
  {
    hide Names;
    AddsE(c, e, b, lo);
    var (b1, o) := EmitE(c, e, b);
    if o.Slot? {
      AddsAppend(b1, Load(b1.nreg, o.slot), c.fn, lo);
      AddsThen(b, b1, EmitR(c, e, b).0, c.fn, lo, lo, [], 0);
    }
  }

  lemma {:induction false} AddsE(c: Ctx, e: Expr, b: Builder, lo: nat)
    requires TypeE(c.g, e).Some? && lo <= b.nbb
    ensures Adds(b, EmitE(c, e, b).0, c.fn, lo, [], 0) && b.nbb <= EmitE(c, e, b).0.nbb
    decreases e, 0
  {
    hide Adds;
    var fn, bE := c.fn, EmitE(c, e, b).0;
    match e
    case Lit(_, _) => AddsRefl(b, fn, lo);
    case Var(_) => AddsRefl(b, fn, lo);
    case Neg(a) =>
      AddsR(c, a, b, lo);
      var (b1, v) := EmitR(c, a, b);
      AddsAppend(b1, NegI(b1.nreg, Size(TypeE(c.g, a).value), v), fn, lo);
      AddsThen(b, b1, bE, fn, lo, lo, [], 0);
    case Not(a) =>
      AddsR(c, a, b, lo);
      var (b1, v) := EmitR(c, a, b);
      AddsAppend(b1, NotI(b1.nreg, Size(TypeE(c.g, a).value), v), fn, lo);
      AddsThen(b, b1, bE, fn, lo, lo, [], 0);
    case Arith(op, l, r) =>
      AddsR(c, l, b, lo);
      var (b1, v1) := EmitR(c, l, b);
      AddsR(c, r, b1, lo);
      var (b2, v2) := EmitR(c, r, b1);
      AddsThen(b, b1, b2, fn, lo, lo, [], 0);
      AddsAppend(b2, ArithI(b2.nreg, op, Size(TypeE(c.g, l).value), v1, v2), fn, lo);
      AddsThen(b, b2, bE, fn, lo, lo, [], 0);
    case Cmp(op, l, r) =>
      AddsR(c, l, b, lo);
      var (b1, v1) := EmitR(c, l, b);
      AddsR(c, r, b1, lo);
      var (b2, v2) := EmitR(c, r, b1);
      AddsThen(b, b1, b2, fn, lo, lo, [], 0);
      AddsAppend(b2, CmpI(b2.nreg, CmpPred(TypeE(c.g, l).value, op), Size(TypeE(c.g, l).value), v1, v2), fn, lo);
      AddsThen(b, b2, bE, fn, lo, lo, [], 0);
    case Logic(isAnd, l, r) => AddsLogic(c, e, b, lo);
    case As(a, to) =>
      AddsR(c, a, b, lo);
      var (b1, v) := EmitR(c, a, b);
      var op := GenCastOp(TypeE(c.g, a).value, to);
      AddsAppend(b1, CastI(b1.nreg, op, Size(TypeE(c.g, a).value), Size(to), v), fn, lo);
      if op != NoOp {
        AddsThen(b, b1, bE, fn, lo, lo, [], 0);
      }
    case Call(f, res, args) =>
      AddsArgs(c, args, b, lo);
      var (b1, vs) := EmitArgs(c, args, b);
      var (b2, d) := Define(b1, CallI(b1.nreg, f, Size(res), vs));
      AddsAppend(b1, CallI(b1.nreg, f, Size(res), vs), fn, lo);
      AddsThen(b, b1, b2, fn, lo, lo, [], 0);
      AddsSlot(b2, d, fn, lo);
      AddsThen(b, b2, bE, fn, lo, lo, [], 0);
  }

  lemma AddsSlot(b: Builder, v: Value, fn: nat, lo: nat)
    ensures Adds(b, Append(b, Store(v, b.nslot)).(nslot := b.nslot + 1), fn, lo, [], 0)
  {
  }

  lemma AddsEnterRight(c: Ctx, isAnd: bool, b: Builder, v: Value, lo: nat)
    requires lo <= b.nbb
    ensures Adds(b, EnterRight(c, isAnd, b, v), c.fn, lo, [], 0) && EnterRight(c, isAnd, b, v).nbb == b.nbb + 2
  {
    hide Adds;
    var i := if isAnd then CondBr(v, Anon(b.nbb), Anon(b.nbb + 1)) else CondBr(v, Anon(b.nbb + 1), Anon(b.nbb));
    var b1 := NewBB(Append(b, i), 2);
    AddsAppend(b, i, c.fn, lo);
    AddsNewBB(Append(b, i), 2, c.fn, lo);
    AddsThen(b, Append(b, i), b1, c.fn, lo, lo, [], 0);
    AddsPlace(b1, c.fn, Anon(b.nbb), lo);
    AddsThen(b, b1, EnterRight(c, isAnd, b, v), c.fn, lo, lo, [], 0);
  }

  lemma {:induction false} AddsLogic(c: Ctx, e: Expr, b: Builder, lo: nat)
    requires e.Logic? && TypeE(c.g, e).Some? && lo <= b.nbb
    ensures Adds(b, EmitE(c, e, b).0, c.fn, lo, [], 0) && b.nbb <= EmitE(c, e, b).0.nbb
    decreases e, 0, 0
  {
    hide Adds, EmitR, EnterRight, TypeE;
    TypeLogic(c.g, e);
    var (b1, v1) := EmitR(c, e.left, b);
    var bR := EnterRight(c, e.isAnd, b1, v1);
    var (b2, v2) := EmitR(c, e.right, bR);
    var out := Anon(b1.nbb + 1);
    var b3 := Place(Append(b2, Br(out)), c.fn, out);
    AddsR(c, e.left, b, lo);
    AddsEnterRight(c, e.isAnd, b1, v1, lo);
    AddsThen(b, b1, bR, c.fn, lo, lo, [], 0);
    AddsR(c, e.right, bR, lo);
    AddsThen(b, bR, b2, c.fn, lo, lo, [], 0);
    AddsTurn(b2, Br(out), c.fn, out, lo);
    AddsThen(b, b2, b3, c.fn, lo, lo, [], 0);
    AddsAppend(b3, Phi(b3.nreg, b2.cur, v2, b1.cur, v1), c.fn, lo);
    AddsThen(b, b3, EmitE(c, e, b).0, c.fn, lo, lo, [], 0);
  }

  lemma {:induction false} AddsArgs(c: Ctx, es: seq<Expr>, b: Builder, lo: nat)
    requires (forall i | 0 <= i < |es| :: TypeE(c.g, es[i]).Some?) && lo <= b.nbb
    ensures Adds(b, EmitArgs(c, es, b).0, c.fn, lo, [], 0) && b.nbb <= EmitArgs(c, es, b).0.nbb
    decreases es
  {
    hide Adds;
    if es == [] {
      AddsRefl(b, c.fn, lo);
    } else {
      AddsR(c, es[0], b, lo);
      var b1 := EmitR(c, es[0], b).0;
      AddsArgs(c, es[1..], b1, lo);
      AddsThen(b, b1, EmitArgs(c, es, b).0, c.fn, lo, lo, [], 0);
    }
  }

  // ----- statements -----

  lemma {:induction false} AddsS(c: Ctx, s: Stmt, b: Builder, lo: nat)
    requires Accepted(c, s) && lo <= b.nbb
    ensures Adds(b, EmitS(c, s, b), c.fn, lo, Defs(c.fn, b.nfn, s), FnCount(s)) && b.nbb <= EmitS(c, s, b).nbb
    decreases s, 1
  {
    hide Adds, EmitForHead, EmitR, EmitE, EmitFn, Leave, EmitConds, EmitBodies, EmitSeq, TypeE, Place, Append;
    match s
    case Block(ss) => AddsSeq(c, ss, b, lo);
    case If(_, _, _) => AddsIf(c, s, b, lo);
    case While(_, _) => AddsLoop(c, s, b, lo);
    case Loop(_) => AddsLoop(c, s, b, lo);
    case For(_, _, _) => AddsLoop(c, s, b, lo);
    case FnDef(r, body) => AddsFn(c, r, body, b, lo);
    case _ => AddsPlain(c, s, b, lo);
  }

  lemma {:induction false} AddsPlain(c: Ctx, s: Stmt, b: Builder, lo: nat)
    requires !(s.Block? || s.If? || s.While? || s.Loop? || s.For? || s.FnDef?)
    requires Accepted(c, s) && lo <= b.nbb
    ensures Adds(b, EmitS(c, s, b), c.fn, lo, Defs(c.fn, b.nfn, s), FnCount(s)) && b.nbb <= EmitS(c, s, b).nbb
    decreases s, 0
  {
    hide Adds, EmitR, EmitE, Leave, TypeE;
    match s
    case Skip => AddsRefl(b, c.fn, lo);
    case ExprStmt(e) => AddsE(c, e, b, lo);
    case Assign(_, _) => AddsStore(c, s, b, lo);
    case AssignOp(_, _, _) => AddsStore(c, s, b, lo);
    case Break => AddsAway(b, c.fn, c.loops[|c.loops| - 1].out, lo);
    case Continue => AddsAway(b, c.fn, c.loops[|c.loops| - 1].cond, lo);
    case Ret(v) => AddsRet(c, v, b, lo);
    case Goto(l) => AddsAway(b, c.fn, Named(l), lo);
    case Label(l) => AddsTurn(b, Br(Named(l)), c.fn, Named(l), lo);
  }

  lemma {:induction false} AddsLoop(c: Ctx, s: Stmt, b: Builder, lo: nat)
    requires s.While? || s.Loop? || s.For?
    requires Accepted(c, s) && lo <= b.nbb
    ensures Adds(b, EmitS(c, s, b), c.fn, lo, Defs(c.fn, b.nfn, s), FnCount(s)) && b.nbb <= EmitS(c, s, b).nbb
    decreases s, 0
  {
    hide Adds, EmitForHead, EmitR, EmitE, TypeE;
    match s
    case While(_, body) =>
      AddsWhileHead(c, s, b, lo);
      AddsTail(c, body, Anon(b.nbb), Anon(b.nbb + 2), b, WhileHead(c, s, b).0, lo);
    case Loop(body) =>
      AddsLoopHead(c, b, lo);
      AddsTail(c, body, Anon(b.nbb), Anon(b.nbb + 1), b, LoopHead(c, b), lo);
    case For(_, _, body) =>
      AddsForHead(c, s, b, lo);
      AddsTail(c, body, Anon(b.nbb), Anon(b.nbb + 2), b, EmitForHead(c, s, b), lo);
  }

  lemma AddsAway(b: Builder, fn: nat, target: BB, lo: nat)
    requires lo <= b.nbb
    ensures Adds(b, Leave(b, fn, target), fn, lo, [], 0) && b.nbb <= Leave(b, fn, target).nbb
  {
    AddsLeave(b, fn, target);
  }

  lemma AddsStore(c: Ctx, s: Stmt, b: Builder, lo: nat)
    requires s.Assign? || s.AssignOp?
    requires Accepted(c, s) && lo <= b.nbb
    ensures Adds(b, EmitS(c, s, b), c.fn, lo, [], 0) && b.nbb <= EmitS(c, s, b).nbb
  {
    hide Adds, EmitR, EmitE, TypeE, Size;
    AddsR(c, s.e, b, lo);
    var (b1, v) := EmitR(c, s.e, b);
    if s.Assign? {
      AddsAppend(b1, Store(v, s.x), c.fn, lo);
      AddsThen(b, b1, EmitS(c, s, b), c.fn, lo, lo, [], 0);
    } else {
      var (b2, l) := Define(b1, Load(b1.nreg, s.x));
      AddsAppend(b1, Load(b1.nreg, s.x), c.fn, lo);
      AddsThen(b, b1, b2, c.fn, lo, lo, [], 0);
      var i := ArithI(b2.nreg, s.op, Size(c.g[s.x]), l, v);
      var (b3, d) := Define(b2, i);
      AddsAppend(b2, i, c.fn, lo);
      AddsThen(b, b2, b3, c.fn, lo, lo, [], 0);
      AddsAppend(b3, Store(d, s.x), c.fn, lo);
      AddsThen(b, b3, EmitS(c, s, b), c.fn, lo, lo, [], 0);
    }
  }

  lemma AddsRet(c: Ctx, v: Option<Expr>, b: Builder, lo: nat)
    requires Accepted(c, Ret(v)) && lo <= b.nbb
    ensures Adds(b, EmitS(c, Ret(v), b), c.fn, lo, [], 0) && b.nbb <= EmitS(c, Ret(v), b).nbb
  {
    hide Adds, EmitR, EmitE, TypeE, Leave;
    if v.None? {
      AddsAway(b, c.fn, c.retbb, lo);
    } else {
      AddsR(c, v.value, b, lo);
      var (b1, r) := EmitR(c, v.value, b);
      var b2 := Append(b1, Store(r, c.retslot));
      AddsAppend(b1, Store(r, c.retslot), c.fn, lo);
      AddsThen(b, b1, b2, c.fn, lo, lo, [], 0);
      AddsAway(b2, c.fn, c.retbb, lo);
      AddsThen(b, b2, EmitS(c, Ret(v), b), c.fn, lo, lo, [], 0);
    }
  }

  lemma {:induction false} AddsSeq(c: Ctx, ss: seq<Stmt>, b: Builder, lo: nat)
    requires (forall i | 0 <= i < |ss| :: Accepted(c, ss[i])) && lo <= b.nbb
    ensures Adds(b, EmitSeq(c, ss, b), c.fn, lo, DefsSeq(c.fn, b.nfn, ss), FnCountSeq(ss)) &&
            b.nbb <= EmitSeq(c, ss, b).nbb
    decreases ss, 0
  {
    hide Names, EmitS, Accepted, Fits, Within, Defs, FnCount;
    if ss != [] {
      AddsS(c, ss[0], b, lo);
      var b1 := EmitS(c, ss[0], b);
      AddsSeq(c, ss[1..], b1, lo);
      AddsTrans(b, b1, EmitSeq(c, ss, b), c.fn, lo, lo, Defs(c.fn, b.nfn, ss[0]), DefsSeq(c.fn, b1.nfn, ss[1..]),
        FnCount(ss[0]), FnCountSeq(ss[1..]));
    } else {
      AddsRefl(b, c.fn, lo);
    }
  }

  lemma AddsLoopHead(c: Ctx, b: Builder, lo: nat)
    requires lo <= b.nbb
    ensures Adds(b, LoopHead(c, b), c.fn, lo, [], 0) && b.nbb <= LoopHead(c, b).nbb
  {
    hide Adds;
    AddsNewBB(b, 2, c.fn, lo);
    AddsTurn(NewBB(b, 2), Br(Anon(b.nbb)), c.fn, Anon(b.nbb), lo);
    AddsThen(b, NewBB(b, 2), LoopHead(c, b), c.fn, lo, lo, [], 0);
  }

  lemma AddsWhileHead(c: Ctx, s: Stmt, b: Builder, lo: nat)
    requires s.While? && TypeE(c.g, s.cond).Some? && lo <= b.nbb
    ensures Adds(b, WhileHead(c, s, b).0, c.fn, lo, [], 0) && b.nbb + 3 <= WhileHead(c, s, b).0.nbb
  {
    hide Adds, EmitR, TypeE;
    var b1 := Place(Append(NewBB(b, 3), Br(Anon(b.nbb))), c.fn, Anon(b.nbb));
    AddsNewBB(b, 3, c.fn, lo);
    AddsTurn(NewBB(b, 3), Br(Anon(b.nbb)), c.fn, Anon(b.nbb), lo);
    AddsThen(b, NewBB(b, 3), b1, c.fn, lo, lo, [], 0);
    AddsR(c, s.cond, b1, lo);
    var (b2, v) := EmitR(c, s.cond, b1);
    AddsThen(b, b1, b2, c.fn, lo, lo, [], 0);
    AddsTurn(b2, CondBr(v, Anon(b.nbb + 1), Anon(b.nbb + 2)), c.fn, Anon(b.nbb + 1), lo);
    AddsThen(b, b2, WhileHead(c, s, b).0, c.fn, lo, lo, [], 0);
  }

  lemma {:induction false} AddsTail(c: Ctx, body: Stmt, back: BB, out: BB, b: Builder, b1: Builder, lo: nat)
    requires Accepted(InLoop(c, back, out), body) && out.Anon? && lo <= out.id
    requires Adds(b, b1, c.fn, lo, [], 0) && lo <= b.nbb <= b1.nbb
    ensures var b2 := Place(Append(EmitS(InLoop(c, back, out), body, b1), Br(back)), c.fn, out);
            Adds(b, b2, c.fn, lo, Defs(c.fn, b.nfn, body), FnCount(body)) && b.nbb <= b2.nbb
    decreases body, 2
  {
    hide EmitS, Accepted, Names, Fits, Within, Defs, FnCount;
    assert b1.nfn == b.nfn;
    AddsS(InLoop(c, back, out), body, b1, lo);
    var b2 := EmitS(InLoop(c, back, out), body, b1);
    var ds, n := Defs(c.fn, b.nfn, body), FnCount(body);
    AddsAfter(b, b1, b2, c.fn, lo, lo, ds, n);
    AddsTurn(b2, Br(back), c.fn, out, lo);
    AddsThen(b, b2, Place(Append(b2, Br(back)), c.fn, out), c.fn, lo, lo, ds, n);
  }

  lemma AddsForHead(c: Ctx, s: Stmt, b: Builder, lo: nat)
    requires s.For? && ForSourceOk(c.g, s.x, s.src) && lo <= b.nbb
    ensures Adds(b, EmitForHead(c, s, b), c.fn, lo, [], 0) && b.nbb <= EmitForHead(c, s, b).nbb
  {
    hide Adds, EmitBounds, EmitForTest;
    var b0 := NewBB(b, 3);
    AddsNewBB(b, 3, c.fn, lo);
    AddsBounds(c, s.src, b0, lo);
    var (b1, first, last) := EmitBounds(c, s.src, b0);
    AddsThen(b, b0, b1, c.fn, lo, lo, [], 0);
    var b2 := Append(b1, Store(first, b1.nslot)).(nslot := b1.nslot + 1);
    AddsSlot(b1, first, c.fn, lo);
    AddsThen(b, b1, b2, c.fn, lo, lo, [], 0);
    AddsForTest(c, s, b.nbb, b1.nslot, last, b2, lo);
    AddsThen(b, b2, EmitForHead(c, s, b), c.fn, lo, lo, [], 0);
  }

  lemma AddsBounds(c: Ctx, src: ForSource, b: Builder, lo: nat)
    requires src.Range? ==> TypeE(c.g, src.lo).Some? && TypeE(c.g, src.hi).Some?
    requires lo <= b.nbb
    ensures Adds(b, EmitBounds(c, src, b).0, c.fn, lo, [], 0) && b.nbb <= EmitBounds(c, src, b).0.nbb
  {
    hide Adds, EmitR;
    if src.Range? {
      AddsR(c, src.lo, b, lo);
      var b1 := EmitR(c, src.lo, b).0;
      AddsR(c, src.hi, b1, lo);
      AddsThen(b, b1, EmitR(c, src.hi, b1).0, c.fn, lo, lo, [], 0);
    } else {
      AddsRefl(b, c.fn, lo);
    }
  }

  lemma AddsForTest(c: Ctx, s: Stmt, id: nat, idx: nat, last: Value, b: Builder, lo: nat)
    requires s.For? && ForSourceOk(c.g, s.x, s.src) && lo <= id
    ensures Adds(b, EmitForTest(c, s, id, idx, last, b), c.fn, lo, [], 0) &&
            EmitForTest(c, s, id, idx, last, b).nbb == b.nbb
  {
    hide Adds;
    AddsForCopy(c, s, id, idx, last, b, lo);
    var b6 := ForCopy(c, s, id, idx, last, b);
    AddsForStep(if s.src.Array? then U64 else c.g[s.x], idx, b6, c.fn, lo);
    AddsThen(b, b6, EmitForTest(c, s, id, idx, last, b), c.fn, lo, lo, [], 0);
  }

  lemma AddsForCopy(c: Ctx, s: Stmt, id: nat, idx: nat, last: Value, b: Builder, lo: nat)
    requires s.For? && ForSourceOk(c.g, s.x, s.src) && lo <= id
    ensures Adds(b, ForCopy(c, s, id, idx, last, b), c.fn, lo, [], 0)
  {
    hide Adds;
    var t := if s.src.Array? then U64 else c.g[s.x];
    var b1 := Place(Append(b, Br(Anon(id))), c.fn, Anon(id));
    AddsTurn(b, Br(Anon(id)), c.fn, Anon(id), lo);
    var (b2, i) := Define(b1, Load(b1.nreg, idx));
    AddsAppend(b1, Load(b1.nreg, idx), c.fn, lo);
    AddsThen(b, b1, b2, c.fn, lo, lo, [], 0);
    var cmp := CmpI(b2.nreg, ForPred(s, t), Size(t), i, last);
    var (b3, go) := Define(b2, cmp);
    AddsAppend(b2, cmp, c.fn, lo);
    AddsThen(b, b2, b3, c.fn, lo, lo, [], 0);
    var br := CondBr(go, Anon(id + 1), Anon(id + 2));
    var b4 := Place(Append(b3, br), c.fn, Anon(id + 1));
    AddsTurn(b3, br, c.fn, Anon(id + 1), lo);
    AddsThen(b, b3, b4, c.fn, lo, lo, [], 0);
    var (b5, item) := if s.src.Array? then Define(b4, LoadAt(b4.nreg, s.src.base, i)) else (b4, i);
    if s.src.Array? {
      AddsAppend(b4, LoadAt(b4.nreg, s.src.base, i), c.fn, lo);
      AddsThen(b, b4, b5, c.fn, lo, lo, [], 0);
    }
    AddsAppend(b5, Store(item, s.x), c.fn, lo);
    AddsThen(b, b5, Append(b5, Store(item, s.x)), c.fn, lo, lo, [], 0);
  }

  lemma AddsForStep(t: Ty, idx: nat, b: Builder, fn: nat, lo: nat)
    ensures var (b7, j) := Define(b, Load(b.nreg, idx));
            var (b8, next) := Define(b7, ArithI(b7.nreg, Add, Size(t), j, Const(1)));
            Adds(b, Append(b8, Store(next, idx)), fn, lo, [], 0)
  {
    hide Adds;
    var (b7, j) := Define(b, Load(b.nreg, idx));
    AddsAppend(b, Load(b.nreg, idx), fn, lo);
    var add := ArithI(b7.nreg, Add, Size(t), j, Const(1));
    var (b8, next) := Define(b7, add);
    AddsAppend(b7, add, fn, lo);
    AddsThen(b, b7, b8, fn, lo, lo, [], 0);
    AddsAppend(b8, Store(next, idx), fn, lo);
    AddsThen(b, b8, Append(b8, Store(next, idx)), fn, lo, lo, [], 0);
  }

  // ----- if-chains -----

  lemma {:induction false} AddsConds(c: Ctx, conds: seq<Expr>, base: nat, b: Builder, lo: nat)
    requires (forall i | 0 <= i < |conds| :: TypeE(c.g, conds[i]) == Some(BOOL)) && lo <= base && lo <= b.nbb
    ensures Adds(b, EmitConds(c, conds, base, b), c.fn, lo, [], 0) && b.nbb <= EmitConds(c, conds, base, b).nbb
    decreases conds
  {
    hide Adds, EmitR, TypeE;
    if conds == [] {
      AddsRefl(b, c.fn, lo);
    } else {
      AddsR(c, conds[0], b, lo);
      var (b1, v) := EmitR(c, conds[0], b);
      var b2 := Place(Append(b1, CondBr(v, Anon(base + 1), Anon(base))), c.fn, Anon(base));
      AddsTurn(b1, CondBr(v, Anon(base + 1), Anon(base)), c.fn, Anon(base), lo);
      AddsThen(b, b1, b2, c.fn, lo, lo, [], 0);
      AddsConds(c, conds[1..], base + 2, b2, lo);
      AddsThen(b, b2, EmitConds(c, conds, base, b), c.fn, lo, lo, [], 0);
    }
  }

  lemma {:induction false} AddsArm(c: Ctx, s: Stmt, bb: BB, out: BB, b: Builder, lo: nat)
    requires Accepted(c, s) && bb.Anon? && lo <= bb.id && lo <= b.nbb
    ensures Adds(b, EmitArm(c, s, bb, out, b), c.fn, lo, Defs(c.fn, b.nfn, s), FnCount(s)) &&
            b.nbb <= EmitArm(c, s, bb, out, b).nbb
    decreases s, 2
  {
    hide Adds, EmitS, Accepted, Defs, FnCount;
    var b1 := Place(b, c.fn, bb);
    AddsPlace(b, c.fn, bb, lo);
    AddsS(c, s, b1, lo);
    var b2 := EmitS(c, s, b1);
    var ds, n := Defs(c.fn, b.nfn, s), FnCount(s);
    AddsAfter(b, b1, b2, c.fn, lo, lo, ds, n);
    AddsAppend(b2, Br(out), c.fn, lo);
    AddsThen(b, b2, Append(b2, Br(out)), c.fn, lo, lo, ds, n);
  }

  lemma {:induction false} AddsBodies(c: Ctx, bodies: seq<Stmt>, base: nat, out: BB, b: Builder, lo: nat)
    requires (forall i | 0 <= i < |bodies| :: Accepted(c, bodies[i])) && lo <= base && lo <= b.nbb
    ensures var b1 := EmitBodies(c, bodies, base, out, b);
            Adds(b, b1, c.fn, lo, DefsSeq(c.fn, b.nfn, bodies), FnCountSeq(bodies)) && b.nbb <= b1.nbb
    decreases bodies, 0
  {
    hide Names, EmitS, EmitArm, Accepted, Fits, Within, Defs, FnCount;
    if bodies == [] {
      AddsRefl(b, c.fn, lo);
    } else {
      AddsArm(c, bodies[0], Anon(base + 1), out, b, lo);
      var b1 := EmitArm(c, bodies[0], Anon(base + 1), out, b);
      AddsBodies(c, bodies[1..], base + 2, out, b1, lo);
      AddsTrans(b, b1, EmitBodies(c, bodies, base, out, b), c.fn, lo, lo, Defs(c.fn, b.nfn, bodies[0]),
                DefsSeq(c.fn, b1.nfn, bodies[1..]),
        FnCount(bodies[0]), FnCountSeq(bodies[1..]));
    }
  }

  lemma {:induction false} AddsIf(c: Ctx, s: Stmt, b: Builder, lo: nat)
    requires s.If? && Accepted(c, s) && lo <= b.nbb
    ensures Adds(b, EmitS(c, s, b), c.fn, lo, Defs(c.fn, b.nfn, s), FnCount(s)) && b.nbb <= EmitS(c, s, b).nbb
    ensures Adds(b, IfTurn(c, s, b), c.fn, lo, [], 0)
    ensures Adds(IfTurn(c, s, b), IfArms(c, s, b), c.fn, lo, DefsSeq(c.fn, b.nfn, s.bodies), FnCountSeq(s.bodies))
    decreases s, 0
  {
    hide Names, EmitS, EmitArm, EmitConds, EmitBodies, Accepted, Fits, Within;
    AcceptedIf(c, s);
    UnfoldIf(c, s, b);
    var b0, b1, b2, b3, b4 := NewBB(b, IfBlocks(s)), IfConds(c, s, b), IfTurn(c, s, b), IfArms(c, s, b),
        IfElse(c, s, b);
    var ds, n := DefsSeq(c.fn, b.nfn, s.bodies), FnCountSeq(s.bodies);
    AddsNewBB(b, IfBlocks(s), c.fn, lo);
    AddsConds(c, s.conds, b.nbb + 1, b0, lo);
    AddsThen(b, b0, b1, c.fn, lo, lo, [], 0);
    AddsAppend(b1, Br(if s.remain.Some? then ElseBlock(b.nbb + 1, |s.conds|) else Anon(b.nbb)), c.fn, lo);
    AddsThen(b, b1, b2, c.fn, lo, lo, [], 0);
    AddsBodies(c, s.bodies, b.nbb + 1, Anon(b.nbb), b2, lo);
    AddsAfter(b, b2, b3, c.fn, lo, lo, ds, n);
    if s.remain.Some? {
      AddsArm(c, s.remain.value, ElseBlock(b.nbb + 1, |s.conds|), Anon(b.nbb), b3, lo);
      AddsTrans(b, b3, b4, c.fn, lo, lo, ds, Defs(c.fn, b3.nfn, s.remain.value), n, FnCount(s.remain.value));
    } else {
      assert ds + [] == ds;
    }
    AddsPlace(b4, c.fn, Anon(b.nbb), lo);
    AddsThen(b, b4, EmitS(c, s, b), c.fn, lo, lo, Defs(c.fn, b.nfn, s), FnCount(s));
  }

  // ----- functions -----

  lemma {:induction false} AddsFn(c: Ctx, ret: Option<Ty>, body: Stmt, b: Builder, lo: nat)
    requires WellTyped(c.g, ret, body) && LoopStackOk(body, c.loops != []) && lo <= b.nbb
    ensures Adds(b, EmitFn(c, ret, body, b), c.fn, lo, Defs(b.nfn, b.nfn + 1, body), 1 + FnCount(body))
    ensures b.nbb <= EmitFn(c, ret, body, b).nbb
    decreases body, 2
  {
    hide Names, EmitS, EmitExit, WellTyped, LoopStackOk, Within, Defs, FnCount;
    var c1, b0 := FnCtx(c, ret, b), FnEntry(ret, b);
    var ds := Defs(b.nfn, b.nfn + 1, body);
    AddsEntry(ret, b, lo);
    AddsS(c1, body, b0, lo);
    var b1 := EmitS(c1, body, b0);
    AddsExit(c1, b1, lo);
    var b2 := EmitExit(c1, b1);
    AddsThen(b0, b1, b2, c1.fn, lo, lo, ds, FnCount(body));
    var b3 := b2.(cur := b.cur);
    forall k | |b.placed| <= k < |b3.placed|
      ensures Fits(b3.placed[k], c.fn, lo, b.nfn, b3.nfn)
    {
      if k > |b.placed| {
        assert Fits(b2.placed[k], c1.fn, lo, b0.nfn, b2.nfn);
      }
    }
    WithinTrans(b.blocks, b0.blocks, b2.blocks);
  }

  lemma WithinTrans(x: Code, y: Code, z: Code)
    requires Within(x, y) && Within(y, z)
    ensures Within(x, z)
  {
  }

  lemma AddsEntry(ret: Option<Ty>, b: Builder, lo: nat)
    requires lo <= b.nbb
    ensures var b0 := FnEntry(ret, b);
            && b0.placed == b.placed + [(b.nfn, Anon(b.nbb + 1))] && Names(b0.placed) == Names(b.placed)
            && Within(b.blocks, b0.blocks) && b0.nfn == b.nfn + 1
  {
    var b0 := FnEntry(ret, b);
    assert b0.placed[..|b.placed|] == b.placed;
  }

  lemma AddsExit(c: Ctx, b: Builder, lo: nat)
    requires c.retbb.Anon? && lo <= c.retbb.id
    ensures Adds(b, EmitExit(c, b), c.fn, lo, [], 0) && EmitExit(c, b).nbb == b.nbb
  {
    hide Adds;
    var b1 := Place(Append(b, Br(c.retbb)), c.fn, c.retbb);
    AddsTurn(b, Br(c.retbb), c.fn, c.retbb, lo);
    if c.ret.None? {
      AddsAppend(b1, RetVoid, c.fn, lo);
      AddsThen(b, b1, EmitExit(c, b), c.fn, lo, lo, [], 0);
    } else {
      var (b2, v) := Define(b1, Load(b1.nreg, c.retslot));
      AddsAppend(b1, Load(b1.nreg, c.retslot), c.fn, lo);
      AddsThen(b, b1, b2, c.fn, lo, lo, [], 0);
      AddsAppend(b2, RetI(v), c.fn, lo);
      AddsThen(b, b2, EmitExit(c, b), c.fn, lo, lo, [], 0);
    }
  }
}
