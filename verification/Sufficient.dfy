/** Distinct labels, gotos within their function and break and continue within a loop of
    their function are enough for well-formed functions. */
module Sufficient {
  import opened IntTypes
  import opened Syntax
  import opened Target
  import opened Emit
  import opened Frame
  import opened Placement
  import opened WellFormed

  /** The surroundings provide every block a statement may branch to. */
  ghost predicate Provides(c: Ctx, reach: set<string>, inLoop: bool, ext: set<BB>) {
    && c.retbb in ext
    && (forall l | l in reach :: Named(l) in ext)
    && (inLoop && c.loops != [] ==> c.loops[|c.loops| - 1].cond in ext && c.loops[|c.loops| - 1].out in ext)
  }

  ghost predicate CanThread(c: Ctx, s: Stmt, b: Builder) {
    Accepted(c, s) && Ready(b) && DistinctLabels(s) && FreshLabels(b, Labels(s, true))
  }

  lemma {:induction false} ThroughS(c: Ctx, s: Stmt, b: Builder, reach: set<string>, inLoop: bool, ext: set<BB>)
    requires CanThread(c, s, b) && Open(b) && Resolved(s, reach, inLoop) && Provides(c, reach, inLoop, ext)
    requires Below(ext, b.nbb)
    ensures Through(b, EmitS(c, s, b), c.fn, ext)
    decreases s, 1
  {
    hide Grown, Counted, Threads, Open, FreshLabels, EmitForHead, EmitR, EmitE, EmitFn, Leave, EmitConds, EmitBodies,
         EmitSeq, TypeE;
    match s
    case Skip => ThroughRefl(b, c.fn, ext);
    case ExprStmt(e) => ThroughE(c, e, b, ext);
    case Assign(_, _) => ThroughStore(c, s, b, ext);
    case AssignOp(_, _, _) => ThroughStore(c, s, b, ext);
    case Block(ss) => ThroughSeq(c, ss, b, reach, inLoop, ext);
    case If(_, _, _) => ThroughIf(c, s, b, reach, inLoop, ext);
    case While(_, _) => ThroughLoop(c, s, b, reach, ext);
    case Loop(_) => ThroughLoop(c, s, b, reach, ext);
    case For(_, _, _) => ThroughLoop(c, s, b, reach, ext);
    case Break => ThroughAway(b, c.fn, c.loops[|c.loops| - 1].out, ext);
    case Continue => ThroughAway(b, c.fn, c.loops[|c.loops| - 1].cond, ext);
    case Ret(v) => ThroughRet(c, v, b, ext);
    case Goto(l) => ThroughAway(b, c.fn, Named(l), ext);
    case Label(l) =>
      NameFree(b, Labels(s, true), l);
      ThroughTurn(b, Br(Named(l)), c.fn, Named(l), ext + {Named(l)});
      ThroughOwn(b, EmitS(c, s, b), c.fn, ext, {Named(l)});
    case FnDef(r, body) => ThroughFn(c, r, body, b, ext);
  }

  lemma {:induction false} ThroughLoop(c: Ctx, s: Stmt, b: Builder, reach: set<string>, ext: set<BB>)
    requires s.While? || s.Loop? || s.For?
    requires CanThread(c, s, b) && Open(b) && Resolved(s.body, reach, true)
    requires c.retbb in ext && (forall l | l in reach :: Named(l) in ext) && Below(ext, b.nbb)
    ensures Through(b, EmitS(c, s, b), c.fn, ext)
    decreases s, 0
  {
    hide Grown, Counted, Threads, Open, FreshLabels, EmitForHead, EmitR, EmitE, TypeE, Resolved, DistinctLabels,
         Labels;
    LoopLabels(s);
    match s
    case While(_, body) =>
      var own := {Anon(b.nbb), Anon(b.nbb + 1), Anon(b.nbb + 2)};
      ThroughWhileHead(c, s, b, ext + own);
      GrowsWhileHead(c, s, b);
      ThroughTail(c, body, Anon(b.nbb), Anon(b.nbb + 2), b, WhileHead(c, s, b).0, reach, ext, own);
    case Loop(body) =>
      var own := {Anon(b.nbb), Anon(b.nbb + 1)};
      ThroughLoopHead(c, b, ext + own);
      GrowsLoopHead(c, b);
      ThroughTail(c, body, Anon(b.nbb), Anon(b.nbb + 1), b, LoopHead(c, b), reach, ext, own);
    case For(_, _, body) =>
      var own := {Anon(b.nbb), Anon(b.nbb + 1), Anon(b.nbb + 2)};
      ThroughForHead(c, s, b, ext + own);
      GrowsForHead(c, s, b);
      ThroughTail(c, body, Anon(b.nbb), Anon(b.nbb + 2), b, EmitForHead(c, s, b), reach, ext, own);
  }

  lemma ThroughAway(b: Builder, fn: nat, target: BB, ext: set<BB>)
    requires Ready(b) && Open(b) && target in ext
    requires Below(ext, b.nbb)
    ensures Through(b, Leave(b, fn, target), fn, ext)
  {
    hide Grown, Counted, Threads, Open;
    ThreadsAway(b, fn, target, ext);
    GrowsLeave(b, fn, target, {});
  }

  lemma ThroughStore(c: Ctx, s: Stmt, b: Builder, ext: set<BB>)
    requires s.Assign? || s.AssignOp?
    requires Accepted(c, s) && Ready(b) && Open(b)
    requires Below(ext, b.nbb)
    ensures Through(b, EmitS(c, s, b), c.fn, ext)
  {
    hide Grown, Counted, Threads, Open, EmitR, EmitE, TypeE, Size;
    ThroughR(c, s.e, b, ext);
    var (b1, v) := EmitR(c, s.e, b);
    if s.Assign? {
      ThroughDefine(b1, Store(v, s.x), c.fn, ext);
      ThroughTrans(b, b1, EmitS(c, s, b), c.fn, ext);
    } else {
      var (b2, l) := Define(b1, Load(b1.nreg, s.x));
      ThroughDefine(b1, Load(b1.nreg, s.x), c.fn, ext);
      ThroughTrans(b, b1, b2, c.fn, ext);
      var i := ArithI(b2.nreg, s.op, Size(c.g[s.x]), l, v);
      var (b3, d) := Define(b2, i);
      ThroughDefine(b2, i, c.fn, ext);
      ThroughTrans(b, b2, b3, c.fn, ext);
      ThroughDefine(b3, Store(d, s.x), c.fn, ext);
      ThroughTrans(b, b3, EmitS(c, s, b), c.fn, ext);
    }
  }

  lemma ThroughRet(c: Ctx, v: Option<Expr>, b: Builder, ext: set<BB>)
    requires Accepted(c, Ret(v)) && Ready(b) && Open(b) && c.retbb in ext
    requires Below(ext, b.nbb)
    ensures Through(b, EmitS(c, Ret(v), b), c.fn, ext)
  {
    hide Grown, Counted, Threads, Open, EmitR, EmitE, TypeE, Leave;
    if v.None? {
      ThroughAway(b, c.fn, c.retbb, ext);
    } else {
      ThroughR(c, v.value, b, ext);
      var (b1, r) := EmitR(c, v.value, b);
      var b2 := Append(b1, Store(r, c.retslot));
      ThroughDefine(b1, Store(r, c.retslot), c.fn, ext);
      ThroughTrans(b, b1, b2, c.fn, ext);
      ThroughAway(b2, c.fn, c.retbb, ext);
      ThroughTrans(b, b2, EmitS(c, Ret(v), b), c.fn, ext);
    }
  }

  lemma {:induction false} ThroughSeq(c: Ctx, ss: seq<Stmt>, b: Builder, reach: set<string>, inLoop: bool, ext: set<BB>)
    requires (forall i | 0 <= i < |ss| :: Accepted(c, ss[i]) && Resolved(ss[i], reach, inLoop)) && Ready(b) && Open(b)
    requires DistinctLabelsSeq(ss) && FreshLabels(b, LabelsSeq(ss, true)) && Provides(c, reach, inLoop, ext)
    requires Below(ext, b.nbb)
    ensures Through(b, EmitSeq(c, ss, b), c.fn, ext)
    decreases ss, 0
  {
    hide Grown, Counted, Threads, Open, EmitS, Accepted, Provides, Resolved;
    if ss == [] {
      ThroughRefl(b, c.fn, ext);
    } else {
      ThroughS(c, ss[0], b, reach, inLoop, ext);
      GrowsS(c, ss[0], b);
      var b1 := EmitS(c, ss[0], b);
      StillFresh(b, b1, b.nbb, Labels(ss[0], true), LabelsSeq(ss[1..], true));
      ThroughSeq(c, ss[1..], b1, reach, inLoop, ext);
      ThroughTrans(b, b1, EmitSeq(c, ss, b), c.fn, ext);
    }
  }

  // ----- loops -----

  lemma ThroughLoopHead(c: Ctx, b: Builder, ext: set<BB>)
    requires Ready(b) && Open(b) && Anon(b.nbb) in ext && Below(ext, b.nbb + 2)
    ensures Through(b, LoopHead(c, b), c.fn, ext)
    ensures (c.fn, Anon(b.nbb)) in LoopHead(c, b).placed[|b.placed|..]
  {
    hide Grown, Threads;
    ThroughNewBB(b, 2, c.fn, ext);
    ThroughTurn(NewBB(b, 2), Br(Anon(b.nbb)), c.fn, Anon(b.nbb), ext);
    ThroughTrans(b, NewBB(b, 2), LoopHead(c, b), c.fn, ext);
  }

  lemma ThroughWhileHead(c: Ctx, s: Stmt, b: Builder, ext: set<BB>)
    requires s.While? && TypeE(c.g, s.cond).Some? && Ready(b) && Open(b)
    requires Anon(b.nbb) in ext && Anon(b.nbb + 1) in ext && Anon(b.nbb + 2) in ext && Below(ext, b.nbb + 3)
    ensures Through(b, WhileHead(c, s, b).0, c.fn, ext)
    ensures (c.fn, Anon(b.nbb)) in WhileHead(c, s, b).0.placed[|b.placed|..]
    ensures (c.fn, Anon(b.nbb + 1)) in WhileHead(c, s, b).0.placed[|b.placed|..]
  {
    hide Grown, Counted, Threads, Open, EmitR, TypeE;
    var b0 := NewBB(b, 3);
    var b1 := Place(Append(b0, Br(Anon(b.nbb))), c.fn, Anon(b.nbb));
    ThroughNewBB(b, 3, c.fn, ext);
    NotYet(b, b.nbb);
    ThroughTurn(b0, Br(Anon(b.nbb)), c.fn, Anon(b.nbb), ext);
    ThroughTrans(b, b0, b1, c.fn, ext);
    ThroughR(c, s.cond, b1, ext);
    var (b2, v) := EmitR(c, s.cond, b1);
    ThroughTrans(b, b1, b2, c.fn, ext);
    GrowsWhileTest(c, b);
    GrowsR(c, s.cond, b1);
    StillFree(b1, b2, b1.nbb, {}, b.nbb + 1);
    BelowCount(b1, b2, b.nbb + 1);
    var br := CondBr(v, Anon(b.nbb + 1), Anon(b.nbb + 2));
    var b3 := Place(Append(b2, br), c.fn, Anon(b.nbb + 1));
    ThroughTurn(b2, br, c.fn, Anon(b.nbb + 1), ext);
    ThroughTrans(b, b2, b3, c.fn, ext);
    ThroughPrefix(b1, b2, c.fn, ext);
    ThroughPrefix(b, b2, c.fn, ext);
    StillPlaced(b, b1, b3, (c.fn, Anon(b.nbb)));
    StillPlaced(b, b2, b3, (c.fn, Anon(b.nbb + 1)));
  }

  lemma BelowCount(b: Builder, b1: Builder, k: nat)
    requires Grows(b, b1, b.nbb, {}) && k < b.nbb
    ensures k < b1.nbb
  {
  }

  /** The body and the end of a loop; `own` are the loop's blocks, all placed by then. */
  lemma {:induction false} ThroughTail(c: Ctx, body: Stmt, back: BB, out: BB, b: Builder, b1: Builder,
                                       reach: set<string>, ext: set<BB>, own: set<BB>)
    requires CanThread(InLoop(c, back, out), body, b) && Grows(b, b1, b.nbb, {}) && Through(b, b1, c.fn, ext + own)
    requires Resolved(body, reach, true) && c.retbb in ext && (forall l | l in reach :: Named(l) in ext) &&
             back in own && out in own
    requires out.Anon? && b.nbb <= out.id < b1.nbb && out !in b1.blocks && Below(ext + own, b1.nbb)
    requires forall t | t in own && t != out :: (c.fn, t) in b1.placed[|b.placed|..]
    ensures Through(b, Place(Append(EmitS(InLoop(c, back, out), body, b1), Br(back)), c.fn, out), c.fn, ext)
    decreases body, 2
  {
    hide Grown, Counted, Threads, Open, EmitS, Accepted, Resolved, FreshLabels, DistinctLabels, Labels;
    var c1 := InLoop(c, back, out);
    var b2 := EmitS(c1, body, b1);
    var b3 := Place(Append(b2, Br(back)), c.fn, out);
    StillFresh(b, b1, b.nbb, {}, Labels(body, true));
    GrowsTail(c, body, back, out, b, b1);
    assert Provides(c1, reach, true, ext + own);
    ThroughS(c1, body, b1, reach, true, ext + own);
    ThroughTrans(b, b1, b2, c.fn, ext + own);
    GrowsCount(b1, b2, Labels(body, true), out.id);
    ThroughTurn(b2, Br(back), c.fn, out, ext + own);
    ThroughTrans(b, b2, b3, c.fn, ext + own);
    ThroughPrefix(b, b1, c.fn, ext + own);
    ThroughPrefix(b1, b2, c.fn, ext + own);
    forall t | t in own
      ensures (c.fn, t) in b3.placed[|b.placed|..]
    {
      if t == out {
        StillPlaced(b, b2, b3, (c.fn, out));
      } else {
        StillPlaced(b, b1, b3, (c.fn, t));
      }
    }
    ThroughOwn(b, b3, c.fn, ext, own);
  }

  lemma GrowsCount(b: Builder, b1: Builder, ls: set<string>, k: nat)
    requires Grows(b, b1, b.nbb, ls) && k < b.nbb
    ensures k < b1.nbb
  {
  }

  lemma ThroughForHead(c: Ctx, s: Stmt, b: Builder, ext: set<BB>)
    requires s.For? && ForSourceOk(c.g, s.x, s.src) && Ready(b) && Open(b)
    requires Anon(b.nbb) in ext && Anon(b.nbb + 1) in ext && Anon(b.nbb + 2) in ext && Below(ext, b.nbb + 3)
    ensures Through(b, EmitForHead(c, s, b), c.fn, ext)
    ensures (c.fn, Anon(b.nbb)) in EmitForHead(c, s, b).placed[|b.placed|..]
    ensures (c.fn, Anon(b.nbb + 1)) in EmitForHead(c, s, b).placed[|b.placed|..]
  {
    hide Grown, Counted, Threads, Open, EmitBounds, EmitForTest;
    var b0 := NewBB(b, 3);
    ThroughNewBB(b, 3, c.fn, ext);
    ThroughBounds(c, s.x, s.src, b0, ext);
    var (b1, first, last) := EmitBounds(c, s.src, b0);
    ThroughTrans(b, b0, b1, c.fn, ext);
    var b2 := ForSlot(c, s, b);
    ThroughSlot(b1, first, c.fn, ext);
    ThroughTrans(b, b1, b2, c.fn, ext);
    GrowsForSlot(c, s, b);
    ThroughForTest(c, s, b.nbb, b1.nslot, last, b2, ext);
    var b3 := EmitForHead(c, s, b);
    ThroughTrans(b, b2, b3, c.fn, ext);
    ThroughPrefix(b, b2, c.fn, ext);
    ThroughPrefix(b2, b3, c.fn, ext);
    StillPlaced(b, b2, b3, (c.fn, Anon(b.nbb)));
    StillPlaced(b, b2, b3, (c.fn, Anon(b.nbb + 1)));
  }

  lemma ThroughBounds(c: Ctx, x: nat, src: ForSource, b: Builder, ext: set<BB>)
    requires ForSourceOk(c.g, x, src) && Ready(b) && Open(b)
    requires Below(ext, b.nbb)
    ensures Through(b, EmitBounds(c, src, b).0, c.fn, ext)
  {
    hide Grown, Counted, Threads, Open, EmitR;
    if src.Range? {
      ThroughR(c, src.lo, b, ext);
      var b1 := EmitR(c, src.lo, b).0;
      ThroughR(c, src.hi, b1, ext);
      ThroughTrans(b, b1, EmitR(c, src.hi, b1).0, c.fn, ext);
    } else {
      ThroughRefl(b, c.fn, ext);
    }
  }

  lemma ThroughForTest(c: Ctx, s: Stmt, id: nat, idx: nat, last: Value, b: Builder, ext: set<BB>)
    requires s.For? && ForSourceOk(c.g, s.x, s.src) && Ready(b) && Open(b)
    requires id + 2 < b.nbb && Anon(id) !in b.blocks && Anon(id + 1) !in b.blocks
    requires Anon(id) in ext && Anon(id + 1) in ext && Anon(id + 2) in ext
    requires Below(ext, b.nbb)
    ensures Through(b, EmitForTest(c, s, id, idx, last, b), c.fn, ext)
    ensures (c.fn, Anon(id)) in EmitForTest(c, s, id, idx, last, b).placed[|b.placed|..]
    ensures (c.fn, Anon(id + 1)) in EmitForTest(c, s, id, idx, last, b).placed[|b.placed|..]
  {
    hide Grown, Counted, Threads, Open;
    ThroughForCopy(c, s, id, idx, last, b, ext);
    var b6 := ForCopy(c, s, id, idx, last, b);
    ThroughForStep(if s.src.Array? then U64 else c.g[s.x], idx, b6, c.fn, ext);
    ThroughTrans(b, b6, EmitForTest(c, s, id, idx, last, b), c.fn, ext);
  }

  lemma ThroughForStep(t: Ty, idx: nat, b: Builder, fn: nat, ext: set<BB>)
    requires Ready(b) && Open(b)
    ensures var (b7, j) := Define(b, Load(b.nreg, idx));
            var (b8, next) := Define(b7, ArithI(b7.nreg, Add, Size(t), j, Const(1)));
            Through(b, Append(b8, Store(next, idx)), fn, ext)
  {
    hide Grown, Counted, Threads, Open;
    var (b7, j) := Define(b, Load(b.nreg, idx));
    ThroughDefine(b, Load(b.nreg, idx), fn, ext);
    var add := ArithI(b7.nreg, Add, Size(t), j, Const(1));
    var (b8, next) := Define(b7, add);
    ThroughDefine(b7, add, fn, ext);
    ThroughTrans(b, b7, b8, fn, ext);
    ThroughDefine(b8, Store(next, idx), fn, ext);
    ThroughTrans(b, b8, Append(b8, Store(next, idx)), fn, ext);
  }

  lemma ThroughForCopy(c: Ctx, s: Stmt, id: nat, idx: nat, last: Value, b: Builder, ext: set<BB>)
    requires s.For? && ForSourceOk(c.g, s.x, s.src) && Ready(b) && Open(b)
    requires id + 2 < b.nbb && Anon(id) !in b.blocks && Anon(id + 1) !in b.blocks
    requires Anon(id) in ext && Anon(id + 1) in ext && Anon(id + 2) in ext
    requires Below(ext, b.nbb)
    ensures Through(b, ForCopy(c, s, id, idx, last, b), c.fn, ext)
    ensures (c.fn, Anon(id)) in ForCopy(c, s, id, idx, last, b).placed[|b.placed|..]
    ensures (c.fn, Anon(id + 1)) in ForCopy(c, s, id, idx, last, b).placed[|b.placed|..]
  {
    hide Grown, Counted, Threads, Open, Below, Place, Append, Define, ForCompared, ForSourceOk;
    var t := if s.src.Array? then U64 else ForVar(c, s);
    var (b3, i, go) := ForCompared(c, t, ForPred(s, t), id, idx, last, b);
    ThroughCompared(c, t, ForPred(s, t), id, idx, last, b, ext);
    var br := CondBr(go, Anon(id + 1), Anon(id + 2));
    var b4 := Place(Append(b3, br), c.fn, Anon(id + 1));
    BelowMore(ext, b.nbb, b3.nbb);
    ThroughTurn(b3, br, c.fn, Anon(id + 1), ext);
    ThroughTrans(b, b3, b4, c.fn, ext);
    var b6 := ForCopy(c, s, id, idx, last, b);
    CopyUnfold(c, s, id, idx, last, b);
    ThroughItem(c, s, i, b4, ext);
    ThroughTrans(b, b4, b6, c.fn, ext);
    ThroughPrefix(b, b3, c.fn, ext);
    ThroughPrefix(b3, b4, c.fn, ext);
    ThroughPrefix(b4, b6, c.fn, ext);
    StillPlaced(b, b3, b6, (c.fn, Anon(id)));
    StillPlaced(b3, b4, b6, (c.fn, Anon(id + 1)));
    StillPlaced(b, b3, b6, (c.fn, Anon(id + 1)));
  }

  ghost function ForVar(c: Ctx, s: Stmt): Ty
    requires s.For? && ForSourceOk(c.g, s.x, s.src)
  {
    c.g[s.x]
  }

  /** The test block up to the comparison. */
  ghost function ForCompared(c: Ctx, t: Ty, pred: Pred, id: nat, idx: nat, last: Value, b: Builder)
    : (Builder, Value, Value)
  {
    var b1 := Place(Append(b, Br(Anon(id))), c.fn, Anon(id));
    var (b2, i) := Define(b1, Load(b1.nreg, idx));
    var (b3, go) := Define(b2, CmpI(b2.nreg, pred, Size(t), i, last));
    (b3, i, go)
  }

  ghost function ItemCopied(s: Stmt, i: Value, b4: Builder): Builder
    requires s.For?
  {
    var (b5, item) := if s.src.Array? then Define(b4, LoadAt(b4.nreg, s.src.base, i)) else (b4, i);
    Append(b5, Store(item, s.x))
  }

  lemma CopyUnfold(c: Ctx, s: Stmt, id: nat, idx: nat, last: Value, b: Builder)
    requires s.For? && ForSourceOk(c.g, s.x, s.src)
    ensures var t := if s.src.Array? then U64 else ForVar(c, s);
            var (b3, i, go) := ForCompared(c, t, ForPred(s, t), id, idx, last, b);
            var b4 := Place(Append(b3, CondBr(go, Anon(id + 1), Anon(id + 2))), c.fn, Anon(id + 1));
            ForCopy(c, s, id, idx, last, b) == ItemCopied(s, i, b4)
  {
    hide Place, Append, Define, Size;
  }

  lemma ThroughCompared(c: Ctx, t: Ty, pred: Pred, id: nat, idx: nat, last: Value, b: Builder, ext: set<BB>)
    requires Ready(b) && Open(b) && id + 1 < b.nbb && Anon(id) !in b.blocks && Anon(id + 1) !in b.blocks
    requires Anon(id) in ext && Below(ext, b.nbb)
    ensures var b3 := ForCompared(c, t, pred, id, idx, last, b).0;
            Through(b, b3, c.fn, ext) && (c.fn, Anon(id)) in b3.placed[|b.placed|..] &&
            b3.nbb == b.nbb && Anon(id + 1) !in b3.blocks
  {
    hide Grown, Counted, Threads, Open, Below, Size;
    var b1 := Place(Append(b, Br(Anon(id))), c.fn, Anon(id));
    ThroughTurn(b, Br(Anon(id)), c.fn, Anon(id), ext);
    var (b2, i) := Define(b1, Load(b1.nreg, idx));
    ThroughDefine(b1, Load(b1.nreg, idx), c.fn, ext);
    ThroughTrans(b, b1, b2, c.fn, ext);
    var cmp := CmpI(b2.nreg, pred, Size(t), i, last);
    ThroughDefine(b2, cmp, c.fn, ext);
    ThroughTrans(b, b2, Define(b2, cmp).0, c.fn, ext);
    KeysDefine(b1, Load(b1.nreg, idx));
    KeysDefine(b2, cmp);
  }

  lemma ThroughItem(c: Ctx, s: Stmt, i: Value, b4: Builder, ext: set<BB>)
    requires s.For? && Ready(b4) && Open(b4)
    ensures Through(b4, ItemCopied(s, i, b4), c.fn, ext)
  {
    hide Grown, Counted, Threads, Open;
    if s.src.Array? {
      var (b5, item) := Define(b4, LoadAt(b4.nreg, s.src.base, i));
      ThroughDefine(b4, LoadAt(b4.nreg, s.src.base, i), c.fn, ext);
      ThroughDefine(b5, Store(item, s.x), c.fn, ext);
      ThroughTrans(b4, b5, ItemCopied(s, i, b4), c.fn, ext);
    } else {
      ThroughDefine(b4, Store(i, s.x), c.fn, ext);
    }
  }

  // ----- if-chains -----

  /** Between the arms of a chain the block at the insertion point is already sealed. */
  ghost predicate Ended(b: Builder) {
    Ready(b) && Sealed(b.blocks[b.cur]) && Low(b)
  }

  lemma {:induction false} ThroughConds(c: Ctx, conds: seq<Expr>, base: nat, lo: nat, hi: nat, b: Builder, ext: set<BB>)
    requires (forall i | 0 <= i < |conds| :: TypeE(c.g, conds[i]) == Some(BOOL)) && Ready(b) && Open(b)
    requires lo <= base && base + 2 * |conds| <= hi <= b.nbb
    requires (forall k: nat | base <= k < hi :: Anon(k) !in b.blocks && Anon(k) in ext) && Below(ext, b.nbb)
    ensures Through(b, EmitConds(c, conds, base, b), c.fn, ext)
    ensures forall i: nat | i < |conds| ::
            (c.fn, Anon(base + 2 * i)) in EmitConds(c, conds, base, b).placed[|b.placed|..]
    decreases conds
  {
    hide Grown, Counted, Threads, Open, EmitR, TypeE;
    if conds == [] {
      ThroughRefl(b, c.fn, ext);
    } else {
      ThroughR(c, conds[0], b, ext);
      GrowsR(c, conds[0], b);
      var (b1, v) := EmitR(c, conds[0], b);
      forall k: nat | base <= k < hi
        ensures Anon(k) !in b1.blocks
      {
        StillFree(b, b1, b.nbb, {}, k);
      }
      var br := CondBr(v, Anon(base + 1), Anon(base));
      var b2 := Place(Append(b1, br), c.fn, Anon(base));
      GrowsTurn(b1, br, c.fn, Anon(base), lo, {});
      KeysDefine(b1, br);
      ThroughTurn(b1, br, c.fn, Anon(base), ext);
      ThroughTrans(b, b1, b2, c.fn, ext);
      ThroughConds(c, conds[1..], base + 2, lo, hi, b2, ext);
      var b3 := EmitConds(c, conds[1..], base + 2, b2);
      ThroughTrans(b, b2, b3, c.fn, ext);
      ThroughPrefix(b, b1, c.fn, ext);
      ThroughPrefix(b, b2, c.fn, ext);
      ThroughPrefix(b2, b3, c.fn, ext);
      forall i: nat | i < |conds|
        ensures (c.fn, Anon(base + 2 * i)) in b3.placed[|b.placed|..]
      {
        if i == 0 {
          StillPlaced(b, b1, b2, (c.fn, Anon(base)));
          StillPlaced(b, b2, b3, (c.fn, Anon(base)));
        } else {
          assert (c.fn, Anon(base + 2 + 2 * (i - 1))) in b3.placed[|b2.placed|..];
          StillPlaced(b, b2, b3, (c.fn, Anon(base + 2 * i)));
        }
      }
    }
  }

  lemma {:induction false} ThroughArm(c: Ctx, s: Stmt, bb: BB, out: BB, b: Builder, reach: set<string>, inLoop: bool,
                                      ext: set<BB>)
    requires CanThread(c, s, b) && Ended(b) && Resolved(s, reach, inLoop) && Provides(c, reach, inLoop, ext)
    requires bb.Anon? && bb.id < b.nbb && bb !in b.blocks && out in ext
    requires Below(ext, b.nbb)
    ensures var b1 := EmitArm(c, s, bb, out, b);
            Threads(b, b1, c.fn, ext) && Ended(b1) && (c.fn, bb) in b1.placed[|b.placed|..]
    decreases s, 2
  {
    hide Grown, Counted, Threads, EmitS, Accepted, Resolved, Provides, FreshLabels, DistinctLabels, Labels, Jumps;
    var b1 := Place(b, c.fn, bb);
    GrowsPlace(b, c.fn, bb, 0, {});
    StillFresh(b, b1, 0, {}, Labels(s, true));
    ThreadsPlace(b, c.fn, bb, ext);
    ThroughS(c, s, b1, reach, inLoop, ext);
    var b2 := EmitS(c, s, b1);
    ThreadsTrans(b, b1, b2, c.fn, ext);
    var b3 := Append(b2, Br(out));
    ThreadsAppend(b2, Br(out), c.fn, ext);
    ThreadsTrans(b, b2, b3, c.fn, ext);
    GrowsAppend(b2, Br(out), 0, {});
    ThreadsPrefix(b1, b2, c.fn, ext);
    StillPlaced(b, b1, b3, (c.fn, bb));
  }

  lemma ThreadsPrefix(b: Builder, b1: Builder, fn: nat, ext: set<BB>)
    requires Threads(b, b1, fn, ext)
    ensures b.placed <= b1.placed
  {
  }

  lemma {:induction false} ThroughBodies(c: Ctx, bodies: seq<Stmt>, base: nat, out: BB, lo: nat, hi: nat, b: Builder,
                                         reach: set<string>, inLoop: bool, ext: set<BB>)
    requires (forall i | 0 <= i < |bodies| :: Accepted(c, bodies[i]) && Resolved(bodies[i], reach, inLoop)) && Ended(b)
    requires DistinctLabelsSeq(bodies) && FreshLabels(b, LabelsSeq(bodies, true)) && Provides(c, reach, inLoop, ext)
    requires lo <= base && base + 2 * |bodies| <= hi <= b.nbb && ArmsFree(b, base, |bodies|, hi) && out in ext
    requires Below(ext, b.nbb)
    ensures var b1 := EmitBodies(c, bodies, base, out, b);
            Threads(b, b1, c.fn, ext) && Ended(b1) &&
            forall i: nat | i < |bodies| :: (c.fn, Anon(base + 2 * i + 1)) in b1.placed[|b.placed|..]
    decreases bodies, 0
  {
    hide Grown, Counted, Threads, EmitS, EmitArm, Accepted, Resolved, Provides, FreshLabels, Sealed, Labels,
         DistinctLabels, Jumps, Joins, Links;
    if bodies == [] {
      ThreadsRefl(b, c.fn, ext);
    } else {
      FreshSplit(b, Labels(bodies[0], true), LabelsSeq(bodies[1..], true));
      assert Anon(base + 2 * 0 + 1) !in b.blocks;
      ThroughArm(c, bodies[0], Anon(base + 1), out, b, reach, inLoop, ext);
      GrowsArm(c, bodies[0], Anon(base + 1), out, lo, b);
      var b1 := EmitArm(c, bodies[0], Anon(base + 1), out, b);
      StillFresh(b, b1, lo, Labels(bodies[0], true), LabelsSeq(bodies[1..], true));
      ArmsFreeTail(b, b1, base, |bodies|, hi);
      ThroughBodies(c, bodies[1..], base + 2, out, lo, hi, b1, reach, inLoop, ext);
      var b2 := EmitBodies(c, bodies, base, out, b);
      ThreadsTrans(b, b1, b2, c.fn, ext);
      ThreadsPrefix(b, b1, c.fn, ext);
      ThreadsPrefix(b1, b2, c.fn, ext);
      ArmsPlaced(b, b1, b2, c.fn, base, |bodies|);
    }
  }

  lemma ArmsPlaced(b: Builder, b1: Builder, b2: Builder, fn: nat, base: nat, n: nat)
    requires b.placed <= b1.placed <= b2.placed && (fn, Anon(base + 1)) in b1.placed[|b.placed|..]
    requires forall i: nat | i < n - 1 :: (fn, Anon(base + 2 + 2 * i + 1)) in b2.placed[|b1.placed|..]
    ensures forall i: nat | i < n :: (fn, Anon(base + 2 * i + 1)) in b2.placed[|b.placed|..]
  {
    forall i: nat | i < n
      ensures (fn, Anon(base + 2 * i + 1)) in b2.placed[|b.placed|..]
    {
      if i > 0 {
        assert (fn, Anon(base + 2 + 2 * (i - 1) + 1)) in b2.placed[|b1.placed|..];
      }
      StillPlaced(b, b1, b2, (fn, Anon(base + 2 * i + 1)));
    }
  }

  lemma FreshSplit(b: Builder, ls: set<string>, ls1: set<string>)
    requires FreshLabels(b, ls + ls1)
    ensures FreshLabels(b, ls) && FreshLabels(b, ls1)
  {
    assert forall l | l in ls || l in ls1 :: l in ls + ls1;
  }

  function IfOwn(s: Stmt, b: Builder): set<BB>
    requires s.If?
  {
    set k: nat | b.nbb <= k < b.nbb + IfBlocks(s) :: Anon(k)
  }

  lemma {:induction false} ThroughIf(c: Ctx, s: Stmt, b: Builder, reach: set<string>, inLoop: bool, ext: set<BB>)
    requires s.If? && CanThread(c, s, b) && Open(b) && Resolved(s, reach, inLoop) && Provides(c, reach, inLoop, ext)
    requires Below(ext, b.nbb)
    ensures Through(b, EmitS(c, s, b), c.fn, ext)
    decreases s, 0
  {
    hide Grown, Counted, Threads, Open, FreshLabels, EmitS, EmitArm, EmitConds, EmitBodies, Accepted, TypeE, Sealed,
         Jumps, Joins, Links, Resolved;
    AcceptedIf(c, s);
    GrowsIf(c, s, b);
    var own, lo := IfOwn(s, b), b.nbb;
    var all := ext + own;
    assert Provides(c, reach, inLoop, all);
    assert Anon(lo) in all;
    var b2, b4 := IfTurn(c, s, b), IfElse(c, s, b);
    IfFirst(c, s, b, all);
    IfRest(c, s, b, reach, inLoop, all);
    ThreadsTrans(b, b2, b4, c.fn, all);
    ThreadsPlace(b4, c.fn, Anon(lo), all);
    var b5 := Place(b4, c.fn, Anon(lo));
    ThreadsTrans(b, b4, b5, c.fn, all);
    AllPlaced(c, s, b);
    ThroughOwn(b, b5, c.fn, ext, own);
  }

  /** The bodies of a chain and its else. */
  lemma {:induction false} IfRest(c: Ctx, s: Stmt, b: Builder, reach: set<string>, inLoop: bool, all: set<BB>)
    requires s.If? && CanThread(c, s, b) && Resolved(s, reach, inLoop) && Provides(c, reach, inLoop, all)
    requires Ended(IfTurn(c, s, b)) && b.nbb + IfBlocks(s) <= IfTurn(c, s, b).nbb &&
             Below(all, IfTurn(c, s, b).nbb) && Anon(b.nbb) in all
    ensures var b2, b3, b4 := IfTurn(c, s, b), IfArms(c, s, b), IfElse(c, s, b);
            && Threads(b2, b4, c.fn, all) && Ended(b4) && b2.placed <= b3.placed <= b4.placed
            && (forall i: nat | i < |s.bodies| :: (c.fn, Anon(b.nbb + 1 + 2 * i + 1)) in b3.placed[|b2.placed|..])
            && (s.remain.Some? ==> (c.fn, ElseBlock(b.nbb + 1, |s.conds|)) in b4.placed[|b3.placed|..])
    decreases s, 0, 0
  {
    hide Grown, Counted, Threads, FreshLabels, EmitS, EmitArm, EmitConds, EmitBodies, Accepted, TypeE, Sealed, Jumps,
         Joins, Links;
    AcceptedIf(c, s);
    GrowsIf(c, s, b);
    var lo, hi := b.nbb, b.nbb + IfBlocks(s);
    var b2, b3, b4 := IfTurn(c, s, b), IfArms(c, s, b), IfElse(c, s, b);
    ThroughBodies(c, s.bodies, lo + 1, Anon(lo), lo, hi, b2, reach, inLoop, all);
    ThreadsPrefix(b2, b3, c.fn, all);
    if s.remain.Some? {
      GrowsHigher(b2, b3, lo, LabelsSeq(s.bodies, true), hi);
      ThroughArm(c, s.remain.value, ElseBlock(lo + 1, |s.conds|), Anon(lo), b3, reach, inLoop, all);
      ThreadsTrans(b2, b3, b4, c.fn, all);
      ThreadsPrefix(b3, b4, c.fn, all);
    }
  }

  /** The conditions of a chain and the branch that ends them. */
  lemma IfFirst(c: Ctx, s: Stmt, b: Builder, all: set<BB>)
    requires s.If? && CanThread(c, s, b) && Open(b) && IfOwn(s, b) <= all && Below(all, b.nbb + IfBlocks(s))
    ensures var b1, b2 := IfConds(c, s, b), IfTurn(c, s, b);
            Threads(b, b2, c.fn, all) && Ended(b2) && b.nbb + IfBlocks(s) <= b2.nbb && b.placed <= b1.placed &&
            forall i: nat | i < |s.conds| :: (c.fn, Anon(b.nbb + 1 + 2 * i)) in b1.placed[|b.placed|..]
  {
    hide Grown, Counted, Threads, Open, FreshLabels, EmitS, EmitArm, EmitConds, EmitBodies, Accepted, TypeE, Sealed,
         Jumps;
    AcceptedIf(c, s);
    GrowsIf(c, s, b);
    var lo, hi := b.nbb, b.nbb + IfBlocks(s);
    var b0, b1, b2 := NewBB(b, IfBlocks(s)), IfConds(c, s, b), IfTurn(c, s, b);
    ThroughNewBB(b, IfBlocks(s), c.fn, all);
    forall k: nat | lo <= k < hi
      ensures Anon(k) !in b0.blocks && Anon(k) in all
    {
      NotYet(b, k);
    }
    ThroughConds(c, s.conds, lo + 1, lo, hi, b0, all);
    ThroughTrans(b, b0, b1, c.fn, all);
    ThroughPrefix(b0, b1, c.fn, all);
    ThreadsAppend(b1, Br(if s.remain.Some? then ElseBlock(lo + 1, |s.conds|) else Anon(lo)), c.fn, all);
    ThreadsTrans(b, b1, b2, c.fn, all);
    GrowsHigh(b0, b1, b2, lo, hi);
  }

  lemma GrowsHigh(b0: Builder, b1: Builder, b2: Builder, lo: nat, hi: nat)
    requires Grows(b0, b1, lo, {}) && Grows(b1, b2, lo, {}) && hi <= b0.nbb
    ensures hi <= b2.nbb
  {
  }

  lemma GrowsHigher(b0: Builder, b1: Builder, lo: nat, ls: set<string>, hi: nat)
    requires Grows(b0, b1, lo, ls) && hi <= b0.nbb
    ensures hi <= b1.nbb
  {
  }

  /** All blocks a chain creates are placed: conditions, bodies, the final else, the end. */
  lemma AllPlaced(c: Ctx, s: Stmt, b: Builder)
    requires s.If? && Accepted(c, s)
    requires var b1, b2, b3, b4 := IfConds(c, s, b), IfTurn(c, s, b), IfArms(c, s, b), IfElse(c, s, b);
             && b.placed <= b1.placed == b2.placed <= b3.placed <= b4.placed
             && (forall i: nat | i < |s.conds| :: (c.fn, Anon(b.nbb + 1 + 2 * i)) in b1.placed[|b.placed|..])
             && (forall i: nat | i < |s.bodies| :: (c.fn, Anon(b.nbb + 1 + 2 * i + 1)) in b3.placed[|b2.placed|..])
             && (s.remain.Some? ==> (c.fn, ElseBlock(b.nbb + 1, |s.conds|)) in b4.placed[|b3.placed|..])
    ensures forall t | t in IfOwn(s, b) :: (c.fn, t) in Place(IfElse(c, s, b), c.fn, Anon(b.nbb)).placed[|b.placed|..]
  {
    hide EmitConds, EmitBodies, EmitArm, Accepted;
    AcceptedIf(c, s);
    var b1, b2, b3, b4 := IfConds(c, s, b), IfTurn(c, s, b), IfArms(c, s, b), IfElse(c, s, b);
    var b5 := Place(b4, c.fn, Anon(b.nbb));
    forall t | t in IfOwn(s, b)
      ensures (c.fn, t) in b5.placed[|b.placed|..]
    {
      var k := t.id - b.nbb;
      if k == 0 {
        assert b5.placed[|b4.placed|] == (c.fn, t);
      } else if k == 1 + 2 * |s.conds| {
        StillPlaced(b, b3, b4, (c.fn, t));
      } else if k % 2 == 1 {
        assert t == Anon(b.nbb + 1 + 2 * (k / 2));
        StillPlaced(b, b1, b4, (c.fn, t));
      } else {
        assert t == Anon(b.nbb + 1 + 2 * (k / 2 - 1) + 1);
        StillPlaced(b, b2, b3, (c.fn, t));
        StillPlaced(b, b3, b4, (c.fn, t));
      }
      if k != 0 {
        StillPlaced(b, b4, b5, (c.fn, t));
      }
    }
  }

  // ----- functions -----

  function FnOwn(c: Ctx, body: Stmt): set<BB> {
    {c.retbb} + set l | l in Labels(body, false) :: Named(l)
  }

  lemma {:induction false} ThroughFn(c: Ctx, ret: Option<Ty>, body: Stmt, b: Builder, ext: set<BB>)
    requires WellTyped(c.g, ret, body) && LoopStackOk(body, c.loops != []) && Ready(b) && Open(b)
    requires DistinctLabels(body) && FreshLabels(b, Labels(body, true)) && Resolved(body, Labels(body, false), false)
    requires Below(ext, b.nbb)
    ensures Through(b, EmitFn(c, ret, body, b), c.fn, ext)
    decreases body, 2
  {
    hide Grown, Counted, Threads, FreshLabels, EmitS, Resolved, WellTyped, LoopStackOk, DistinctLabels, Labels,
         Sealed, Jumps, EmitExit, FnEntry;
    var c1, b0 := FnCtx(c, ret, b), FnEntry(ret, b);
    var own := FnOwn(c1, body);
    GrowsFn(c, ret, body, b);
    var b1 := EmitS(c1, body, b0);
    var b2 := EmitExit(c1, b1);
    EntryOpen(ret, b);
    EntryCount(ret, b);
    assert Below(own, b0.nbb);
    ThroughS(c1, body, b0, Labels(body, false), false, own);
    BelowMore(own, b0.nbb, b1.nbb);
    GrowsCount(b0, b1, Labels(body, true), b.nbb);
    ThreadsExit(c1, b1, own);
    ThreadsTrans(b0, b1, b2, c1.fn, own);
    FnPlaced(c1, body, b0);
    assert own == {} + own;
    Discharge(b0, b2, c1.fn, {}, own);
    FnThreads(ret, b, b2, c.fn);
    forall t | t in ext
      ensures t.Named? || t !in b2.blocks || t in b.blocks
    {
      NotAdded(b, b2.(cur := b.cur), Labels(body, true), t);
    }
    ThreadsWider(b, b2.(cur := b.cur), c.fn, {}, ext);
  }

  lemma EntryCount(ret: Option<Ty>, b: Builder)
    ensures b.nbb < FnEntry(ret, b).nbb && b.nfn < FnEntry(ret, b).nfn
  {
  }

  lemma EntryOpen(ret: Option<Ty>, b: Builder)
    requires Ready(b) && Open(b)
    ensures Open(FnEntry(ret, b))
  {
    hide Low;
    LowSame(b, NewBB(b, 2));
    LowPlace(NewBB(b, 2), b.nfn, Anon(b.nbb + 1));
    LowSame(Place(NewBB(b, 2), b.nfn, Anon(b.nbb + 1)), FnEntry(ret, b));
  }

  /** A block numbered before is not among those a walk adds. */
  lemma NotAdded(b: Builder, b1: Builder, ls: set<string>, t: BB)
    requires Grows(b, b1, b.nbb, ls) && (t.Anon? ==> t.id < b.nbb)
    ensures t.Named? || t !in b1.blocks || t in b.blocks
  {
  }

  lemma ThreadsExit(c: Ctx, b: Builder, ext: set<BB>)
    requires Ready(b) && Open(b) && c.retbb !in b.blocks && c.retbb.Anon? && c.retbb.id < b.nbb && c.retbb in ext
    requires Below(ext, b.nbb)
    ensures var b1 := EmitExit(c, b);
            Threads(b, b1, c.fn, ext) && Ready(b1) && b1.cur in b1.blocks && Sealed(b1.blocks[b1.cur]) && Low(b1) &&
            (c.fn, c.retbb) in b1.placed[|b.placed|..]
  {
    hide Grown, Counted, Threads, Jumps;
    var b1 := Place(Append(b, Br(c.retbb)), c.fn, c.retbb);
    ThroughTurn(b, Br(c.retbb), c.fn, c.retbb, ext);
    GrowsExit(c, b, 0);
    if c.ret.None? {
      ThreadsAppend(b1, RetVoid, c.fn, ext);
      ThreadsTrans(b, b1, EmitExit(c, b), c.fn, ext);
    } else {
      var (b2, v) := Define(b1, Load(b1.nreg, c.retslot));
      ThroughDefine(b1, Load(b1.nreg, c.retslot), c.fn, ext);
      ThreadsTrans(b, b1, b2, c.fn, ext);
      ThreadsAppend(b2, RetI(v), c.fn, ext);
      ThreadsTrans(b, b2, EmitExit(c, b), c.fn, ext);
    }
  }

  /** A function places its exit block and all its labels. */
  lemma FnPlaced(c: Ctx, body: Stmt, b0: Builder)
    requires Accepted(c, body) && c.fn < b0.nfn && c.retbb.Anon?
    ensures var b2 := EmitExit(c, EmitS(c, body, b0));
            b0.placed <= b2.placed && forall t | t in FnOwn(c, body) :: (c.fn, t) in b2.placed[|b0.placed|..]
  {
    hide Accepted, EmitS, Labels, Defs, Names, FnCount;
    var b1 := EmitS(c, body, b0);
    var b2 := EmitExit(c, b1);
    AddsS(c, body, b0, 0);
    NewNames(b0, b1, c.fn, 0, Defs(c.fn, b0.nfn, body), FnCount(body));
    forall t | t in FnOwn(c, body)
      ensures (c.fn, t) in b2.placed[|b0.placed|..]
    {
      if t == c.retbb {
        assert b2.placed[|b1.placed|] == (c.fn, t);
      } else {
        DefsOwn(c.fn, b0.nfn, body, t.name);
        NamesIn(b1.placed[|b0.placed|..], c.fn, t.name);
        StillPlaced(b0, b1, b2, (c.fn, t));
      }
    }
  }

  /** Seen from outside, a whole function is a set of new, sealed and closed blocks. */
  lemma FnThreads(ret: Option<Ty>, b: Builder, b2: Builder, fn: nat)
    requires Ready(b) && Threads(FnEntry(ret, b), b2, b.nfn, {}) && b2.cur in b2.blocks &&
             Sealed(b2.blocks[b2.cur]) && Low(b2)
    ensures Threads(b, b2.(cur := b.cur), fn, {}) && (Open(b) ==> Open(b2.(cur := b.cur)))
  {
    hide Links, Joins, Sealed, Jumps, Low;
    FnLinks(ret, b, b2, fn);
    FnJoins(ret, b, b2);
    FnLow(ret, b, b2);
  }

  lemma FnLow(ret: Option<Ty>, b: Builder, b2: Builder)
    requires Ready(b) && Links(FnEntry(ret, b), b2, b.nfn, {}) && Low(b2)
    ensures b.cur in b2.blocks && b2.blocks[b.cur] == b.blocks[b.cur] && Low(b2.(cur := b.cur))
  {
    EntryText(ret, b);
    LowSame(b2, b2.(cur := b.cur));
  }

  lemma FnJoins(ret: Option<Ty>, b: Builder, b2: Builder)
    requires Ready(b) && Links(FnEntry(ret, b), b2, b.nfn, {}) && Joins(FnEntry(ret, b), b2, {})
    ensures Joins(b, b2.(cur := b.cur), {})
  {
    hide Sealed, Jumps, NewOk, Preds;
    var b0, b3 := FnEntry(ret, b), b2.(cur := b.cur);
    EntryText(ret, b);
    forall bb | bb in b3.blocks && bb !in b.blocks
      ensures PlacedNew(b, b3, bb) && JoinOk(b3, bb, {})
    {
      if bb == b0.cur {
        assert b2.placed[|b.placed|] == b0.placed[|b.placed|];
      } else {
        assert PlacedNew(b0, b2, bb) && JoinOk(b2, bb, {});
        PlacedNewMore(b, b0, b2, bb);
        var k :| |b.placed| <= k < |b2.placed| && b2.placed[k].1 == bb;
        assert b3.placed[k].1 == bb;
      }
      forall i | 0 <= i < |b3.blocks[bb]| && b3.blocks[bb][i].Phi?
        ensures i == 0 && bb.Anon? && Preds(b3, bb, b3.blocks[bb][i].b1, b3.blocks[bb][i].b2)
      {
        SameBlocks(b2, b3, bb, b3.blocks[bb][i].b1, b3.blocks[bb][i].b2);
      }
    }
  }

  lemma SameBlocks(b2: Builder, b3: Builder, bb: BB, p: BB, q: BB)
    requires b3.blocks == b2.blocks
    ensures Preds(b2, bb, p, q) <==> Preds(b3, bb, p, q)
  {
  }

  lemma FnLinks(ret: Option<Ty>, b: Builder, b2: Builder, fn: nat)
    requires Ready(b) && Links(FnEntry(ret, b), b2, b.nfn, {}) && b2.cur in b2.blocks && Sealed(b2.blocks[b2.cur])
    ensures Links(b, b2.(cur := b.cur), fn, {})
  {
    hide Sealed, Jumps;
    var b0, b3 := FnEntry(ret, b), b2.(cur := b.cur);
    EntryText(ret, b);
    forall k | |b.placed| <= k < |b3.placed|
      ensures NewOk(b, b3, fn, {}, b3.placed[k].0, b3.placed[k].1)
    {
      var (f, bb) := b3.placed[k];
      if k > |b.placed| {
        assert NewOk(b0, b2, b.nfn, {}, b2.placed[k].0, b2.placed[k].1);
      } else {
        assert b2.placed[k] == b0.placed[k];
      }
      forall t | Jumps(b3.blocks[bb], t)
        ensures TargetKnown(b, b3, fn, {}, f, t)
      {
        assert TargetKnown(b0, b2, b.nfn, {}, f, t);
        KnownMore(b, b0, b2, fn, {}, f, t);
      }
    }
    forall j, k | |b.placed| <= j < k < |b3.placed|
      ensures b3.placed[j].1 != b3.placed[k].1
    {
      if j == |b.placed| {
        assert NewOk(b0, b2, b.nfn, {}, b2.placed[k].0, b2.placed[k].1);
        assert b2.placed[j] == b0.placed[j];
      }
    }
  }

  lemma EntryText(ret: Option<Ty>, b: Builder)
    requires Ready(b)
    ensures var b0 := FnEntry(ret, b);
            && b0.placed == b.placed + [(b.nfn, b0.cur)] && b0.cur !in b.blocks
            && b0.blocks == b.blocks[b0.cur := []] && forall t :: !Jumps(b0.blocks[b0.cur], t)
  {
  }
}
