/** The converse: if the functions of a program come out well formed, its labels are distinct,
    its gotos stay in their function, and break and continue stay in a loop of theirs. */
module Necessary {
  import opened IntTypes
  import opened Syntax
  import opened Target
  import opened Emit
  import opened Frame
  import opened Placement
  import opened WellFormed
  import opened Sufficient

  /** b is a stage on the way to bF; what is placed later belongs to a function that is still
      open or to one not yet met. */
  ghost predicate Leads(b: Builder, bF: Builder, opens: set<nat>) {
    && b.placed <= bF.placed && Within(b.blocks, bF.blocks)
    && forall k | |b.placed| <= k < |bF.placed| :: bF.placed[k].0 in opens || b.nfn <= bF.placed[k].0
  }

  lemma LeadsBack(b: Builder, b1: Builder, bF: Builder, fn: nat, lo: nat, ds: seq<(nat, string)>, n: nat,
                  opens: set<nat>)
    requires Adds(b, b1, fn, lo, ds, n) && Leads(b1, bF, opens) && fn in opens
    ensures Leads(b, bF, opens)
  {
    WithinTrans(b.blocks, b1.blocks, bF.blocks);
    forall k | |b.placed| <= k < |bF.placed|
      ensures bF.placed[k].0 in opens || b.nfn <= bF.placed[k].0
    {
      if k < |b1.placed| {
        assert Fits(b1.placed[k], fn, lo, b.nfn, b1.nfn);
        assert bF.placed[k] == b1.placed[k];
      }
    }
  }

  /** Functions and blocks so far are numbered below the counters. */
  ghost predicate Ground(c: Ctx, b: Builder, opens: set<nat>) {
    && (forall f | f in opens :: f < b.nfn)
    && (forall k | 0 <= k < |b.placed| :: b.placed[k].0 < b.nfn)
    && (forall i | 0 <= i < |c.loops| :: Old(c.loops[i].cond, b.nbb) && Old(c.loops[i].out, b.nbb))
  }

  predicate Old(bb: BB, n: nat) {
    bb.Anon? && bb.id < n
  }

  /** In the end, c.fn has placed no label outside `reach` and, when not in a loop of its own,
      none of the enclosing loop's blocks. */
  ghost predicate Rooted(c: Ctx, b: Builder, bF: Builder, reach: set<string>, inLoop: bool, opens: set<nat>) {
    && Ground(c, b, opens) && c.fn in opens && (c.fn, b.cur) in b.placed
    && (forall l | (c.fn, Named(l)) in bF.placed :: l in reach)
    && (!inLoop && c.loops != [] ==>
          (c.fn, c.loops[|c.loops| - 1].out) !in bF.placed && (c.fn, c.loops[|c.loops| - 1].cond) !in bF.placed)
  }

  lemma GroundStep(c: Ctx, b: Builder, b1: Builder, opens: set<nat>, fn: nat, lo: nat, ds: seq<(nat, string)>, n: nat)
    requires Adds(b, b1, fn, lo, ds, n) && Ground(c, b, opens) && fn in opens
    ensures Ground(c, b1, opens)
  {
    forall k | 0 <= k < |b1.placed|
      ensures b1.placed[k].0 < b1.nfn
    {
      if k < |b.placed| {
        assert b1.placed[k] == b.placed[k];
      } else {
        assert Fits(b1.placed[k], fn, lo, b.nfn, b1.nfn);
      }
    }
  }

  lemma RootedStep(c: Ctx, b: Builder, b1: Builder, bF: Builder, reach: set<string>, inLoop: bool, opens: set<nat>,
                   lo: nat, ds: seq<(nat, string)>, n: nat)
    requires Adds(b, b1, c.fn, lo, ds, n) && Rooted(c, b, bF, reach, inLoop, opens)
    ensures Rooted(c, b1, bF, reach, inLoop, opens)
  {
    GroundStep(c, b, b1, opens, c.fn, lo, ds, n);
  }

  lemma RootedLoop(c: Ctx, b: Builder, bF: Builder, reach: set<string>, inLoop: bool, opens: set<nat>, cond: BB,
                   out: BB)
    requires Rooted(c, b, bF, reach, inLoop, opens) && Old(cond, b.nbb) && Old(out, b.nbb)
    ensures Rooted(InLoop(c, cond, out), b, bF, reach, true, opens)
  {
  }

  /** Whatever a placed block jumps to is placed once, in the same function. */
  lemma Placed(b: Builder, bF: Builder, fn: nat, bb: BB, t: BB)
    requires AllWellFormed(bF) && (fn, bb) in b.placed && bb in b.blocks && Jumps(b.blocks[bb], t)
    requires b.placed <= bF.placed && Within(b.blocks, bF.blocks)
    ensures PlacedOnce(bF, fn, t)
  {
    var k :| 0 <= k < |b.placed| && b.placed[k] == (fn, bb);
    assert bF.placed[k] == (fn, bb);
    var i :| 0 <= i < |b.blocks[bb]| && t in Targets(b.blocks[bb][i]);
    assert bF.blocks[bb][i] == b.blocks[bb][i];
  }

  lemma AwayPlaced(b: Builder, b1: Builder, bF: Builder, fn: nat, target: BB, bb: BB)
    requires b1.blocks == Place(Append(b, Br(target)), fn, bb).blocks && b.placed <= b1.placed
    requires AllWellFormed(bF) && (fn, b.cur) in b.placed && b1.placed <= bF.placed && Within(b1.blocks, bF.blocks)
    ensures PlacedOnce(bF, fn, target)
  {
    var text := b1.blocks[b.cur];
    assert text[|text| - 1] == Br(target);
    assert Jumps(text, target);
    assert (fn, b.cur) in b1.placed by {
      var k :| 0 <= k < |b.placed| && b.placed[k] == (fn, b.cur);
      assert b1.placed[k] == (fn, b.cur);
    }
    Placed(b1, bF, fn, b.cur, target);
  }

  ghost predicate Once(bF: Builder, ds: seq<(nat, string)>) {
    forall d | d in ds :: PlacedOnce(bF, d.0, Named(d.1))
  }

  lemma {:induction false} NeedS(c: Ctx, s: Stmt, b: Builder, bF: Builder, reach: set<string>, inLoop: bool,
                                 opens: set<nat>)
    requires Accepted(c, s) && AllWellFormed(bF) && Rooted(c, b, bF, reach, inLoop, opens) &&
             Leads(EmitS(c, s, b), bF, opens)
    ensures Resolved(s, reach, inLoop) && Once(bF, Defs(c.fn, b.nfn, s))
    decreases s, 1
  {
    hide Rooted, Leads, Ground, AllWellFormed, Adds, EmitForHead, EmitR, EmitE, EmitFn, EmitConds, EmitBodies,
         EmitSeq, TypeE, Labels, PlacedOnce, Leave;
    match s
    case Block(ss) => NeedSeq(c, ss, b, bF, reach, inLoop, opens);
    case If(_, _, _) => NeedIf(c, s, b, bF, reach, inLoop, opens);
    case While(_, body) =>
      AddsWhileHead(c, s, b, 0);
      NeedTail(c, body, Anon(b.nbb), Anon(b.nbb + 2), b, WhileHead(c, s, b).0, bF, reach, inLoop, opens);
    case Loop(body) =>
      AddsLoopHead(c, b, 0);
      NeedTail(c, body, Anon(b.nbb), Anon(b.nbb + 1), b, LoopHead(c, b), bF, reach, inLoop, opens);
    case For(_, _, body) =>
      AddsForHead(c, s, b, 0);
      ForHeadCount(c, s, b);
      NeedTail(c, body, Anon(b.nbb), Anon(b.nbb + 2), b, EmitForHead(c, s, b), bF, reach, inLoop, opens);
    case Break => NeedJump(c, s, b, bF, reach, inLoop, opens);
    case Continue => NeedJump(c, s, b, bF, reach, inLoop, opens);
    case Goto(_) => NeedJump(c, s, b, bF, reach, inLoop, opens);
    case Label(_) => NeedJump(c, s, b, bF, reach, inLoop, opens);
    case FnDef(r, body) =>
      RootedOpen(c, b, bF, reach, inLoop, opens);
      NeedFn(c, r, body, b, bF, opens);
    case _ =>
  }

  lemma NeedJump(c: Ctx, s: Stmt, b: Builder, bF: Builder, reach: set<string>, inLoop: bool, opens: set<nat>)
    requires s.Break? || s.Continue? || s.Goto? || s.Label?
    requires Accepted(c, s) && AllWellFormed(bF) && Rooted(c, b, bF, reach, inLoop, opens) &&
             Leads(EmitS(c, s, b), bF, opens)
    ensures Resolved(s, reach, inLoop) && Once(bF, Defs(c.fn, b.nfn, s))
  {
    hide Ground, AllWellFormed, Within, PlacedOnce;
    match s
    case Break =>
      AwayPlaced(b, EmitS(c, s, b), bF, c.fn, c.loops[|c.loops| - 1].out, Anon(b.nbb));
      OnceIn(bF, c.fn, c.loops[|c.loops| - 1].out);
    case Continue =>
      AwayPlaced(b, EmitS(c, s, b), bF, c.fn, c.loops[|c.loops| - 1].cond, Anon(b.nbb));
      OnceIn(bF, c.fn, c.loops[|c.loops| - 1].cond);
    case Goto(l) =>
      AwayPlaced(b, EmitS(c, s, b), bF, c.fn, Named(l), Anon(b.nbb));
      OnceIn(bF, c.fn, Named(l));
    case Label(l) => AwayPlaced(b, EmitS(c, s, b), bF, c.fn, Named(l), Named(l));
  }

  lemma OnceIn(bF: Builder, fn: nat, t: BB)
    requires PlacedOnce(bF, fn, t)
    ensures (fn, t) in bF.placed
  {
  }

  lemma ForHeadCount(c: Ctx, s: Stmt, b: Builder)
    requires s.For? && ForSourceOk(c.g, s.x, s.src)
    ensures EmitForHead(c, s, b).nbb >= b.nbb + 3
  {
    hide EmitForTest, EmitBounds;
    var b0 := NewBB(b, 3);
    AddsBounds(c, s.src, b0, 0);
    var (b1, first, last) := EmitBounds(c, s.src, b0);
    AddsForTest(c, s, b.nbb, b1.nslot, last, Append(b1, Store(first, b1.nslot)).(nslot := b1.nslot + 1), 0);
  }

  lemma {:induction false} NeedSeq(c: Ctx, ss: seq<Stmt>, b: Builder, bF: Builder, reach: set<string>, inLoop: bool,
                                   opens: set<nat>)
    requires (forall i | 0 <= i < |ss| :: Accepted(c, ss[i])) && AllWellFormed(bF) &&
             Rooted(c, b, bF, reach, inLoop, opens)
    requires Leads(EmitSeq(c, ss, b), bF, opens)
    ensures (forall i | 0 <= i < |ss| :: Resolved(ss[i], reach, inLoop)) && Once(bF, DefsSeq(c.fn, b.nfn, ss))
    decreases ss, 0
  {
    hide Leads, AllWellFormed, EmitS, Accepted, Resolved, Defs, FnCount, PlacedOnce, Names, Fits, Within;
    if ss != [] {
      var b1 := EmitS(c, ss[0], b);
      AddsS(c, ss[0], b, 0);
      AddsSeq(c, ss[1..], b1, 0);
      LeadsBack(b1, EmitSeq(c, ss, b), bF, c.fn, 0, DefsSeq(c.fn, b1.nfn, ss[1..]), FnCountSeq(ss[1..]), opens);
      NeedS(c, ss[0], b, bF, reach, inLoop, opens);
      RootedStep(c, b, b1, bF, reach, inLoop, opens, 0, Defs(c.fn, b.nfn, ss[0]), FnCount(ss[0]));
      NeedSeq(c, ss[1..], b1, bF, reach, inLoop, opens);
    }
  }

  lemma {:induction false} NeedTail(c: Ctx, body: Stmt, back: BB, out: BB, b: Builder, b1: Builder, bF: Builder,
                                    reach: set<string>, inLoop: bool, opens: set<nat>)
    requires Accepted(InLoop(c, back, out), body) && Old(back, b1.nbb) && Old(out, b1.nbb)
    requires AllWellFormed(bF) && Rooted(c, b, bF, reach, inLoop, opens) && Adds(b, b1, c.fn, 0, [], 0)
    requires Leads(Place(Append(EmitS(InLoop(c, back, out), body, b1), Br(back)), c.fn, out), bF, opens)
    ensures Resolved(body, reach, true) && Once(bF, Defs(c.fn, b.nfn, body))
    decreases body, 2
  {
    hide Leads, AllWellFormed, EmitS, Accepted, Resolved, Defs, FnCount, PlacedOnce, Names, Fits, Within, Rooted,
         Ground;
    var c1 := InLoop(c, back, out);
    var b2 := EmitS(c1, body, b1);
    RootedStep(c, b, b1, bF, reach, inLoop, opens, 0, [], 0);
    RootedLoop(c, b1, bF, reach, inLoop, opens, back, out);
    AddsTurn(b2, Br(back), c.fn, out, 0);
    RootedOpen(c, b, bF, reach, inLoop, opens);
    LeadsBack(b2, Place(Append(b2, Br(back)), c.fn, out), bF, c.fn, 0, [], 0, opens);
    NeedS(c1, body, b1, bF, reach, true, opens);
  }

  lemma RootedOpen(c: Ctx, b: Builder, bF: Builder, reach: set<string>, inLoop: bool, opens: set<nat>)
    requires Rooted(c, b, bF, reach, inLoop, opens)
    ensures c.fn in opens && Ground(c, b, opens)
  {
  }

  lemma {:induction false} NeedArm(c: Ctx, s: Stmt, bb: BB, out: BB, b: Builder, bF: Builder, reach: set<string>,
                                   inLoop: bool, opens: set<nat>)
    requires Accepted(c, s) && bb.Anon? && AllWellFormed(bF) && Rooted(c, b, bF, reach, inLoop, opens)
    requires Leads(EmitArm(c, s, bb, out, b), bF, opens)
    ensures Resolved(s, reach, inLoop) && Once(bF, Defs(c.fn, b.nfn, s))
    decreases s, 2
  {
    hide Leads, AllWellFormed, EmitS, Accepted, Resolved, Defs, PlacedOnce, Adds, Rooted, Ground;
    var b1 := Place(b, c.fn, bb);
    var b2 := EmitS(c, s, b1);
    AddsPlace(b, c.fn, bb, 0);
    RootedStep(c, b, b1, bF, reach, inLoop, opens, 0, [], 0);
    AddsAppend(b2, Br(out), c.fn, 0);
    RootedOpen(c, b, bF, reach, inLoop, opens);
    LeadsBack(b2, Append(b2, Br(out)), bF, c.fn, 0, [], 0, opens);
    NeedS(c, s, b1, bF, reach, inLoop, opens);
  }

  lemma {:induction false} NeedBodies(c: Ctx, bodies: seq<Stmt>, base: nat, out: BB, b: Builder, bF: Builder,
                                      reach: set<string>, inLoop: bool, opens: set<nat>)
    requires (forall i | 0 <= i < |bodies| :: Accepted(c, bodies[i])) && AllWellFormed(bF) &&
             Rooted(c, b, bF, reach, inLoop, opens)
    requires Leads(EmitBodies(c, bodies, base, out, b), bF, opens)
    ensures (forall i | 0 <= i < |bodies| :: Resolved(bodies[i], reach, inLoop)) &&
            Once(bF, DefsSeq(c.fn, b.nfn, bodies))
    decreases bodies, 0
  {
    hide Leads, AllWellFormed, EmitS, EmitArm, Accepted, Resolved, Defs, FnCount, PlacedOnce, Names, Fits, Within;
    if bodies != [] {
      var b1 := EmitArm(c, bodies[0], Anon(base + 1), out, b);
      AddsArm(c, bodies[0], Anon(base + 1), out, b, 0);
      AddsBodies(c, bodies[1..], base + 2, out, b1, 0);
      LeadsBack(b1, EmitBodies(c, bodies, base, out, b), bF, c.fn, 0, DefsSeq(c.fn, b1.nfn, bodies[1..]),
                FnCountSeq(bodies[1..]), opens);
      NeedArm(c, bodies[0], Anon(base + 1), out, b, bF, reach, inLoop, opens);
      RootedStep(c, b, b1, bF, reach, inLoop, opens, 0, Defs(c.fn, b.nfn, bodies[0]), FnCount(bodies[0]));
      NeedBodies(c, bodies[1..], base + 2, out, b1, bF, reach, inLoop, opens);
    }
  }

  lemma {:induction false} NeedIf(c: Ctx, s: Stmt, b: Builder, bF: Builder, reach: set<string>, inLoop: bool,
                                  opens: set<nat>)
    requires s.If? && Accepted(c, s) && AllWellFormed(bF) && Rooted(c, b, bF, reach, inLoop, opens) &&
             Leads(EmitS(c, s, b), bF, opens)
    ensures Resolved(s, reach, inLoop) && Once(bF, Defs(c.fn, b.nfn, s))
    decreases s, 0
  {
    hide Leads, AllWellFormed, EmitS, EmitArm, EmitConds, EmitBodies, Accepted, PlacedOnce, Names, Fits, Within,
         Rooted, Ground;
    AcceptedIf(c, s);
    UnfoldIf(c, s, b);
    AddsIf(c, s, b, 0);
    RootedOpen(c, b, bF, reach, inLoop, opens);
    var b2, b3, b4 := IfTurn(c, s, b), IfArms(c, s, b), IfElse(c, s, b);
    var ds, n := DefsSeq(c.fn, b.nfn, s.bodies), FnCountSeq(s.bodies);
    AddsPlace(b4, c.fn, Anon(b.nbb), 0);
    LeadsBack(b4, EmitS(c, s, b), bF, c.fn, 0, [], 0, opens);
    RootedStep(c, b, b2, bF, reach, inLoop, opens, 0, [], 0);
    RootedStep(c, b2, b3, bF, reach, inLoop, opens, 0, ds, n);
    if s.remain.Some? {
      var bb := ElseBlock(b.nbb + 1, |s.conds|);
      NeedArm(c, s.remain.value, bb, Anon(b.nbb), b3, bF, reach, inLoop, opens);
      AddsArm(c, s.remain.value, bb, Anon(b.nbb), b3, 0);
      LeadsBack(b3, b4, bF, c.fn, 0, Defs(c.fn, b3.nfn, s.remain.value), FnCount(s.remain.value), opens);
    }
    NeedBodies(c, s.bodies, b.nbb + 1, Anon(b.nbb), b2, bF, reach, inLoop, opens);
  }

  // ----- functions -----

  lemma {:induction false} NeedFn(c: Ctx, ret: Option<Ty>, body: Stmt, b: Builder, bF: Builder, opens: set<nat>)
    requires WellTyped(c.g, ret, body) && LoopStackOk(body, c.loops != []) && AllWellFormed(bF) && Ground(c, b, opens)
    requires Leads(EmitFn(c, ret, body, b), bF, opens)
    ensures Resolved(body, Labels(body, false), false) && Once(bF, Defs(b.nfn, b.nfn + 1, body))
    decreases body, 2
  {
    hide AllWellFormed, EmitS, EmitExit, WellTyped, LoopStackOk, Resolved, Defs, PlacedOnce, Names, Fits, Within,
         FnCount, Labels;
    var c1, b0, opens1 := FnCtx(c, ret, b), FnEntry(ret, b), opens + {b.nfn};
    var b1 := EmitS(c1, body, b0);
    var b2 := EmitExit(c1, b1);
    AddsEntry(ret, b, b.nbb);
    AddsExit(c1, b1, 0);
    assert Leads(b2, bF, opens1);
    LeadsBack(b1, b2, bF, c1.fn, 0, [], 0, opens1);
    FnEntries(c, ret, body, b, bF, opens);
    assert b0.placed[|b.placed|] == (b.nfn, b0.cur);
    assert Ground(c1, b0, opens1);
    assert Rooted(c1, b0, bF, Labels(body, false), false, opens1);
    NeedS(c1, body, b0, bF, Labels(body, false), false, opens1);
  }

  /** All the blocks a function ever has are those its own walk places. */
  lemma FnEntries(c: Ctx, ret: Option<Ty>, body: Stmt, b: Builder, bF: Builder, opens: set<nat>)
    requires WellTyped(c.g, ret, body) && LoopStackOk(body, c.loops != []) && Ground(c, b, opens)
    requires Leads(EmitFn(c, ret, body, b), bF, opens)
    ensures forall l | (b.nfn, Named(l)) in bF.placed :: l in Labels(body, false)
    ensures forall i | 0 <= i < |c.loops| ::
            (b.nfn, c.loops[i].cond) !in bF.placed && (b.nfn, c.loops[i].out) !in bF.placed
  {
    hide EmitFn, WellTyped, LoopStackOk, Defs, Names, Within, FnCount, Labels;
    AddsFn(c, ret, body, b, b.nbb);
    var bE := EmitFn(c, ret, body, b);
    var ds := Defs(b.nfn, b.nfn + 1, body);
    forall t | (b.nfn, t) in bF.placed
      ensures (b.nfn, t) in bE.placed[|b.placed|..] && (t.Anon? ==> b.nbb <= t.id)
    {
      var k :| 0 <= k < |bF.placed| && bF.placed[k] == (b.nfn, t);
      assert k < |bE.placed|;
      assert bE.placed[k] == (b.nfn, t);
      assert k >= |b.placed|;
      assert bE.placed[|b.placed|..][k - |b.placed|] == (b.nfn, t);
      assert Fits(bE.placed[k], c.fn, b.nbb, b.nfn, bE.nfn);
    }
    NewNames(b, bE, c.fn, b.nbb, ds, 1 + FnCount(body));
    forall l | (b.nfn, Named(l)) in bF.placed
      ensures l in Labels(body, false)
    {
      NamesIn(bE.placed[|b.placed|..], b.nfn, l);
      DefsOwn(b.nfn, b.nfn + 1, body, l);
    }
  }
}
