/** Whole programs: a sequence of function definitions walked from an empty builder. */
module Programs {
  import opened IntTypes
  import opened Syntax
  import opened Target
  import opened Emit
  import opened Frame
  import opened Placement
  import opened WellFormed
  import opened Sufficient
  import opened Necessary

  /** Outside any function. */
  function Outside(g: seq<Ty>): Ctx {
    Ctx(g, 0, None, Anon(0), 0, [])
  }

  function Start(g: seq<Ty>): Builder {
    Builder(map[Anon(0) := []], [], Anon(0), 1, 0, |g|, 1)
  }

  predicate Program(g: seq<Ty>, fns: seq<Stmt>) {
    forall i | 0 <= i < |fns| :: fns[i].FnDef? && Accepted(Outside(g), fns[i])
  }

  // ----- distinct labels -----

  function NamesOf(ds: seq<(nat, string)>): set<string> {
    set d | d in ds :: d.1
  }

  predicate NoDup(ds: seq<(nat, string)>) {
    forall j, k | 0 <= j < k < |ds| :: ds[j].1 != ds[k].1
  }

  lemma NoDupConcat(p: seq<(nat, string)>, q: seq<(nat, string)>)
    ensures NamesOf(p + q) == NamesOf(p) + NamesOf(q)
    ensures NoDup(p + q) <==> NoDup(p) && NoDup(q) && NamesOf(p) !! NamesOf(q)
  {
    NoDupSplit(p, q);
    forall j, k | 0 <= j < |p| && 0 <= k < |q| && p[j].1 == q[k].1
      ensures p[j].1 in NamesOf(p) * NamesOf(q)
    {
      assert p[j] in p && q[k] in q;
    }
    if n :| n in NamesOf(p) * NamesOf(q) {
      var d, e :| d in p && e in q && d.1 == n == e.1;
      var j :| 0 <= j < |p| && p[j] == d;
      var k :| 0 <= k < |q| && q[k] == e;
      assert p[j].1 == q[k].1;
    }
  }

  lemma NoDupSplit(p: seq<(nat, string)>, q: seq<(nat, string)>)
    ensures NoDup(p + q) <==> NoDup(p) && NoDup(q) && forall j, k | 0 <= j < |p| && 0 <= k < |q| :: p[j].1 != q[k].1
  {
    var r := p + q;
    if NoDup(r) {
      assert forall j | 0 <= j < |p| :: r[j] == p[j];
      forall j, k | 0 <= j < k < |q|
        ensures q[j].1 != q[k].1
      {
        assert r[|p| + j] == q[j] && r[|p| + k] == q[k];
      }
      forall j, k | 0 <= j < |p| && 0 <= k < |q|
        ensures p[j].1 != q[k].1
      {
        assert r[j] == p[j] && r[|p| + k] == q[k];
      }
    }
  }

  /** Defs lists the labels; they are distinct exactly when DistinctLabels says so. */
  lemma {:induction false} DistinctIff(fn: nat, n: nat, s: Stmt)
    ensures NamesOf(Defs(fn, n, s)) == Labels(s, true)
    ensures NoDup(Defs(fn, n, s)) <==> DistinctLabels(s)
    decreases s
  {
    match s
    case Block(ss) => DistinctIffSeq(fn, n, ss);
    case If(_, bodies, remain) =>
      DistinctIffSeq(fn, n, bodies);
      if remain.Some? {
        var m := n + FnCountSeq(bodies);
        DistinctIff(fn, m, remain.value);
        NoDupConcat(DefsSeq(fn, n, bodies), Defs(fn, m, remain.value));
      } else {
        assert DefsSeq(fn, n, bodies) + [] == DefsSeq(fn, n, bodies);
      }
    case While(_, b) => DistinctIff(fn, n, b);
    case Loop(b) => DistinctIff(fn, n, b);
    case For(_, _, b) => DistinctIff(fn, n, b);
    case FnDef(_, b) => DistinctIff(n, n + 1, b);
    case _ =>
  }

  lemma {:induction false} DistinctIffSeq(fn: nat, n: nat, ss: seq<Stmt>)
    ensures NamesOf(DefsSeq(fn, n, ss)) == LabelsSeq(ss, true)
    ensures NoDup(DefsSeq(fn, n, ss)) <==> DistinctLabelsSeq(ss)
    decreases ss
  {
    if ss != [] {
      var m := n + FnCount(ss[0]);
      DistinctIff(fn, n, ss[0]);
      DistinctIffSeq(fn, m, ss[1..]);
      NoDupConcat(Defs(fn, n, ss[0]), DefsSeq(fn, m, ss[1..]));
    }
  }

  /** If no label block is placed twice, the names are distinct. */
  lemma {:induction false} OnceNoDup(placed: seq<(nat, BB)>)
    requires forall j, k | 0 <= j < k < |placed| :: placed[j].1.Named? ==> placed[j].1 != placed[k].1
    ensures NoDup(Names(placed))
  {
    if placed != [] {
      var before, last := placed[..|placed| - 1], placed[|placed| - 1];
      OnceNoDup(before);
      if last.1.Named? {
        var ns := Names(before);
        forall d | d in ns
          ensures d.1 != last.1.name
        {
          NamesIn(before, d.0, d.1);
          var j :| 0 <= j < |before| && before[j] == (d.0, Named(d.1));
          assert placed[j] == before[j];
        }
        NoDupConcat(ns, [(last.0, last.1.name)]);
      }
    }
  }

  // ----- the two directions -----

  lemma {:induction false} FunctionsThrough(g: seq<Ty>, fns: seq<Stmt>, b: Builder)
    requires Program(g, fns) && Ready(b) && Open(b)
    requires DistinctLabelsSeq(fns) && FreshLabels(b, LabelsSeq(fns, true))
    requires forall i | 0 <= i < |fns| :: Resolved(fns[i], {}, false)
    ensures Through(b, EmitSeq(Outside(g), fns, b), 0, {}) && EmitSeq(Outside(g), fns, b).cur == b.cur
    ensures Text(EmitSeq(Outside(g), fns, b), b.cur) == Text(b, b.cur)
    decreases fns
  {
    hide Grown, Counted, Threads, Open, EmitFn, FreshLabels, WellTyped, LoopStackOk;
    if fns == [] {
      ThroughRefl(b, 0, {});
    } else {
      var c, ls := Outside(g), Labels(fns[0], true);
      var b1 := EmitS(c, fns[0], b);
      FreshSplit(b, ls, LabelsSeq(fns[1..], true));
      AcceptedFn(c, fns[0]);
      ThroughFn(c, fns[0].ret, fns[0].body, b, {});
      GrowsFn(c, fns[0].ret, fns[0].body, b);
      FnKeepsCur(c, fns[0].ret, fns[0].body, b);
      StillFresh(b, b1, b.nbb, ls, LabelsSeq(fns[1..], true));
      FunctionsThrough(g, fns[1..], b1);
      ThroughTrans(b, b1, EmitSeq(c, fns, b), 0, {});
    }
  }

  lemma AcceptedFn(c: Ctx, s: Stmt)
    requires s.FnDef? && Accepted(c, s)
    ensures WellTyped(c.g, s.ret, s.body) && LoopStackOk(s.body, c.loops != [])
  {
  }

  lemma {:induction false} FunctionsNeed(g: seq<Ty>, fns: seq<Stmt>, b: Builder, bF: Builder)
    requires Program(g, fns) && AllWellFormed(bF) && Ground(Outside(g), b, {0}) &&
             Leads(EmitSeq(Outside(g), fns, b), bF, {0})
    ensures forall i | 0 <= i < |fns| :: Resolved(fns[i], {}, false)
    ensures Once(bF, DefsSeq(0, b.nfn, fns))
    decreases fns
  {
    hide Leads, AllWellFormed, EmitFn, Accepted, FnCount, PlacedOnce, Names, Fits, Within, Ground, WellTyped,
         LoopStackOk;
    if fns != [] {
      var c := Outside(g);
      var b1 := EmitS(c, fns[0], b);
      AddsS(c, fns[0], b, 0);
      AddsSeq(c, fns[1..], b1, 0);
      LeadsBack(b1, EmitSeq(c, fns, b), bF, 0, 0, DefsSeq(0, b1.nfn, fns[1..]), FnCountSeq(fns[1..]), {0});
      AcceptedFn(c, fns[0]);
      NeedFn(c, fns[0].ret, fns[0].body, b, bF, {0});
      GroundStep(c, b, b1, {0}, 0, 0, Defs(0, b.nfn, fns[0]), FnCount(fns[0]));
      FunctionsNeed(g, fns[1..], b1, bF);
    }
  }

  /** Every function of a program comes out well formed if and only if no label name is
      defined twice in the whole program, every goto names a label of its own function, and
      every break and continue is inside a loop of its own function.  Forward and backward
      gotos are alike; a nested function counts as a function of its own. */
  lemma WellFormedIff(g: seq<Ty>, fns: seq<Stmt>)
    requires Program(g, fns)
    ensures AllWellFormed(EmitSeq(Outside(g), fns, Start(g))) <==>
            DistinctLabelsSeq(fns) && forall i | 0 <= i < |fns| :: Resolved(fns[i], {}, false)
  {
    hide EmitSeq, AllWellFormed, DistinctLabelsSeq, Resolved, Threads, Open, Grown, Counted, Within, Leads, Ground,
         Once, FreshLabels;
    var bF := EmitSeq(Outside(g), fns, Start(g));
    StartFit(g, fns);
    if DistinctLabelsSeq(fns) && forall i | 0 <= i < |fns| :: Resolved(fns[i], {}, false) {
      FunctionsThrough(g, fns, Start(g));
      ThreadsWell(g, bF);
    }
    if AllWellFormed(bF) {
      LeadsSelf(bF, {0});
      FunctionsNeed(g, fns, Start(g), bF);
      LabelsOnce(g, fns);
    }
  }

  lemma StartFit(g: seq<Ty>, fns: seq<Stmt>)
    ensures Ready(Start(g)) && Open(Start(g)) && FreshLabels(Start(g), LabelsSeq(fns, true))
    ensures Ground(Outside(g), Start(g), {0}) && Text(Start(g), Anon(0)) == [] && Start(g).cur == Anon(0) &&
            Start(g).nfn == 1
  {
  }

  lemma LeadsSelf(bF: Builder, opens: set<nat>)
    ensures Leads(bF, bF, opens)
  {
  }

  /** The insertion point is back outside all functions, where there is no code. */
  predicate OutsideEmpty(bF: Builder) {
    bF.cur == Anon(0) && Text(bF, Anon(0)) == []
  }

  lemma ThreadsWell(g: seq<Ty>, bF: Builder)
    requires Threads(Start(g), bF, 0, {}) && OutsideEmpty(bF)
    ensures AllWellFormed(bF)
  {
    hide Sealed, Jumps, Joins, Links, PhiOk;
    forall k | 0 <= k < |bF.placed|
      ensures BlockOk(bF, bF.placed[k].0, bF.placed[k].1)
    {
      var (f, bb) := bF.placed[k];
      NewBlock(g, bF, k);
      forall t | Jumps(Text(bF, bb), t)
        ensures PlacedOnce(bF, f, t)
      {
        PlacedTarget(g, bF, k, t);
      }
      forall i | 0 <= i < |Text(bF, bb)| && Text(bF, bb)[i].Phi?
        ensures PhiOk(bF, f, bb, i)
      {
        PhiWell(g, bF, k, i);
      }
    }
  }

  lemma NewBlock(g: seq<Ty>, bF: Builder, k: nat)
    requires Links(Start(g), bF, 0, {}) && OutsideEmpty(bF) && k < |bF.placed|
    ensures NewOk(Start(g), bF, 0, {}, bF.placed[k].0, bF.placed[k].1)
    ensures bF.placed[k].1 in bF.blocks && Sealed(Text(bF, bF.placed[k].1)) && bF.placed[k].1 != Anon(0)
  {
    hide Sealed, Jumps, TargetKnown;
    assert NewOk(Start(g), bF, 0, {}, bF.placed[k].0, bF.placed[k].1);
  }

  lemma PlacedTarget(g: seq<Ty>, bF: Builder, k: nat, t: BB)
    requires Links(Start(g), bF, 0, {}) && OutsideEmpty(bF) && k < |bF.placed| && Jumps(Text(bF, bF.placed[k].1), t)
    ensures PlacedOnce(bF, bF.placed[k].0, t)
  {
    hide Sealed, Jumps;
    var b, f := Start(g), bF.placed[k].0;
    NewBlock(g, bF, k);
    assert TargetKnown(b, bF, 0, {}, f, t);
    assert bF.placed[0..] == bF.placed;
  }

  /** The block outside all functions has no code, so the predecessors of a join are placed,
      in the function of the join. */
  lemma PhiWell(g: seq<Ty>, bF: Builder, k: nat, i: nat)
    requires Threads(Start(g), bF, 0, {}) && OutsideEmpty(bF) && k < |bF.placed|
    requires var text := Text(bF, bF.placed[k].1); i < |text| && text[i].Phi?
    ensures PhiOk(bF, bF.placed[k].0, bF.placed[k].1, i)
  {
    hide Sealed, Jumps, Links;
    var (f, bb) := bF.placed[k];
    NewBlock(g, bF, k);
    assert bb !in Start(g).blocks && JoinOk(bF, bb, {});
    var p, q := bF.blocks[bb][i].b1, bF.blocks[bb][i].b2;
    assert Preds(bF, bb, p, q);
    PredPlaced(g, bF, f, bb, p);
    PredPlaced(g, bF, f, bb, q);
    forall j | 0 <= j < |bF.placed|
      ensures Jumps(Text(bF, bF.placed[j].1), bb) <==> bF.placed[j].1 in {p, q}
    {
      NewBlock(g, bF, j);
    }
  }

  lemma PredPlaced(g: seq<Ty>, bF: Builder, f: nat, bb: BB, p: BB)
    requires Threads(Start(g), bF, 0, {}) && OutsideEmpty(bF) && (f, bb) in bF.placed
    requires p in bF.blocks && Jumps(bF.blocks[p], bb)
    ensures (f, p) in bF.placed
  {
    hide Sealed, Links;
    var b := Start(g);
    assert p != Anon(0);
    assert PlacedNew(b, bF, p);
    var j :| 0 <= j < |bF.placed| && bF.placed[j].1 == p;
    PlacedTarget(g, bF, j, bb);
    var k :| 0 <= k < |bF.placed| && bF.placed[k] == (f, bb);
    var m :| 0 <= m < |bF.placed| && bF.placed[m] == (bF.placed[j].0, bb);
    assert k == m;
  }

  lemma LabelsOnce(g: seq<Ty>, fns: seq<Stmt>)
    requires Program(g, fns) && Once(EmitSeq(Outside(g), fns, Start(g)), DefsSeq(0, 1, fns))
    ensures DistinctLabelsSeq(fns)
  {
    hide Accepted, EmitS, Defs, FnCount, Fits, Within;
    var c, b := Outside(g), Start(g);
    var bF := EmitSeq(c, fns, b);
    AddsSeq(c, fns, b, 0);
    assert Names(bF.placed) == DefsSeq(0, 1, fns);
    forall j, k | 0 <= j < k < |bF.placed| && bF.placed[j].1.Named?
      ensures bF.placed[j].1 != bF.placed[k].1
    {
      var (f, bb) := bF.placed[j];
      assert bF.placed[j] == (f, Named(bb.name));
      NamesIn(bF.placed, f, bb.name);
      assert PlacedOnce(bF, f, Named(bb.name));
    }
    OnceNoDup(bF.placed);
    DistinctIffSeq(0, 1, fns);
  }

  // ----- programs that do not come out well formed -----

  /** The same label in two functions: both define the one block of that name. */
  lemma SharedLabel()
    ensures var fns := [FnDef(None, Label("a")), FnDef(None, Label("a"))];
            Program([], fns) && !AllWellFormed(EmitSeq(Outside([]), fns, Start([])))
  {
    hide AllWellFormed, EmitSeq;
    var f := FnDef(None, Label("a"));
    var fns := [f, f];
    WellFormedIff([], fns);
    assert fns[1..] == [f] && [f][1..] == [];
    assert LabelsSeq([f], true) == Labels(f, true) + LabelsSeq([], true);
    assert "a" in Labels(fns[0], true) && "a" in LabelsSeq(fns[1..], true);
  }

  /** A break in a function inside a loop of another: the loop stack still holds that loop. */
  lemma LeakingBreak()
    ensures var fns := [FnDef(None, Loop(FnDef(None, Break)))];
            Program([], fns) && !AllWellFormed(EmitSeq(Outside([]), fns, Start([])))
  {
    hide AllWellFormed, EmitSeq;
    var inner := FnDef(None, Break);
    var fns := [FnDef(None, Loop(inner))];
    WellFormedIff([], fns);
    assert !Resolved(inner, {}, true);
    assert !Resolved(Loop(inner), Labels(Loop(inner), false), false);
    assert !Resolved(fns[0], {}, false);
  }

  /** A goto to a label that is defined nowhere: its block is made and never placed. */
  lemma LabelNowhere()
    ensures var fns := [FnDef(None, Goto("a"))];
            Program([], fns) && !AllWellFormed(EmitSeq(Outside([]), fns, Start([])))
  {
    hide AllWellFormed, EmitSeq;
    var fns := [FnDef(None, Goto("a"))];
    WellFormedIff([], fns);
    assert !Resolved(Goto("a"), {}, false);
    assert !Resolved(fns[0], {}, false);
  }
}
