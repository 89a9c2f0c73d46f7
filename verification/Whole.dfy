/** Every top-level function of a compiled program behaves as its source, in the code of the
    whole program. */
module Whole {
  import opened IntTypes
  import opened Syntax
  import opened Source
  import opened Target
  import opened Emit
  import opened Frame
  import opened SimExpr
  import opened SimStmt
  import opened Structured
  import opened Lowering
  import opened WellFormed
  import opened Programs

  /** The builder when function i is reached, and the finished code. */
  function Before(g: seq<Ty>, fns: seq<Stmt>, i: nat): Builder
    requires Program(g, fns) && i <= |fns|
  {
    EmitSeq(Outside(g), fns[..i], Start(g))
  }

  function CodeOf(g: seq<Ty>, fns: seq<Stmt>): Code
    requires Program(g, fns)
  {
    EmitSeq(Outside(g), fns, Start(g)).blocks
  }

  lemma {:induction false} EmitSeqConcat(c: Ctx, a: seq<Stmt>, b: seq<Stmt>, bd: Builder)
    requires (forall i | 0 <= i < |a| :: Accepted(c, a[i])) && forall i | 0 <= i < |b| :: Accepted(c, b[i])
    ensures forall i | 0 <= i < |a + b| :: Accepted(c, (a + b)[i])
    ensures EmitSeq(c, a + b, bd) == EmitSeq(c, b, EmitSeq(c, a, bd))
    decreases |a|
  {
    hide EmitS, Accepted;
    if a == [] {
      assert a + b == b;
    } else {
      assert (a + b)[0] == a[0] && (a + b)[1..] == a[1..] + b;
      EmitSeqConcat(c, a[1..], b, EmitS(c, a[0], bd));
    }
  }

  lemma {:induction false} DistinctSplit(a: seq<Stmt>, b: seq<Stmt>)
    requires DistinctLabelsSeq(a + b)
    ensures DistinctLabelsSeq(a) && DistinctLabelsSeq(b) && LabelsSeq(a, true) !! LabelsSeq(b, true)
    ensures LabelsSeq(a + b, true) == LabelsSeq(a, true) + LabelsSeq(b, true)
    decreases |a|
  {
    hide DistinctLabels, Labels;
    if a == [] {
      assert a + b == b;
    } else {
      assert (a + b)[0] == a[0] && (a + b)[1..] == a[1..] + b;
      DistinctSplit(a[1..], b);
    }
  }

  lemma SlotsGrow(b: Builder, b1: Builder, lo: nat, ls: set<string>)
    requires Grows(b, b1, lo, ls)
    ensures b.nslot <= b1.nslot
  {
  }

  /** The code of function i is what EmitFn gives there, and nothing later disturbs it. */
  lemma CanStartAt(g: seq<Ty>, fns: seq<Stmt>, i: nat, ms: Machine, st: State)
    requires Program(g, fns) && DistinctLabelsSeq(fns) && i < |fns|
    requires StoreOk(g, st.store) && Agrees(g, st, ms) && AtTop(ms, Anon(Before(g, fns, i).nbb + 1))
    ensures CanStart(CodeOf(g, fns), Outside(g), fns[i].ret, fns[i].body, Before(g, fns, i), ms, st)
  {
    hide Grown, Counted, EmitS, Labels, DistinctLabels, FreshLabels, Within, StoreOk, Agrees, WellTyped, LoopStackOk;
    var c, before, after := Outside(g), fns[..i], fns[i + 1..];
    var f := fns[i];
    var ls := Labels(f, true);
    assert fns == before + ([f] + after) && ([f] + after)[1..] == after;
    DistinctSplit(before, [f] + after);
    EmitSeqConcat(c, before, [f] + after, Start(g));
    StartReady(g, LabelsSeq(fns, true));
    StartReady(g, LabelsSeq(before, true));
    StartReady(g, ls + LabelsSeq(after, true));
    var b := Before(g, fns, i);
    GrowsSeq(c, before, Start(g));
    StillFresh(Start(g), b, Start(g).nbb, LabelsSeq(before, true), ls + LabelsSeq(after, true));
    SlotsGrow(Start(g), b, Start(g).nbb, LabelsSeq(before, true));
    var b1 := EmitS(c, f, b);
    LabelParts(b, ls, LabelsSeq(after, true));
    GrowsS(c, f, b);
    StillFresh(b, b1, b.nbb, ls, LabelsSeq(after, true));
    GrowsSeq(c, after, b1);
    var bF := EmitSeq(c, after, b1);
    assert bF.blocks == CodeOf(g, fns);
    WithinRefl(bF.blocks);
    WithinOf(b1, bF, b1.nbb, LabelsSeq(after, true), bF.blocks);
    FnParts(c, f, b);
  }

  lemma StartReady(g: seq<Ty>, ls: set<string>)
    ensures Ready(Start(g)) && FreshLabels(Start(g), ls)
  {
  }

  lemma LabelParts(b: Builder, ls: set<string>, ls1: set<string>)
    requires FreshLabels(b, ls + ls1)
    ensures FreshLabels(b, ls) && FreshLabels(b, ls1)
  {
    assert forall l | l in ls || l in ls1 :: l in ls + ls1;
  }

  lemma WithinRefl(code: Code)
    ensures Within(code, code)
  {
  }

  lemma FnParts(c: Ctx, f: Stmt, b: Builder)
    requires f.FnDef? && Accepted(c, f)
    ensures WellTyped(c.g, f.ret, f.body) && LoopStackOk(f.body, c.loops != [])
    ensures EmitS(c, f, b) == EmitFn(c, f.ret, f.body, b)
    ensures Labels(f, true) == Labels(f.body, true) && (DistinctLabels(f) <==> DistinctLabels(f.body))
  {
  }

  ghost predicate Stops(w: World, code: Code, ms: Machine) {
    exists n: nat :: !Steps(w, code, ms, n).Run?
  }

  ghost predicate Finishes(w: World, g: seq<Ty>, ret: Option<Ty>, body: Stmt, st: State)
    requires WellTyped(g, ret, body) && StoreOk(g, st.store)
  {
    exists fuel: nat :: !EvalBody(w, g, ret, body, None, st, fuel).0.Timeout?
  }

  /** A function of a program compiled with distinct labels, whose jumps are closed: the
      machine stops running if and only if the source finishes.  Then a returned value is the
      machine's result, and store and calls are the same. */
  lemma ProgramFunction(w: World, g: seq<Ty>, fns: seq<Stmt>, i: nat, ms: Machine, st: State)
    requires Program(g, fns) && DistinctLabelsSeq(fns) && i < |fns| && Closed(fns[i].body)
    requires StoreOk(g, st.store) && Agrees(g, st, ms) && AtTop(ms, Anon(Before(g, fns, i).nbb + 1))
    requires WellTyped(g, fns[i].ret, fns[i].body)
    ensures Stops(w, CodeOf(g, fns), ms) <==> Finishes(w, g, fns[i].ret, fns[i].body, st)
    ensures forall n: nat | !Steps(w, CodeOf(g, fns), ms, n).Run? ::
              var (o, st1) := EvalBody(w, g, fns[i].ret, fns[i].body, None, st, n + 1);
              (o.Returned? || o.Normal?) && Meets(g, fns[i].ret, o, st1, Steps(w, CodeOf(g, fns), ms, n))
  {
    hide EvalBody, Steps, Meets, Agrees, StoreOk, CodeOf, Before, Accepted, CanStart;
    CanStartAt(g, fns, i, ms, st);
    var code, b, ret, body := CodeOf(g, fns), Before(g, fns, i), fns[i].ret, fns[i].body;
    forall n: nat | !Steps(w, code, ms, n).Run?
      ensures var (o, st1) := EvalBody(w, g, ret, body, None, st, n + 1);
              (o.Returned? || o.Normal?) && Meets(g, ret, o, st1, Steps(w, code, ms, n))
      ensures Finishes(w, g, ret, body, st)
    {
      FunctionReflects(w, code, Outside(g), ret, body, b, ms, st, n);
    }
    if Finishes(w, g, ret, body, st) {
      FinishMeans(w, code, g, ret, body, b, ms, st);
    }
  }

  lemma FinishMeans(w: World, code: Code, g: seq<Ty>, ret: Option<Ty>, body: Stmt, b: Builder, ms: Machine, st: State)
    requires CanStart(code, Outside(g), ret, body, b, ms, st) && Closed(body)
    requires WellTyped(g, ret, body) && StoreOk(g, st.store) && Finishes(w, g, ret, body, st)
    ensures Stops(w, code, ms)
  {
    hide EvalBody, Steps, Meets, StoreOk, WellTyped;
    var fuel: nat :| !EvalBody(w, g, ret, body, None, st, fuel).0.Timeout?;
    ClosedOutcome(w, g, ret, body, st, fuel);
    var n, ms1 := FunctionRuns(w, code, Outside(g), ret, body, b, ms, st, fuel);
    var (o, st1) := EvalBody(w, g, ret, body, None, st, fuel);
    MeetsStops(g, ret, o, st1, ms1);
    assert !Steps(w, code, ms, n).Run?;
  }
}
