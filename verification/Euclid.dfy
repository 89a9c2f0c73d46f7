/** One program from its tree to the machine's answer: the compiled code of Euclid's algorithm
    computes greatest common divisors. */
module Euclid {
  import opened IntTypes
  import opened Syntax
  import opened Source
  import opened Target
  import opened Emit
  import opened SimExpr
  import opened Structured
  import opened Lowering
  import opened Programs
  import opened Whole
  import opened Laws

  // ----- greatest common divisors -----

  ghost predicate Divides(d: nat, a: nat) {
    exists k: nat :: Times(d, k) == a
  }

  function Times(d: nat, k: nat): nat {
    d * k
  }

  /** d divides both, and all their common divisors divide d. */
  ghost predicate IsGcd(d: nat, a: nat, b: nat) {
    Divides(d, a) && Divides(d, b) && forall e | Divides(e, a) && Divides(e, b) :: Divides(e, d)
  }

  lemma DividesSum(d: nat, a: nat, b: nat)
    requires Divides(d, a) && Divides(d, b)
    ensures Divides(d, a + b)
  {
    var j: nat :| Times(d, j) == a;
    var k: nat :| Times(d, k) == b;
    assert Times(d, j + k) == a + b;
  }

  lemma DividesDiff(d: nat, a: nat, b: nat)
    requires Divides(d, a) && Divides(d, b) && b <= a
    ensures Divides(d, a - b)
  {
    var j: nat :| Times(d, j) == a;
    var k: nat :| Times(d, k) == b;
    if j >= k {
      assert Times(d, j - k) == a - b;
    } else {
      assert Times(d, k - j) == b - a;
      assert Times(d, 0) == a - b;
    }
  }

  lemma GcdSame(a: nat)
    ensures IsGcd(a, a, a)
  {
    assert Times(a, 1) == a;
  }

  lemma GcdLess(d: nat, a: nat, b: nat)
    requires b <= a && IsGcd(d, a - b, b)
    ensures IsGcd(d, a, b) && IsGcd(d, b, a)
  {
    DividesSum(d, a - b, b);
    forall e | Divides(e, a) && Divides(e, b)
      ensures Divides(e, d)
    {
      DividesDiff(e, a, b);
    }
  }

  // ----- the program -----

  const g: seq<Ty> := [U32, U32]

  const Differ: Expr := Cmp(Ne, Var(0), Var(1))

  const Greater: Expr := Cmp(Gt, Var(0), Var(1))

  /** `if a > b { a -= b } else { b -= a }` */
  function Step(): Stmt {
    If([Greater], [AssignOp(0, Sub, Var(1))], Some(AssignOp(1, Sub, Var(0))))
  }

  /** `while a != b { … } return a` */
  function Body(): Stmt {
    Block([While(Differ, Step()), Ret(Some(Var(0)))])
  }

  lemma Typed()
    ensures TypeE(g, Var(0)) == TypeE(g, Var(1)) == Some(U32) && TypeE(g, Differ) == TypeE(g, Greater) == Some(BOOL)
    ensures forall ret :: WellTyped(g, ret, Step()) && WellTyped(g, ret, While(Differ, Step()))
    ensures WellTyped(g, Some(U32), Body())
  {
    assert TypeE(g, Var(0)) == Some(U32) && TypeE(g, Var(1)) == Some(U32);
  }

  // ----- what it computes -----

  function At(a: nat, b: nat, trace: seq<Event>): State {
    State([a, b], trace)
  }

  predicate Small(a: nat, b: nat) {
    0 < a < 0x1_0000_0000 && 0 < b < 0x1_0000_0000
  }

  lemma VarsAre(w: World, a: nat, b: nat, trace: seq<Event>)
    requires Small(a, b)
    ensures StoreOk(g, At(a, b, trace).store)
    ensures TypeE(g, Var(0)) == TypeE(g, Var(1)) == Some(U32) && TypeE(g, Differ) == TypeE(g, Greater) == Some(BOOL)
    ensures EvalE(w, g, Var(0), At(a, b, trace)) == (a, At(a, b, trace))
    ensures EvalE(w, g, Var(1), At(a, b, trace)) == (b, At(a, b, trace))
  {
    Ranges(a);
    Ranges(b);
    Typed();
  }

  /** The larger number gets smaller by the other. */
  lemma StepIs(w: World, ret: Option<Ty>, a: nat, b: nat, trace: seq<Event>, fuel: nat)
    requires Small(a, b) && a != b
    ensures StoreOk(g, At(a, b, trace).store) && WellTyped(g, ret, Step())
    ensures EvalS(w, g, ret, Step(), None, At(a, b, trace), fuel) ==
            (Normal, if a > b then At(a - b, b, trace) else At(a, b - a, trace))
  {
    hide EvalE, EvalS, TypeE;
    var st := At(a, b, trace);
    Typed();
    VarsAre(w, a, b, trace);
    CmpMeans(w, g, Var(0), Var(1), st);
    IfLaw(w, g, ret, Greater, AssignOp(0, Sub, Var(1)), AssignOp(1, Sub, Var(0)), st, fuel);
    if a > b {
      SubIs(w, ret, 0, 1, a, b, trace, fuel);
    } else {
      SubIs(w, ret, 1, 0, a, b, trace, fuel);
    }
  }

  lemma SubIs(w: World, ret: Option<Ty>, x: nat, y: nat, a: nat, b: nat, trace: seq<Event>, fuel: nat)
    requires Small(a, b) && x < 2 && y == 1 - x && (if x == 0 then a > b else b > a)
    ensures StoreOk(g, At(a, b, trace).store) && TypeE(g, Var(y)) == Some(U32)
    ensures EvalS(w, g, ret, AssignOp(x, Sub, Var(y)), None, At(a, b, trace), fuel) ==
            (Normal, if x == 0 then At(a - b, b, trace) else At(a, b - a, trace))
  {
    hide EvalE, TypeE;
    var st := At(a, b, trace);
    Typed();
    VarsAre(w, a, b, trace);
    AssignOpLaw(w, g, ret, x, Sub, Var(y), st, fuel);
    ArithMeans(w, g, Var(x), Var(y), st);
    var d := if x == 0 then a - b else b - a;
    Ranges(d);
    WrapInRange(U32, d);
    assert st.store[x := d] == if x == 0 then [a - b, b] else [a, b - a];
  }

  lemma {:induction false} LoopIs(w: World, ret: Option<Ty>, a: nat, b: nat, trace: seq<Event>, fuel: nat)
    returns (d: nat)
    requires Small(a, b) && fuel >= a + b
    ensures StoreOk(g, At(a, b, trace).store) && WellTyped(g, ret, While(Differ, Step()))
    ensures Small(d, d) && IsGcd(d, a, b)
    ensures EvalS(w, g, ret, While(Differ, Step()), None, At(a, b, trace), fuel) == (Normal, At(d, d, trace))
    decreases a + b
  {
    hide EvalE, EvalS, TypeE, IsGcd;
    var st, loop := At(a, b, trace), While(Differ, Step());
    Typed();
    VarsAre(w, a, b, trace);
    CmpMeans(w, g, Var(0), Var(1), st);
    LoopsRepeat(w, g, ret, loop, st, fuel);
    if a == b {
      d := a;
      GcdSame(a);
    } else {
      StepIs(w, ret, a, b, trace, fuel);
      var a1, b1 := if a > b then a - b else a, if a > b then b else b - a;
      d := LoopIs(w, ret, a1, b1, trace, fuel - 1);
      LoopsRepeat(w, g, ret, loop, At(a1, b1, trace), fuel - 1);
      if a > b {
        GcdLess(d, a, b);
      } else {
        GcdSwap(d, a1, b1);
        GcdLess(d, b, a);
      }
    }
  }

  lemma GcdSwap(d: nat, a: nat, b: nat)
    requires IsGcd(d, a, b)
    ensures IsGcd(d, b, a)
  {
  }

  /** The source: it returns the greatest common divisor. */
  lemma BodyIs(w: World, a: nat, b: nat, trace: seq<Event>, fuel: nat) returns (d: nat)
    requires Small(a, b) && fuel >= a + b
    ensures StoreOk(g, At(a, b, trace).store) && WellTyped(g, Some(U32), Body())
    ensures Small(d, d) && IsGcd(d, a, b)
    ensures EvalBody(w, g, Some(U32), Body(), None, At(a, b, trace), fuel) == (Returned(Some(d)), At(d, d, trace))
  {
    hide EvalE, EvalS, TypeE, IsGcd;
    var st, ret := At(a, b, trace), Ret(Some(Var(0)));
    Typed();
    VarsAre(w, a, b, trace);
    d := LoopIs(w, Some(U32), a, b, trace, fuel);
    VarsAre(w, d, d, trace);
    PairLaw(w, g, Some(U32), While(Differ, Step()), ret, st, fuel);
    ReturnLaw(w, g, U32, Var(0), At(d, d, trace), fuel);
    assert EvalS(w, g, Some(U32), ret, None, At(d, d, trace), fuel) == (Returned(Some(d)), At(d, d, trace));
  }

  // ----- and the machine -----

  function Fns(): seq<Stmt> {
    [FnDef(Some(U32), Body())]
  }

  lemma Accepts()
    ensures Program(g, Fns())
  {
    hide WellTyped;
    Typed();
    assert WellTyped(g, None, FnDef(Some(U32), Body())) by { DefTyped(); }
  }

  lemma DefTyped()
    ensures WellTyped(g, None, FnDef(Some(U32), Body()))
  {
    hide TypeE;
    Typed();
    var ss := Body().ss;
    assert ss[1..][1..] == [];
    assert RetFlagSeq(ss[1..], false) == RetFlagSeq([], true);
  }

  /** No labels, no jumps. */
  lemma NoLabels()
    ensures DistinctLabelsSeq(Fns()) && Closed(Body())
  {
    assert Fns()[1..] == [] && Body().ss[1..] == [Ret(Some(Var(0)))] && Body().ss[1..][1..] == [];
  }

  lemma FirstStarts()
    requires Program(g, Fns())
    ensures Before(g, Fns(), 0) == Start(g)
  {
    assert Fns()[..0] == [];
  }

  /** From its entry block with a and b in their slots, the compiled function halts with their
      greatest common divisor. */
  lemma EuclidRuns(w: World, a: nat, b: nat, ms: Machine) returns (n: nat, d: nat)
    requires Small(a, b) && AtTop(ms, Anon(2)) && ms.trace == []
    requires 0 in ms.mem && ms.mem[0] == a && 1 in ms.mem && ms.mem[1] == b
    ensures Program(g, Fns()) && IsGcd(d, a, b)
    ensures var ms1 := Steps(w, CodeOf(g, Fns()), ms, n);
            && ms1.Halt? && ms1.res == Some(d) && ms1.trace == []
            && 0 in ms1.mem && ms1.mem[0] == d && 1 in ms1.mem && ms1.mem[1] == d
  {
    hide EvalBody, Steps, IsGcd, CodeOf, Body, Meets, WellTyped, Closed, DistinctLabelsSeq, Program, Agrees;
    var st := At(a, b, []);
    Accepts();
    NoLabels();
    FirstStarts();
    d := BodyIs(w, a, b, [], a + b);
    Ranges(a);
    Ranges(b);
    Ranges(d);
    StartsAt(a, b, ms);
    ProgramFunction(w, g, Fns(), 0, ms, st);
    assert Finishes(w, g, Some(U32), Body(), st);
    n :| !Steps(w, CodeOf(g, Fns()), ms, n).Run?;
    SameEnd(w, st, a + b, n + 1);
    MeetsMeans(d, Steps(w, CodeOf(g, Fns()), ms, n));
  }

  lemma MeetsMeans(d: nat, ms: Machine)
    requires d < 0x1_0000_0000 && Meets(g, Some(U32), Returned(Some(d)), At(d, d, []), ms)
    ensures ms.Halt? && ms.res == Some(d) && ms.trace == []
    ensures 0 in ms.mem && ms.mem[0] == d && 1 in ms.mem && ms.mem[1] == d
  {
  }

  lemma StartsAt(a: nat, b: nat, ms: Machine)
    requires Small(a, b) && AtTop(ms, Anon(2)) && ms.trace == []
    requires 0 in ms.mem && ms.mem[0] == a && 1 in ms.mem && ms.mem[1] == b
    ensures Agrees(g, At(a, b, []), ms)
  {
  }

  lemma SameEnd(w: World, st: State, f: nat, k: nat)
    requires StoreOk(g, st.store) && WellTyped(g, Some(U32), Body())
    requires !EvalBody(w, g, Some(U32), Body(), None, st, f).0.Timeout?
    requires !EvalBody(w, g, Some(U32), Body(), None, st, k).0.Timeout?
    ensures EvalBody(w, g, Some(U32), Body(), None, st, k) == EvalBody(w, g, Some(U32), Body(), None, st, f)
  {
    hide EvalBody, Body;
    FuelBody(w, g, Some(U32), Body(), None, st, f, f + k);
    FuelBody(w, g, Some(U32), Body(), None, st, k, f + k);
  }
}
