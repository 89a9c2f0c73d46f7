/** Which functions with a return type can run off the end of their body: a question about
    the shape of the body alone, which the return flag does not answer. */
module FallsOff {
  import opened IntTypes
  import opened Syntax
  import opened Source

  /** How a statement without gotos can end, other than by a return. */
  datatype Way = End | Brk | Cont

  function Out(way: Way): Outcome {
    match way case End => Normal case Brk => Broke case Cont => Continued
  }

  predicate NoGoto(s: Stmt) {
    match s
    case Goto(_) => false
    case Block(ss) => forall i | 0 <= i < |ss| :: NoGoto(ss[i])
    case If(_, bodies, remain) =>
      (forall i | 0 <= i < |bodies| :: NoGoto(bodies[i])) && (remain.Some? ==> NoGoto(remain.value))
    case While(_, b) => NoGoto(b)
    case Loop(b) => NoGoto(b)
    case For(_, _, b) => NoGoto(b)
    case _ => true
  }

  /** The conditions of s can be such that s ends this way. */
  predicate May(s: Stmt, way: Way) {
    match s
    case Break => way.Brk?
    case Continue => way.Cont?
    case Ret(_) => false
    case Goto(_) => false
    case Block(ss) => MaySeq(ss, way)
    case If(_, bodies, remain) =>
      (exists i | 0 <= i < |bodies| :: May(bodies[i], way)) ||
          (if remain.Some? then May(remain.value, way) else way.End?)
    case Loop(b) => way.End? && May(b, Brk)
    case For(_, src, b) =>
      way.End? && (src.Range? || src.count == 0 || May(b, Brk) || May(b, End) || May(b, Cont))
    case _ => way.End?
  }

  predicate MaySeq(ss: seq<Stmt>, way: Way) {
    if ss == [] then way.End?
    else (!way.End? && May(ss[0], way)) || (May(ss[0], End) && MaySeq(ss[1..], way))
  }

  // ----- no other way -----

  predicate Allowed(s: Stmt, o: Outcome) {
    && !o.Jump? && !o.Wild?
    && (o.Normal? ==> May(s, End)) && (o.Broke? ==> May(s, Brk)) && (o.Continued? ==> May(s, Cont))
  }

  lemma {:induction false} Only(w: World, g: seq<Ty>, ret: Option<Ty>, s: Stmt, st: State, fuel: nat)
    requires WellTyped(g, ret, s) && StoreOk(g, st.store) && NoGoto(s)
    ensures Allowed(s, EvalS(w, g, ret, s, None, st, fuel).0)
    decreases fuel, s, 1
  {
    match s
    case Block(ss) => OnlySeq(w, g, ret, ss, st, fuel);
    case If(conds, bodies, remain) =>
      var (k, st1) := Choose(w, g, conds, st);
      if k < |bodies| {
        Only(w, g, ret, bodies[k], st1, fuel);
      } else if remain.Some? {
        Only(w, g, ret, remain.value, st1, fuel);
      }
    case While(_, _) => OnlyRepeat(w, g, ret, s, st, fuel);
    case Loop(_) => OnlyRepeat(w, g, ret, s, st, fuel);
    case For(_, _, _) =>
      if s.src.Array? {
        OnlyFor(w, g, ret, s, 0, s.src.count, st, fuel);
      } else {
        var (a, st1) := EvalE(w, g, s.src.lo, st);
        var (b, st2) := EvalE(w, g, s.src.hi, st1);
        OnlyFor(w, g, ret, s, a, b, st2, fuel);
      }
    case _ =>
  }

  lemma {:induction false} OnlySeq(w: World, g: seq<Ty>, ret: Option<Ty>, ss: seq<Stmt>, st: State, fuel: nat)
    requires (forall i | 0 <= i < |ss| :: WellTyped(g, ret, ss[i]) && NoGoto(ss[i])) && StoreOk(g, st.store)
    ensures Allowed(Block(ss), EvalSeq(w, g, ret, ss, None, st, fuel).0)
    decreases fuel, ss, 0
  {
    if ss != [] {
      var (o, st1) := EvalS(w, g, ret, ss[0], None, st, fuel);
      Only(w, g, ret, ss[0], st, fuel);
      if o.Normal? {
        OnlySeq(w, g, ret, ss[1..], st1, fuel);
      }
    }
  }

  lemma {:induction false} OnlyRepeat(w: World, g: seq<Ty>, ret: Option<Ty>, s: Stmt, st: State, fuel: nat)
    requires (s.While? || s.Loop?) && WellTyped(g, ret, s) && StoreOk(g, st.store) && NoGoto(s)
    ensures Allowed(s, Repeat(w, g, ret, s, None, st, fuel).0)
    decreases fuel, s, 0
  {
    var (v, st1) := if s.While? then EvalE(w, g, s.cond, st) else (1, st);
    if v != 0 {
      var (o, st2) := EvalS(w, g, ret, s.body, None, st1, fuel);
      Only(w, g, ret, s.body, st1, fuel);
      if (o.Normal? || o.Continued?) && fuel > 0 {
        OnlyRepeat(w, g, ret, s, st2, fuel - 1);
      }
    }
  }

  lemma {:induction false} OnlyFor(w: World, g: seq<Ty>, ret: Option<Ty>, s: Stmt, i: int, end: int, st: State,
                                   fuel: nat)
    requires s.For? && WellTyped(g, ret, s) && StoreOk(g, st.store) && NoGoto(s)
    requires InRange(IndexType(g, s), i) && (s.src.Array? ==> end == s.src.count)
    ensures var o := EvalFor(w, g, ret, s, i, end, st, fuel).0;
            && !o.Jump? && !o.Wild? && !o.Broke? && !o.Continued?
            && (o.Normal? ==> !ForGoes(s, i, end) || May(s.body, Brk) || May(s.body, End) || May(s.body, Cont))
    decreases fuel, s, 0
  {
    if ForGoes(s, i, end) {
      var st1 := st.(store := st.store[s.x := ItemAt(s, i, st.store)]);
      var (o, st2) := EvalS(w, g, ret, s.body, None, st1, fuel);
      Only(w, g, ret, s.body, st1, fuel);
      if (o.Normal? || o.Continued?) && fuel > 0 {
        OnlyFor(w, g, ret, s, Wrap(IndexType(g, s), i + 1), end, st2, fuel - 1);
      }
    }
  }

  // ----- and this way -----

  /** The same statement up to its conditions and the bounds of its ranges. */
  predicate SameShape(s: Stmt, s1: Stmt) {
    match s
    case Block(ss) => s1.Block? && |s1.ss| == |ss| && forall i | 0 <= i < |ss| :: SameShape(ss[i], s1.ss[i])
    case If(conds, bodies, remain) =>
      && s1.If? && |s1.conds| == |conds| && |s1.bodies| == |bodies| && s1.remain.Some? == remain.Some?
      && (forall i | 0 <= i < |bodies| :: SameShape(bodies[i], s1.bodies[i]))
      && (remain.Some? ==> SameShape(remain.value, s1.remain.value))
    case While(_, b) => s1.While? && SameShape(b, s1.body)
    case Loop(b) => s1.Loop? && SameShape(b, s1.body)
    case For(x, src, b) =>
      && s1.For? && s1.x == x && SameShape(b, s1.body)
      && (if src.Array? then s1.src == src else s1.src.Range? && s1.src.inclusive == src.inclusive)
    case _ => s1 == s
  }

  lemma {:induction false} ShapeRefl(s: Stmt)
    ensures SameShape(s, s)
  {
    match s
    case Block(ss) =>
      forall i | 0 <= i < |ss| ensures SameShape(ss[i], ss[i]) { ShapeRefl(ss[i]); }
    case If(_, bodies, remain) =>
      forall i | 0 <= i < |bodies| ensures SameShape(bodies[i], bodies[i]) { ShapeRefl(bodies[i]); }
      if remain.Some? { ShapeRefl(remain.value); }
    case While(_, b) => ShapeRefl(b);
    case Loop(b) => ShapeRefl(b);
    case For(_, _, b) => ShapeRefl(b);
    case _ =>
  }

  /** Neither the ways a statement can end nor the return flag depend on more than its shape. */
  lemma {:induction false} ShapeMay(s: Stmt, s1: Stmt, way: Way, f: bool)
    requires SameShape(s, s1)
    ensures May(s, way) <==> May(s1, way)
    ensures NoGoto(s) <==> NoGoto(s1)
    ensures RetFlag(s, f) == RetFlag(s1, f)
    decreases s
  {
    match s
    case Block(ss) => ShapeMaySeq(ss, s1.ss, way, f);
    case If(_, bodies, remain) =>
      ShapeMaySeq(bodies, s1.bodies, way, f);
      forall i | 0 <= i < |bodies|
        ensures May(bodies[i], way) <==> May(s1.bodies[i], way)
      {
        ShapeMay(bodies[i], s1.bodies[i], way, f);
      }
      if remain.Some? {
        ShapeMay(remain.value, s1.remain.value, way, RetFlagSeq(bodies, f));
      }
    case While(_, b) => ShapeMay(b, s1.body, way, f);
    case Loop(b) => ShapeMay(b, s1.body, Brk, f);
    case For(_, _, b) =>
      ShapeMay(b, s1.body, Brk, f);
      ShapeMay(b, s1.body, End, f);
      ShapeMay(b, s1.body, Cont, f);
    case _ =>
  }

  lemma {:induction false} ShapeMaySeq(ss: seq<Stmt>, ss1: seq<Stmt>, way: Way, f: bool)
    requires |ss| == |ss1| && forall i | 0 <= i < |ss| :: SameShape(ss[i], ss1[i])
    ensures MaySeq(ss, way) <==> MaySeq(ss1, way)
    ensures (forall i | 0 <= i < |ss| :: NoGoto(ss[i])) <==> (forall i | 0 <= i < |ss1| :: NoGoto(ss1[i]))
    ensures RetFlagSeq(ss, f) == RetFlagSeq(ss1, f)
    decreases ss
  {
    forall i | 0 <= i < |ss|
      ensures NoGoto(ss[i]) <==> NoGoto(ss1[i])
    {
      ShapeMay(ss[i], ss1[i], way, f);
    }
    if ss != [] {
      ShapeMay(ss[0], ss1[0], way, f);
      ShapeMay(ss[0], ss1[0], End, f);
      ShapeMaySeq(ss[1..], ss1[1..], way, RetFlag(ss[0], f));
    }
  }

  /** s always ends this way, given some fuel. */
  ghost predicate Ends(w: World, g: seq<Ty>, ret: Option<Ty>, s: Stmt, way: Way, cost: nat) {
    WellTyped(g, ret, s) &&
    forall st: State, fuel: nat | StoreOk(g, st.store) && fuel >= cost ::
        EvalS(w, g, ret, s, None, st, fuel).0 == Out(way)
  }

  function Truth(b: bool): Expr { Lit(BOOL, if b then 1 else 0) }

  /** Conditions and bounds that make s end this way. */
  lemma {:induction false} Steer(w: World, g: seq<Ty>, ret: Option<Ty>, s: Stmt, way: Way) returns (s1: Stmt, cost: nat)
    requires WellTyped(g, ret, s) && NoGoto(s) && May(s, way)
    ensures SameShape(s, s1) && Ends(w, g, ret, s1, way, cost)
    decreases s
  {
    s1, cost := s, 0;
    match s
    case Block(ss) =>
      var ss1, n := SteerSeq(w, g, ret, ss, way);
      s1, cost := Block(ss1), n;
    case If(_, _, _) => s1, cost := SteerIf(w, g, ret, s, way);
    case While(_, b) =>
      ShapeRefl(b);
      s1, cost := While(Truth(false), b), 0;
      FalseWhile(w, g, ret, b);
    case Loop(b) =>
      var b1, n := Steer(w, g, ret, b, Brk);
      s1, cost := Loop(b1), n;
      BrokenLoop(w, g, ret, b1, n);
    case For(_, _, _) => s1, cost := SteerFor(w, g, ret, s);
    case _ =>
  }

  lemma FalseWhile(w: World, g: seq<Ty>, ret: Option<Ty>, b: Stmt)
    requires WellTyped(g, ret, b)
    ensures Ends(w, g, ret, While(Truth(false), b), End, 0)
  {
    var s := While(Truth(false), b);
    forall st: State, fuel: nat | StoreOk(g, st.store)
      ensures EvalS(w, g, ret, s, None, st, fuel).0 == Normal
    {
      assert Repeat(w, g, ret, s, None, st, fuel) == (Normal, st);
    }
  }

  lemma BrokenLoop(w: World, g: seq<Ty>, ret: Option<Ty>, b: Stmt, cost: nat)
    requires Ends(w, g, ret, b, Brk, cost)
    ensures Ends(w, g, ret, Loop(b), End, cost)
  {
    forall st: State, fuel: nat | StoreOk(g, st.store) && fuel >= cost
      ensures EvalS(w, g, ret, Loop(b), None, st, fuel).0 == Normal
    {
      assert EvalS(w, g, ret, b, None, st, fuel).0 == Broke;
      assert Repeat(w, g, ret, Loop(b), None, st, fuel).0 == Normal;
    }
  }

  lemma {:induction false} SteerSeq(w: World, g: seq<Ty>, ret: Option<Ty>, ss: seq<Stmt>, way: Way)
    returns (ss1: seq<Stmt>, cost: nat)
    requires (forall i | 0 <= i < |ss| :: WellTyped(g, ret, ss[i]) && NoGoto(ss[i])) && MaySeq(ss, way)
    ensures SameShape(Block(ss), Block(ss1)) && (forall i | 0 <= i < |ss1| :: WellTyped(g, ret, ss1[i]))
    ensures forall st: State, fuel: nat | StoreOk(g, st.store) && fuel >= cost ::
              EvalSeq(w, g, ret, ss1, None, st, fuel).0 == Out(way)
    decreases ss
  {
    if ss == [] {
      ss1, cost := [], 0;
    } else if !way.End? && May(ss[0], way) {
      var s1, n := Steer(w, g, ret, ss[0], way);
      ss1, cost := [s1] + ss[1..], n;
      forall i | 0 <= i < |ss| ensures SameShape(ss[i], ss1[i]) { ShapeRefl(ss[i]); }
    } else {
      var s1, n := Steer(w, g, ret, ss[0], End);
      var rest, m := SteerSeq(w, g, ret, ss[1..], way);
      ss1, cost := [s1] + rest, n + m;
      assert ss1[1..] == rest;
    }
  }

  lemma {:induction false} SteerIf(w: World, g: seq<Ty>, ret: Option<Ty>, s: Stmt, way: Way)
    returns (s1: Stmt, cost: nat)
    requires s.If? && WellTyped(g, ret, s) && NoGoto(s) && May(s, way)
    ensures SameShape(s, s1) && Ends(w, g, ret, s1, way, cost)
    decreases s, 0
  {
    hide Ends;
    var k, n := First(s.bodies, way), |s.conds|;
    if k < n {
      var b1, m := Steer(w, g, ret, s.bodies[k], way);
      s1, cost := If(Deciding(n, k), s.bodies[k := b1], s.remain), m;
      if s.remain.Some? { ShapeRefl(s.remain.value); }
    } else if s.remain.Some? {
      var r1, m := Steer(w, g, ret, s.remain.value, way);
      s1, cost := If(Deciding(n, k), s.bodies, Some(r1)), m;
    } else {
      s1, cost := If(Deciding(n, k), s.bodies, None), 0;
    }
    forall i | 0 <= i < n && i != k ensures SameShape(s.bodies[i], s1.bodies[i]) { ShapeRefl(s.bodies[i]); }
    TruthTyped(g, n, k);
    IfEnds(w, g, ret, s1, k, way, cost);
  }

  /** The first of the bodies that may end this way, if any. */
  function First(bodies: seq<Stmt>, way: Way): (k: nat)
    ensures k <= |bodies|
    ensures k < |bodies| ==> May(bodies[k], way)
    ensures k == |bodies| ==> forall i | 0 <= i < |bodies| :: !May(bodies[i], way)
  {
    if bodies == [] then 0 else if May(bodies[0], way) then 0 else 1 + First(bodies[1..], way)
  }

  /** Conditions of which only the k-th is true. */
  function Deciding(n: nat, k: nat): (conds: seq<Expr>)
    ensures |conds| == n && forall j | 0 <= j < n :: conds[j] == Truth(j == k)
  {
    seq(n, j => Truth(j == k))
  }

  lemma TruthTyped(g: seq<Ty>, n: nat, k: nat)
    ensures forall j | 0 <= j < n :: TypeE(g, Deciding(n, k)[j]) == Some(BOOL)
  {
  }

  lemma IfEnds(w: World, g: seq<Ty>, ret: Option<Ty>, s: Stmt, k: nat, way: Way, cost: nat)
    requires s.If? && WellTyped(g, ret, s) && k <= |s.conds| && s.conds == Deciding(|s.conds|, k)
    requires if k < |s.conds| then Ends(w, g, ret, s.bodies[k], way, cost)
             else if s.remain.Some? then Ends(w, g, ret, s.remain.value, way, cost) else way.End?
    ensures Ends(w, g, ret, s, way, cost)
  {
    forall st: State, fuel: nat | StoreOk(g, st.store) && fuel >= cost
      ensures EvalS(w, g, ret, s, None, st, fuel).0 == Out(way)
    {
      Chosen(w, g, s.conds, k, st);
    }
  }

  lemma {:induction false} Chosen(w: World, g: seq<Ty>, conds: seq<Expr>, k: nat, st: State)
    requires k <= |conds| && StoreOk(g, st.store) && forall j | 0 <= j < |conds| :: conds[j] == Truth(j == k)
    requires forall j | 0 <= j < |conds| :: TypeE(g, conds[j]) == Some(BOOL)
    ensures Choose(w, g, conds, st) == (k, st)
    decreases conds
  {
    if conds != [] && k > 0 {
      assert forall j | 0 <= j < |conds| - 1 :: conds[1..][j] == Truth(j == k - 1);
      Chosen(w, g, conds[1..], k - 1, st);
    }
  }

  lemma {:induction false} SteerFor(w: World, g: seq<Ty>, ret: Option<Ty>, s: Stmt) returns (s1: Stmt, cost: nat)
    requires s.For? && WellTyped(g, ret, s) && NoGoto(s) && May(s, End)
    ensures SameShape(s, s1) && Ends(w, g, ret, s1, End, cost)
    decreases s, 0
  {
    ShapeRefl(s.body);
    if s.src.Range? {
      s1, cost := For(s.x, Range(Lit(g[s.x], 1), Lit(g[s.x], 0), s.src.inclusive), s.body), 0;
      EmptyRange(w, g, ret, s1);
    } else if s.src.count == 0 {
      s1, cost := s, 0;
    } else {
      var way := if May(s.body, Brk) then Brk else if May(s.body, End) then End else Cont;
      var b1, n := Steer(w, g, ret, s.body, way);
      s1, cost := For(s.x, s.src, b1), n + s.src.count;
      ArrayEnds(w, g, ret, s1, way, n);
    }
  }

  lemma EmptyRange(w: World, g: seq<Ty>, ret: Option<Ty>, s: Stmt)
    requires s.For? && WellTyped(g, ret, s) && s.src.Range? && s.src.lo == Lit(g[s.x], 1) && s.src.hi == Lit(g[s.x], 0)
    ensures Ends(w, g, ret, s, End, 0)
  {
    hide EvalBody;
    forall st: State, fuel: nat | StoreOk(g, st.store)
      ensures EvalS(w, g, ret, s, None, st, fuel).0 == Normal
    {
      assert EvalE(w, g, s.src.lo, st) == (1, st) && EvalE(w, g, s.src.hi, st) == (0, st);
      assert EvalFor(w, g, ret, s, 1, 0, st, fuel) == (Normal, st);
    }
  }

  lemma ArrayEnds(w: World, g: seq<Ty>, ret: Option<Ty>, s: Stmt, way: Way, n: nat)
    requires s.For? && WellTyped(g, ret, s) && s.src.Array? && Ends(w, g, ret, s.body, way, n)
    ensures Ends(w, g, ret, s, End, n + s.src.count)
  {
    hide EvalFor;
    forall st: State, fuel: nat | StoreOk(g, st.store) && fuel >= n + s.src.count
      ensures EvalS(w, g, ret, s, None, st, fuel).0 == Normal
    {
      SteeredFor(w, g, ret, s, way, n, 0, st, fuel);
    }
  }

  lemma {:induction false} SteeredFor(w: World, g: seq<Ty>, ret: Option<Ty>, s: Stmt, way: Way, cost: nat, i: nat,
                                      st: State, fuel: nat)
    requires s.For? && s.src.Array? && WellTyped(g, ret, s) && Ends(w, g, ret, s.body, way, cost)
    requires i <= s.src.count && fuel >= cost + (s.src.count - i) && StoreOk(g, st.store)
    ensures EvalFor(w, g, ret, s, i, s.src.count, st, fuel).0 == Normal
    decreases s.src.count - i
  {
    hide Ends, EvalS;
    if i < s.src.count {
      var st1 := st.(store := st.store[s.x := ItemAt(s, i, st.store)]);
      assert StoreOk(g, st1.store);
      BodyEnds(w, g, ret, s.body, way, cost, st1, fuel);
      var st2 := EvalBody(w, g, ret, s.body, None, st1, fuel).1;
      if !way.Brk? {
        assert Wrap(U64, i + 1) == i + 1;
        SteeredFor(w, g, ret, s, way, cost, i + 1, st2, fuel - 1);
      }
    }
  }

  lemma BodyEnds(w: World, g: seq<Ty>, ret: Option<Ty>, s: Stmt, way: Way, cost: nat, st: State, fuel: nat)
    requires Ends(w, g, ret, s, way, cost) && StoreOk(g, st.store) && fuel >= cost
    ensures WellTyped(g, ret, s) && EvalBody(w, g, ret, s, None, st, fuel).0 == Out(way)
  {
  }

  // ----- falling off the end -----

  /** An accepted definition without gotos can run off the end of its body, for some choice
      of its conditions and range bounds, if and only if its shape lets it. */
  lemma FallsOffIff(w: World, g: seq<Ty>, ret: Option<Ty>, body: Stmt, st: State)
    requires WellTyped(g, None, FnDef(ret, body)) && NoGoto(body) && StoreOk(g, st.store)
    ensures (exists body1, fuel: nat ::
               SameShape(body, body1) && WellTyped(g, None, FnDef(ret, body1)) &&
               EvalBody(w, g, ret, body1, None, st, fuel).0.Normal?) <==>
            May(body, End)
  {
    forall body1, fuel: nat | SameShape(body, body1) && WellTyped(g, ret, body1) &&
                              EvalBody(w, g, ret, body1, None, st, fuel).0.Normal?
      ensures May(body, End)
    {
      ShapeMay(body, body1, End, false);
      Only(w, g, ret, body1, st, fuel);
    }
    if May(body, End) {
      var body1, cost := Steer(w, g, ret, body, End);
      ShapeMay(body, body1, End, false);
      BodyEnds(w, g, ret, body1, End, cost, st, cost);
    }
  }

  /** The check lets a function through that can fall off its end, and refuses one that cannot:
      a return under a condition, and a return followed by a nested function without one. */
  lemma CheckMissesEnd(c: Expr, v: Expr)
    ensures var body := If([c], [Ret(Some(v))], None); RetFlag(body, false) && May(body, End)
    ensures var body := Block([Ret(Some(v)), FnDef(None, Skip)]); !RetFlag(body, false) && !May(body, End)
    ensures var body := If([c], [Ret(Some(v))], Some(Ret(Some(v)))); RetFlag(body, false) && !May(body, End)
  {
    assert RetFlagSeq([Ret(Some(v))], false) == RetFlagSeq([], RetFlag(Ret(Some(v)), false));
    var ss := [Ret(Some(v)), FnDef(None, Skip)];
    assert ss[1..] == [FnDef(None, Skip)] && ss[1..][1..] == [];
    assert RetFlagSeq(ss[1..], true) == RetFlagSeq([], RetFlag(ss[1], true));
    assert RetFlagSeq(ss, false) == RetFlagSeq(ss[1..], RetFlag(ss[0], false));
    assert !MaySeq(ss, End);
  }
}
