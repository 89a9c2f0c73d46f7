/** Which trees never leave the modelled outcomes: every goto has its label in reach and
    every break and continue is in a loop of its own function. */
module Structured {
  import opened IntTypes
  import opened Syntax
  import opened Source

  /** Labels a goto elsewhere in the function can reach: not those inside a `for` body. */
  function Open(s: Stmt): set<string> {
    match s
    case Label(l) => {l}
    case Block(ss) => OpenSeq(ss)
    case If(_, bodies, remain) => OpenSeq(bodies) + if remain.Some? then Open(remain.value) else {}
    case While(_, b) => Open(b)
    case Loop(b) => Open(b)
    case _ => {}
  }

  function OpenSeq(ss: seq<Stmt>): set<string> {
    if ss == [] then {} else Open(ss[0]) + OpenSeq(ss[1..])
  }

  /** `reach` are the labels a goto in s may use; a `for` body adds its own. */
  predicate InReach(s: Stmt, reach: set<string>, inLoop: bool) {
    match s
    case Goto(l) => l in reach
    case Break => inLoop
    case Continue => inLoop
    case Block(ss) => forall i | 0 <= i < |ss| :: InReach(ss[i], reach, inLoop)
    case If(_, bodies, remain) =>
      (forall i | 0 <= i < |bodies| :: InReach(bodies[i], reach, inLoop)) &&
      (remain.Some? ==> InReach(remain.value, reach, inLoop))
    case While(_, b) => InReach(b, reach, true)
    case Loop(b) => InReach(b, reach, true)
    case For(_, _, b) => reach !! Labels(b, false) && DistinctLabels(b) && InReach(b, reach + Open(b), true)
    case _ => true
  }

  /** A whole function body. */
  predicate Closed(body: Stmt) {
    DistinctLabels(body) && InReach(body, Open(body), false)
  }

  lemma {:induction false} OpenLabels(s: Stmt)
    ensures Open(s) <= Labels(s, false)
    decreases s
  {
    match s
    case Block(ss) => OpenLabelsSeq(ss);
    case If(_, bodies, remain) =>
      OpenLabelsSeq(bodies);
      if remain.Some? { OpenLabels(remain.value); }
    case While(_, b) => OpenLabels(b);
    case Loop(b) => OpenLabels(b);
    case _ =>
  }

  lemma {:induction false} OpenLabelsSeq(ss: seq<Stmt>)
    ensures OpenSeq(ss) <= LabelsSeq(ss, false)
    decreases ss
  {
    if ss != [] {
      OpenLabels(ss[0]);
      OpenLabelsSeq(ss[1..]);
    }
  }

  predicate Fine(o: Outcome, reach: set<string>, inLoop: bool) {
    match o
    case Wild => false
    case Jump(l) => l in reach
    case Broke => inLoop
    case Continued => inLoop
    case _ => true
  }

  predicate EntryOpen(s: Stmt, entry: Option<string>) {
    entry.Some? ==> entry.value in Open(s)
  }

  lemma {:induction false} FineS(w: World, g: seq<Ty>, ret: Option<Ty>, s: Stmt, entry: Option<string>, st: State,
                                 fuel: nat, reach: set<string>, inLoop: bool)
    requires WellTyped(g, ret, s) && StoreOk(g, st.store) && EntryOk(s, entry) && EntryOpen(s, entry)
    requires DistinctLabels(s) && InReach(s, reach, inLoop)
    ensures Fine(EvalS(w, g, ret, s, entry, st, fuel).0, reach, inLoop)
    decreases fuel, s, 1
  {
    match s
    case Block(ss) => FineSeq(w, g, ret, ss, entry, st, fuel, reach, inLoop);
    case If(conds, bodies, remain) =>
      var (k, st1) := if entry.None? then Choose(w, g, conds, st) else (Holder(bodies, entry.value), st);
      if k < |bodies| {
        DistinctAt(bodies, k);
        if entry.Some? {
          OpenHolder(bodies, entry.value);
          if remain.Some? {
            ShallowLabels(remain.value);
            OpenLabels(remain.value);
            ShallowLabelsSeq(bodies);
          }
        }
        FineS(w, g, ret, bodies[k], entry, st1, fuel, reach, inLoop);
      } else if remain.Some? {
        if entry.Some? { OpenLabelsSeq(bodies); }
        FineS(w, g, ret, remain.value, entry, st1, fuel, reach, inLoop);
      }
    case While(_, _) => FineRepeat(w, g, ret, s, entry, st, fuel, reach, inLoop);
    case Loop(_) => FineRepeat(w, g, ret, s, entry, st, fuel, reach, inLoop);
    case For(x, src, _) =>
      match src {
        case Range(lo, hi, inclusive) =>
          var (a, st1) := EvalE(w, g, lo, st);
          var (b, st2) := EvalE(w, g, hi, st1);
          FineFor(w, g, ret, s, a, b, st2, fuel, reach, inLoop);
        case Array(_, count) => FineFor(w, g, ret, s, 0, count, st, fuel, reach, inLoop);
      }
    case _ =>
  }

  lemma {:induction false} DistinctAt(ss: seq<Stmt>, k: nat)
    requires DistinctLabelsSeq(ss) && k < |ss|
    ensures DistinctLabels(ss[k]) && Labels(ss[k], true) <= LabelsSeq(ss, true)
    decreases ss
  {
    if k > 0 {
      DistinctAt(ss[1..], k - 1);
    }
  }

  /** An open label is open in the statement that holds it. */
  lemma {:induction false} OpenHolder(ss: seq<Stmt>, l: string)
    requires DistinctLabelsSeq(ss) && l in LabelsSeq(ss, false)
    ensures l in OpenSeq(ss) ==> l in Open(ss[Holder(ss, l)])
    decreases ss
  {
    if l in Labels(ss[0], false) {
      OpenLabelsSeq(ss[1..]);
      ShallowLabelsSeq(ss[1..]);
      ShallowLabels(ss[0]);
    } else {
      OpenLabels(ss[0]);
      OpenHolder(ss[1..], l);
    }
  }

  lemma {:induction false} FineSeq(w: World, g: seq<Ty>, ret: Option<Ty>, ss: seq<Stmt>, entry: Option<string>,
                                   st: State, fuel: nat, reach: set<string>, inLoop: bool)
    requires (forall i | 0 <= i < |ss| :: WellTyped(g, ret, ss[i])) && StoreOk(g, st.store)
    requires entry.Some? ==> entry.value in LabelsSeq(ss, false) && entry.value in OpenSeq(ss)
    requires DistinctLabelsSeq(ss) && forall i | 0 <= i < |ss| :: InReach(ss[i], reach, inLoop)
    ensures Fine(EvalSeq(w, g, ret, ss, entry, st, fuel).0, reach, inLoop)
    decreases fuel, ss, 0
  {
    if ss == [] {
    } else if entry.Some? && entry.value !in Labels(ss[0], false) {
      OpenLabels(ss[0]);
      FineSeq(w, g, ret, ss[1..], entry, st, fuel, reach, inLoop);
    } else {
      if entry.Some? {
        OpenHolder(ss, entry.value);
      }
      FineS(w, g, ret, ss[0], entry, st, fuel, reach, inLoop);
      var (o, st1) := EvalS(w, g, ret, ss[0], entry, st, fuel);
      if o.Normal? {
        FineSeq(w, g, ret, ss[1..], None, st1, fuel, reach, inLoop);
      }
    }
  }

  lemma {:induction false} FineRepeat(w: World, g: seq<Ty>, ret: Option<Ty>, s: Stmt, entry: Option<string>,
                                      st: State, fuel: nat, reach: set<string>, inLoop: bool)
    requires s.While? || s.Loop?
    requires WellTyped(g, ret, s) && StoreOk(g, st.store) && EntryOk(s, entry) && EntryOpen(s, entry)
    requires DistinctLabels(s) && InReach(s, reach, inLoop)
    ensures Fine(Repeat(w, g, ret, s, entry, st, fuel).0, reach, inLoop)
    decreases fuel, s, 0
  {
    var (v, st1) := if entry.None? && s.While? then EvalE(w, g, s.cond, st) else (1, st);
    if v != 0 {
      FineS(w, g, ret, s.body, entry, st1, fuel, reach, true);
      var (o, st2) := EvalS(w, g, ret, s.body, entry, st1, fuel);
      if fuel > 0 {
        FineRepeat(w, g, ret, s, None, st2, fuel - 1, reach, inLoop);
      }
    }
  }

  lemma {:induction false} FineFor(w: World, g: seq<Ty>, ret: Option<Ty>, s: Stmt, i: int, end: int, st: State,
                                   fuel: nat, reach: set<string>, inLoop: bool)
    requires s.For? && WellTyped(g, ret, s) && StoreOk(g, st.store)
    requires InRange(IndexType(g, s), i) && (s.src.Array? ==> end == s.src.count)
    requires DistinctLabels(s) && InReach(s, reach, inLoop)
    ensures Fine(EvalFor(w, g, ret, s, i, end, st, fuel).0, reach, inLoop)
    decreases fuel, s, 0
  {
    if ForGoes(s, i, end) {
      var item := ItemAt(s, i, st.store);
      var st0 := st.(store := st.store[s.x := item]);
      FineBody(w, g, ret, s.body, None, st0, fuel, reach, true);
      var (o, st1) := EvalBody(w, g, ret, s.body, None, st0, fuel);
      if fuel > 0 {
        FineFor(w, g, ret, s, Wrap(IndexType(g, s), i + 1), end, st1, fuel - 1, reach, inLoop);
      }
    }
  }

  lemma {:induction false} FineBody(w: World, g: seq<Ty>, ret: Option<Ty>, s: Stmt, entry: Option<string>, st: State,
                                    fuel: nat, reach: set<string>, inLoop: bool)
    requires WellTyped(g, ret, s) && StoreOk(g, st.store) && EntryOk(s, entry) && EntryOpen(s, entry)
    requires DistinctLabels(s) && reach !! Labels(s, false) && InReach(s, reach + Open(s), inLoop)
    ensures Fine(EvalBody(w, g, ret, s, entry, st, fuel).0, reach, inLoop)
    decreases fuel, s, 2
  {
    FineS(w, g, ret, s, entry, st, fuel, reach + Open(s), inLoop);
    OpenLabels(s);
    var (o, st1) := EvalS(w, g, ret, s, entry, st, fuel);
    if o.Jump? && o.target in Labels(s, false) && fuel > 0 {
      FineBody(w, g, ret, s, Some(o.target), st1, fuel - 1, reach, inLoop);
    }
  }

  /** A closed function body only ever finishes, returns or goes on. */
  lemma ClosedOutcome(w: World, g: seq<Ty>, ret: Option<Ty>, body: Stmt, st: State, fuel: nat)
    requires WellTyped(g, ret, body) && StoreOk(g, st.store) && Closed(body)
    ensures var o := EvalBody(w, g, ret, body, None, st, fuel).0; o.Normal? || o.Returned? || o.Timeout?
  {
    assert {} + Open(body) == Open(body);
    FineBody(w, g, ret, body, None, st, fuel, {}, false);
  }

  // ----- fuel -----

  /** More fuel does not change the outcome of a run that had enough. */
  lemma {:induction false} FuelS(w: World, g: seq<Ty>, ret: Option<Ty>, s: Stmt, entry: Option<string>, st: State,
                                 fuel: nat, more: nat)
    requires WellTyped(g, ret, s) && StoreOk(g, st.store) && EntryOk(s, entry) && fuel <= more
    requires !EvalS(w, g, ret, s, entry, st, fuel).0.Timeout?
    ensures EvalS(w, g, ret, s, entry, st, more) == EvalS(w, g, ret, s, entry, st, fuel)
    decreases fuel, s, 1
  {
    match s
    case Block(ss) => FuelSeq(w, g, ret, ss, entry, st, fuel, more);
    case If(conds, bodies, remain) =>
      var (k, st1) := if entry.None? then Choose(w, g, conds, st) else (Holder(bodies, entry.value), st);
      if k < |bodies| {
        FuelS(w, g, ret, bodies[k], entry, st1, fuel, more);
      } else if remain.Some? {
        FuelS(w, g, ret, remain.value, entry, st1, fuel, more);
      }
    case While(_, _) => FuelRepeat(w, g, ret, s, entry, st, fuel, more);
    case Loop(_) => FuelRepeat(w, g, ret, s, entry, st, fuel, more);
    case For(x, src, _) =>
      if entry.None? {
        match src {
          case Range(lo, hi, inclusive) =>
            var (a, st1) := EvalE(w, g, lo, st);
            var (b, st2) := EvalE(w, g, hi, st1);
            FuelFor(w, g, ret, s, a, b, st2, fuel, more);
          case Array(_, count) => FuelFor(w, g, ret, s, 0, count, st, fuel, more);
        }
      }
    case _ =>
  }

  lemma {:induction false} FuelSeq(w: World, g: seq<Ty>, ret: Option<Ty>, ss: seq<Stmt>, entry: Option<string>,
                                   st: State, fuel: nat, more: nat)
    requires (forall i | 0 <= i < |ss| :: WellTyped(g, ret, ss[i])) && StoreOk(g, st.store) && fuel <= more
    requires entry.Some? ==> entry.value in LabelsSeq(ss, false)
    requires !EvalSeq(w, g, ret, ss, entry, st, fuel).0.Timeout?
    ensures EvalSeq(w, g, ret, ss, entry, st, more) == EvalSeq(w, g, ret, ss, entry, st, fuel)
    decreases fuel, ss, 0
  {
    if ss == [] {
    } else if entry.Some? && entry.value !in Labels(ss[0], false) {
      FuelSeq(w, g, ret, ss[1..], entry, st, fuel, more);
    } else {
      FuelS(w, g, ret, ss[0], entry, st, fuel, more);
      var (o, st1) := EvalS(w, g, ret, ss[0], entry, st, fuel);
      if o.Normal? {
        FuelSeq(w, g, ret, ss[1..], None, st1, fuel, more);
      }
    }
  }

  lemma {:induction false} FuelRepeat(w: World, g: seq<Ty>, ret: Option<Ty>, s: Stmt, entry: Option<string>,
                                      st: State, fuel: nat, more: nat)
    requires s.While? || s.Loop?
    requires WellTyped(g, ret, s) && StoreOk(g, st.store) && EntryOk(s, entry) && fuel <= more
    requires !Repeat(w, g, ret, s, entry, st, fuel).0.Timeout?
    ensures Repeat(w, g, ret, s, entry, st, more) == Repeat(w, g, ret, s, entry, st, fuel)
    decreases fuel, s, 0
  {
    var (v, st1) := if entry.None? && s.While? then EvalE(w, g, s.cond, st) else (1, st);
    if v != 0 {
      FuelS(w, g, ret, s.body, entry, st1, fuel, more);
      var (o, st2) := EvalS(w, g, ret, s.body, entry, st1, fuel);
      if (o.Normal? || o.Continued?) && fuel > 0 {
        FuelRepeat(w, g, ret, s, None, st2, fuel - 1, more - 1);
      }
    }
  }

  lemma {:induction false} FuelFor(w: World, g: seq<Ty>, ret: Option<Ty>, s: Stmt, i: int, end: int, st: State,
                                   fuel: nat, more: nat)
    requires s.For? && WellTyped(g, ret, s) && StoreOk(g, st.store) && fuel <= more
    requires InRange(IndexType(g, s), i) && (s.src.Array? ==> end == s.src.count)
    requires !EvalFor(w, g, ret, s, i, end, st, fuel).0.Timeout?
    ensures EvalFor(w, g, ret, s, i, end, st, more) == EvalFor(w, g, ret, s, i, end, st, fuel)
    decreases fuel, s, 0
  {
    hide EvalBody, EvalS, Wrap, Encode, Size;
    if ForGoes(s, i, end) {
      var item := ItemAt(s, i, st.store);
      var st0 := st.(store := st.store[s.x := item]);
      FuelBody(w, g, ret, s.body, None, st0, fuel, more);
      var (o, st1) := EvalBody(w, g, ret, s.body, None, st0, fuel);
      if (o.Normal? || o.Continued?) && fuel > 0 {
        FuelFor(w, g, ret, s, Wrap(IndexType(g, s), i + 1), end, st1, fuel - 1, more - 1);
      }
    }
  }

  lemma {:induction false} FuelBody(w: World, g: seq<Ty>, ret: Option<Ty>, s: Stmt, entry: Option<string>, st: State,
                                    fuel: nat, more: nat)
    requires WellTyped(g, ret, s) && StoreOk(g, st.store) && EntryOk(s, entry) && fuel <= more
    requires !EvalBody(w, g, ret, s, entry, st, fuel).0.Timeout?
    ensures EvalBody(w, g, ret, s, entry, st, more) == EvalBody(w, g, ret, s, entry, st, fuel)
    decreases fuel, s, 2
  {
    FuelS(w, g, ret, s, entry, st, fuel, more);
    var (o, st1) := EvalS(w, g, ret, s, entry, st, fuel);
    if o.Jump? && o.target in Labels(s, false) && fuel > 0 {
      FuelBody(w, g, ret, s, Some(o.target), st1, fuel - 1, more - 1);
    }
  }

  // Which bodies are closed, in small cases.

  lemma ClosedBlock(ss: seq<Stmt>)
    ensures Closed(Block(ss)) <==>
              DistinctLabelsSeq(ss) && forall i | 0 <= i < |ss| :: InReach(ss[i], OpenSeq(ss), false)
  {
    hide DistinctLabelsSeq, OpenSeq;
  }

  lemma Plain(l: string, reach: set<string>, inLoop: bool)
    ensures Open(Label(l)) == Labels(Label(l), true) == Labels(Label(l), false) == {l}
    ensures Open(Goto(l)) == Open(Skip) == {} && Labels(Goto(l), true) == Labels(Skip, true) == {}
    ensures InReach(Label(l), reach, inLoop) && InReach(Skip, reach, inLoop) &&
            (InReach(Goto(l), reach, inLoop) <==> l in reach)
    ensures DistinctLabels(Label(l)) && DistinctLabels(Goto(l)) && DistinctLabels(Skip)
  {
  }

  /** A goto forward and one backward. */
  lemma GotosClosed()
    ensures Closed(Block([Goto("a"), Skip, Label("a")])) && Closed(Block([Label("a"), Goto("a")]))
  {
    hide Closed, InReach, OpenSeq, Open, Labels, DistinctLabels, DistinctLabelsSeq;
    var ss, tt := [Goto("a"), Skip, Label("a")], [Label("a"), Goto("a")];
    Plain("a", {"a"}, false);
    ThreeSets(ss);
    TwoSets(tt);
    ClosedBlock(ss);
    ClosedBlock(tt);
    assert OpenSeq(ss) == {"a"} && OpenSeq(tt) == {"a"};
  }

  /** A goto into a loop. */
  lemma EntryClosed()
    ensures Closed(Block([Goto("a"), Loop(Label("a"))]))
  {
    hide Closed, OpenSeq, DistinctLabelsSeq;
    var ss := [Goto("a"), Loop(Label("a"))];
    Plain("a", {"a"}, false);
    TwoSets(ss);
    ClosedBlock(ss);
    assert OpenSeq(ss) == {"a"};
  }

  /** A goto within the body of a `for`, and a continue. */
  lemma ForClosed(x: nat, src: ForSource)
    ensures Closed(For(x, src, Block([Label("a"), Continue, Goto("a")])))
  {
    ThreeSets([Label("a"), Continue, Goto("a")]);
  }

  /** A goto into the body of a `for`. */
  lemma NotEntered(x: nat, src: ForSource)
    ensures !Closed(Block([Goto("a"), For(x, src, Label("a"))]))
  {
    hide OpenSeq, DistinctLabelsSeq, Closed;
    var ss := [Goto("a"), For(x, src, Label("a"))];
    TwoSets(ss);
    Plain("a", {}, false);
    ClosedBlock(ss);
    assert OpenSeq(ss) == {} && !InReach(ss[0], {}, false);
  }

  /** A goto to no label, a label twice, a break outside loops. */
  lemma NotClosed()
    ensures !Closed(Goto("a")) && !Closed(Block([Label("a"), Label("a")])) && !Closed(Break)
  {
    hide DistinctLabelsSeq;
    var ss := [Label("a"), Label("a")];
    TwoSets(ss);
    ClosedBlock(ss);
    assert "a" in Labels(ss[0], true) && "a" in Labels(ss[1], true);
  }

  lemma OneSet(s: Stmt)
    ensures OpenSeq([s]) == Open(s) && LabelsSeq([s], true) == Labels(s, true) &&
            LabelsSeq([s], false) == Labels(s, false)
    ensures DistinctLabelsSeq([s]) <==> DistinctLabels(s)
  {
    assert [s][1..] == [];
  }

  lemma TwoSets(ss: seq<Stmt>)
    requires |ss| == 2
    ensures OpenSeq(ss) == Open(ss[0]) + Open(ss[1])
    ensures LabelsSeq(ss, true) == Labels(ss[0], true) + Labels(ss[1], true)
    ensures LabelsSeq(ss, false) == Labels(ss[0], false) + Labels(ss[1], false)
    ensures DistinctLabelsSeq(ss) <==>
              DistinctLabels(ss[0]) && DistinctLabels(ss[1]) && Labels(ss[0], true) !! Labels(ss[1], true)
  {
    assert ss[1..] == [ss[1]];
    OneSet(ss[1]);
  }

  lemma ThreeSets(ss: seq<Stmt>)
    requires |ss| == 3
    ensures OpenSeq(ss) == Open(ss[0]) + Open(ss[1]) + Open(ss[2])
    ensures LabelsSeq(ss, false) == Labels(ss[0], false) + Labels(ss[1], false) + Labels(ss[2], false)
    ensures DistinctLabelsSeq(ss) <==>
              && DistinctLabels(ss[0]) && DistinctLabels(ss[1]) && DistinctLabels(ss[2])
              && Labels(ss[1], true) !! Labels(ss[2], true) &&
                 Labels(ss[0], true) !! Labels(ss[1], true) + Labels(ss[2], true)
  {
    TwoSets(ss[1..]);
  }
}
