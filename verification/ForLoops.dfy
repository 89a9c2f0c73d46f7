/** What a by-value `for` visits, and when it ends. */
module ForLoops {
  import opened IntTypes
  import opened Syntax
  import opened Source
  import opened Structured

  function MaxOf(t: Ty): int {
    if Signed(t) then Size(t) / 2 - 1 else Size(t) - 1
  }

  /** How many values there are to visit. */
  function Trip(s: Stmt, i: int, end: int): (n: nat)
    requires s.For?
  {
    if !ForGoes(s, i, end) then 0
    else if s.src.Range? && s.src.inclusive then end - i + 1 else end - i
  }

  /** The loop proper: for a loop over slots, the index stays within them. */
  predicate ForOk(g: seq<Ty>, ret: Option<Ty>, s: Stmt, i: int, n: nat, st: State) {
    && s.For? && WellTyped(g, ret, s) && StoreOk(g, st.store)
    && InRange(IndexType(g, s), i) && (s.src.Array? ==> 0 <= i && i + n <= s.src.count)
  }

  /** The body run with the variable set for index i. */
  ghost function Visit(w: World, g: seq<Ty>, ret: Option<Ty>, s: Stmt, i: int, st: State, k: nat): (r: (Outcome, State))
    requires ForOk(g, ret, s, i, 1, st)
    ensures StoreOk(g, r.1.store)
  {
    EvalBody(w, g, ret, s.body, None, st.(store := st.store[s.x := ItemAt(s, i, st.store)]), k)
  }

  lemma ForFacts(g: seq<Ty>, ret: Option<Ty>, s: Stmt)
    requires s.For? && WellTyped(g, ret, s)
    ensures s.x < |g| && WellTyped(g, ret, s.body) && ForSourceOk(g, s.x, s.src)
  {
  }

  /** One turn of the loop, in terms of Visit. */
  lemma ForTurn(w: World, g: seq<Ty>, ret: Option<Ty>, s: Stmt, i: int, end: int, st: State, fuel: nat)
    requires s.For? && ForOk(g, ret, s, i, 1, st) && (s.src.Array? ==> end == s.src.count) && ForGoes(s, i, end)
    ensures s.x < |g|
    ensures var (o, st1) := Visit(w, g, ret, s, i, st, fuel);
            var r := EvalFor(w, g, ret, s, i, end, st, fuel);
            && (o.Timeout? ==> r.0.Timeout?)
            && (o.Normal? || o.Continued? ==>
                  r == if fuel == 0 then (Timeout, st1)
                       else EvalFor(w, g, ret, s, Wrap(IndexType(g, s), i + 1), end, st1, fuel - 1))
  {
    hide EvalBody, EvalS, Wrap, Encode, Size, Signed;
  }

  /** More fuel does not change a visit that had enough. */
  lemma VisitFuel(w: World, g: seq<Ty>, ret: Option<Ty>, s: Stmt, i: int, st: State, k: nat, more: nat)
    requires ForOk(g, ret, s, i, 1, st) && k <= more && !Visit(w, g, ret, s, i, st, k).0.Timeout?
    ensures Visit(w, g, ret, s, i, st, more) == Visit(w, g, ret, s, i, st, k)
  {
    hide EvalBody, EvalS, Wrap, Encode, Size, Signed;
    assert StoreOk(g, st.store[s.x := ItemAt(s, i, st.store)]);
    FuelBody(w, g, ret, s.body, None, st.(store := st.store[s.x := ItemAt(s, i, st.store)]), k, more);
  }

  /** n visits from index i, each of which falls through or continues with fuel k. */
  ghost predicate Finishing(w: World, g: seq<Ty>, ret: Option<Ty>, s: Stmt, i: int, n: nat, st: State, k: nat)
    requires ForOk(g, ret, s, i, n, st)
    decreases n
  {
    n > 0 ==>
    var (o, st1) := Visit(w, g, ret, s, i, st, k);
    (o.Normal? || o.Continued?) && (n > 1 ==>
                                    InRange(IndexType(g, s), i + 1) && Finishing(w, g, ret, s, i + 1, n - 1, st1, k))
  }

  /** The state after n visits, and the values the variable took. */
  ghost function AfterVisits(w: World, g: seq<Ty>, ret: Option<Ty>, s: Stmt, i: int, n: nat, st: State,
                             k: nat): (State, seq<int>)
    requires ForOk(g, ret, s, i, n, st) && Finishing(w, g, ret, s, i, n, st, k)
    decreases n
  {
    if n == 0 then (st, []) else
    var st1 := Visit(w, g, ret, s, i, st, k).1;
    if n == 1 then (st1, [ItemAt(s, i, st.store)]) else
    var (st2, items) := AfterVisits(w, g, ret, s, i + 1, n - 1, st1, k);
    (st2, [ItemAt(s, i, st.store)] + items)
  }

  /** Over a range the values are a, a+1, ... in order, once each. */
  lemma {:induction false} RangeItems(w: World, g: seq<Ty>, ret: Option<Ty>, s: Stmt, i: int, n: nat, st: State, k: nat)
    requires ForOk(g, ret, s, i, n, st) && Finishing(w, g, ret, s, i, n, st, k) && s.src.Range?
    ensures AfterVisits(w, g, ret, s, i, n, st, k).1 == seq(n, j => i + j)
    decreases n
  {
    if n > 1 {
      var st1 := Visit(w, g, ret, s, i, st, k).1;
      RangeItems(w, g, ret, s, i + 1, n - 1, st1, k);
      assert [i] + seq(n - 1, j => i + 1 + j) == seq(n, j => i + j);
    }
  }

  function ArrayOf(s: Stmt, store: seq<int>): (r: seq<int>)
    requires s.For? && s.src.Array? && s.src.base + s.src.count <= |store|
  {
    store[s.src.base..s.src.base + s.src.count]
  }

  lemma ForStops(w: World, g: seq<Ty>, ret: Option<Ty>, s: Stmt, i: int, end: int, st: State, fuel: nat)
    requires s.For? && WellTyped(g, ret, s) && StoreOk(g, st.store) && InRange(IndexType(g, s), i)
    requires (s.src.Array? ==> end == s.src.count) && !ForGoes(s, i, end)
    ensures EvalFor(w, g, ret, s, i, end, st, fuel) == (Normal, st)
  {
  }

  /** The index advances before the body, so `continue` and falling through both lead to the
      next value: the loop visits exactly Trip values, then ends normally.  An inclusive
      range must end below the type's maximum. */
  lemma {:induction false} ForVisits(w: World, g: seq<Ty>, ret: Option<Ty>, s: Stmt, i: int, end: int, st: State,
                                     fuel: nat, k: nat)
    requires s.For? && ForOk(g, ret, s, i, Trip(s, i, end), st) && InRange(IndexType(g, s), end)
    requires s.src.Array? ==> end == s.src.count
    requires s.src.Range? && s.src.inclusive ==> end < MaxOf(IndexType(g, s))
    requires Finishing(w, g, ret, s, i, Trip(s, i, end), st, k) && fuel >= k + Trip(s, i, end)
    ensures EvalFor(w, g, ret, s, i, end, st, fuel) == (Normal, AfterVisits(w, g, ret, s, i, Trip(s, i, end), st, k).0)
    decreases Trip(s, i, end)
  {
    hide EvalBody, EvalS, WellTyped, Wrap, Encode, Size, EvalFor, Visit, StoreOk;
    ForFacts(g, ret, s);
    var n := Trip(s, i, end);
    if n == 0 {
      ForStops(w, g, ret, s, i, end, st, fuel);
    } else {
      var (o, st1) := Visit(w, g, ret, s, i, st, k);
      VisitFuel(w, g, ret, s, i, st, k, fuel);
      ForTurn(w, g, ret, s, i, end, st, fuel);
      WrapInRange(IndexType(g, s), i + 1);
      assert Trip(s, i + 1, end) == n - 1;
      ForVisits(w, g, ret, s, i + 1, end, st1, fuel - 1, k);
    }
  }

  /** A body that never leaves the loop. */
  ghost predicate StaysIn(w: World, g: seq<Ty>, ret: Option<Ty>, s: Stmt)
    requires s.For? && WellTyped(g, ret, s)
  {
    forall i: int, st: State, f: nat | ForOk(g, ret, s, i, 1, st) ::
      var o := Visit(w, g, ret, s, i, st, f).0; o.Normal? || o.Continued? || o.Timeout?
  }

  /** An inclusive range up to the maximum of the type wraps around and never ends. */
  lemma {:induction false} InclusiveMaxRunsOn(w: World, g: seq<Ty>, ret: Option<Ty>, s: Stmt, i: int, st: State,
      fuel: nat)
    requires s.For? && ForOk(g, ret, s, i, 1, st)
    requires s.src.Range? && s.src.inclusive && StaysIn(w, g, ret, s)
    ensures EvalFor(w, g, ret, s, i, MaxOf(IndexType(g, s)), st, fuel).0.Timeout?
    decreases fuel
  {
    hide EvalBody, EvalS, EvalFor, WellTyped, Wrap, Encode, Size, StoreOk;
    ForFacts(g, ret, s);
    var t := IndexType(g, s);
    var (o, st1) := Visit(w, g, ret, s, i, st, fuel);
    ForTurn(w, g, ret, s, i, MaxOf(t), st, fuel);
    if fuel > 0 && !o.Timeout? {
      assert InRange(t, Wrap(t, i + 1));
      InclusiveMaxRunsOn(w, g, ret, s, Wrap(t, i + 1), st1, fuel - 1);
    }
  }

  /** The visit of index i from st ends, with enough fuel, by falling through or continuing. */
  ghost predicate VisitEnds(w: World, g: seq<Ty>, ret: Option<Ty>, s: Stmt, i: int, st: State)
    requires ForOk(g, ret, s, i, 1, st)
  {
    exists k: nat :: var o := Visit(w, g, ret, s, i, st, k).0; o.Normal? || o.Continued?
  }

  /** The body always finishes: from every state, after as long as it takes there. */
  ghost predicate AlwaysFinishes(w: World, g: seq<Ty>, ret: Option<Ty>, s: Stmt)
    requires s.For? && WellTyped(g, ret, s)
  {
    forall i: int, st: State | ForOk(g, ret, s, i, 1, st) :: VisitEnds(w, g, ret, s, i, st)
  }

  lemma {:induction false} FinishingMore(w: World, g: seq<Ty>, ret: Option<Ty>, s: Stmt, i: int, n: nat, st: State,
                                         k: nat, more: nat)
    requires ForOk(g, ret, s, i, n, st) && Finishing(w, g, ret, s, i, n, st, k) && k <= more
    ensures Finishing(w, g, ret, s, i, n, st, more)
    decreases n
  {
    hide EvalBody, EvalS, EvalFor, WellTyped, Wrap, Encode, Size, Visit;
    if n > 0 {
      VisitFuel(w, g, ret, s, i, st, k, more);
    }
    if n > 1 {
      FinishingMore(w, g, ret, s, i + 1, n - 1, Visit(w, g, ret, s, i, st, k).1, k, more);
    }
  }

  /** Along one run there is a fuel that is enough for every visit. */
  lemma {:induction false} FinishesAlong(w: World, g: seq<Ty>, ret: Option<Ty>, s: Stmt, i: int, n: nat, st: State)
    returns (k: nat)
    requires s.For? && ForOk(g, ret, s, i, n, st) && AlwaysFinishes(w, g, ret, s)
    requires n > 0 ==> InRange(IndexType(g, s), i + n - 1)
    ensures Finishing(w, g, ret, s, i, n, st, k)
    decreases n
  {
    hide EvalBody, EvalS, EvalFor, WellTyped, Wrap, Encode, Size, Visit;
    ForFacts(g, ret, s);
    k := 0;
    if n > 0 {
      assert ForOk(g, ret, s, i, 1, st);
      assert VisitEnds(w, g, ret, s, i, st);
      var k1: nat :| var o := Visit(w, g, ret, s, i, st, k1).0; o.Normal? || o.Continued?;
      k := k1;
      if n > 1 {
        var st1 := Visit(w, g, ret, s, i, st, k1).1;
        var k2 := FinishesAlong(w, g, ret, s, i + 1, n - 1, st1);
        k := if k1 >= k2 then k1 else k2;
        VisitFuel(w, g, ret, s, i, st, k1, k);
        FinishingMore(w, g, ret, s, i + 1, n - 1, st1, k2, k);
      }
    }
  }

  lemma FinishesStays(w: World, g: seq<Ty>, ret: Option<Ty>, s: Stmt)
    requires s.For? && WellTyped(g, ret, s) && AlwaysFinishes(w, g, ret, s)
    ensures StaysIn(w, g, ret, s)
  {
    hide EvalBody, EvalS, EvalFor, WellTyped, Wrap, Encode, Size, Visit, ForOk;
    forall i: int, st: State, f: nat | ForOk(g, ret, s, i, 1, st)
      ensures var o := Visit(w, g, ret, s, i, st, f).0; o.Normal? || o.Continued? || o.Timeout?
    {
      assert VisitEnds(w, g, ret, s, i, st);
      var k: nat :| var o := Visit(w, g, ret, s, i, st, k).0; o.Normal? || o.Continued?;
      if !Visit(w, g, ret, s, i, st, f).0.Timeout? {
        VisitFuel(w, g, ret, s, i, st, f, f + k);
        VisitFuel(w, g, ret, s, i, st, k, f + k);
      }
    }
  }

  /** With a body that always finishes, a range loop ends if and only if it is not an
      inclusive range up to the type's maximum. */
  lemma RangeEndsIff(w: World, g: seq<Ty>, ret: Option<Ty>, s: Stmt, i: int, end: int, st: State)
    requires s.For? && s.src.Range? && ForOk(g, ret, s, i, 1, st)
    requires InRange(IndexType(g, s), end) && AlwaysFinishes(w, g, ret, s)
    ensures (exists fuel: nat :: EvalFor(w, g, ret, s, i, end, st, fuel).0.Normal?) <==>
            !(s.src.inclusive && end == MaxOf(IndexType(g, s)))
  {
    hide EvalBody, EvalS, EvalFor, WellTyped, Wrap, Encode, Size, Visit, Finishing, AlwaysFinishes, StaysIn,
         AfterVisits;
    ForFacts(g, ret, s);
    if s.src.inclusive && end == MaxOf(IndexType(g, s)) {
      FinishesStays(w, g, ret, s);
      forall fuel: nat
        ensures !EvalFor(w, g, ret, s, i, end, st, fuel).0.Normal?
      {
        InclusiveMaxRunsOn(w, g, ret, s, i, st, fuel);
      }
    } else {
      var n := Trip(s, i, end);
      var k := FinishesAlong(w, g, ret, s, i, n, st);
      ForVisits(w, g, ret, s, i, end, st, k + n, k);
    }
  }

  /** `for x in 0..=255 {}` over u8 never ends. */
  lemma FullRange(w: World, st: State, fuel: nat)
    requires StoreOk([U8], st.store)
    ensures var s := For(0, Range(Lit(U8, 0), Lit(U8, 255), true), Skip);
            WellTyped([U8], None, s) && EvalS(w, [U8], None, s, None, st, fuel).0.Timeout?
  {
    var g, s := [U8], For(0, Range(Lit(U8, 0), Lit(U8, 255), true), Skip);
    assert StaysIn(w, g, None, s) by {
      forall i: int, st1: State, f: nat | ForOk(g, None, s, i, 1, st1)
        ensures Visit(w, g, None, s, i, st1, f).0.Normal?
      {
        SkipVisit(w, g, s, i, st1, f);
      }
    }
    InclusiveMaxRunsOn(w, g, None, s, 0, st, fuel);
  }

  lemma SkipVisit(w: World, g: seq<Ty>, s: Stmt, i: int, st: State, f: nat)
    requires s.For? && s.body == Skip && ForOk(g, None, s, i, 1, st)
    ensures Visit(w, g, None, s, i, st, f).0.Normal?
  {
    var st0 := st.(store := st.store[s.x := ItemAt(s, i, st.store)]);
    assert EvalS(w, g, None, Skip, None, st0, f) == (Normal, st0);
  }

  // ----- arrays that the body writes -----

  /** In the run, each visited element still has its value from the start when its turn comes.
      Elements already visited, and all other slots, may change. */
  ghost predicate ComesUnchanged(w: World, g: seq<Ty>, ret: Option<Ty>, s: Stmt, i: int, n: nat, st: State, k: nat,
                                 start: seq<int>)
    requires ForOk(g, ret, s, i, n, st) && Finishing(w, g, ret, s, i, n, st, k) && s.src.Array?
    requires s.src.base + s.src.count <= |start|
    decreases n
  {
    n > 0 ==>
    && ItemAt(s, i, st.store) == ArrayOf(s, start)[i]
    && (n > 1 ==> ComesUnchanged(w, g, ret, s, i + 1, n - 1, Visit(w, g, ret, s, i, st, k).1, k, start))
  }

  /** The loop visits exactly the elements there were at the start, in order, if and only if
      none is written before its turn. */
  lemma {:induction false} ArrayItemsIff(w: World, g: seq<Ty>, ret: Option<Ty>, s: Stmt, i: int, n: nat, st: State,
                                         k: nat, start: seq<int>)
    requires ForOk(g, ret, s, i, n, st) && Finishing(w, g, ret, s, i, n, st, k) && s.src.Array?
    requires s.src.base + s.src.count <= |start|
    ensures AfterVisits(w, g, ret, s, i, n, st, k).1 == ArrayOf(s, start)[i..i + n] <==>
            ComesUnchanged(w, g, ret, s, i, n, st, k, start)
    decreases n
  {
    hide EvalBody, EvalS, EvalFor, WellTyped, Wrap, Encode, Size, Signed, Visit;
    ForFacts(g, ret, s);
    if n == 0 {
      assert ArrayOf(s, start)[i..i] == [];
    } else {
      var item, elems := ItemAt(s, i, st.store), ArrayOf(s, start)[i..i + n];
      assert elems == [ArrayOf(s, start)[i]] + ArrayOf(s, start)[i + 1..i + n];
      if n > 1 {
        var st1 := Visit(w, g, ret, s, i, st, k).1;
        ArrayItemsIff(w, g, ret, s, i + 1, n - 1, st1, k, start);
        var items := AfterVisits(w, g, ret, s, i + 1, n - 1, st1, k).1;
        HeadTail(item, items, ArrayOf(s, start)[i], ArrayOf(s, start)[i + 1..i + n]);
      }
    }
  }

  lemma HeadTail(x: int, a: seq<int>, y: int, b: seq<int>)
    ensures [x] + a == [y] + b <==> x == y && a == b
  {
    assert ([x] + a)[0] == x && ([x] + a)[1..] == a && ([y] + b)[0] == y && ([y] + b)[1..] == b;
  }

  /** Each visit of the run keeps the elements that are still to come. */
  ghost predicate KeepsAhead(w: World, g: seq<Ty>, ret: Option<Ty>, s: Stmt, i: int, n: nat, st: State, k: nat)
    requires ForOk(g, ret, s, i, n, st) && Finishing(w, g, ret, s, i, n, st, k) && s.src.Array?
    decreases n
  {
    n > 1 ==>
    var st1 := Visit(w, g, ret, s, i, st, k).1;
    && (forall j | i < j < i + n :: ItemAt(s, j, st1.store) == ItemAt(s, j, st.store))
    && KeepsAhead(w, g, ret, s, i + 1, n - 1, st1, k)
  }

  /** Over such a run the values are exactly the elements, in order. */
  lemma {:induction false} ArrayItems(w: World, g: seq<Ty>, ret: Option<Ty>, s: Stmt, i: int, n: nat, st: State, k: nat)
    requires ForOk(g, ret, s, i, n, st) && Finishing(w, g, ret, s, i, n, st, k) && s.src.Array?
    requires KeepsAhead(w, g, ret, s, i, n, st, k)
    ensures s.src.base + s.src.count <= |st.store|
    ensures AfterVisits(w, g, ret, s, i, n, st, k).1 == ArrayOf(s, st.store)[i..i + n]
  {
    ForFacts(g, ret, s);
    AheadUnchanged(w, g, ret, s, i, n, st, k, st.store);
    ArrayItemsIff(w, g, ret, s, i, n, st, k, st.store);
  }

  lemma {:induction false} AheadUnchanged(w: World, g: seq<Ty>, ret: Option<Ty>, s: Stmt, i: int, n: nat, st: State,
                                          k: nat, start: seq<int>)
    requires ForOk(g, ret, s, i, n, st) && Finishing(w, g, ret, s, i, n, st, k) && s.src.Array?
    requires KeepsAhead(w, g, ret, s, i, n, st, k) && s.src.base + s.src.count <= |start|
    requires forall j | i <= j < i + n :: ItemAt(s, j, st.store) == ArrayOf(s, start)[j]
    ensures ComesUnchanged(w, g, ret, s, i, n, st, k, start)
    decreases n
  {
    hide EvalBody, EvalS, EvalFor, WellTyped, Wrap, Encode, Size, Signed, Visit;
    if n > 1 {
      AheadUnchanged(w, g, ret, s, i + 1, n - 1, Visit(w, g, ret, s, i, st, k).1, k, start);
    }
  }

  /** `for x in a { a[1] = 9; }` over [5, 6] visits 5 and 9. */
  lemma LaterWritten(w: World, st: State)
    requires st.store == [0, 5, 6]
    ensures var g, s := [U8, U8, U8], For(0, Array(1, 2), Assign(2, Lit(U8, 9)));
            && ForOk(g, None, s, 0, 2, st) && Finishing(w, g, None, s, 0, 2, st, 0)
            && AfterVisits(w, g, None, s, 0, 2, st, 0).1 == [5, 9]
  {
    var g, s := [U8, U8, U8], For(0, Array(1, 2), Assign(2, Lit(U8, 9)));
    WriteVisit(w, g, s, 0, st);
    var st1 := Visit(w, g, None, s, 0, st, 0).1;
    WriteVisit(w, g, s, 1, st1);
  }

  lemma WriteVisit(w: World, g: seq<Ty>, s: Stmt, i: int, st: State)
    requires g == [U8, U8, U8] && s == For(0, Array(1, 2), Assign(2, Lit(U8, 9)))
    requires 0 <= i < 2 && StoreOk(g, st.store)
    ensures ForOk(g, None, s, i, 1, st)
    ensures Visit(w, g, None, s, i, st, 0) == (Normal, st.(store := [st.store[1 + i], st.store[1], 9]))
  {
    var st0 := st.(store := st.store[0 := st.store[1 + i]]);
    WrapInRange(U8, 9);
    assert EvalE(w, g, Lit(U8, 9), st0) == (9, st0);
    assert EvalS(w, g, None, s.body, None, st0, 0) == (Normal, st0.(store := st0.store[2 := 9]));
    assert st0.store[2 := 9] == [st.store[1 + i], st.store[1], 9];
    assert EvalBody(w, g, None, s.body, None, st0, 0) == (Normal, st0.(store := [st.store[1 + i], st.store[1], 9]));
  }
}
