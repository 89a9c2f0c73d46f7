/** The numbers of lexical bodies and the names of functions, formed in both walks of the tree.
    Pass 2 finds a function by the name pass 1 gave it, so both must come out alike. */
module LexicalIds {
  import opened Syntax
  import opened Mangling

  /** What the walk sees of a tree: function definitions, lexical bodies, statements with
      bodies (if, while, loop, for), and expressions with bodies. */
  datatype Node =
    | Fn(name: string, kids: seq<Node>)
    | Body(kids: seq<Node>)
    | Flow(kids: seq<Node>)
    | InExpr(kids: seq<Node>)

  /** The bodies of statements and expressions are lexical bodies. */
  predicate Shaped(n: Node) {
    (forall i | 0 <= i < |n.kids| :: Shaped(n.kids[i])) &&
    (n.Flow? || n.InExpr? ==> forall i | 0 <= i < |n.kids| :: n.kids[i].Body?)
  }

  /** What a walk does, with the place in the tree: gives a body its number, or forms the name
      of a function. */
  datatype Visit = Entered(at: seq<nat>, id: nat) | Found(at: seq<nat>, fn: FnPath)

  /** Pass 1 skips expressions; pass 2 skips statements with bodies outside functions. */
  predicate Skips(pass: nat, n: Node, inFn: bool) {
    (n.InExpr? && pass == 1) || (n.Flow? && pass != 1 && !inFn)
  }

  function Visits(pass: nat, n: Node, at: seq<nat>, count: nat, stack: seq<Scope>, inFn: bool): (r: (seq<Visit>, nat))
    ensures count <= r.1
    decreases n, 0
  {
    if Skips(pass, n, inFn) then ([], count) else
    match n
    case Fn(_, _) =>
      var (vs, c) := VisitsSeq(pass, n.kids, at, 0, count + 1, stack + [Function(n.name)], true);
      ([Found(at, FnPath(stack, Plain(n.name))), Entered(at, count + 1)] + vs, c)
    case Body(_) =>
      var (vs, c) := VisitsSeq(pass, n.kids, at, 0, count + 1, stack + [Scope.Block(count + 1)], inFn);
      ([Entered(at, count + 1)] + vs, c)
    case _ => VisitsSeq(pass, n.kids, at, 0, count, stack, inFn)
  }

  function VisitsSeq(pass: nat, ns: seq<Node>, at: seq<nat>, i: nat, count: nat, stack: seq<Scope>,
                     inFn: bool): (r: (seq<Visit>, nat))
    ensures count <= r.1
    decreases ns, 1
  {
    if ns == [] then ([], count) else
    var (a, c1) := Visits(pass, ns[0], at + [i], count, stack, inFn);
    var (b, c2) := VisitsSeq(pass, ns[1..], at, i + 1, c1, stack, inFn);
    (a + b, c2)
  }

  /** No statement with bodies outside a function, and no expression with bodies. */
  predicate Regular(n: Node, inFn: bool) {
    match n
    case Fn(_, kids) => forall i | 0 <= i < |kids| :: Regular(kids[i], true)
    case Body(kids) => forall i | 0 <= i < |kids| :: Regular(kids[i], inFn)
    case Flow(kids) => (inFn || kids == []) && forall i | 0 <= i < |kids| :: Regular(kids[i], inFn)
    case InExpr(kids) => kids == []
  }

  // ----- the walker -----

  class LexWalker {
    var pass: nat
    var count: nat
    var stack: seq<Scope>
    var inFn: bool
    var visits: seq<Visit>

    constructor (pass: nat)
      ensures this.pass == pass && count == 0 && stack == [] && !inFn && visits == []
    {
      this.pass, count, stack, inFn, visits := pass, 0, [], false, [];
    }

    method WalkNode(n: Node, at: seq<nat>)
      modifies this
      decreases n, 1
      ensures pass == old(pass) && stack == old(stack) && inFn == old(inFn)
      ensures var (vs, c) := Visits(pass, n, at, old(count), stack, inFn);
              visits == old(visits) + vs && count == c
    {
      match n
      case Fn(name, kids) =>
        visits := visits + [Found(at, FnPath(stack, Plain(name)))];
        var outer := inFn;
        inFn := true;
        WalkBody(Function(name), n.kids, at, true);
        inFn := outer;
      case Body(kids) => WalkBody(Function(""), n.kids, at, false);
      case Flow(kids) =>
        if pass == 1 || inFn {
          WalkSeq(kids, at);
        }
      case InExpr(kids) =>
        if pass != 1 {
          WalkSeq(kids, at);
        }
    }

    /** A lexical body: numbered, pushed, walked, popped. */
    method WalkBody(fnScope: Scope, kids: seq<Node>, at: seq<nat>, ofFn: bool)
      modifies this
      decreases kids, 4
      ensures pass == old(pass) && stack == old(stack) && inFn == old(inFn)
      ensures var id := old(count) + 1;
              var (vs, c) := VisitsSeq(pass, kids, at, 0, id, stack + [if ofFn then fnScope else Scope.Block(id)],
                                       inFn);
              visits == old(visits) + [Entered(at, id)] + vs && count == c
    {
      count := count + 1;
      stack := stack + [if ofFn then fnScope else Scope.Block(count)];
      visits := visits + [Entered(at, count)];
      WalkSeq(kids, at);
      stack := stack[..|stack| - 1];
    }

    method WalkSeq(ns: seq<Node>, at: seq<nat>)
      modifies this
      decreases ns, 2
      ensures pass == old(pass) && stack == old(stack) && inFn == old(inFn)
      ensures var (vs, c) := VisitsSeq(pass, ns, at, 0, old(count), stack, inFn);
              visits == old(visits) + vs && count == c
    {
      for i := 0 to |ns|
        invariant pass == old(pass) && stack == old(stack) && inFn == old(inFn)
        invariant var (vs, c) := VisitsSeq(pass, ns[i..], at, i, count, stack, inFn);
                  var (all, c1) := VisitsSeq(pass, ns, at, 0, old(count), stack, inFn);
                  old(visits) + all == visits + vs && c == c1
      {
        WalkNode(ns[i], at + [i]);
        assert ns[i..][1..] == ns[i + 1..];
      }
    }
  }

  // ----- places -----

  predicate AllUnder(vs: seq<Visit>, at: seq<nat>) {
    forall v | v in vs :: at <= v.at
  }

  /** Places below `at`, in child i or a later one. */
  predicate AllFrom(vs: seq<Visit>, at: seq<nat>, i: nat) {
    forall v | v in vs :: at < v.at && v.at[|at|] >= i
  }

  lemma {:induction false} VisitsUnder(pass: nat, n: Node, at: seq<nat>, count: nat, stack: seq<Scope>, inFn: bool)
    ensures AllUnder(Visits(pass, n, at, count, stack, inFn).0, at)
    decreases n, 0
  {
    if !Skips(pass, n, inFn) {
      match n
      case Fn(name, kids) => VisitsFrom(pass, kids, at, 0, count + 1, stack + [Function(name)], true);
      case Body(kids) => VisitsFrom(pass, kids, at, 0, count + 1, stack + [Scope.Block(count + 1)], inFn);
      case Flow(kids) => VisitsFrom(pass, kids, at, 0, count, stack, inFn);
      case InExpr(kids) => VisitsFrom(pass, kids, at, 0, count, stack, inFn);
    }
  }

  lemma {:induction false} VisitsFrom(pass: nat, ns: seq<Node>, at: seq<nat>, i: nat, count: nat, stack: seq<Scope>,
                                      inFn: bool)
    ensures AllFrom(VisitsSeq(pass, ns, at, i, count, stack, inFn).0, at, i)
    decreases ns, 1
  {
    if ns != [] {
      VisitsUnder(pass, ns[0], at + [i], count, stack, inFn);
      var (a, c1) := Visits(pass, ns[0], at + [i], count, stack, inFn);
      VisitsFrom(pass, ns[1..], at, i + 1, c1, stack, inFn);
      forall v | v in a
        ensures at < v.at && v.at[|at|] >= i
      {
        assert (at + [i])[|at|] == i && (at + [i])[..|at|] == at;
      }
    }
  }

  function Bodies(vs: seq<Visit>): nat {
    if vs == [] then 0 else Bodies(vs[..|vs| - 1]) + if vs[|vs| - 1].Entered? then 1 else 0
  }

  lemma {:induction false} BodiesConcat(a: seq<Visit>, b: seq<Visit>)
    ensures Bodies(a + b) == Bodies(a) + Bodies(b)
    decreases |b|
  {
    if b == [] {
      assert a + b == a;
    } else {
      assert (a + b)[..|a + b| - 1] == a + b[..|b| - 1];
      BodiesConcat(a, b[..|b| - 1]);
    }
  }

  lemma NoVisits()
    ensures Bodies([]) == 0
  {
  }

  lemma OneVisit(v: Visit)
    ensures Bodies([v]) == if v.Entered? then 1 else 0
  {
    assert [v][..0] == [];
  }

  lemma TwoVisits(v: Visit, w: Visit)
    ensures Bodies([v, w]) == Bodies([v]) + Bodies([w])
  {
    BodiesConcat([v], [w]);
    assert [v] + [w] == [v, w];
  }

  /** The counter counts the bodies entered. */
  lemma {:induction false} CountIs(pass: nat, n: Node, at: seq<nat>, count: nat, stack: seq<Scope>, inFn: bool)
    ensures var (vs, c) := Visits(pass, n, at, count, stack, inFn); c == count + Bodies(vs)
    decreases n, 0
  {
    hide Bodies;
    if Skips(pass, n, inFn) {
      NoVisits();
    } else {
      match n
      case Fn(name, kids) =>
        OneVisit(Found(at, FnPath(stack, Plain(name))));
        OneVisit(Entered(at, count + 1));
        CountIsSeq(pass, kids, at, 0, count + 1, stack + [Function(name)], true);
        var vs := VisitsSeq(pass, kids, at, 0, count + 1, stack + [Function(name)], true).0;
        var found, entered := Found(at, FnPath(stack, Plain(name))), Entered(at, count + 1);
        BodiesConcat([found, entered], vs);
        TwoVisits(found, entered);
      case Body(kids) =>
        CountIsSeq(pass, kids, at, 0, count + 1, stack + [Scope.Block(count + 1)], inFn);
        var vs := VisitsSeq(pass, kids, at, 0, count + 1, stack + [Scope.Block(count + 1)], inFn).0;
        BodiesConcat([Entered(at, count + 1)], vs);
        OneVisit(Entered(at, count + 1));
      case Flow(kids) => CountIsSeq(pass, kids, at, 0, count, stack, inFn);
      case InExpr(kids) => CountIsSeq(pass, kids, at, 0, count, stack, inFn);
    }
  }

  lemma {:induction false} CountIsSeq(pass: nat, ns: seq<Node>, at: seq<nat>, i: nat, count: nat, stack: seq<Scope>,
                                      inFn: bool)
    ensures var (vs, c) := VisitsSeq(pass, ns, at, i, count, stack, inFn); c == count + Bodies(vs)
    decreases ns, 1
  {
    if ns != [] {
      CountIs(pass, ns[0], at + [i], count, stack, inFn);
      var (a, c1) := Visits(pass, ns[0], at + [i], count, stack, inFn);
      CountIsSeq(pass, ns[1..], at, i + 1, c1, stack, inFn);
      BodiesConcat(a, VisitsSeq(pass, ns[1..], at, i + 1, c1, stack, inFn).0);
    }
  }

  /** The numbers given, in order. */
  function Ids(vs: seq<Visit>): seq<nat> {
    if vs == [] then [] else Ids(vs[..|vs| - 1]) + if vs[|vs| - 1].Entered? then [vs[|vs| - 1].id] else []
  }

  lemma {:induction false} IdsConcat(a: seq<Visit>, b: seq<Visit>)
    ensures Ids(a + b) == Ids(a) + Ids(b)
    decreases |b|
  {
    if b == [] {
      assert a + b == a;
    } else {
      assert (a + b)[..|a + b| - 1] == a + b[..|b| - 1];
      IdsConcat(a, b[..|b| - 1]);
    }
  }

  lemma OneId(v: Visit)
    ensures Ids([v]) == if v.Entered? then [v.id] else []
  {
    assert [v][..0] == [];
  }

  function Upto(count: nat, c: nat): seq<nat>
    requires count <= c
  {
    seq(c - count, i requires 0 <= i < c - count => count + 1 + i)
  }

  lemma UptoSplit(a: nat, b: nat, c: nat)
    requires a <= b <= c
    ensures Upto(a, b) + Upto(b, c) == Upto(a, c)
  {
  }

  lemma UptoOne(a: nat)
    ensures Upto(a, a + 1) == [a + 1] && Upto(a, a) == []
  {
  }

  /** The bodies are numbered 1, 2, 3, ... in the order in which they are entered. */
  lemma {:induction false} IdsInOrder(pass: nat, n: Node, at: seq<nat>, count: nat, stack: seq<Scope>, inFn: bool)
    ensures var (vs, c) := Visits(pass, n, at, count, stack, inFn); Ids(vs) == Upto(count, c)
    decreases n, 0
  {
    hide Ids, Upto;
    UptoOne(count);
    if Skips(pass, n, inFn) {
      NoIds();
    } else {
      match n
      case Fn(name, kids) =>
        IdsInOrderSeq(pass, kids, at, 0, count + 1, stack + [Function(name)], true);
        var (vs, c) := VisitsSeq(pass, kids, at, 0, count + 1, stack + [Function(name)], true);
        var found, entered := Found(at, FnPath(stack, Plain(name))), Entered(at, count + 1);
        OneId(found);
        OneId(entered);
        IdsConcat([found], [entered]);
        assert [found] + [entered] == [found, entered];
        IdsConcat([found, entered], vs);
        UptoSplit(count, count + 1, c);
      case Body(kids) =>
        IdsInOrderSeq(pass, kids, at, 0, count + 1, stack + [Scope.Block(count + 1)], inFn);
        var (vs, c) := VisitsSeq(pass, kids, at, 0, count + 1, stack + [Scope.Block(count + 1)], inFn);
        OneId(Entered(at, count + 1));
        IdsConcat([Entered(at, count + 1)], vs);
        UptoSplit(count, count + 1, c);
      case Flow(kids) => IdsInOrderSeq(pass, kids, at, 0, count, stack, inFn);
      case InExpr(kids) => IdsInOrderSeq(pass, kids, at, 0, count, stack, inFn);
    }
  }

  lemma NoIds()
    ensures Ids([]) == []
  {
  }

  lemma {:induction false} IdsInOrderSeq(pass: nat, ns: seq<Node>, at: seq<nat>, i: nat, count: nat,
                                         stack: seq<Scope>, inFn: bool)
    ensures var (vs, c) := VisitsSeq(pass, ns, at, i, count, stack, inFn); Ids(vs) == Upto(count, c)
    decreases ns, 1
  {
    hide Ids, Upto;
    UptoOne(count);
    if ns == [] {
      NoIds();
    } else {
      IdsInOrder(pass, ns[0], at + [i], count, stack, inFn);
      var (a, c1) := Visits(pass, ns[0], at + [i], count, stack, inFn);
      var (b, c2) := VisitsSeq(pass, ns[1..], at, i + 1, c1, stack, inFn);
      IdsInOrderSeq(pass, ns[1..], at, i + 1, c1, stack, inFn);
      IdsConcat(a, b);
      UptoSplit(count, c1, c2);
    }
  }

  // ----- the two passes -----

  /** How many visits are in child i. */
  function InChild(vs: seq<Visit>, at: seq<nat>, i: nat): nat {
    if vs == [] then 0
    else InChild(vs[..|vs| - 1], at, i) + if at + [i] <= vs[|vs| - 1].at then 1 else 0
  }

  lemma {:induction false} InChildConcat(a: seq<Visit>, b: seq<Visit>, at: seq<nat>, i: nat)
    ensures InChild(a + b, at, i) == InChild(a, at, i) + InChild(b, at, i)
    decreases |b|
  {
    if b == [] {
      assert a + b == a;
    } else {
      assert (a + b)[..|a + b| - 1] == a + b[..|b| - 1];
      InChildConcat(a, b[..|b| - 1], at, i);
    }
  }

  lemma {:induction false} AllInChild(vs: seq<Visit>, at: seq<nat>, i: nat)
    requires AllUnder(vs, at + [i])
    ensures InChild(vs, at, i) == |vs|
  {
    if vs != [] {
      assert vs[|vs| - 1] in vs;
      AllInChild(vs[..|vs| - 1], at, i);
    }
  }

  lemma {:induction false} NoneInChild(vs: seq<Visit>, at: seq<nat>, i: nat)
    requires AllFrom(vs, at, i + 1)
    ensures InChild(vs, at, i) == 0
  {
    if vs != [] {
      var v := vs[|vs| - 1];
      assert v in vs;
      assert (at + [i])[|at|] == i;
      NoneInChild(vs[..|vs| - 1], at, i);
    }
  }

  /** Visits of one child and of the later ones cannot be mistaken for each other. */
  lemma SplitEqual(a: seq<Visit>, b: seq<Visit>, a1: seq<Visit>, b1: seq<Visit>, at: seq<nat>, i: nat)
    requires AllUnder(a, at + [i]) && AllUnder(a1, at + [i]) && AllFrom(b, at, i + 1) && AllFrom(b1, at, i + 1)
    requires a + b == a1 + b1
    ensures a == a1 && b == b1
  {
    InChildConcat(a, b, at, i);
    InChildConcat(a1, b1, at, i);
    AllInChild(a, at, i);
    AllInChild(a1, at, i);
    NoneInChild(b, at, i);
    NoneInChild(b1, at, i);
    assert a == (a + b)[..|a|] && a1 == (a1 + b1)[..|a1|];
    assert b == (a + b)[|a|..] && b1 == (a1 + b1)[|a1|..];
  }

  /** Both passes give every body the same number and every function the same name, if and
      only if the tree is regular. */
  lemma {:induction false} PassesAgree(n: Node, at: seq<nat>, count: nat, stack: seq<Scope>, inFn: bool)
    requires Shaped(n)
    ensures Visits(1, n, at, count, stack, inFn) == Visits(2, n, at, count, stack, inFn) <==> Regular(n, inFn)
    decreases n, 0
  {
    match n
    case Fn(name, kids) =>
      var inner := stack + [Function(name)];
      PassesAgreeSeq(kids, at, 0, count + 1, inner, true);
      var head := [Found(at, FnPath(stack, Plain(name))), Entered(at, count + 1)];
      SameTail(head, VisitsSeq(1, kids, at, 0, count + 1, inner, true).0,
               VisitsSeq(2, kids, at, 0, count + 1, inner, true).0);
    case Body(kids) =>
      var inner := stack + [Scope.Block(count + 1)];
      PassesAgreeSeq(kids, at, 0, count + 1, inner, inFn);
      SameTail([Entered(at, count + 1)], VisitsSeq(1, kids, at, 0, count + 1, inner, inFn).0,
               VisitsSeq(2, kids, at, 0, count + 1, inner, inFn).0);
    case Flow(kids) =>
      PassesAgreeSeq(kids, at, 0, count, stack, inFn);
      if kids != [] {
        SomeBody(1, kids, at, 0, count, stack, inFn);
      }
    case InExpr(kids) =>
      if kids != [] {
        SomeBody(2, kids, at, 0, count, stack, inFn);
      }
  }

  lemma SameTail(head: seq<Visit>, a: seq<Visit>, b: seq<Visit>)
    ensures head + a == head + b <==> a == b
  {
    assert (head + a)[|head|..] == a && (head + b)[|head|..] == b;
  }

  lemma SomeBody(pass: nat, ns: seq<Node>, at: seq<nat>, i: nat, count: nat, stack: seq<Scope>, inFn: bool)
    requires ns != [] && ns[0].Body?
    ensures VisitsSeq(pass, ns, at, i, count, stack, inFn).0 != []
  {
    assert Visits(pass, ns[0], at + [i], count, stack, inFn).0[0] == Entered(at + [i], count + 1);
  }

  lemma {:induction false} PassesAgreeSeq(ns: seq<Node>, at: seq<nat>, i: nat, count: nat, stack: seq<Scope>,
                                          inFn: bool)
    requires forall j | 0 <= j < |ns| :: Shaped(ns[j])
    ensures VisitsSeq(1, ns, at, i, count, stack, inFn) == VisitsSeq(2, ns, at, i, count, stack, inFn) <==>
            forall j | 0 <= j < |ns| :: Regular(ns[j], inFn)
    decreases ns, 1
  {
    hide Visits, Shaped, Regular, Bodies;
    if ns != [] {
      PassesAgree(ns[0], at + [i], count, stack, inFn);
      var (a, c) := Visits(1, ns[0], at + [i], count, stack, inFn);
      var (a1, c1) := Visits(2, ns[0], at + [i], count, stack, inFn);
      var b := VisitsSeq(1, ns[1..], at, i + 1, c, stack, inFn).0;
      var b1 := VisitsSeq(2, ns[1..], at, i + 1, c1, stack, inFn).0;
      PassesAgreeSeq(ns[1..], at, i + 1, c, stack, inFn);
      VisitsUnder(1, ns[0], at + [i], count, stack, inFn);
      VisitsUnder(2, ns[0], at + [i], count, stack, inFn);
      VisitsFrom(1, ns[1..], at, i + 1, c, stack, inFn);
      VisitsFrom(2, ns[1..], at, i + 1, c1, stack, inFn);
      CountIs(1, ns[0], at + [i], count, stack, inFn);
      CountIs(2, ns[0], at + [i], count, stack, inFn);
      if a + b == a1 + b1 {
        SplitEqual(a, b, a1, b1, at, i);
      }
      assert (forall j | 0 <= j < |ns| :: Regular(ns[j], inFn)) <==>
             Regular(ns[0], inFn) && forall j | 0 <= j < |ns[1..]| :: Regular(ns[1..][j], inFn) by {
        assert forall j | 0 < j < |ns| :: ns[1..][j - 1] == ns[j];
      }
    }
  }

  // ----- names -----

  /** Functions defined side by side have different names, as the symbol table sees to. */
  predicate SiblingsOk(ns: seq<Node>) {
    && (forall i, j | 0 <= i < j < |ns| && ns[i].Fn? && ns[j].Fn? :: ns[i].name != ns[j].name)
    && (forall i | 0 <= i < |ns| :: SiblingsOk(ns[i].kids))
  }

  function FnNames(ns: seq<Node>): set<string> {
    set i | 0 <= i < |ns| && ns[i].Fn? :: ns[i].name
  }

  /** The path starts, after the scopes of `stack`, with one of these functions or with a body
      numbered in (lo, hi]. */
  predicate Heads(p: FnPath, stack: seq<Scope>, names: set<string>, lo: nat, hi: nat) {
    && stack <= p.scopes && p.tail.Plain?
    && if |p.scopes| == |stack| then p.tail.name in names
       else
         match p.scopes[|stack|]
         case Function(f) => f in names
         case Block(id) => lo < id <= hi
  }

  predicate AllHead(vs: seq<Visit>, stack: seq<Scope>, names: set<string>, lo: nat, hi: nat) {
    forall v | v in vs && v.Found? :: Heads(v.fn, stack, names, lo, hi)
  }

  function OwnName(n: Node): set<string> {
    if n.Fn? then {n.name} else {}
  }

  lemma {:induction false} NodeHeads(pass: nat, n: Node, at: seq<nat>, count: nat, stack: seq<Scope>, inFn: bool)
    requires Shaped(n)
    ensures var (vs, c) := Visits(pass, n, at, count, stack, inFn); AllHead(vs, stack, OwnName(n), count, c)
    decreases n, 0
  {
    if !Skips(pass, n, inFn) {
      match n
      case Fn(name, kids) => Deeper(pass, kids, at, count + 1, stack, Function(name), true);
      case Body(kids) => Deeper(pass, kids, at, count + 1, stack, Scope.Block(count + 1), inFn);
      case Flow(kids) => SeqHeads(pass, kids, at, 0, count, stack, inFn);
      case InExpr(kids) => SeqHeads(pass, kids, at, 0, count, stack, inFn);
    }
  }

  lemma {:induction false} Deeper(pass: nat, kids: seq<Node>, at: seq<nat>, count: nat, stack: seq<Scope>, s: Scope,
                                  inFn: bool)
    requires forall i | 0 <= i < |kids| :: Shaped(kids[i])
    ensures forall v | v in VisitsSeq(pass, kids, at, 0, count, stack + [s], inFn).0 && v.Found? ::
              stack + [s] <= v.fn.scopes && v.fn.tail.Plain?
    decreases kids, 2
  {
    SeqHeads(pass, kids, at, 0, count, stack + [s], inFn);
  }

  lemma {:induction false} SeqHeads(pass: nat, ns: seq<Node>, at: seq<nat>, i: nat, count: nat, stack: seq<Scope>,
                                    inFn: bool)
    requires forall j | 0 <= j < |ns| :: Shaped(ns[j])
    ensures var (vs, c) := VisitsSeq(pass, ns, at, i, count, stack, inFn); AllHead(vs, stack, FnNames(ns), count, c)
    decreases ns, 1
  {
    if ns != [] {
      NodeHeads(pass, ns[0], at + [i], count, stack, inFn);
      var (a, c1) := Visits(pass, ns[0], at + [i], count, stack, inFn);
      SeqHeads(pass, ns[1..], at, i + 1, c1, stack, inFn);
      NamesSplit(ns);
    }
  }

  lemma NamesSplit(ns: seq<Node>)
    requires ns != []
    ensures FnNames(ns) == OwnName(ns[0]) + FnNames(ns[1..])
  {
    forall x
      ensures x in FnNames(ns) <==> x in OwnName(ns[0]) + FnNames(ns[1..])
    {
      if x in FnNames(ns) {
        var i :| 0 <= i < |ns| && ns[i].Fn? && ns[i].name == x;
        assert i > 0 ==> ns[1..][i - 1] == ns[i];
      }
      if x in FnNames(ns[1..]) {
        var i :| 0 <= i < |ns[1..]| && ns[1..][i].Fn? && ns[1..][i].name == x;
        assert ns[i + 1] == ns[1..][i];
      }
    }
  }

  /** One path, one place. */
  predicate Unambiguous(vs: seq<Visit>) {
    forall v, w | v in vs && w in vs && v.Found? && w.Found? && v.fn == w.fn :: v == w
  }

  lemma {:induction false} NodeUnambiguous(pass: nat, n: Node, at: seq<nat>, count: nat, stack: seq<Scope>, inFn: bool)
    requires Shaped(n) && SiblingsOk(n.kids)
    ensures Unambiguous(Visits(pass, n, at, count, stack, inFn).0)
    decreases n, 0
  {
    if !Skips(pass, n, inFn) {
      match n
      case Fn(name, kids) =>
        Deeper(pass, kids, at, count + 1, stack, Function(name), true);
        SeqUnambiguous(pass, kids, at, 0, count + 1, stack + [Function(name)], true);
      case Body(kids) => SeqUnambiguous(pass, kids, at, 0, count + 1, stack + [Scope.Block(count + 1)], inFn);
      case Flow(kids) => SeqUnambiguous(pass, kids, at, 0, count, stack, inFn);
      case InExpr(kids) => SeqUnambiguous(pass, kids, at, 0, count, stack, inFn);
    }
  }

  lemma {:induction false} SeqUnambiguous(pass: nat, ns: seq<Node>, at: seq<nat>, i: nat, count: nat,
                                          stack: seq<Scope>, inFn: bool)
    requires (forall j | 0 <= j < |ns| :: Shaped(ns[j])) && SiblingsOk(ns)
    ensures Unambiguous(VisitsSeq(pass, ns, at, i, count, stack, inFn).0)
    decreases ns, 1
  {
    hide Visits, Shaped;
    if ns != [] {
      var (a, c1) := Visits(pass, ns[0], at + [i], count, stack, inFn);
      var (b, c2) := VisitsSeq(pass, ns[1..], at, i + 1, c1, stack, inFn);
      NodeUnambiguous(pass, ns[0], at + [i], count, stack, inFn);
      SeqUnambiguous(pass, ns[1..], at, i + 1, c1, stack, inFn);
      NodeHeads(pass, ns[0], at + [i], count, stack, inFn);
      SeqHeads(pass, ns[1..], at, i + 1, c1, stack, inFn);
      assert OwnName(ns[0]) !! FnNames(ns[1..]) by {
        assert forall j | 0 <= j < |ns[1..]| :: ns[1..][j] == ns[j + 1];
      }
      Apart(a, b, stack, OwnName(ns[0]), FnNames(ns[1..]), count, c1, c2);
    }
  }

  lemma Apart(a: seq<Visit>, b: seq<Visit>, stack: seq<Scope>, names: set<string>, names1: set<string>, lo: nat,
              mid: nat, hi: nat)
    requires AllHead(a, stack, names, lo, mid) && AllHead(b, stack, names1, mid, hi) && names !! names1
    requires Unambiguous(a) && Unambiguous(b)
    ensures Unambiguous(a + b)
  {
    forall v, w | v in a && w in b && v.Found? && w.Found?
      ensures v.fn != w.fn
    {
      assert Heads(v.fn, stack, names, lo, mid) && Heads(w.fn, stack, names1, mid, hi);
    }
  }

  /** All functions of a program, walked from the outside. */
  function Program(pass: nat, ns: seq<Node>): seq<Visit> {
    VisitsSeq(pass, ns, [], 0, 0, [], false).0
  }

  predicate NamesOk(vs: seq<Visit>) {
    forall v | v in vs && v.Found? :: PathOk(v.fn)
  }

  /** In a regular program each function found in pass 2 has the module name it was given in
      pass 1, and no other function has that name. */
  lemma NameFindsFunction(ns: seq<Node>, v: Visit, w: Visit)
    requires (forall j | 0 <= j < |ns| :: Shaped(ns[j]) && Regular(ns[j], false)) && SiblingsOk(ns)
    requires v in Program(2, ns) && v.Found? && NamesOk(Program(1, ns))
    requires w in Program(1, ns) && w.Found?
    ensures v in Program(1, ns) && (FullName(v.fn) == FullName(w.fn) <==> v == w)
  {
    hide Visits, VisitsSeq, FullName, PathOk, Shaped, Regular;
    PassesAgreeSeq(ns, [], 0, 0, [], false);
    SeqUnambiguous(1, ns, [], 0, 0, [], false);
    FullNameInjective(v.fn, w.fn);
  }

  /** `while … {}` outside any function, then `{ fn f() {} }`: pass 1 names the function in body
      2, pass 2 in body 1, so it is not found. */
  lemma FlowOutside(f: string)
    ensures var ns := [Flow([Body([])]), Body([Fn(f, [])])];
            && (forall j | 0 <= j < |ns| :: Shaped(ns[j]))
            && Found([1, 0], FnPath([Scope.Block(2)], Plain(f))) in Program(1, ns)
            && Found([1, 0], FnPath([Scope.Block(1)], Plain(f))) in Program(2, ns)
            && Program(1, ns) != Program(2, ns)
  {
    var flow, block := Flow([Body([])]), Body([Fn(f, [])]);
    var ns := [flow, block];
    assert ns[1..] == [block] && [block][1..] == [];
    var v1 := FlowVisits(f, 1);
    var v2 := FlowVisits(f, 2);
    BlockVisits(f, 1, 1);
    BlockVisits(f, 2, 0);
    var a1, a2 := Visits(1, flow, [0], 0, [], false), Visits(2, flow, [0], 0, [], false);
    assert a1 == v1 && a2 == v2;
    assert [] + [0] == [0] && [] + [1] == [1];
    var b1, b2 := VisitsSeq(1, [block], [], 1, 1, [], false), VisitsSeq(2, [block], [], 1, 0, [], false);
    assert Program(1, ns) == v1.0 + b1.0 && Program(2, ns) == v2.0 + b2.0;
    assert Program(1, ns)[0] == Entered([0, 0], 1);
    assert Program(2, ns)[0] == Entered([1], 1);
  }

  /** `fn main() { if (…) { fn hello() {} } }`: main's body is number 1 and the if's number 2, so
      hello is `_CA$FL2F4main5hello`. */
  lemma InnerFunction(pass: nat)
    ensures var ns := [Fn("main", [Flow([Body([Fn("hello", [])])])])];
            var hello := FnPath([Function("main"), Scope.Block(2)], Plain("hello"));
            Program(pass, ns) == [Found([0], FnPath([], Plain("main"))), Entered([0], 1), Entered([0, 0, 0], 2),
                                  Found([0, 0, 0, 0], hello), Entered([0, 0, 0, 0], 3)]
    ensures FullName(FnPath([Function("main"), Scope.Block(2)], Plain("hello"))) == "_CA$FL2F4main5hello"
  {
    hide FullName;
    TestName();
    var hello := Fn("hello", []);
    var body := Body([hello]);
    var flow := Flow([body]);
    var main := Fn("main", [flow]);
    var st1, st2 := [Function("main")], [Function("main"), Scope.Block(2)];
    assert [] + [0] == [0] && [0] + [0] == [0, 0] && [0, 0] + [0] == [0, 0, 0] && [0, 0, 0] + [0] == [0, 0, 0, 0];
    assert [] + [Function("main")] == st1 && st1 + [Scope.Block(2)] == st2;
    LeafVisits(pass, "hello", [0, 0, 0, 0], 2, st2);
    OneKid(pass, hello, [0, 0, 0], 2, st2, true);
    var v1 := [Found([0, 0, 0, 0], FnPath(st2, Plain("hello"))), Entered([0, 0, 0, 0], 3)];
    assert Visits(pass, body, [0, 0, 0], 1, st1, true).0 == [Entered([0, 0, 0], 2)] + v1;
    OneKid(pass, body, [0, 0], 1, st1, true);
    OneKid(pass, flow, [0], 1, st1, true);
    assert Visits(pass, main, [0], 0, [], false).0 ==
           [Found([0], FnPath([], Plain("main"))), Entered([0], 1)] + ([Entered([0, 0, 0], 2)] + v1);
    OneKid(pass, main, [], 0, [], false);
  }

  lemma OneKid(pass: nat, n: Node, at: seq<nat>, count: nat, stack: seq<Scope>, inFn: bool)
    ensures VisitsSeq(pass, [n], at, 0, count, stack, inFn) == Visits(pass, n, at + [0], count, stack, inFn)
  {
    var (a, c1) := Visits(pass, n, at + [0], count, stack, inFn);
    assert [n][1..] == [];
    assert VisitsSeq(pass, [], at, 1, c1, stack, inFn) == ([], c1);
    assert a + [] == a;
  }

  lemma LeafVisits(pass: nat, name: string, at: seq<nat>, count: nat, stack: seq<Scope>)
    ensures Visits(pass, Fn(name, []), at, count, stack, true) ==
            ([Found(at, FnPath(stack, Plain(name))), Entered(at, count + 1)], count + 1)
  {
    var head := [Found(at, FnPath(stack, Plain(name))), Entered(at, count + 1)];
    assert VisitsSeq(pass, [], at, 0, count + 1, stack + [Function(name)], true) == ([], count + 1);
    assert head + [] == head;
  }

  lemma FlowVisits(f: string, pass: nat) returns (v: (seq<Visit>, nat))
    requires pass in {1, 2}
    ensures v == Visits(pass, Flow([Body([])]), [0], 0, [], false)
    ensures v == if pass == 1 then ([Entered([0, 0], 1)], 1) else ([], 0)
  {
    v := Visits(pass, Flow([Body([])]), [0], 0, [], false);
    if pass == 1 {
      var body := Body([]);
      assert [0] + [0] == [0, 0] && [body][1..] == [];
      assert VisitsSeq(1, [], [0, 0], 0, 1, [] + [Scope.Block(1)], false) == ([], 1);
      assert [Entered([0, 0], 1)] + [] == [Entered([0, 0], 1)];
      assert Visits(1, body, [0, 0], 0, [], false) == ([Entered([0, 0], 1)], 1);
      assert VisitsSeq(1, [body], [0], 0, 0, [], false) == ([Entered([0, 0], 1)], 1);
    }
  }

  /** The block and the function in it, when `count` bodies came before. */
  lemma BlockVisits(f: string, pass: nat, count: nat)
    requires pass in {1, 2}
    ensures var vs := VisitsSeq(pass, [Body([Fn(f, [])])], [], 1, count, [], false).0;
            && |vs| == 3 && vs[0] == Entered([1], count + 1)
            && vs[1] == Found([1, 0], FnPath([Scope.Block(count + 1)], Plain(f)))
  {
    var fn_, block, inner := Fn(f, []), Body([Fn(f, [])]), [Scope.Block(count + 1)];
    assert [] + [1] == [1] && [1] + [0] == [1, 0] && [] + inner == inner && [fn_][1..] == [] && [block][1..] == [];
    assert VisitsSeq(pass, [], [1, 0], 0, count + 2, inner + [Function(f)], true) == ([], count + 2);
    var vf := Visits(pass, fn_, [1, 0], count + 1, inner, false);
    var head := [Found([1, 0], FnPath(inner, Plain(f))), Entered([1, 0], count + 2)];
    assert head + [] == head;
    assert vf == ([Found([1, 0], FnPath(inner, Plain(f))), Entered([1, 0], count + 2)], count + 2);
    assert VisitsSeq(pass, [fn_], [1], 0, count + 1, inner, false).0 == vf.0 + [];
    assert Visits(pass, block, [1], count, [], false).0 == [Entered([1], count + 1)] + vf.0;
    assert VisitsSeq(pass, [block], [], 1, count, [], false).0 == [Entered([1], count + 1)] + vf.0 + [];
  }
}
