/** The lets of one scope: parsed once, then walked, against plain lexical shadowing. */
module LetScope {
  import opened Syntax
  import opened Patterns
  import opened Shadowing

  /** Right-hand sides: a name, a constant, a tuple. */
  datatype Rhs = Use(n: nat) | Const(v: Val) | Group(es: seq<Rhs>)

  datatype Let = Let(pat: Pattern, rhs: Rhs, ty: DType)

  type Env = map<nat, Val>

  // ----- lexical shadowing -----

  function Uses(r: Rhs): set<nat> {
    match r
    case Use(n) => {n}
    case Const(_) => {}
    case Group(es) => set i, n | 0 <= i < |es| && n in Uses(es[i]) :: n
  }

  function Eval(r: Rhs, env: Env): Val
    requires Uses(r) <= env.Keys
  {
    match r
    case Use(n) => env[n]
    case Const(v) => v
    case Group(es) => Fields(seq(|es|, i requires 0 <= i < |es| => UsesPart(r, i); Eval(es[i], env)))
  }

  lemma UsesPart(r: Rhs, i: nat)
    requires r.Group? && i < |r.es|
    ensures Uses(r.es[i]) <= Uses(r)
  {
  }

  function Extend(env: Env, bs: seq<(nat, Val)>): Env {
    if bs == [] then env else var (n, v) := bs[|bs| - 1]; Extend(env, bs[..|bs| - 1])[n := v]
  }

  /** The environment after k lets: each let evaluates its right side in the environment
      before it, and its names shadow.  None where a value does not match its pattern. */
  function Lexical(lets: seq<Let>, k: nat): Option<Env>
    requires k <= |lets|
  {
    if k == 0 then Some(map[]) else
    var env := Lexical(lets, k - 1);
    var l := lets[k - 1];
    if env.None? || !(Uses(l.rhs) <= env.value.Keys) then None else
    var v := Eval(l.rhs, env.value);
    if !HasType(v, l.ty) || Determine(l.pat, l.ty).None? then None
    else Some(Extend(env.value, Bind(l.pat, v, l.ty)))
  }

  function EventsOf(lets: seq<Let>): (ev: Events)
    ensures |ev| == |lets| && forall j | 0 <= j < |lets| :: ev[j] == VarNames(lets[j].pat)
  {
    seq(|lets|, j requires 0 <= j < |lets| => VarNames(lets[j].pat))
  }

  /** Let j is in order: one `..` a group, no name twice, and only names declared before. */
  ghost predicate LetOk(lets: seq<Let>, j: nat)
    requires j < |lets|
  {
    && RestOk(lets[j].pat) && Distinct(VarNames(lets[j].pat))
    && (forall n | n in Uses(lets[j].rhs) :: Sites(EventsOf(lets), j, n) != [])
  }

  /** What pass 1 lets through, in a scope where t says what is not a variable. */
  ghost predicate ParseOk(t: Table, lets: seq<Let>, k: nat)
    requires k <= |lets|
  {
    forall j | 0 <= j < k :: LetOk(lets, j) && forall n | n in VarNames(lets[j].pat) :: n !in t
  }

  // ----- the names a pattern binds -----

  function Firsts<T>(bs: seq<(nat, T)>): seq<nat> {
    seq(|bs|, i requires 0 <= i < |bs| => bs[i].0)
  }

  lemma FirstsConcat<T>(a: seq<(nat, T)>, b: seq<(nat, T)>)
    ensures Firsts(a + b) == Firsts(a) + Firsts(b)
  {
  }

  lemma NoFirsts<T>()
    ensures Firsts<T>([]) == []
  {
  }

  lemma EachFirsts<T>(names: seq<nat>, x: T)
    ensures Firsts(Each(names, x)) == names
  {
  }

  /** Binding assigns exactly the names that were registered, in the same order. */
  lemma {:induction false} BindNames(p: Pattern, v: Val, t: DType)
    requires RestOk(p) && Determine(p, t).Some? && HasType(v, t)
    ensures Firsts(Bind(p, v, t)) == VarNames(p)
    decreases p, 1
  {
    hide HasType, Each, DetermineRange, DetermineParts, RestPos;
    match p
    case PVar(_, name, more) => EachFirsts([name] + more, v);
    case PTuple(_, _, _, _) => BindNamesTuple(p, v, t);
    case PStruct(_, _, _, _) => BindNamesStruct(p, v, t);
    case PIgnore(_) =>
    case PRest(_) =>
  }

  lemma {:induction false} BindNamesTuple(p: Pattern, v: Val, t: DType)
    requires p.PTuple? && RestOk(p) && Determine(p, t).Some? && HasType(v, t)
    ensures Firsts(Bind(p, v, t)) == VarNames(p)
    decreases p, 0
  {
    hide HasType, Each, DetermineRange, BindRange, RestPos, ItemNames, Firsts;
    var items, more, k := p.items, p.more, RestPos(p.items);
    OneRest(p);
    EachFirsts(more, v);
    BindNamesRange(items, v, t, 0, k, 0);
    var a := BindRange(items, v, t, 0, k, 0);
    FirstsConcat(Each(more, v), a);
    assert items[0..k] == items[..k];
    if k == |items| {
      assert items[..k] == items;
      assert Each(more, v) + a + [] == Each(more, v) + a;
    } else {
      var off := |t.fields| - |items|;
      BindNamesRange(items, v, t, k + 1, |items|, off);
      FirstsConcat(Each(more, v) + a, BindRange(items, v, t, k + 1, |items|, off));
      ItemNamesSplit(items, k);
      assert items[k + 1..|items|] == items[k + 1..];
      assert more + (ItemNames(items[..k]) + ItemNames(items[k + 1..])) ==
             more + ItemNames(items[..k]) + ItemNames(items[k + 1..]);
    }
  }

  lemma {:induction false} BindNamesStruct(p: Pattern, v: Val, t: DType)
    requires p.PStruct? && RestOk(p) && Determine(p, t).Some? && HasType(v, t)
    ensures Firsts(Bind(p, v, t)) == VarNames(p)
    decreases p, 0
  {
    hide HasType, Each, DetermineParts, BindParts, Firsts;
    var items, k := p.items, EndPos(p.items);
    EachFirsts(p.more, v);
    BindNamesParts(items, v, t, k);
    FirstsConcat(Each(p.more, v), BindParts(items, v, t, k));
    if k < |items| {
      assert items[..k] == items[..|items| - 1];
      assert VarNames(items[k]) == [];
      assert ItemNames(items) == ItemNames(items[..k]);
    } else {
      assert items[..k] == items;
    }
  }

  lemma {:induction false} ItemNamesConcat(a: seq<Pattern>, b: seq<Pattern>)
    ensures ItemNames(a + b) == ItemNames(a) + ItemNames(b)
    decreases b
  {
    hide VarNames, ItemNames;
    if b == [] {
      assert a + b == a;
      NoItems();
      assert ItemNames(a) + [] == ItemNames(a);
    } else {
      var init, last := b[..|b| - 1], b[|b| - 1];
      ItemNamesConcat(a, init);
      assert (a + b)[..|a + b| - 1] == a + init && (a + b)[|a + b| - 1] == last;
      LastItem(a + b);
      LastItem(b);
      assert ItemNames(a) + (ItemNames(init) + VarNames(last)) == ItemNames(a) + ItemNames(init) + VarNames(last);
    }
  }

  lemma NoItems()
    ensures ItemNames([]) == []
  {
  }

  lemma LastItem(items: seq<Pattern>)
    requires items != []
    ensures ItemNames(items) == ItemNames(items[..|items| - 1]) + VarNames(items[|items| - 1])
  {
  }

  lemma ItemNamesSplit(items: seq<Pattern>, k: nat)
    requires k < |items| && items[k].PRest?
    ensures ItemNames(items) == ItemNames(items[..k]) + ItemNames(items[k + 1..])
  {
    hide ItemNames;
    var a, one, b := items[..k], [items[k]], items[k + 1..];
    OneName(items[k]);
    ItemNamesConcat(a, one);
    ItemNamesConcat(a + one, b);
    assert items == a + one + b;
    assert ItemNames(a) + [] == ItemNames(a);
  }

  lemma OneName(p: Pattern)
    requires p.PRest?
    ensures ItemNames([p]) == []
  {
    assert [p][..0] == [];
    assert ItemNames([p][..0]) == [];
  }

  lemma {:induction false} BindNamesRange(items: seq<Pattern>, v: Val, t: DType, from: nat, to: nat, off: nat)
    requires t.Agg? && from <= to <= |items| && to + off <= |t.fields| && HasType(v, t)
    requires DetermineRange(items, t, from, to, off).Some?
    requires forall i | from <= i < to :: RestOk(items[i])
    ensures Firsts(BindRange(items, v, t, from, to, off)) == ItemNames(items[from..to])
    decreases items, to
  {
    hide Determine, Bind, HasType, Firsts;
    if from == to {
      NoFirsts<Val>();
    } else {
      HasFields(v, t);
      BindNamesRange(items, v, t, from, to - 1, off);
      BindNames(items[to - 1], v.vs[to - 1 + off], t.fields[to - 1 + off].ty);
      FirstsConcat(BindRange(items, v, t, from, to - 1, off),
                   Bind(items[to - 1], v.vs[to - 1 + off], t.fields[to - 1 + off].ty));
      assert items[from..to][..to - from - 1] == items[from..to - 1];
    }
  }

  lemma {:induction false} BindNamesParts(items: seq<Pattern>, v: Val, t: DType, to: nat)
    requires t.Agg? && to <= |items| && HasType(v, t) && DetermineParts(items, t, to).Some?
    requires forall i | 0 <= i < to :: RestOk(items[i])
    ensures Firsts(BindParts(items, v, t, to)) == ItemNames(items[..to])
    decreases items, to
  {
    hide Determine, Bind, HasType, Firsts;
    if to == 0 {
      NoFirsts<Val>();
    } else {
      var pos := PartPos(t, items[to - 1].key);
      HasFields(v, t);
      BindNamesParts(items, v, t, to - 1);
      BindNames(items[to - 1], v.vs[pos], t.fields[pos].ty);
      FirstsConcat(BindParts(items, v, t, to - 1), Bind(items[to - 1], v.vs[pos], t.fields[pos].ty));
      assert items[..to][..to - 1] == items[..to - 1];
    }
  }

  // ----- what shadowing means for a program -----

  lemma {:induction false} LexicalPrefix(lets: seq<Let>, more: seq<Let>, k: nat)
    requires k <= |lets|
    ensures Lexical(lets + more, k) == Lexical(lets, k)
    decreases k
  {
    if k > 0 {
      LexicalPrefix(lets, more, k - 1);
      assert (lets + more)[k - 1] == lets[k - 1];
    }
  }

  /** `let (a, b) = (b, a);` swaps: the right side means the declarations before it. */
  lemma SwapLaw(lets: seq<Let>, env: Env, a: nat, b: nat, sig: nat, u: DType, w: DType)
    requires Lexical(lets, |lets|) == Some(env) && a != b && a in env && b in env
    requires HasType(env[a], u) && HasType(env[b], w)
    ensures var pair := PTuple(0, None, [], [PVar(0, a, []), PVar(0, b, [])]);
            var l := Let(pair, Group([Use(b), Use(a)]), Agg(sig, GeneralTuple, [Field(0, w), Field(1, u)]));
            Lexical(lets + [l], |lets| + 1) == Some(env[a := env[b]][b := env[a]])
  {
    hide Lexical, Determine, Bind, HasType;
    var pair := PTuple(0, None, [], [PVar(0, a, []), PVar(0, b, [])]);
    var t := Agg(sig, GeneralTuple, [Field(0, w), Field(1, u)]);
    var l := Let(pair, Group([Use(b), Use(a)]), t);
    LexicalPrefix(lets, [l], |lets|);
    LexicalStep(lets, l, env);
    UsesPair(a, b);
    EvalPair(a, b, env);
    var v := Fields([env[b], env[a]]);
    PairBound(a, b, v, t);
    var bs := [(a, env[b]), (b, env[a])];
    assert bs[..1] == [(a, env[b])];
    assert Extend(env, bs[..1]) == env[a := env[b]];
    assert Extend(env, bs) == env[a := env[b]][b := env[a]];
  }

  lemma LexicalStep(lets: seq<Let>, l: Let, env: Env)
    requires Lexical(lets + [l], |lets|) == Some(env)
    ensures Lexical(lets + [l], |lets| + 1) ==
            if !(Uses(l.rhs) <= env.Keys) then None
            else if !HasType(Eval(l.rhs, env), l.ty) || Determine(l.pat, l.ty).None? then None
            else Some(Extend(env, Bind(l.pat, Eval(l.rhs, env), l.ty)))
  {
    hide Determine, Bind, HasType, Extend, Uses, Eval;
  }

  lemma UsesPair(a: nat, b: nat)
    ensures Uses(Group([Use(b), Use(a)])) == {a, b}
  {
    var es := [Use(b), Use(a)];
    assert Uses(es[0]) == {b} && Uses(es[1]) == {a};
    forall n
      ensures n in Uses(Group(es)) <==> n in {a, b}
    {
      if n == b {
        assert n in Uses(es[0]);
      } else if n == a {
        assert n in Uses(es[1]);
      }
    }
  }

  lemma EvalPair(a: nat, b: nat, env: Env)
    requires a in env && b in env && Uses(Group([Use(b), Use(a)])) == {a, b}
    ensures Eval(Group([Use(b), Use(a)]), env) == Fields([env[b], env[a]])
  {
    var es := [Use(b), Use(a)];
    assert Eval(es[0], env) == env[b] && Eval(es[1], env) == env[a];
    assert Eval(Group(es), env).vs == [env[b], env[a]];
  }

  lemma PairBound(a: nat, b: nat, v: Val, t: DType)
    requires t.Agg? && t.kind == GeneralTuple && |t.fields| == 2 && v.Fields? && |v.vs| == 2
    requires HasType(v.vs[0], t.fields[0].ty) && HasType(v.vs[1], t.fields[1].ty)
    ensures var pair := PTuple(0, None, [], [PVar(0, a, []), PVar(0, b, [])]);
            HasType(v, t) && Determine(pair, t).Some? && Bind(pair, v, t) == [(a, v.vs[0]), (b, v.vs[1])]
  {
    var items := [PVar(0, a, []), PVar(0, b, [])];
    var u, w := t.fields[0].ty, t.fields[1].ty;
    assert items[1..] == [PVar(0, b, [])] && items[1..][1..] == [];
    assert RestPos(items[1..]) == 1 && RestPos(items) == 2;
    assert [a] + [] == [a] && [b] + [] == [b];
    assert Each([a], v.vs[0]) == [(a, v.vs[0])] && Each([b], v.vs[1]) == [(b, v.vs[1])];
    assert DetermineRange(items, t, 0, 0, 0) == Some([]) && DetermineRange(items, t, 0, 1, 0).Some?;
    assert DetermineRange(items, t, 0, 2, 0).Some?;
    assert BindRange(items, v, t, 0, 0, 0) == [] && BindRange(items, v, t, 0, 1, 0) == [(a, v.vs[0])];
    assert BindRange(items, v, t, 0, 2, 0) == [(a, v.vs[0]), (b, v.vs[1])];
    assert Each([], v) == [];
  }
}
