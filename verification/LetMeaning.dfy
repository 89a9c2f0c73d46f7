/** Walking the lets of a scope means lexical shadowing. */
module LetMeaning {
  import opened Syntax
  import opened Patterns
  import opened Shadowing
  import opened LetScope
  import opened LetWalk

  /** One let in pass 1: `..` and the names used are checked, then the pattern's names are
      registered. */
  method ParseLet(s: Scope, l: Let, site: nat) returns (ok: bool)
    modifies s
    ensures ok <==>
      && RestOk(l.pat) && (forall n | n in Uses(l.rhs) :: n in old(s.entries) && old(s.entries)[n].Variable?)
      && RegisterNames(old(s.entries), VarNames(l.pat), site).Some?
    ensures ok ==> RegisterNames(old(s.entries), VarNames(l.pat), site) == Some(s.entries)
  {
    if !RestOk(l.pat) || exists n | n in Uses(l.rhs) :: !(n in s.entries && s.entries[n].Variable?) {
      return false;
    }
    var seen;
    ok, seen := s.RegisterPattern(l.pat, site, {}, s.entries, []);
    assert [] + VarNames(l.pat) == VarNames(l.pat);
  }

  method ParseScope(s: Scope, lets: seq<Let>) returns (ok: bool)
    requires Fresh(s.entries)
    modifies s
    ensures ok <==> ParseOk(old(s.entries), lets, |lets|)
    ensures ok ==> Queued(s.entries, EventsOf(lets), |lets|)
  {
    hide Queued, Distinct, RegisterNames, Fresh, ParseOk, RestOk, Uses;
    ghost var t0, ev := s.entries, EventsOf(lets);
    ParseNone(t0, lets);
    for k := 0 to |lets|
      invariant ParseOk(t0, lets, k) && RegisterAll(t0, ev, k) == Some(s.entries)
    {
      ParseStep(t0, s.entries, lets, k);
      ok := ParseLet(s, lets[k], k);
      if !ok {
        ParseStuck(t0, lets, k + 1);
        return;
      }
    }
    RegisterAllIff(t0, ev, |lets|);
    ok := true;
  }

  lemma ParseNone(t0: Table, lets: seq<Let>)
    ensures ParseOk(t0, lets, 0)
  {
  }

  lemma ParseStuck(t0: Table, lets: seq<Let>, k: nat)
    requires k <= |lets| && !ParseOk(t0, lets, k)
    ensures !ParseOk(t0, lets, |lets|)
  {
  }

  lemma ParseStep(t0: Table, t: Table, lets: seq<Let>, k: nat)
    requires Fresh(t0) && k < |lets| && ParseOk(t0, lets, k) && RegisterAll(t0, EventsOf(lets), k) == Some(t)
    ensures ParseOk(t0, lets, k + 1) <==>
      && RestOk(lets[k].pat) && (forall n | n in Uses(lets[k].rhs) :: n in t && t[n].Variable?)
      && RegisterNames(t, VarNames(lets[k].pat), k).Some?
  {
    hide Queued, Distinct, RegisterNames, Fresh, RestOk, Uses;
    var ev := EventsOf(lets);
    RegisterAllIff(t0, ev, k);
    RegisterAllIff(t0, ev, k + 1);
    QueuedUses(t, ev, k);
    assert RegisterAll(t0, ev, k + 1) == RegisterNames(t, ev[k], k);
  }

  lemma QueuedUses(t: Table, ev: Events, k: nat)
    requires k <= |ev| && Queued(t, ev, k)
    ensures forall n :: Sites(ev, k, n) != [] <==> n in t && t[n].Variable?
  {
  }

  // ----- pass 2 -----

  /** A right side in the current declarations.  A name that has no value yet was refused in
      pass 1. */
  function EvalIn(r: Rhs, t: Table, values: map<Site, Val>): Val {
    match r
    case Use(n) => if Current(t, n) in values then values[Current(t, n)] else Num(0)
    case Const(v) => v
    case Group(es) => Fields(seq(|es|, i requires 0 <= i < |es| => EvalIn(es[i], t, values)))
  }

  ghost predicate Sees(t: Table, values: map<Site, Val>, n: nat, v: Val) {
    Current(t, n) in values && values[Current(t, n)] == v
  }

  lemma {:induction false} EvalAgrees(r: Rhs, t: Table, values: map<Site, Val>, env: Env)
    requires Uses(r) <= env.Keys && forall n | n in Uses(r) :: Sees(t, values, n, env[n])
    ensures EvalIn(r, t, values) == Eval(r, env)
  {
    match r
    case Use(n) => assert Sees(t, values, n, env[n]);
    case Const(_) =>
    case Group(es) =>
      forall i | 0 <= i < |es|
        ensures Uses(es[i]) <= Uses(r) && EvalIn(es[i], t, values) == Eval(es[i], env)
      {
        UsesPart(r, i);
        EvalAgrees(es[i], t, values, env);
      }
  }

  /** The current declarations hold exactly the lexical environment. */
  ghost predicate Agree(t: Table, values: map<Site, Val>, env: Env, ev: Events, k: nat)
    requires k <= |ev|
  {
    && (forall n :: n in env <==> Sites(ev, k, n) != [])
    && (forall n | n in env :: Sees(t, values, n, env[n]))
  }

  lemma {:induction false} ExtendKeys(env: Env, bs: seq<(nat, Val)>, n: nat)
    ensures n in Extend(env, bs) <==> n in env || n in Firsts(bs)
  {
    if bs != [] {
      ExtendKeys(env, bs[..|bs| - 1], n);
      assert Firsts(bs) == Firsts(bs[..|bs| - 1]) + [bs[|bs| - 1].0];
    }
  }

  lemma {:induction false} PutExtend(t: Table, values: map<Site, Val>, env: Env, bs: seq<(nat, Val)>, n: nat)
    requires n in Firsts(bs) || (n in env && Sees(t, values, n, env[n]))
    ensures n in Extend(env, bs) && Sees(t, Put(values, t, bs), n, Extend(env, bs)[n])
  {
    if bs != [] {
      var init, last := bs[..|bs| - 1], bs[|bs| - 1];
      assert Firsts(bs) == Firsts(init) + [last.0];
      if n != last.0 {
        PutExtend(t, values, env, init, n);
      }
    }
  }

  lemma BindStep(t: Table, values: map<Site, Val>, env: Env, ev: Events, k: nat, bs: seq<(nat, Val)>)
    requires k < |ev| && TurnedTo(t, ev, k) && Agree(t, values, env, ev, k) && Firsts(bs) == ev[k]
    ensures var t1 := RotateNames(t, ev[k], false); Agree(t1, Put(values, t1, bs), Extend(env, bs), ev, k + 1)
  {
    hide TurnedTo, Sees, RotateNames, Put, Extend;
    var t1 := RotateNames(t, ev[k], false);
    forall n
      ensures n in Extend(env, bs) <==> Sites(ev, k + 1, n) != []
      ensures n in Extend(env, bs) ==> Sees(t1, Put(values, t1, bs), n, Extend(env, bs)[n])
    {
      ExtendKeys(env, bs, n);
      if n in ev[k] {
        PutExtend(t1, values, env, bs, n);
      } else if n in env {
        SameCurrent(t, ev[k], n);
        SeesSame(t, t1, values, n, env[n]);
        PutExtend(t1, values, env, bs, n);
      }
    }
  }

  lemma SameCurrent(t: Table, names: seq<nat>, n: nat)
    requires n !in names
    ensures Current(RotateNames(t, names, false), n) == Current(t, n)
  {
    hide RotateNames, Rotate;
    RotateNamesAt(t, names, false, n);
    if n in t && t[n].Variable? {
      assert multiset(names)[n] == 0;
      assert Times(t[n].sh, 0, false) == t[n].sh;
    }
  }

  lemma SeesSame(t: Table, t1: Table, values: map<Site, Val>, n: nat, v: Val)
    requires Sees(t, values, n, v) && Current(t1, n) == Current(t, n)
    ensures Sees(t1, values, n, v)
  {
  }

  /** One let: forward to its own declarations for the types, back for the right side, forward
      again to bind. */
  method WalkLet(s: Scope, ghost lets: seq<Let>, ghost k: nat, l: Let, ghost env: Env) returns (ok: bool)
    requires k < |lets| && l == lets[k] && LetOk(lets, k) && Lexical(lets, k) == Some(env)
    requires TurnedTo(s.entries, EventsOf(lets), k) && Agree(s.entries, s.values, env, EventsOf(lets), k)
    modifies s
    ensures ok <==> Lexical(lets, k + 1).Some?
    ensures s.entries.Keys == old(s.entries).Keys
    ensures ok ==> TurnedTo(s.entries, EventsOf(lets), k + 1)
    ensures ok ==> Agree(s.entries, s.values, Lexical(lets, k + 1).value, EventsOf(lets), k + 1)
  {
    hide TurnedTo, Agree, RotateNames, Put, Extend, HasType, Determine, Bind, Sites, Distinct, Uses, Eval;
    ghost var ev, t := EventsOf(lets), s.entries;
    DeclaredAt(t, ev, k);
    Forward(t, ev, k);
    Backward(t, ev, k);
    Redeclared(t, ev[k], ev[k], false);
    RotateKeys(t, ev[k], false);
    s.RotatePattern(l.pat, false);
    ok := s.DetermineType(l.pat, l.ty);
    s.RotatePattern(l.pat, true);
    assert s.entries == t;
    var v := EvalIn(l.rhs, s.entries, s.values);
    UsesSeen(t, s.values, env, lets, k);
    EvalAgrees(l.rhs, t, s.values, env);
    s.RotatePattern(l.pat, false);
    ok := ok && HasType(v, l.ty);
    if ok {
      BindNames(l.pat, v, l.ty);
      BindStep(t, s.values, env, ev, k, Bind(l.pat, v, l.ty));
      s.BindValue(l.pat, v, l.ty);
    }
  }

  lemma RotateKeys(t: Table, names: seq<nat>, back: bool)
    ensures RotateNames(t, names, back).Keys == t.Keys
  {
    RotateNamesAt(t, names, back, 0);
  }

  /** Every name of the scope's lets is a variable throughout. */
  lemma DeclaredAt(t: Table, ev: Events, k: nat)
    requires k < |ev| && TurnedTo(t, ev, k)
    ensures forall n | n in ev[k] :: n in t && t[n].Variable?
  {
    forall n | n in ev[k]
      ensures n in t && t[n].Variable?
    {
      assert k in Sites(ev, k + 1, n);
      SitesPrefix(ev, k + 1, |ev|, n);
    }
  }

  lemma UsesSeen(t: Table, values: map<Site, Val>, env: Env, lets: seq<Let>, k: nat)
    requires k < |lets| && LetOk(lets, k) && Agree(t, values, env, EventsOf(lets), k)
    ensures Uses(lets[k].rhs) <= env.Keys && forall n | n in Uses(lets[k].rhs) :: Sees(t, values, n, env[n])
  {
  }

  lemma {:induction false} LexicalStuck(lets: seq<Let>, k: nat, m: nat)
    requires k <= m <= |lets| && Lexical(lets, k).None?
    ensures Lexical(lets, m).None?
    decreases m
  {
    if k < m {
      LexicalStuck(lets, k, m - 1);
    }
  }

  /** All lets of the scope: each name ends up with its lexical value, matching fails exactly
      when it does lexically, and the table is as it was, ready for the next walk. */
  method WalkScope(s: Scope, lets: seq<Let>) returns (ok: bool)
    requires Queued(s.entries, EventsOf(lets), |lets|) && forall j | 0 <= j < |lets| :: LetOk(lets, j)
    modifies s
    ensures ok <==> Lexical(lets, |lets|).Some?
    ensures ok ==> s.entries == old(s.entries)
    ensures ok ==> forall n | n in Lexical(lets, |lets|).value ::
            Sees(s.entries, s.values, n, Lexical(lets, |lets|).value[n])
  {
    hide TurnedTo, Sees, Queued, LetOk, Lexical, Agree;
    ghost var ev := EventsOf(lets);
    TurnedStart(s.entries, ev);
    NothingYet(s.entries, s.values, lets);
    for k := 0 to |lets|
      invariant Lexical(lets, k).Some? && TurnedTo(s.entries, ev, k) && s.entries.Keys == old(s.entries).Keys
      invariant Agree(s.entries, s.values, Lexical(lets, k).value, ev, k)
    {
      ok := WalkLet(s, lets, k, lets[k], Lexical(lets, k).value);
      if !ok {
        LexicalStuck(lets, k + 1, |lets|);
        return;
      }
    }
    TurnedStart(s.entries, ev);
    QueuedSame(s.entries, old(s.entries), ev);
    AllSeen(s.entries, s.values, Lexical(lets, |lets|).value, ev);
    ok := true;
  }

  lemma NothingYet(t: Table, values: map<Site, Val>, lets: seq<Let>)
    ensures Lexical(lets, 0) == Some(map[]) && Agree(t, values, map[], EventsOf(lets), 0)
  {
  }

  lemma AllSeen(t: Table, values: map<Site, Val>, env: Env, ev: Events)
    requires Agree(t, values, env, ev, |ev|)
    ensures forall n | n in env :: Sees(t, values, n, env[n])
  {
  }

  // ----- rotation as a whole -----

  /** Rotating back only part of the pattern is wrong: a name of the let that is left out is
      seen at the very let that is being evaluated, not at its last declaration before. */
  lemma PartialRotation(t: Table, ev: Events, k: nat, part: seq<nat>, n: nat)
    requires k < |ev| && Distinct(ev[k]) && TurnedTo(t, ev, k) && n in ev[k] && n !in part
    ensures Current(RotateNames(RotateNames(t, ev[k], false), part, true), n) == (n, k)
  {
    hide TurnedTo, RotateNames, Distinct;
    var t1 := RotateNames(t, ev[k], false);
    Forward(t, ev, k);
    assert Sites(ev, k + 1, n) != [] by { assert k in Sites(ev, k + 1, n); }
    UseSees(t1, ev, k + 1, n);
    RotateNamesAt(t1, part, true, n);
    assert multiset(part)[n] == 0;
    assert Times(t1[n].sh, 0, true) == t1[n].sh;
  }
}
