/** Shadowing across the two passes.  Pass 1 queues every declaration of a name in the name's
    one symbol entry; pass 2 replays the queue by rotating it. */
module Shadowing {
  import opened Syntax
  import opened Patterns

  /** The declarations of one name, each known by the number of the let that makes it. */
  datatype Shielding = Shielding(current: nat, varlist: seq<nat>)

  datatype Entry = Variable(sh: Shielding) | Other

  type Table = map<nat, Entry>

  /** The names a pattern declares, in order. */
  function VarNames(p: Pattern): seq<nat> {
    match p
    case PVar(_, name, more) => [name] + more
    case PTuple(_, _, more, items) => more + ItemNames(items)
    case PStruct(_, _, more, items) => more + ItemNames(items)
    case PIgnore(_) => []
    case PRest(_) => []
  }

  function ItemNames(items: seq<Pattern>): seq<nat> {
    if items == [] then [] else ItemNames(items[..|items| - 1]) + VarNames(items[|items| - 1])
  }

  // ----- one entry -----

  function Rotate(s: Shielding, back: bool): Shielding {
    if s.varlist == [] then s
    else if back then Shielding(s.varlist[|s.varlist| - 1], [s.current] + s.varlist[..|s.varlist| - 1])
    else Shielding(s.varlist[0], s.varlist[1..] + [s.current])
  }

  /** The queue with the current declaration last. */
  function Order(s: Shielding): (r: seq<nat>)
    ensures r != [] && r[|r| - 1] == s.current
  {
    s.varlist + [s.current]
  }

  /** A rotation turns the queue round by one place. */
  lemma RotateOrder(s: Shielding)
    ensures Order(Rotate(s, false)) == Order(s)[1..] + [Order(s)[0]]
    ensures Order(Rotate(s, true)) == [s.current] + s.varlist
  {
  }

  // ----- the whole table -----

  function RotateName(t: Table, n: nat, back: bool): Table {
    if n in t && t[n].Variable? then t[n := Variable(Rotate(t[n].sh, back))] else t
  }

  function RotateNames(t: Table, names: seq<nat>, back: bool): Table {
    if names == [] then t
    else RotateName(RotateNames(t, names[..|names| - 1], back), names[|names| - 1], back)
  }

  function Times(s: Shielding, k: nat, back: bool): Shielding {
    if k == 0 then s else Rotate(Times(s, k - 1, back), back)
  }

  lemma {:induction false} TimesInner(s: Shielding, k: nat, back: bool)
    ensures Times(Rotate(s, back), k, back) == Rotate(Times(s, k, back), back)
  {
    if k > 0 {
      TimesInner(s, k - 1, back);
    }
  }

  lemma TimesStep(s: Shielding, k: nat, back: bool)
    requires k > 0
    ensures Times(s, k, back) == Rotate(Times(s, k - 1, back), back)
  {
  }

  lemma RotateUndo(s: Shielding, back: bool)
    ensures Rotate(Rotate(s, back), !back) == s
  {
  }

  lemma {:induction false} TimesUndo(s: Shielding, k: nat, back: bool, forth: bool)
    requires forth == !back
    ensures Times(Times(s, k, back), k, forth) == s
  {
    hide Rotate, Times;
    if k == 0 {
      TimesNone(s, back);
      TimesNone(s, forth);
    } else {
      var s1 := Times(s, k - 1, back);
      var s2 := Rotate(s1, back);
      calc {
        Times(Times(s, k, back), k, forth);
        { TimesStep(s, k, back); }
        Times(s2, k, forth);
        { TimesStep(s2, k, forth); TimesInner(s2, k - 1, forth); }
        Times(Rotate(s2, forth), k - 1, forth);
        { RotateUndo(s1, back); }
        Times(s1, k - 1, forth);
        { TimesUndo(s, k - 1, back, forth); }
        s;
      }
    }
  }

  lemma TimesNone(s: Shielding, back: bool)
    ensures Times(s, 0, back) == s
  {
  }

  /** Each entry is turned as often as its name occurs. */
  lemma {:induction false} RotateNamesAt(t: Table, names: seq<nat>, back: bool, n: nat)
    ensures RotateNames(t, names, back).Keys == t.Keys
    ensures n in t && t[n].Variable? ==>
            RotateNames(t, names, back)[n] == Variable(Times(t[n].sh, multiset(names)[n], back))
    ensures n in t && t[n].Other? ==> RotateNames(t, names, back)[n] == t[n]
  {
    if names != [] {
      var init, last := names[..|names| - 1], names[|names| - 1];
      RotateNamesAt(t, init, back, n);
      RotateNamesAt(t, init, back, last);
      assert names == init + [last];
    }
  }

  /** Rotating a pattern forward and then backward, or the other way round, is the identity
      on the whole table, for any pattern tree and any table. */
  lemma RotateInverse(t: Table, names: seq<nat>, back: bool)
    ensures RotateNames(RotateNames(t, names, back), names, !back) == t
  {
    var t1 := RotateNames(t, names, back);
    var t2 := RotateNames(t1, names, !back);
    forall n
      ensures (n in t2 <==> n in t) && (n in t ==> t2[n] == t[n])
    {
      RotateNamesAt(t, names, back, n);
      RotateNamesAt(t1, names, !back, n);
      if n in t && t[n].Variable? {
        TimesUndo(t[n].sh, multiset(names)[n], back, !back);
      }
    }
  }

  // ----- pass 1 -----

  predicate Distinct(names: seq<nat>) {
    forall i, j | 0 <= i < j < |names| :: names[i] != names[j]
  }

  /** Declares a name: a new entry, or the old current joins the queue. */
  function Register(t: Table, n: nat, site: nat): Table
    requires n in t ==> t[n].Variable?
  {
    t[n := Variable(Shielding(site, if n in t then Order(t[n].sh) else []))]
  }

  /** All names of one let; None for a name twice in one binding or a name that is not a
      variable. */
  function RegisterNames(t: Table, names: seq<nat>, site: nat): Option<Table> {
    if names == [] then Some(t) else
    var init, n := names[..|names| - 1], names[|names| - 1];
    var t1 := RegisterNames(t, init, site);
    if t1.None? || n in init || (n in t1.value && t1.value[n].Other?) then None
    else Some(Register(t1.value, n, site))
  }

  lemma {:induction false} RegisterNamesAt(t: Table, names: seq<nat>, site: nat)
    ensures RegisterNames(t, names, site).Some? <==>
            Distinct(names) && forall n | n in names && n in t :: t[n].Variable?
    ensures RegisterNames(t, names, site).Some? ==>
            var t1 := RegisterNames(t, names, site).value;
            && (forall n | n in names ::
                n in t1 && t1[n] == Variable(Shielding(site, if n in t then Order(t[n].sh) else [])))
            && (forall n | n !in names :: (n in t1 <==> n in t) && (n in t ==> t1[n] == t[n]))
  {
    if names != [] {
      var init, n := names[..|names| - 1], names[|names| - 1];
      RegisterNamesAt(t, init, site);
      assert names == init + [n];
      assert Distinct(names) <==> Distinct(init) && n !in init by {
        if Distinct(names) {
          forall i, j | 0 <= i < j < |init|
            ensures init[i] != init[j]
          {
            assert names[i] == init[i] && names[j] == init[j];
          }
          forall i | 0 <= i < |init|
            ensures init[i] != n
          {
            assert names[i] == init[i] && names[|init|] == n;
          }
        }
      }
    }
  }

  /** The lets of a scope, known by the names each declares. */
  type Events = seq<seq<nat>>

  /** The lets before k that declare n, in order. */
  function Sites(ev: Events, k: nat, n: nat): (r: seq<nat>)
    requires k <= |ev|
    ensures forall j | j in r :: j < k && n in ev[j]
  {
    if k == 0 then [] else Sites(ev, k - 1, n) + if n in ev[k - 1] then [k - 1] else []
  }

  /** All of them, the earlier ones first. */
  lemma {:induction false} SitesAre(ev: Events, k: nat, n: nat)
    requires k <= |ev|
    ensures forall j | 0 <= j < k :: j in Sites(ev, k, n) <==> n in ev[j]
    ensures forall i, j | 0 <= i < j < |Sites(ev, k, n)| :: Sites(ev, k, n)[i] < Sites(ev, k, n)[j]
  {
    hide Sites;
    if k == 0 {
      NoSites(ev, n);
    } else {
      var before, all := Sites(ev, k - 1, n), Sites(ev, k, n);
      SitesAre(ev, k - 1, n);
      SitesStep(ev, k, n);
      assert forall j | j in before :: j < k - 1;
      if n in ev[k - 1] {
        assert all == before + [k - 1] && all[|before|] == k - 1;
        assert forall i | 0 <= i < |before| :: all[i] == before[i] && before[i] in before;
      }
    }
  }

  lemma NoSites(ev: Events, n: nat)
    ensures Sites(ev, 0, n) == []
  {
  }

  lemma {:induction false} SitesPrefix(ev: Events, k: nat, m: nat, n: nat)
    requires k <= m <= |ev|
    ensures Sites(ev, k, n) <= Sites(ev, m, n)
    decreases m
  {
    if k < m {
      SitesPrefix(ev, k, m - 1, n);
    }
  }

  function RegisterAll(t: Table, ev: Events, k: nat): Option<Table>
    requires k <= |ev|
  {
    if k == 0 then Some(t) else
    var t1 := RegisterAll(t, ev, k - 1);
    if t1.None? then None else RegisterNames(t1.value, ev[k - 1], k - 1)
  }

  /** A scope that has no variables yet: functions and types may be there. */
  predicate Fresh(t: Table) {
    forall n | n in t :: t[n].Other?
  }

  /** Pass 1 after k lets: each declared name queues its declarations in order. */
  ghost predicate Queued(t: Table, ev: Events, k: nat)
    requires k <= |ev|
  {
    forall n :: (Sites(ev, k, n) != [] <==> n in t && t[n].Variable?) &&
                (Sites(ev, k, n) != [] ==> Order(t[n].sh) == Sites(ev, k, n))
  }

  /** Pass 1 succeeds if and only if no let declares a name twice and no declared name is
      something else in this scope; it leaves every name's declarations in a queue. */
  lemma {:induction false} RegisterAllIff(t: Table, ev: Events, k: nat)
    requires Fresh(t) && k <= |ev|
    ensures RegisterAll(t, ev, k).Some? <==>
            forall j | 0 <= j < k :: Distinct(ev[j]) && forall n | n in ev[j] :: n !in t
    ensures RegisterAll(t, ev, k).Some? ==>
            var t1 := RegisterAll(t, ev, k).value;
            Queued(t1, ev, k) && (forall n | n in t :: n in t1 && t1[n] == t[n]) &&
                (forall n | n in t1 && t1[n].Other? :: n in t)
  {
    hide RegisterNames, Queued, Distinct;
    if k == 0 {
      QueuedStart(t, ev);
    } else {
      RegisterAllIff(t, ev, k - 1);
      var t0 := RegisterAll(t, ev, k - 1);
      if t0.Some? {
        RegisterMore(t, t0.value, ev, k);
      }
    }
  }

  lemma RegisterMore(t: Table, t0: Table, ev: Events, k: nat)
    requires Fresh(t) && 0 < k <= |ev| && Queued(t0, ev, k - 1)
    requires (forall n | n in t :: n in t0 && t0[n] == t[n]) && forall n | n in t0 && t0[n].Other? :: n in t
    ensures var t1 := RegisterNames(t0, ev[k - 1], k - 1);
            && (t1.Some? <==> Distinct(ev[k - 1]) && forall n | n in ev[k - 1] :: n !in t)
            && (t1.Some? ==> Queued(t1.value, ev, k) && (forall n | n in t :: n in t1.value && t1.value[n] == t[n]) &&
                             forall n | n in t1.value && t1.value[n].Other? :: n in t)
  {
    hide RegisterNames, Queued, Distinct;
    RegisterNamesAt(t0, ev[k - 1], k - 1);
    var t1 := RegisterNames(t0, ev[k - 1], k - 1);
    assert (forall n | n in ev[k - 1] && n in t0 :: t0[n].Variable?) <==> forall n | n in ev[k - 1] :: n !in t;
    if t1.Some? {
      QueuedStep(t0, t1.value, ev, k);
    }
  }

  lemma QueuedStart(t: Table, ev: Events)
    requires Fresh(t)
    ensures Queued(t, ev, 0)
  {
  }

  lemma QueuedStep(t: Table, t1: Table, ev: Events, k: nat)
    requires 0 < k <= |ev| && Queued(t, ev, k - 1)
    requires forall n | n in ev[k - 1] ::
               n in t1 && t1[n] == Variable(Shielding(k - 1, if n in t && t[n].Variable? then Order(t[n].sh) else []))
    requires forall n | n !in ev[k - 1] :: (n in t1 <==> n in t) && (n in t ==> t1[n] == t[n])
    ensures Queued(t1, ev, k)
  {
    hide Sites;
    forall n
      ensures Sites(ev, k, n) != [] <==> n in t1 && t1[n].Variable?
      ensures Sites(ev, k, n) != [] ==> Order(t1[n].sh) == Sites(ev, k, n)
    {
      SitesStep(ev, k, n);
      if n in ev[k - 1] {
        assert Order(t1[n].sh) == Sites(ev, k - 1, n) + [k - 1];
      }
    }
  }

  lemma SitesStep(ev: Events, k: nat, n: nat)
    requires 0 < k <= |ev|
    ensures Sites(ev, k, n) == if n in ev[k - 1] then Sites(ev, k - 1, n) + [k - 1] else Sites(ev, k - 1, n)
  {
  }

  // ----- pass 2 -----

  /** Pass 2 before let k, n's declarations being numbered `all`: the queue starts with those
      still to come and ends with the last one made. */
  ghost predicate TurnedTo(t: Table, ev: Events, k: nat)
    requires k <= |ev|
  {
    forall n :: (Sites(ev, |ev|, n) != [] <==> n in t && t[n].Variable?) &&
                (Sites(ev, |ev|, n) != [] ==> TurnedAt(t[n].sh, ev, k, n))
  }

  ghost predicate TurnedAt(s: Shielding, ev: Events, k: nat, n: nat)
    requires k <= |ev|
  {
    var all, made := Sites(ev, |ev|, n), Sites(ev, k, n);
    |made| <= |all| && Order(s) == all[|made|..] + made
  }

  /** The end of pass 1 is the start of pass 2, and so is the end of pass 2: after the last
      let every entry is back, and the scope can be walked again. */
  lemma TurnedStart(t: Table, ev: Events)
    ensures Queued(t, ev, |ev|) <==> TurnedTo(t, ev, 0)
    ensures Queued(t, ev, |ev|) <==> TurnedTo(t, ev, |ev|)
  {
    forall n
      ensures Sites(ev, |ev|, n)[0..] + Sites(ev, 0, n) == Sites(ev, |ev|, n)
      ensures Sites(ev, |ev|, n)[|Sites(ev, |ev|, n)|..] + Sites(ev, |ev|, n) == Sites(ev, |ev|, n)
    {
    }
  }

  /** Order is all there is to an entry. */
  lemma OrderIs(s: Shielding, s1: Shielding)
    requires Order(s) == Order(s1)
    ensures s == s1
  {
    assert s.varlist == Order(s)[..|Order(s)| - 1];
    assert s1.varlist == Order(s1)[..|Order(s1)| - 1];
  }

  /** Two queued tables with the same other entries are equal: the start state is restored
      exactly. */
  lemma QueuedSame(t: Table, t1: Table, ev: Events)
    requires Queued(t, ev, |ev|) && Queued(t1, ev, |ev|) && t.Keys == t1.Keys
    ensures t == t1
  {
    forall n | n in t
      ensures t[n] == t1[n]
    {
      if t[n].Variable? {
        assert Sites(ev, |ev|, n) != [];
        OrderIs(t[n].sh, t1[n].sh);
      } else {
        assert t1[n].Other?;
      }
    }
  }

  lemma CountDistinct(names: seq<nat>, n: nat)
    requires Distinct(names)
    ensures multiset(names)[n] == if n in names then 1 else 0
  {
    if names != [] {
      var init, last := names[..|names| - 1], names[|names| - 1];
      assert names == init + [last];
      assert forall i | 0 <= i < |init| :: init[i] == names[i];
      CountDistinct(init, n);
      assert last !in init;
    }
  }

  /** Rotating let k's pattern forward makes its declarations the current ones. */
  lemma Forward(t: Table, ev: Events, k: nat)
    requires k < |ev| && Distinct(ev[k]) && TurnedTo(t, ev, k)
    ensures TurnedTo(RotateNames(t, ev[k], false), ev, k + 1)
  {
    hide TurnedAt, Distinct, RotateNames;
    var t1 := RotateNames(t, ev[k], false);
    forall n
      ensures n in t <==> n in t1
      ensures n in t ==> (t[n].Variable? <==> t1[n].Variable?)
      ensures Sites(ev, |ev|, n) != [] ==> TurnedAt(t1[n].sh, ev, k + 1, n)
    {
      RotateNamesAt(t, ev[k], false, n);
      CountDistinct(ev[k], n);
      if Sites(ev, |ev|, n) != [] {
        if n in ev[k] {
          TimesOnce(t[n].sh, false);
          TurnOnce(t[n].sh, ev, k, n);
        } else {
          TurnNone(t[n].sh, ev, k, n);
        }
      }
    }
  }

  lemma TimesOnce(s: Shielding, back: bool)
    ensures Times(s, 1, back) == Rotate(s, back)
  {
    assert Times(s, 0, back) == s;
  }

  lemma TurnOnce(s: Shielding, ev: Events, k: nat, n: nat)
    requires k < |ev| && n in ev[k] && TurnedAt(s, ev, k, n)
    ensures TurnedAt(Rotate(s, false), ev, k + 1, n)
  {
    var all, made := Sites(ev, |ev|, n), Sites(ev, k, n);
    SitesPrefix(ev, k + 1, |ev|, n);
    RotateOrder(s);
    assert Sites(ev, k + 1, n) == made + [k];
    assert all[|made|] == k;
    assert Order(s)[1..] + [Order(s)[0]] == all[|made| + 1..] + (made + [k]);
  }

  lemma TurnNone(s: Shielding, ev: Events, k: nat, n: nat)
    requires k < |ev| && n !in ev[k] && TurnedAt(s, ev, k, n)
    ensures TurnedAt(s, ev, k + 1, n)
  {
    assert Sites(ev, k + 1, n) == Sites(ev, k, n);
  }

  /** Rotating it back shows the right-hand side the state before the let. */
  lemma Backward(t: Table, ev: Events, k: nat)
    requires k < |ev| && Distinct(ev[k]) && TurnedTo(t, ev, k)
    ensures RotateNames(RotateNames(t, ev[k], false), ev[k], true) == t
  {
    RotateInverse(t, ev[k], false);
  }

  /** What a use of n sees with k lets made: the last declaration before. */
  lemma UseSees(t: Table, ev: Events, k: nat, n: nat)
    requires k <= |ev| && TurnedTo(t, ev, k) && Sites(ev, k, n) != []
    ensures n in t && t[n].Variable?
    ensures var j := t[n].sh.current;
            j < k && n in ev[j] && forall i | j < i < k :: n !in ev[i]
  {
    hide Sites;
    SitesPrefix(ev, k, |ev|, n);
    var made := Sites(ev, k, n);
    assert Sites(ev, |ev|, n) != [];
    assert TurnedAt(t[n].sh, ev, k, n);
    assert Order(t[n].sh)[|Order(t[n].sh)| - 1] == made[|made| - 1];
    assert t[n].sh.current == made[|made| - 1];
    LastSite(ev, k, n);
  }

  lemma {:induction false} LastSite(ev: Events, k: nat, n: nat)
    requires k <= |ev| && Sites(ev, k, n) != []
    ensures var made := Sites(ev, k, n); var j := made[|made| - 1];
            j < k && n in ev[j] && forall i | j < i < k :: n !in ev[i]
  {
    if n in ev[k - 1] {
      assert Sites(ev, k, n) == Sites(ev, k - 1, n) + [k - 1];
    } else {
      assert Sites(ev, k, n) == Sites(ev, k - 1, n);
      LastSite(ev, k - 1, n);
    }
  }
}
