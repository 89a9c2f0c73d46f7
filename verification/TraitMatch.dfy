/** Which methods of a trait an implementation takes over, and which it leaves to defaults. */
module TraitMatch {
  import opened Syntax

  predicate Ascending(s: seq<nat>) {
    forall i, j | 0 <= i < j < |s| :: s[i] < s[j]
  }

  function Among(s: seq<nat>): set<nat> {
    set x | x in s
  }

  /** The merge of two sorted key lists: the keys of the first that are not in the second. */
  method SetDifference(s1: seq<nat>, s2: seq<nat>) returns (diff: set<nat>)
    requires Ascending(s1) && Ascending(s2)
    ensures diff == Among(s1) - Among(s2)
  {
    diff := {};
    var i, j := 0, 0;
    while i < |s1| && j < |s2|
      invariant 0 <= i <= |s1| && 0 <= j <= |s2|
      invariant forall x | x in diff :: x in s1[..i] && x !in s2
      invariant forall k | 0 <= k < i :: s1[k] in diff || s1[k] in s2
      invariant forall k, m | i <= k < |s1| && 0 <= m < j :: s2[m] < s1[k]
      decreases |s1| - i + |s2| - j
    {
      if s1[i] < s2[j] {
        assert s1[i] !in s2 by {
          assert forall m | 0 <= m < |s2| :: s2[m] != s1[i];
        }
        diff := diff + {s1[i]};
        i := i + 1;
      } else if s1[i] == s2[j] {
        i := i + 1;
        j := j + 1;
      } else {
        j := j + 1;
      }
    }
    while i < |s1|
      invariant 0 <= i <= |s1| && (j == |s2| || i == |s1|)
      invariant forall x | x in diff :: x in s1[..i] && x !in s2
      invariant forall k | 0 <= k < i :: s1[k] in diff || s1[k] in s2
      invariant forall k, m | i <= k < |s1| && 0 <= m < j :: s2[m] < s1[k]
    {
      diff := diff + {s1[i]};
      i := i + 1;
    }
  }

  /** A method of a trait: its name, and whether it has a default body. */
  datatype FnNode = FnNode(name: nat, hasBody: bool)

  datatype TraitInfo = TraitInfo(fnnodes: map<nat, FnNode>, withDef: set<nat>, noDef: set<nat>)

  /** What a trait's entry says about its methods; of two with one name the first is kept. */
  ghost predicate Describes(info: TraitInfo, nodes: seq<FnNode>) {
    && (forall n :: n in info.fnnodes <==> exists i :: 0 <= i < |nodes| && nodes[i].name == n)
    && (forall n | n in info.fnnodes :: info.fnnodes[n] in nodes && info.fnnodes[n].name == n)
    && (forall n :: n in info.withDef <==> exists i :: 0 <= i < |nodes| && nodes[i] == FnNode(n, true))
    && (forall n :: n in info.noDef <==> exists i :: 0 <= i < |nodes| && nodes[i] == FnNode(n, false))
  }

  method CreateTraitEntry(nodes: seq<FnNode>) returns (info: TraitInfo)
    ensures Describes(info, nodes)
  {
    hide Describes;
    info := TraitInfo(map[], {}, {});
    DescribesNone();
    for k := 0 to |nodes|
      invariant Describes(info, nodes[..k])
    {
      var f := nodes[k];
      var fnnodes := if f.name in info.fnnodes then info.fnnodes else info.fnnodes[f.name := f];
      ghost var was := info;
      info := if f.hasBody then TraitInfo(fnnodes, info.withDef + {f.name}, info.noDef)
              else TraitInfo(fnnodes, info.withDef, info.noDef + {f.name});
      DescribesMore(was, info, nodes[..k], f);
      assert nodes[..k + 1] == nodes[..k] + [f];
    }
    assert nodes[..|nodes|] == nodes;
  }

  lemma DescribesNone()
    ensures Describes(TraitInfo(map[], {}, {}), [])
  {
  }

  lemma DescribesMore(was: TraitInfo, info: TraitInfo, nodes: seq<FnNode>, f: FnNode)
    requires Describes(was, nodes)
    requires info.fnnodes == if f.name in was.fnnodes then was.fnnodes else was.fnnodes[f.name := f]
    requires info.withDef == if f.hasBody then was.withDef + {f.name} else was.withDef
    requires info.noDef == if f.hasBody then was.noDef else was.noDef + {f.name}
    ensures Describes(info, nodes + [f])
  {
    var more := nodes + [f];
    assert more[|nodes|] == f;
    assert forall i | 0 <= i < |nodes| :: more[i] == nodes[i];
  }

  // ----- checking an implementation -----

  /** Accepted: only methods of the trait, each with the right signature, and all that have no
      default body. */
  predicate Matches(info: TraitInfo, impls: seq<nat>, sigOk: set<nat>) {
    && (forall n | n in impls :: n in info.fnnodes && n in sigOk)
    && (forall n | n in info.fnnodes && n in info.noDef :: n in impls)
  }

  /** In terms of the trait as written: every method that is implemented is declared by the
      trait and has its signature, and every one declared without a body is implemented. */
  lemma MatchesMeans(nodes: seq<FnNode>, info: TraitInfo, impls: seq<nat>, sigOk: set<nat>)
    requires Describes(info, nodes)
    ensures Matches(info, impls, sigOk) <==>
            && (forall n | n in impls :: (exists f | f in nodes :: f.name == n) && n in sigOk)
            && (forall f | f in nodes && !f.hasBody :: f.name in impls)
  {
    forall n
      ensures n in info.fnnodes <==> exists f | f in nodes :: f.name == n
    {
      if f :| f in nodes && f.name == n {
        var i :| 0 <= i < |nodes| && nodes[i] == f;
        assert nodes[i].name == n;
      }
      if n in info.fnnodes {
        assert info.fnnodes[n] in nodes;
      }
    }
    forall n
      ensures n in info.fnnodes && n in info.noDef <==> FnNode(n, false) in nodes
    {
      if FnNode(n, false) in nodes {
        var i :| 0 <= i < |nodes| && nodes[i] == FnNode(n, false);
        assert nodes[i].name == n;
      }
    }
    forall f | f in nodes && !f.hasBody
      ensures f == FnNode(f.name, false)
    {
    }
  }

  /** An implementation that leaves everything to defaults is accepted exactly when the trait has
      a body for every method; one wrong signature is enough to be refused. */
  lemma OnlyDefaults(nodes: seq<FnNode>, info: TraitInfo, sigOk: set<nat>)
    requires Describes(info, nodes)
    ensures Matches(info, [], sigOk) <==> forall f | f in nodes :: f.hasBody
    ensures forall impls: seq<nat>, n | n in impls && n !in sigOk :: !Matches(info, impls, sigOk)
  {
    MatchesMeans(nodes, info, [], sigOk);
  }

  /** The keys that are in s, in order. */
  function Kept(keys: seq<nat>, s: set<nat>): seq<nat> {
    if keys == [] then [] else
    Kept(keys[..|keys| - 1], s) + if keys[|keys| - 1] in s then [keys[|keys| - 1]] else []
  }

  lemma AmongSnoc(s: seq<nat>, x: nat)
    ensures Among(s + [x]) == Among(s) + {x}
  {
  }

  lemma {:induction false} KeptIs(keys: seq<nat>, s: set<nat>)
    requires Ascending(keys)
    ensures Ascending(Kept(keys, s)) && Among(Kept(keys, s)) == Among(keys) * s
  {
    if keys != [] {
      var init, last := keys[..|keys| - 1], keys[|keys| - 1];
      assert keys == init + [last];
      KeptIs(init, s);
      AmongSnoc(init, last);
      AmongSnoc(Kept(init, s), last);
      assert Kept(init, s) + [] == Kept(init, s);
      forall i | 0 <= i < |Kept(init, s)|
        ensures Kept(init, s)[i] < last
      {
        assert Kept(init, s)[i] in Among(Kept(init, s));
        var j :| 0 <= j < |init| && init[j] == Kept(init, s)[i];
        assert keys[j] == init[j];
      }
    }
  }

  function NamesOf(defaults: seq<(nat, FnNode)>): seq<nat> {
    seq(|defaults|, i requires 0 <= i < |defaults| => defaults[i].0)
  }

  /** The defaults are the trait's other methods, each once, each with its node. */
  predicate Chosen(info: TraitInfo, impls: seq<nat>, defaults: seq<(nat, FnNode)>) {
    && Ascending(NamesOf(defaults)) && Among(NamesOf(defaults)) == info.fnnodes.Keys - Among(impls)
    && forall i | 0 <= i < |defaults| :: defaults[i].0 in info.fnnodes && defaults[i].1 == info.fnnodes[defaults[i].0]
  }

  /** `keys` are the trait's method names in the order of the map, `sigOk` the names whose
      signatures agree. */
  method CheckImplMatch(info: TraitInfo, keys: seq<nat>, impls: seq<nat>, sigOk: set<nat>)
    returns (defaults: Option<seq<(nat, FnNode)>>)
    requires Ascending(keys) && Among(keys) == info.fnnodes.Keys
    ensures defaults.Some? <==> Matches(info, impls, sigOk)
    ensures defaults.Some? ==> Chosen(info, impls, defaults.value)
  {
    var ok, fnids := CollectImpls(info, impls, sigOk);
    if !ok {
      return None;
    }
    var missing := SetDifference(keys, fnids);
    assert missing == info.fnnodes.Keys - Among(impls);
    if exists n | n in missing :: n in info.noDef {
      var n :| n in missing && n in info.noDef;
      assert n in info.fnnodes && n !in impls;
      return None;
    }
    KeptIs(keys, missing);
    var chosen := UseDefaults(info, keys, missing);
    assert NamesOf(chosen) == Kept(keys, missing);
    forall i | 0 <= i < |chosen|
      ensures chosen[i].0 in info.fnnodes
    {
      assert chosen[i].0 in Among(Kept(keys, missing));
    }
    defaults := Some(chosen);
  }

  method CollectImpls(info: TraitInfo, impls: seq<nat>, sigOk: set<nat>) returns (ok: bool, fnids: seq<nat>)
    ensures ok <==> forall n | n in impls :: n in info.fnnodes && n in sigOk
    ensures ok ==> Ascending(fnids) && Among(fnids) == Among(impls)
  {
    fnids := [];
    for i := 0 to |impls|
      invariant Ascending(fnids) && Among(fnids) == Among(impls[..i])
      invariant forall k | 0 <= k < i :: impls[k] in info.fnnodes && impls[k] in sigOk
    {
      if impls[i] !in info.fnnodes || impls[i] !in sigOk {
        return false, fnids;
      }
      assert impls[..i + 1] == impls[..i] + [impls[i]];
      fnids := SetInsert(fnids, impls[i]);
    }
    assert impls[..|impls|] == impls;
    ok := true;
  }

  method UseDefaults(info: TraitInfo, keys: seq<nat>, missing: set<nat>) returns (chosen: seq<(nat, FnNode)>)
    requires Among(keys) == info.fnnodes.Keys
    ensures |chosen| == |Kept(keys, missing)|
    ensures forall i | 0 <= i < |chosen| ::
              chosen[i].0 == Kept(keys, missing)[i] && chosen[i].0 in info.fnnodes &&
                  chosen[i].1 == info.fnnodes[chosen[i].0]
  {
    chosen := [];
    for k := 0 to |keys|
      invariant |chosen| == |Kept(keys[..k], missing)|
      invariant forall i | 0 <= i < |chosen| ::
                  chosen[i].0 == Kept(keys[..k], missing)[i] && chosen[i].0 in info.fnnodes &&
                      chosen[i].1 == info.fnnodes[chosen[i].0]
    {
      assert keys[..k + 1][..k] == keys[..k] && keys[k] in Among(keys);
      if keys[k] in missing {
        chosen := chosen + [(keys[k], info.fnnodes[keys[k]])];
      }
    }
    assert keys[..|keys|] == keys;
  }

  /** Inserting into a sorted set keeps it sorted. */
  method SetInsert(s: seq<nat>, x: nat) returns (r: seq<nat>)
    requires Ascending(s)
    ensures Ascending(r) && Among(r) == Among(s) + {x}
  {
    var i := 0;
    while i < |s| && s[i] < x
      invariant 0 <= i <= |s| && forall k | 0 <= k < i :: s[k] < x
    {
      i := i + 1;
    }
    if i < |s| && s[i] == x {
      return s;
    }
    r := s[..i] + [x] + s[i..];
    InsertAscends(s, x, i);
  }

  lemma InsertAscends(s: seq<nat>, x: nat, i: nat)
    requires Ascending(s) && i <= |s| && (forall k | 0 <= k < i :: s[k] < x) && (i < |s| ==> x < s[i])
    ensures Ascending(s[..i] + [x] + s[i..]) && Among(s[..i] + [x] + s[i..]) == Among(s) + {x}
  {
    hide Ascending;
    var a, b := s[..i], s[i..];
    assert s == a + b;
    AmongInsert(a, x, b);
    assert Ascending(a + [x] + b) by {
      assert forall k | 0 <= k < |b| :: b[k] == s[i + k];
      SortedAround(a, x, b, s);
    }
  }

  lemma AmongInsert(a: seq<nat>, x: nat, b: seq<nat>)
    ensures Among(a + [x] + b) == Among(a + b) + {x}
  {
    forall y
      ensures y in a + [x] + b <==> y in a + b || y == x
    {
    }
  }

  lemma SortedAround(a: seq<nat>, x: nat, b: seq<nat>, s: seq<nat>)
    requires s == a + b && Ascending(s) && (forall k | 0 <= k < |a| :: a[k] < x) && (b != [] ==> x < b[0])
    ensures Ascending(a + [x] + b)
  {
    var r := a + [x] + b;
    forall j, k | 0 <= j < k < |r|
      ensures r[j] < r[k]
    {
      var j1, k1 := if j < |a| then j else j - 1, if k < |a| then k else k - 1;
      if j < |a| && k != |a| {
        assert r[j] == s[j] && r[k] == s[k1];
      } else if j > |a| {
        assert r[j] == s[j1] && r[k] == s[k1];
      } else if j == |a| {
        assert r[k] == s[k1] && s[|a|] == b[0];
      }
    }
  }

  /** When the check accepts, the explicit methods and the chosen defaults are disjoint, cover
      the trait exactly, and every default that is used has a body. */
  lemma Coverage(nodes: seq<FnNode>, info: TraitInfo, impls: seq<nat>, sigOk: set<nat>, defaults: seq<(nat, FnNode)>)
    requires Describes(info, nodes) && Matches(info, impls, sigOk) && Chosen(info, impls, defaults)
    ensures Among(NamesOf(defaults)) !! Among(impls)
    ensures Among(NamesOf(defaults)) + Among(impls) == set f | f in nodes :: f.name
    ensures forall i | 0 <= i < |defaults| :: defaults[i].1 in nodes && defaults[i].1.hasBody
  {
    forall n
      ensures n in info.fnnodes <==> n in set f | f in nodes :: f.name
    {
      if n in info.fnnodes {
        assert info.fnnodes[n] in nodes;
      }
      if f :| f in nodes && f.name == n {
        var i :| 0 <= i < |nodes| && nodes[i] == f;
        assert nodes[i].name == n;
      }
    }
    forall i | 0 <= i < |defaults|
      ensures defaults[i].1 in nodes && defaults[i].1.hasBody
    {
      var n, f := defaults[i].0, defaults[i].1;
      assert NamesOf(defaults)[i] == n;
      assert n in Among(NamesOf(defaults));
      assert n !in info.noDef;
      assert f in nodes && f.name == n;
      var k :| 0 <= k < |nodes| && nodes[k] == f;
      assert nodes[k] != FnNode(n, false);
    }
  }
}
