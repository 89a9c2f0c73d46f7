/** The scope's symbol table as the parser and the walker update it. */
module LetWalk {
  import opened Syntax
  import opened Patterns
  import opened Shadowing
  import opened LetScope

  /** A declaration: a name and the let that makes it. */
  type Site = (nat, nat)

  function Current(t: Table, n: nat): Site {
    (n, if n in t && t[n].Variable? then t[n].sh.current else 0)
  }

  /** Assigns each name's current declaration. */
  function Put<T>(m: map<Site, T>, t: Table, bs: seq<(nat, T)>): map<Site, T> {
    if bs == [] then m else Put(m, t, bs[..|bs| - 1])[Current(t, bs[|bs| - 1].0) := bs[|bs| - 1].1]
  }

  lemma {:induction false} PutConcat<T>(m: map<Site, T>, t: Table, a: seq<(nat, T)>, b: seq<(nat, T)>)
    ensures Put(m, t, a + b) == Put(Put(m, t, a), t, b)
    decreases b
  {
    if b == [] {
      assert a + b == a;
    } else {
      PutConcat(m, t, a, b[..|b| - 1]);
      assert (a + b)[..|a + b| - 1] == a + b[..|b| - 1];
    }
  }

  lemma {:induction false} RotateConcat(t: Table, a: seq<nat>, b: seq<nat>, back: bool)
    ensures RotateNames(t, a + b, back) == RotateNames(RotateNames(t, a, back), b, back)
    decreases b
  {
    if b == [] {
      assert a + b == a;
    } else {
      RotateConcat(t, a, b[..|b| - 1], back);
      assert (a + b)[..|a + b| - 1] == a + b[..|b| - 1];
    }
  }

  lemma {:induction false} RegisterFails(t: Table, a: seq<nat>, b: seq<nat>, site: nat)
    requires RegisterNames(t, a, site).None?
    ensures RegisterNames(t, a + b, site).None?
    decreases b
  {
    if b == [] {
      assert a + b == a;
    } else {
      RegisterFails(t, a, b[..|b| - 1], site);
      assert (a + b)[..|a + b| - 1] == a + b[..|b| - 1];
    }
  }

  function Among(names: seq<nat>): set<nat> {
    set x | x in names
  }

  class Scope {
    var entries: Table
    var types: map<Site, DType>
    var values: map<Site, Val>

    // ----- pass 1 -----

    /** Declares one name of a binding; `seen` are the binding's names so far. */
    method RegisterVariable(n: nat, site: nat, seen: set<nat>, ghost t0: Table, ghost done: seq<nat>)
      returns (ok: bool, seen1: set<nat>)
      requires RegisterNames(t0, done, site) == Some(entries) && seen == Among(done)
      modifies this`entries
      ensures ok <==> RegisterNames(t0, done + [n], site).Some?
      ensures ok ==> RegisterNames(t0, done + [n], site) == Some(entries) && seen1 == Among(done + [n])
    {
      assert (done + [n])[..|done|] == done;
      seen1 := seen + {n};
      if n in seen || (n in entries && entries[n].Other?) {
        return false, seen1;
      }
      if n in entries {
        var sh := entries[n].sh;
        entries := entries[n := Variable(Shielding(site, sh.varlist + [sh.current]))];
      } else {
        entries := entries[n := Variable(Shielding(site, []))];
      }
      ok := true;
    }

    method RegisterBinds(names: seq<nat>, site: nat, seen: set<nat>, ghost t0: Table, ghost done: seq<nat>)
      returns (ok: bool, seen1: set<nat>)
      requires RegisterNames(t0, done, site) == Some(entries) && seen == Among(done)
      modifies this`entries
      ensures ok <==> RegisterNames(t0, done + names, site).Some?
      ensures ok ==> RegisterNames(t0, done + names, site) == Some(entries) && seen1 == Among(done + names)
    {
      hide RegisterNames, Among;
      seen1 := seen;
      assert done + names[..0] == done;
      for i := 0 to |names|
        invariant RegisterNames(t0, done + names[..i], site) == Some(entries) && seen1 == Among(done + names[..i])
      {
        assert done + names[..i + 1] == done + names[..i] + [names[i]];
        ok, seen1 := RegisterVariable(names[i], site, seen1, t0, done + names[..i]);
        if !ok {
          RegisterFails(t0, done + names[..i + 1], names[i + 1..], site);
          assert done + names[..i + 1] + names[i + 1..] == done + names;
          return;
        }
      }
      assert names[..|names|] == names;
      ok := true;
    }

    method RegisterPattern(p: Pattern, site: nat, seen: set<nat>, ghost t0: Table, ghost done: seq<nat>)
      returns (ok: bool, seen1: set<nat>)
      requires RegisterNames(t0, done, site) == Some(entries) && seen == Among(done)
      modifies this`entries
      decreases p, 1
      ensures ok <==> RegisterNames(t0, done + VarNames(p), site).Some?
      ensures ok ==> RegisterNames(t0, done + VarNames(p), site) == Some(entries) && seen1 == Among(done + VarNames(p))
    {
      match p
      case PVar(_, name, more) =>
        ok, seen1 := RegisterVariable(name, site, seen, t0, done);
        assert done + ([name] + more) == done + [name] + more;
        if !ok {
          RegisterFails(t0, done + [name], more, site);
          return;
        }
        ok, seen1 := RegisterBinds(more, site, seen1, t0, done + [name]);
      case PTuple(_, _, more, items) => ok, seen1 := RegisterGroup(more, items, site, seen, t0, done);
      case PStruct(_, _, more, items) => ok, seen1 := RegisterGroup(more, items, site, seen, t0, done);
      case PIgnore(_) =>
        assert done + [] == done;
        ok, seen1 := true, seen;
      case PRest(_) =>
        assert done + [] == done;
        ok, seen1 := true, seen;
    }

    method RegisterGroup(more: seq<nat>, items: seq<Pattern>, site: nat, seen: set<nat>, ghost t0: Table,
                         ghost done: seq<nat>) returns (ok: bool, seen1: set<nat>)
      requires RegisterNames(t0, done, site) == Some(entries) && seen == Among(done)
      modifies this`entries
      decreases items, 0
      ensures ok <==> RegisterNames(t0, done + (more + ItemNames(items)), site).Some?
      ensures ok ==> RegisterNames(t0, done + (more + ItemNames(items)), site) == Some(entries)
      ensures ok ==> seen1 == Among(done + (more + ItemNames(items)))
    {
      hide RegisterNames, VarNames, Among;
      ghost var all := done + (more + ItemNames(items));
      ok, seen1 := RegisterBinds(more, site, seen, t0, done);
      if !ok {
        RegisterFails(t0, done + more, ItemNames(items), site);
        assert done + more + ItemNames(items) == all;
        return;
      }
      ghost var base := done + more;
      assert base + ItemNames(items[..0]) == base;
      for i := 0 to |items|
        invariant RegisterNames(t0, base + ItemNames(items[..i]), site) == Some(entries)
        invariant seen1 == Among(base + ItemNames(items[..i]))
      {
        ghost var sofar := base + ItemNames(items[..i]);
        assert items[..i + 1][..i] == items[..i];
        assert base + ItemNames(items[..i + 1]) == sofar + VarNames(items[i]);
        ok, seen1 := RegisterPattern(items[i], site, seen1, t0, sofar);
        if !ok {
          ItemNamesConcat(items[..i + 1], items[i + 1..]);
          assert items[..i + 1] + items[i + 1..] == items;
          RegisterFails(t0, sofar + VarNames(items[i]), ItemNames(items[i + 1..]), site);
          assert sofar + VarNames(items[i]) + ItemNames(items[i + 1..]) == all;
          return;
        }
      }
      assert items[..|items|] == items;
      assert base + ItemNames(items) == all;
      ok := true;
    }

    // ----- rotation -----

    method RotateVariable(n: nat, back: bool)
      requires n in entries && entries[n].Variable?
      modifies this`entries
      ensures entries == RotateName(old(entries), n, back)
    {
      var current, varlist := entries[n].sh.current, entries[n].sh.varlist;
      if |varlist| > 0 {
        if back {
          ghost var was := varlist;
          varlist := [current] + varlist;
          current := varlist[|varlist| - 1];
          varlist := varlist[..|varlist| - 1];
          assert varlist == [old(entries[n].sh.current)] + was[..|was| - 1];
        } else {
          ghost var was := varlist;
          varlist := varlist + [current];
          current := varlist[0];
          varlist := varlist[1..];
          assert varlist == was[1..] + [old(entries[n].sh.current)];
        }
      }
      assert Shielding(current, varlist) == Rotate(entries[n].sh, back);
      entries := entries[n := Variable(Shielding(current, varlist))];
    }

    /** The names are variables of this scope, as pass 1 has made them. */
    ghost predicate Declared(names: seq<nat>)
      reads this
    {
      forall n | n in names :: n in entries && entries[n].Variable?
    }

    method RotateBinds(names: seq<nat>, back: bool)
      requires Declared(names)
      modifies this`entries
      ensures entries == RotateNames(old(entries), names, back)
    {
      for i := 0 to |names|
        invariant entries == RotateNames(old(entries), names[..i], back)
      {
        RotateNamesAt(old(entries), names[..i], back, names[i]);
        RotateVariable(names[i], back);
        assert names[..i + 1][..i] == names[..i];
      }
      assert names[..|names|] == names;
    }

    method RotatePattern(p: Pattern, back: bool)
      requires Declared(VarNames(p))
      modifies this`entries
      decreases p, 1
      ensures entries == RotateNames(old(entries), VarNames(p), back)
    {
      match p
      case PVar(_, name, more) =>
        RotateBinds([name], back);
        RotateConcat(old(entries), [name], more, back);
        Redeclared(old(entries), [name], more, back);
        RotateBinds(more, back);
      case PTuple(_, _, more, items) => RotateGroup(more, items, back);
      case PStruct(_, _, more, items) => RotateGroup(more, items, back);
      case PIgnore(_) =>
      case PRest(_) =>
    }

    method RotateGroup(more: seq<nat>, items: seq<Pattern>, back: bool)
      requires Declared(more + ItemNames(items))
      modifies this`entries
      decreases items, 0
      ensures entries == RotateNames(old(entries), more + ItemNames(items), back)
    {
      hide RotateNames, VarNames;
      assert Declared(more) by {
        assert forall n | n in more :: n in more + ItemNames(items);
      }
      RotateBinds(more, back);
      ghost var base := entries;
      RotateNothing(base, back);
      Redeclared(old(entries), more, ItemNames(items), back);
      for i := 0 to |items|
        invariant entries == RotateNames(base, ItemNames(items[..i]), back)
      {
        assert items[..i + 1][..i] == items[..i];
        ItemNamesConcat(items[..i], [items[i]]);
        ItemNamesConcat(items[..i + 1], items[i + 1..]);
        assert items[..i + 1] + items[i + 1..] == items;
        assert forall n | n in VarNames(items[i]) :: n in ItemNames(items[..i + 1]) && n in ItemNames(items);
        Redeclared(base, ItemNames(items[..i]), VarNames(items[i]), back);
        RotateConcat(base, ItemNames(items[..i]), VarNames(items[i]), back);
        RotatePattern(items[i], back);
      }
      assert items[..|items|] == items;
      RotateConcat(old(entries), more, ItemNames(items), back);
    }

    // ----- typing and binding -----

    method AssignTypes(names: seq<nat>, ty: DType)
      modifies this`types
      ensures types == Put(old(types), entries, Each(names, ty))
    {
      for i := 0 to |names|
        invariant types == Put(old(types), entries, Each(names[..i], ty))
      {
        EachSnoc(names[..i], names[i], ty);
        assert names[..i + 1] == names[..i] + [names[i]];
        types := types[Current(entries, names[i]) := ty];
      }
      assert names[..|names|] == names;
    }

    method AssignValues(names: seq<nat>, v: Val)
      modifies this`values
      ensures values == Put(old(values), entries, Each(names, v))
    {
      for i := 0 to |names|
        invariant values == Put(old(values), entries, Each(names[..i], v))
      {
        EachSnoc(names[..i], names[i], v);
        assert names[..i + 1] == names[..i] + [names[i]];
        values := values[Current(entries, names[i]) := v];
      }
      assert names[..|names|] == names;
    }

    method DetermineType(p: Pattern, t: DType) returns (ok: bool)
      modifies this`types
      decreases p, 1
      ensures ok <==> Determine(p, t).Some?
      ensures ok ==> types == Put(old(types), entries, Determine(p, t).value)
    {
      hide DetermineRange, DetermineParts, Each, Put;
      if !GroupOk(p, t) {
        return false;
      }
      match p
      case PVar(_, name, more) =>
        AssignTypes([name] + more, t);
        ok := true;
      case PTuple(_, _, more, items) =>
        var k := RestPos(items);
        AssignTypes(more, t);
        ok := DetermineTypeRange(items, t, 0, k, 0);
        if !ok {
          return;
        }
        ghost var a := DetermineRange(items, t, 0, k, 0).value;
        PutConcat(old(types), entries, Each(more, t), a);
        if k < |items| {
          ok := DetermineTypeRange(items, t, k + 1, |items|, |t.fields| - |items|);
          if ok {
            PutConcat(old(types), entries, Each(more, t) + a,
                      DetermineRange(items, t, k + 1, |items|, |t.fields| - |items|).value);
          }
        } else {
          assert Each(more, t) + a + [] == Each(more, t) + a;
        }
      case PStruct(_, _, more, items) =>
        AssignTypes(more, t);
        ok := DetermineTypeParts(items, t, EndPos(items));
        if ok {
          PutConcat(old(types), entries, Each(more, t), DetermineParts(items, t, EndPos(items)).value);
        }
      case PIgnore(_) =>
        PutNothing(types, entries);
        ok := true;
      case PRest(_) => ok := false;
    }

    method DetermineTypeRange(items: seq<Pattern>, t: DType, from: nat, to: nat, off: nat) returns (ok: bool)
      requires t.Agg? && from <= to <= |items| && to + off <= |t.fields|
      modifies this`types
      decreases items, 0
      ensures ok <==> DetermineRange(items, t, from, to, off).Some?
      ensures ok ==> types == Put(old(types), entries, DetermineRange(items, t, from, to, off).value)
    {
      hide Determine, Put;
      PutNothing(types, entries);
      for i := from to to
        invariant DetermineRange(items, t, from, i, off).Some?
        invariant types == Put(old(types), entries, DetermineRange(items, t, from, i, off).value)
      {
        ok := DetermineType(items[i], t.fields[i + off].ty);
        if !ok {
          RangeFails(items, t, from, i + 1, to, off);
          return;
        }
        PutConcat(old(types), entries, DetermineRange(items, t, from, i, off).value,
                  Determine(items[i], t.fields[i + off].ty).value);
      }
      ok := true;
    }

    method DetermineTypeParts(items: seq<Pattern>, t: DType, to: nat) returns (ok: bool)
      requires t.Agg? && to <= |items|
      modifies this`types
      decreases items, 0
      ensures ok <==> DetermineParts(items, t, to).Some?
      ensures ok ==> types == Put(old(types), entries, DetermineParts(items, t, to).value)
    {
      hide Determine, Put;
      PutNothing(types, entries);
      for i := 0 to to
        invariant DetermineParts(items, t, i).Some?
        invariant types == Put(old(types), entries, DetermineParts(items, t, i).value)
      {
        var pos := PartPos(t, items[i].key);
        ok := pos < |t.fields|;
        if ok {
          ok := DetermineType(items[i], t.fields[pos].ty);
        }
        if !ok {
          PartsFail(items, t, i + 1, to);
          return;
        }
        PutConcat(old(types), entries, DetermineParts(items, t, i).value, Determine(items[i], t.fields[pos].ty).value);
      }
      ok := true;
    }

    method BindValue(p: Pattern, v: Val, t: DType)
      requires Determine(p, t).Some? && HasType(v, t)
      modifies this`values
      decreases p, 1
      ensures values == Put(old(values), entries, Bind(p, v, t))
    {
      hide DetermineRange, DetermineParts, BindRange, BindParts, Each, Put, HasType;
      match p
      case PVar(_, name, more) => AssignValues([name] + more, v);
      case PTuple(_, _, more, items) =>
        var k := RestPos(items);
        AssignValues(more, v);
        BindValueRange(items, v, t, 0, k, 0);
        ghost var a := BindRange(items, v, t, 0, k, 0);
        PutConcat(old(values), entries, Each(more, v), a);
        if k < |items| {
          BindValueRange(items, v, t, k + 1, |items|, |t.fields| - |items|);
          PutConcat(old(values), entries, Each(more, v) + a,
                    BindRange(items, v, t, k + 1, |items|, |t.fields| - |items|));
        } else {
          assert Each(more, v) + a + [] == Each(more, v) + a;
        }
      case PStruct(_, _, more, items) =>
        AssignValues(more, v);
        BindValueParts(items, v, t, EndPos(items));
        PutConcat(old(values), entries, Each(more, v), BindParts(items, v, t, EndPos(items)));
      case PIgnore(_) => PutNothing(values, entries);
      case PRest(_) => PutNothing(values, entries);
    }

    method BindValueRange(items: seq<Pattern>, v: Val, t: DType, from: nat, to: nat, off: nat)
      requires t.Agg? && from <= to <= |items| && to + off <= |t.fields| && HasType(v, t)
      requires DetermineRange(items, t, from, to, off).Some?
      modifies this`values
      decreases items, 0
      ensures values == Put(old(values), entries, BindRange(items, v, t, from, to, off))
    {
      hide Determine, Bind, Put, HasType;
      HasFields(v, t);
      PutNothing(values, entries);
      DetermineEach(items, t, from, to, off);
      for i := from to to
        invariant DetermineRange(items, t, from, i, off).Some?
        invariant values == Put(old(values), entries, BindRange(items, v, t, from, i, off))
      {
        BindValue(items[i], v.vs[i + off], t.fields[i + off].ty);
        PutConcat(old(values), entries, BindRange(items, v, t, from, i, off),
                  Bind(items[i], v.vs[i + off], t.fields[i + off].ty));
      }
    }

    method BindValueParts(items: seq<Pattern>, v: Val, t: DType, to: nat)
      requires t.Agg? && to <= |items| && HasType(v, t) && DetermineParts(items, t, to).Some?
      modifies this`values
      decreases items, 0
      ensures values == Put(old(values), entries, BindParts(items, v, t, to))
    {
      hide Determine, Bind, Put, HasType;
      HasFields(v, t);
      PutNothing(values, entries);
      DetermineEachPart(items, t, to);
      for i := 0 to to
        invariant DetermineParts(items, t, i).Some?
        invariant values == Put(old(values), entries, BindParts(items, v, t, i))
      {
        var pos := PartPos(t, items[i].key);
        BindValue(items[i], v.vs[pos], t.fields[pos].ty);
        PutConcat(old(values), entries, BindParts(items, v, t, i), Bind(items[i], v.vs[pos], t.fields[pos].ty));
      }
    }
  }

  lemma EachSnoc<T>(names: seq<nat>, n: nat, x: T)
    ensures Each(names + [n], x) == Each(names, x) + [(n, x)]
  {
  }

  lemma PutNothing<T>(m: map<Site, T>, t: Table)
    ensures Put(m, t, []) == m
  {
  }

  lemma {:induction false} RangeFails(items: seq<Pattern>, t: DType, from: nat, mid: nat, to: nat, off: nat)
    requires t.Agg? && from <= mid <= to <= |items| && to + off <= |t.fields|
    requires DetermineRange(items, t, from, mid, off).None?
    ensures DetermineRange(items, t, from, to, off).None?
    decreases items, to
  {
    if mid < to {
      RangeFails(items, t, from, mid, to - 1, off);
    }
  }

  lemma {:induction false} PartsFail(items: seq<Pattern>, t: DType, mid: nat, to: nat)
    requires t.Agg? && mid <= to <= |items| && DetermineParts(items, t, mid).None?
    ensures DetermineParts(items, t, to).None?
    decreases items, to
  {
    if mid < to {
      PartsFail(items, t, mid, to - 1);
    }
  }

  lemma RotateNothing(t: Table, back: bool)
    ensures RotateNames(t, [], back) == t
  {
  }

  /** Rotation keeps variables variables. */
  lemma Redeclared(t: Table, names: seq<nat>, others: seq<nat>, back: bool)
    requires forall n | n in others :: n in t && t[n].Variable?
    ensures forall n | n in others :: n in RotateNames(t, names, back) && RotateNames(t, names, back)[n].Variable?
  {
    forall n | n in others
      ensures n in RotateNames(t, names, back) && RotateNames(t, names, back)[n].Variable?
    {
      RotateNamesAt(t, names, back, n);
    }
  }
}
