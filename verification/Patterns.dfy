/** Let patterns: the types they give to their variables, and the values they bind. */
module Patterns {
  import opened Syntax

  datatype StructKind = NamedStruct | NamedTuple | GeneralTuple

  /** `sig` is the type's signature; names are interned, so numbers. */
  datatype DType = Prim(sig: nat) | Agg(sig: nat, kind: StructKind, fields: seq<Field>)

  datatype Field = Field(name: nat, ty: DType)

  /** `key` is the field name a pattern is given inside a struct pattern (for a tuple type the
      field's index); only the enclosing pattern looks at it. */
  datatype Pattern =
    | PVar(key: nat, name: nat, more: seq<nat>)
    | PTuple(key: nat, tname: Option<nat>, more: seq<nat>, items: seq<Pattern>)
    | PStruct(key: nat, tname: Option<nat>, more: seq<nat>, items: seq<Pattern>)
    | PIgnore(key: nat)
    | PRest(key: nat)

  datatype Val = Num(n: int) | Fields(vs: seq<Val>)

  predicate HasType(v: Val, t: DType) {
    match t
    case Prim(_) => v.Num?
    case Agg(_, _, fields) =>
      v.Fields? && |v.vs| == |fields| && forall i | 0 <= i < |fields| :: HasType(v.vs[i], fields[i].ty)
  }

  /** The position of the first `..`, or the number of items. */
  function RestPos(items: seq<Pattern>): (k: nat)
    ensures k <= |items|
    ensures k < |items| ==> items[k].PRest?
    ensures forall i | 0 <= i < k :: !items[i].PRest?
  {
    if items == [] || items[0].PRest? then 0 else 1 + RestPos(items[1..])
  }

  /** The check made when a let is parsed: one `..` a group at most, and last in a struct
      pattern. */
  predicate RestOk(p: Pattern) {
    match p
    case PVar(_, _, _) => true
    case PTuple(_, _, _, items) =>
      (forall i, j | 0 <= i < j < |items| :: !(items[i].PRest? && items[j].PRest?)) &&
      (forall i | 0 <= i < |items| :: items[i].PRest? || RestOk(items[i]))
    case PStruct(_, _, _, items) =>
      (forall i | 0 <= i < |items| - 1 :: !items[i].PRest?) &&
      (forall i | 0 <= i < |items| :: items[i].PRest? || RestOk(items[i]))
    case PIgnore(_) => true
    case PRest(_) => false
  }

  /** Ends with `..`. */
  predicate Open(items: seq<Pattern>) {
    items != [] && items[|items| - 1].PRest?
  }

  /** The number of named items: all but a final `..`. */
  function EndPos(items: seq<Pattern>): (k: nat)
    ensures k <= |items| <= k + 1
    ensures k < |items| <==> Open(items)
  {
    if items != [] && items[|items| - 1].PRest? then |items| - 1 else |items|
  }

  function FieldPos(fields: seq<Field>, name: nat): (k: nat)
    ensures k <= |fields|
    ensures k < |fields| ==> fields[k].name == name
    ensures forall i | 0 <= i < k :: fields[i].name != name
  {
    if fields == [] || fields[0].name == name then 0 else 1 + FieldPos(fields[1..], name)
  }

  /** Where a part of a struct pattern is found: the number of fields when nowhere. */
  function PartPos(t: DType, key: nat): (k: nat)
    requires t.Agg?
    ensures k <= |t.fields|
  {
    if t.kind == NamedTuple then (if key < |t.fields| then key else |t.fields|) else FieldPos(t.fields, key)
  }

  function Each<T>(names: seq<nat>, x: T): (r: seq<(nat, T)>)
    ensures |r| == |names|
  {
    seq(|names|, i requires 0 <= i < |names| => (names[i], x))
  }

  // ----- typing -----

  /** The checks made before the items of a group are looked at. */
  predicate GroupOk(p: Pattern, t: DType) {
    match p
    case PTuple(_, tname, _, items) =>
      t.Agg? && (tname.Some? ==> tname.value == t.sig) && |items| <= |t.fields| &&
      (RestPos(items) == |items| ==> |items| == |t.fields|)
    case PStruct(_, tname, _, items) =>
      t.Agg? && (tname.Some? ==> tname.value == t.sig) && |items| <= |t.fields| &&
      (EndPos(items) == |items| ==> |items| == |t.fields|) && t.kind != GeneralTuple
    case _ => true
  }

  /** The types given to the variables of p, or None where an error is reported. */
  function Determine(p: Pattern, t: DType): Option<seq<(nat, DType)>>
    decreases p, 0
  {
    if !GroupOk(p, t) then None else
    match p
    case PVar(_, name, more) => Some(Each([name] + more, t))
    case PTuple(_, _, more, items) =>
      var k := RestPos(items);
      var a := DetermineRange(items, t, 0, k, 0);
      var b := if k == |items| then Some([]) else DetermineRange(items, t, k + 1, |items|, |t.fields| - |items|);
      if a.Some? && b.Some? then Some(Each(more, t) + a.value + b.value) else None
    case PStruct(_, _, more, items) =>
      var a := DetermineParts(items, t, EndPos(items));
      if a.Some? then Some(Each(more, t) + a.value) else None
    case PIgnore(_) => Some([])
    case PRest(_) => None
  }

  /** Items from..to against the fields `off` further on. */
  function DetermineRange(items: seq<Pattern>, t: DType, from: nat, to: nat, off: nat): Option<seq<(nat, DType)>>
    requires t.Agg? && from <= to <= |items| && to + off <= |t.fields|
    decreases items, to
  {
    if from == to then Some([]) else
    var a := DetermineRange(items, t, from, to - 1, off);
    var b := Determine(items[to - 1], t.fields[to - 1 + off].ty);
    if a.Some? && b.Some? then Some(a.value + b.value) else None
  }

  function DetermineParts(items: seq<Pattern>, t: DType, to: nat): Option<seq<(nat, DType)>>
    requires t.Agg? && to <= |items|
    decreases items, to
  {
    if to == 0 then Some([]) else
    var a := DetermineParts(items, t, to - 1);
    var pos := PartPos(t, items[to - 1].key);
    if a.None? || pos == |t.fields| then None else
    var b := Determine(items[to - 1], t.fields[pos].ty);
    if b.Some? then Some(a.value + b.value) else None
  }

  // ----- binding -----

  function Bind(p: Pattern, v: Val, t: DType): seq<(nat, Val)>
    requires Determine(p, t).Some? && HasType(v, t)
    decreases p, 0
  {
    match p
    case PVar(_, name, more) => Each([name] + more, v)
    case PTuple(_, _, more, items) =>
      var k := RestPos(items);
      Each(more, v) + BindRange(items, v, t, 0, k, 0) +
      if k == |items| then [] else BindRange(items, v, t, k + 1, |items|, |t.fields| - |items|)
    case PStruct(_, _, more, items) => Each(more, v) + BindParts(items, v, t, EndPos(items))
    case PIgnore(_) => []
    case PRest(_) => []
  }

  function BindRange(items: seq<Pattern>, v: Val, t: DType, from: nat, to: nat, off: nat): seq<(nat, Val)>
    requires t.Agg? && from <= to <= |items| && to + off <= |t.fields| && HasType(v, t)
    requires DetermineRange(items, t, from, to, off).Some?
    decreases items, to
  {
    if from == to then [] else
    BindRange(items, v, t, from, to - 1, off) + Bind(items[to - 1], v.vs[to - 1 + off], t.fields[to - 1 + off].ty)
  }

  function BindParts(items: seq<Pattern>, v: Val, t: DType, to: nat): seq<(nat, Val)>
    requires t.Agg? && to <= |items| && HasType(v, t) && DetermineParts(items, t, to).Some?
    decreases items, to
  {
    if to == 0 then [] else
    var pos := PartPos(t, items[to - 1].key);
    BindParts(items, v, t, to - 1) + Bind(items[to - 1], v.vs[pos], t.fields[pos].ty)
  }

  // ----- typing and binding agree -----

  /** The same variables in the same order, each value of its variable's type. */
  predicate Conforms(vals: seq<(nat, Val)>, tys: seq<(nat, DType)>) {
    |vals| == |tys| && forall i | 0 <= i < |tys| :: vals[i].0 == tys[i].0 && HasType(vals[i].1, tys[i].1)
  }

  // ----- what `..` means -----

  /** p with every `..` of a tuple pattern spelled out as wildcards, to the width of t. */
  function Spell(p: Pattern, t: DType): Pattern
    decreases p, 1
  {
    if !t.Agg? then p else
    match p
    case PTuple(key, tname, more, items) => PTuple(key, tname, more, SpellFrom(items, t, 0))
    case PStruct(key, tname, more, items) => PStruct(key, tname, more, SpellParts(items, t))
    case _ => p
  }

  /** Goes through the items from the left, field `at` being next; `..` stands for what the
      items after it leave over. */
  function SpellFrom(items: seq<Pattern>, t: DType, at: nat): seq<Pattern>
    requires t.Agg?
    decreases items
  {
    if items == [] then []
    else if items[0].PRest? then
      var wide := if at + |items| - 1 <= |t.fields| then |t.fields| - at - (|items| - 1) else 0;
      seq(wide, _ => PIgnore(0)) + SpellFrom(items[1..], t, at + wide)
    else [if at < |t.fields| then Spell(items[0], t.fields[at].ty) else items[0]] + SpellFrom(items[1..], t, at + 1)
  }

  function SpellParts(items: seq<Pattern>, t: DType): (r: seq<Pattern>)
    requires t.Agg?
    ensures |r| == |items|
    decreases items
  {
    if items == [] then [] else
    var pos := PartPos(t, items[0].key);
    [if pos < |t.fields| then Spell(items[0], t.fields[pos].ty) else items[0]] + SpellParts(items[1..], t)
  }

  /** The field a part of a struct pattern names: the first of that name, or for a named tuple
      the one of that number. */
  predicate FieldFor(t: DType, key: nat, f: nat) {
    t.Agg? && f < |t.fields| &&
    if t.kind == NamedTuple then f == key
    else t.fields[f].name == key && forall g | 0 <= g < f :: t.fields[g].name != key
  }

  lemma PartPosIs(t: DType, key: nat)
    requires t.Agg?
    ensures PartPos(t, key) < |t.fields| ==> FieldFor(t, key, PartPos(t, key))
    ensures forall f: nat | FieldFor(t, key, f) :: f == PartPos(t, key)
  {
  }

  /** Accepted without any `..` in tuples: item i is field i.  A struct pattern names its
      fields; `..` at its end leaves the others out. */
  predicate Fits(q: Pattern, t: DType) {
    match q
    case PVar(_, _, _) => true
    case PTuple(_, tname, _, items) =>
      t.Agg? && (tname.Some? ==> tname.value == t.sig) && |items| == |t.fields| &&
      forall i | 0 <= i < |items| :: Fits(items[i], t.fields[i].ty)
    case PStruct(_, tname, _, items) =>
      t.Agg? && (tname.Some? ==> tname.value == t.sig) && t.kind != GeneralTuple &&
      (!Open(items) ==> |items| == |t.fields|) &&
      forall i | 0 <= i < |items| && !(i == |items| - 1 && items[i].PRest?) ::
        exists f | 0 <= f < |t.fields| :: FieldFor(t, items[i].key, f) && Fits(items[i], t.fields[f].ty)
    case PIgnore(_) => true
    case PRest(_) => false
  }

  /** The code wants `..` to skip at least one field: a group with a `..` may not have more
      items, the `..` included, than the type has fields. */
  predicate SkipsSome(p: Pattern, t: DType) {
    !t.Agg? ||
    match p
    case PTuple(_, _, _, items) =>
      var k, n := RestPos(items), |t.fields|;
      (k < |items| ==> |items| <= n) &&
      (forall i | 0 <= i < k && i < n :: SkipsSome(items[i], t.fields[i].ty)) &&
      (forall i | k < i < |items| <= n :: SkipsSome(items[i], t.fields[i + n - |items|].ty))
    case PStruct(_, _, _, items) =>
      (Open(items) ==> |items| <= |t.fields|) &&
      (forall i, f | 0 <= i < |items| && !items[i].PRest? && 0 <= f < |t.fields| && FieldFor(t, items[i].key, f) ::
         SkipsSome(items[i], t.fields[f].ty))
    case _ => true
  }

  // The items of a spelled-out group.

  lemma {:induction false} SpellPlain(items: seq<Pattern>, t: DType, at: nat)
    requires t.Agg? && forall i | 0 <= i < |items| :: !items[i].PRest?
    ensures |SpellFrom(items, t, at)| == |items|
    ensures forall i | 0 <= i < |items| && at + i < |t.fields| ::
            SpellFrom(items, t, at)[i] == Spell(items[i], t.fields[at + i].ty)
    decreases items
  {
    hide Spell;
    if items != [] {
      SpellPlain(items[1..], t, at + 1);
    }
  }

  /** q spells out items, `..` being item k and standing for w + 1 fields. */
  ghost predicate SpelledOut(q: seq<Pattern>, items: seq<Pattern>, t: DType, at: nat, k: nat, w: nat)
    requires t.Agg? && at + |items| + w == |t.fields|
  {
    && |q| == |items| + w
    && (forall i | 0 <= i < k && i < |items| :: q[i] == Spell(items[i], t.fields[at + i].ty))
    && (forall i | k <= i <= k + w && i < |q| :: q[i] == PIgnore(0))
    && (forall i | k < i < |items| :: q[i + w] == Spell(items[i], t.fields[at + i + w].ty))
  }

  lemma {:induction false} SpellRest(items: seq<Pattern>, t: DType, at: nat, k: nat)
    requires t.Agg? && k < |items| && at + |items| <= |t.fields| && items[k].PRest?
    requires forall i | 0 <= i < |items| && i != k :: !items[i].PRest?
    ensures SpelledOut(SpellFrom(items, t, at), items, t, at, k, |t.fields| - at - |items|)
    decreases items
  {
    hide SpelledOut, SpellFrom, Spell;
    var w := |t.fields| - at - |items|;
    if k == 0 {
      SpellPlain(items[1..], t, at + w + 1);
      SpelledHere(items, t, at, w);
    } else {
      SpellRest(items[1..], t, at + 1, k - 1);
      SpelledNext(items, t, at, k, w);
    }
  }

  lemma SpelledHere(items: seq<Pattern>, t: DType, at: nat, w: nat)
    requires t.Agg? && items != [] && at + |items| + w == |t.fields| && items[0].PRest?
    requires var q := SpellFrom(items[1..], t, at + w + 1);
             |q| == |items| - 1 && forall i | 0 <= i < |items| - 1 ::
                 q[i] == Spell(items[1..][i], t.fields[at + w + 1 + i].ty)
    ensures SpelledOut(SpellFrom(items, t, at), items, t, at, 0, w)
  {
    hide Spell, SpellFrom;
    var q, q1 := SpellFrom(items, t, at), SpellFrom(items[1..], t, at + w + 1);
    SpellHead(items, t, at, w);
    forall i | 0 < i < |items|
      ensures q[i + w] == Spell(items[i], t.fields[at + i + w].ty)
    {
      assert q[i + w] == q1[i - 1] && items[1..][i - 1] == items[i];
    }
  }

  lemma SpellHead(items: seq<Pattern>, t: DType, at: nat, w: nat)
    requires t.Agg? && items != [] && at + |items| + w == |t.fields| && items[0].PRest?
    ensures SpellFrom(items, t, at) == seq(w + 1, _ => PIgnore(0)) + SpellFrom(items[1..], t, at + w + 1)
  {
  }

  lemma SpelledNext(items: seq<Pattern>, t: DType, at: nat, k: nat, w: nat)
    requires t.Agg? && 0 < k < |items| && at + |items| + w == |t.fields| && !items[0].PRest?
    requires SpelledOut(SpellFrom(items[1..], t, at + 1), items[1..], t, at + 1, k - 1, w)
    ensures SpelledOut(SpellFrom(items, t, at), items, t, at, k, w)
  {
    hide Spell;
    var q, q1 := SpellFrom(items, t, at), SpellFrom(items[1..], t, at + 1);
    assert q == [Spell(items[0], t.fields[at].ty)] + q1;
    forall i | 0 < i < k
      ensures q[i] == Spell(items[i], t.fields[at + i].ty)
    {
      assert q[i] == q1[i - 1] && items[1..][i - 1] == items[i];
    }
    forall i | k < i < |items|
      ensures q[i + w] == Spell(items[i], t.fields[at + i + w].ty)
    {
      assert q[i + w] == q1[i - 1 + w] && items[1..][i - 1] == items[i];
    }
  }

  lemma {:induction false} SpellPart(items: seq<Pattern>, t: DType, i: nat)
    requires t.Agg? && i < |items|
    ensures var pos := PartPos(t, items[i].key);
            SpellParts(items, t)[i] == if pos < |t.fields| then Spell(items[i], t.fields[pos].ty) else items[i]
    decreases items
  {
    hide Spell;
    if i > 0 {
      SpellPart(items[1..], t, i - 1);
    }
  }

  lemma SpellKind(p: Pattern, t: DType)
    ensures Spell(p, t).PRest? <==> p.PRest?
    ensures Spell(p, t).key == p.key
  {
  }

  // ----- acceptance -----

  lemma {:induction false} DetermineEach(items: seq<Pattern>, t: DType, from: nat, to: nat, off: nat)
    requires t.Agg? && from <= to <= |items| && to + off <= |t.fields|
    ensures DetermineRange(items, t, from, to, off).Some? <==>
            forall i | from <= i < to :: Determine(items[i], t.fields[i + off].ty).Some?
    decreases items, to
  {
    if from < to {
      DetermineEach(items, t, from, to - 1, off);
    }
  }

  lemma {:induction false} DetermineEachPart(items: seq<Pattern>, t: DType, to: nat)
    requires t.Agg? && to <= |items|
    ensures DetermineParts(items, t, to).Some? <==>
            forall i | 0 <= i < to ::
                PartPos(t, items[i].key) < |t.fields| &&
                Determine(items[i], t.fields[PartPos(t, items[i].key)].ty).Some?
    decreases items, to
  {
    if to > 0 {
      DetermineEachPart(items, t, to - 1);
    }
  }

  ghost predicate Good(p: Pattern, t: DType) {
    SkipsSome(p, t) && Fits(Spell(p, t), t)
  }

  /** The field item i of a tuple pattern goes to: counted from the left before `..`, from
      the right after it. */
  function FieldOf(items: seq<Pattern>, t: DType, i: nat): (f: int)
    requires t.Agg? && i < |items|
  {
    if i <= RestPos(items) then i else i + |t.fields| - |items|
  }

  /** A pattern is accepted if and only if its spelled-out form fits the type and every `..`
      skips at least one field. */
  lemma {:induction false} AcceptedIff(p: Pattern, t: DType)
    requires RestOk(p)
    ensures Determine(p, t).Some? <==> SkipsSome(p, t) && Fits(Spell(p, t), t)
    decreases p
  {
    hide SkipsSome, Fits, Spell, Determine;
    match p
    case PTuple(_, _, _, items) =>
      if t.Agg? {
        forall i | 0 <= i < |items| && !items[i].PRest? && 0 <= FieldOf(items, t, i) < |t.fields|
          ensures var u := t.fields[FieldOf(items, t, i)].ty; Determine(items[i], u).Some? <==> Good(items[i], u)
        {
          AcceptedIff(items[i], t.fields[FieldOf(items, t, i)].ty);
        }
        if RestPos(items) == |items| { TuplePlain(p, t); } else { TupleRest(p, t); }
      } else {
        NotAgg(p, t);
      }
    case PStruct(_, _, _, items) =>
      if t.Agg? {
        forall i | 0 <= i < EndPos(items) && PartPos(t, items[i].key) < |t.fields|
          ensures var u := t.fields[PartPos(t, items[i].key)].ty; Determine(items[i], u).Some? <==> Good(items[i], u)
        {
          AcceptedIff(items[i], t.fields[PartPos(t, items[i].key)].ty);
        }
        StructParts(p, t);
      } else {
        NotAgg(p, t);
      }
    case _ => Simple(p, t);
  }

  lemma Simple(p: Pattern, t: DType)
    requires p.PVar? || p.PIgnore?
    ensures Determine(p, t).Some? && Good(p, t)
  {
  }

  lemma NotAgg(p: Pattern, t: DType)
    requires (p.PTuple? || p.PStruct?) && !t.Agg?
    ensures Determine(p, t).None? && !Fits(Spell(p, t), t)
  {
  }

  // One step of each function on a tuple pattern.

  lemma StepDetermine(p: Pattern, t: DType)
    requires p.PTuple? && t.Agg?
    ensures var k, n := RestPos(p.items), |t.fields|;
            Determine(p, t).Some? <==>
            && GroupOk(p, t) && DetermineRange(p.items, t, 0, k, 0).Some?
            && (k < |p.items| ==> DetermineRange(p.items, t, k + 1, |p.items|, n - |p.items|).Some?)
  {
    hide DetermineRange;
  }

  lemma StepSkips(p: Pattern, t: DType)
    requires p.PTuple? && t.Agg?
    ensures var items, n := p.items, |t.fields|;
            SkipsSome(p, t) <==>
            && (RestPos(items) < |items| ==> |items| <= n)
            && (forall i | 0 <= i < RestPos(items) && i < n :: SkipsSome(items[i], t.fields[i].ty))
            && (forall i | RestPos(items) < i < |items| <= n :: SkipsSome(items[i], t.fields[i + n - |items|].ty))
  {
  }

  lemma StepFits(p: Pattern, t: DType)
    requires p.PTuple? && t.Agg?
    ensures var q := SpellFrom(p.items, t, 0);
            Fits(Spell(p, t), t) <==>
            (p.tname.Some? ==> p.tname.value == t.sig) && |q| == |t.fields| &&
                forall i | 0 <= i < |q| :: Fits(q[i], t.fields[i].ty)
  {
    hide SpellFrom;
  }

  lemma TuplePlain(p: Pattern, t: DType)
    requires p.PTuple? && t.Agg? && RestPos(p.items) == |p.items|
    requires forall i | 0 <= i < |p.items| && i < |t.fields| :: Determine(p.items[i], t.fields[i].ty).Some? <==>
             Good(p.items[i], t.fields[i].ty)
    ensures Determine(p, t).Some? <==> Good(p, t)
  {
    hide RestPos, DetermineRange, SpellFrom, Determine, SkipsSome, Spell, Fits, Good;
    var items, n := p.items, |t.fields|;
    assert forall i | 0 <= i < |items| :: !items[i].PRest?;
    if |items| == n {
      PlainDetermine(p, t);
      PlainGood(p, t);
    } else {
      StepDetermine(p, t);
      SpellPlain(items, t, 0);
      assert !Fits(Spell(p, t), t) by { StepFits(p, t); }
      assert !Good(p, t) by { NotGood(p, t); }
    }
  }

  lemma PlainDetermine(p: Pattern, t: DType)
    requires p.PTuple? && t.Agg? && RestPos(p.items) == |p.items| == |t.fields|
    ensures Determine(p, t).Some? <==>
              NameOk(p, t) && forall i | 0 <= i < |p.items| :: Determine(p.items[i], t.fields[i].ty).Some?
  {
    hide RestPos, DetermineRange, Determine;
    StepDetermine(p, t);
    DetermineEach(p.items, t, 0, |p.items|, 0);
    assert forall i | 0 <= i < |p.items| :: t.fields[i + 0] == t.fields[i];
  }

  lemma PlainGood(p: Pattern, t: DType)
    requires p.PTuple? && t.Agg? && RestPos(p.items) == |p.items| == |t.fields|
    ensures Good(p, t) <==> NameOk(p, t) && forall i | 0 <= i < |p.items| :: Good(p.items[i], t.fields[i].ty)
  {
    hide RestPos, SpellFrom, SkipsSome, Spell, Fits;
    var items, n := p.items, |t.fields|;
    assert forall i | 0 <= i < n :: !items[i].PRest?;
    StepSkips(p, t);
    StepFits(p, t);
    SpellPlain(items, t, 0);
    var q := SpellFrom(items, t, 0);
    forall i | 0 <= i < n
      ensures q[i] == Spell(items[i], t.fields[i].ty)
    {
      assert t.fields[0 + i] == t.fields[i];
    }
  }

  lemma TupleRest(p: Pattern, t: DType)
    requires p.PTuple? && t.Agg? && RestPos(p.items) < |p.items| && RestOk(p)
    requires forall i | 0 <= i < |p.items| && !p.items[i].PRest? && 0 <= FieldOf(p.items, t, i) < |t.fields| ::
               var u := t.fields[FieldOf(p.items, t, i)].ty; Determine(p.items[i], u).Some? <==> Good(p.items[i], u)
    ensures Determine(p, t).Some? <==> Good(p, t)
  {
    hide RestPos, DetermineRange, SpellFrom, Determine, SkipsSome, Spell, Fits, Good;
    var items, n, k := p.items, |t.fields|, RestPos(p.items);
    assert items[k].PRest?;
    if |items| <= n {
      forall i | 0 <= i < |items| && i != k
        ensures var u := Ty(t, k, n - |items|, i); Determine(items[i], u).Some? <==> Good(items[i], u)
      {
        assert !items[i].PRest?;
        var f := FieldOf(items, t, i);
        assert f == if i < k then i else i + (n - |items|);
      }
      TupleRestFits(p, t, k, n - |items|);
    } else {
      StepDetermine(p, t);
      assert !SkipsSome(p, t) by { StepSkips(p, t); }
      assert !Good(p, t) by { NotGood(p, t); }
    }
  }

  lemma NotGood(p: Pattern, t: DType)
    requires !SkipsSome(p, t) || !Fits(Spell(p, t), t)
    ensures !Good(p, t)
  {
  }

  predicate NameOk(p: Pattern, t: DType)
    requires p.PTuple? && t.Agg?
  {
    p.tname.Some? ==> p.tname.value == t.sig
  }

  /** The type of the field item i of a group with `..` at k goes to. */
  function Ty(t: DType, k: nat, w: nat, i: nat): DType
    requires t.Agg? && (if i < k then i else i + w) < |t.fields|
  {
    t.fields[if i < k then i else i + w].ty
  }

  predicate RestAt(p: Pattern, t: DType, k: nat, w: nat) {
    p.PTuple? && t.Agg? && k == RestPos(p.items) < |p.items| && RestOk(p) && |p.items| + w == |t.fields|
  }

  lemma RestDetermine(p: Pattern, t: DType, k: nat, w: nat)
    requires RestAt(p, t, k, w)
    ensures Determine(p, t).Some? <==>
            NameOk(p, t) && forall i | 0 <= i < |p.items| && i != k :: Determine(p.items[i], Ty(t, k, w, i)).Some?
  {
    hide RestPos, DetermineRange, Determine, RestOk;
    var items := p.items;
    StepDetermine(p, t);
    DetermineEach(items, t, 0, k, 0);
    DetermineEach(items, t, k + 1, |items|, w);
    forall i | 0 <= i < |items| && i != k
      ensures Ty(t, k, w, i) == if i < k then t.fields[i + 0].ty else t.fields[i + w].ty
    {
    }
  }

  lemma RestSkips(p: Pattern, t: DType, k: nat, w: nat)
    requires RestAt(p, t, k, w)
    ensures SkipsSome(p, t) <==> forall i | 0 <= i < |p.items| && i != k :: SkipsSome(p.items[i], Ty(t, k, w, i))
  {
    hide RestPos, SkipsSome, RestOk;
    StepSkips(p, t);
    var items, n := p.items, |t.fields|;
    forall i | 0 <= i < |items| && i != k
      ensures Ty(t, k, w, i) == if i < k then t.fields[i].ty else t.fields[i + n - |items|].ty
    {
    }
  }

  lemma RestFits(p: Pattern, t: DType, k: nat, w: nat)
    requires RestAt(p, t, k, w)
    ensures Fits(Spell(p, t), t) <==>
            NameOk(p, t) && forall i | 0 <= i < |p.items| && i != k ::
                Fits(Spell(p.items[i], Ty(t, k, w, i)), Ty(t, k, w, i))
  {
    hide SpellFrom, Spell, Fits;
    var items, n, q := p.items, |t.fields|, SpellFrom(p.items, t, 0);
    StepFits(p, t);
    SpellRest(items, t, 0, k);
    if forall i | 0 <= i < |items| && i != k :: Fits(Spell(items[i], Ty(t, k, w, i)), Ty(t, k, w, i)) {
      forall j | 0 <= j < n
        ensures Fits(q[j], t.fields[j].ty)
      {
        if j > k + w {
          assert q[j - w + w] == Spell(items[j - w], Ty(t, k, w, j - w));
        } else if k <= j {
          WildFits(q[j], t.fields[j].ty);
        } else {
          assert q[j] == Spell(items[j], Ty(t, k, w, j));
        }
      }
    }
    if Fits(Spell(p, t), t) {
      forall i | 0 <= i < |items| && i != k
        ensures Fits(Spell(items[i], Ty(t, k, w, i)), Ty(t, k, w, i))
      {
        assert i < k ==> q[i] == Spell(items[i], Ty(t, k, w, i));
        assert i > k ==> q[i + w] == Spell(items[i], Ty(t, k, w, i));
      }
    }
  }

  lemma TupleRestFits(p: Pattern, t: DType, k: nat, w: nat)
    requires RestAt(p, t, k, w)
    requires forall i | 0 <= i < |p.items| && i != k ::
               Determine(p.items[i], Ty(t, k, w, i)).Some? <==> Good(p.items[i], Ty(t, k, w, i))
    ensures Determine(p, t).Some? <==> Good(p, t)
  {
    hide RestPos, Determine, SkipsSome, Spell, Fits, RestOk, Ty;
    RestDetermine(p, t, k, w);
    RestSkips(p, t, k, w);
    RestFits(p, t, k, w);
  }

  lemma WildFits(q: Pattern, t: DType)
    requires q.PIgnore?
    ensures Fits(q, t)
  {
  }

  // The same for a struct pattern, its parts being where PartPos says.

  lemma StepFitsParts(q: Pattern, t: DType)
    requires q.PStruct? && t.Agg?
    ensures Fits(q, t) <==>
            && (q.tname.Some? ==> q.tname.value == t.sig) && t.kind != GeneralTuple
            && (!Open(q.items) ==> |q.items| == |t.fields|)
            && forall i | 0 <= i < EndPos(q.items) ::
                 PartPos(t, q.items[i].key) < |t.fields| &&
                 Fits(q.items[i], t.fields[PartPos(t, q.items[i].key)].ty)
  {
    hide PartPos, FieldFor;
    forall i | 0 <= i < |q.items|
      ensures PartPos(t, q.items[i].key) < |t.fields| ==> FieldFor(t, q.items[i].key, PartPos(t, q.items[i].key))
      ensures forall f: nat | FieldFor(t, q.items[i].key, f) :: f == PartPos(t, q.items[i].key)
    {
      PartPosIs(t, q.items[i].key);
    }
  }

  lemma StepSkipsParts(p: Pattern, t: DType)
    requires p.PStruct? && t.Agg? && RestOk(p)
    ensures SkipsSome(p, t) <==>
            && (Open(p.items) ==> |p.items| <= |t.fields|)
            && forall i | 0 <= i < EndPos(p.items) && PartPos(t, p.items[i].key) < |t.fields| ::
                 SkipsSome(p.items[i], t.fields[PartPos(t, p.items[i].key)].ty)
  {
    hide PartPos, FieldFor;
    forall i | 0 <= i < |p.items|
      ensures PartPos(t, p.items[i].key) < |t.fields| ==> FieldFor(t, p.items[i].key, PartPos(t, p.items[i].key))
      ensures forall f: nat | FieldFor(t, p.items[i].key, f) :: f == PartPos(t, p.items[i].key)
      ensures i < EndPos(p.items) <==> !p.items[i].PRest?
    {
      PartPosIs(t, p.items[i].key);
    }
  }

  lemma StepDetermineParts(p: Pattern, t: DType)
    requires p.PStruct? && t.Agg?
    ensures Determine(p, t).Some? <==> GroupOk(p, t) && DetermineParts(p.items, t, EndPos(p.items)).Some?
  {
    hide DetermineParts;
  }

  lemma StructParts(p: Pattern, t: DType)
    requires p.PStruct? && t.Agg? && RestOk(p)
    requires forall i | 0 <= i < EndPos(p.items) && PartPos(t, p.items[i].key) < |t.fields| ::
               var u := t.fields[PartPos(t, p.items[i].key)].ty; Determine(p.items[i], u).Some? <==> Good(p.items[i], u)
    ensures Determine(p, t).Some? <==> Good(p, t)
  {
    hide DetermineParts, SpellParts, PartPos, Fits, SkipsSome, Determine, RestOk;
    var items, k := p.items, EndPos(p.items);
    SpelledParts(p, t);
    StepFitsParts(Spell(p, t), t);
    StepSkipsParts(p, t);
    StepDetermineParts(p, t);
    DetermineEachPart(items, t, k);
  }

  /** The parts of a spelled-out struct pattern are those of the pattern, spelled out. */
  lemma SpelledParts(p: Pattern, t: DType)
    requires p.PStruct? && t.Agg?
    ensures var q, items := Spell(p, t), p.items;
            && q.PStruct? && q.tname == p.tname && q.more == p.more && |q.items| == |items|
            && EndPos(q.items) == EndPos(items)
            && forall i | 0 <= i < |items| ::
                 q.items[i].key == items[i].key && (q.items[i].PRest? <==> items[i].PRest?) &&
                 (PartPos(t, items[i].key) < |t.fields| ==>
                    q.items[i] == Spell(items[i], t.fields[PartPos(t, items[i].key)].ty))
  {
    hide SpellParts, PartPos;
    var items := p.items;
    assert Spell(p, t).items == SpellParts(items, t);
    forall i | 0 <= i < |items|
      ensures var r := SpellParts(items, t)[i];
              r.key == items[i].key && (r.PRest? <==> items[i].PRest?) &&
              (PartPos(t, items[i].key) < |t.fields| ==> r == Spell(items[i], t.fields[PartPos(t, items[i].key)].ty))
    {
      SpellPart(items, t, i);
      if PartPos(t, items[i].key) < |t.fields| {
        SpellKind(items[i], t.fields[PartPos(t, items[i].key)].ty);
      }
    }
  }

  /** `(a, .., b)` is not accepted for a pair, although the two variables would fit it. */
  lemma NoEmptyRest(a: nat, b: nat, t: DType)
    requires t.Agg? && |t.fields| == 2
    ensures var p := PTuple(0, None, [], [PVar(0, a, []), PRest(0), PVar(0, b, [])]);
            RestOk(p) && Determine(p, t).None? && Fits(Spell(p, t), t)
  {
    var items := [PVar(0, a, []), PRest(0), PVar(0, b, [])];
    var rest := items[1..];
    assert rest == [PRest(0), PVar(0, b, [])];
    assert rest[1..] == [PVar(0, b, [])];
    assert SpellFrom(rest[1..], t, 1) == [PVar(0, b, [])];
    assert SpellFrom(rest, t, 1) == [PVar(0, b, [])];
    assert SpellFrom(items, t, 0) == [PVar(0, a, []), PVar(0, b, [])];
  }

  // ----- where a name stands -----

  /** The fields to go through to get from a value to a part of it. */
  type Path = seq<nat>

  function TypeAt(t: DType, path: Path): DType
    decreases |path|
  {
    if path == [] || !t.Agg? || path[0] >= |t.fields| then t else TypeAt(t.fields[path[0]].ty, path[1..])
  }

  function ValueAt(v: Val, path: Path): Val
    decreases |path|
  {
    if path == [] || !v.Fields? || path[0] >= |v.vs| then v else ValueAt(v.vs[path[0]], path[1..])
  }

  /** Item i of a group is for field f: in a tuple pattern counted from the left before `..`
      and from the right after it, in a struct pattern the field it names. */
  predicate IsFor(p: Pattern, t: DType, i: nat, f: nat)
    requires p.PTuple? || p.PStruct?
  {
    && t.Agg? && i < |p.items| && f < |t.fields| && !p.items[i].PRest?
    && if p.PStruct? then FieldFor(t, p.items[i].key, f)
       else if forall j | 0 <= j < i :: !p.items[j].PRest? then f == i
       else |t.fields| - f == |p.items| - i
  }

  /** The pattern has name n at this place, `@` names included. */
  predicate Occurs(p: Pattern, t: DType, n: nat, path: Path) {
    match p
    case PVar(_, name, more) => path == [] && (n == name || n in more)
    case PTuple(_, _, more, items) =>
      if path == [] then n in more
      else exists i | 0 <= i < |items| ::
        IsFor(p, t, i, path[0]) && Occurs(items[i], t.fields[path[0]].ty, n, path[1..])
    case PStruct(_, _, more, items) =>
      if path == [] then n in more
      else exists i | 0 <= i < |items| ::
        IsFor(p, t, i, path[0]) && Occurs(items[i], t.fields[path[0]].ty, n, path[1..])
    case _ => false
  }

  // The places in the order in which typing and binding go through them.

  function Under(f: nat, ps: seq<(nat, Path)>): (r: seq<(nat, Path)>)
    ensures |r| == |ps| && forall i | 0 <= i < |ps| :: r[i] == (ps[i].0, [f] + ps[i].1)
  {
    seq(|ps|, i requires 0 <= i < |ps| => (ps[i].0, [f] + ps[i].1))
  }

  function Paths(p: Pattern, t: DType): seq<(nat, Path)>
    requires Determine(p, t).Some?
    decreases p, 0
  {
    match p
    case PVar(_, name, more) => Each([name] + more, [])
    case PTuple(_, _, more, items) =>
      var k := RestPos(items);
      Each(more, []) + PathsRange(items, t, 0, k, 0) +
      if k == |items| then [] else PathsRange(items, t, k + 1, |items|, |t.fields| - |items|)
    case PStruct(_, _, more, items) => Each(more, []) + PathsParts(items, t, EndPos(items))
    case PIgnore(_) => []
    case PRest(_) => []
  }

  function PathsRange(items: seq<Pattern>, t: DType, from: nat, to: nat, off: nat): seq<(nat, Path)>
    requires t.Agg? && from <= to <= |items| && to + off <= |t.fields|
    requires DetermineRange(items, t, from, to, off).Some?
    decreases items, to
  {
    if from == to then [] else
    PathsRange(items, t, from, to - 1, off) + Under(to - 1 + off, Paths(items[to - 1], t.fields[to - 1 + off].ty))
  }

  function PathsParts(items: seq<Pattern>, t: DType, to: nat): seq<(nat, Path)>
    requires t.Agg? && to <= |items| && DetermineParts(items, t, to).Some?
    decreases items, to
  {
    if to == 0 then [] else
    var pos := PartPos(t, items[to - 1].key);
    PathsParts(items, t, to - 1) + Under(pos, Paths(items[to - 1], t.fields[pos].ty))
  }

  // Typing and binding take what is there.

  function TypesAt(t: DType, ps: seq<(nat, Path)>): (r: seq<(nat, DType)>)
    ensures |r| == |ps| && forall i | 0 <= i < |ps| :: r[i] == (ps[i].0, TypeAt(t, ps[i].1))
  {
    seq(|ps|, i requires 0 <= i < |ps| => (ps[i].0, TypeAt(t, ps[i].1)))
  }

  function ValuesAt(v: Val, ps: seq<(nat, Path)>): (r: seq<(nat, Val)>)
    ensures |r| == |ps| && forall i | 0 <= i < |ps| :: r[i] == (ps[i].0, ValueAt(v, ps[i].1))
  {
    seq(|ps|, i requires 0 <= i < |ps| => (ps[i].0, ValueAt(v, ps[i].1)))
  }

  lemma TypesConcat(t: DType, a: seq<(nat, Path)>, b: seq<(nat, Path)>)
    ensures TypesAt(t, a + b) == TypesAt(t, a) + TypesAt(t, b)
  {
  }

  lemma ValuesConcat(v: Val, a: seq<(nat, Path)>, b: seq<(nat, Path)>)
    ensures ValuesAt(v, a + b) == ValuesAt(v, a) + ValuesAt(v, b)
  {
  }

  lemma TypesHere(t: DType, names: seq<nat>)
    ensures TypesAt(t, Each(names, [])) == Each(names, t)
  {
  }

  lemma ValuesHere(v: Val, names: seq<nat>)
    ensures ValuesAt(v, Each(names, [])) == Each(names, v)
  {
  }

  lemma TypesUnder(t: DType, f: nat, ps: seq<(nat, Path)>)
    requires t.Agg? && f < |t.fields|
    ensures TypesAt(t, Under(f, ps)) == TypesAt(t.fields[f].ty, ps)
  {
    forall i | 0 <= i < |ps|
      ensures TypeAt(t, [f] + ps[i].1) == TypeAt(t.fields[f].ty, ps[i].1)
    {
      assert ([f] + ps[i].1)[1..] == ps[i].1;
    }
  }

  lemma ValuesUnder(v: Val, f: nat, ps: seq<(nat, Path)>)
    requires v.Fields? && f < |v.vs|
    ensures ValuesAt(v, Under(f, ps)) == ValuesAt(v.vs[f], ps)
  {
    forall i | 0 <= i < |ps|
      ensures ValueAt(v, [f] + ps[i].1) == ValueAt(v.vs[f], ps[i].1)
    {
      assert ([f] + ps[i].1)[1..] == ps[i].1;
    }
  }

  lemma {:induction false} PathsTyped(p: Pattern, t: DType)
    requires Determine(p, t).Some?
    ensures Determine(p, t).value == TypesAt(t, Paths(p, t))
    decreases p, 0
  {
    hide Each, TypesAt, DetermineRange, DetermineParts, PathsRange, PathsParts, RestPos;
    match p
    case PVar(_, name, more) => TypesHere(t, [name] + more);
    case PTuple(_, _, more, items) =>
      var k := RestPos(items);
      var a := PathsRange(items, t, 0, k, 0);
      TypesHere(t, more);
      PathsTypedRange(items, t, 0, k, 0);
      TypesConcat(t, Each(more, []), a);
      if k < |items| {
        var off := |t.fields| - |items|;
        PathsTypedRange(items, t, k + 1, |items|, off);
        TypesConcat(t, Each(more, []) + a, PathsRange(items, t, k + 1, |items|, off));
      } else {
        assert Each(more, []) + a + [] == Each(more, []) + a;
      }
    case PStruct(_, _, more, items) =>
      TypesHere(t, more);
      PathsTypedParts(items, t, EndPos(items));
      TypesConcat(t, Each(more, []), PathsParts(items, t, EndPos(items)));
    case PIgnore(_) => NoTypes(t);
    case PRest(_) =>
  }

  lemma NoTypes(t: DType)
    ensures TypesAt(t, []) == []
  {
  }

  lemma NoValues(v: Val)
    ensures ValuesAt(v, []) == []
  {
  }

  lemma {:induction false} PathsTypedRange(items: seq<Pattern>, t: DType, from: nat, to: nat, off: nat)
    requires t.Agg? && from <= to <= |items| && to + off <= |t.fields|
    requires DetermineRange(items, t, from, to, off).Some?
    ensures DetermineRange(items, t, from, to, off).value == TypesAt(t, PathsRange(items, t, from, to, off))
    decreases items, to
  {
    hide TypesAt, Determine, Paths, Under;
    if from == to {
      NoTypes(t);
    } else {
      var f := to - 1 + off;
      var ps := Paths(items[to - 1], t.fields[f].ty);
      PathsTypedRange(items, t, from, to - 1, off);
      PathsTyped(items[to - 1], t.fields[f].ty);
      TypesUnder(t, f, ps);
      TypesConcat(t, PathsRange(items, t, from, to - 1, off), Under(f, ps));
    }
  }

  lemma {:induction false} PathsTypedParts(items: seq<Pattern>, t: DType, to: nat)
    requires t.Agg? && to <= |items| && DetermineParts(items, t, to).Some?
    ensures DetermineParts(items, t, to).value == TypesAt(t, PathsParts(items, t, to))
    decreases items, to
  {
    hide TypesAt, Determine, Paths, Under, PartPos;
    if to == 0 {
      NoTypes(t);
    } else {
      var f := PartPos(t, items[to - 1].key);
      var ps := Paths(items[to - 1], t.fields[f].ty);
      PathsTypedParts(items, t, to - 1);
      PathsTyped(items[to - 1], t.fields[f].ty);
      TypesUnder(t, f, ps);
      TypesConcat(t, PathsParts(items, t, to - 1), Under(f, ps));
    }
  }

  lemma {:induction false} PathsBound(p: Pattern, v: Val, t: DType)
    requires Determine(p, t).Some? && HasType(v, t)
    ensures Bind(p, v, t) == ValuesAt(v, Paths(p, t))
    decreases p, 0
  {
    hide Each, ValuesAt, DetermineRange, DetermineParts, PathsRange, PathsParts, BindRange, BindParts, RestPos, HasType;
    match p
    case PVar(_, name, more) => ValuesHere(v, [name] + more);
    case PTuple(_, _, more, items) =>
      var k := RestPos(items);
      var a := PathsRange(items, t, 0, k, 0);
      ValuesHere(v, more);
      PathsBoundRange(items, v, t, 0, k, 0);
      ValuesConcat(v, Each(more, []), a);
      if k < |items| {
        var off := |t.fields| - |items|;
        PathsBoundRange(items, v, t, k + 1, |items|, off);
        ValuesConcat(v, Each(more, []) + a, PathsRange(items, t, k + 1, |items|, off));
      } else {
        assert Each(more, []) + a + [] == Each(more, []) + a;
      }
    case PStruct(_, _, more, items) =>
      ValuesHere(v, more);
      PathsBoundParts(items, v, t, EndPos(items));
      ValuesConcat(v, Each(more, []), PathsParts(items, t, EndPos(items)));
    case PIgnore(_) => NoValues(v);
    case PRest(_) =>
  }

  lemma {:induction false} PathsBoundRange(items: seq<Pattern>, v: Val, t: DType, from: nat, to: nat, off: nat)
    requires t.Agg? && from <= to <= |items| && to + off <= |t.fields| && HasType(v, t)
    requires DetermineRange(items, t, from, to, off).Some?
    ensures BindRange(items, v, t, from, to, off) == ValuesAt(v, PathsRange(items, t, from, to, off))
    decreases items, to
  {
    hide ValuesAt, Determine, Bind, Paths, Under, HasType;
    if from == to {
      NoValues(v);
    } else {
      var f := to - 1 + off;
      var ps := Paths(items[to - 1], t.fields[f].ty);
      HasFields(v, t);
      PathsBoundRange(items, v, t, from, to - 1, off);
      PathsBound(items[to - 1], v.vs[f], t.fields[f].ty);
      ValuesUnder(v, f, ps);
      ValuesConcat(v, PathsRange(items, t, from, to - 1, off), Under(f, ps));
    }
  }

  lemma {:induction false} PathsBoundParts(items: seq<Pattern>, v: Val, t: DType, to: nat)
    requires t.Agg? && to <= |items| && HasType(v, t) && DetermineParts(items, t, to).Some?
    ensures BindParts(items, v, t, to) == ValuesAt(v, PathsParts(items, t, to))
    decreases items, to
  {
    hide ValuesAt, Determine, Bind, Paths, Under, HasType, PartPos;
    if to == 0 {
      NoValues(v);
    } else {
      var f := PartPos(t, items[to - 1].key);
      var ps := Paths(items[to - 1], t.fields[f].ty);
      HasFields(v, t);
      PathsBoundParts(items, v, t, to - 1);
      PathsBound(items[to - 1], v.vs[f], t.fields[f].ty);
      ValuesUnder(v, f, ps);
      ValuesConcat(v, PathsParts(items, t, to - 1), Under(f, ps));
    }
  }

  lemma {:induction false} AtTyped(v: Val, t: DType, path: Path)
    requires HasType(v, t)
    ensures HasType(ValueAt(v, path), TypeAt(t, path))
    decreases |path|
  {
    if path != [] && t.Agg? && path[0] < |t.fields| {
      AtTyped(v.vs[path[0]], t.fields[path[0]].ty, path[1..]);
    }
  }

  /** Whatever pattern is accepted, each variable is bound to a value of the type the typing
      pass gave it: both pick the same field for every sub-pattern. */
  lemma BindTyped(p: Pattern, v: Val, t: DType)
    requires Determine(p, t).Some? && HasType(v, t)
    ensures Conforms(Bind(p, v, t), Determine(p, t).value)
  {
    hide Determine, Bind, Paths, HasType, TypeAt, ValueAt;
    PathsTyped(p, t);
    PathsBound(p, v, t);
    var ps := Paths(p, t);
    forall i | 0 <= i < |ps|
      ensures HasType(ValueAt(v, ps[i].1), TypeAt(t, ps[i].1))
    {
      AtTyped(v, t, ps[i].1);
    }
  }

  lemma HasFields(v: Val, t: DType)
    requires t.Agg? && HasType(v, t)
    ensures v.Fields? && |v.vs| == |t.fields|
    ensures forall i | 0 <= i < |t.fields| :: HasType(v.vs[i], t.fields[i].ty)
  {
  }

  lemma EachHas<T>(names: seq<nat>, x: T, e: (nat, T))
    ensures e in Each(names, x) <==> e.0 in names && e.1 == x
  {
    if e.0 in names && e.1 == x {
      var i :| 0 <= i < |names| && names[i] == e.0;
      assert Each(names, x)[i] == e;
    }
  }

  lemma UnderHas(f: nat, ps: seq<(nat, Path)>, n: nat, path: Path)
    ensures (n, path) in Under(f, ps) <==> path != [] && path[0] == f && (n, path[1..]) in ps
  {
    if path != [] && path[0] == f && (n, path[1..]) in ps {
      var i :| 0 <= i < |ps| && ps[i] == (n, path[1..]);
      assert [f] + path[1..] == path;
      assert Under(f, ps)[i] == (n, path);
    }
    if (n, path) in Under(f, ps) {
      var i :| 0 <= i < |ps| && Under(f, ps)[i] == (n, path);
      assert path == [f] + ps[i].1 && path[1..] == ps[i].1;
    }
  }

  lemma {:induction false} RangeHas(items: seq<Pattern>, t: DType, from: nat, to: nat, off: nat, n: nat, path: Path)
    requires t.Agg? && from <= to <= |items| && to + off <= |t.fields|
    requires DetermineRange(items, t, from, to, off).Some?
    ensures forall i | from <= i < to :: Determine(items[i], t.fields[i + off].ty).Some?
    ensures (n, path) in PathsRange(items, t, from, to, off) <==>
            path != [] && exists i | from <= i < to ::
              path[0] == i + off && (n, path[1..]) in Paths(items[i], t.fields[i + off].ty)
    decreases items, to
  {
    hide Determine, Paths, Under;
    if from < to {
      RangeHas(items, t, from, to - 1, off, n, path);
      UnderHas(to - 1 + off, Paths(items[to - 1], t.fields[to - 1 + off].ty), n, path);
    }
  }

  lemma {:induction false} PartsHave(items: seq<Pattern>, t: DType, to: nat, n: nat, path: Path)
    requires t.Agg? && to <= |items| && DetermineParts(items, t, to).Some?
    ensures forall i | 0 <= i < to ::
              PartPos(t, items[i].key) < |t.fields| && Determine(items[i], t.fields[PartPos(t, items[i].key)].ty).Some?
    ensures (n, path) in PathsParts(items, t, to) <==>
            path != [] && exists i | 0 <= i < to ::
              var pos := PartPos(t, items[i].key); path[0] == pos && (n, path[1..]) in Paths(items[i], t.fields[pos].ty)
    decreases items, to
  {
    hide Determine, Paths, Under, PartPos;
    if to > 0 {
      var pos := PartPos(t, items[to - 1].key);
      PartsHave(items, t, to - 1, n, path);
      UnderHas(pos, Paths(items[to - 1], t.fields[pos].ty), n, path);
    }
  }

  lemma OneRest(p: Pattern)
    requires p.PTuple? && RestOk(p)
    ensures forall i | 0 <= i < |p.items| && i != RestPos(p.items) :: !p.items[i].PRest?
    ensures RestPos(p.items) < |p.items| ==> p.items[RestPos(p.items)].PRest?
  {
  }

  lemma TupleAgg(p: Pattern, t: DType)
    requires (p.PTuple? || p.PStruct?) && Determine(p, t).Some?
    ensures t.Agg? && GroupOk(p, t)
  {
  }

  /** Typing and binding go exactly to the places where the pattern has a name. */
  lemma {:induction false} PathsAre(p: Pattern, t: DType, n: nat, path: Path)
    requires RestOk(p) && Determine(p, t).Some?
    ensures (n, path) in Paths(p, t) <==> Occurs(p, t, n, path)
    decreases p
  {
    match p
    case PVar(_, name, more) => EachHas([name] + more, [], (n, path));
    case PTuple(_, _, _, _) => PathsAreTuple(p, t, n, path);
    case PStruct(_, _, _, _) => PathsAreStruct(p, t, n, path);
    case PIgnore(_) =>
    case PRest(_) =>
  }

  /** The field of item i of a tuple pattern with `..` at k (or k == |items|). */
  function FieldOfItem(p: Pattern, t: DType, k: nat, i: nat): int
    requires p.PTuple? && t.Agg?
  {
    if i < k then i else i + |t.fields| - |p.items|
  }

  lemma IsForTuple(p: Pattern, t: DType, i: nat, f: nat)
    requires p.PTuple? && t.Agg? && RestOk(p)
    ensures IsFor(p, t, i, f) <==>
            i < |p.items| && i != RestPos(p.items) && f < |t.fields| && f == FieldOfItem(p, t, RestPos(p.items), i)
  {
    hide RestOk, FieldFor;
    OneRest(p);
  }

  lemma IsForStruct(p: Pattern, t: DType, i: nat, f: nat)
    requires p.PStruct? && t.Agg? && RestOk(p)
    ensures IsFor(p, t, i, f) <==> i < EndPos(p.items) && f < |t.fields| && f == PartPos(t, p.items[i].key)
  {
    if i < |p.items| {
      PartPosIs(t, p.items[i].key);
    }
  }

  lemma OccursIn(p: Pattern, t: DType, n: nat, path: Path)
    requires p.PTuple? || p.PStruct?
    ensures Occurs(p, t, n, path) <==>
            if path == [] then n in p.more
            else exists i | 0 <= i < |p.items| ::
              IsFor(p, t, i, path[0]) && Occurs(p.items[i], t.fields[path[0]].ty, n, path[1..])
  {
  }

  lemma {:induction false} PathsAreTuple(p: Pattern, t: DType, n: nat, path: Path)
    requires p.PTuple? && RestOk(p) && Determine(p, t).Some?
    ensures (n, path) in Paths(p, t) <==> Occurs(p, t, n, path)
    decreases p, 0
  {
    hide RestOk, Occurs, IsFor, Determine, PathsRange, DetermineRange, RestPos, Each;
    var items, k := p.items, RestPos(p.items);
    TupleAgg(p, t);
    StepDetermine(p, t);
    ItemsOk(p);
    OneRest(p);
    OccursIn(p, t, n, path);
    EachHas(p.more, [], (n, path));
    RangeHas(items, t, 0, k, 0, n, path);
    if k < |items| {
      RangeHas(items, t, k + 1, |items|, |t.fields| - |items|, n, path);
    }
    TuplePaths(p, t);
    if path != [] {
      forall i | 0 <= i < |items|
        ensures IsFor(p, t, i, path[0]) <==> i != k && path[0] < |t.fields| && path[0] == FieldOfItem(p, t, k, i)
        ensures IsFor(p, t, i, path[0]) ==>
                  Determine(items[i], t.fields[path[0]].ty).Some? &&
                  ((n, path[1..]) in Paths(items[i], t.fields[path[0]].ty) <==>
                   Occurs(items[i], t.fields[path[0]].ty, n, path[1..]))
      {
        IsForTuple(p, t, i, path[0]);
        if IsFor(p, t, i, path[0]) {
          PathsAre(items[i], t.fields[path[0]].ty, n, path[1..]);
        }
      }
    }
  }

  lemma ItemsOk(p: Pattern)
    requires (p.PTuple? || p.PStruct?) && RestOk(p)
    ensures forall i | 0 <= i < |p.items| :: p.items[i].PRest? || RestOk(p.items[i])
  {
  }

  lemma TuplePaths(p: Pattern, t: DType)
    requires p.PTuple? && Determine(p, t).Some?
    ensures t.Agg? && |p.items| <= |t.fields| && (RestPos(p.items) == |p.items| ==> |p.items| == |t.fields|)
    ensures var k := RestPos(p.items);
            && DetermineRange(p.items, t, 0, k, 0).Some?
            && (k < |p.items| ==> DetermineRange(p.items, t, k + 1, |p.items|, |t.fields| - |p.items|).Some?)
            && Paths(p, t) == Each(p.more, []) + PathsRange(p.items, t, 0, k, 0) +
                 if k == |p.items| then [] else PathsRange(p.items, t, k + 1, |p.items|, |t.fields| - |p.items|)
  {
    hide DetermineRange, PathsRange, Each, RestPos;
  }

  lemma {:induction false} PathsAreStruct(p: Pattern, t: DType, n: nat, path: Path)
    requires p.PStruct? && RestOk(p) && Determine(p, t).Some?
    ensures (n, path) in Paths(p, t) <==> Occurs(p, t, n, path)
    decreases p, 0
  {
    hide RestOk, Occurs, IsFor, Determine, PathsParts, DetermineParts, PartPos, Each;
    var items, k := p.items, EndPos(p.items);
    TupleAgg(p, t);
    StepDetermineParts(p, t);
    ItemsOk(p);
    OccursIn(p, t, n, path);
    EachHas(p.more, [], (n, path));
    PartsHave(items, t, k, n, path);
    StructPaths(p, t);
    if path != [] {
      forall i | 0 <= i < |items|
        ensures IsFor(p, t, i, path[0]) <==> i < k && path[0] == PartPos(t, items[i].key)
        ensures IsFor(p, t, i, path[0]) ==>
                  ((n, path[1..]) in Paths(items[i], t.fields[path[0]].ty) <==>
                   Occurs(items[i], t.fields[path[0]].ty, n, path[1..]))
      {
        IsForStruct(p, t, i, path[0]);
        if IsFor(p, t, i, path[0]) {
          PartItemOk(p, i);
          PathsAre(items[i], t.fields[path[0]].ty, n, path[1..]);
        }
      }
    }
  }

  lemma PartItemOk(p: Pattern, i: nat)
    requires p.PStruct? && RestOk(p) && i < EndPos(p.items)
    ensures RestOk(p.items[i])
  {
  }

  lemma StructPaths(p: Pattern, t: DType)
    requires p.PStruct? && Determine(p, t).Some?
    ensures t.Agg? && DetermineParts(p.items, t, EndPos(p.items)).Some?
    ensures Paths(p, t) == Each(p.more, []) + PathsParts(p.items, t, EndPos(p.items))
  {
    hide DetermineParts, PathsParts, Each;
  }

  // ----- meaning -----

  /** A name stands at the same places in the pattern and in its spelled-out form: an item
      before `..` is for the field counted from the left, one after it for the field counted
      from the right. */
  lemma {:induction false} OccursSpelled(p: Pattern, t: DType, n: nat, path: Path)
    requires RestOk(p) && Determine(p, t).Some?
    ensures Occurs(p, t, n, path) <==> Occurs(Spell(p, t), t, n, path)
    decreases p
  {
    match p
    case PTuple(_, _, _, _) => OccursTuple(p, t, n, path);
    case PStruct(_, _, _, _) => OccursStruct(p, t, n, path);
    case _ =>
  }

  lemma {:induction false} OccursTuple(p: Pattern, t: DType, n: nat, path: Path)
    requires p.PTuple? && RestOk(p) && Determine(p, t).Some?
    ensures Occurs(p, t, n, path) <==> Occurs(Spell(p, t), t, n, path)
    decreases p, 0
  {
    hide RestOk, Occurs, IsFor, Determine, DetermineRange, RestPos, Spell, SpellFrom, Ty;
    TupleAgg(p, t);
    var items, k, q := p.items, RestPos(p.items), Spell(p, t);
    var w := if k == |items| then 0 else |t.fields| - |items|;
    StepDetermine(p, t);
    ItemsOk(p);
    OneRest(p);
    TupleSpelled(p, t, k, w);
    OccursIn(p, t, n, path);
    OccursIn(q, t, n, path);
    if path != [] && path[0] < |t.fields| {
      var f := path[0];
      forall i | 0 <= i < |items|
        ensures IsFor(p, t, i, f) <==> i != k && f == FieldOfItem(p, t, k, i)
      {
        IsForTuple(p, t, i, f);
      }
      forall j | 0 <= j < |q.items|
        ensures IsFor(q, t, j, f) <==> j == f && !q.items[j].PRest?
      {
        IsForPlain(q, t, j, f);
      }
      if f < k || f > k + w {
        var i := if f < k then f else f - w;
        assert IsFor(p, t, i, f);
        TyIs(t, k, w, i);
        ItemDetermined(p, t, k, w, i);
        OccursSpelled(items[i], t.fields[f].ty, n, path[1..]);
        SpellKind(items[i], t.fields[f].ty);
        assert IsFor(q, t, f, f);
      } else {
        WildOccurs(q.items[f], t.fields[f].ty, n, path[1..]);
      }
    } else if path != [] {
      forall i | 0 <= i < |items| ensures !IsFor(p, t, i, path[0]) { NotFor(p, t, i, path[0]); }
      forall j | 0 <= j < |q.items| ensures !IsFor(q, t, j, path[0]) { NotFor(q, t, j, path[0]); }
    }
  }

  lemma NotFor(p: Pattern, t: DType, i: nat, f: nat)
    requires (p.PTuple? || p.PStruct?) && t.Agg? && f >= |t.fields|
    ensures !IsFor(p, t, i, f)
  {
  }

  lemma WildOccurs(q: Pattern, t: DType, n: nat, path: Path)
    requires q.PIgnore?
    ensures !Occurs(q, t, n, path)
  {
  }

  /** Without `..` item j is for field j. */
  lemma IsForPlain(q: Pattern, t: DType, j: nat, f: nat)
    requires q.PTuple? && t.Agg? && |q.items| == |t.fields| && j < |q.items| && f < |t.fields|
    ensures IsFor(q, t, j, f) <==> j == f && !q.items[j].PRest?
  {
  }

  lemma TupleSpelled(p: Pattern, t: DType, k: nat, w: nat)
    requires p.PTuple? && t.Agg? && RestOk(p) && GroupOk(p, t)
    requires k == RestPos(p.items) && w == if k == |p.items| then 0 else |t.fields| - |p.items|
    ensures var q := Spell(p, t);
            && q.PTuple? && q.more == p.more && |q.items| == |t.fields|
            && (forall j | 0 <= j < |t.fields| && (j < k || j > k + w) ::
                  var i := if j < k then j else j - w;
                  i < |p.items| && i != k && q.items[j] == Spell(p.items[i], Ty(t, k, w, i)))
            && (k < |p.items| ==> forall j | k <= j <= k + w :: q.items[j].PIgnore?)
  {
    hide RestOk, SpellFrom, Ty, RestPos;
    SpelledAt(p, t, k, w);
  }

  lemma ItemDetermined(p: Pattern, t: DType, k: nat, w: nat, i: nat)
    requires p.PTuple? && t.Agg? && RestOk(p) && Determine(p, t).Some? && i < |p.items| && i != k
    requires k == RestPos(p.items) && w == if k == |p.items| then 0 else |t.fields| - |p.items|
    ensures (if i < k then i else i + w) < |t.fields| && Determine(p.items[i], Ty(t, k, w, i)).Some?
  {
    hide RestOk, Determine, DetermineRange, RestPos;
    TuplePaths(p, t);
    DetermineEach(p.items, t, 0, k, 0);
    if k < |p.items| {
      DetermineEach(p.items, t, k + 1, |p.items|, w);
    }
    assert i < k ==> t.fields[i + 0] == t.fields[i];
  }

  lemma {:induction false} OccursStruct(p: Pattern, t: DType, n: nat, path: Path)
    requires p.PStruct? && RestOk(p) && Determine(p, t).Some?
    ensures Occurs(p, t, n, path) <==> Occurs(Spell(p, t), t, n, path)
    decreases p, 0
  {
    hide RestOk, Occurs, IsFor, Determine, DetermineParts, Spell, PartPos, FieldFor;
    var items, k, q := p.items, EndPos(p.items), Spell(p, t);
    TupleAgg(p, t);
    SpelledParts(p, t);
    StructPaths(p, t);
    DetermineEachPart(items, t, k);
    OccursIn(p, t, n, path);
    OccursIn(q, t, n, path);
    if path != [] {
      forall i | 0 <= i < |items|
        ensures IsFor(p, t, i, path[0]) <==> i < k && path[0] == PartPos(t, items[i].key)
        ensures IsFor(q, t, i, path[0]) <==> IsFor(p, t, i, path[0])
        ensures IsFor(p, t, i, path[0]) ==>
                  (Occurs(items[i], t.fields[path[0]].ty, n, path[1..]) <==>
                   Occurs(q.items[i], t.fields[path[0]].ty, n, path[1..]))
      {
        IsForStruct(p, t, i, path[0]);
        SameFor(p, q, t, i, path[0]);
        if IsFor(p, t, i, path[0]) {
          PartItemOk(p, i);
          OccursSpelled(items[i], t.fields[path[0]].ty, n, path[1..]);
        }
      }
    }
  }

  lemma SameFor(p: Pattern, q: Pattern, t: DType, i: nat, f: nat)
    requires p.PStruct? && q.PStruct? && |p.items| == |q.items| && i < |p.items|
    requires q.items[i].key == p.items[i].key && (q.items[i].PRest? <==> p.items[i].PRest?)
    ensures IsFor(q, t, i, f) <==> IsFor(p, t, i, f)
  {
  }

  /** The types given are exactly those at the places where the spelled-out pattern has the
      names, signature included. */
  lemma DetermineMeans(p: Pattern, t: DType, n: nat, u: DType)
    requires RestOk(p) && Determine(p, t).Some?
    ensures Fits(Spell(p, t), t)
    ensures (n, u) in Determine(p, t).value <==>
            exists path :: Occurs(Spell(p, t), t, n, path) && TypeAt(t, path) == u
    ensures (n, u) in Determine(p, t).value <==> exists path :: Occurs(p, t, n, path) && TypeAt(t, path) == u
  {
    hide RestOk, Determine, Paths, Occurs, Spell, Fits, SkipsSome, TypeAt;
    AcceptedIff(p, t);
    PathsTyped(p, t);
    var ps := Paths(p, t);
    forall path
      ensures (n, path) in ps <==> Occurs(p, t, n, path)
      ensures Occurs(p, t, n, path) <==> Occurs(Spell(p, t), t, n, path)
    {
      PathsAre(p, t, n, path);
      OccursSpelled(p, t, n, path);
    }
    if (n, u) in Determine(p, t).value {
      var i :| 0 <= i < |ps| && TypesAt(t, ps)[i] == (n, u);
      assert (n, ps[i].1) in ps && Occurs(Spell(p, t), t, n, ps[i].1);
    }
    if path :| Occurs(Spell(p, t), t, n, path) && TypeAt(t, path) == u {
      assert Occurs(p, t, n, path);
      var i :| 0 <= i < |ps| && ps[i] == (n, path);
      assert TypesAt(t, ps)[i] == (n, u);
    }
    assert forall path :: Occurs(p, t, n, path) ==> Occurs(Spell(p, t), t, n, path);
  }

  /** The values bound are exactly those at the places where the spelled-out pattern has the
      names. */
  lemma BindMeans(p: Pattern, v: Val, t: DType, n: nat, x: Val)
    requires RestOk(p) && Determine(p, t).Some? && HasType(v, t)
    ensures Fits(Spell(p, t), t)
    ensures (n, x) in Bind(p, v, t) <==> exists path :: Occurs(Spell(p, t), t, n, path) && ValueAt(v, path) == x
    ensures (n, x) in Bind(p, v, t) <==> exists path :: Occurs(p, t, n, path) && ValueAt(v, path) == x
  {
    hide RestOk, Determine, Bind, Paths, Occurs, Spell, Fits, SkipsSome, ValueAt, HasType;
    AcceptedIff(p, t);
    PathsBound(p, v, t);
    var ps := Paths(p, t);
    forall path
      ensures (n, path) in ps <==> Occurs(p, t, n, path)
      ensures Occurs(p, t, n, path) <==> Occurs(Spell(p, t), t, n, path)
    {
      PathsAre(p, t, n, path);
      OccursSpelled(p, t, n, path);
    }
    if (n, x) in Bind(p, v, t) {
      var i :| 0 <= i < |ps| && ValuesAt(v, ps)[i] == (n, x);
      assert (n, ps[i].1) in ps && Occurs(Spell(p, t), t, n, ps[i].1);
    }
    if path :| Occurs(Spell(p, t), t, n, path) && ValueAt(v, path) == x {
      assert Occurs(p, t, n, path);
      var i :| 0 <= i < |ps| && ps[i] == (n, path);
      assert ValuesAt(v, ps)[i] == (n, x);
    }
    assert forall path :: Occurs(p, t, n, path) ==> Occurs(Spell(p, t), t, n, path);
  }

  /** `let P { x: a, y: b } = p`: each variable has the field it names, however they are listed. */
  lemma ByName(sig: nat, x: nat, y: nat, a: nat, b: nat, u: DType, w: DType, i: Val, j: Val)
    requires x != y && HasType(i, u) && HasType(j, w)
    ensures var t, v := Agg(sig, NamedStruct, [Field(x, u), Field(y, w)]), Fields([i, j]);
            var p, p1 := PStruct(0, None, [], [PVar(x, a, []), PVar(y, b, [])]),
                         PStruct(0, None, [], [PVar(y, b, []), PVar(x, a, [])]);
            && Determine(p, t) == Some([(a, u), (b, w)]) && Determine(p1, t) == Some([(b, w), (a, u)])
            && HasType(v, t) && Bind(p, v, t) == [(a, i), (b, j)] && Bind(p1, v, t) == [(b, j), (a, i)]
  {
    var t, v := Agg(sig, NamedStruct, [Field(x, u), Field(y, w)]), Fields([i, j]);
    PartPosIs(t, x);
    PartPosIs(t, y);
    assert FieldFor(t, x, 0) && FieldFor(t, y, 1);
    PairParts(t, v, PVar(x, a, []), PVar(y, b, []));
    PairParts(t, v, PVar(y, b, []), PVar(x, a, []));
  }

  lemma PairParts(t: DType, v: Val, p: Pattern, q: Pattern)
    requires p.PVar? && q.PVar? && p.more == q.more == [] && t.Agg? && |t.fields| == 2 && t.kind == NamedStruct
    requires HasType(v, t) && PartPos(t, p.key) < 2 && PartPos(t, q.key) < 2
    ensures var f, g, s := PartPos(t, p.key), PartPos(t, q.key), PStruct(0, None, [], [p, q]);
            && Determine(s, t) == Some([(p.name, t.fields[f].ty), (q.name, t.fields[g].ty)])
            && Bind(s, v, t) == [(p.name, v.vs[f]), (q.name, v.vs[g])]
  {
    hide PartPos;
    var items := [p, q];
    var f, g := PartPos(t, p.key), PartPos(t, q.key);
    var u, w := t.fields[f].ty, t.fields[g].ty;
    assert [p.name] + p.more == [p.name] && [q.name] + q.more == [q.name];
    assert Each([p.name], u) == [(p.name, u)] && Each([q.name], w) == [(q.name, w)];
    assert Each([p.name], v.vs[f]) == [(p.name, v.vs[f])] && Each([q.name], v.vs[g]) == [(q.name, v.vs[g])];
    assert Each([], t) == [] && Each([], v) == [];
    assert Determine(p, u) == Some([(p.name, u)]) && Determine(q, w) == Some([(q.name, w)]);
    PartsMore(items, t, 1, [], u);
    assert [] + [(p.name, u)] == [(p.name, u)];
    PartsMore(items, t, 2, [(p.name, u)], w);
    var tys, vals := [(p.name, u), (q.name, w)], [(p.name, v.vs[f]), (q.name, v.vs[g])];
    assert [(p.name, u)] + [(q.name, w)] == tys && [] + tys == tys && [] + vals == vals;
    assert EndPos(items) == 2 && items[0] == p && items[1] == q;
    assert BindParts(items, v, t, 1) == [(p.name, v.vs[f])];
    assert BindParts(items, v, t, 2) == [(p.name, v.vs[f]), (q.name, v.vs[g])];
  }

  lemma PartsMore(items: seq<Pattern>, t: DType, to: nat, before: seq<(nat, DType)>, u: DType)
    requires t.Agg? && 0 < to <= |items| && PartPos(t, items[to - 1].key) < |t.fields|
    requires DetermineParts(items, t, to - 1) == Some(before)
    requires items[to - 1].PVar? && items[to - 1].more == [] && u == t.fields[PartPos(t, items[to - 1].key)].ty
    ensures DetermineParts(items, t, to) == Some(before + [(items[to - 1].name, u)])
  {
    hide PartPos;
    assert Each([items[to - 1].name] + [], u) == [(items[to - 1].name, u)];
  }

  lemma TyIs(t: DType, k: nat, w: nat, i: nat)
    requires t.Agg? && (if i < k then i else i + w) < |t.fields|
    ensures Ty(t, k, w, i) == t.fields[if i < k then i else i + w].ty
  {
  }

  /** Item i of the source is item i or i + w of the spelled-out form; between are wildcards. */
  lemma SpelledAt(p: Pattern, t: DType, k: nat, w: nat)
    requires p.PTuple? && t.Agg? && RestOk(p) && GroupOk(p, t)
    requires k == RestPos(p.items) && w == if k == |p.items| then 0 else |t.fields| - |p.items|
    ensures |SpellFrom(p.items, t, 0)| == |t.fields|
    ensures forall j | 0 <= j < |t.fields| && (j < k || j > k + w) ::
              var i := if j < k then j else j - w;
              i < |p.items| && i != k && SpellFrom(p.items, t, 0)[j] == Spell(p.items[i], Ty(t, k, w, i))
    ensures k < |p.items| ==> forall j | k <= j <= k + w :: SpellFrom(p.items, t, 0)[j].PIgnore?
  {
    hide Spell, SpellFrom, RestOk, RestPos, Ty;
    OneRest(p);
    var items, q := p.items, SpellFrom(p.items, t, 0);
    if k == |items| {
      SpellPlain(items, t, 0);
      forall j | 0 <= j < k
        ensures q[j] == Spell(items[j], Ty(t, k, w, j))
      {
        TyIs(t, k, w, j);
        assert t.fields[0 + j] == t.fields[j];
      }
    } else {
      SpellRest(items, t, 0, k);
      forall j | 0 <= j < k
        ensures q[j] == Spell(items[j], Ty(t, k, w, j))
      {
        TyIs(t, k, w, j);
        assert t.fields[0 + j] == t.fields[j];
      }
      forall j | k + w < j < |t.fields|
        ensures q[j] == Spell(items[j - w], Ty(t, k, w, j - w))
      {
        TyIs(t, k, w, j - w);
        assert q[(j - w) + w] == Spell(items[j - w], t.fields[0 + (j - w) + w].ty);
      }
    }
  }
}
