/** Function names in the generated module: a kind string for the scopes around the function,
    then the names with their lengths. */
module Mangling {
  import opened Syntax

  datatype Scope = Block(id: nat) | Function(name: string)

  /** The function itself: in a scope, of a struct, or of a trait for a struct. */
  datatype Tail =
    | Plain(name: string)
    | Method(struct_: string, name: string)
    | TraitMethod(trait_: string, struct_: string, name: string)

  datatype FnPath = FnPath(scopes: seq<Scope>, tail: Tail)

  const Prefix: string := "_CA$"

  function Digits(n: nat): (s: string)
    ensures s != [] && AllDigits(s)
  {
    var d := [('0' as int + n % 10) as char];
    if n < 10 then d else Digits(n / 10) + d
  }

  predicate IsDigit(c: char) { '0' <= c <= '9' }

  predicate AllDigits(s: string) { forall i | 0 <= i < |s| :: IsDigit(s[i]) }

  /** A name as the lexer makes it: it does not start with a digit and has no `$`. */
  predicate Ident(s: string) {
    s != [] && !IsDigit(s[0]) && '$' !in s
  }

  function Counted(name: string): string { Digits(|name|) + name }

  function ScopeKind(s: Scope): string {
    if s.Block? then "L" + Digits(s.id) else "F"
  }

  function ScopeName(s: Scope): string {
    if s.Block? then [] else Counted(s.name)
  }

  function TailKind(t: Tail): string {
    match t case Plain(_) => "F" case Method(_, _) => "SF" case TraitMethod(_, _, _) => "TSF"
  }

  function TailNames(t: Tail): string {
    match t
    case Plain(n) => Counted(n)
    case Method(s, n) => Counted(s) + Counted(n)
    case TraitMethod(tr, s, n) => Counted(tr) + Counted(s) + Counted(n)
  }

  function Kinds(scopes: seq<Scope>): string {
    if scopes == [] then [] else Kinds(scopes[..|scopes| - 1]) + ScopeKind(scopes[|scopes| - 1])
  }

  function Names(scopes: seq<Scope>): string {
    if scopes == [] then [] else Names(scopes[..|scopes| - 1]) + ScopeName(scopes[|scopes| - 1])
  }

  function Mangled(p: FnPath): string {
    Prefix + Kinds(p.scopes) + TailKind(p.tail) + Names(p.scopes) + TailNames(p.tail)
  }

  /** A function outside any scope and not of a struct keeps its name. */
  function FullName(p: FnPath): string {
    if p.scopes == [] && p.tail.Plain? then p.tail.name else Mangled(p)
  }

  /** The scopes are gone through twice: for the kinds, then for the names. */
  method MangleFunctionName(scopes: seq<Scope>, tail: Tail) returns (name: string)
    ensures name == FullName(FnPath(scopes, tail))
    ensures scopes == [] && tail.Plain? ==> name == tail.name
    ensures scopes != [] || !tail.Plain? ==> Prefix <= name
  {
    hide Kinds, Names, Counted, TailKind, TailNames;
    if scopes == [] && tail.Plain? {
      return tail.name;
    }
    name := Prefix;
    var first := true;
    var i := 0;
    while i < 2
      invariant 0 <= i <= 2 && first == (i == 0)
      invariant i == 0 ==> name == Prefix
      invariant i == 1 ==> name == Prefix + Kinds(scopes) + TailKind(tail)
      invariant i == 2 ==> name == Mangled(FnPath(scopes, tail))
    {
      name := AppendScopes(name, scopes, first);
      name := name + if first then TailKind(tail) else TailNames(tail);
      first := false;
      i := i + 1;
    }
  }

  method AppendScopes(start: string, scopes: seq<Scope>, first: bool) returns (name: string)
    ensures name == start + if first then Kinds(scopes) else Names(scopes)
  {
    hide Kinds, Names, ScopeKind, ScopeName;
    NothingYet();
    name := start;
    for k := 0 to |scopes|
      invariant name == start + if first then Kinds(scopes[..k]) else Names(scopes[..k])
    {
      OneMore(scopes, k);
      var piece := ScopePiece(scopes[k], first);
      ghost var before := if first then Kinds(scopes[..k]) else Names(scopes[..k]);
      assert start + before + piece == start + (before + piece);
      name := name + piece;
    }
    assert scopes[..|scopes|] == scopes;
  }

  method ScopePiece(s: Scope, first: bool) returns (piece: string)
    ensures piece == if first then ScopeKind(s) else ScopeName(s)
  {
    match s
    case Block(id) => piece := if first then "L" + Digits(id) else "";
    case Function(fn) => piece := if first then "F" else Counted(fn);
  }

  lemma OneMore(scopes: seq<Scope>, k: nat)
    requires k < |scopes|
    ensures Kinds(scopes[..k + 1]) == Kinds(scopes[..k]) + ScopeKind(scopes[k])
    ensures Names(scopes[..k + 1]) == Names(scopes[..k]) + ScopeName(scopes[k])
  {
    assert scopes[..k + 1][..k] == scopes[..k];
  }

  lemma NothingYet()
    ensures Kinds([]) == [] && Names([]) == []
  {
  }

  // ----- demangling -----

  /** A kind letter with its number, or with its name. */
  datatype Part = Lex(id: nat) | Named(tag: char, name: string)

  function Parts(p: FnPath): seq<Part> {
    ScopeParts(p.scopes) + TailParts(p.tail)
  }

  function ScopePart(s: Scope): Part {
    if s.Block? then Lex(s.id) else Named('F', s.name)
  }

  function ScopeParts(scopes: seq<Scope>): (r: seq<Part>)
    ensures |r| == |scopes| && forall i | 0 <= i < |scopes| :: r[i] == ScopePart(scopes[i])
  {
    seq(|scopes|, i requires 0 <= i < |scopes| => ScopePart(scopes[i]))
  }

  function TailParts(t: Tail): seq<Part> {
    match t
    case Plain(n) => [Named('F', n)]
    case Method(s, n) => [Named('S', s), Named('F', n)]
    case TraitMethod(tr, s, n) => [Named('T', tr), Named('S', s), Named('F', n)]
  }

  function PartKind(p: Part): string {
    if p.Lex? then "L" + Digits(p.id) else [p.tag]
  }

  function PartName(p: Part): string {
    if p.Lex? then [] else Counted(p.name)
  }

  function PartKinds(ps: seq<Part>): string {
    if ps == [] then [] else PartKind(ps[0]) + PartKinds(ps[1..])
  }

  function PartNames(ps: seq<Part>): string {
    if ps == [] then [] else PartName(ps[0]) + PartNames(ps[1..])
  }

  function DigitsEnd(s: string): (k: nat)
    ensures k <= |s| && AllDigits(s[..k]) && (k < |s| ==> !IsDigit(s[k]))
  {
    if s == [] || !IsDigit(s[0]) then 0 else 1 + DigitsEnd(s[1..])
  }

  function ValueOf(s: string): nat
    requires AllDigits(s)
  {
    if s == [] then 0 else ValueOf(s[..|s| - 1]) * 10 + (s[|s| - 1] as int - '0' as int)
  }

  /** The kind letters, up to the first digit that does not belong to an `L`. */
  function ReadKinds(s: string): Option<(seq<Part>, string)>
    decreases |s|
  {
    if s == [] then None
    else if IsDigit(s[0]) then Some(([], s))
    else
      var tl := s[1..];
      var k := if s[0] == 'L' then DigitsEnd(tl) else 0;
      var rest := ReadKinds(tl[k..]);
      if rest.None? then None
      else Some(([if s[0] == 'L' then Lex(ValueOf(tl[..k])) else Named(s[0], [])] + rest.value.0, rest.value.1))
  }

  /** Fills in the names. */
  function ReadNames(ps: seq<Part>, s: string): Option<seq<Part>> {
    if ps == [] then (if s == [] then Some([]) else None)
    else if ps[0].Lex? then
      var rest := ReadNames(ps[1..], s);
      if rest.None? then None else Some([ps[0]] + rest.value)
    else
      var k := DigitsEnd(s);
      var n := ValueOf(s[..k]);
      if k + n > |s| then None else
      var rest := ReadNames(ps[1..], s[k + n..]);
      if rest.None? then None else Some([Named(ps[0].tag, s[k..k + n])] + rest.value)
  }

  function ToScopes(ps: seq<Part>): seq<Scope> {
    seq(|ps|, i requires 0 <= i < |ps| => if ps[i].Lex? then Scope.Block(ps[i].id) else Function(ps[i].name))
  }

  function ToPath(ps: seq<Part>): Option<FnPath> {
    var n := |ps|;
    if n == 0 || ps[n - 1].Lex? then None
    else if n >= 2 && ps[n - 2].Named? && ps[n - 2].tag == 'S' then
      if n >= 3 && ps[n - 3].Named? && ps[n - 3].tag == 'T' then
        Some(FnPath(ToScopes(ps[..n - 3]), TraitMethod(ps[n - 3].name, ps[n - 2].name, ps[n - 1].name)))
      else Some(FnPath(ToScopes(ps[..n - 2]), Method(ps[n - 2].name, ps[n - 1].name)))
    else Some(FnPath(ToScopes(ps[..n - 1]), Plain(ps[n - 1].name)))
  }

  function Demangle(s: string): Option<FnPath> {
    if !(Prefix <= s) then Some(FnPath([], Plain(s))) else
    var ks := ReadKinds(s[|Prefix|..]);
    if ks.None? then None else
    var ps := ReadNames(ks.value.0, ks.value.1);
    if ps.None? then None else ToPath(ps.value)
  }

  // ----- demangling is the inverse -----

  predicate PathOk(p: FnPath) {
    && (forall s | s in p.scopes && s.Function? :: Ident(s.name))
    && Ident(p.tail.name)
    && (!p.tail.Plain? ==> Ident(p.tail.struct_))
    && (p.tail.TraitMethod? ==> Ident(p.tail.trait_))
  }

  predicate PartsOk(ps: seq<Part>) {
    forall p | p in ps && p.Named? :: Ident(p.name) && p.tag in {'F', 'S', 'T'}
  }

  lemma {:induction false} ValueDigits(n: nat)
    ensures ValueOf(Digits(n)) == n
  {
    var d := ('0' as int + n % 10) as char;
    if n < 10 {
      assert Digits(n) == [d] && [d][..0] == [];
    } else {
      ValueDigits(n / 10);
      assert Digits(n)[..|Digits(n)| - 1] == Digits(n / 10);
    }
  }

  lemma {:induction false} DigitsEndOf(ds: string, rest: string)
    requires AllDigits(ds) && (rest != [] ==> !IsDigit(rest[0]))
    ensures DigitsEnd(ds + rest) == |ds|
  {
    if ds == [] {
      assert ds + rest == rest;
    } else {
      assert (ds + rest)[1..] == ds[1..] + rest;
      DigitsEndOf(ds[1..], rest);
    }
  }

  function Blank(ps: seq<Part>): (r: seq<Part>)
    ensures |r| == |ps|
  {
    seq(|ps|, i requires 0 <= i < |ps| => if ps[i].Lex? then ps[i] else Named(ps[i].tag, []))
  }

  lemma {:induction false} KindsStart(ps: seq<Part>)
    requires PartsOk(ps) && ps != []
    ensures PartKinds(ps) != [] && !IsDigit(PartKinds(ps)[0])
  {
    assert ps[0] in ps;
  }

  lemma {:induction false} ReadKindsBack(ps: seq<Part>, rest: string)
    requires PartsOk(ps) && rest != [] && IsDigit(rest[0])
    requires ps != [] ==> ps[|ps| - 1].Named?
    ensures ReadKinds(PartKinds(ps) + rest) == Some((Blank(ps), rest))
    decreases |ps|
  {
    hide PartKind, ReadKinds;
    if ps == [] {
      assert PartKinds(ps) + rest == rest;
      ReadEnd(rest);
    } else {
      assert ps[0] in ps;
      var tl := ps[1..];
      var s1 := PartKinds(tl) + rest;
      ReadKindsBack(tl, rest);
      assert Blank(ps) == [if ps[0].Lex? then ps[0] else Named(ps[0].tag, [])] + Blank(tl);
      if ps[0].Lex? {
        KindsStart(tl);
      }
      ReadPart(ps[0], s1);
      assert PartKinds(ps) + rest == PartKind(ps[0]) + s1;
    }
  }

  lemma ReadPart(p: Part, s1: string)
    requires ReadKinds(s1).Some? && if p.Lex? then s1 != [] && !IsDigit(s1[0]) else p.tag in {'F', 'S', 'T'}
    ensures ReadKinds(PartKind(p) + s1) ==
      Some(([if p.Lex? then p else Named(p.tag, [])] + ReadKinds(s1).value.0, ReadKinds(s1).value.1))
  {
    hide Digits, DigitsEnd, ValueOf, ReadKinds;
    if p.Lex? { ReadLex(p.id, s1); } else { ReadTag(p.tag, s1); }
  }

  lemma ReadEnd(rest: string)
    requires rest != [] && IsDigit(rest[0])
    ensures ReadKinds(rest) == Some(([], rest))
  {
  }

  lemma ReadLex(id: nat, s1: string)
    requires s1 != [] && !IsDigit(s1[0]) && ReadKinds(s1).Some?
    ensures ReadKinds("L" + Digits(id) + s1) == Some(([Lex(id)] + ReadKinds(s1).value.0, ReadKinds(s1).value.1))
  {
    hide Digits, DigitsEnd, ValueOf, ReadKinds;
    var ds := Digits(id);
    var s := "L" + ds + s1;
    ValueDigits(id);
    DigitsEndOf(ds, s1);
    assert s[1..] == ds + s1;
    assert (ds + s1)[..|ds|] == ds && (ds + s1)[|ds|..] == s1;
    StepLex(s, ds + s1, |ds|);
  }

  lemma StepLex(s: string, tl: string, k: nat)
    requires s != [] && s[0] == 'L' && tl == s[1..] && k == DigitsEnd(tl) && ReadKinds(tl[k..]).Some?
    ensures ReadKinds(s) == Some(([Lex(ValueOf(tl[..k]))] + ReadKinds(tl[k..]).value.0, ReadKinds(tl[k..]).value.1))
  {
  }

  lemma ReadTag(tag: char, s1: string)
    requires tag in {'F', 'S', 'T'} && ReadKinds(s1).Some?
    ensures ReadKinds([tag] + s1) == Some(([Named(tag, [])] + ReadKinds(s1).value.0, ReadKinds(s1).value.1))
  {
    var s := [tag] + s1;
    assert s[1..] == s1 && s1[0..] == s1;
  }

  lemma {:induction false} ReadNamesBack(ps: seq<Part>)
    requires PartsOk(ps)
    ensures ReadNames(Blank(ps), PartNames(ps)) == Some(ps)
    decreases |ps|
  {
    hide Digits, DigitsEnd, ValueOf, ReadNames, Counted;
    if ps == [] {
      ReadNoNames();
      assert Blank(ps) == [];
    } else {
      assert ps[0] in ps;
      var tl := ps[1..];
      ReadNamesBack(tl);
      assert Blank(ps) == [if ps[0].Lex? then ps[0] else Named(ps[0].tag, [])] + Blank(tl);
      assert [ps[0]] + tl == ps;
      if ps[0].Named? {
        ReadName(ps[0].tag, ps[0].name, Blank(tl), PartNames(tl));
      } else {
        ReadNoName(ps[0], Blank(tl), PartNames(tl));
        assert [] + PartNames(tl) == PartNames(tl);
      }
    }
  }

  lemma ReadNoNames()
    ensures ReadNames([], []) == Some([])
  {
  }

  lemma ReadNoName(p: Part, ps: seq<Part>, s: string)
    requires p.Lex? && ReadNames(ps, s).Some?
    ensures ReadNames([p] + ps, s) == Some([p] + ReadNames(ps, s).value)
  {
    assert ([p] + ps)[1..] == ps;
  }

  lemma ReadName(tag: char, name: string, ps: seq<Part>, s1: string)
    requires Ident(name) && ReadNames(ps, s1).Some?
    ensures ReadNames([Named(tag, [])] + ps, Counted(name) + s1) == Some([Named(tag, name)] + ReadNames(ps, s1).value)
  {
    hide Digits, DigitsEnd, ValueOf;
    var ds := Digits(|name|);
    var s := Counted(name) + s1;
    assert s == ds + (name + s1);
    DigitsEndOf(ds, name + s1);
    ValueDigits(|name|);
    assert s[..|ds|] == ds && s[|ds|..|ds| + |name|] == name && s[|ds| + |name|..] == s1;
    assert ([Named(tag, [])] + ps)[1..] == ps;
  }

  lemma {:induction false} PartKindsConcat(a: seq<Part>, b: seq<Part>)
    ensures PartKinds(a + b) == PartKinds(a) + PartKinds(b) && PartNames(a + b) == PartNames(a) + PartNames(b)
    decreases |a|
  {
    hide PartKinds, PartNames, PartKind, PartName;
    if a == [] {
      assert a + b == b;
      NoParts();
      assert [] + PartKinds(b) == PartKinds(b) && [] + PartNames(b) == PartNames(b);
    } else {
      assert (a + b)[0] == a[0] && (a + b)[1..] == a[1..] + b;
      HeadPart(a + b);
      HeadPart(a);
      PartKindsConcat(a[1..], b);
      Regroup(PartKind(a[0]), PartKinds(a[1..]), PartKinds(b));
      Regroup(PartName(a[0]), PartNames(a[1..]), PartNames(b));
    }
  }

  lemma HeadPart(ps: seq<Part>)
    requires ps != []
    ensures PartKinds(ps) == PartKind(ps[0]) + PartKinds(ps[1..])
    ensures PartNames(ps) == PartName(ps[0]) + PartNames(ps[1..])
  {
  }

  lemma Regroup(x: string, y: string, z: string)
    ensures x + (y + z) == x + y + z
  {
  }

  lemma {:induction false} ScopesText(scopes: seq<Scope>)
    ensures Kinds(scopes) == PartKinds(ScopeParts(scopes)) && Names(scopes) == PartNames(ScopeParts(scopes))
  {
    hide Digits, Counted, PartKinds, PartNames;
    if scopes == [] {
      NoParts();
    } else {
      var init, last := scopes[..|scopes| - 1], scopes[|scopes| - 1];
      ScopesText(init);
      assert ScopeParts(scopes) == ScopeParts(init) + [ScopePart(last)];
      PartKindsConcat(ScopeParts(init), [ScopePart(last)]);
      OnePart(ScopePart(last));
    }
  }

  lemma NoParts()
    ensures PartKinds([]) == [] && PartNames([]) == []
  {
  }

  lemma OnePart(p: Part)
    ensures PartKinds([p]) == if p.Lex? then "L" + Digits(p.id) else [p.tag]
    ensures PartNames([p]) == if p.Lex? then [] else Counted(p.name)
  {
    assert [p][1..] == [];
  }

  lemma TailText(t: Tail)
    ensures TailKind(t) == PartKinds(TailParts(t)) && TailNames(t) == PartNames(TailParts(t))
  {
    match t
    case Plain(n) => OnePart(Named('F', n));
    case Method(s, n) =>
      OnePart(Named('S', s));
      OnePart(Named('F', n));
      PartKindsConcat([Named('S', s)], [Named('F', n)]);
      assert TailParts(t) == [Named('S', s)] + [Named('F', n)];
    case TraitMethod(tr, s, n) =>
      OnePart(Named('T', tr));
      OnePart(Named('S', s));
      OnePart(Named('F', n));
      PartKindsConcat([Named('S', s)], [Named('F', n)]);
      PartKindsConcat([Named('T', tr)], [Named('S', s)] + [Named('F', n)]);
      assert TailParts(t) == [Named('T', tr)] + ([Named('S', s)] + [Named('F', n)]);
  }

  lemma ToPathBack(p: FnPath)
    ensures ToPath(Parts(p)) == Some(p)
  {
    var ps, n := Parts(p), |p.scopes|;
    assert forall i | 0 <= i < n :: ps[i] == ScopePart(p.scopes[i]);
    assert ps[..n] == ScopeParts(p.scopes);
    assert ToScopes(ScopeParts(p.scopes)) == p.scopes;
  }

  /** A mangled name can be read back: kinds, ids and names, whatever the scopes are. */
  lemma DemangleBack(p: FnPath)
    requires PathOk(p)
    ensures Demangle(FullName(p)) == Some(p)
  {
    hide ReadKinds, ReadNames, ToPath, PartKinds, PartNames, Kinds, Names, TailKind, TailNames, ToScopes, ScopeParts;
    var ps := Parts(p);
    if p.scopes == [] && p.tail.Plain? {
      assert Prefix[3] == '$';
    } else {
      var names := PartNames(ps);
      MangledParts(p);
      assert Mangled(p)[|Prefix|..] == PartKinds(ps) + names;
      PathParts(p);
      NamesStart(ps);
      ReadKindsBack(ps, names);
      ReadNamesBack(ps);
      ToPathBack(p);
    }
  }

  lemma MangledParts(p: FnPath)
    ensures Mangled(p) == Prefix + (PartKinds(Parts(p)) + PartNames(Parts(p)))
  {
    hide PartKinds, PartNames, Kinds, Names, TailKind, TailNames, ScopeParts, TailParts;
    ScopesText(p.scopes);
    TailText(p.tail);
    PartKindsConcat(ScopeParts(p.scopes), TailParts(p.tail));
  }

  lemma PathParts(p: FnPath)
    requires PathOk(p)
    ensures PartsOk(Parts(p)) && Parts(p) != [] && Parts(p)[|Parts(p)| - 1].Named?
  {
    var ps := Parts(p);
    forall q | q in ps && q.Named?
      ensures Ident(q.name) && q.tag in {'F', 'S', 'T'}
    {
      var i :| 0 <= i < |ps| && ps[i] == q;
      if i < |p.scopes| {
        assert p.scopes[i] in p.scopes;
      }
    }
  }

  lemma {:induction false} NamesStart(ps: seq<Part>)
    requires ps != [] && ps[|ps| - 1].Named?
    ensures PartNames(ps) != [] && IsDigit(PartNames(ps)[0])
    decreases |ps|
  {
    if ps[0].Lex? {
      NamesStart(ps[1..]);
      assert PartNames(ps) == PartNames(ps[1..]);
    } else {
      var ds := Digits(|ps[0].name|);
      assert PartNames(ps)[0] == ds[0];
    }
  }

  /** Two functions have the same name in the module if and only if they have the same path. */
  lemma FullNameInjective(p: FnPath, q: FnPath)
    requires PathOk(p) && PathOk(q)
    ensures FullName(p) == FullName(q) <==> p == q
  {
    DemangleBack(p);
    DemangleBack(q);
  }

  // Names the book and the tests list.

  lemma MethodText(s: string, n: string, x: string, y: string)
    requires Counted(s) == x && Counted(n) == y
    ensures FullName(FnPath([], Method(s, n))) == "_CA$SF" + x + y
  {
    hide Counted;
    NothingYet();
    assert Prefix + [] + "SF" + [] == "_CA$SF";
    assert "_CA$SF" + (x + y) == "_CA$SF" + x + y;
  }

  lemma CountedIs(n: string, d: string)
    requires |n| < 10 && d == [('0' as int + |n|) as char]
    ensures Counted(n) == d + n
  {
  }

  lemma SpelledNames()
    ensures "_CA$SF" + ("8" + "U32Param") + ("6" + "output") == "_CA$SF8U32Param6output"
    ensures "_CA$SF" + ("8" + "U64Param") + ("6" + "output") == "_CA$SF8U64Param6output"
    ensures "_CA$FL2F" + ("4" + "main") + ("5" + "hello") == "_CA$FL2F4main5hello"
  {
  }

  /** The methods `output` of two structs. */
  lemma BookNames()
    ensures FullName(FnPath([], Method("U32Param", "output"))) == "_CA$SF8U32Param6output"
    ensures FullName(FnPath([], Method("U64Param", "output"))) == "_CA$SF8U64Param6output"
  {
    hide FullName, Counted;
    CountedIs("output", "6");
    CountedIs("U32Param", "8");
    CountedIs("U64Param", "8");
    MethodText("U32Param", "output", "8" + "U32Param", "6" + "output");
    MethodText("U64Param", "output", "8" + "U64Param", "6" + "output");
    SpelledNames();
  }

  /** A function in the second body of another. */
  lemma InnerText(f: string, n: string, x: string, y: string)
    requires Counted(f) == x && Counted(n) == y
    ensures FullName(FnPath([Function(f), Scope.Block(2)], Plain(n))) == "_CA$FL2F" + x + y
  {
    hide Digits, Counted, Kinds, Names;
    var scopes := [Function(f), Scope.Block(2)];
    SmallDigits();
    NothingYet();
    OneMore(scopes, 0);
    OneMore(scopes, 1);
    assert scopes[..0] == [] && scopes[..2] == scopes;
    assert Prefix + ([] + "F" + ("L" + "2")) + "F" == "_CA$FL2F";
    assert [] + x + [] == x;
  }

  lemma TestName()
    ensures FullName(FnPath([Function("main"), Scope.Block(2)], Plain("hello"))) == "_CA$FL2F4main5hello"
  {
    hide FullName, Counted;
    CountedIs("main", "4");
    CountedIs("hello", "5");
    InnerText("main", "hello", "4" + "main", "5" + "hello");
    SpelledNames();
  }

  lemma SmallDigits()
    ensures Digits(2) == "2"
  {
  }

  /** A mangled name is never a name a program can write at top level. */
  lemma MangledNotIdent(p: FnPath, name: string)
    requires Ident(name)
    ensures Mangled(p) != name
  {
    assert Mangled(p)[3] == '$';
  }

  // ----- traits of one name -----

  /** A method of a trait for a struct, with the scopes both are declared in. */
  datatype TraitImpl = TraitImpl(scopes: seq<Scope>, struct_: string, traitScopes: seq<Scope>, trait_: string,
                                 name: string)

  /** The path of the method: the struct's scopes, but not the trait's. */
  function ImplPath(m: TraitImpl): FnPath {
    FnPath(m.scopes, TraitMethod(m.trait_, m.struct_, m.name))
  }

  /** Two methods of traits get the same name in the module if and only if they differ in
      nothing but where their traits are declared. */
  lemma TraitCollisionIff(m: TraitImpl, m1: TraitImpl)
    requires PathOk(ImplPath(m)) && PathOk(ImplPath(m1))
    ensures FullName(ImplPath(m)) == FullName(ImplPath(m1)) <==> m1 == m.(traitScopes := m1.traitScopes)
  {
    FullNameInjective(ImplPath(m), ImplPath(m1));
  }

  /** Trait `T` of function `f` and trait `T` of function `g`, both with `show`, for struct `S`. */
  lemma TwoTraits()
    ensures var m := TraitImpl([], "S", [Function("f")], "T", "show");
            var m1 := m.(traitScopes := [Function("g")]);
            m != m1 && FullName(ImplPath(m)) == FullName(ImplPath(m1)) == "_CA$TSF1T1S4show"
  {
    assert Digits(1) == "1" && Digits(4) == "4";
    assert Kinds([]) == [] && Names([]) == [];
  }
}
