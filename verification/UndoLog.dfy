/** Types written while a default trait method is compiled are undone afterwards. */
module UndoLog {

  /** Writes a type to an address, or compiles a function inside: with a trait association
      (then its writes are logged and undone) or without. */
  datatype Op = Write(addr: nat, ty: int) | Inner(assoc: bool, body: seq<Op>)

  type Types = map<nat, int>

  const NoValue: int := -1

  function Get(m: Types, a: nat): int {
    if a in m then m[a] else NoValue
  }

  datatype Frame = Frame(assoc: bool, log: Types)

  function Record(f: Frame, a: nat, was: int, ty: int): Frame {
    if !f.assoc || was == ty || a in f.log then f else f.(log := f.log[a := was])
  }

  function Undo(m: Types, f: Frame): Types {
    if f.assoc then m + f.log else m
  }

  function Run(ops: seq<Op>, m: Types, f: Frame): (Types, Frame)
    decreases ops, 0
  {
    if ops == [] then (m, f) else
    var (m1, f1) := Run(ops[..|ops| - 1], m, f);
    var op := ops[|ops| - 1];
    if op.Write? then (m1[op.addr := op.ty], Record(f1, op.addr, Get(m1, op.addr), op.ty))
    else (Compiled(op.assoc, op.body, m1), f1)
  }

  /** The types after a whole function. */
  function Compiled(assoc: bool, body: seq<Op>, m: Types): Types
    decreases body, 1
  {
    var (m1, f1) := Run(body, m, Frame(assoc, map[]));
    Undo(m1, f1)
  }

  // ----- the compiler's state -----

  class TypeStore {
    var types: Types
    var stack: seq<Frame>

    method RecordReplace(a: nat, was: int, ty: int)
      modifies this`stack
      ensures |stack| == |old(stack)| && forall i | 0 <= i < |stack| - 1 :: stack[i] == old(stack)[i]
      ensures stack != [] ==>
                var top, top1 := old(stack)[|stack| - 1], stack[|stack| - 1];
                if top.assoc && was != ty && a !in top.log then top1 == Frame(true, top.log[a := was]) else top1 == top
      ensures stack == if old(stack) == [] then []
              else old(stack)[|old(stack)| - 1 := Record(old(stack)[|old(stack)| - 1], a, was, ty)]
    {
      if stack == [] {
        return;
      }
      var top := stack[|stack| - 1];
      if !top.assoc || was == ty || a in top.log {
        return;
      }
      stack := stack[|stack| - 1 := Frame(top.assoc, top.log[a := was])];
    }

    method HandleReplace(f: Frame)
      modifies this`types
      ensures types == Undo(old(types), f)
      ensures !f.assoc ==> types == old(types)
      ensures f.assoc ==> forall a :: Get(types, a) == if a in f.log then f.log[a] else Get(old(types), a)
    {
      if !f.assoc {
        return;
      }
      var left := f.log.Keys;
      ghost var done: set<nat> := {};
      while left != {}
        invariant left + done == f.log.Keys && left !! done
        invariant forall a :: a in types <==> a in old(types) || a in done
        invariant forall a | a in types :: types[a] == if a in done then f.log[a] else old(types)[a]
        decreases left
      {
        var a :| a in left;
        types := types[a := f.log[a]];
        left := left - {a};
        done := done + {a};
      }
    }

    /** Compiles a function: its own frame is pushed, and undone and popped at the end. */
    method Compile(assoc: bool, body: seq<Op>)
      modifies this
      decreases body, 1
      ensures types == Compiled(assoc, body, old(types)) && stack == old(stack)
    {
      stack := stack + [Frame(assoc, map[])];
      RunBody(body);
      HandleReplace(stack[|stack| - 1]);
      stack := stack[..|stack| - 1];
    }

    method RunBody(ops: seq<Op>)
      requires stack != []
      modifies this
      decreases ops, 0
      ensures var (m, f) := Run(ops, old(types), old(stack)[|old(stack)| - 1]);
              types == m && stack == old(stack)[|old(stack)| - 1 := f]
    {
      ghost var n := |stack| - 1;
      for i := 0 to |ops|
        invariant |stack| == n + 1 && stack == old(stack)[n := stack[n]]
        invariant Run(ops[..i], old(types), old(stack)[n]) == (types, stack[n])
      {
        assert ops[..i + 1][..i] == ops[..i];
        match ops[i]
        case Write(a, ty) =>
          RecordReplace(a, if a in types then types[a] else NoValue, ty);
          types := types[a := ty];
        case Inner(assoc, body) => Compile(assoc, body);
      }
      assert ops[..|ops|] == ops;
    }
  }

  // ----- what is restored -----

  /** Addresses a body writes itself. */
  function Own(ops: seq<Op>): set<nat> {
    set i | 0 <= i < |ops| && ops[i].Write? :: ops[i].addr
  }

  /** Addresses written by functions inside that have no association: nothing logs those. */
  function Unlogged(ops: seq<Op>): set<nat> {
    if ops == [] then {} else
    var op := ops[|ops| - 1];
    Unlogged(ops[..|ops| - 1]) + if op.Write? then {} else if op.assoc then Unlogged(op.body)
        else Unlogged(op.body) + Own(op.body)
  }

  /** What holds of an address all along: logged with its first value, or not yet changed. */
  predicate Safe(m: Types, f: Frame, a: nat, v: int) {
    if a in f.log then f.log[a] == v else Get(m, a) == v
  }

  lemma {:induction false} StaysSafe(ops: seq<Op>, m: Types, f: Frame, a: nat, v: int)
    requires f.assoc && a !in Unlogged(ops) && Safe(m, f, a, v)
    ensures var (m1, f1) := Run(ops, m, f); f1.assoc && Safe(m1, f1, a, v)
    decreases ops, 0
  {
    if ops != [] {
      var init, last := ops[..|ops| - 1], ops[|ops| - 1];
      StaysSafe(init, m, f, a, v);
      var (m1, f1) := Run(init, m, f);
      if last.Inner? {
        InnerLeaves(last.assoc, last.body, m1, a);
      }
    }
  }

  /** A whole function leaves an address alone that is logged or not written. */
  lemma {:induction false} InnerLeaves(assoc: bool, body: seq<Op>, m: Types, a: nat)
    requires a !in Unlogged(body) && (assoc || a !in Own(body))
    ensures Get(Compiled(assoc, body, m), a) == Get(m, a)
    decreases body, 1
  {
    if assoc {
      StaysSafe(body, m, Frame(true, map[]), a, Get(m, a));
    } else {
      Untouched(body, m, Frame(false, map[]), a);
    }
  }

  lemma {:induction false} Untouched(ops: seq<Op>, m: Types, f: Frame, a: nat)
    requires !f.assoc && a !in Unlogged(ops) && a !in Own(ops)
    ensures Get(Run(ops, m, f).0, a) == Get(m, a) && !Run(ops, m, f).1.assoc
    decreases ops, 0
  {
    if ops != [] {
      var init, last := ops[..|ops| - 1], ops[|ops| - 1];
      assert forall i | 0 <= i < |init| :: init[i] == ops[i];
      Untouched(init, m, f, a);
      if last.Inner? {
        InnerLeaves(last.assoc, last.body, Run(init, m, f).0, a);
      } else {
        assert ops[|ops| - 1].addr in Own(ops);
      }
    }
  }

  /** After a default trait method every address is as it was at entry, whatever was written
      and how often, unless a function inside without an association wrote it. */
  lemma Restored(body: seq<Op>, m: Types, a: nat)
    requires a !in Unlogged(body)
    ensures Get(Compiled(true, body, m), a) == Get(m, a)
  {
    InnerLeaves(true, body, m, a);
  }

  /** That exception is real: the inner function's write survives. */
  lemma NotRestored(a: nat, ty: int, m: Types)
    requires Get(m, a) != ty
    ensures Get(Compiled(true, [Inner(false, [Write(a, ty)])], m), a) == ty
  {
    RunOne(Write(a, ty), m, Frame(false, map[]));
    RunOne(Inner(false, [Write(a, ty)]), m, Frame(true, map[]));
  }

  /** The value of an address just before the body's own first write that changes it, or at
      the end if there is none. */
  function BeforeFirst(ops: seq<Op>, m: Types, a: nat): int
    decreases |ops|
  {
    if ops == [] then Get(m, a) else
    var op := ops[0];
    if op.Inner? then BeforeFirst(ops[1..], Compiled(op.assoc, op.body, m), a)
    else if op.addr == a && Get(m, a) != op.ty then Get(m, a)
    else BeforeFirst(ops[1..], m[op.addr := op.ty], a)
  }

  lemma {:induction false} RunHead(op: Op, ops: seq<Op>, m: Types, f: Frame)
    ensures var (m1, f1) := Run([op], m, f); Run([op] + ops, m, f) == Run(ops, m1, f1)
    decreases |ops|
  {
    if ops == [] {
      assert [op] + ops == [op];
    } else {
      assert ([op] + ops)[..|ops|] == [op] + ops[..|ops| - 1];
      RunHead(op, ops[..|ops| - 1], m, f);
    }
  }

  lemma RunOne(op: Op, m: Types, f: Frame)
    ensures op.Write? ==> Run([op], m, f) == (m[op.addr := op.ty], Record(f, op.addr, Get(m, op.addr), op.ty))
    ensures op.Inner? ==> Run([op], m, f) == (Compiled(op.assoc, op.body, m), f)
  {
    assert [op][..0] == [];
    assert Run([], m, f) == (m, f);
  }

  /** Once logged, an entry is not changed. */
  lemma {:induction false} LogKept(ops: seq<Op>, m: Types, f: Frame, a: nat)
    requires a in f.log
    ensures a in Run(ops, m, f).1.log && Run(ops, m, f).1.log[a] == f.log[a]
    decreases |ops|
  {
    if ops != [] {
      LogKept(ops[..|ops| - 1], m, f, a);
    }
  }

  lemma {:induction false} FirstValue(ops: seq<Op>, m: Types, f: Frame, a: nat)
    requires f.assoc && a !in f.log
    ensures var (m1, f1) := Run(ops, m, f); f1.assoc && Safe(m1, f1, a, BeforeFirst(ops, m, a))
    decreases |ops|
  {
    hide Run, Compiled;
    if ops == [] {
      RunNone(m, f);
    } else {
      var tl := ops[1..];
      assert ops == [ops[0]] + tl;
      RunHead(ops[0], tl, m, f);
      RunOne(ops[0], m, f);
      var (m1, f1) := Run([ops[0]], m, f);
      if a in f1.log {
        LogKept(tl, m1, f1, a);
        KeepsAssoc(tl, m1, f1);
      } else {
        FirstValue(tl, m1, f1, a);
      }
    }
  }

  lemma RunNone(m: Types, f: Frame)
    ensures Run([], m, f) == (m, f)
  {
  }

  lemma {:induction false} KeepsAssoc(ops: seq<Op>, m: Types, f: Frame)
    ensures Run(ops, m, f).1.assoc == f.assoc
    decreases |ops|
  {
    if ops != [] {
      KeepsAssoc(ops[..|ops| - 1], m, f);
    }
  }

  /** What an address is given back: its value when the method itself first changes it. */
  lemma RestoredTo(body: seq<Op>, m: Types, a: nat)
    ensures Get(Compiled(true, body, m), a) == BeforeFirst(body, m, a)
  {
    FirstValue(body, m, Frame(true, map[]), a);
  }

  /** In a function without an association the last write of its own stays. */
  lemma {:induction false} LastStays(ops: seq<Op>, m: Types, a: nat, ty: int)
    requires ops != [] && ops[|ops| - 1] == Write(a, ty)
    ensures Get(Compiled(false, ops, m), a) == ty
    ensures forall x | x != a :: Get(Compiled(false, ops, m), x) == Get(Compiled(false, ops[..|ops| - 1], m), x)
  {
    KeepsAssoc(ops, m, Frame(false, map[]));
    KeepsAssoc(ops[..|ops| - 1], m, Frame(false, map[]));
  }

  // ----- the same writes with other types -----

  /** The same writes and functions; only the types written may differ. */
  predicate SameShape(x: seq<Op>, y: seq<Op>) {
    |x| == |y| &&
    forall i | 0 <= i < |x| ::
      if x[i].Write? then y[i].Write? && y[i].addr == x[i].addr
      else y[i].Inner? && y[i].assoc == x[i].assoc && SameShape(x[i].body, y[i].body)
  }

  lemma {:induction false} ShapeUnlogged(x: seq<Op>, y: seq<Op>)
    requires SameShape(x, y)
    ensures Unlogged(x) == Unlogged(y) && Own(x) == Own(y)
    decreases x
  {
    assert forall i | 0 <= i < |x| && x[i].Write? :: x[i].addr == y[i].addr;
    if x != [] {
      ShapeUnlogged(x[..|x| - 1], y[..|y| - 1]);
      if x[|x| - 1].Inner? {
        ShapeUnlogged(x[|x| - 1].body, y[|y| - 1].body);
      }
    }
  }

  /** Logged writes write type 0, the others type 1. */
  function Marked(ops: seq<Op>, assoc: bool): (r: seq<Op>)
    ensures |r| == |ops|
    decreases ops
  {
    if ops == [] then [] else
    var op := ops[|ops| - 1];
    Marked(ops[..|ops| - 1], assoc) +
    [if op.Write? then Write(op.addr, if assoc then 0 else 1) else Inner(op.assoc, Marked(op.body, op.assoc))]
  }

  lemma {:induction false} MarkedShape(ops: seq<Op>, assoc: bool)
    ensures SameShape(ops, Marked(ops, assoc))
    decreases ops
  {
    if ops != [] {
      var init, last := ops[..|ops| - 1], ops[|ops| - 1];
      MarkedShape(init, assoc);
      if last.Inner? {
        MarkedShape(last.body, last.assoc);
      }
      var r := Marked(ops, assoc);
      forall i | 0 <= i < |ops|
        ensures if ops[i].Write? then r[i].Write? && r[i].addr == ops[i].addr
                else r[i].Inner? && r[i].assoc == ops[i].assoc && SameShape(ops[i].body, r[i].body)
      {
        if i < |init| {
          assert ops[i] == init[i] && r[i] == Marked(init, assoc)[i];
        }
      }
    }
  }

  /** Type 1, once there, stays to be seen: in the log or in memory. */
  function Seen(m: Types, f: Frame, a: nat): int {
    if a in f.log then f.log[a] else Get(m, a)
  }

  lemma {:induction false} MarkedRun(ops: seq<Op>, assoc: bool, m: Types, f: Frame, a: nat)
    requires f.assoc == assoc && Get(m, a) in {0, 1} && (a in f.log ==> assoc && f.log[a] == 1)
    ensures var (m1, f1) := Run(Marked(ops, assoc), m, f);
            && f1.assoc == assoc && Get(m1, a) in {0, 1} && (a in f1.log ==> assoc && f1.log[a] == 1)
            && Seen(m1, f1, a) ==
                 if Seen(m, f, a) == 1 || a in Unlogged(ops) || (!assoc && a in Own(ops)) then 1 else 0
    decreases ops, 0
  {
    hide Run, Marked, Compiled;
    if ops == [] {
      MarkedNone(assoc);
      RunNone(m, f);
    } else {
      var init, last := ops[..|ops| - 1], ops[|ops| - 1];
      MarkedRun(init, assoc, m, f, a);
      MarkedMore(ops, assoc, m, f);
      OwnMore(ops);
      if last.Inner? {
        MarkedInner(last.assoc, last.body, Run(Marked(init, assoc), m, f).0, a);
      }
    }
  }

  lemma MarkedNone(assoc: bool)
    ensures Marked([], assoc) == []
  {
  }

  lemma MarkedMore(ops: seq<Op>, assoc: bool, m: Types, f: Frame)
    requires ops != []
    ensures var op := ops[|ops| - 1];
            var (m1, f1) := Run(Marked(ops[..|ops| - 1], assoc), m, f);
            var ty := if assoc then 0 else 1;
            Run(Marked(ops, assoc), m, f) ==
              if op.Write? then (m1[op.addr := ty], Record(f1, op.addr, Get(m1, op.addr), ty))
              else (Compiled(op.assoc, Marked(op.body, op.assoc), m1), f1)
  {
    hide Compiled;
    var r, init := Marked(ops, assoc), Marked(ops[..|ops| - 1], assoc);
    assert r[..|r| - 1] == init;
  }

  lemma OwnMore(ops: seq<Op>)
    requires ops != []
    ensures var op := ops[|ops| - 1];
            Own(ops) == Own(ops[..|ops| - 1]) + if op.Write? then {op.addr} else {}
  {
    var init, op := ops[..|ops| - 1], ops[|ops| - 1];
    forall x
      ensures x in Own(ops) <==> x in Own(init) || (op.Write? && x == op.addr)
    {
      if x in Own(ops) {
        var i :| 0 <= i < |ops| && ops[i].Write? && ops[i].addr == x;
        assert i < |init| ==> init[i] == ops[i];
      }
      if x in Own(init) {
        var i :| 0 <= i < |init| && init[i].Write? && init[i].addr == x;
        assert ops[i] == init[i];
      }
    }
  }

  lemma {:induction false} MarkedInner(assoc: bool, body: seq<Op>, m: Types, a: nat)
    requires Get(m, a) in {0, 1}
    ensures Get(Compiled(assoc, Marked(body, assoc), m), a) ==
            if Get(m, a) == 1 || a in Unlogged(body) || (!assoc && a in Own(body)) then 1 else 0
    decreases body, 1
  {
    hide Run, Marked;
    MarkedRun(body, assoc, m, Frame(assoc, map[]), a);
  }

  /** Whatever types are written and whatever was there before, an address is restored if and
      only if no function inside without an association writes it. */
  lemma RestoredIff(body: seq<Op>, a: nat)
    ensures a !in Unlogged(body) <==>
            forall other, m | SameShape(body, other) :: Get(Compiled(true, other, m), a) == Get(m, a)
  {
    if a in Unlogged(body) {
      var other, m := Marked(body, true), map[a := 0];
      MarkedShape(body, true);
      MarkedInner(true, body, m, a);
      assert Get(Compiled(true, other, m), a) != Get(m, a);
    } else {
      forall other, m | SameShape(body, other)
        ensures Get(Compiled(true, other, m), a) == Get(m, a)
      {
        ShapeUnlogged(body, other);
        Restored(other, m, a);
      }
    }
  }
}
