/** The check that a non-void function returns a value: one flag, reset at every function
    definition and never restored, decides. */
module ReturnFlag {
  import opened Syntax

  /** The function itself has a return statement, nested functions aside. */
  predicate HasReturn(s: Stmt) {
    match s
    case Ret(_) => true
    case Block(ss) => exists i | 0 <= i < |ss| :: HasReturn(ss[i])
    case If(_, bodies, remain) =>
      (exists i | 0 <= i < |bodies| :: HasReturn(bodies[i])) || (remain.Some? && HasReturn(remain.value))
    case While(_, b) => HasReturn(b)
    case Loop(b) => HasReturn(b)
    case For(_, _, b) => HasReturn(b)
    case _ => false
  }

  /** What sets the flag, in the order of the walk: a return, or a nested function, which
      leaves its own answer behind. */
  datatype Mark = Returns | Defines(flag: bool)

  function Marks(s: Stmt): seq<Mark> {
    match s
    case Ret(_) => [Returns]
    case Block(ss) => MarksSeq(ss)
    case If(_, bodies, remain) => MarksSeq(bodies) + if remain.Some? then Marks(remain.value) else []
    case While(_, b) => Marks(b)
    case Loop(b) => Marks(b)
    case For(_, _, b) => Marks(b)
    case FnDef(_, b) => [Defines(RetFlag(b, false))]
    case _ => []
  }

  function MarksSeq(ss: seq<Stmt>): seq<Mark> {
    if ss == [] then [] else Marks(ss[0]) + MarksSeq(ss[1..])
  }

  function Last(ms: seq<Mark>, f: bool): bool {
    if ms == [] then f else ms[|ms| - 1].Returns? || ms[|ms| - 1].flag
  }

  /** The flag is decided by the last mark alone. */
  lemma {:induction false} FlagIsLast(s: Stmt, f: bool)
    ensures RetFlag(s, f) == Last(Marks(s), f)
    decreases s
  {
    match s
    case Block(ss) => FlagIsLastSeq(ss, f);
    case If(_, bodies, remain) =>
      FlagIsLastSeq(bodies, f);
      if remain.Some? {
        FlagIsLast(remain.value, RetFlagSeq(bodies, f));
      } else {
        assert MarksSeq(bodies) + [] == MarksSeq(bodies);
      }
    case While(_, b) => FlagIsLast(b, f);
    case Loop(b) => FlagIsLast(b, f);
    case For(_, _, b) => FlagIsLast(b, f);
    case _ =>
  }

  lemma {:induction false} FlagIsLastSeq(ss: seq<Stmt>, f: bool)
    ensures RetFlagSeq(ss, f) == Last(MarksSeq(ss), f)
    decreases ss
  {
    if ss != [] {
      FlagIsLast(ss[0], f);
      FlagIsLastSeq(ss[1..], RetFlag(ss[0], f));
    }
  }

  lemma {:induction false} ReturnMarks(s: Stmt)
    ensures HasReturn(s) <==> Returns in Marks(s)
    decreases s
  {
    match s
    case Block(ss) => ReturnMarksSeq(ss);
    case If(_, bodies, remain) =>
      ReturnMarksSeq(bodies);
      if remain.Some? {
        ReturnMarks(remain.value);
      }
    case While(_, b) => ReturnMarks(b);
    case Loop(b) => ReturnMarks(b);
    case For(_, _, b) => ReturnMarks(b);
    case _ =>
  }

  lemma {:induction false} ReturnMarksSeq(ss: seq<Stmt>)
    ensures (exists i | 0 <= i < |ss| :: HasReturn(ss[i])) <==> Returns in MarksSeq(ss)
    decreases ss
  {
    if ss != [] {
      ReturnMarks(ss[0]);
      ReturnMarksSeq(ss[1..]);
      if i :| 0 <= i < |ss| && HasReturn(ss[i]) {
        assert i > 0 ==> ss[1..][i - 1] == ss[i];
      }
      if i :| 0 <= i < |ss[1..]| && HasReturn(ss[1..][i]) {
        assert ss[i + 1] == ss[1..][i];
      }
    }
  }

  /** The check is right about a body if and only if the last thing in it that touches the
      flag is a return of its own, or a nested function that leaves the flag as a return among
      the marks would, or nothing does. */
  lemma CheckRightIff(body: Stmt)
    ensures (RetFlag(body, false) <==> HasReturn(body)) <==>
            var ms := Marks(body);
            ms == [] || ms[|ms| - 1] == Returns || ms[|ms| - 1] == Defines(Returns in ms)
  {
    FlagIsLast(body, false);
    ReturnMarks(body);
    var ms := Marks(body);
    if ms != [] && ms[|ms| - 1] == Returns {
      assert Returns in ms;
    }
  }

  /** A body that returns is refused when a function without a return follows, and one that
      never returns is let through when the function that follows does. */
  lemma NestedMisleads(v: Expr)
    ensures var body := Block([Ret(Some(v)), FnDef(None, Skip)]); HasReturn(body) && !RetFlag(body, false)
    ensures var body := FnDef(None, Ret(None)); !HasReturn(body) && RetFlag(body, false)
  {
    var ss := [Ret(Some(v)), FnDef(None, Skip)];
    assert HasReturn(ss[0]);
    assert ss[1..] == [FnDef(None, Skip)] && ss[1..][1..] == [];
    assert RetFlagSeq(ss[1..], true) == RetFlagSeq([], RetFlag(ss[1], true));
    assert RetFlagSeq(ss, false) == RetFlagSeq(ss[1..], RetFlag(ss[0], false));
  }
}
