/** Statement lists as the parser builds them: a stack of growing arrays, one for each block
    that is being read. */
module StmtLists {

  /** What the parser makes of a piece of program. */
  datatype Node = Leaf(id: nat) | StmtList(stmts: seq<Node>) | Empty

  /** The program as written: statements and blocks. */
  datatype Tree = Stmt(id: nat) | Block(kids: seq<Tree>)

  /** A block of one statement is that statement; an empty block is the empty statement. */
  function Meaning(t: Tree): Node {
    match t
    case Stmt(id) => Leaf(id)
    case Block(kids) =>
      if |kids| == 0 then Empty else if |kids| == 1 then Meaning(kids[0])
      else StmtList(seq(|kids|, i requires 0 <= i < |kids| => Meaning(kids[i])))
  }

  function MeaningAll(ts: seq<Tree>): (r: seq<Node>)
    ensures |r| == |ts| && forall i | 0 <= i < |ts| :: r[i] == Meaning(ts[i])
  {
    seq(|ts|, i requires 0 <= i < |ts| => Meaning(ts[i]))
  }

  // What the collapsing keeps.

  /** The statements of a tree, from left to right; an empty block counts as one. */
  function Written(t: Tree): seq<Node> {
    match t
    case Stmt(id) => [Leaf(id)]
    case Block(kids) => if kids == [] then [Empty] else WrittenAll(kids)
  }

  function WrittenAll(ts: seq<Tree>): seq<Node> {
    if ts == [] then [] else Written(ts[0]) + WrittenAll(ts[1..])
  }

  /** The leaves of a node, from left to right. */
  function Leaves(n: Node): seq<Node> {
    match n
    case StmtList(stmts) => LeavesAll(stmts)
    case _ => [n]
  }

  function LeavesAll(ns: seq<Node>): seq<Node> {
    if ns == [] then [] else Leaves(ns[0]) + LeavesAll(ns[1..])
  }

  /** Every list has two members at least. */
  predicate Compact(n: Node) {
    n.StmtList? ==> |n.stmts| >= 2 && forall i | 0 <= i < |n.stmts| :: Compact(n.stmts[i])
  }

  /** How many blocks have more than one member. */
  function Wide(t: Tree): nat {
    if t.Stmt? then 0 else WideAll(t.kids) + if |t.kids| >= 2 then 1 else 0
  }

  function WideAll(ts: seq<Tree>): nat {
    if ts == [] then 0 else Wide(ts[0]) + WideAll(ts[1..])
  }

  function Lists(n: Node): nat {
    match n
    case StmtList(stmts) => 1 + ListsAll(stmts)
    case _ => 0
  }

  function ListsAll(ns: seq<Node>): nat {
    if ns == [] then 0 else Lists(ns[0]) + ListsAll(ns[1..])
  }

  /** No statement is lost, added or moved; there is one list for each block of several members,
      and none with fewer than two. */
  lemma {:induction false} MeaningKeeps(t: Tree)
    ensures Leaves(Meaning(t)) == Written(t) && Compact(Meaning(t)) && Lists(Meaning(t)) == Wide(t)
    decreases t
  {
    match t
    case Stmt(_) =>
    case Block(kids) =>
      MeaningKeepsAll(kids);
      if |kids| == 1 {
        assert kids[1..] == [];
        MeaningKeeps(kids[0]);
        assert Written(kids[0]) + [] == Written(kids[0]);
      } else if |kids| >= 2 {
        assert Meaning(t).stmts == MeaningAll(kids);
        forall i | 0 <= i < |kids| ensures Compact(Meaning(kids[i])) { MeaningKeeps(kids[i]); }
      }
  }

  lemma {:induction false} MeaningKeepsAll(ts: seq<Tree>)
    ensures LeavesAll(MeaningAll(ts)) == WrittenAll(ts) && ListsAll(MeaningAll(ts)) == WideAll(ts)
    decreases ts
  {
    if ts != [] {
      MeaningKeeps(ts[0]);
      MeaningKeepsAll(ts[1..]);
      assert MeaningAll(ts)[1..] == MeaningAll(ts[1..]);
    }
  }

  /** `{ 1; { 2; } {} { 3; 4; } }` */
  lemma Collapsed()
    ensures Meaning(Block([Stmt(1), Block([Stmt(2)]), Block([]), Block([Stmt(3), Stmt(4)])])) ==
            StmtList([Leaf(1), Leaf(2), Empty, StmtList([Leaf(3), Leaf(4)])])
  {
    var inner, kids := [Stmt(3), Stmt(4)], [Stmt(1), Block([Stmt(2)]), Block([]), Block([Stmt(3), Stmt(4)])];
    assert MeaningAll(inner) == [Leaf(3), Leaf(4)];
    assert Meaning(kids[3]) == StmtList(MeaningAll(inner)) && Meaning(kids[1]) == Leaf(2) && Meaning(kids[2]) == Empty;
    assert MeaningAll(kids) == [Leaf(1), Leaf(2), Empty, StmtList([Leaf(3), Leaf(4)])];
    assert Meaning(Block(kids)) == StmtList(MeaningAll(kids));
  }

  lemma MeaningStart(kids: seq<Tree>)
    requires kids != []
    ensures MeaningAll(kids[..1]) == [Meaning(kids[0])]
  {
  }

  lemma MeaningMore(kids: seq<Tree>, i: nat)
    requires i < |kids|
    ensures MeaningAll(kids[..i + 1]) == MeaningAll(kids[..i]) + [Meaning(kids[i])]
  {
  }

  class NodeLists {
    /** The innermost block's list is last. */
    var lists: seq<array<Node>>
    var lens: seq<nat>

    ghost predicate Valid()
      reads this
    {
      && |lists| == |lens|
      && (forall i | 0 <= i < |lists| :: 0 < lists[i].Length && lens[i] <= lists[i].Length)
      && (forall i, j | 0 <= i < j < |lists| :: lists[i] != lists[j])
    }

    /** The statements collected so far, block by block. */
    ghost function Contents(): (r: seq<seq<Node>>)
      requires Valid()
      reads this, lists
      ensures |r| == |lists|
    {
      seq(|lists|, i requires 0 <= i < |lists| reads this, lists requires Valid() => lists[i][..lens[i]])
    }

    constructor ()
      ensures Valid() && Contents() == [] && fresh(this)
    {
      lists, lens := [], [];
    }

    /** Begins a list. */
    method Begin()
      requires Valid()
      modifies this
      ensures Valid() && Contents() == old(Contents()) + [[]]
      ensures |lists| == |old(lists)| + 1 && lists[..|old(lists)|] == old(lists) && fresh(lists[|old(lists)|])
    {
      ghost var before := Contents();
      var list := new Node[10](_ => Empty);
      lists, lens := lists + [list], lens + [0];
      assert list[..0] == [];
      assert forall i | 0 <= i < |before| :: Contents()[i] == before[i];
    }

    /** Adds a statement to the innermost list. */
    method Append(stmt: Node)
      requires Valid() && lists != []
      modifies this, lists[|lists| - 1]
      ensures Valid() && |lists| == |old(lists)| && lists[..|lists| - 1] == old(lists)[..|lists| - 1]
      ensures lists[|lists| - 1] == old(lists)[|old(lists)| - 1] || fresh(lists[|lists| - 1])
      ensures Contents() == old(Contents())[|old(lists)| - 1 := old(Contents())[|old(lists)| - 1] + [stmt]]
    {
      if lens[|lens| - 1] == lists[|lists| - 1].Length {
        Grow();
      }
      Store(stmt);
    }

    /** There is room for one more. */
    method Store(stmt: Node)
      requires Valid() && lists != [] && lens[|lens| - 1] < lists[|lists| - 1].Length
      modifies this`lens, lists[|lists| - 1]
      ensures Valid() && Contents() == old(Contents())[|lists| - 1 := old(Contents())[|lists| - 1] + [stmt]]
    {
      ghost var before := Contents();
      var top := |lists| - 1;
      var list := lists[top];
      list[lens[top]] := stmt;
      lens := lens[top := lens[top] + 1];
      assert Contents()[top] == list[..lens[top]] == before[top] + [stmt];
      assert forall i | 0 <= i < top :: Contents()[i] == before[i];
    }

    /** Adds a statement to the innermost list, or begins a list with it. */
    method PutIntoList(stmt: Node, begin: bool)
      requires Valid() && (!begin ==> lists != [])
      modifies this, lists
      ensures Valid() && lists != []
      ensures |lists| == |old(lists)| + (if begin then 1 else 0) && lists[..|lists| - 1] == old(lists)[..|lists| - 1]
      ensures begin ==> fresh(lists[|lists| - 1]) && Contents() == old(Contents()) + [[stmt]]
      ensures !begin ==> lists[|lists| - 1] == old(lists)[|old(lists)| - 1] || fresh(lists[|lists| - 1])
      ensures !begin ==> Contents() == old(Contents())[|old(lists)| - 1 := old(Contents())[|old(lists)| - 1] + [stmt]]
    {
      if begin {
        Begin();
        ghost var mid := Contents();
        Append(stmt);
        assert mid[|mid| - 1] + [stmt] == [stmt];
      } else {
        Append(stmt);
      }
    }

    /** Doubles the capacity of the innermost list. */
    method Grow()
      requires Valid() && lists != []
      modifies this`lists
      ensures Valid() && Contents() == old(Contents())
      ensures |lists| == |old(lists)| && lists[..|lists| - 1] == old(lists)[..|lists| - 1]
      ensures fresh(lists[|lists| - 1]) && lens[|lists| - 1] < lists[|lists| - 1].Length
    {
      var top := |lists| - 1;
      var list := lists[top];
      var grown := new Node[2 * list.Length](_ => Empty);
      for i := 0 to lens[top]
        invariant lists == old(lists) && lens == old(lens) && Valid()
        invariant forall k | 0 <= k < i :: grown[k] == list[k]
      {
        grown[i] := list[i];
      }
      ghost var before := Contents();
      assert before[top] == list[..lens[top]];
      lists := lists[top := grown];
      assert grown[..lens[top]] == list[..lens[top]];
      assert forall i | 0 <= i < top :: Contents()[i] == before[i];
    }

    /** Pops the innermost list: one statement alone, more as a list. */
    method Zip() returns (n: Node)
      requires Valid() && lists != [] && Contents()[|lists| - 1] != []
      modifies this
      ensures Valid() && Contents() == old(Contents())[..|old(lists)| - 1] && lists == old(lists)[..|old(lists)| - 1]
      ensures n == var top := old(Contents())[|old(lists)| - 1]; if |top| == 1 then top[0] else StmtList(top)
    {
      var top := |lists| - 1;
      var list, len := lists[top], lens[top];
      lists, lens := lists[..top], lens[..top];
      n := if len == 1 then list[0] else StmtList(list[..len]);
    }

    /** The parser's actions for a piece of program, in the order of its reductions: a
        statement is complete before it is put into its list. */
    method Parse(t: Tree) returns (n: Node)
      requires Valid()
      modifies this, lists
      decreases t, 1
      ensures Valid() && n == Meaning(t) && Contents() == old(Contents()) && lists == old(lists)
    {
      match t
      case Stmt(id) => n := Leaf(id);
      case Block(kids) =>
        if |kids| == 0 {
          return Empty;
        }
        ParseKids(kids);
        assert Contents()[|lists| - 1] == MeaningAll(kids);
        n := Zip();
        assert MeaningAll(kids) == seq(|kids|, i requires 0 <= i < |kids| => Meaning(kids[i]));
    }

    /** Leaves the statements of a block in a list of their own. */
    method ParseKids(kids: seq<Tree>)
      requires Valid() && kids != []
      modifies this, lists
      decreases kids, 0
      ensures Valid() && |lists| == |old(lists)| + 1 && lists[..|old(lists)|] == old(lists)
      ensures Contents() == old(Contents()) + [MeaningAll(kids)]
    {
      hide Meaning, Contents, Valid, MeaningAll;
      var n := Parse(kids[0]);
      PutIntoList(n, true);
      MeaningStart(kids);
      for i := 1 to |kids|
        invariant Valid() && |lists| == |old(lists)| + 1 && lists[..|old(lists)|] == old(lists)
        invariant fresh(lists[|lists| - 1]) && Contents() == old(Contents()) + [MeaningAll(kids[..i])]
      {
        n := Parse(kids[i]);
        PutIntoList(n, false);
        MeaningMore(kids, i);
      }
      assert kids[..|kids|] == kids;
    }
  }
}
