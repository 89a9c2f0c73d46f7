/** When the emitted functions are well formed. */
module WellFormed {
  import opened IntTypes
  import opened Syntax
  import opened Target
  import opened Emit
  import opened Frame
  import opened Placement

  predicate IsTerminator(i: Instr) {
    i.Br? || i.CondBr? || i.RetI? || i.RetVoid?
  }

  function Targets(i: Instr): set<BB> {
    match i
    case Br(t) => {t}
    case CondBr(_, yes, no) => {yes, no}
    case _ => {}
  }

  /** No terminator yet. */
  predicate Running(text: seq<Instr>) {
    forall i | 0 <= i < |text| :: !IsTerminator(text[i])
  }

  /** Exactly one terminator, and it is the last instruction. */
  predicate Sealed(text: seq<Instr>) {
    text != [] && IsTerminator(text[|text| - 1]) && Running(text[..|text| - 1])
  }

  ghost predicate Jumps(text: seq<Instr>, t: BB) {
    exists i | 0 <= i < |text| :: t in Targets(text[i])
  }

  predicate PlacedOnce(b: Builder, fn: nat, t: BB) {
    (fn, t) in b.placed &&
    forall j, k | 0 <= j < k < |b.placed| :: !(b.placed[j].1 == t && b.placed[k].1 == t)
  }

  /** A phi comes first in its block and names two different blocks of its function: exactly
      the placed blocks that branch to it. */
  ghost predicate PhiOk(b: Builder, fn: nat, bb: BB, i: nat)
    requires i < |Text(b, bb)| && Text(b, bb)[i].Phi?
  {
    var phi := Text(b, bb)[i];
    && i == 0 && phi.b1 != phi.b2 && (fn, phi.b1) in b.placed && (fn, phi.b2) in b.placed
    && forall k | 0 <= k < |b.placed| :: Jumps(Text(b, b.placed[k].1), bb) <==> b.placed[k].1 in {phi.b1, phi.b2}
  }

  ghost predicate BlockOk(b: Builder, fn: nat, bb: BB) {
    && Sealed(Text(b, bb))
    && (forall t | Jumps(Text(b, bb), t) :: PlacedOnce(b, fn, t))
    && (forall i | 0 <= i < |Text(b, bb)| && Text(b, bb)[i].Phi? :: PhiOk(b, fn, bb, i))
  }

  /** Every placed block is sealed, branches only to blocks of its own function that are placed
      exactly once, and has a phi only for exactly its predecessors. */
  ghost predicate AllWellFormed(b: Builder) {
    forall k | 0 <= k < |b.placed| :: BlockOk(b, b.placed[k].0, b.placed[k].1)
  }

  // What is not well formed, in the smallest cases.

  /** A branch to a block that is not placed, one into another function, and a block placed twice. */
  lemma IllTargets()
    ensures var x, y := Anon(1), Anon(2);
            && !AllWellFormed(Builder(map[x := [Br(y)]], [(1, x)], x, 4, 0, 0, 2))
            && !AllWellFormed(Builder(map[x := [Br(y)], y := [RetVoid]], [(1, x), (2, y)], x, 4, 0, 0, 3))
            && !AllWellFormed(Builder(map[x := [Br(y)], y := [RetVoid]], [(1, x), (1, y), (1, y)], x, 4, 0, 0, 2))
  {
    var x, y := Anon(1), Anon(2);
    BadTarget(Builder(map[x := [Br(y)]], [(1, x)], x, 4, 0, 0, 2), y);
    BadTarget(Builder(map[x := [Br(y)], y := [RetVoid]], [(1, x), (2, y)], x, 4, 0, 0, 3), y);
    var twice := Builder(map[x := [Br(y)], y := [RetVoid]], [(1, x), (1, y), (1, y)], x, 4, 0, 0, 2);
    assert twice.placed[1].1 == y && twice.placed[2].1 == y;
    BadTarget(twice, y);
  }

  /** A block without a terminator and one with two; one that just returns is well formed. */
  lemma IllBlocks()
    ensures var x := Anon(1);
            && !AllWellFormed(Builder(map[x := []], [(1, x)], x, 4, 0, 0, 2))
            && !AllWellFormed(Builder(map[x := [RetVoid, RetVoid]], [(1, x)], x, 4, 0, 0, 2))
            && AllWellFormed(Builder(map[x := [RetVoid]], [(1, x)], x, 4, 0, 0, 2))
  {
    var x := Anon(1);
    var two := Builder(map[x := [RetVoid, RetVoid]], [(1, x)], x, 4, 0, 0, 2);
    assert !Sealed(Text(two, x)) by { assert Text(two, x)[..1][0] == RetVoid; }
    assert !BlockOk(two, two.placed[0].0, two.placed[0].1);
    var none := Builder(map[x := []], [(1, x)], x, 4, 0, 0, 2);
    assert !BlockOk(none, none.placed[0].0, none.placed[0].1);
  }

  /** A phi that leaves out one of two predecessors. */
  lemma IllPhi()
    ensures var x, y, z := Anon(1), Anon(2), Anon(3);
            !AllWellFormed(Builder(map[x := [Br(z)], y := [Br(z)], z := [Phi(0, x, Const(0), x, Const(0)), RetVoid]],
                                   [(1, x), (1, y), (1, z)], z, 4, 1, 0, 2))
  {
    var x, y, z := Anon(1), Anon(2), Anon(3);
    var phi := Builder(map[x := [Br(z)], y := [Br(z)], z := [Phi(0, x, Const(0), x, Const(0)), RetVoid]],
                       [(1, x), (1, y), (1, z)], z, 4, 1, 0, 2);
    assert Text(phi, z)[0].Phi? && !PhiOk(phi, 1, z, 0);
    assert !BlockOk(phi, phi.placed[2].0, phi.placed[2].1);
  }

  lemma BadTarget(b: Builder, t: BB)
    requires b.placed != [] && Text(b, b.placed[0].1) == [Br(t)] && !PlacedOnce(b, b.placed[0].0, t)
    ensures !AllWellFormed(b)
  {
    assert Text(b, b.placed[0].1)[0] == Br(t);
    assert Jumps(Text(b, b.placed[0].1), t);
    assert !BlockOk(b, b.placed[0].0, b.placed[0].1);
  }

  /** Gotos stay among the labels `reach`, break and continue inside a loop of the function
      itself.  A nested function has its own labels and no loop around it. */
  predicate Resolved(s: Stmt, reach: set<string>, inLoop: bool) {
    match s
    case Goto(l) => l in reach
    case Break => inLoop
    case Continue => inLoop
    case Block(ss) => forall i | 0 <= i < |ss| :: Resolved(ss[i], reach, inLoop)
    case If(_, bodies, remain) =>
      (forall i | 0 <= i < |bodies| :: Resolved(bodies[i], reach, inLoop)) &&
      (remain.Some? ==> Resolved(remain.value, reach, inLoop))
    case While(_, b) => Resolved(b, reach, true)
    case Loop(b) => Resolved(b, reach, true)
    case For(_, _, b) => Resolved(b, reach, true)
    case FnDef(_, b) => Resolved(b, Labels(b, false), false)
    case _ => true
  }

  // ----- text -----

  lemma JumpsAppend(text: seq<Instr>, i: Instr, t: BB)
    ensures Jumps(text + [i], t) <==> Jumps(text, t) || t in Targets(i)
  {
    if t in Targets(i) {
      assert (text + [i])[|text|] == i;
    }
    if Jumps(text, t) {
      var k :| 0 <= k < |text| && t in Targets(text[k]);
      assert (text + [i])[k] == text[k];
    }
  }

  lemma SealedAppend(text: seq<Instr>, i: Instr)
    requires Running(text)
    ensures IsTerminator(i) ==> Sealed(text + [i])
    ensures !IsTerminator(i) ==> Running(text + [i])
  {
    assert (text + [i])[..|text|] == text;
  }

  // ----- threading: what a walk leaves behind -----

  /** A target that is fine for function f: one the surroundings of fn provide, or placed by
      this walk. */
  predicate TargetKnown(b: Builder, b1: Builder, fn: nat, ext: set<BB>, f: nat, t: BB)
    requires |b.placed| <= |b1.placed|
  {
    (f == fn && t in ext) || (f, t) in b1.placed[|b.placed|..]
  }

  ghost predicate NewOk(b: Builder, b1: Builder, fn: nat, ext: set<BB>, f: nat, bb: BB)
    requires |b.placed| <= |b1.placed|
  {
    && bb in b1.blocks && bb !in b.blocks
    && (if bb == b1.cur then f == fn else Sealed(b1.blocks[bb]))
    && forall t | Jumps(b1.blocks[bb], t) :: TargetKnown(b, b1, fn, ext, f, t)
  }

  /** From b to b1: the block left behind is sealed, the new ones are fresh, distinct and
      sealed (but for the new insertion point), and all new targets are known. */
  ghost predicate Links(b: Builder, b1: Builder, fn: nat, ext: set<BB>) {
    && b.placed <= b1.placed && b.cur in b.blocks && b1.cur in b1.blocks
    && (forall bb | bb in b.blocks :: bb in b1.blocks && (bb != b.cur ==> b1.blocks[bb] == b.blocks[bb]))
    && (b1.cur != b.cur ==> b1.cur !in b.blocks && Sealed(b1.blocks[b.cur]))
    && (forall t | Jumps(b1.blocks[b.cur], t) && !Jumps(b.blocks[b.cur], t) :: TargetKnown(b, b1, fn, ext, fn, t))
    && (forall k | |b.placed| <= k < |b1.placed| :: NewOk(b, b1, fn, ext, b1.placed[k].0, b1.placed[k].1))
    && (forall j, k | |b.placed| <= j < k < |b1.placed| :: b1.placed[j].1 != b1.placed[k].1)
  }

  lemma KnownMore(b: Builder, b1: Builder, b2: Builder, fn: nat, ext: set<BB>, f: nat, t: BB)
    requires b.placed <= b1.placed <= b2.placed
    requires TargetKnown(b, b1, fn, ext, f, t) || TargetKnown(b1, b2, fn, ext, f, t)
    ensures TargetKnown(b, b2, fn, ext, f, t)
  {
    if (f, t) in b1.placed[|b.placed|..] {
      var k :| |b.placed| <= k < |b1.placed| && b1.placed[k] == (f, t);
      assert b2.placed[k] == (f, t);
    } else if (f, t) in b2.placed[|b1.placed|..] {
      var k :| |b1.placed| <= k < |b2.placed| && b2.placed[k] == (f, t);
      assert b2.placed[k] == (f, t);
    }
  }

  lemma LinksTrans(b: Builder, b1: Builder, b2: Builder, fn: nat, ext: set<BB>)
    requires Links(b, b1, fn, ext) && Links(b1, b2, fn, ext)
    ensures Links(b, b2, fn, ext)
  {
    hide TargetKnown, Sealed, Jumps;
    forall t | Jumps(b2.blocks[b.cur], t) && !Jumps(b.blocks[b.cur], t)
      ensures TargetKnown(b, b2, fn, ext, fn, t)
    {
      KnownBoth(b, b1, b2, fn, ext, fn, b.cur, t);
    }
    forall k | |b.placed| <= k < |b2.placed|
      ensures NewOk(b, b2, fn, ext, b2.placed[k].0, b2.placed[k].1)
    {
      var (f, bb) := b2.placed[k];
      if k < |b1.placed| {
        assert b1.placed[k] == (f, bb);
        assert NewOk(b, b1, fn, ext, f, bb);
      } else {
        assert NewOk(b1, b2, fn, ext, f, bb);
      }
      forall t | Jumps(b2.blocks[bb], t)
        ensures TargetKnown(b, b2, fn, ext, f, t)
      {
        if k < |b1.placed| {
          KnownBoth(b, b1, b2, fn, ext, f, bb, t);
        } else {
          KnownMore(b, b1, b2, fn, ext, f, t);
        }
      }
    }
    forall j, k | |b.placed| <= j < k < |b2.placed|
      ensures b2.placed[j].1 != b2.placed[k].1
    {
      if j < |b1.placed| <= k {
        assert NewOk(b, b1, fn, ext, b1.placed[j].0, b1.placed[j].1);
        assert NewOk(b1, b2, fn, ext, b2.placed[k].0, b2.placed[k].1);
      }
    }
  }

  /** A jump in b2 from a block b1 already had is known. */
  lemma KnownBoth(b: Builder, b1: Builder, b2: Builder, fn: nat, ext: set<BB>, f: nat, bb: BB, t: BB)
    requires Links(b, b1, fn, ext) && Links(b1, b2, fn, ext) && bb in b1.blocks && Jumps(b2.blocks[bb], t)
    requires bb == b1.cur ==> f == fn
    requires Jumps(b1.blocks[bb], t) ==> TargetKnown(b, b1, fn, ext, f, t)
    ensures TargetKnown(b, b2, fn, ext, f, t)
  {
    KnownMore(b, b1, b2, fn, ext, f, t);
  }

  lemma LinksRefl(b: Builder, fn: nat, ext: set<BB>)
    requires b.cur in b.blocks
    ensures Links(b, b, fn, ext)
  {
  }

  lemma LinksWider(b: Builder, b1: Builder, fn: nat, ext: set<BB>, wide: set<BB>)
    requires Links(b, b1, fn, ext) && ext <= wide
    ensures Links(b, b1, fn, wide)
  {
  }

  /** Targets that were placed on the way need not be provided. */
  lemma LinksOwn(b: Builder, b1: Builder, fn: nat, ext: set<BB>, own: set<BB>)
    requires Links(b, b1, fn, ext + own) && forall t | t in own :: (fn, t) in b1.placed[|b.placed|..]
    ensures Links(b, b1, fn, ext)
  {
    forall t | Jumps(b1.blocks[b.cur], t) && !Jumps(b.blocks[b.cur], t)
      ensures TargetKnown(b, b1, fn, ext, fn, t)
    {
      assert TargetKnown(b, b1, fn, ext + own, fn, t);
    }
    forall k | |b.placed| <= k < |b1.placed|
      ensures NewOk(b, b1, fn, ext, b1.placed[k].0, b1.placed[k].1)
    {
      var (f, bb) := b1.placed[k];
      assert NewOk(b, b1, fn, ext + own, f, bb);
      forall t | Jumps(b1.blocks[bb], t)
        ensures TargetKnown(b, b1, fn, ext, f, t)
      {
        assert TargetKnown(b, b1, fn, ext + own, f, t);
      }
    }
  }

  /** Only the counters differ. */
  lemma LinksSame(b: Builder, b1: Builder, b2: Builder, fn: nat, ext: set<BB>)
    requires Links(b, b1, fn, ext) && b2.blocks == b1.blocks && b2.placed == b1.placed && b2.cur == b1.cur
    ensures Links(b, b2, fn, ext)
  {
    forall k | |b.placed| <= k < |b2.placed|
      ensures NewOk(b, b2, fn, ext, b2.placed[k].0, b2.placed[k].1)
    {
      assert NewOk(b, b1, fn, ext, b1.placed[k].0, b1.placed[k].1);
    }
  }

  lemma LinksAppend(b: Builder, i: Instr, fn: nat, ext: set<BB>)
    requires b.cur in b.blocks && Targets(i) <= ext
    ensures Links(b, Append(b, i), fn, ext)
  {
    var text := b.blocks[b.cur];
    forall t | Jumps(text + [i], t) && !Jumps(text, t)
      ensures t in ext
    {
      JumpsAppend(text, i, t);
    }
  }

  lemma LinksPlace(b: Builder, fn: nat, bb: BB, ext: set<BB>)
    requires b.cur in b.blocks && Sealed(b.blocks[b.cur]) && bb !in b.blocks
    ensures Links(b, Place(b, fn, bb), fn, ext)
    ensures (fn, bb) in Place(b, fn, bb).placed[|b.placed|..]
  {
    assert Place(b, fn, bb).placed[|b.placed|] == (fn, bb);
  }

  // ----- joins: the blocks that begin with a phi -----

  /** The blocks that branch to bb are exactly p and q. */
  ghost predicate Preds(b: Builder, bb: BB, p: BB, q: BB) {
    && p != q && p in b.blocks && q in b.blocks
    && forall x | x in b.blocks :: Jumps(b.blocks[x], bb) <==> x == p || x == q
  }

  /** A phi in bb is its first instruction, and nobody outside may still branch to bb. */
  ghost predicate JoinOk(b: Builder, bb: BB, ext: set<BB>) {
    bb in b.blocks ==>
    forall i | 0 <= i < |b.blocks[bb]| && b.blocks[bb][i].Phi? ::
      i == 0 && bb.Anon? && bb !in ext && Preds(b, bb, b.blocks[bb][i].b1, b.blocks[bb][i].b2)
  }

  ghost predicate PlacedNew(b: Builder, b1: Builder, bb: BB) {
    exists k :: |b.placed| <= k < |b1.placed| && b1.placed[k].1 == bb
  }

  /** No phi is added to a block that was there, the new blocks are placed, and the phis in
      them are right. */
  ghost predicate Joins(b: Builder, b1: Builder, ext: set<BB>) {
    && b.cur in b.blocks && b.cur in b1.blocks && b.blocks[b.cur] <= b1.blocks[b.cur]
    && (forall i | |b.blocks[b.cur]| <= i < |b1.blocks[b.cur]| :: !b1.blocks[b.cur][i].Phi?)
    && (forall bb | bb in b1.blocks && bb !in b.blocks :: PlacedNew(b, b1, bb) && JoinOk(b1, bb, ext))
  }

  lemma PlacedNewMore(b: Builder, b1: Builder, b2: Builder, bb: BB)
    requires b.placed <= b1.placed <= b2.placed && (PlacedNew(b, b1, bb) || PlacedNew(b1, b2, bb))
    ensures PlacedNew(b, b2, bb)
  {
    if PlacedNew(b, b1, bb) {
      var k :| |b.placed| <= k < |b1.placed| && b1.placed[k].1 == bb;
      assert b2.placed[k].1 == bb;
    }
  }

  /** Between b1 and b2 nobody new branches to a block b1 had, unless it is in ext. */
  lemma NoNewJump(b1: Builder, b2: Builder, fn: nat, ext: set<BB>, bb: BB, x: BB)
    requires Links(b1, b2, fn, ext) && Joins(b1, b2, ext) && bb in b1.blocks && bb !in ext && x in b2.blocks
    ensures Jumps(b2.blocks[x], bb) <==> x in b1.blocks && Jumps(b1.blocks[x], bb)
  {
    if x !in b1.blocks {
      var k :| |b1.placed| <= k < |b2.placed| && b2.placed[k].1 == x;
      assert NewOk(b1, b2, fn, ext, b2.placed[k].0, x);
      if Jumps(b2.blocks[x], bb) {
        NotNewlyPlaced(b1, b2, fn, ext, b2.placed[k].0, bb);
      }
    } else if x == b1.cur {
      if Jumps(b1.blocks[x], bb) {
        var i :| 0 <= i < |b1.blocks[x]| && bb in Targets(b1.blocks[x][i]);
        assert b2.blocks[x][i] == b1.blocks[x][i];
      } else if Jumps(b2.blocks[x], bb) {
        NotNewlyPlaced(b1, b2, fn, ext, fn, bb);
      }
    }
  }

  lemma NotNewlyPlaced(b1: Builder, b2: Builder, fn: nat, ext: set<BB>, f: nat, bb: BB)
    requires Links(b1, b2, fn, ext) && bb in b1.blocks && bb !in ext
    ensures !TargetKnown(b1, b2, fn, ext, f, bb)
  {
    forall k | |b1.placed| <= k < |b2.placed|
      ensures b2.placed[k] != (f, bb)
    {
      assert NewOk(b1, b2, fn, ext, b2.placed[k].0, b2.placed[k].1);
    }
  }

  /** A join stays right. */
  lemma JoinStays(b1: Builder, b2: Builder, fn: nat, ext: set<BB>, bb: BB)
    requires Links(b1, b2, fn, ext) && Joins(b1, b2, ext) && bb in b1.blocks && JoinOk(b1, bb, ext)
    ensures bb in b2.blocks && JoinOk(b2, bb, ext)
  {
    hide Jumps, NewOk, Sealed, TargetKnown;
    var text := b2.blocks[bb];
    forall i | 0 <= i < |text| && text[i].Phi?
      ensures i == 0 && bb.Anon? && bb !in ext && Preds(b2, bb, text[i].b1, text[i].b2)
    {
      assert i < |b1.blocks[bb]| && text[i] == b1.blocks[bb][i];
      var p, q := text[i].b1, text[i].b2;
      assert Preds(b1, bb, p, q);
      forall x | x in b2.blocks
        ensures Jumps(b2.blocks[x], bb) <==> x == p || x == q
      {
        NoNewJump(b1, b2, fn, ext, bb, x);
      }
    }
  }

  lemma JoinsTrans(b: Builder, b1: Builder, b2: Builder, fn: nat, ext: set<BB>)
    requires Links(b, b1, fn, ext) && Links(b1, b2, fn, ext) && Joins(b, b1, ext) && Joins(b1, b2, ext)
    ensures Joins(b, b2, ext)
  {
    hide JoinOk, Jumps, NewOk, Sealed, TargetKnown;
    forall bb | bb in b2.blocks && bb !in b.blocks
      ensures PlacedNew(b, b2, bb) && JoinOk(b2, bb, ext)
    {
      PlacedNewMore(b, b1, b2, bb);
      if bb in b1.blocks {
        JoinStays(b1, b2, fn, ext, bb);
      }
    }
  }

  lemma JoinsRefl(b: Builder, ext: set<BB>)
    requires b.cur in b.blocks
    ensures Joins(b, b, ext)
  {
  }

  lemma JoinsSame(b: Builder, b1: Builder, b2: Builder, ext: set<BB>)
    requires Joins(b, b1, ext) && b2.blocks == b1.blocks && b2.placed == b1.placed
    ensures Joins(b, b2, ext)
  {
    forall bb | bb in b2.blocks && bb !in b.blocks
      ensures PlacedNew(b, b2, bb) && JoinOk(b2, bb, ext)
    {
      assert PlacedNew(b, b1, bb) && JoinOk(b1, bb, ext);
    }
  }

  /** What the surroundings provide may shrink, and may grow by blocks that are not new. */
  lemma JoinsExt(b: Builder, b1: Builder, ext: set<BB>, other: set<BB>)
    requires Joins(b, b1, ext)
    requires forall t | t in other && t !in ext :: t.Named? || t !in b1.blocks || t in b.blocks
    ensures Joins(b, b1, other)
  {
    forall bb | bb in b1.blocks && bb !in b.blocks
      ensures JoinOk(b1, bb, other)
    {
      assert JoinOk(b1, bb, ext);
    }
  }

  lemma JoinsAppend(b: Builder, i: Instr, ext: set<BB>)
    requires b.cur in b.blocks && !i.Phi?
    ensures Joins(b, Append(b, i), ext)
  {
  }

  lemma JoinsPlace(b: Builder, fn: nat, bb: BB, ext: set<BB>)
    requires b.cur in b.blocks && bb !in b.blocks
    ensures Joins(b, Place(b, fn, bb), ext)
  {
    assert Place(b, fn, bb).placed[|b.placed|].1 == bb;
  }

  // ----- both together -----

  ghost predicate Threads(b: Builder, b1: Builder, fn: nat, ext: set<BB>) {
    Links(b, b1, fn, ext) && Joins(b, b1, ext)
  }

  /** Branches go to blocks that are numbered already. */
  ghost predicate Low(b: Builder) {
    forall bb, k: nat | bb in b.blocks && Jumps(b.blocks[bb], Anon(k)) :: k < b.nbb
  }

  ghost predicate Below(ext: set<BB>, n: nat) {
    forall t | t in ext && t.Anon? :: t.id < n
  }

  ghost predicate Open(b: Builder) {
    b.cur in b.blocks && Running(b.blocks[b.cur]) && Low(b)
  }

  lemma BelowMore(ext: set<BB>, n: nat, m: nat)
    requires Below(ext, n) && n <= m
    ensures Below(ext, m)
  {
  }

  lemma LowAppend(b: Builder, i: Instr)
    requires Low(b) && b.cur in b.blocks && Below(Targets(i), b.nbb)
    ensures Low(Append(b, i))
  {
    forall bb, k: nat | bb in Append(b, i).blocks && Jumps(Append(b, i).blocks[bb], Anon(k))
      ensures k < b.nbb
    {
      if bb == b.cur {
        JumpsAppend(b.blocks[bb], i, Anon(k));
      }
    }
  }

  lemma LowPlace(b: Builder, fn: nat, bb: BB)
    requires Low(b)
    ensures Low(Place(b, fn, bb))
  {
  }

  lemma LowSame(b: Builder, b1: Builder)
    requires Low(b) && b1.blocks == b.blocks && b.nbb <= b1.nbb
    ensures Low(b1)
  {
  }

  lemma ThreadsTrans(b: Builder, b1: Builder, b2: Builder, fn: nat, ext: set<BB>)
    requires Threads(b, b1, fn, ext) && Threads(b1, b2, fn, ext)
    ensures Threads(b, b2, fn, ext)
  {
    hide Links, Joins;
    LinksTrans(b, b1, b2, fn, ext);
    JoinsTrans(b, b1, b2, fn, ext);
  }

  lemma ThreadsRefl(b: Builder, fn: nat, ext: set<BB>)
    requires b.cur in b.blocks
    ensures Threads(b, b, fn, ext)
  {
    LinksRefl(b, fn, ext);
    JoinsRefl(b, ext);
  }

  lemma ThreadsWider(b: Builder, b1: Builder, fn: nat, ext: set<BB>, wide: set<BB>)
    requires Threads(b, b1, fn, ext) && ext <= wide
    requires forall t | t in wide && t !in ext :: t.Named? || t !in b1.blocks || t in b.blocks
    ensures Threads(b, b1, fn, wide)
  {
    hide Links, Joins;
    LinksWider(b, b1, fn, ext, wide);
    JoinsExt(b, b1, ext, wide);
  }

  /** Targets that were placed on the way need not be provided. */
  lemma Discharge(b: Builder, b1: Builder, fn: nat, ext: set<BB>, own: set<BB>)
    requires Threads(b, b1, fn, ext + own) && forall t | t in own :: (fn, t) in b1.placed[|b.placed|..]
    ensures Threads(b, b1, fn, ext)
  {
    LinksOwn(b, b1, fn, ext, own);
    JoinsExt(b, b1, ext + own, ext);
  }

  lemma ThreadsSame(b: Builder, b1: Builder, b2: Builder, fn: nat, ext: set<BB>)
    requires Threads(b, b1, fn, ext) && b2.blocks == b1.blocks && b2.placed == b1.placed && b2.cur == b1.cur
    ensures Threads(b, b2, fn, ext)
  {
    hide Links, Joins;
    LinksSame(b, b1, b2, fn, ext);
    JoinsSame(b, b1, b2, ext);
  }

  lemma ThreadsAppend(b: Builder, i: Instr, fn: nat, ext: set<BB>)
    requires b.cur in b.blocks && Targets(i) <= ext && !i.Phi?
    ensures Threads(b, Append(b, i), fn, ext)
    ensures Open(b) && !IsTerminator(i) ==> Open(Append(b, i))
    ensures Open(b) && IsTerminator(i) ==> Sealed(Text(Append(b, i), b.cur))
    ensures Open(b) && Below(ext, b.nbb) ==> Low(Append(b, i))
  {
    hide Links, Joins, Low;
    LinksAppend(b, i, fn, ext);
    JoinsAppend(b, i, ext);
    if Open(b) {
      SealedAppend(b.blocks[b.cur], i);
      if !IsTerminator(i) || Below(ext, b.nbb) {
        LowAppend(b, i);
      }
    }
  }

  lemma ThreadsDefine(b: Builder, i: Instr, fn: nat, ext: set<BB>)
    requires Open(b) && Targets(i) == {} && !IsTerminator(i) && !i.Phi?
    ensures Threads(b, Define(b, i).0, fn, ext) && Open(Define(b, i).0)
  {
    hide Threads, Low;
    ThreadsAppend(b, i, fn, ext);
    ThreadsSame(b, Append(b, i), Define(b, i).0, fn, ext);
    LowSame(Append(b, i), Define(b, i).0);
  }

  lemma ThreadsPlace(b: Builder, fn: nat, bb: BB, ext: set<BB>)
    requires b.cur in b.blocks && Sealed(b.blocks[b.cur]) && bb !in b.blocks && Low(b)
    ensures Threads(b, Place(b, fn, bb), fn, ext) && Open(Place(b, fn, bb))
    ensures (fn, bb) in Place(b, fn, bb).placed[|b.placed|..]
  {
    hide Links, Joins, Low;
    LinksPlace(b, fn, bb, ext);
    JoinsPlace(b, fn, bb, ext);
    LowPlace(b, fn, bb);
  }

  lemma ThreadsTurn(b: Builder, i: Instr, fn: nat, bb: BB, ext: set<BB>)
    requires Open(b) && IsTerminator(i) && Targets(i) <= ext && Below(ext, b.nbb) && bb !in b.blocks
    ensures Threads(b, Place(Append(b, i), fn, bb), fn, ext) && Open(Place(Append(b, i), fn, bb))
    ensures (fn, bb) in Place(Append(b, i), fn, bb).placed[|b.placed|..]
  {
    hide Threads, Low;
    ThreadsAppend(b, i, fn, ext);
    ThreadsPlace(Append(b, i), fn, bb, ext);
    ThreadsTrans(b, Append(b, i), Place(Append(b, i), fn, bb), fn, ext);
  }

  /** After an append: the block at the insertion point may have ended in any way. */
  lemma ThreadsAway(b: Builder, fn: nat, target: BB, ext: set<BB>)
    requires Ready(b) && Open(b) && target in ext && Below(ext, b.nbb)
    ensures Threads(b, Leave(b, fn, target), fn, ext) && Open(Leave(b, fn, target))
  {
    hide Threads, TargetKnown, NewOk, Low;
    ThreadsTurn(b, Br(target), fn, Anon(b.nbb), ext);
    var b1 := Place(Append(b, Br(target)), fn, Anon(b.nbb));
    ThreadsSame(b, b1, Leave(b, fn, target), fn, ext);
    LowSame(b1, Leave(b, fn, target));
  }

  /** A block placed early is still among the new ones later. */
  lemma StillPlaced(b: Builder, b1: Builder, b2: Builder, e: (nat, BB))
    requires b.placed <= b1.placed <= b2.placed
    requires e in b1.placed[|b.placed|..] || e in b2.placed[|b1.placed|..]
    ensures e in b2.placed[|b.placed|..]
  {
    KnownMore(b, b1, b2, e.0, {}, e.0, e.1);
  }

  // ----- expressions -----

  /** Walking an expression: nothing but its own blocks is needed. */
  ghost predicate Through(b: Builder, b1: Builder, fn: nat, ext: set<BB>) {
    Threads(b, b1, fn, ext) && Ready(b) && Ready(b1) && Open(b) && Open(b1) && b.nbb <= b1.nbb
  }

  lemma ThroughTrans(b: Builder, b1: Builder, b2: Builder, fn: nat, ext: set<BB>)
    requires Through(b, b1, fn, ext) && Through(b1, b2, fn, ext)
    ensures Through(b, b2, fn, ext)
  {
    ThreadsTrans(b, b1, b2, fn, ext);
  }

  lemma ThroughDefine(b: Builder, i: Instr, fn: nat, ext: set<BB>)
    requires Ready(b) && Open(b) && Targets(i) == {} && !IsTerminator(i) && !i.Phi?
    ensures Through(b, Define(b, i).0, fn, ext) && Through(b, Append(b, i), fn, ext)
  {
    hide Grown, Counted, Threads;
    ThreadsDefine(b, i, fn, ext);
    ThreadsAppend(b, i, fn, ext);
    GrowsDefine(b, i, 0, {});
    GrowsAppend(b, i, 0, {});
  }

  lemma ThroughTurn(b: Builder, i: Instr, fn: nat, bb: BB, ext: set<BB>)
    requires Ready(b) && Open(b) && IsTerminator(i) && Targets(i) <= ext && Below(ext, b.nbb) && bb !in b.blocks
    requires bb.Anon? ==> bb.id < b.nbb
    ensures Through(b, Place(Append(b, i), fn, bb), fn, ext)
    ensures (fn, bb) in Place(Append(b, i), fn, bb).placed[|b.placed|..]
  {
    hide Grown, Counted, Threads;
    ThreadsTurn(b, i, fn, bb, ext);
    GrowsTurn(b, i, fn, bb, 0, if bb.Named? then {bb.name} else {});
  }

  lemma ThroughNewBB(b: Builder, k: nat, fn: nat, ext: set<BB>)
    requires Ready(b) && Open(b)
    ensures Through(b, NewBB(b, k), fn, ext)
  {
    hide Threads, Low;
    ThreadsRefl(b, fn, ext);
    ThreadsSame(b, b, NewBB(b, k), fn, ext);
    LowSame(b, NewBB(b, k));
  }

  lemma {:induction false} ThroughR(c: Ctx, e: Expr, b: Builder, ext: set<BB>)
    requires TypeE(c.g, e).Some? && Ready(b) && Open(b) && Below(ext, b.nbb)
    ensures Through(b, EmitR(c, e, b).0, c.fn, ext)
    decreases e, 1
  {
    hide Grown, Counted, Threads, Open;
    ThroughE(c, e, b, ext);
    var (b1, o) := EmitE(c, e, b);
    if o.Slot? {
      ThroughDefine(b1, Load(b1.nreg, o.slot), c.fn, ext);
      ThroughTrans(b, b1, EmitR(c, e, b).0, c.fn, ext);
    }
  }

  lemma {:induction false} ThroughE(c: Ctx, e: Expr, b: Builder, ext: set<BB>)
    requires TypeE(c.g, e).Some? && Ready(b) && Open(b) && Below(ext, b.nbb)
    ensures Through(b, EmitE(c, e, b).0, c.fn, ext)
    decreases e, 0, 2
  {
    hide Grown, Counted, Threads, Open, Below;
    match e
    case Lit(_, _) => ThroughRefl(b, c.fn, ext);
    case Var(_) => ThroughRefl(b, c.fn, ext);
    case Neg(_) => ThroughUnary(c, e, b, ext);
    case Not(_) => ThroughUnary(c, e, b, ext);
    case Arith(_, _, _) => ThroughBinary(c, e, b, ext);
    case Cmp(_, _, _) => ThroughBinary(c, e, b, ext);
    case Logic(_, _, _) => ThroughLogic(c, e, b, ext);
    case As(_, _) => ThroughUnary(c, e, b, ext);
    case Call(_, _, _) => ThroughCall(c, e, b, ext);
  }

  lemma {:induction false} ThroughUnary(c: Ctx, e: Expr, b: Builder, ext: set<BB>)
    requires e.Neg? || e.Not? || e.As?
    requires TypeE(c.g, e).Some? && Ready(b) && Open(b) && Below(ext, b.nbb)
    ensures Through(b, EmitE(c, e, b).0, c.fn, ext)
    decreases e, 0, 0
  {
    hide Grown, Counted, Threads, Open, Below;
    var fn, bE := c.fn, EmitE(c, e, b).0;
    match e
    case Neg(a) =>
      ThroughR(c, a, b, ext);
      var (b1, v) := EmitR(c, a, b);
      ThroughDefine(b1, NegI(b1.nreg, Size(TypeE(c.g, a).value), v), fn, ext);
      ThroughTrans(b, b1, bE, fn, ext);
    case Not(a) =>
      ThroughR(c, a, b, ext);
      var (b1, v) := EmitR(c, a, b);
      ThroughDefine(b1, NotI(b1.nreg, Size(TypeE(c.g, a).value), v), fn, ext);
      ThroughTrans(b, b1, bE, fn, ext);
    case As(a, to) =>
      ThroughR(c, a, b, ext);
      var (b1, v) := EmitR(c, a, b);
      var op := GenCastOp(TypeE(c.g, a).value, to);
      ThroughDefine(b1, CastI(b1.nreg, op, Size(TypeE(c.g, a).value), Size(to), v), fn, ext);
      if op != NoOp {
        ThroughTrans(b, b1, bE, fn, ext);
      }
  }

  lemma {:induction false} ThroughBinary(c: Ctx, e: Expr, b: Builder, ext: set<BB>)
    requires e.Arith? || e.Cmp?
    requires TypeE(c.g, e).Some? && Ready(b) && Open(b) && Below(ext, b.nbb)
    ensures Through(b, EmitE(c, e, b).0, c.fn, ext)
    decreases e, 0, 1
  {
    hide Grown, Counted, Threads, Open, Below;
    var fn, bE := c.fn, EmitE(c, e, b).0;
    match e
    case Arith(op, l, r) =>
      ThroughBoth(c, e, b, ext);
      var (b1, v1) := EmitR(c, l, b);
      var (b2, v2) := EmitR(c, r, b1);
      ThroughDefine(b2, ArithI(b2.nreg, op, Size(TypeE(c.g, l).value), v1, v2), fn, ext);
      ThroughTrans(b, b2, bE, fn, ext);
    case Cmp(op, l, r) =>
      ThroughBoth(c, e, b, ext);
      var (b1, v1) := EmitR(c, l, b);
      var (b2, v2) := EmitR(c, r, b1);
      ThroughDefine(b2, CmpI(b2.nreg, CmpPred(TypeE(c.g, l).value, op), Size(TypeE(c.g, l).value), v1, v2), fn, ext);
      ThroughTrans(b, b2, bE, fn, ext);
  }

  lemma {:induction false} ThroughCall(c: Ctx, e: Expr, b: Builder, ext: set<BB>)
    requires e.Call? && TypeE(c.g, e).Some? && Ready(b) && Open(b) && Below(ext, b.nbb)
    ensures Through(b, EmitE(c, e, b).0, c.fn, ext)
    decreases e, 0, 0
  {
    hide Grown, Counted, Threads, Open, Below;
    var fn, bE := c.fn, EmitE(c, e, b).0;
    match e
    case Call(f, res, args) =>
      ThroughArgs(c, args, b, ext);
      var (b1, vs) := EmitArgs(c, args, b);
      var (b2, d) := Define(b1, CallI(b1.nreg, f, Size(res), vs));
      ThroughDefine(b1, CallI(b1.nreg, f, Size(res), vs), fn, ext);
      ThroughTrans(b, b1, b2, fn, ext);
      ThroughSlot(b2, d, fn, ext);
      ThroughTrans(b, b2, bE, fn, ext);
  }

  lemma ThroughRefl(b: Builder, fn: nat, ext: set<BB>)
    requires Ready(b) && Open(b)
    ensures Through(b, b, fn, ext)
  {
    ThreadsRefl(b, fn, ext);
  }

  lemma ThroughSlot(b: Builder, v: Value, fn: nat, ext: set<BB>)
    requires Ready(b) && Open(b)
    ensures Through(b, Append(b, Store(v, b.nslot)).(nslot := b.nslot + 1), fn, ext)
  {
    ThroughDefine(b, Store(v, b.nslot), fn, ext);
    ThreadsSame(b, Append(b, Store(v, b.nslot)), Append(b, Store(v, b.nslot)).(nslot := b.nslot + 1), fn, ext);
  }

  lemma {:induction false} ThroughBoth(c: Ctx, e: Expr, b: Builder, ext: set<BB>)
    requires e.Arith? || e.Cmp?
    requires TypeE(c.g, e).Some? && Ready(b) && Open(b) && Below(ext, b.nbb)
    ensures Through(b, EmitR(c, e.right, EmitR(c, e.left, b).0).0, c.fn, ext)
    decreases e, 0, 0
  {
    hide Grown, Counted, Threads, Open;
    ThroughR(c, e.left, b, ext);
    var b1 := EmitR(c, e.left, b).0;
    ThroughR(c, e.right, b1, ext);
    ThroughTrans(b, b1, EmitR(c, e.right, b1).0, c.fn, ext);
  }

  lemma {:induction false} ThroughLogic(c: Ctx, e: Expr, b: Builder, ext: set<BB>)
    requires e.Logic? && TypeE(c.g, e).Some? && Ready(b) && Open(b) && Below(ext, b.nbb)
    ensures Through(b, EmitE(c, e, b).0, c.fn, ext)
    decreases e, 0, 0
  {
    hide Grown, Counted, Threads, Open, EmitR, TypeE, Below;
    TypeLogic(c.g, e);
    var (b1, v1) := EmitR(c, e.left, b);
    ThroughR(c, e.left, b, ext);
    BelowMore(ext, b.nbb, b1.nbb);
    GrowsLogic(c, e, b);
    var (b2, v2) := EmitR(c, e.right, EnterRight(c, e.isAnd, b1, v1));
    var b3 := Place(Append(b2, Br(Anon(b1.nbb + 1))), c.fn, Anon(b1.nbb + 1));
    ThroughRight(c, e, b1, v1, ext);
    LogicPreds(c, e, b1, v1, ext);
    NotYet(b1, b1.nbb + 1);
    ThroughPhi(b1, b3, c.fn, ext, Phi(b3.nreg, b2.cur, v2, b1.cur, v1));
    ThroughTrans(b, b1, EmitE(c, e, b).0, c.fn, ext);
  }

  /** From the left operand to the join, which is placed and still empty. */
  lemma {:induction false} ThroughRight(c: Ctx, e: Expr, b1: Builder, v1: Value, ext: set<BB>)
    requires e.Logic? && TypeE(c.g, e.right).Some? && Ready(b1) && Open(b1) && Below(ext, b1.nbb)
    requires Anon(b1.nbb + 1) !in EmitR(c, e.right, EnterRight(c, e.isAnd, b1, v1)).0.blocks
    ensures var b2 := EmitR(c, e.right, EnterRight(c, e.isAnd, b1, v1)).0;
            var b3 := Place(Append(b2, Br(Anon(b1.nbb + 1))), c.fn, Anon(b1.nbb + 1));
            Through(b1, b3, c.fn, ext) && b3.blocks[b3.cur] == []
    decreases e.right, 2
  {
    hide Grown, Counted, Threads, Open, EmitR, TypeE, Below;
    var right, out := Anon(b1.nbb), Anon(b1.nbb + 1);
    var own := {right, out};
    var bR := EnterRight(c, e.isAnd, b1, v1);
    GrowsEnterRight(c, e.isAnd, b1, v1);
    BelowOwn(ext, own, b1.nbb, bR.nbb);
    ThroughEnterRight(c, e.isAnd, b1, v1, ext + own);
    ThroughR(c, e.right, bR, ext + own);
    var b2 := EmitR(c, e.right, bR).0;
    ThroughTrans(b1, bR, b2, c.fn, ext + own);
    BelowMore(ext + own, bR.nbb, b2.nbb);
    var b3 := Place(Append(b2, Br(out)), c.fn, out);
    ThroughTurn(b2, Br(out), c.fn, out, ext + own);
    ThroughTrans(b1, b2, b3, c.fn, ext + own);
    ThroughPrefix(b1, bR, c.fn, ext + own);
    ThroughPrefix(bR, b2, c.fn, ext + own);
    StillPlaced(b1, bR, b3, (c.fn, right));
    StillPlaced(b1, b2, b3, (c.fn, out));
    ThroughOwn(b1, b3, c.fn, ext, own);
  }

  lemma BelowOwn(ext: set<BB>, own: set<BB>, n: nat, m: nat)
    requires Below(ext, n) && n <= m && forall t | t in own :: t.Anon? && t.id < m
    ensures Below(ext + own, m)
  {
  }

  /** The join of `&&` and `||`, just placed, has exactly two predecessors: the block the left
      operand ended in and the block the right operand ended in. */
  lemma {:induction false} LogicPreds(c: Ctx, e: Expr, b1: Builder, v1: Value, ext: set<BB>)
    requires e.Logic? && TypeE(c.g, e.right).Some? && Ready(b1) && Open(b1) && Below(ext, b1.nbb)
    requires Anon(b1.nbb + 1) !in EmitR(c, e.right, EnterRight(c, e.isAnd, b1, v1)).0.blocks
    ensures var b2 := EmitR(c, e.right, EnterRight(c, e.isAnd, b1, v1)).0;
            var out := Anon(b1.nbb + 1);
            out !in ext && Preds(Place(Append(b2, Br(out)), c.fn, out), out, b2.cur, b1.cur)
    decreases e.right, 2
  {
    hide Grown, Counted, EmitR, TypeE, Links, Joins, Jumps, Running;
    var right, out := Anon(b1.nbb), Anon(b1.nbb + 1);
    var bR := EnterRight(c, e.isAnd, b1, v1);
    var b2 := EmitR(c, e.right, bR).0;
    var b3 := Place(Append(b2, Br(out)), c.fn, out);
    GrowsEnterRight(c, e.isAnd, b1, v1);
    GrowsR(c, e.right, bR);
    OutJumps(c, e.isAnd, b1, v1);
    EnterOpen(c, e.isAnd, b1, v1);
    BelowMore(ext, b1.nbb, bR.nbb);
    ThroughR(c, e.right, bR, ext);
    JumpsAppend(b2.blocks[b2.cur], Br(out), out);
    NotYet(b1, b1.nbb);
    EndsNew(bR, b2, b1.cur);
    assert out !in ext;
    CurStays(bR, b2, bR.nbb, b1.cur);
    CurStays(bR, b2, bR.nbb, bR.cur);
    forall x | x in b3.blocks
      ensures Jumps(b3.blocks[x], out) <==> x == b2.cur || x == b1.cur
    {
      if x == out {
        NoJumps(out);
      } else {
        NoNewJumpOut(bR, b2, c.fn, ext, out, x);
        assert x != b2.cur ==> b3.blocks[x] == b2.blocks[x];
      }
    }
    assert Preds(b3, out, b2.cur, b1.cur);
  }

  lemma EnterOpen(c: Ctx, isAnd: bool, b: Builder, v: Value)
    requires Ready(b) && Open(b)
    ensures Open(EnterRight(c, isAnd, b, v))
  {
    hide Grown, Threads, Low, Jumps;
    var i := if isAnd then CondBr(v, Anon(b.nbb), Anon(b.nbb + 1)) else CondBr(v, Anon(b.nbb + 1), Anon(b.nbb));
    var b0 := NewBB(b, 2);
    LowSame(b, b0);
    LowAppend(b0, i);
    LowPlace(Append(b0, i), c.fn, Anon(b.nbb));
    assert Place(Append(b0, i), c.fn, Anon(b.nbb)) == EnterRight(c, isAnd, b, v);
  }

  lemma NoJumps(out: BB)
    ensures !Jumps([], out)
  {
  }

  /** After the branch only the block the left operand ended in jumps to the join. */
  lemma OutJumps(c: Ctx, isAnd: bool, b1: Builder, v1: Value)
    requires Ready(b1) && Open(b1)
    ensures var bR := EnterRight(c, isAnd, b1, v1);
            forall x | x in bR.blocks :: Jumps(bR.blocks[x], Anon(b1.nbb + 1)) <==> x == b1.cur
  {
    var bR, out := EnterRight(c, isAnd, b1, v1), Anon(b1.nbb + 1);
    var i := if isAnd then CondBr(v1, Anon(b1.nbb), out) else CondBr(v1, out, Anon(b1.nbb));
    forall x | x in bR.blocks
      ensures Jumps(bR.blocks[x], out) <==> x == b1.cur
    {
      if x == b1.cur {
        JumpsAppend(b1.blocks[x], i, out);
      } else if x in b1.blocks {
        assert bR.blocks[x] == b1.blocks[x];
      }
    }
  }

  lemma CurStays(b: Builder, b1: Builder, lo: nat, x: BB)
    requires Grows(b, b1, lo, {}) && x in b.blocks
    ensures x in b1.blocks && b1.cur in b1.blocks
  {
  }

  lemma EndsNew(b: Builder, b1: Builder, x: BB)
    requires Grows(b, b1, b.nbb, {}) && x in b.blocks && x != b.cur
    ensures b1.cur != x
  {
  }

  /** The same as NoNewJump for a block that is not placed yet. */
  lemma NoNewJumpOut(b1: Builder, b2: Builder, fn: nat, ext: set<BB>, bb: BB, x: BB)
    requires Links(b1, b2, fn, ext) && Joins(b1, b2, ext) && bb !in b2.blocks && bb !in ext && x in b2.blocks
    ensures Jumps(b2.blocks[x], bb) <==> x in b1.blocks && Jumps(b1.blocks[x], bb)
  {
    if x !in b1.blocks {
      var k :| |b1.placed| <= k < |b2.placed| && b2.placed[k].1 == x;
      assert NewOk(b1, b2, fn, ext, b2.placed[k].0, x);
      if Jumps(b2.blocks[x], bb) {
        NotPlacedYet(b1, b2, fn, ext, b2.placed[k].0, bb);
      }
    } else if x == b1.cur {
      if Jumps(b1.blocks[x], bb) {
        var i :| 0 <= i < |b1.blocks[x]| && bb in Targets(b1.blocks[x][i]);
        assert b2.blocks[x][i] == b1.blocks[x][i];
      } else if Jumps(b2.blocks[x], bb) {
        NotPlacedYet(b1, b2, fn, ext, fn, bb);
      }
    }
  }

  lemma NotPlacedYet(b1: Builder, b2: Builder, fn: nat, ext: set<BB>, f: nat, bb: BB)
    requires Links(b1, b2, fn, ext) && bb !in b2.blocks && bb !in ext
    ensures !TargetKnown(b1, b2, fn, ext, f, bb)
  {
    forall k | |b1.placed| <= k < |b2.placed|
      ensures b2.placed[k] != (f, bb)
    {
      assert NewOk(b1, b2, fn, ext, b2.placed[k].0, b2.placed[k].1);
    }
  }

  /** Puts the phi into a join that is new, still empty, and has the right predecessors. */
  lemma ThroughPhi(b: Builder, b3: Builder, fn: nat, ext: set<BB>, phi: Instr)
    requires Through(b, b3, fn, ext) && phi.Phi? && b3.cur !in b.blocks && b3.cur.Anon? && b3.cur !in ext
    requires b3.blocks[b3.cur] == [] && Preds(b3, b3.cur, phi.b1, phi.b2)
    ensures Through(b, Define(b3, phi).0, fn, ext)
  {
    hide Grown, Counted, Low, Links;
    var b4, out := Define(b3, phi).0, b3.cur;
    GrowsDefine(b3, phi, 0, {});
    LinksAppend(b3, phi, fn, ext);
    LinksSame(b3, Append(b3, phi), b4, fn, ext);
    LinksTrans(b, b3, b4, fn, ext);
    LowAppend(b3, phi);
    LowSame(Append(b3, phi), b4);
    PhiPreds(b3, phi, b4);
    forall bb | bb in b4.blocks && bb !in b.blocks
      ensures PlacedNew(b, b4, bb) && JoinOk(b4, bb, ext)
    {
      assert PlacedNew(b, b3, bb) && JoinOk(b3, bb, ext);
      if bb != out {
        SamePreds(b3, b4, bb, ext);
      }
    }
  }

  /** The phi itself jumps nowhere. */
  lemma PhiPreds(b3: Builder, phi: Instr, b4: Builder)
    requires phi.Phi? && b3.cur in b3.blocks && b4 == Define(b3, phi).0 && b3.blocks[b3.cur] == []
    ensures b4.blocks.Keys == b3.blocks.Keys
    ensures forall x, t | x in b3.blocks :: Jumps(b4.blocks[x], t) <==> Jumps(b3.blocks[x], t)
    ensures b4.blocks[b3.cur] == [phi] && forall x | x in b3.blocks && x != b3.cur :: b4.blocks[x] == b3.blocks[x]
  {
    forall x, t | x in b3.blocks
      ensures Jumps(b4.blocks[x], t) <==> Jumps(b3.blocks[x], t)
    {
      if x == b3.cur {
        JumpsAppend([], phi, t);
        assert [] + [phi] == [phi];
      }
    }
  }

  lemma SamePreds(b3: Builder, b4: Builder, bb: BB, ext: set<BB>)
    requires JoinOk(b3, bb, ext) && bb in b3.blocks && b4.blocks.Keys == b3.blocks.Keys &&
             b4.blocks[bb] == b3.blocks[bb]
    requires forall x, t | x in b3.blocks :: Jumps(b4.blocks[x], t) <==> Jumps(b3.blocks[x], t)
    ensures JoinOk(b4, bb, ext)
  {
    hide Jumps;
  }

  lemma ThroughPrefix(b: Builder, b1: Builder, fn: nat, ext: set<BB>)
    requires Through(b, b1, fn, ext)
    ensures b.placed <= b1.placed
  {
  }

  lemma ThroughOwn(b: Builder, b1: Builder, fn: nat, ext: set<BB>, own: set<BB>)
    requires Through(b, b1, fn, ext + own) && forall t | t in own :: (fn, t) in b1.placed[|b.placed|..]
    ensures Through(b, b1, fn, ext)
  {
    Discharge(b, b1, fn, ext, own);
  }

  lemma ThroughEnterRight(c: Ctx, isAnd: bool, b: Builder, v: Value, ext: set<BB>)
    requires Ready(b) && Open(b) && Anon(b.nbb) in ext && Anon(b.nbb + 1) in ext
    ensures Through(b, EnterRight(c, isAnd, b, v), c.fn, ext)
    ensures (c.fn, Anon(b.nbb)) in EnterRight(c, isAnd, b, v).placed[|b.placed|..]
  {
    hide Threads, Low, Jumps, Grown;
    var i := if isAnd then CondBr(v, Anon(b.nbb), Anon(b.nbb + 1)) else CondBr(v, Anon(b.nbb + 1), Anon(b.nbb));
    var b1 := Append(b, i);
    var b2 := NewBB(b1, 2);
    var bR := EnterRight(c, isAnd, b, v);
    GrowsEnterRight(c, isAnd, b, v);
    EnterOpen(c, isAnd, b, v);
    ThreadsAppend(b, i, c.fn, ext);
    ThreadsEnter(b, b1, c.fn, Anon(b.nbb), ext);
    ThreadsTrans(b, b1, Place(b1, c.fn, Anon(b.nbb)), c.fn, ext);
    ThreadsSame(b, Place(b1, c.fn, Anon(b.nbb)), bR, c.fn, ext);
    assert bR.placed[|b.placed|] == (c.fn, Anon(b.nbb));
  }

  lemma ThreadsEnter(b: Builder, b1: Builder, fn: nat, bb: BB, ext: set<BB>)
    requires b1.cur in b1.blocks && Sealed(b1.blocks[b1.cur]) && bb !in b1.blocks
    ensures Threads(b1, Place(b1, fn, bb), fn, ext)
  {
    LinksPlace(b1, fn, bb, ext);
    JoinsPlace(b1, fn, bb, ext);
  }

  lemma {:induction false} ThroughArgs(c: Ctx, es: seq<Expr>, b: Builder, ext: set<BB>)
    requires (forall i | 0 <= i < |es| :: TypeE(c.g, es[i]).Some?) && Ready(b) && Open(b) && Below(ext, b.nbb)
    ensures Through(b, EmitArgs(c, es, b).0, c.fn, ext)
    decreases es
  {
    hide Grown, Counted, Threads, Open, EmitR, TypeE;
    if es == [] {
      ThroughRefl(b, c.fn, ext);
    } else {
      ThroughR(c, es[0], b, ext);
      var b1 := EmitR(c, es[0], b).0;
      ThroughArgs(c, es[1..], b1, ext);
      ThroughTrans(b, b1, EmitArgs(c, es, b).0, c.fn, ext);
    }
  }
}
