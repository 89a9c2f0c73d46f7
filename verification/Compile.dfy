/** Walking a whole program. */
module Compile {
  import opened IntTypes
  import opened Syntax
  import opened Target
  import opened Emit
  import opened WellFormed
  import opened Programs
  import opened Generator

  /** The second pass over a program's functions: it succeeds exactly on accepted programs, has
      then emitted exactly their code, and that code is well formed exactly when the labels of
      the program are distinct and its jumps stay in their function and loop. */
  method CompileProgram(g: seq<Ty>, fns: seq<Stmt>) returns (ok: bool, w: Walker)
    requires forall i | 0 <= i < |fns| :: fns[i].FnDef?
    ensures fresh(w) && w.Valid() && (ok <==> Program(g, fns))
    ensures ok ==> w.IR() == EmitSeq(Outside(g), fns, Start(g)) && w.currFnStack == [] && w.loopControls == []
    ensures ok ==> (AllWellFormed(w.IR()) <==>
                    DistinctLabelsSeq(fns) && forall i | 0 <= i < |fns| :: Resolved(fns[i], {}, false))
  {
    hide EmitSeq, AllWellFormed, DistinctLabelsSeq, Resolved, Accepted;
    w := new Walker(g);
    ok := w.WalkStmtList(fns);
    if ok {
      WellFormedIff(g, fns);
    }
  }
}
