/** Big-step meaning of the trees: values are mathematical integers, control transfers are
    outcomes.  A `goto` resumes the smallest enclosing function body (or `for` body) at the
    label, so `EvalS` takes the label to start from, if any.

    `fuel` only bounds the number of repetitions: a run that needs more is a Timeout. */
module Source {
  import opened IntTypes
  import opened Syntax

  /** A call to a function outside the model: its name and argument patterns. */
  datatype Event = Event(fn: string, args: seq<nat>)

  /** What a call returns may depend on everything called before. */
  datatype World = World(ext: (string, seq<nat>, seq<Event>) -> nat)

  datatype State = State(store: seq<int>, trace: seq<Event>)

  predicate StoreOk(g: seq<Ty>, store: seq<int>) {
    |store| == |g| && forall x | 0 <= x < |g| :: InRange(g[x], store[x])
  }

  function EvalE(w: World, g: seq<Ty>, e: Expr, st: State): (r: (int, State))
    requires TypeE(g, e).Some? && StoreOk(g, st.store)
    ensures InRange(TypeE(g, e).value, r.0) && r.1.store == st.store
    decreases e
  {
    match e
    case Lit(_, _) => (LitValue(e.ty, e.val), st)
    case Var(_) => (st.store[e.slot], st)
    case Neg(_) => var (v, st1) := EvalE(w, g, e.arg, st); (Wrap(TypeE(g, e.arg).value, -v), st1)
    case Not(_) => var (v, st1) := EvalE(w, g, e.arg, st); (Wrap(TypeE(g, e.arg).value, -1 - v), st1)
    case Arith(_, _, _) =>
      var (x, st1) := EvalE(w, g, e.left, st);
      var (y, st2) := EvalE(w, g, e.right, st1);
      (Wrap(TypeE(g, e.left).value, ArithInt(e.aop, x, y)), st2)
    case Cmp(_, _, _) =>
      var (x, st1) := EvalE(w, g, e.left, st);
      var (y, st2) := EvalE(w, g, e.right, st1);
      (if CmpInt(e.cop, x, y) then 1 else 0, st2)
    case Logic(_, _, _) =>
      var (x, st1) := EvalE(w, g, e.left, st);
      if (x != 0) == e.isAnd then EvalE(w, g, e.right, st1) else (x, st1)
    case As(_, _) => var (v, st1) := EvalE(w, g, e.arg, st); (Wrap(e.to, v), st1)
    case Call(_, _, _) =>
      var (bits, st1) := EvalArgs(w, g, e.args, st);
      (Wrap(e.res, w.ext(e.fn, bits, st1.trace)), st1.(trace := st1.trace + [Event(e.fn, bits)]))
  }

  function EvalArgs(w: World, g: seq<Ty>, es: seq<Expr>, st: State): (r: (seq<nat>, State))
    requires (forall i | 0 <= i < |es| :: TypeE(g, es[i]).Some?) && StoreOk(g, st.store)
    ensures r.1.store == st.store
    decreases es
  {
    if es == [] then ([], st) else
    var (v, st1) := EvalE(w, g, es[0], st);
    var (vs, st2) := EvalArgs(w, g, es[1..], st1);
    ([Encode(TypeE(g, es[0]).value, v)] + vs, st2)
  }

  datatype Outcome =
    | Normal
    | Broke
    | Continued
    | Returned(v: Option<int>)
    | Jump(target: string)
    | Timeout
    | Wild  // a goto into a `for` body from outside it: the index slot holds no meaningful value

  /** The branch an if-chain takes: the first true condition, or |conds|. */
  function Choose(w: World, g: seq<Ty>, conds: seq<Expr>, st: State): (r: (nat, State))
    requires (forall i | 0 <= i < |conds| :: TypeE(g, conds[i]) == Some(BOOL)) && StoreOk(g, st.store)
    ensures r.0 <= |conds| && r.1.store == st.store
  {
    if conds == [] then (0, st) else
    var (v, st1) := EvalE(w, g, conds[0], st);
    if v != 0 then (0, st1) else
    var (k, st2) := Choose(w, g, conds[1..], st1);
    (k + 1, st2)
  }

  /** The first of ss that defines label l. */
  function Holder(ss: seq<Stmt>, l: string): (k: nat)
    ensures k <= |ss|
    ensures k < |ss| <==> l in LabelsSeq(ss, false)
    ensures k < |ss| ==> l in Labels(ss[k], false)
  {
    if ss == [] then 0 else if l in Labels(ss[0], false) then 0 else 1 + Holder(ss[1..], l)
  }

  predicate EntryOk(s: Stmt, entry: Option<string>) {
    entry.Some? ==> entry.value in Labels(s, false)
  }

  function EvalS(w: World, g: seq<Ty>, ret: Option<Ty>, s: Stmt, entry: Option<string>, st: State, fuel: nat)
    : (r: (Outcome, State))
    requires WellTyped(g, ret, s) && StoreOk(g, st.store) && EntryOk(s, entry)
    ensures StoreOk(g, r.1.store)
    decreases fuel, s, 1
  {
    match s
    case Skip => (Normal, st)
    case ExprStmt(_) => (Normal, EvalE(w, g, s.e, st).1)
    case Assign(_, _) =>
      var (v, st1) := EvalE(w, g, s.e, st);
      (Normal, st1.(store := st1.store[s.x := v]))
    case AssignOp(_, _, _) =>
      var (v, st1) := EvalE(w, g, s.e, st);
      (Normal, st1.(store := st1.store[s.x := Wrap(g[s.x], ArithInt(s.op, st1.store[s.x], v))]))
    case Block(_) => EvalSeq(w, g, ret, s.ss, entry, st, fuel)
    case If(_, _, _) =>
      var (k, st1) := if entry.None? then Choose(w, g, s.conds, st) else (Holder(s.bodies, entry.value), st);
      if k < |s.bodies| then EvalS(w, g, ret, s.bodies[k], entry, st1, fuel)
      else if s.remain.Some? then EvalS(w, g, ret, s.remain.value, entry, st1, fuel)
      else (Normal, st1)
    case While(_, _) => Repeat(w, g, ret, s, entry, st, fuel)
    case Loop(_) => Repeat(w, g, ret, s, entry, st, fuel)
    case For(_, _, _) =>
      if entry.Some? then (Wild, st)
      else if s.src.Array? then EvalFor(w, g, ret, s, 0, s.src.count, st, fuel)
      else
        var (a, st1) := EvalE(w, g, s.src.lo, st);
        var (b, st2) := EvalE(w, g, s.src.hi, st1);
        EvalFor(w, g, ret, s, a, b, st2, fuel)
    case Break => (Broke, st)
    case Continue => (Continued, st)
    case Ret(_) =>
      if s.value.None? then (Returned(None), st) else
      var (x, st1) := EvalE(w, g, s.value.value, st);
      (Returned(Some(x)), st1)
    case Goto(_) => (Jump(s.target), st)
    case Label(_) => (Normal, st)
    case FnDef(_, _) => (Normal, st)
  }

  function EvalSeq(w: World, g: seq<Ty>, ret: Option<Ty>, ss: seq<Stmt>, entry: Option<string>, st: State, fuel: nat)
    : (r: (Outcome, State))
    requires (forall i | 0 <= i < |ss| :: WellTyped(g, ret, ss[i])) && StoreOk(g, st.store)
    requires entry.Some? ==> entry.value in LabelsSeq(ss, false)
    ensures StoreOk(g, r.1.store)
    decreases fuel, ss, 0
  {
    if ss == [] then (Normal, st)
    else if entry.Some? && entry.value !in Labels(ss[0], false) then
      EvalSeq(w, g, ret, ss[1..], entry, st, fuel)
    else
      var (o, st1) := EvalS(w, g, ret, ss[0], entry, st, fuel);
      if o.Normal? then EvalSeq(w, g, ret, ss[1..], None, st1, fuel) else (o, st1)
  }

  /** while and loop: the entry label, if any, is inside the body. */
  function Repeat(w: World, g: seq<Ty>, ret: Option<Ty>, s: Stmt, entry: Option<string>, st: State, fuel: nat)
    : (r: (Outcome, State))
    requires s.While? || s.Loop?
    requires WellTyped(g, ret, s) && StoreOk(g, st.store) && EntryOk(s, entry)
    ensures StoreOk(g, r.1.store)
    decreases fuel, s, 0
  {
    var (v, st1) := if entry.None? && s.While? then EvalE(w, g, s.cond, st) else (1, st);
    if v == 0 then (Normal, st1) else
    var (o, st2) := EvalS(w, g, ret, s.body, entry, st1, fuel);
    match o
    case Normal => if fuel == 0 then (Timeout, st2) else Repeat(w, g, ret, s, None, st2, fuel - 1)
    case Continued => if fuel == 0 then (Timeout, st2) else Repeat(w, g, ret, s, None, st2, fuel - 1)
    case Broke => (Normal, st2)
    case _ => (o, st2)
  }

  function IndexType(g: seq<Ty>, s: Stmt): Ty
    requires s.For? && s.x < |g|
  {
    if s.src.Array? then U64 else g[s.x]
  }

  predicate ForGoes(s: Stmt, i: int, end: int)
    requires s.For?
  {
    if s.src.Range? && s.src.inclusive then i <= end else i < end
  }

  /** What the variable is set to for index i. */
  function ItemAt(s: Stmt, i: int, store: seq<int>): int
    requires s.For? && (s.src.Array? ==> 0 <= i && s.src.base + i < |store|)
  {
    if s.src.Array? then store[s.src.base + i] else i
  }

  /** One `for`, about to test index i against the end. */
  function EvalFor(w: World, g: seq<Ty>, ret: Option<Ty>, s: Stmt, i: int, end: int, st: State, fuel: nat)
    : (r: (Outcome, State))
    requires s.For? && WellTyped(g, ret, s) && StoreOk(g, st.store)
    requires InRange(IndexType(g, s), i) && (s.src.Array? ==> end == s.src.count)
    ensures StoreOk(g, r.1.store)
    decreases fuel, s, 0
  {
    if !ForGoes(s, i, end) then (Normal, st) else
    var (o, st1) := EvalBody(w, g, ret, s.body, None, st.(store := st.store[s.x := ItemAt(s, i, st.store)]), fuel);
    match o
    case Normal => if fuel == 0 then (Timeout, st1)
        else EvalFor(w, g, ret, s, Wrap(IndexType(g, s), i + 1), end, st1, fuel - 1)
    case Continued => if fuel == 0 then (Timeout, st1)
        else EvalFor(w, g, ret, s, Wrap(IndexType(g, s), i + 1), end, st1, fuel - 1)
    case Broke => (Normal, st1)
    case _ => (o, st1)
  }

  /** A body whose gotos to its own labels are followed. */
  function EvalBody(w: World, g: seq<Ty>, ret: Option<Ty>, s: Stmt, entry: Option<string>, st: State, fuel: nat)
    : (r: (Outcome, State))
    requires WellTyped(g, ret, s) && StoreOk(g, st.store) && EntryOk(s, entry)
    ensures StoreOk(g, r.1.store)
    decreases fuel, s, 2
  {
    var (o, st1) := EvalS(w, g, ret, s, entry, st, fuel);
    if o.Jump? && o.target in Labels(s, false) then
      if fuel == 0 then (Timeout, st1) else EvalBody(w, g, ret, s, Some(o.target), st1, fuel - 1)
    else (o, st1)
  }
}
