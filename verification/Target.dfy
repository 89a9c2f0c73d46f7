/** The emitted code: basic blocks of instructions over numbered registers and memory
    slots, and the machine that runs them one instruction at a time. */
module Target {
  import opened IntTypes
  import opened Syntax
  import opened Source

  /** A basic block.  `label_map` holds at most one block per label name and is never
      cleared, so a label's block is identified by its name. */
  datatype BB = Anon(id: nat) | Named(name: string)

  datatype Value = Const(n: nat) | Reg(r: nat)

  datatype Instr =
    | Load(d: nat, slot: nat)
    | LoadAt(d: nat, base: nat, idx: Value)
    | Store(v: Value, slot: nat)
    | ArithI(d: nat, op: ArithOp, m: nat, a: Value, b: Value)
    | NegI(d: nat, m: nat, a: Value)
    | NotI(d: nat, m: nat, a: Value)
    | CmpI(d: nat, pred: Pred, m: nat, a: Value, b: Value)
    | CastI(d: nat, cast: CastOp, mFrom: nat, mTo: nat, a: Value)
    | CallI(d: nat, fn: string, m: nat, args: seq<Value>)
    | Phi(d: nat, b1: BB, v1: Value, b2: BB, v2: Value)
    | Br(target: BB)
    | CondBr(cond: Value, yes: BB, no: BB)
    | RetI(v: Value)
    | RetVoid

  type Code = map<BB, seq<Instr>>

  datatype Machine =
    | Run(bb: BB, pc: nat, prev: BB, regs: map<nat, nat>, mem: map<nat, nat>, trace: seq<Event>)
    | Halt(res: Option<nat>, mem: map<nat, nat>, trace: seq<Event>)
    | Stuck

  predicate Known(v: Value, regs: map<nat, nat>) {
    v.Reg? ==> v.r in regs
  }

  function ValueOf(v: Value, regs: map<nat, nat>): nat
    requires Known(v, regs)
  {
    match v case Const(n) => n case Reg(r) => regs[r]
  }

  function ValuesOf(vs: seq<Value>, regs: map<nat, nat>): (r: seq<nat>)
    requires forall i | 0 <= i < |vs| :: Known(vs[i], regs)
  {
    if vs == [] then [] else [ValueOf(vs[0], regs)] + ValuesOf(vs[1..], regs)
  }

  function SetReg(ms: Machine, d: nat, n: nat): Machine
    requires ms.Run?
  {
    ms.(pc := ms.pc + 1, regs := ms.regs[d := n])
  }

  function Enter(ms: Machine, target: BB): Machine
    requires ms.Run?
  {
    ms.(bb := target, pc := 0, prev := ms.bb)
  }

  /** What one instruction does; an operand without a value or an illegal operand is Stuck. */
  function Exec(w: World, i: Instr, ms: Machine): Machine
    requires ms.Run?
  {
    var regs := ms.regs;
    match i
    case Load(d, slot) => if slot in ms.mem then SetReg(ms, d, ms.mem[slot]) else Stuck
    case LoadAt(d, base, idx) =>
      if Known(idx, regs) && base + ValueOf(idx, regs) in ms.mem then SetReg(ms, d, ms.mem[base + ValueOf(idx, regs)])
      else Stuck
    case Store(v, slot) =>
      if Known(v, regs) then ms.(pc := ms.pc + 1, mem := ms.mem[slot := ValueOf(v, regs)]) else Stuck
    case ArithI(d, op, m, a, b) =>
      if Known(a, regs) && Known(b, regs) && m > 0
          then SetReg(ms, d, ArithBits(op, m, ValueOf(a, regs), ValueOf(b, regs)))
      else Stuck
    case NegI(d, m, a) =>
      if Known(a, regs) && m > 0 then SetReg(ms, d, NegBits(m, ValueOf(a, regs))) else Stuck
    case NotI(d, m, a) =>
      if Known(a, regs) && ValueOf(a, regs) < m then SetReg(ms, d, NotBits(m, ValueOf(a, regs))) else Stuck
    case CmpI(d, pred, m, a, b) =>
      if Known(a, regs) && Known(b, regs) then
        SetReg(ms, d, if HoldsBits(pred, m, ValueOf(a, regs), ValueOf(b, regs)) then 1 else 0)
      else Stuck
    case CastI(d, cast, mFrom, mTo, a) =>
      if Known(a, regs) && ValueOf(a, regs) < mFrom && mTo > 0 && LegalCast(cast, mFrom, mTo) then
        SetReg(ms, d, CastBits(cast, mFrom, mTo, ValueOf(a, regs)))
      else Stuck
    case CallI(d, fn, m, args) =>
      if m > 0 && forall i | 0 <= i < |args| :: Known(args[i], regs) then
        var bits := ValuesOf(args, regs);
        ms.(pc := ms.pc + 1, regs := regs[d := w.ext(fn, bits, ms.trace) % m], trace := ms.trace + [Event(fn, bits)])
      else Stuck
    case Phi(d, b1, v1, b2, v2) =>
      if ms.prev == b1 && Known(v1, regs) then SetReg(ms, d, ValueOf(v1, regs))
      else if ms.prev == b2 && ms.prev != b1 && Known(v2, regs) then SetReg(ms, d, ValueOf(v2, regs))
      else Stuck
    case Br(t) => Enter(ms, t)
    case CondBr(c, yes, no) =>
      if Known(c, regs) && ValueOf(c, regs) < 2 then Enter(ms, if ValueOf(c, regs) == 1 then yes else no) else Stuck
    case RetI(v) => if Known(v, regs) then Halt(Some(ValueOf(v, regs)), ms.mem, ms.trace) else Stuck
    case RetVoid => Halt(None, ms.mem, ms.trace)
  }

  function Step(w: World, code: Code, ms: Machine): Machine {
    if !ms.Run? then ms
    else if ms.bb in code && ms.pc < |code[ms.bb]| then Exec(w, code[ms.bb][ms.pc], ms)
    else Stuck
  }

  function Steps(w: World, code: Code, ms: Machine, n: nat): Machine
    decreases n
  {
    if n == 0 then ms else Steps(w, code, Step(w, code, ms), n - 1)
  }

  lemma {:induction false} StepsAdd(w: World, code: Code, ms: Machine, n: nat, k: nat)
    ensures Steps(w, code, ms, n + k) == Steps(w, code, Steps(w, code, ms, n), k)
    decreases n
  {
    if n > 0 {
      StepsAdd(w, code, Step(w, code, ms), n - 1, k);
    }
  }

  /** A machine that has stopped stays stopped. */
  lemma {:induction false} StepsStopped(w: World, code: Code, ms: Machine, n: nat)
    requires !ms.Run?
    ensures Steps(w, code, ms, n) == ms
    decreases n
  {
    if n > 0 {
      StepsStopped(w, code, ms, n - 1);
    }
  }
}
