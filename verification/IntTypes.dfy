/** The integer types of the language, their bit patterns, and the two tables that
    pick an instruction by type: the cast table and the comparison predicates.

    A source value is a mathematical integer in the range of its type; a target value
    is the bit pattern, a natural number below 2^width.  Target instructions know only
    the modulus 2^width, never the sign. */
module IntTypes {

  datatype Ty = I16 | I32 | I64 | U16 | U32 | U64 | BOOL | I8 | U8

  /** 2^width. */
  function Size(t: Ty): (m: nat)
    ensures m > 1 && m % 2 == 0
  {
    match t
    case I8 => 0x100
    case U8 => 0x100
    case I16 => 0x1_0000
    case U16 => 0x1_0000
    case I32 => 0x1_0000_0000
    case U32 => 0x1_0000_0000
    case I64 => 0x1_0000_0000_0000_0000
    case U64 => 0x1_0000_0000_0000_0000
    case BOOL => 2
  }

  predicate Signed(t: Ty) {
    t in {I8, I16, I32, I64}
  }

  predicate IsInteger(t: Ty) {
    t != BOOL
  }

  predicate InRange(t: Ty, v: int) {
    if Signed(t) then -(Size(t) / 2) <= v < Size(t) / 2 else 0 <= v < Size(t)
  }

  /** The bit pattern of a value. */
  function Encode(t: Ty, v: int): (n: nat)
    ensures n < Size(t)
  {
    v % Size(t)
  }

  /** Two's complement reading of a bit pattern. */
  function ToSigned(m: nat, n: nat): int {
    if n >= m / 2 then n - m else n
  }

  function Decode(t: Ty, n: nat): int {
    if Signed(t) then ToSigned(Size(t), n) else n
  }

  /** The value of the type that is congruent to v modulo 2^width. */
  function Wrap(t: Ty, v: int): (r: int)
    ensures InRange(t, r)
  {
    Decode(t, Encode(t, v))
  }

  /** The nine types, in numbers. */
  lemma Ranges(v: int)
    ensures (InRange(I8, v) <==> -0x80 <= v < 0x80) && (InRange(U8, v) <==> 0 <= v < 0x100)
    ensures (InRange(I16, v) <==> -0x8000 <= v < 0x8000) && (InRange(U16, v) <==> 0 <= v < 0x1_0000)
    ensures InRange(I32, v) <==> -0x8000_0000 <= v < 0x8000_0000
    ensures InRange(U32, v) <==> 0 <= v < 0x1_0000_0000
    ensures InRange(I64, v) <==> -0x8000_0000_0000_0000 <= v < 0x8000_0000_0000_0000
    ensures InRange(U64, v) <==> 0 <= v < 0x1_0000_0000_0000_0000
    ensures InRange(BOOL, v) <==> v == 0 || v == 1
    ensures Size(I8) == Size(U8) == 0x100 && Size(I16) == Size(U16) == 0x1_0000 && Size(BOOL) == 2
    ensures Size(I32) == Size(U32) == 0x1_0000_0000 && Size(I64) == Size(U64) == 0x1_0000_0000_0000_0000
  {
  }

  /** Wrapping gives the one value of the type that differs by a multiple of 2^width. */
  lemma WrapIs(t: Ty, v: int, r: int)
    ensures r == Wrap(t, v) <==> InRange(t, r) && exists k :: r == v + k * Size(t)
  {
    var m := Size(t);
    var q, n := v / m, v % m;
    assert v == m * q + n;
    if r == Wrap(t, v) {
      if r == n {
        assert r == v + (-q) * m;
      } else {
        assert r == n - m == v + (-q - 1) * m;
      }
    }
    if InRange(t, r) && exists k :: r == v + k * m {
      var k :| r == v + k * m;
      ModShift(v, m, k);
      WrapInRange(t, r);
      assert Encode(t, r) == Encode(t, v);
    }
  }

  lemma WrapInRange(t: Ty, v: int)
    requires InRange(t, v)
    ensures Wrap(t, v) == v
  {
    if v < 0 {
      ModShift(v, Size(t), 1);
    }
  }

  lemma ModShift(v: int, m: nat, k: int)
    requires m > 0
    ensures (v + m * k) % m == v % m
  {
    var q, r := v / m, v % m;
    assert v + m * k == m * (q + k) + r;
    ModUnique(v + m * k, m, q + k, r);
  }

  lemma ModUnique(v: int, m: nat, q: int, r: int)
    requires m > 0 && v == m * q + r && 0 <= r < m
    ensures v % m == r && v / m == q
  {
    var q', r' := v / m, v % m;
    assert m * (q - q') == r' - r;
    if q > q' {
      MulAtLeast(m, q - q');
    } else if q < q' {
      MulAtLeast(m, q' - q);
    }
  }

  lemma MulAtLeast(m: nat, k: int)
    requires k >= 1
    ensures m * k >= m
  {
    assert m * k == m + m * (k - 1);
  }

  /** Wrapping does not change the bit pattern. */
  lemma EncodeWrap(t: Ty, v: int)
    ensures Encode(t, Wrap(t, v)) == Encode(t, v)
  {
    var m := Size(t);
    var n := v % m;
    assert Wrap(t, v) == n || Wrap(t, v) == n - m;
    ModShift(n, m, -1);
  }

  // ----- arithmetic -----

  datatype ArithOp = Add | Sub | Mul

  function ArithInt(op: ArithOp, x: int, y: int): int {
    match op
    case Add => x + y
    case Sub => x - y
    case Mul => x * y
  }

  /** add, sub and mul on patterns: neither nuw nor nsw is set, so they wrap. */
  function ArithBits(op: ArithOp, m: nat, a: nat, b: nat): (r: nat)
    requires m > 0
    ensures r < m
  {
    ArithInt(op, a, b) % m
  }

  /** Reducing the operands first does not change a result modulo m. */
  lemma ArithMod(op: ArithOp, m: nat, x: int, y: int)
    requires m > 0
    ensures ArithInt(op, x % m, y % m) % m == ArithInt(op, x, y) % m
  {
    var p, a := Parts(m, x);
    var q, b := Parts(m, y);
    match op
    case Add => SumMod(m, x, p, a, y, q, b);
    case Sub => DiffMod(m, x, p, a, y, q, b);
    case Mul => ProductMod(m, x, p, a, y, q, b);
  }

  lemma Parts(m: nat, x: int) returns (p: int, a: nat)
    requires m > 0
    ensures x == m * p + a && a == x % m
  {
    p, a := x / m, x % m;
  }

  lemma SumMod(m: nat, x: int, p: int, a: int, y: int, q: int, b: int)
    requires m > 0 && x == m * p + a && y == m * q + b
    ensures (x + y) % m == (a + b) % m
  {
    assert m * p + m * q == m * (p + q);
    ModShift(a + b, m, p + q);
  }

  lemma DiffMod(m: nat, x: int, p: int, a: int, y: int, q: int, b: int)
    requires m > 0 && x == m * p + a && y == m * q + b
    ensures (x - y) % m == (a - b) % m
  {
    assert m * p - m * q == m * (p - q);
    ModShift(a - b, m, p - q);
  }

  lemma ProductMod(m: nat, x: int, p: int, a: int, y: int, q: int, b: int)
    requires m > 0 && x == m * p + a && y == m * q + b
    ensures (x * y) % m == (a * b) % m
  {
    var k := MulParts(m, p, a, q, b);
    Congruent(m, x * y, a * b, k);
  }

  lemma Congruent(m: nat, u: int, v: int, k: int)
    requires m > 0 && u == v + m * k
    ensures u % m == v % m
  {
    ModShift(v, m, k);
  }

  lemma MulParts(m: int, p: int, a: int, q: int, b: int) returns (k: int)
    ensures (m * p + a) * (m * q + b) == a * b + m * k
  {
    var y := m * q + b;
    k := p * y + a * q;
    assert (m * p + a) * y == m * (p * y) + a * y;
    assert a * y == m * (a * q) + a * b;
  }

  lemma ArithAgrees(t: Ty, op: ArithOp, x: int, y: int)
    ensures ArithBits(op, Size(t), Encode(t, x), Encode(t, y)) == Encode(t, Wrap(t, ArithInt(op, x, y)))
  {
    EncodeWrap(t, ArithInt(op, x, y));
    ArithMod(op, Size(t), x, y);
  }

  /** Wrapping arithmetic on patterns is arithmetic on values, wrapped to the type: sum,
      difference (left minus right) and product. */
  lemma ArithExact(t: Ty, x: int, y: int)
    ensures ArithBits(Add, Size(t), Encode(t, x), Encode(t, y)) == Encode(t, Wrap(t, x + y))
    ensures ArithBits(Sub, Size(t), Encode(t, x), Encode(t, y)) == Encode(t, Wrap(t, x - y))
    ensures ArithBits(Mul, Size(t), Encode(t, x), Encode(t, y)) == Encode(t, Wrap(t, x * y))
  {
    hide Size, Encode, Wrap, ArithBits;
    ArithAgrees(t, Add, x, y);
    ArithAgrees(t, Sub, x, y);
    ArithAgrees(t, Mul, x, y);
  }

  /** neg, and not (xor with all ones): the source value of `!v` is -1 - v, which on
      BOOL is logical negation. */
  function NegBits(m: nat, a: nat): (r: nat)
    requires m > 0
    ensures r < m
  {
    (0 - a) % m
  }

  function NotBits(m: nat, a: nat): (r: nat)
    requires a < m
    ensures r < m
  {
    m - 1 - a
  }

  lemma UnaryMod(m: nat, x: int)
    requires m > 0
    ensures (0 - x % m) % m == (-x) % m
    ensures m - 1 - x % m == (-1 - x) % m
  {
    var a, p := x % m, x / m;
    assert -x == (0 - a) + m * (-p);
    ModShift(0 - a, m, -p);
    assert -1 - x == (m - 1 - a) + m * (-p - 1);
    ModShift(m - 1 - a, m, -p - 1);
    ModUnique(m - 1 - a, m, 0, m - 1 - a);
  }

  lemma UnaryExact(t: Ty, x: int)
    ensures NegBits(Size(t), Encode(t, x)) == Encode(t, Wrap(t, -x))
    ensures NotBits(Size(t), Encode(t, x)) == Encode(t, Wrap(t, -1 - x))
  {
    EncodeWrap(t, -x);
    EncodeWrap(t, -1 - x);
    UnaryMod(Size(t), x);
  }

  // ----- comparison -----

  datatype CmpOp = Lt | Gt | Ge | Le | Ne | Eq

  datatype Pred = SLT | SGT | SGE | SLE | ULT | UGT | UGE | ULE | NE | EQ

  predicate CmpInt(op: CmpOp, x: int, y: int) {
    match op
    case Lt => x < y
    case Gt => x > y
    case Ge => x >= y
    case Le => x <= y
    case Ne => x != y
    case Eq => x == y
  }

  /** One row of s_cmp_predicate per type, columns < > >= <= != ==. */
  function CmpRow(t: Ty): (row: seq<Pred>)
    ensures |row| == 6
  {
    match t
    case I16 => [SLT, SGT, SGE, SLE, NE, EQ]
    case I32 => [SLT, SGT, SGE, SLE, NE, EQ]
    case I64 => [SLT, SGT, SGE, SLE, NE, EQ]
    case U16 => [ULT, UGT, UGE, ULE, NE, EQ]
    case U32 => [ULT, UGT, UGE, ULE, NE, EQ]
    case U64 => [ULT, UGT, UGE, ULE, NE, EQ]
    case BOOL => [ULT, UGT, UGE, ULE, NE, EQ]
    case I8 => [SLT, SGT, SGE, SLE, NE, EQ]
    case U8 => [ULT, UGT, UGE, ULE, NE, EQ]
  }

  function CmpIndex(op: CmpOp): (i: nat)
    ensures i < 6
  {
    match op
    case Lt => 0 case Gt => 1 case Ge => 2 case Le => 3 case Ne => 4 case Eq => 5
  }

  function CmpPred(t: Ty, op: CmpOp): Pred {
    CmpRow(t)[CmpIndex(op)]
  }

  predicate HoldsBits(p: Pred, m: nat, a: nat, b: nat) {
    match p
    case SLT => ToSigned(m, a) < ToSigned(m, b)
    case SGT => ToSigned(m, a) > ToSigned(m, b)
    case SGE => ToSigned(m, a) >= ToSigned(m, b)
    case SLE => ToSigned(m, a) <= ToSigned(m, b)
    case ULT => a < b
    case UGT => a > b
    case UGE => a >= b
    case ULE => a <= b
    case NE => a != b
    case EQ => a == b
  }

  lemma CmpRowBySign(t: Ty)
    ensures CmpRow(t) == if Signed(t) then [SLT, SGT, SGE, SLE, NE, EQ] else [ULT, UGT, UGE, ULE, NE, EQ]
  {
  }

  lemma DecodeEncode(t: Ty, v: int)
    requires InRange(t, v)
    ensures if Signed(t) then ToSigned(Size(t), Encode(t, v)) == v else Encode(t, v) == v
  {
    WrapInRange(t, v);
  }

  lemma CmpAgrees(t: Ty, op: CmpOp, x: int, y: int)
    requires InRange(t, x) && InRange(t, y)
    ensures HoldsBits(CmpPred(t, op), Size(t), Encode(t, x), Encode(t, y)) <==> CmpInt(op, x, y)
  {
    hide Size, Encode, InRange, CmpRow;
    CmpRowBySign(t);
    DecodeEncode(t, x);
    DecodeEncode(t, y);
  }

  /** The predicate table is right for every type: comparing bit patterns with the chosen
      predicate is comparing the values. */
  lemma CmpExact(t: Ty, x: int, y: int)
    requires InRange(t, x) && InRange(t, y)
    ensures HoldsBits(CmpPred(t, Lt), Size(t), Encode(t, x), Encode(t, y)) <==> x < y
    ensures HoldsBits(CmpPred(t, Gt), Size(t), Encode(t, x), Encode(t, y)) <==> x > y
    ensures HoldsBits(CmpPred(t, Ge), Size(t), Encode(t, x), Encode(t, y)) <==> x >= y
    ensures HoldsBits(CmpPred(t, Le), Size(t), Encode(t, x), Encode(t, y)) <==> x <= y
    ensures HoldsBits(CmpPred(t, Ne), Size(t), Encode(t, x), Encode(t, y)) <==> x != y
    ensures HoldsBits(CmpPred(t, Eq), Size(t), Encode(t, x), Encode(t, y)) <==> x == y
  {
    hide Size, Encode, InRange, CmpPred, HoldsBits;
    CmpAgrees(t, Lt, x, y);
    CmpAgrees(t, Gt, x, y);
    CmpAgrees(t, Ge, x, y);
    CmpAgrees(t, Le, x, y);
    CmpAgrees(t, Ne, x, y);
    CmpAgrees(t, Eq, x, y);
  }

  // ----- casts -----

  datatype CastOp = NoOp | Bad | Trunc | ZExt | SExt | BitCast

  function CastIndex(t: Ty): (i: nat)
    ensures i < 9
  {
    match t
    case I16 => 0 case I32 => 1 case I64 => 2 case U16 => 3 case U32 => 4
    case U64 => 5 case BOOL => 6 case I8 => 7 case U8 => 8
  }

  /** One row of llvmtype_cast_table, restricted to the integer and bool columns
      I16 I32 I64 U16 U32 U64 BOOL I8 U8. */
  function CastRow(from: Ty): (row: seq<CastOp>)
    ensures |row| == 9
  {
    match from
    case I16 => [NoOp, SExt, SExt, BitCast, SExt, SExt, Bad, Trunc, Trunc]
    case I32 => [Trunc, NoOp, SExt, Trunc, BitCast, SExt, Bad, Trunc, Trunc]
    case I64 => [Trunc, Trunc, NoOp, Trunc, Trunc, BitCast, Bad, Trunc, Trunc]
    case U16 => [BitCast, ZExt, ZExt, NoOp, ZExt, ZExt, Bad, Trunc, Trunc]
    case U32 => [Trunc, BitCast, ZExt, Trunc, NoOp, ZExt, Bad, Trunc, Trunc]
    case U64 => [Trunc, Trunc, BitCast, Trunc, Trunc, NoOp, Bad, Trunc, Trunc]
    case BOOL => [ZExt, ZExt, ZExt, ZExt, ZExt, ZExt, NoOp, ZExt, ZExt]
    case I8 => [SExt, SExt, SExt, SExt, SExt, SExt, Bad, NoOp, BitCast]
    case U8 => [ZExt, ZExt, ZExt, ZExt, ZExt, ZExt, Bad, BitCast, NoOp]
  }

  function GenCastOp(from: Ty, to: Ty): CastOp {
    CastRow(from)[CastIndex(to)]
  }

  /** What the target requires of the two widths. */
  predicate LegalCast(op: CastOp, mFrom: nat, mTo: nat) {
    match op
    case NoOp => mFrom == mTo
    case Bad => false
    case Trunc => mTo < mFrom
    case ZExt => mFrom < mTo
    case SExt => mFrom < mTo
    case BitCast => mFrom == mTo
  }

  function CastBits(op: CastOp, mFrom: nat, mTo: nat, a: nat): nat
    requires a < mFrom && mTo > 0
  {
    match op
    case Trunc => a % mTo
    case SExt => if a >= mFrom / 2 && mTo >= mFrom then a + mTo - mFrom else a
    case _ => a
  }

  /** The table has an entry for a pair exactly when the target is not BOOL (or nothing
      changes), and that entry is legal for the two widths. */
  lemma CastLegal(from: Ty, to: Ty)
    ensures GenCastOp(from, to) == Bad <==> to == BOOL && from != BOOL
    ensures GenCastOp(from, to) != Bad ==> LegalCast(GenCastOp(from, to), Size(from), Size(to))
  {
    match from
    case I8 => case I16 => case I32 => case I64 =>
    case U8 => case U16 => case U32 => case U64 =>
    case BOOL =>
  }

  /** Casting by the table is exact modular conversion: the pattern produced is the
      pattern of v wrapped to the target type. */
  lemma CastExact(from: Ty, to: Ty, v: int)
    requires InRange(from, v) && GenCastOp(from, to) != Bad
    ensures CastBits(GenCastOp(from, to), Size(from), Size(to), Encode(from, v)) == Encode(to, Wrap(to, v))
  {
    EncodeWrap(to, v);
    CastLegal(from, to);
    WrapInRange(from, v);
    var mf, mt, a := Size(from), Size(to), Encode(from, v);
    match GenCastOp(from, to)
    case Trunc =>
      var c := SizeDivides(from, to);
      ModMod(v, mf, mt, c);
    case SExt =>
      SExtSigned(from, to);
      if v < 0 {
        ModShift(v, mf, 1);
        ModShift(v, mt, 1);
      }
    case ZExt =>
      ZExtUnsigned(from, to);
    case BitCast =>
    case NoOp =>
  }

  lemma SizeDivides(big: Ty, small: Ty) returns (c: nat)
    requires Size(small) <= Size(big)
    ensures Size(big) == Size(small) * c
  {
    c := Size(big) / Size(small);
  }

  lemma ModMod(v: int, big: nat, small: nat, c: nat)
    requires small > 0 && big > 0 && big == small * c
    ensures (v % big) % small == v % small
  {
    var a, q := v % big, v / big;
    MulAssoc(small, c, q);
    assert v == a + small * (c * q);
    ModShift(a, small, c * q);
  }

  lemma MulAssoc(x: int, y: int, z: int)
    ensures x * y * z == x * (y * z)
  {
  }

  lemma SExtSigned(from: Ty, to: Ty)
    requires GenCastOp(from, to) == SExt
    ensures Signed(from)
  {
  }

  lemma ZExtUnsigned(from: Ty, to: Ty)
    requires GenCastOp(from, to) == ZExt
    ensures !Signed(from)
  {
  }

  /** Going through a type at least as wide loses nothing: (v as M) as T == v as T. */
  lemma CastThrough(mid: Ty, to: Ty, v: int)
    requires Size(mid) >= Size(to)
    ensures Wrap(to, Wrap(mid, v)) == Wrap(to, v)
  {
    var c := SizeDivides(mid, to);
    EncodeWrap(mid, v);
    ModMod(v, Size(mid), Size(to), c);
    ModMod(Wrap(mid, v), Size(mid), Size(to), c);
  }
}
