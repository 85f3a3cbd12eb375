/** Bookkeeping shared by the OpenMP pair styles: the outcome of a command,
    the type-pair range a pair_coeff command selects, the number of pairs in
    it, and the frame predicates the table-writing loops keep. */
module PairCommon {

  /** The outcome of a command: `Error` stands for a call of `error->all`,
      which aborts the run with the given message. */
  datatype Status = Ok | Error(message: string)

  datatype Option<T> = None | Some(value: T)

  /** The `MAX` macro of the pair-style sources. */
  function Max(a: int, b: int): (r: int)
    ensures r >= a && r >= b && (r == a || r == b)
  {
    if a > b then a else b
  }

  /** `MAX` on cutoffs. */
  function MaxReal(a: real, b: real): (r: real)
    ensures r >= a && r >= b && (r == a || r == b)
  {
    if a > b then a else b
  }

  /** The `MIN` macro on cutoffs. */
  function MinReal(a: real, b: real): (r: real)
    ensures r <= a && r <= b && (r == a || r == b)
  {
    if a < b then a else b
  }

  /** The denominator of the CHARMM switching function between an inner
      and an outer squared cutoff: the cube of their gap. */
  function SwitchDenom(innerSq: real, outerSq: real): real {
    (outerSq - innerSq) * (outerSq - innerSq) * (outerSq - innerSq)
  }

  /** A non-negative inner cutoff below the outer one gives a positive
      switching denominator, so the switching terms divide by a nonzero
      value. */
  lemma SwitchDenomPositive(inner: real, outer: real)
    requires 0.0 <= inner < outer
    ensures SwitchDenom(inner * inner, outer * outer) > 0.0
  {
    var gap := outer * outer - inner * inner;
    assert gap == (outer - inner) * (outer + inner);
    assert outer - inner > 0.0 && outer + inner > 0.0;
    assert gap > 0.0;
    assert gap * gap > 0.0;
    assert gap * gap * gap > 0.0;
  }

  /** A neighbour list handed to the pair style by the neighbour class. */
  class NeighList { }

  /** Operations on doubles whose values the model does not compute: the C
      math library, division that may meet a zero divisor (IEEE gives an
      infinity there), and `Pair::mix_distance`, which is defined outside
      these files. The model only records where their results are stored. */
  datatype MathLib = MathLib(
    sqrt: real -> real,
    exp: real -> real,
    pow: (real, real) -> real,
    div: (real, real) -> real,
    mixDistance: (real, real) -> real)

  /** A request for a neighbour list, as handed to `neighbor->request`.
      `Plain` is a request left at the neighbour class's defaults; `Respa`
      one that the style has changed to the given id, with `half` cleared and
      the flag of the given rRESPA level raised. */
  datatype Level = Inner | Middle | Outer
  datatype Request = Plain | Respa(id: int, half: bool, level: Level)

  /** The type ranges `ilo..ihi` and `jlo..jhi` that `force->bounds` returns
      for the first two arguments of a pair_coeff command. */
  datatype TypeRange = TypeRange(ilo: int, ihi: int, jlo: int, jhi: int) {

    /** `force->bounds` keeps both ranges inside 1..ntypes (it may return an
        empty range, with lo > hi). */
    predicate Within(ntypes: int) {
      1 <= ilo && ihi <= ntypes && 1 <= jlo && jhi <= ntypes
    }

    /** The coefficient loops visit exactly the pairs i in ilo..ihi,
        j in MAX(jlo,i)..jhi: the selected pairs of the upper triangle. */
    predicate Contains(a: int, b: int) {
      ilo <= a <= ihi && Max(jlo, a) <= b <= jhi
    }

    /** The number of pairs the coefficient loops visit. */
    function Count(): nat {
      PairsBelow(ilo, if ihi < ilo then ilo else ihi + 1, jlo, jhi)
    }
  }

  /** The number of pairs the coefficient loops visit in row i. */
  function RowCount(i: int, jlo: int, jhi: int): (r: nat)
    ensures r > 0 <==> Max(jlo, i) <= jhi
  {
    if Max(jlo, i) <= jhi then jhi - Max(jlo, i) + 1 else 0
  }

  /** The number of pairs the coefficient loops visit in rows ilo..i-1. */
  function PairsBelow(ilo: int, i: int, jlo: int, jhi: int): nat
    decreases i - ilo
  {
    if i <= ilo then 0 else PairsBelow(ilo, i - 1, jlo, jhi) + RowCount(i - 1, jlo, jhi)
  }

  /** The count of rows ilo..ihi is zero exactly when no pair of those rows
      is visited. */
  lemma {:induction false} PairsBelowZero(ilo: int, ihi: int, jlo: int, jhi: int)
    ensures PairsBelow(ilo, ihi + 1, jlo, jhi) == 0 <==>
            forall a, b :: !TypeRange(ilo, ihi, jlo, jhi).Contains(a, b)
    decreases ihi - ilo
  {
    var r := TypeRange(ilo, ihi, jlo, jhi);
    if ihi >= ilo {
      var r' := TypeRange(ilo, ihi - 1, jlo, jhi);
      PairsBelowZero(ilo, ihi - 1, jlo, jhi);
      if RowCount(ihi, jlo, jhi) > 0 {
        assert r.Contains(ihi, Max(jlo, ihi));
      } else if PairsBelow(ilo, ihi, jlo, jhi) == 0 {
        forall a, b ensures !r.Contains(a, b) {
          assert !r'.Contains(a, b);
        }
      } else {
        var a, b :| r'.Contains(a, b);
        assert r.Contains(a, b);
      }
    }
  }

  /** A pair_coeff command counts zero writes exactly when its range selects
      no pair of the upper triangle; this is the source's error condition. */
  lemma {:induction false} CountZeroIffEmpty(r: TypeRange)
    ensures r.Count() == 0 <==> forall a, b :: !r.Contains(a, b)
  {
    if r.ihi < r.ilo {
      forall a, b ensures !r.Contains(a, b) { }
    } else {
      PairsBelowZero(r.ilo, r.ihi, r.jlo, r.jhi);
    }
  }

  /** Row-major progress of a loop nest that has finished every row before
      i and, in row i, every column before j. */
  predicate Before(a: int, b: int, i: int, j: int) {
    a < i || (a == i && b < j)
  }

  /** Table t holds v on the pairs of r the coefficient loops have visited
      before (i, j) and its value on entry everywhere else. */
  twostate predicate FilledBefore<T>(t: array2<T>, v: T, r: TypeRange, i: int, j: int)
    reads t
  {
    forall a, b :: 0 <= a < t.Length0 && 0 <= b < t.Length1 ==>
      t[a, b] == if r.Contains(a, b) && Before(a, b, i, j) then v else old(t[a, b])
  }

  /** Table t holds v on every pair r selects and its value on entry
      everywhere else. */
  twostate predicate Filled<T>(t: array2<T>, v: T, r: TypeRange)
    reads t
  {
    forall a, b :: 0 <= a < t.Length0 && 0 <= b < t.Length1 ==>
      t[a, b] == if r.Contains(a, b) then v else old(t[a, b])
  }

  /** The off-diagonal upper-triangle pairs a < b of 1..n whose flag is set. */
  predicate SetOffDiagonal(flags: array2<bool>, n: int, a: int, b: int)
    reads flags
  {
    1 <= a < b <= n && a < flags.Length0 && b < flags.Length1 && flags[a, b]
  }

  /** Table t differs from its value on entry at most in entries (i, j) and
      (j, i): the entries init_one writes. */
  twostate predicate SameExceptPair<T>(t: array2<T>, i: int, j: int)
    reads t
  {
    forall a, b :: 0 <= a < t.Length0 && 0 <= b < t.Length1 &&
                   (a != i || b != j) && (a != j || b != i) ==>
      t[a, b] == old(t[a, b])
  }
}
