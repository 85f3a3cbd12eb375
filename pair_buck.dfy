/** The parameter tables of the Buckingham pair style, OpenMP variant
    (`pair_style buck`). The per-type-pair tables are (ntypes+1) x (ntypes+1)
    arrays indexed by atom type 1..ntypes; pair_coeff fills the upper
    triangle and init_one derives the force coefficients of one pair and
    mirrors them to the lower triangle. */
module PairBuckOmp {
  import opened PairCommon

  const IllegalStyle := "Illegal pair_style command"
  const IncorrectCoeffs := "Incorrect args for pair coefficients"
  const CoeffsNotSet := "All pair coeffs are not set"

  /** The entries of the tables cut, a, rho, c, rhoinv, buck1, buck2 and
      offset for one type pair. */
  datatype BuckCoeff = BuckCoeff(
    a: real, rho: real, c: real, cut: real,
    rhoinv: real, buck1: real, buck2: real, offset: real)

  /** The cutoff a pair_coeff command assigns: its sixth argument when
      there is one, the global cutoff otherwise. */
  function CoeffCutoff(args: seq<real>, cutGlobal: real): real {
    if |args| == 6 then args[5] else cutGlobal
  }

  /** The entry of a pair that a pair_coeff command selects: its four
      explicit values replaced, the derived ones kept. */
  function Assigned(e: BuckCoeff, aOne: real, rhoOne: real, cOne: real, cutOne: real): BuckCoeff {
    e.(a := aOne, rho := rhoOne, c := cOne, cut := cutOne)
  }

  /** The values init_one copies from (i, j) to (j, i): every table but rho
      and cut. */
  predicate MirrorOf(lower: BuckCoeff, upper: BuckCoeff) {
    lower.a == upper.a && lower.c == upper.c && lower.rhoinv == upper.rhoinv &&
    lower.buck1 == upper.buck1 && lower.buck2 == upper.buck2 && lower.offset == upper.offset
  }

  /** The settings loop has reset the cutoff of the set off-diagonal pairs
      from row lo up to (i, j) to v; every other entry is as on entry. */
  twostate predicate CutResetBefore(t: array2<BuckCoeff>, flags: array2<bool>, n: int, v: real,
                                    lo: int, i: int, j: int)
    reads t, flags
  {
    forall p, q :: 0 <= p < t.Length0 && 0 <= q < t.Length1 ==>
      t[p, q] == if SetOffDiagonal(flags, n, p, q) && lo <= p && Before(p, q, i, j)
                 then old(t[p, q]).(cut := v) else old(t[p, q])
  }

  /** The coefficient loops have written the pairs of r before (i, j). */
  twostate predicate AssignedBefore(t: array2<BuckCoeff>, r: TypeRange,
                                    aOne: real, rhoOne: real, cOne: real, cutOne: real, i: int, j: int)
    reads t
  {
    forall p, q :: 0 <= p < t.Length0 && 0 <= q < t.Length1 ==>
      t[p, q] == if r.Contains(p, q) && Before(p, q, i, j)
                 then Assigned(old(t[p, q]), aOne, rhoOne, cOne, cutOne)
                 else old(t[p, q])
  }

  class PairBuck {
    const ntypes: nat
    var isAllocated: bool
    var cutGlobal: real
    var setflag: array2<bool>
    var coeff: array2<BuckCoeff>

    /** Both tables span the types 0..ntypes in both indices. */
    ghost predicate Shaped()
      reads this
    {
      setflag.Length0 == ntypes + 1 && setflag.Length1 == ntypes + 1 &&
      coeff.Length0 == ntypes + 1 && coeff.Length1 == ntypes + 1
    }

    /** pair_coeff refuses a non-positive rho, so every pair of the upper
        triangle whose coefficients are set has rho > 0; init_one divides
        by it. */
    ghost predicate RhoPositive()
      reads this, setflag, coeff
      requires Shaped()
    {
      forall p, q :: 1 <= p <= q <= ntypes && setflag[p, q] ==> coeff[p, q].rho > 0.0
    }

    ghost predicate Valid()
      reads this, setflag, coeff
    {
      isAllocated ==> Shaped() && RhoPositive()
    }

    /** A new style instance: its tables are not allocated yet. */
    constructor (ntypes: nat)
      ensures Valid() && this.ntypes == ntypes && !isAllocated
    {
      this.ntypes := ntypes;
      isAllocated := false;
      setflag := new bool[0, 0];
      coeff := new BuckCoeff[0, 0];
    }

    /** Creates the tables and clears setflag on the upper triangle; the
        other entries are left as the allocator returns them. */
    method Allocate()
      modifies this
      ensures Valid() && isAllocated && Shaped()
      ensures fresh(setflag) && fresh(coeff)
      ensures forall p, q :: 1 <= p <= q <= ntypes ==> !setflag[p, q]
      ensures cutGlobal == old(cutGlobal)
    {
      isAllocated := true;
      var n := ntypes;
      var flags := new bool[n + 1, n + 1];
      var i := 1;
      while i <= n
        modifies flags
        invariant 1 <= i <= n + 1
        invariant forall p, q :: 1 <= p < i && p <= q <= n ==> !flags[p, q]
      {
        var j := i;
        while j <= n
          modifies flags
          invariant i <= j <= n + 1
          invariant forall p, q :: 1 <= p < i && p <= q <= n ==> !flags[p, q]
          invariant forall q :: i <= q < j ==> !flags[i, q]
        {
          flags[i, j] := false;
          j := j + 1;
        }
        i := i + 1;
      }
      setflag := flags;
      coeff := new BuckCoeff[n + 1, n + 1];
    }

    /** pair_style buck cutoff: exactly one argument, the global cutoff.
        Once the tables exist, the cutoff of every off-diagonal pair whose
        coefficients were set explicitly is reset to it; the diagonal and
        unset pairs keep theirs. */
    method Settings(args: seq<real>) returns (st: Status)
      requires Valid()
      modifies this, coeff
      ensures Valid() && isAllocated == old(isAllocated)
      ensures setflag == old(setflag) && coeff == old(coeff) && unchanged(setflag)
      ensures st == if |args| == 1 then Ok else Error(IllegalStyle)
      ensures st.Error? ==> cutGlobal == old(cutGlobal) && unchanged(coeff)
      ensures st.Ok? ==> cutGlobal == args[0]
      ensures st.Ok? && isAllocated ==>
                forall p, q :: 0 <= p < coeff.Length0 && 0 <= q < coeff.Length1 ==>
                  coeff[p, q] == if SetOffDiagonal(setflag, ntypes, p, q)
                                 then old(coeff[p, q]).(cut := args[0]) else old(coeff[p, q])
      ensures st.Ok? && !isAllocated ==> unchanged(coeff)
    {
      if |args| != 1 {
        return Error(IllegalStyle);
      }
      cutGlobal := args[0];
      if isAllocated {
        var i := 1;
        while i <= ntypes
          modifies coeff
          invariant 1 <= i <= ntypes + 1
          invariant Valid()
          invariant CutResetBefore(coeff, setflag, ntypes, cutGlobal, 1, i, 0)
        {
          ResetRow(i, cutGlobal);
          i := i + 1;
        }
      }
      return Ok;
    }

    /** One row of the reset loop of settings: the cutoff of every set pair
        (i, j) with j > i becomes v. */
    method ResetRow(i: int, v: real)
      requires Valid() && isAllocated && 1 <= i <= ntypes
      modifies coeff
      ensures Valid()
      ensures CutResetBefore(coeff, setflag, ntypes, v, i, i + 1, 0)
    {
      var j := i + 1;
      while j <= ntypes
        invariant i + 1 <= j <= ntypes + 1
        invariant Valid()
        invariant CutResetBefore(coeff, setflag, ntypes, v, i, i, j)
      {
        if setflag[i, j] {
          coeff[i, j] := coeff[i, j].(cut := v);
        }
        j := j + 1;
      }
    }

    /** One row of the loop nest of pair_coeff: writes a, rho, c and cut
        and raises setflag on the selected pairs (i, j), j in
        MAX(jlo,i)..jhi, and counts them. */
    method FillRow(r: TypeRange, i: int, aOne: real, rhoOne: real, cOne: real, cutOne: real)
      returns (count: nat)
      requires Valid() && isAllocated && r.Within(ntypes) && r.ilo <= i <= r.ihi && rhoOne > 0.0
      modifies setflag, coeff
      ensures Valid()
      ensures Filled(setflag, true, TypeRange(i, i, r.jlo, r.jhi))
      ensures forall p, q :: 0 <= p < coeff.Length0 && 0 <= q < coeff.Length1 ==>
                coeff[p, q] == if TypeRange(i, i, r.jlo, r.jhi).Contains(p, q)
                               then Assigned(old(coeff[p, q]), aOne, rhoOne, cOne, cutOne)
                               else old(coeff[p, q])
      ensures count == RowCount(i, r.jlo, r.jhi)
    {
      ghost var row := TypeRange(i, i, r.jlo, r.jhi);
      count := 0;
      var j := Max(r.jlo, i);
      while j <= r.jhi
        invariant Max(r.jlo, i) <= j <= Max(Max(r.jlo, i), r.jhi + 1)
        invariant Valid()
        invariant FilledBefore(setflag, true, row, i, j)
        invariant AssignedBefore(coeff, row, aOne, rhoOne, cOne, cutOne, i, j)
        invariant count == j - Max(r.jlo, i)
      {
        coeff[i, j] := Assigned(coeff[i, j], aOne, rhoOne, cOne, cutOne);
        setflag[i, j] := true;
        count := count + 1;
        j := j + 1;
      }
    }

    /** The loop nest of pair_coeff: writes a, rho, c and cut and raises
        setflag on every selected pair, and counts them. */
    method FillRange(r: TypeRange, aOne: real, rhoOne: real, cOne: real, cutOne: real)
      returns (count: nat)
      requires Valid() && isAllocated && r.Within(ntypes) && rhoOne > 0.0
      modifies setflag, coeff
      ensures Valid()
      ensures Filled(setflag, true, r)
      ensures forall p, q :: 0 <= p < coeff.Length0 && 0 <= q < coeff.Length1 ==>
                coeff[p, q] == if r.Contains(p, q)
                               then Assigned(old(coeff[p, q]), aOne, rhoOne, cOne, cutOne)
                               else old(coeff[p, q])
      ensures count == r.Count()
    {
      count := 0;
      var i := r.ilo;
      while i <= r.ihi
        invariant r.ilo <= i <= Max(r.ilo, r.ihi + 1)
        invariant Valid()
        invariant FilledBefore(setflag, true, r, i, 0)
        invariant AssignedBefore(coeff, r, aOne, rhoOne, cOne, cutOne, i, 0)
        invariant count == PairsBelow(r.ilo, i, r.jlo, r.jhi)
      {
        var rowCount := FillRow(r, i, aOne, rhoOne, cOne, cutOne);
        count := count + rowCount;
        i := i + 1;
      }
    }

    /** pair_coeff I J A rho C [cutoff]: five or six arguments and a
        positive rho; allocates the tables on first use, writes the selected
        pairs of the upper triangle, and fails when the range selects none.
        args[0] and args[1] stand for the type strings, which force->bounds
        has already turned into r. */
    method Coeff(args: seq<real>, r: TypeRange) returns (st: Status)
      requires Valid() && r.Within(ntypes)
      modifies this, setflag, coeff
      ensures Valid()
      ensures st.Ok? <==> 5 <= |args| <= 6 && args[3] > 0.0 && exists p, q :: r.Contains(p, q)
      ensures st.Error? ==> st.message == IncorrectCoeffs
      ensures cutGlobal == old(cutGlobal)
      ensures !(5 <= |args| <= 6) ==> unchanged(this) && unchanged(setflag, coeff)
      ensures 5 <= |args| <= 6 ==> isAllocated
      ensures old(isAllocated) ==> setflag == old(setflag) && coeff == old(coeff)
      ensures !old(isAllocated) && 5 <= |args| <= 6 ==> fresh(setflag) && fresh(coeff)
      ensures old(isAllocated) && !(5 <= |args| <= 6 && args[3] > 0.0) ==> unchanged(setflag, coeff)
      ensures old(isAllocated) && 5 <= |args| <= 6 && args[3] > 0.0 ==>
                Filled(setflag, true, r) &&
                forall p, q :: 0 <= p < coeff.Length0 && 0 <= q < coeff.Length1 ==>
                  coeff[p, q] == if r.Contains(p, q)
                                 then Assigned(old(coeff[p, q]), args[2], args[3], args[4],
                                               CoeffCutoff(args, cutGlobal))
                                 else old(coeff[p, q])
      ensures !old(isAllocated) && 5 <= |args| <= 6 ==>
                forall p, q :: 1 <= p <= q <= ntypes ==>
                  setflag[p, q] == (args[3] > 0.0 && r.Contains(p, q))
      ensures 5 <= |args| <= 6 && args[3] > 0.0 ==>
                forall p, q :: r.Contains(p, q) ==>
                  0 <= p < coeff.Length0 && 0 <= q < coeff.Length1 &&
                  coeff[p, q].a == args[2] && coeff[p, q].rho == args[3] &&
                  coeff[p, q].c == args[4] && coeff[p, q].cut == CoeffCutoff(args, cutGlobal)
    {
      if |args| < 5 || |args| > 6 {
        return Error(IncorrectCoeffs);
      }
      if !isAllocated {
        Allocate();
      }
      var aOne := args[2];
      var rhoOne := args[3];
      if rhoOne <= 0.0 {
        return Error(IncorrectCoeffs);
      }
      var cOne := args[4];
      var cutOne := CoeffCutoff(args, cutGlobal);
      var count := FillRange(r, aOne, rhoOne, cOne, cutOne);
      CountZeroIffEmpty(r);
      if count == 0 {
        return Error(IncorrectCoeffs);
      }
      return Ok;
    }

    /** init_one for the pair i <= j: refuses a pair whose coefficients were
        never set (this style has no mixing rule), derives rhoinv, buck1,
        buck2 and the energy offset (zero unless offsetFlag, the base class's
        shift setting, is on), mirrors a, c and the derived entries to
        (j, i), and returns the pair's cutoff. rho and cut are not mirrored. */
    method InitOne(i: int, j: int, offsetFlag: bool, m: MathLib) returns (st: Status, cutOut: real)
      requires Valid() && isAllocated && 1 <= i <= j <= ntypes
      modifies coeff
      ensures Valid()
      ensures st == if old(setflag[i, j]) then Ok else Error(CoeffsNotSet)
      ensures st.Error? ==> unchanged(coeff)
      ensures st.Ok? ==> SameExceptPair(coeff, i, j)
      ensures st.Ok? ==>
                var e, o := coeff[i, j], old(coeff[i, j]);
                e.a == o.a && e.rho == o.rho && e.c == o.c && e.cut == o.cut &&
                cutOut == e.cut &&
                e.rho > 0.0 && e.rhoinv * e.rho == 1.0 && e.buck1 == e.a * e.rhoinv &&
                e.buck2 == 6.0 * e.c &&
                e.offset == (if offsetFlag then e.a * m.exp(-e.cut / e.rho) - m.div(e.c, m.pow(e.cut, 6.0))
                             else 0.0)
      ensures st.Ok? ==> MirrorOf(coeff[j, i], coeff[i, j])
      ensures st.Ok? && i != j ==>
                coeff[j, i].rho == old(coeff[j, i].rho) && coeff[j, i].cut == old(coeff[j, i].cut)
    {
      if !setflag[i, j] {
        st, cutOut := Error(CoeffsNotSet), 0.0;
        return;
      }
      var e := coeff[i, j];
      var offsetOne;
      if offsetFlag {
        var rexp := m.exp(-e.cut / e.rho);
        offsetOne := e.a * rexp - m.div(e.c, m.pow(e.cut, 6.0));
      } else {
        offsetOne := 0.0;
      }
      e := e.(rhoinv := 1.0 / e.rho, buck1 := e.a / e.rho, buck2 := 6.0 * e.c, offset := offsetOne);
      coeff[i, j] := e;
      coeff[j, i] := coeff[j, i].(a := e.a, c := e.c, rhoinv := e.rhoinv, buck1 := e.buck1,
                                  buck2 := e.buck2, offset := e.offset);
      st, cutOut := Ok, e.cut;
    }
  }
}
