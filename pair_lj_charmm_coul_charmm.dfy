/** The parameter tables of the CHARMM Lennard-Jones plus switched Coulomb
    pair style, OpenMP variant (`pair_style lj/charmm/coul/charmm`).
    pair_coeff fills epsilon, sigma and the 1-4 values eps14, sigma14 on
    the upper triangle; init_one mixes an unset pair arithmetically from the
    diagonal entries, derives lj1..lj4 and lj14_1..lj14_4 and mirrors them
    to (j, i); init_style checks the inner and outer cutoffs of the
    switching region and squares them. The record of one pair's entries,
    the mixing rules and the name lookup of extract are shared with the
    lj/charmm/coul/long style, whose tables are the same. */
module PairLJCharmmCoulCharmmOmp {
  import opened PairCommon

  const IllegalStyle := "Illegal pair_style command"
  const IncorrectCoeffs := "Incorrect args for pair coefficients"
  const RequiresCharge := "Pair style lj/charmm/coul/charmm requires atom attribute q"
  const InnerNotBelowOuter := "Pair inner cutoff >= Pair outer cutoff"

  /** The entries of the tables epsilon, sigma, eps14, sigma14, lj1..lj4
      and lj14_1..lj14_4 for one type pair. */
  datatype CharmmCoeff = CharmmCoeff(
    epsilon: real, sigma: real, eps14: real, sigma14: real,
    lj1: real, lj2: real, lj3: real, lj4: real,
    lj14One: real, lj14Two: real, lj14Three: real, lj14Four: real)

  /** The 1-4 values a pair_coeff command with four or six arguments
      assigns: the fifth and sixth arguments when given, epsilon and sigma
      otherwise. */
  function Coeffs14(args: seq<real>): (real, real)
    requires |args| >= 4
  {
    if |args| == 6 then (args[4], args[5]) else (args[2], args[3])
  }

  /** The entry of a pair that a pair_coeff command selects. */
  function Assigned(e: CharmmCoeff, epsilonOne: real, sigmaOne: real, p14: (real, real)): CharmmCoeff {
    e.(epsilon := epsilonOne, sigma := sigmaOne, eps14 := p14.0, sigma14 := p14.1)
  }

  /** The mixing rule for an energy: the geometric mean. */
  function GeometricMean(m: MathLib, a: real, b: real): real {
    m.sqrt(a * b)
  }

  /** The mixing rule for a distance: the arithmetic mean. */
  function ArithmeticMean(a: real, b: real): (r: real)
    ensures a <= b ==> a <= r <= b
    ensures b <= a ==> b <= r <= a
  {
    0.5 * (a + b)
  }

  /** The entry init_one uses for a pair that pair_coeff never set: the
      geometric mean of the diagonal epsilons and the arithmetic mean of the
      diagonal sigmas, for the ordinary and the 1-4 values alike. */
  function ArithmeticMixed(m: MathLib, e: CharmmCoeff, di: CharmmCoeff, dj: CharmmCoeff): CharmmCoeff {
    e.(epsilon := GeometricMean(m, di.epsilon, dj.epsilon),
       sigma := ArithmeticMean(di.sigma, dj.sigma),
       eps14 := GeometricMean(m, di.eps14, dj.eps14),
       sigma14 := ArithmeticMean(di.sigma14, dj.sigma14))
  }

  /** The force coefficients init_one derives agree with the pair's
      epsilon and sigma and with its 1-4 values. */
  predicate Derived(e: CharmmCoeff, m: MathLib) {
    e.lj1 == 48.0 * e.epsilon * m.pow(e.sigma, 12.0) &&
    e.lj2 == 24.0 * e.epsilon * m.pow(e.sigma, 6.0) &&
    e.lj3 == 4.0 * e.epsilon * m.pow(e.sigma, 12.0) &&
    e.lj4 == 4.0 * e.epsilon * m.pow(e.sigma, 6.0) &&
    e.lj14One == 48.0 * e.eps14 * m.pow(e.sigma14, 12.0) &&
    e.lj14Two == 24.0 * e.eps14 * m.pow(e.sigma14, 6.0) &&
    e.lj14Three == 4.0 * e.eps14 * m.pow(e.sigma14, 12.0) &&
    e.lj14Four == 4.0 * e.eps14 * m.pow(e.sigma14, 6.0)
  }

  /** The entry e with init_one's force coefficients filled in. */
  function WithDerived(e: CharmmCoeff, m: MathLib): CharmmCoeff {
    e.(lj1 := 48.0 * e.epsilon * m.pow(e.sigma, 12.0),
       lj2 := 24.0 * e.epsilon * m.pow(e.sigma, 6.0),
       lj3 := 4.0 * e.epsilon * m.pow(e.sigma, 12.0),
       lj4 := 4.0 * e.epsilon * m.pow(e.sigma, 6.0),
       lj14One := 48.0 * e.eps14 * m.pow(e.sigma14, 12.0),
       lj14Two := 24.0 * e.eps14 * m.pow(e.sigma14, 6.0),
       lj14Three := 4.0 * e.eps14 * m.pow(e.sigma14, 12.0),
       lj14Four := 4.0 * e.eps14 * m.pow(e.sigma14, 6.0))
  }

  /** The values init_one copies from (i, j) to (j, i): the force
      coefficients, but not epsilon, sigma, eps14 or sigma14. */
  predicate MirrorOf(lower: CharmmCoeff, upper: CharmmCoeff) {
    lower.lj1 == upper.lj1 && lower.lj2 == upper.lj2 && lower.lj3 == upper.lj3 &&
    lower.lj4 == upper.lj4 && lower.lj14One == upper.lj14One && lower.lj14Two == upper.lj14Two &&
    lower.lj14Three == upper.lj14Three && lower.lj14Four == upper.lj14Four
  }

  /** The entry (i, j) after init_one and the mirrored entry (j, i). */
  function MirrorInto(lower: CharmmCoeff, upper: CharmmCoeff): CharmmCoeff {
    lower.(lj1 := upper.lj1, lj2 := upper.lj2, lj3 := upper.lj3, lj4 := upper.lj4,
           lj14One := upper.lj14One, lj14Two := upper.lj14Two,
           lj14Three := upper.lj14Three, lj14Four := upper.lj14Four)
  }

  /** What extract hands out: one of the 1-4 tables lj14_1..lj14_4, the
      `implicit` flag, or (lj/charmm/coul/long only) the Coulomb cutoff. */
  datatype ExtractTarget = Lj14Table(k: int) | ImplicitFlag | CutCoulValue

  /** The names extract answers in this style. */
  const ExtractNames: set<string> := {"lj14_1", "lj14_2", "lj14_3", "lj14_4", "implicit"}

  /** extract: the 1-4 tables and the implicit flag by name; every other
      name, cut_coul included, gives NULL. */
  function Extract(name: string): (r: Option<ExtractTarget>)
    ensures r.Some? <==> name in ExtractNames
    ensures r == Some(ImplicitFlag) <==> name == "implicit"
    ensures r.Some? && r.value.Lj14Table? ==> 1 <= r.value.k <= 4 && name == "lj14_" + [('0' as int + r.value.k) as char]
    ensures r != Some(CutCoulValue)
  {
    if name == "lj14_1" then Some(Lj14Table(1))
    else if name == "lj14_2" then Some(Lj14Table(2))
    else if name == "lj14_3" then Some(Lj14Table(3))
    else if name == "lj14_4" then Some(Lj14Table(4))
    else if name == "implicit" then Some(ImplicitFlag)
    else None
  }

  /** The coefficient loops have written the pairs of r before (i, j). */
  twostate predicate AssignedBefore(t: array2<CharmmCoeff>, r: TypeRange,
                                    epsilonOne: real, sigmaOne: real, p14: (real, real), i: int, j: int)
    reads t
  {
    forall p, q :: 0 <= p < t.Length0 && 0 <= q < t.Length1 ==>
      t[p, q] == if r.Contains(p, q) && Before(p, q, i, j)
                 then Assigned(old(t[p, q]), epsilonOne, sigmaOne, p14)
                 else old(t[p, q])
  }

  class PairLJCharmmCoulCharmm {
    const ntypes: nat
    var isAllocated: bool
    var cutLjInner: real
    var cutLj: real
    var cutCoulInner: real
    var cutCoul: real
    var cutLjInnerSq: real
    var cutLjSq: real
    var cutCoulInnerSq: real
    var cutCoulSq: real
    var cutBothSq: real
    var denomLj: real
    var denomCoul: real
    var implicit: int
    var setflag: array2<bool>
    var coeff: array2<CharmmCoeff>

    /** Both tables span the types 0..ntypes in both indices. */
    ghost predicate Valid()
      reads this
    {
      isAllocated ==>
        setflag.Length0 == ntypes + 1 && setflag.Length1 == ntypes + 1 &&
        coeff.Length0 == ntypes + 1 && coeff.Length1 == ntypes + 1
    }

    /** The values init_style derives from the cutoffs (their squares,
        cut_bothsq and the two switching denominators) and the implicit flag
        are as on entry. */
    twostate predicate InitStateKept()
      reads this
    {
      cutLjInnerSq == old(cutLjInnerSq) && cutLjSq == old(cutLjSq) &&
      cutCoulInnerSq == old(cutCoulInnerSq) && cutCoulSq == old(cutCoulSq) &&
      cutBothSq == old(cutBothSq) && denomLj == old(denomLj) && denomCoul == old(denomCoul) &&
      implicit == old(implicit)
    }

    /** A new style instance: its tables are not allocated yet and the
        implicit flag (distance-dependent dielectric) is off. */
    constructor (ntypes: nat)
      ensures Valid() && this.ntypes == ntypes && !isAllocated && implicit == 0
    {
      this.ntypes := ntypes;
      isAllocated := false;
      implicit := 0;
      setflag := new bool[0, 0];
      coeff := new CharmmCoeff[0, 0];
    }

    /** Creates the tables and clears setflag on the upper triangle; the
        other entries are left as the allocator returns them. */
    method Allocate()
      modifies this
      ensures Valid() && isAllocated
      ensures fresh(setflag) && fresh(coeff)
      ensures forall p, q :: 1 <= p <= q <= ntypes ==> !setflag[p, q]
      ensures cutLjInner == old(cutLjInner) && cutLj == old(cutLj) &&
              cutCoulInner == old(cutCoulInner) && cutCoul == old(cutCoul)
      ensures InitStateKept()
    {
      isAllocated := true;
      var n := ntypes;
      var flags := new bool[n + 1, n + 1];
      var i := 1;
      while i <= n
        modifies flags
        invariant 1 <= i <= n + 1
        invariant forall p, q :: 1 <= p < i && p <= q <= n ==> !flags[p, q]
      {
        var j := i;
        while j <= n
          modifies flags
          invariant i <= j <= n + 1
          invariant forall p, q :: 1 <= p < i && p <= q <= n ==> !flags[p, q]
          invariant forall q :: i <= q < j ==> !flags[i, q]
        {
          flags[i, j] := false;
          j := j + 1;
        }
        i := i + 1;
      }
      setflag := flags;
      coeff := new CharmmCoeff[n + 1, n + 1];
    }

    /** pair_style lj/charmm/coul/charmm inner outer [inner outer]: two or
        four arguments; with two, the Coulomb switching region copies the
        LJ one. No per-pair cutoff is reset. */
    method Settings(args: seq<real>) returns (st: Status)
      modifies this
      ensures st == if |args| == 2 || |args| == 4 then Ok else Error(IllegalStyle)
      ensures st.Error? ==> unchanged(this)
      ensures st.Ok? ==>
                cutLjInner == args[0] && cutLj == args[1] &&
                cutCoulInner == args[|args| - 2] && cutCoul == args[|args| - 1]
      ensures isAllocated == old(isAllocated) && setflag == old(setflag) && coeff == old(coeff)
      ensures InitStateKept()
    {
      if |args| != 2 && |args| != 4 {
        return Error(IllegalStyle);
      }
      cutLjInner := args[0];
      cutLj := args[1];
      if |args| == 2 {
        cutCoulInner := cutLjInner;
        cutCoul := cutLj;
      } else {
        cutCoulInner := args[2];
        cutCoul := args[3];
      }
      return Ok;
    }

    /** One row of the loop nest of pair_coeff. */
    method FillRow(r: TypeRange, i: int, epsilonOne: real, sigmaOne: real, p14: (real, real))
      returns (count: nat)
      requires Valid() && isAllocated && r.Within(ntypes) && r.ilo <= i <= r.ihi
      modifies setflag, coeff
      ensures Filled(setflag, true, TypeRange(i, i, r.jlo, r.jhi))
      ensures forall p, q :: 0 <= p < coeff.Length0 && 0 <= q < coeff.Length1 ==>
                coeff[p, q] == if TypeRange(i, i, r.jlo, r.jhi).Contains(p, q)
                               then Assigned(old(coeff[p, q]), epsilonOne, sigmaOne, p14)
                               else old(coeff[p, q])
      ensures count == RowCount(i, r.jlo, r.jhi)
    {
      ghost var row := TypeRange(i, i, r.jlo, r.jhi);
      count := 0;
      var j := Max(r.jlo, i);
      while j <= r.jhi
        invariant Max(r.jlo, i) <= j <= Max(Max(r.jlo, i), r.jhi + 1)
        invariant FilledBefore(setflag, true, row, i, j)
        invariant AssignedBefore(coeff, row, epsilonOne, sigmaOne, p14, i, j)
        invariant count == j - Max(r.jlo, i)
      {
        coeff[i, j] := Assigned(coeff[i, j], epsilonOne, sigmaOne, p14);
        setflag[i, j] := true;
        count := count + 1;
        j := j + 1;
      }
    }

    /** The loop nest of pair_coeff: writes epsilon, sigma, eps14 and
        sigma14 and raises setflag on every selected pair, and counts them. */
    method FillRange(r: TypeRange, epsilonOne: real, sigmaOne: real, p14: (real, real))
      returns (count: nat)
      requires Valid() && isAllocated && r.Within(ntypes)
      modifies setflag, coeff
      ensures Filled(setflag, true, r)
      ensures forall p, q :: 0 <= p < coeff.Length0 && 0 <= q < coeff.Length1 ==>
                coeff[p, q] == if r.Contains(p, q)
                               then Assigned(old(coeff[p, q]), epsilonOne, sigmaOne, p14)
                               else old(coeff[p, q])
      ensures count == r.Count()
    {
      count := 0;
      var i := r.ilo;
      while i <= r.ihi
        invariant r.ilo <= i <= Max(r.ilo, r.ihi + 1)
        invariant FilledBefore(setflag, true, r, i, 0)
        invariant AssignedBefore(coeff, r, epsilonOne, sigmaOne, p14, i, 0)
        invariant count == PairsBelow(r.ilo, i, r.jlo, r.jhi)
      {
        var rowCount := FillRow(r, i, epsilonOne, sigmaOne, p14);
        count := count + rowCount;
        i := i + 1;
      }
    }

    /** pair_coeff I J epsilon sigma [eps14 sigma14]: four or six
        arguments; allocates the tables on first use, writes the selected
        pairs of the upper triangle, and fails when the range selects none.
        args[0] and args[1] stand for the type strings, which force->bounds
        has already turned into r. */
    method Coeff(args: seq<real>, r: TypeRange) returns (st: Status)
      requires Valid() && r.Within(ntypes)
      modifies this, setflag, coeff
      ensures Valid()
      ensures st.Ok? <==> (|args| == 4 || |args| == 6) && exists p, q :: r.Contains(p, q)
      ensures st.Error? ==> st.message == IncorrectCoeffs
      ensures cutLjInner == old(cutLjInner) && cutLj == old(cutLj) &&
              cutCoulInner == old(cutCoulInner) && cutCoul == old(cutCoul)
      ensures InitStateKept()
      ensures !(|args| == 4 || |args| == 6) ==> unchanged(this) && unchanged(setflag, coeff)
      ensures |args| == 4 || |args| == 6 ==> isAllocated
      ensures old(isAllocated) ==> setflag == old(setflag) && coeff == old(coeff)
      ensures !old(isAllocated) && (|args| == 4 || |args| == 6) ==> fresh(setflag) && fresh(coeff)
      ensures old(isAllocated) && (|args| == 4 || |args| == 6) ==>
                Filled(setflag, true, r) &&
                forall p, q :: 0 <= p < coeff.Length0 && 0 <= q < coeff.Length1 ==>
                  coeff[p, q] == if r.Contains(p, q)
                                 then Assigned(old(coeff[p, q]), args[2], args[3], Coeffs14(args))
                                 else old(coeff[p, q])
      ensures !old(isAllocated) && (|args| == 4 || |args| == 6) ==>
                forall p, q :: 1 <= p <= q <= ntypes ==> setflag[p, q] == r.Contains(p, q)
      ensures |args| == 4 || |args| == 6 ==>
                forall p, q :: r.Contains(p, q) ==>
                  0 <= p < coeff.Length0 && 0 <= q < coeff.Length1 &&
                  coeff[p, q].epsilon == args[2] && coeff[p, q].sigma == args[3] &&
                  (coeff[p, q].eps14, coeff[p, q].sigma14) == Coeffs14(args)
    {
      if |args| != 4 && |args| != 6 {
        return Error(IncorrectCoeffs);
      }
      if !isAllocated {
        Allocate();
      }
      var epsilonOne := args[2];
      var sigmaOne := args[3];
      var p14 := Coeffs14(args);
      var count := FillRange(r, epsilonOne, sigmaOne, p14);
      CountZeroIffEmpty(r);
      if count == 0 {
        return Error(IncorrectCoeffs);
      }
      return Ok;
    }

    /** init_style: the atoms must carry charges; one default neighbour-list
        request; each inner cutoff must lie below its outer cutoff; then the
        squared cutoffs, cut_bothsq (the larger outer one) and the two
        switching denominators. */
    method InitStyle(qFlag: bool) returns (st: Status, requests: seq<Request>)
      modifies this
      ensures st == if !qFlag then Error(RequiresCharge)
                   else if old(cutLjInner) >= old(cutLj) || old(cutCoulInner) >= old(cutCoul)
                   then Error(InnerNotBelowOuter) else Ok
      ensures requests == if qFlag then [Plain] else []
      ensures st.Error? ==> unchanged(this)
      ensures isAllocated == old(isAllocated) && setflag == old(setflag) && coeff == old(coeff)
      ensures implicit == old(implicit)
      ensures cutLjInner == old(cutLjInner) && cutLj == old(cutLj) &&
              cutCoulInner == old(cutCoulInner) && cutCoul == old(cutCoul)
      ensures st.Ok? ==> SwitchingSet()
    {
      if !qFlag {
        return Error(RequiresCharge), [];
      }
      requests := [Plain];
      if cutLjInner >= cutLj || cutCoulInner >= cutCoul {
        return Error(InnerNotBelowOuter), requests;
      }
      SetSwitching();
      st := Ok;
    }

    /** The squared cutoffs and cut_bothsq, the larger of the outer squares,
        agree with the cutoffs, and denom_lj and denom_coul are the switching
        denominators of the two regions, each positive when its inner cutoff
        is non-negative. */
    predicate SwitchingSet()
      reads this
    {
      cutLjInnerSq == cutLjInner * cutLjInner && cutLjSq == cutLj * cutLj &&
      cutCoulInnerSq == cutCoulInner * cutCoulInner && cutCoulSq == cutCoul * cutCoul &&
      cutBothSq >= cutLjSq && cutBothSq >= cutCoulSq &&
      (cutBothSq == cutLjSq || cutBothSq == cutCoulSq) &&
      denomLj == SwitchDenom(cutLjInnerSq, cutLjSq) &&
      denomCoul == SwitchDenom(cutCoulInnerSq, cutCoulSq) &&
      (cutLjInner >= 0.0 ==> denomLj > 0.0) &&
      (cutCoulInner >= 0.0 ==> denomCoul > 0.0)
    }

    /** The part of init_style that squares the cutoffs and computes
        cut_bothsq and the two denominators, once each inner cutoff is below
        its outer one. */
    method SetSwitching()
      requires cutLjInner < cutLj && cutCoulInner < cutCoul
      modifies this`cutLjInnerSq, this`cutLjSq, this`cutCoulInnerSq, this`cutCoulSq,
               this`cutBothSq, this`denomLj, this`denomCoul
      ensures SwitchingSet()
    {
      if cutLjInner >= 0.0 {
        SwitchDenomPositive(cutLjInner, cutLj);
      }
      if cutCoulInner >= 0.0 {
        SwitchDenomPositive(cutCoulInner, cutCoul);
      }
      var ljInnerSq, ljSq := cutLjInner * cutLjInner, cutLj * cutLj;
      var coulInnerSq, coulSq := cutCoulInner * cutCoulInner, cutCoul * cutCoul;
      cutLjInnerSq, cutLjSq, cutCoulInnerSq, cutCoulSq := ljInnerSq, ljSq, coulInnerSq, coulSq;
      cutBothSq := MaxReal(ljSq, coulSq);
      denomLj := SwitchDenom(ljInnerSq, ljSq);
      denomCoul := SwitchDenom(coulInnerSq, coulSq);
    }

    /** init_one for the pair (i, j): mixes a pair that was not set
        explicitly from the diagonal entries (setflag stays clear), derives
        lj1..lj4 and lj14_1..lj14_4, mirrors those to (j, i), and returns
        the larger of the global LJ and Coulomb cutoffs. */
    method InitOne(i: int, j: int, m: MathLib) returns (cutOut: real)
      requires Valid() && isAllocated && 1 <= i <= ntypes && 1 <= j <= ntypes
      modifies coeff
      ensures SameExceptPair(coeff, i, j)
      ensures old(setflag[i, j]) ==>
                var e, o := coeff[i, j], old(coeff[i, j]);
                e.epsilon == o.epsilon && e.sigma == o.sigma && e.eps14 == o.eps14 && e.sigma14 == o.sigma14
      ensures !old(setflag[i, j]) ==>
                var e, di, dj := coeff[i, j], old(coeff[i, i]), old(coeff[j, j]);
                e.epsilon == GeometricMean(m, di.epsilon, dj.epsilon) &&
                e.sigma == ArithmeticMean(di.sigma, dj.sigma) &&
                e.eps14 == GeometricMean(m, di.eps14, dj.eps14) &&
                e.sigma14 == ArithmeticMean(di.sigma14, dj.sigma14)
      ensures Derived(coeff[i, j], m)
      ensures MirrorOf(coeff[j, i], coeff[i, j])
      ensures i != j ==>
                var l, o := coeff[j, i], old(coeff[j, i]);
                l.epsilon == o.epsilon && l.sigma == o.sigma && l.eps14 == o.eps14 && l.sigma14 == o.sigma14
      ensures cutOut >= cutLj && cutOut >= cutCoul && (cutOut == cutLj || cutOut == cutCoul)
    {
      var e := coeff[i, j];
      if !setflag[i, j] {
        e := ArithmeticMixed(m, e, coeff[i, i], coeff[j, j]);
      }
      var cut := MaxReal(cutLj, cutCoul);
      e := WithDerived(e, m);
      coeff[i, j] := e;
      coeff[j, i] := MirrorInto(coeff[j, i], e);
      return cut;
    }
  }
}
