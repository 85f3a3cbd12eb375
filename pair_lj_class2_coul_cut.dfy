/** The parameter tables of the COMPASS (class 2) Lennard-Jones plus cut
    Coulomb pair style, OpenMP variant (`pair_style lj/class2/coul/cut`).
    pair_coeff fills the upper triangle of the per-type-pair tables;
    init_one mixes a pair that was not set explicitly from the diagonal
    entries, derives the force coefficients and mirrors them to (j, i). */
module PairLJClass2CoulCutOmp {
  import opened PairCommon

  const IllegalStyle := "Illegal pair_style command"
  const IncorrectCoeffs := "Incorrect args for pair coefficients"
  const RequiresCharge := "Pair style lj/class2/coul/cut requires atom attribute q"

  /** The entries of the tables cut_lj, cut_ljsq, cut_coul, cut_coulsq,
      epsilon, sigma, lj1..lj4 and offset for one type pair. */
  datatype Class2Coeff = Class2Coeff(
    cutLj: real, cutLjSq: real, cutCoul: real, cutCoulSq: real,
    epsilon: real, sigma: real,
    lj1: real, lj2: real, lj3: real, lj4: real, offset: real)

  /** The LJ and Coulomb cutoffs a pair_coeff command assigns: the global
      ones with four arguments, the fifth argument for both with five, and
      the fifth and sixth with six. */
  function CoeffCutoffs(args: seq<real>, cutLjGlobal: real, cutCoulGlobal: real): (cuts: (real, real))
    ensures |args| <= 4 ==> cuts == (cutLjGlobal, cutCoulGlobal)
    ensures |args| >= 5 && |args| != 6 ==> cuts == (args[4], args[4])
    ensures |args| == 6 ==> cuts == (args[4], args[5])
  {
    var cutLjOne := if |args| >= 5 then args[4] else cutLjGlobal;
    var cutCoulOne := if |args| >= 5 then args[4] else cutCoulGlobal;
    if |args| == 6 then (cutLjOne, args[5]) else (cutLjOne, cutCoulOne)
  }

  /** The entry of a pair that a pair_coeff command selects. */
  function Assigned(e: Class2Coeff, epsilonOne: real, sigmaOne: real, cuts: (real, real)): Class2Coeff {
    e.(epsilon := epsilonOne, sigma := sigmaOne, cutLj := cuts.0, cutCoul := cuts.1)
  }

  /** The sixth-power mixing rule for epsilon. */
  function SixthPowerEpsilon(m: MathLib, epsI: real, epsJ: real, sigI: real, sigJ: real): real {
    m.div(2.0 * m.sqrt(epsI * epsJ) * m.pow(sigI, 3.0) * m.pow(sigJ, 3.0),
          m.pow(sigI, 6.0) + m.pow(sigJ, 6.0))
  }

  /** The sixth-power mixing rule for sigma. */
  function SixthPowerSigma(m: MathLib, sigI: real, sigJ: real): real {
    m.pow(0.5 * (m.pow(sigI, 6.0) + m.pow(sigJ, 6.0)), 1.0 / 6.0)
  }

  /** The entry init_one uses for a pair that pair_coeff never set: epsilon
      and sigma by the sixth-power rules, both cutoffs by mix_distance, all
      from the diagonal entries of the two types. */
  function Mixed(m: MathLib, e: Class2Coeff, di: Class2Coeff, dj: Class2Coeff): Class2Coeff {
    e.(epsilon := SixthPowerEpsilon(m, di.epsilon, dj.epsilon, di.sigma, dj.sigma),
       sigma := SixthPowerSigma(m, di.sigma, dj.sigma),
       cutLj := m.mixDistance(di.cutLj, dj.cutLj),
       cutCoul := m.mixDistance(di.cutCoul, dj.cutCoul))
  }

  /** The derived entries init_one computes agree with the pair's own
      epsilon, sigma and cutoffs. */
  predicate Derived(e: Class2Coeff, offsetFlag: bool, m: MathLib) {
    e.cutLjSq == e.cutLj * e.cutLj && e.cutCoulSq == e.cutCoul * e.cutCoul &&
    e.lj1 == 18.0 * e.epsilon * m.pow(e.sigma, 9.0) &&
    e.lj2 == 18.0 * e.epsilon * m.pow(e.sigma, 6.0) &&
    e.lj3 == 2.0 * e.epsilon * m.pow(e.sigma, 9.0) &&
    e.lj4 == 3.0 * e.epsilon * m.pow(e.sigma, 6.0) &&
    e.offset == if offsetFlag
                then e.epsilon * (2.0 * m.pow(m.div(e.sigma, e.cutLj), 9.0) -
                                  3.0 * m.pow(m.div(e.sigma, e.cutLj), 6.0))
                else 0.0
  }

  /** The entry e with init_one's derived entries filled in: the squared
      cutoffs, lj1..lj4 and the offset of the energy at the LJ cutoff. */
  function WithDerived(e: Class2Coeff, offsetFlag: bool, m: MathLib): Class2Coeff {
    var ratio := m.div(e.sigma, e.cutLj);
    e.(cutLjSq := e.cutLj * e.cutLj, cutCoulSq := e.cutCoul * e.cutCoul,
       lj1 := 18.0 * e.epsilon * m.pow(e.sigma, 9.0),
       lj2 := 18.0 * e.epsilon * m.pow(e.sigma, 6.0),
       lj3 := 2.0 * e.epsilon * m.pow(e.sigma, 9.0),
       lj4 := 3.0 * e.epsilon * m.pow(e.sigma, 6.0),
       offset := if offsetFlag then e.epsilon * (2.0 * m.pow(ratio, 9.0) - 3.0 * m.pow(ratio, 6.0))
                 else 0.0)
  }

  /** WithDerived satisfies Derived and keeps the pair's own values; stated
      apart so that init_one's proof sees it as one fact. */
  lemma WithDerivedDerived(e: Class2Coeff, offsetFlag: bool, m: MathLib)
    ensures Derived(WithDerived(e, offsetFlag, m), offsetFlag, m)
    ensures var d := WithDerived(e, offsetFlag, m);
            d.epsilon == e.epsilon && d.sigma == e.sigma && d.cutLj == e.cutLj && d.cutCoul == e.cutCoul
  {
  }

  /** The values init_one copies from (i, j) to (j, i). */
  predicate MirrorOf(lower: Class2Coeff, upper: Class2Coeff) {
    lower.cutLjSq == upper.cutLjSq && lower.cutCoulSq == upper.cutCoulSq &&
    lower.lj1 == upper.lj1 && lower.lj2 == upper.lj2 && lower.lj3 == upper.lj3 &&
    lower.lj4 == upper.lj4 && lower.offset == upper.offset
  }

  /** The number of entries of s equal to t. */
  function Occurrences(s: seq<int>, t: int): (n: nat)
    ensures n <= |s|
  {
    if s == [] then 0
    else Occurrences(s[..|s| - 1], t) + (if s[|s| - 1] == t then 1 else 0)
  }

  /** The count agrees with the multiplicity of t in the multiset of s. */
  lemma {:induction false} OccurrencesIsMultiplicity(s: seq<int>, t: int)
    ensures Occurrences(s, t) == multiset(s)[t]
  {
    if s != [] {
      var init := s[..|s| - 1];
      OccurrencesIsMultiplicity(init, t);
      assert s == init + [s[|s| - 1]];
      assert multiset(s) == multiset(init) + multiset{s[|s| - 1]};
    }
  }

  /** The loop of init_one's tail correction that counts the owned atoms of
      type i and of type j; `types` is atom->type[0..nlocal). The counts are
      doubles in the source. */
  method CountTypes(types: seq<int>, i: int, j: int) returns (countI: real, countJ: real)
    ensures countI == Occurrences(types, i) as real && countJ == Occurrences(types, j) as real
  {
    countI, countJ := 0.0, 0.0;
    var k := 0;
    while k < |types|
      invariant 0 <= k <= |types|
      invariant countI == Occurrences(types[..k], i) as real
      invariant countJ == Occurrences(types[..k], j) as real
    {
      assert types[..k + 1][..k] == types[..k];
      if types[k] == i {
        countI := countI + 1.0;
      }
      if types[k] == j {
        countJ := countJ + 1.0;
      }
      k := k + 1;
    }
    assert types[..k] == types;
  }

  /** The settings loop has reset both cutoffs of the set off-diagonal pairs
      from row lo up to (i, j); every other entry is as on entry. */
  twostate predicate CutResetBefore(t: array2<Class2Coeff>, flags: array2<bool>, n: int,
                                    cutLj: real, cutCoul: real, lo: int, i: int, j: int)
    reads t, flags
  {
    forall p, q :: 0 <= p < t.Length0 && 0 <= q < t.Length1 ==>
      t[p, q] == if SetOffDiagonal(flags, n, p, q) && lo <= p && Before(p, q, i, j)
                 then old(t[p, q]).(cutLj := cutLj, cutCoul := cutCoul) else old(t[p, q])
  }

  /** The coefficient loops have written the pairs of r before (i, j). */
  twostate predicate AssignedBefore(t: array2<Class2Coeff>, r: TypeRange,
                                    epsilonOne: real, sigmaOne: real, cuts: (real, real), i: int, j: int)
    reads t
  {
    forall p, q :: 0 <= p < t.Length0 && 0 <= q < t.Length1 ==>
      t[p, q] == if r.Contains(p, q) && Before(p, q, i, j)
                 then Assigned(old(t[p, q]), epsilonOne, sigmaOne, cuts)
                 else old(t[p, q])
  }

  class PairLJClass2CoulCut {
    const ntypes: nat
    var isAllocated: bool
    var cutLjGlobal: real
    var cutCoulGlobal: real
    var setflag: array2<bool>
    var coeff: array2<Class2Coeff>

    /** Both tables span the types 0..ntypes in both indices. */
    ghost predicate Valid()
      reads this
    {
      isAllocated ==>
        setflag.Length0 == ntypes + 1 && setflag.Length1 == ntypes + 1 &&
        coeff.Length0 == ntypes + 1 && coeff.Length1 == ntypes + 1
    }

    /** A new style instance: its tables are not allocated yet. */
    constructor (ntypes: nat)
      ensures Valid() && this.ntypes == ntypes && !isAllocated
    {
      this.ntypes := ntypes;
      isAllocated := false;
      setflag := new bool[0, 0];
      coeff := new Class2Coeff[0, 0];
    }

    /** Creates the tables and clears setflag on the upper triangle; the
        other entries are left as the allocator returns them. */
    method Allocate()
      modifies this
      ensures Valid() && isAllocated
      ensures fresh(setflag) && fresh(coeff)
      ensures forall p, q :: 1 <= p <= q <= ntypes ==> !setflag[p, q]
      ensures cutLjGlobal == old(cutLjGlobal) && cutCoulGlobal == old(cutCoulGlobal)
    {
      isAllocated := true;
      var n := ntypes;
      var flags := new bool[n + 1, n + 1];
      var i := 1;
      while i <= n
        modifies flags
        invariant 1 <= i <= n + 1
        invariant forall p, q :: 1 <= p < i && p <= q <= n ==> !flags[p, q]
      {
        var j := i;
        while j <= n
          modifies flags
          invariant i <= j <= n + 1
          invariant forall p, q :: 1 <= p < i && p <= q <= n ==> !flags[p, q]
          invariant forall q :: i <= q < j ==> !flags[i, q]
        {
          flags[i, j] := false;
          j := j + 1;
        }
        i := i + 1;
      }
      setflag := flags;
      coeff := new Class2Coeff[n + 1, n + 1];
    }

    /** pair_style lj/class2/coul/cut cut_lj [cut_coul]: one or two
        arguments; the Coulomb cutoff defaults to the LJ one. Once the
        tables exist, both cutoffs of every off-diagonal pair whose
        coefficients were set explicitly are reset to the new globals; the
        diagonal and unset pairs keep theirs. */
    method Settings(args: seq<real>) returns (st: Status)
      requires Valid()
      modifies this, coeff
      ensures Valid() && isAllocated == old(isAllocated)
      ensures setflag == old(setflag) && coeff == old(coeff)
      ensures st == if 1 <= |args| <= 2 then Ok else Error(IllegalStyle)
      ensures st.Error? ==>
                cutLjGlobal == old(cutLjGlobal) && cutCoulGlobal == old(cutCoulGlobal) && unchanged(coeff)
      ensures st.Ok? ==> cutLjGlobal == args[0] && cutCoulGlobal == args[|args| - 1]
      ensures st.Ok? && isAllocated ==>
                forall p, q :: 0 <= p < coeff.Length0 && 0 <= q < coeff.Length1 ==>
                  coeff[p, q] == if SetOffDiagonal(setflag, ntypes, p, q)
                                 then old(coeff[p, q]).(cutLj := cutLjGlobal, cutCoul := cutCoulGlobal)
                                 else old(coeff[p, q])
      ensures st.Ok? && !isAllocated ==> unchanged(coeff)
    {
      if |args| < 1 || |args| > 2 {
        return Error(IllegalStyle);
      }
      cutLjGlobal := args[0];
      if |args| == 1 {
        cutCoulGlobal := cutLjGlobal;
      } else {
        cutCoulGlobal := args[1];
      }
      if isAllocated {
        var i := 1;
        while i <= ntypes
          modifies coeff
          invariant 1 <= i <= ntypes + 1
          invariant CutResetBefore(coeff, setflag, ntypes, cutLjGlobal, cutCoulGlobal, 1, i, 0)
        {
          ResetRow(i, cutLjGlobal, cutCoulGlobal);
          i := i + 1;
        }
      }
      return Ok;
    }

    /** One row of the reset loop of settings: both cutoffs of every set
        pair (i, j) with j > i are reset. */
    method ResetRow(i: int, cutLj: real, cutCoul: real)
      requires Valid() && isAllocated && 1 <= i <= ntypes
      modifies coeff
      ensures CutResetBefore(coeff, setflag, ntypes, cutLj, cutCoul, i, i + 1, 0)
    {
      var j := i + 1;
      while j <= ntypes
        invariant i + 1 <= j <= ntypes + 1
        invariant CutResetBefore(coeff, setflag, ntypes, cutLj, cutCoul, i, i, j)
      {
        if setflag[i, j] {
          coeff[i, j] := coeff[i, j].(cutLj := cutLj, cutCoul := cutCoul);
        }
        j := j + 1;
      }
    }

    /** One row of the loop nest of pair_coeff. */
    method FillRow(r: TypeRange, i: int, epsilonOne: real, sigmaOne: real, cuts: (real, real))
      returns (count: nat)
      requires Valid() && isAllocated && r.Within(ntypes) && r.ilo <= i <= r.ihi
      modifies setflag, coeff
      ensures Filled(setflag, true, TypeRange(i, i, r.jlo, r.jhi))
      ensures forall p, q :: 0 <= p < coeff.Length0 && 0 <= q < coeff.Length1 ==>
                coeff[p, q] == if TypeRange(i, i, r.jlo, r.jhi).Contains(p, q)
                               then Assigned(old(coeff[p, q]), epsilonOne, sigmaOne, cuts)
                               else old(coeff[p, q])
      ensures count == RowCount(i, r.jlo, r.jhi)
    {
      ghost var row := TypeRange(i, i, r.jlo, r.jhi);
      count := 0;
      var j := Max(r.jlo, i);
      while j <= r.jhi
        invariant Max(r.jlo, i) <= j <= Max(Max(r.jlo, i), r.jhi + 1)
        invariant FilledBefore(setflag, true, row, i, j)
        invariant AssignedBefore(coeff, row, epsilonOne, sigmaOne, cuts, i, j)
        invariant count == j - Max(r.jlo, i)
      {
        coeff[i, j] := Assigned(coeff[i, j], epsilonOne, sigmaOne, cuts);
        setflag[i, j] := true;
        count := count + 1;
        j := j + 1;
      }
    }

    /** The loop nest of pair_coeff: writes epsilon, sigma and both cutoffs
        and raises setflag on every selected pair, and counts them. */
    method FillRange(r: TypeRange, epsilonOne: real, sigmaOne: real, cuts: (real, real))
      returns (count: nat)
      requires Valid() && isAllocated && r.Within(ntypes)
      modifies setflag, coeff
      ensures Filled(setflag, true, r)
      ensures forall p, q :: 0 <= p < coeff.Length0 && 0 <= q < coeff.Length1 ==>
                coeff[p, q] == if r.Contains(p, q)
                               then Assigned(old(coeff[p, q]), epsilonOne, sigmaOne, cuts)
                               else old(coeff[p, q])
      ensures count == r.Count()
    {
      count := 0;
      var i := r.ilo;
      while i <= r.ihi
        invariant r.ilo <= i <= Max(r.ilo, r.ihi + 1)
        invariant FilledBefore(setflag, true, r, i, 0)
        invariant AssignedBefore(coeff, r, epsilonOne, sigmaOne, cuts, i, 0)
        invariant count == PairsBelow(r.ilo, i, r.jlo, r.jhi)
      {
        var rowCount := FillRow(r, i, epsilonOne, sigmaOne, cuts);
        count := count + rowCount;
        i := i + 1;
      }
    }

    /** pair_coeff I J epsilon sigma [cut_lj [cut_coul]]: four to six
        arguments; allocates the tables on first use, writes the selected
        pairs of the upper triangle, and fails when the range selects none.
        args[0] and args[1] stand for the type strings, which force->bounds
        has already turned into r. */
    method Coeff(args: seq<real>, r: TypeRange) returns (st: Status)
      requires Valid() && r.Within(ntypes)
      modifies this, setflag, coeff
      ensures Valid()
      ensures st.Ok? <==> 4 <= |args| <= 6 && exists p, q :: r.Contains(p, q)
      ensures st.Error? ==> st.message == IncorrectCoeffs
      ensures cutLjGlobal == old(cutLjGlobal) && cutCoulGlobal == old(cutCoulGlobal)
      ensures !(4 <= |args| <= 6) ==> unchanged(this) && unchanged(setflag, coeff)
      ensures 4 <= |args| <= 6 ==> isAllocated
      ensures old(isAllocated) ==> setflag == old(setflag) && coeff == old(coeff)
      ensures !old(isAllocated) && 4 <= |args| <= 6 ==> fresh(setflag) && fresh(coeff)
      ensures old(isAllocated) && 4 <= |args| <= 6 ==>
                Filled(setflag, true, r) &&
                forall p, q :: 0 <= p < coeff.Length0 && 0 <= q < coeff.Length1 ==>
                  coeff[p, q] == if r.Contains(p, q)
                                 then Assigned(old(coeff[p, q]), args[2], args[3],
                                               CoeffCutoffs(args, cutLjGlobal, cutCoulGlobal))
                                 else old(coeff[p, q])
      ensures !old(isAllocated) && 4 <= |args| <= 6 ==>
                forall p, q :: 1 <= p <= q <= ntypes ==> setflag[p, q] == r.Contains(p, q)
      ensures 4 <= |args| <= 6 ==>
                forall p, q :: r.Contains(p, q) ==>
                  0 <= p < coeff.Length0 && 0 <= q < coeff.Length1 &&
                  coeff[p, q].epsilon == args[2] && coeff[p, q].sigma == args[3] &&
                  (coeff[p, q].cutLj, coeff[p, q].cutCoul) ==
                    CoeffCutoffs(args, cutLjGlobal, cutCoulGlobal)
    {
      if |args| < 4 || |args| > 6 {
        return Error(IncorrectCoeffs);
      }
      if !isAllocated {
        Allocate();
      }
      var epsilonOne := args[2];
      var sigmaOne := args[3];
      var cuts := CoeffCutoffs(args, cutLjGlobal, cutCoulGlobal);
      var count := FillRange(r, epsilonOne, sigmaOne, cuts);
      CountZeroIffEmpty(r);
      if count == 0 {
        return Error(IncorrectCoeffs);
      }
      return Ok;
    }

    /** init_style: the atoms must carry charges; then one default
        neighbour-list request. */
    method InitStyle(qFlag: bool) returns (st: Status, requests: seq<Request>)
      ensures st == if qFlag then Ok else Error(RequiresCharge)
      ensures requests == if qFlag then [Plain] else []
    {
      if !qFlag {
        return Error(RequiresCharge), [];
      }
      return Ok, [Plain];
    }

    /** init_one for the pair (i, j): mixes a pair that was not set
        explicitly from the diagonal entries (setflag stays clear), squares
        both cutoffs, derives lj1..lj4 and the energy offset (zero unless
        offsetFlag, the base class's shift setting, is on), mirrors the
        derived entries to (j, i) and returns the larger of the pair's two
        cutoffs. With the tail correction on (tailFlag) it also counts the
        owned atoms of types i and j in `types`. */
    method InitOne(i: int, j: int, offsetFlag: bool, tailFlag: bool, types: seq<int>, m: MathLib)
      returns (cutOut: real, countI: real, countJ: real)
      requires Valid() && isAllocated && 1 <= i <= ntypes && 1 <= j <= ntypes
      modifies coeff
      ensures SameExceptPair(coeff, i, j)
      ensures old(setflag[i, j]) ==>
                var e, o := coeff[i, j], old(coeff[i, j]);
                e.epsilon == o.epsilon && e.sigma == o.sigma && e.cutLj == o.cutLj && e.cutCoul == o.cutCoul
      ensures !old(setflag[i, j]) ==>
                var e, di, dj := coeff[i, j], old(coeff[i, i]), old(coeff[j, j]);
                e.epsilon == SixthPowerEpsilon(m, di.epsilon, dj.epsilon, di.sigma, dj.sigma) &&
                e.sigma == SixthPowerSigma(m, di.sigma, dj.sigma) &&
                e.cutLj == m.mixDistance(di.cutLj, dj.cutLj) &&
                e.cutCoul == m.mixDistance(di.cutCoul, dj.cutCoul)
      ensures Derived(coeff[i, j], offsetFlag, m)
      ensures !offsetFlag ==> coeff[i, j].offset == 0.0
      ensures cutOut >= coeff[i, j].cutLj && cutOut >= coeff[i, j].cutCoul
      ensures cutOut == coeff[i, j].cutLj || cutOut == coeff[i, j].cutCoul
      ensures MirrorOf(coeff[j, i], coeff[i, j])
      ensures i != j ==>
                var l, o := coeff[j, i], old(coeff[j, i]);
                l.epsilon == o.epsilon && l.sigma == o.sigma && l.cutLj == o.cutLj && l.cutCoul == o.cutCoul
      ensures tailFlag ==>
                countI == multiset(types)[i] as real && countJ == multiset(types)[j] as real
    {
      var e := coeff[i, j];
      if !setflag[i, j] {
        e := Mixed(m, e, coeff[i, i], coeff[j, j]);
      }
      var cut := MaxReal(e.cutLj, e.cutCoul);
      WithDerivedDerived(e, offsetFlag, m);
      e := WithDerived(e, offsetFlag, m);
      coeff[i, j] := e;
      coeff[j, i] := coeff[j, i].(cutLjSq := e.cutLjSq, cutCoulSq := e.cutCoulSq,
                                  lj1 := e.lj1, lj2 := e.lj2, lj3 := e.lj3, lj4 := e.lj4,
                                  offset := e.offset);
      countI, countJ := 0.0, 0.0;
      if tailFlag {
        countI, countJ := CountTypes(types, i, j);
        OccurrencesIsMultiplicity(types, i);
        OccurrencesIsMultiplicity(types, j);
      }
      cutOut := cut;
    }
  }
}
