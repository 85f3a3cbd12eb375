/** The parameter tables of the CHARMM Lennard-Jones plus long-range
    (Ewald/PPPM) Coulomb pair style, OpenMP variant
    (`pair_style lj/charmm/coul/long`). Its tables, coefficient commands and
    mixing match lj/charmm/coul/charmm; it adds rRESPA neighbour-list
    requests and the four list slots init_list fills, the checks against the
    rRESPA interior cutoffs and the KSpace solver, and the size and
    wrap-around index of the Coulomb lookup tables. */
module PairLJCharmmCoulLongOmp {
  import opened PairCommon
  import opened PairLJCharmmCoulCharmmOmp
  import NeighborDecode

  const IllegalPairStyle := "Illegal pair_style command"
  const IllegalPairCoeff := "Illegal pair_coeff command"
  const IncorrectArgs := "Incorrect args for pair coefficients"
  const LongRequiresCharge := "Pair style lj/charmm/coul/long requires atom attribute q"
  const PairBelowRespa := "Pair cutoff < Respa interior cutoff"
  const InnerBelowRespa := "Pair inner cutoff < Respa interior cutoff"
  const NeedsKSpace := "Pair style is incompatible with KSpace style"

  /** The rRESPA level the requests are built for: 2 when the integrator
      has a middle level, else 1 when it has an inner level, else 0. */
  function RespaLevel(levelInner: int, levelMiddle: int): (respa: int)
    ensures 0 <= respa <= 2
    ensures respa == 2 <==> levelMiddle >= 0
    ensures respa == 1 <==> levelMiddle < 0 && levelInner >= 0
  {
    var respa := if levelInner >= 0 then 1 else 0;
    if levelMiddle >= 0 then 2 else respa
  }

  /** The requests init_style issues at a given rRESPA level: one default
      request at level 0; otherwise a full (not half) list for the inner
      level with id 1, for the middle level with id 2 when there is one, and
      for the outer level with id 3. */
  function RespaRequests(respa: int): (rs: seq<Request>)
    requires 0 <= respa <= 2
    ensures |rs| == respa + 1
    ensures respa == 0 <==> rs == [Plain]
    ensures respa > 0 ==>
              forall k :: 0 <= k < |rs| ==> rs[k].Respa? && !rs[k].half && rs[k].id == IdOf(rs[k].level)
    ensures respa > 0 ==> rs[0].level == Inner && rs[|rs| - 1].level == Outer
    ensures respa == 2 ==> rs[1].level == Middle
  {
    if respa == 0 then [Plain]
    else if respa == 1 then [Respa(1, false, Inner), Respa(3, false, Outer)]
    else [Respa(1, false, Inner), Respa(2, false, Middle), Respa(3, false, Outer)]
  }

  /** The id the rRESPA requests give the list of each level. */
  function IdOf(level: Level): int {
    match level
    case Inner => 1
    case Middle => 2
    case Outer => 3
  }

  /** The requests of init_style: rRESPA requests only during a run
      (whichflag 1) with the respa integrator, one default request
      otherwise. */
  function NeighborRequests(whichflag: int, respaStyle: bool, levelInner: int, levelMiddle: int): seq<Request> {
    if whichflag == 1 && respaStyle then RespaRequests(RespaLevel(levelInner, levelMiddle)) else [Plain]
  }

  /** The four list pointers of the style. */
  datatype ListSlot = Whole | InnerList | MiddleList | OuterList

  /** The slot init_list stores a list with the given id into: ids 0..3
      name the slots; any other id is ignored. */
  function SlotFor(id: int): (s: Option<ListSlot>)
    ensures s.Some? <==> 0 <= id <= 3
  {
    if id == 0 then Some(Whole)
    else if id == 1 then Some(InnerList)
    else if id == 2 then Some(MiddleList)
    else if id == 3 then Some(OuterList)
    else None
  }

  /** The id of the list a request produces: a default request keeps id 0. */
  function RequestId(req: Request): int {
    if req.Plain? then 0 else req.id
  }

  /** The slot a request's list belongs in: the whole list, or the list of
      the request's rRESPA level. */
  function IntendedSlot(req: Request): ListSlot {
    match req
    case Plain => Whole
    case Respa(_, _, level) =>
      match level
      case Inner => InnerList
      case Middle => MiddleList
      case Outer => OuterList
  }

  /** Every list init_style requests comes back through init_list into the
      slot of its own level, and no two requests of one init_style share a
      slot. */
  lemma RequestsReachTheirSlots(whichflag: int, respaStyle: bool, levelInner: int, levelMiddle: int)
    ensures var rs := NeighborRequests(whichflag, respaStyle, levelInner, levelMiddle);
            (forall k :: 0 <= k < |rs| ==> SlotFor(RequestId(rs[k])) == Some(IntendedSlot(rs[k]))) &&
            (forall k, l :: 0 <= k < l < |rs| ==> IntendedSlot(rs[k]) != IntendedSlot(rs[l]))
  {
    var rs := NeighborRequests(whichflag, respaStyle, levelInner, levelMiddle);
    if whichflag == 1 && respaStyle {
      var respa := RespaLevel(levelInner, levelMiddle);
      assert respa == 0 || respa == 1 || respa == 2;
    }
  }

  /** 2 to the power n (1 for n <= 0). */
  function Pow2(n: int): (r: nat)
    ensures r >= 1
    decreases n
  {
    if n <= 0 then 1 else 2 * Pow2(n - 1)
  }

  /** The size of the Coulomb lookup tables computed by init_tables: 2 to
      the power ncoultablebits, by repeated doubling. */
  method TableSize(bits: int) returns (ntable: int)
    ensures ntable == Pow2(bits) && ntable >= 1
  {
    ntable := 1;
    var i := 0;
    while i < bits
      invariant 0 <= i <= Max(bits, 0)
      invariant ntable == Pow2(i)
    {
      ntable := ntable * 2;
      i := i + 1;
    }
  }

  /** The bin holding the largest r: the bin before itablemin, wrapping to
      the last bin (ntable - 1) when itablemin is 0, since the tables are
      connected periodically. */
  function ItableMax(itablemin: int, ntable: int): (itablemax: int)
    requires 0 <= itablemin < ntable
    ensures 0 <= itablemax < ntable
    ensures (itablemax + 1) % ntable == itablemin
  {
    var itablemax := itablemin - 1;
    if itablemin == 0 then ntable - 1 else itablemax
  }

  /** itablemax is the only bin whose successor, cyclically, is itablemin. */
  lemma ItableMaxUnique(itablemin: int, ntable: int, b: int)
    requires 0 <= itablemin < ntable && 0 <= b < ntable
    requires (b + 1) % ntable == itablemin
    ensures b == ItableMax(itablemin, ntable)
  {
    if b + 1 < ntable {
      NeighborDecode.DivModUnique(b + 1, ntable, 0, b + 1);
    } else {
      NeighborDecode.DivModUnique(b + 1, ntable, 1, 0);
    }
  }

  /** extract: the names of lj/charmm/coul/charmm and also cut_coul, the
      Coulomb cutoff the KSpace solvers read. */
  function ExtractLong(name: string): (r: Option<ExtractTarget>)
    ensures r.Some? <==> name in ExtractNames || name == "cut_coul"
    ensures r == Some(CutCoulValue) <==> name == "cut_coul"
  {
    if name == "lj14_1" then Some(Lj14Table(1))
    else if name == "lj14_2" then Some(Lj14Table(2))
    else if name == "lj14_3" then Some(Lj14Table(3))
    else if name == "lj14_4" then Some(Lj14Table(4))
    else if name == "implicit" then Some(ImplicitFlag)
    else if name == "cut_coul" then Some(CutCoulValue)
    else None
  }

  /** The two extract functions agree on every name but cut_coul, which
      only this style answers. */
  lemma ExtractExtendsCharmm(name: string)
    ensures name != "cut_coul" ==> ExtractLong(name) == Extract(name)
    ensures ExtractLong("cut_coul") == Some(CutCoulValue) && Extract("cut_coul") == None
  {
  }

  class PairLJCharmmCoulLong {
    const ntypes: nat
    var isAllocated: bool
    var cutLjInner: real
    var cutLj: real
    var cutCoul: real
    var cutLjInnerSq: real
    var cutLjSq: real
    var cutCoulSq: real
    var cutBothSq: real
    var denomLj: real
    var cutRespa: Option<seq<real>>
    var gEwald: real
    var list: NeighList?
    var listInner: NeighList?
    var listMiddle: NeighList?
    var listOuter: NeighList?
    var implicit: int
    var respaEnable: bool
    var setflag: array2<bool>
    var coeff: array2<CharmmCoeff>

    /** Both tables span the types 0..ntypes in both indices. */
    ghost predicate Valid()
      reads this
    {
      isAllocated ==>
        setflag.Length0 == ntypes + 1 && setflag.Length1 == ntypes + 1 &&
        coeff.Length0 == ntypes + 1 && coeff.Length1 == ntypes + 1
    }

    /** The values init_style derives or fetches (the squared cutoffs,
        cut_bothsq, denom_lj, cut_respa and g_ewald) and the implicit and
        respa_enable flags are as on entry. */
    twostate predicate InitStateKept()
      reads this
    {
      cutLjInnerSq == old(cutLjInnerSq) && cutLjSq == old(cutLjSq) && cutCoulSq == old(cutCoulSq) &&
      cutBothSq == old(cutBothSq) && denomLj == old(denomLj) &&
      cutRespa == old(cutRespa) && gEwald == old(gEwald) &&
      implicit == old(implicit) && respaEnable == old(respaEnable)
    }

    /** The four neighbour-list slots are as on entry. */
    twostate predicate SlotsKept()
      reads this
    {
      list == old(list) && listInner == old(listInner) &&
      listMiddle == old(listMiddle) && listOuter == old(listOuter)
    }

    /** A new style instance: its tables are not allocated yet, it takes
        part in rRESPA and the implicit flag is off. */
    constructor (ntypes: nat)
      ensures Valid() && this.ntypes == ntypes && !isAllocated
      ensures respaEnable && implicit == 0
    {
      this.ntypes := ntypes;
      isAllocated := false;
      respaEnable := true;
      implicit := 0;
      setflag := new bool[0, 0];
      coeff := new CharmmCoeff[0, 0];
    }

    /** Creates the tables and clears setflag on the upper triangle; the
        other entries are left as the allocator returns them. */
    method Allocate()
      modifies this
      ensures Valid() && isAllocated
      ensures fresh(setflag) && fresh(coeff)
      ensures forall p, q :: 1 <= p <= q <= ntypes ==> !setflag[p, q]
      ensures cutLjInner == old(cutLjInner) && cutLj == old(cutLj) && cutCoul == old(cutCoul)
      ensures InitStateKept() && SlotsKept()
    {
      isAllocated := true;
      var n := ntypes;
      var flags := new bool[n + 1, n + 1];
      var i := 1;
      while i <= n
        modifies flags
        invariant 1 <= i <= n + 1
        invariant forall p, q :: 1 <= p < i && p <= q <= n ==> !flags[p, q]
      {
        var j := i;
        while j <= n
          modifies flags
          invariant i <= j <= n + 1
          invariant forall p, q :: 1 <= p < i && p <= q <= n ==> !flags[p, q]
          invariant forall q :: i <= q < j ==> !flags[i, q]
        {
          flags[i, j] := false;
          j := j + 1;
        }
        i := i + 1;
      }
      setflag := flags;
      coeff := new CharmmCoeff[n + 1, n + 1];
    }

    /** pair_style lj/charmm/coul/long inner outer [cut_coul]: two or three
        arguments; the Coulomb cutoff defaults to the outer LJ cutoff. */
    method Settings(args: seq<real>) returns (st: Status)
      modifies this
      ensures st == if |args| == 2 || |args| == 3 then Ok else Error(IllegalPairStyle)
      ensures st.Error? ==> unchanged(this)
      ensures st.Ok? ==> cutLjInner == args[0] && cutLj == args[1] && cutCoul == args[|args| - 1]
      ensures isAllocated == old(isAllocated) && setflag == old(setflag) && coeff == old(coeff)
      ensures InitStateKept() && SlotsKept()
    {
      if |args| != 2 && |args| != 3 {
        return Error(IllegalPairStyle);
      }
      cutLjInner := args[0];
      cutLj := args[1];
      if |args| == 2 {
        cutCoul := cutLj;
      } else {
        cutCoul := args[2];
      }
      return Ok;
    }

    /** One row of the loop nest of pair_coeff. */
    method FillRow(r: TypeRange, i: int, epsilonOne: real, sigmaOne: real, p14: (real, real))
      returns (count: nat)
      requires Valid() && isAllocated && r.Within(ntypes) && r.ilo <= i <= r.ihi
      modifies setflag, coeff
      ensures Filled(setflag, true, TypeRange(i, i, r.jlo, r.jhi))
      ensures forall p, q :: 0 <= p < coeff.Length0 && 0 <= q < coeff.Length1 ==>
                coeff[p, q] == if TypeRange(i, i, r.jlo, r.jhi).Contains(p, q)
                               then Assigned(old(coeff[p, q]), epsilonOne, sigmaOne, p14)
                               else old(coeff[p, q])
      ensures count == RowCount(i, r.jlo, r.jhi)
    {
      ghost var row := TypeRange(i, i, r.jlo, r.jhi);
      count := 0;
      var j := Max(r.jlo, i);
      while j <= r.jhi
        invariant Max(r.jlo, i) <= j <= Max(Max(r.jlo, i), r.jhi + 1)
        invariant FilledBefore(setflag, true, row, i, j)
        invariant AssignedBefore(coeff, row, epsilonOne, sigmaOne, p14, i, j)
        invariant count == j - Max(r.jlo, i)
      {
        coeff[i, j] := Assigned(coeff[i, j], epsilonOne, sigmaOne, p14);
        setflag[i, j] := true;
        count := count + 1;
        j := j + 1;
      }
    }

    /** The loop nest of pair_coeff: writes epsilon, sigma, eps14 and
        sigma14 and raises setflag on every selected pair, and counts them. */
    method FillRange(r: TypeRange, epsilonOne: real, sigmaOne: real, p14: (real, real))
      returns (count: nat)
      requires Valid() && isAllocated && r.Within(ntypes)
      modifies setflag, coeff
      ensures Filled(setflag, true, r)
      ensures forall p, q :: 0 <= p < coeff.Length0 && 0 <= q < coeff.Length1 ==>
                coeff[p, q] == if r.Contains(p, q)
                               then Assigned(old(coeff[p, q]), epsilonOne, sigmaOne, p14)
                               else old(coeff[p, q])
      ensures count == r.Count()
    {
      count := 0;
      var i := r.ilo;
      while i <= r.ihi
        invariant r.ilo <= i <= Max(r.ilo, r.ihi + 1)
        invariant FilledBefore(setflag, true, r, i, 0)
        invariant AssignedBefore(coeff, r, epsilonOne, sigmaOne, p14, i, 0)
        invariant count == PairsBelow(r.ilo, i, r.jlo, r.jhi)
      {
        var rowCount := FillRow(r, i, epsilonOne, sigmaOne, p14);
        count := count + rowCount;
        i := i + 1;
      }
    }

    /** pair_coeff I J epsilon sigma [eps14 sigma14]: four or six
        arguments (a wrong count is reported as an illegal command); then as
        in lj/charmm/coul/charmm, failing when the range selects no pair.
        args[0] and args[1] stand for the type strings, which force->bounds
        has already turned into r. */
    method Coeff(args: seq<real>, r: TypeRange) returns (st: Status)
      requires Valid() && r.Within(ntypes)
      modifies this, setflag, coeff
      ensures Valid()
      ensures st.Ok? <==> (|args| == 4 || |args| == 6) && exists p, q :: r.Contains(p, q)
      ensures st.Error? ==>
                st.message == if |args| == 4 || |args| == 6 then IncorrectArgs else IllegalPairCoeff
      ensures cutLjInner == old(cutLjInner) && cutLj == old(cutLj) && cutCoul == old(cutCoul)
      ensures InitStateKept() && SlotsKept()
      ensures !(|args| == 4 || |args| == 6) ==> unchanged(this) && unchanged(setflag, coeff)
      ensures |args| == 4 || |args| == 6 ==> isAllocated
      ensures old(isAllocated) ==> setflag == old(setflag) && coeff == old(coeff)
      ensures !old(isAllocated) && (|args| == 4 || |args| == 6) ==> fresh(setflag) && fresh(coeff)
      ensures old(isAllocated) && (|args| == 4 || |args| == 6) ==>
                Filled(setflag, true, r) &&
                forall p, q :: 0 <= p < coeff.Length0 && 0 <= q < coeff.Length1 ==>
                  coeff[p, q] == if r.Contains(p, q)
                                 then Assigned(old(coeff[p, q]), args[2], args[3], Coeffs14(args))
                                 else old(coeff[p, q])
      ensures !old(isAllocated) && (|args| == 4 || |args| == 6) ==>
                forall p, q :: 1 <= p <= q <= ntypes ==> setflag[p, q] == r.Contains(p, q)
      ensures |args| == 4 || |args| == 6 ==>
                forall p, q :: r.Contains(p, q) ==>
                  0 <= p < coeff.Length0 && 0 <= q < coeff.Length1 &&
                  coeff[p, q].epsilon == args[2] && coeff[p, q].sigma == args[3] &&
                  (coeff[p, q].eps14, coeff[p, q].sigma14) == Coeffs14(args)
    {
      if |args| != 4 && |args| != 6 {
        return Error(IllegalPairCoeff);
      }
      if !isAllocated {
        Allocate();
      }
      var epsilonOne := args[2];
      var sigmaOne := args[3];
      var p14 := Coeffs14(args);
      var count := FillRange(r, epsilonOne, sigmaOne, p14);
      CountZeroIffEmpty(r);
      if count == 0 {
        return Error(IncorrectArgs);
      }
      return Ok;
    }

    /** The squared cutoffs and cut_bothsq, the larger of the outer squares,
        agree with the cutoffs, and denom_lj is the switching denominator of
        the LJ region, positive when the inner cutoff is non-negative. */
    predicate SwitchingSet()
      reads this
    {
      cutLjInnerSq == cutLjInner * cutLjInner && cutLjSq == cutLj * cutLj &&
      cutCoulSq == cutCoul * cutCoul &&
      cutBothSq >= cutLjSq && cutBothSq >= cutCoulSq &&
      (cutBothSq == cutLjSq || cutBothSq == cutCoulSq) &&
      denomLj == SwitchDenom(cutLjInnerSq, cutLjSq) &&
      (cutLjInner >= 0.0 ==> denomLj > 0.0)
    }

    /** The part of init_style that squares the cutoffs and computes
        cut_bothsq and denom_lj, once the inner cutoff is below the outer. */
    method SetSwitching()
      requires cutLjInner < cutLj
      modifies this`cutLjInnerSq, this`cutLjSq, this`cutCoulSq, this`cutBothSq, this`denomLj
      ensures SwitchingSet()
    {
      if cutLjInner >= 0.0 {
        SwitchDenomPositive(cutLjInner, cutLj);
      }
      var ljInnerSq, ljSq, coulSq := cutLjInner * cutLjInner, cutLj * cutLj, cutCoul * cutCoul;
      cutLjInnerSq, cutLjSq, cutCoulSq := ljInnerSq, ljSq, coulSq;
      cutBothSq := MaxReal(ljSq, coulSq);
      denomLj := SwitchDenom(ljInnerSq, ljSq);
    }

    /** init_style. The integrator state is given as whichflag, whether the
        integrate style is "respa" (respaStyle), its inner and middle levels
        (-1 when absent) and its cutoff array; the KSpace solver as its
        g_ewald when one is defined. On success the caller goes on to
        init_tables exactly when ncoultablebits is nonzero (buildTables). */
    method InitStyle(qFlag: bool, whichflag: int, respaStyle: bool, levelInner: int, levelMiddle: int,
                     respaCutoff: seq<real>, kspace: Option<real>, ncoultablebits: int)
      returns (st: Status, requests: seq<Request>, buildTables: bool)
      requires respaStyle && levelInner >= 0 ==> |respaCutoff| >= 4
      modifies this
      ensures var checkRespa := respaStyle && levelInner >= 0;
              st.Ok? <==>
                qFlag && old(cutLjInner) < old(cutLj) &&
                (checkRespa ==>
                   MinReal(old(cutLj), old(cutCoul)) >= respaCutoff[3] && old(cutLjInner) >= respaCutoff[1]) &&
                kspace.Some?
      ensures !qFlag ==> st == Error(LongRequiresCharge) && requests == [] && unchanged(this)
      ensures qFlag ==> requests == NeighborRequests(whichflag, respaStyle, levelInner, levelMiddle)
      ensures qFlag && old(cutLjInner) >= old(cutLj) ==> st == Error(InnerNotBelowOuter) && unchanged(this)
      ensures qFlag && old(cutLjInner) < old(cutLj) ==>
                SwitchingSet() &&
                cutRespa == (if respaStyle && levelInner >= 0 then Some(respaCutoff) else None)
      ensures qFlag && old(cutLjInner) < old(cutLj) && respaStyle && levelInner >= 0 ==>
                (MinReal(cutLj, cutCoul) < respaCutoff[3] ==> st == Error(PairBelowRespa)) &&
                (MinReal(cutLj, cutCoul) >= respaCutoff[3] && cutLjInner < respaCutoff[1] ==>
                   st == Error(InnerBelowRespa))
      ensures st.Error? && st.message == NeedsKSpace <==>
                qFlag && old(cutLjInner) < old(cutLj) &&
                (respaStyle && levelInner >= 0 ==>
                   MinReal(old(cutLj), old(cutCoul)) >= respaCutoff[3] && old(cutLjInner) >= respaCutoff[1]) &&
                kspace.None?
      ensures st.Ok? ==> gEwald == kspace.value
      ensures st.Error? ==> gEwald == old(gEwald)
      ensures implicit == old(implicit) && respaEnable == old(respaEnable)
      ensures buildTables <==> st.Ok? && ncoultablebits != 0
      ensures cutLjInner == old(cutLjInner) && cutLj == old(cutLj) && cutCoul == old(cutCoul)
      ensures isAllocated == old(isAllocated) && setflag == old(setflag) && coeff == old(coeff)
      ensures SlotsKept()
    {
      buildTables := false;
      if !qFlag {
        return Error(LongRequiresCharge), [], false;
      }
      requests := NeighborRequests(whichflag, respaStyle, levelInner, levelMiddle);
      if cutLjInner >= cutLj {
        return Error(InnerNotBelowOuter), requests, false;
      }
      SetSwitching();
      if respaStyle && levelInner >= 0 {
        cutRespa := Some(respaCutoff);
        if MinReal(cutLj, cutCoul) < respaCutoff[3] {
          return Error(PairBelowRespa), requests, false;
        }
        if cutLjInner < respaCutoff[1] {
          return Error(InnerBelowRespa), requests, false;
        }
      } else {
        cutRespa := None;
      }
      if kspace.None? {
        return Error(NeedsKSpace), requests, false;
      }
      gEwald := kspace.value;
      st := Ok;
      buildTables := ncoultablebits != 0;
    }

    /** The list pointer in a slot. */
    function Slot(s: ListSlot): NeighList?
      reads this
    {
      match s
      case Whole => list
      case InnerList => listInner
      case MiddleList => listMiddle
      case OuterList => listOuter
    }

    /** init_list: stores the list into the slot its id names and ignores
        any other id. */
    method InitList(id: int, ptr: NeighList?)
      modifies this
      ensures forall s :: Slot(s) == if SlotFor(id) == Some(s) then ptr else old(Slot(s))
      ensures SlotFor(id).None? ==> unchanged(this)
      ensures isAllocated == old(isAllocated) && setflag == old(setflag) && coeff == old(coeff)
      ensures cutLjInner == old(cutLjInner) && cutLj == old(cutLj) && cutCoul == old(cutCoul)
      ensures InitStateKept()
    {
      if id == 0 {
        list := ptr;
      } else if id == 1 {
        listInner := ptr;
      } else if id == 2 {
        listMiddle := ptr;
      } else if id == 3 {
        listOuter := ptr;
      }
    }

    /** init_one for the pair (i, j): as in lj/charmm/coul/charmm, mixes an
        unset pair, derives lj1..lj4 and lj14_1..lj14_4, mirrors those to
        (j, i), and returns the larger of the global LJ and Coulomb cutoffs. */
    method InitOne(i: int, j: int, m: MathLib) returns (cutOut: real)
      requires Valid() && isAllocated && 1 <= i <= ntypes && 1 <= j <= ntypes
      modifies coeff
      ensures SameExceptPair(coeff, i, j)
      ensures old(setflag[i, j]) ==>
                var e, o := coeff[i, j], old(coeff[i, j]);
                e.epsilon == o.epsilon && e.sigma == o.sigma && e.eps14 == o.eps14 && e.sigma14 == o.sigma14
      ensures !old(setflag[i, j]) ==>
                var e, di, dj := coeff[i, j], old(coeff[i, i]), old(coeff[j, j]);
                e.epsilon == GeometricMean(m, di.epsilon, dj.epsilon) &&
                e.sigma == ArithmeticMean(di.sigma, dj.sigma) &&
                e.eps14 == GeometricMean(m, di.eps14, dj.eps14) &&
                e.sigma14 == ArithmeticMean(di.sigma14, dj.sigma14)
      ensures Derived(coeff[i, j], m)
      ensures MirrorOf(coeff[j, i], coeff[i, j])
      ensures i != j ==>
                var l, o := coeff[j, i], old(coeff[j, i]);
                l.epsilon == o.epsilon && l.sigma == o.sigma && l.eps14 == o.eps14 && l.sigma14 == o.sigma14
      ensures cutOut >= cutLj && cutOut >= cutCoul && (cutOut == cutLj || cutOut == cutCoul)
    {
      var e := coeff[i, j];
      if !setflag[i, j] {
        e := ArithmeticMixed(m, e, coeff[i, i], coeff[j, j]);
      }
      var cut := MaxReal(cutLj, cutCoul);
      e := WithDerived(e, m);
      coeff[i, j] := e;
      coeff[j, i] := MirrorInto(coeff[j, i], e);
      return cut;
    }
  }
}
