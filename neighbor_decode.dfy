/** Special-bond neighbours. The neighbour lists read by the force loops of
    every pair style store a neighbour that is a special (1-2, 1-3 or 1-4)
    partner of the owning atom as `atom + which * nall`, where `nall` is the
    number of owned plus ghost atoms and `which` in 1..3 selects the scaling
    factor in `force->special_lj` / `force->special_coul`. The loops split
    such an entry back into the atom index and the factor. */
module NeighborDecode {

  /** The packing used by the neighbour-list builder, which is not part of
      this model: `which == 0` is an ordinary neighbour. */
  function Encode(atom: nat, which: nat, nall: nat): (j: nat)
    requires atom < nall
    ensures j / nall == which && j % nall == atom
    ensures j < nall <==> which == 0
  {
    DivModUnique(atom + which * nall, nall, which, atom);
    MulStep(0, which, nall);
    atom + which * nall
  }

  /** A decoded neighbour of the Coulomb-plus-LJ styles: the atom index and
      the two special factors that scale its Coulomb and LJ terms. */
  datatype Neighbor = Neighbor(index: nat, factorCoul: real, factorLj: real)

  /** A decoded neighbour of the Buckingham style: it scales by special_lj only. */
  datatype LjNeighbor = LjNeighbor(index: nat, factorLj: real)

  /** The decode at the head of the inner force loop of the lj/charmm/coul/long,
      lj/charmm/coul/charmm and lj/class2/coul/cut styles: an entry below
      `nall` is an ordinary neighbour scaled by 1.0; any other entry selects
      the special factors `j / nall` and the atom `j % nall`. */
  function Decode(j: int, nall: int, specialCoul: seq<real>, specialLj: seq<real>): (n: Neighbor)
    requires nall > 0 && 0 <= j
    requires j / nall < |specialCoul| && j / nall < |specialLj|
    ensures n.index < nall && j == n.index + (j / nall) * nall
    ensures j < nall ==> n == Neighbor(j, 1.0, 1.0)
    ensures j >= nall ==> n == Neighbor(j % nall, specialCoul[j / nall], specialLj[j / nall])
  {
    if j < nall then Neighbor(j, 1.0, 1.0)
    else Neighbor(j % nall, specialCoul[j / nall], specialLj[j / nall])
  }

  /** The same decode in the Buckingham style's force loop. */
  function DecodeLj(j: int, nall: int, specialLj: seq<real>): (n: LjNeighbor)
    requires nall > 0 && 0 <= j && j / nall < |specialLj|
    ensures n.index < nall && j == n.index + (j / nall) * nall
    ensures j < nall ==> n == LjNeighbor(j, 1.0)
    ensures j >= nall ==> n == LjNeighbor(j % nall, specialLj[j / nall])
  {
    if j < nall then LjNeighbor(j, 1.0)
    else LjNeighbor(j % nall, specialLj[j / nall])
  }

  /** A step of at least one multiple of n. */
  lemma {:induction false} MulStep(a: int, b: int, n: int)
    requires n > 0 && a <= b
    ensures a < b ==> a * n + n <= b * n
    decreases b - a
  {
    if a + 1 < b {
      MulStep(a, b - 1, n);
      assert a * n + n <= (b - 1) * n;
      assert (b - 1) * n + n == b * n;
    } else {
      assert (a + 1) * n == a * n + n;
    }
  }

  /** Quotient and remainder are unique. */
  lemma DivModUnique(j: int, n: int, q: int, r: int)
    requires n > 0 && 0 <= r < n && j == q * n + r
    ensures j / n == q && j % n == r
  {
    var q', r' := j / n, j % n;
    assert j == q' * n + r' && 0 <= r' < n;
    if q < q' {
      MulStep(q, q', n);
      assert false;
    } else if q' < q {
      MulStep(q', q, n);
      assert false;
    }
  }

  /** Decoding undoes the packing: an ordinary neighbour comes back with both
      factors 1.0, a special one with the factors of its slot. */
  lemma DecodeEncode(atom: nat, which: nat, nall: nat, specialCoul: seq<real>, specialLj: seq<real>)
    requires atom < nall && which < |specialCoul| && which < |specialLj|
    ensures Decode(Encode(atom, which, nall), nall, specialCoul, specialLj) ==
            if which == 0 then Neighbor(atom, 1.0, 1.0)
            else Neighbor(atom, specialCoul[which], specialLj[which])
  {
    DecodeSplit(Encode(atom, which, nall), atom, which, nall, specialCoul, specialLj);
  }

  /** Decode of an entry whose quotient and remainder are known. */
  lemma DecodeSplit(j: int, atom: nat, which: nat, nall: nat, specialCoul: seq<real>, specialLj: seq<real>)
    requires atom < nall && which < |specialCoul| && which < |specialLj|
    requires j / nall == which && j % nall == atom && 0 <= j
    requires j < nall <==> which == 0
    ensures Decode(j, nall, specialCoul, specialLj) ==
            if which == 0 then Neighbor(atom, 1.0, 1.0)
            else Neighbor(atom, specialCoul[which], specialLj[which])
    ensures DecodeLj(j, nall, specialLj) ==
            LjNeighbor(atom, if which == 0 then 1.0 else specialLj[which])
  {
  }

  /** The Buckingham decode undoes the packing in the same way. */
  lemma DecodeLjEncode(atom: nat, which: nat, nall: nat, specialLj: seq<real>)
    requires atom < nall && which < |specialLj|
    ensures DecodeLj(Encode(atom, which, nall), nall, specialLj) ==
            LjNeighbor(atom, if which == 0 then 1.0 else specialLj[which])
  {
    DecodeSplit(Encode(atom, which, nall), atom, which, nall, specialLj, specialLj);
  }
}
