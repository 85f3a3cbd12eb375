# Parameter tables of four LAMMPS OpenMP pair styles

This project models the bookkeeping side of four pair styles of the LAMMPS
USER-OPENMP package. The four styles are `buck`, `lj/class2/coul/cut`,
`lj/charmm/coul/charmm` and `lj/charmm/coul/long`. Each one keeps
per-type-pair coefficient tables of size (ntypes+1) x (ntypes+1), indexed by
atom type 1..ntypes, plus a `setflag` table that records which pairs
`pair_coeff` set explicitly.

Each style is a Dafny class with these fields:

- `setflag`, an `array2<bool>`;
- `coeff`, an `array2` holding one record of all the tables' entries per type pair;
- the global cutoffs that `pair_style` sets.

The methods follow the style's command and setup functions:

- `Settings` is `pair_style`. In `buck` and `lj/class2/coul/cut` it also resets the per-pair cutoffs of off-diagonal pairs that were set explicitly (`ResetRow`); the two CHARMM styles have no per-pair cutoffs and reset nothing.
- `Allocate` creates the tables and clears the flags.
- `Coeff` is `pair_coeff`. It checks the argument count, allocates on first use, writes the selected pairs of the upper triangle in row-major loops (`FillRange`, `FillRow`), and fails when the range selects no pair.
- `InitStyle` exists in the three Coulomb styles (`buck` has none). All three require atom charges and issue the neighbour-list requests. `lj/class2/coul/cut` does nothing else. The two CHARMM styles also check that each inner cutoff lies below its outer one, then square the cutoffs and compute the switching denominators (`SetSwitching`): both of them in `lj/charmm/coul/charmm`, the LJ one only in `lj/charmm/coul/long`. `lj/charmm/coul/long` also does the rRESPA and KSpace checks.
- `InitOne` fills in one pair. It derives the force coefficients (and, in `buck` and `lj/class2/coul/cut`, the energy offset), mirrors them into (j, i), and returns the cutoff. A pair that `pair_coeff` never set is mixed from the diagonal entries in the three Coulomb styles; `buck` has no mixing rule and refuses such a pair.
- `InitList` (only `lj/charmm/coul/long`) stores a neighbour list by its id.
- `Extract` (only the two CHARMM styles) looks a table up by name.

Module `NeighborDecode` models how the force loops split a neighbour-list
entry `j` into its atom (`j % nall`) and its special-bond factor slot
(`j / nall`). Module `PairCommon` holds what the styles share:

- the type range of a `pair_coeff` command and the number of pairs its loops visit;
- the CHARMM switching denominator;
- the frame predicates the loop invariants use.

Values of the C math library (`sqrt`, `exp`, `pow`), divisions that may meet
a zero divisor, and `Pair::mix_distance` are parameters: a `MathLib` record
of functions. The model therefore says which formula is stored where, not
what number it evaluates to. Reals stand for doubles.

## Model

| member | source | states |
|---|---|---|
| PairCommon.Max | src/USER-OPENMP/pair_buck_omp.cpp:28 | the larger of the two, and one of them |
| PairCommon.MaxReal | src/USER-OPENMP/pair_lj_charmm_coul_charmm_omp.cpp:38 | MAX on cutoffs: the result is at least each argument and equals one of them; a real-valued twin of `Max`, since cutoffs are reals and `Max` works on integers |
| PairCommon.MinReal | src/USER-OPENMP/pair_lj_charmm_coul_long_omp.cpp:43 | the result is at most each argument and equals one of them |
| PairCommon.RowCount | src/USER-OPENMP/pair_buck_omp.cpp:239-246 | a row of the coefficient loops visits some pair exactly when MAX(jlo,i) <= jhi |
| PairCommon.PairsBelowZero | src/USER-OPENMP/pair_buck_omp.cpp:238-249 | the loops over rows ilo..ihi count zero writes exactly when no pair i in ilo..ihi, j in MAX(jlo,i)..jhi exists |
| PairCommon.CountZeroIffEmpty | src/USER-OPENMP/pair_buck_omp.cpp:238-249 | the "Incorrect args" condition `count == 0` holds exactly when the range selects no pair of the upper triangle |
| PairCommon.SwitchDenomPositive | src/USER-OPENMP/pair_lj_charmm_coul_charmm_omp.cpp:339-342 | with 0 <= inner < outer, the switching denominator (outer² - inner²)³ is positive |
| NeighborDecode.Encode | src/USER-OPENMP/pair_lj_charmm_coul_long_omp.cpp:166-171 | the packing `atom + which*nall` that the decode inverts: the quotient is `which`, the remainder is `atom`, and the entry is below nall exactly for an ordinary neighbour |
| NeighborDecode.Decode | src/USER-OPENMP/pair_lj_charmm_coul_long_omp.cpp:166-171 | the decoded index is below nall and recombines with the factor slot into j; an entry below nall is an ordinary neighbour with both factors 1.0; any other entry is atom j % nall with the factors of slot j / nall |
| NeighborDecode.DecodeLj | src/USER-OPENMP/pair_buck_omp.cpp:122-126 | the same for the Buckingham loop, which reads special_lj only |
| NeighborDecode.DivModUnique | src/USER-OPENMP/pair_lj_charmm_coul_long_omp.cpp:166-171 | the quotient and remainder the decode takes are the unique ones |
| NeighborDecode.DecodeEncode | src/USER-OPENMP/pair_lj_charmm_coul_long_omp.cpp:166-171 | decoding undoes the packing: it gives back the atom, and the factors of slot `which`, or 1.0 for which == 0 |
| NeighborDecode.DecodeLjEncode | src/USER-OPENMP/pair_buck_omp.cpp:122-126 | the Buckingham decode undoes the packing in the same way |
| PairBuckOmp.PairBuck.constructor | src/USER-OPENMP/pair_buck_omp.cpp:32 | a new style has no tables allocated |
| PairBuckOmp.PairBuck.Allocate | src/USER-OPENMP/pair_buck_omp.cpp:174-194 | fresh (ntypes+1)² tables; setflag is clear on every upper-triangle pair; the global cutoff is kept |
| PairBuckOmp.PairBuck.Settings | src/USER-OPENMP/pair_buck_omp.cpp:200-214 | Ok exactly with one argument; the global cutoff becomes it, and every set off-diagonal pair i < j gets it as its cutoff, while every other entry is unchanged; an error changes nothing |
| PairBuckOmp.PairBuck.ResetRow | src/USER-OPENMP/pair_buck_omp.cpp:211-213 | one row i of the reset loop: the cutoff of every set pair (i, j) with j > i becomes the global one; every other entry, and the rho > 0 invariant, is kept |
| PairBuckOmp.PairBuck.FillRow | src/USER-OPENMP/pair_buck_omp.cpp:239-246 | row i: sets the flag and the four values on exactly the pairs j in MAX(jlo,i)..jhi, and counts them |
| PairBuckOmp.PairBuck.FillRange | src/USER-OPENMP/pair_buck_omp.cpp:238-247 | sets the flag and a, rho, c, cut on exactly the selected pairs, leaves all other entries unchanged, and returns the number of pairs selected |
| PairBuckOmp.PairBuck.Coeff | src/USER-OPENMP/pair_buck_omp.cpp:220-250 | Ok exactly with 5 or 6 arguments, rho > 0 and a non-empty range; allocates on first use; the selected pairs hold a, rho, c and the cutoff `CoeffCutoff` picks (the sixth argument, else the global cutoff), and the other pairs are unchanged |
| PairBuckOmp.PairBuck.InitOne | src/USER-OPENMP/pair_buck_omp.cpp:256-277 | an unset pair is the error "All pair coeffs are not set"; otherwise rhoinv·rho = 1, buck1 = a·rhoinv, buck2 = 6c, the offset is a·exp(-cut/rho) - c/cut⁶ under the shift flag and 0 without it, a, c and the derived entries are mirrored to (j, i) (rho and cut are not), nothing else changes, and the pair's cutoff is returned |
| PairLJClass2CoulCutOmp.CoeffCutoffs | src/USER-OPENMP/pair_lj_class2_coul_cut_omp.cpp:268-272 | global cutoffs with four arguments, the fifth argument for both with five, the fifth and sixth with six |
| PairLJClass2CoulCutOmp.Occurrences | src/USER-OPENMP/pair_lj_class2_coul_cut_omp.cpp:349-354 | the reference count of atoms of a type, at most the number of atoms; `CountTypes` is proved against it and `OccurrencesIsMultiplicity` says what it means |
| PairLJClass2CoulCutOmp.OccurrencesIsMultiplicity | src/USER-OPENMP/pair_lj_class2_coul_cut_omp.cpp:349-354 | that count is the multiplicity of the type in the multiset of atom types |
| PairLJClass2CoulCutOmp.CountTypes | src/USER-OPENMP/pair_lj_class2_coul_cut_omp.cpp:349-354 | the counting loop returns the numbers of owned atoms of type i and of type j |
| PairLJClass2CoulCutOmp.PairLJClass2CoulCut.constructor | src/USER-OPENMP/pair_lj_class2_coul_cut_omp.cpp:37 | a new style has no tables allocated |
| PairLJClass2CoulCutOmp.PairLJClass2CoulCut.Allocate | src/USER-OPENMP/pair_lj_class2_coul_cut_omp.cpp:203-226 | fresh tables with setflag clear on the upper triangle; the global cutoffs are kept |
| PairLJClass2CoulCutOmp.PairLJClass2CoulCut.Settings | src/USER-OPENMP/pair_lj_class2_coul_cut_omp.cpp:232-251 | Ok exactly with one or two arguments; the Coulomb cutoff defaults to the LJ one; both cutoffs of every set off-diagonal pair are reset and nothing else changes |
| PairLJClass2CoulCutOmp.PairLJClass2CoulCut.ResetRow | src/USER-OPENMP/pair_lj_class2_coul_cut_omp.cpp:244-249 | one row i of the reset loop: both cutoffs of every set pair (i, j) with j > i are reset; every other entry is kept |
| PairLJClass2CoulCutOmp.PairLJClass2CoulCut.FillRow | src/USER-OPENMP/pair_lj_class2_coul_cut_omp.cpp:276-283 | one row of the loops: exactly its pairs are written and counted |
| PairLJClass2CoulCutOmp.PairLJClass2CoulCut.FillRange | src/USER-OPENMP/pair_lj_class2_coul_cut_omp.cpp:275-284 | exactly the selected pairs get ε, σ, both cutoffs and the flag, and the count is the number of pairs selected |
| PairLJClass2CoulCutOmp.PairLJClass2CoulCut.Coeff | src/USER-OPENMP/pair_lj_class2_coul_cut_omp.cpp:257-287 | Ok exactly with 4..6 arguments and a non-empty range; the selected pairs hold ε, σ and the cutoffs `CoeffCutoffs` picks, and the other pairs are unchanged |
| PairLJClass2CoulCutOmp.PairLJClass2CoulCut.InitStyle | src/USER-OPENMP/pair_lj_class2_coul_cut_omp.cpp:293-299 | without charges, the error and no request; otherwise one default request |
| PairLJClass2CoulCutOmp.PairLJClass2CoulCut.InitOne | src/USER-OPENMP/pair_lj_class2_coul_cut_omp.cpp:305-369 | an unset pair gets the sixth-power ε and σ and mix_distance cutoffs from the diagonal, and a set pair keeps its own; the squared cutoffs, lj1..lj4 and the offset (`WithDerived`: 18εσ⁹, 18εσ⁶, 2εσ⁹, 3εσ⁶, and ε(2(σ/rc)⁹ - 3(σ/rc)⁶) under the shift flag, else 0) are computed and mirrored to (j, i); only (i, j) and (j, i) change; it returns the larger cutoff; with the tail flag it counts the atoms of both types |
| PairLJCharmmCoulCharmmOmp.ArithmeticMean | src/USER-OPENMP/pair_lj_charmm_coul_charmm_omp.cpp:355-357 | the mixing rule for σ (and σ14): the mixed value lies between the two diagonal values; `InitOne` stores it for an unset pair |
| PairLJCharmmCoulCharmmOmp.Extract | src/USER-OPENMP/pair_lj_charmm_coul_charmm_omp.cpp:534-542 | a table exactly for lj14_1..lj14_4 and implicit; lj14_k names table k; cut_coul is not answered |
| PairLJCharmmCoulCharmmOmp.PairLJCharmmCoulCharmm.constructor | src/USER-OPENMP/pair_lj_charmm_coul_charmm_omp.cpp:42-46 | no tables yet; implicit is 0 |
| PairLJCharmmCoulCharmmOmp.PairLJCharmmCoulCharmm.Allocate | src/USER-OPENMP/pair_lj_charmm_coul_charmm_omp.cpp:231-255 | fresh tables with setflag clear on the upper triangle; the cutoffs, the values init_style derives and the implicit flag are kept |
| PairLJCharmmCoulCharmmOmp.PairLJCharmmCoulCharmm.Settings | src/USER-OPENMP/pair_lj_charmm_coul_charmm_omp.cpp:263-277 | Ok exactly with two or four arguments; with two, the Coulomb inner and outer cutoffs copy the LJ ones; the tables, the values init_style derives and the implicit flag are kept; an error changes nothing |
| PairLJCharmmCoulCharmmOmp.PairLJCharmmCoulCharmm.FillRow | src/USER-OPENMP/pair_lj_charmm_coul_charmm_omp.cpp:303-311 | one row of the loops: exactly its pairs are written and counted |
| PairLJCharmmCoulCharmmOmp.PairLJCharmmCoulCharmm.FillRange | src/USER-OPENMP/pair_lj_charmm_coul_charmm_omp.cpp:302-312 | exactly the selected pairs get ε, σ, eps14, sigma14 and the flag, and the count is the number of pairs selected |
| PairLJCharmmCoulCharmmOmp.PairLJCharmmCoulCharmm.Coeff | src/USER-OPENMP/pair_lj_charmm_coul_charmm_omp.cpp:283-315 | Ok exactly with 4 or 6 arguments and a non-empty range; the selected pairs hold ε, σ and the 1-4 values `Coeffs14` picks (the fifth and sixth arguments, else ε and σ), and the other pairs are unchanged; the cutoffs, the values init_style derives and the implicit flag are kept |
| PairLJCharmmCoulCharmmOmp.PairLJCharmmCoulCharmm.InitStyle | src/USER-OPENMP/pair_lj_charmm_coul_charmm_omp.cpp:321-343 | the error order: charges first, then inner < outer for both regions; on success the squares, cut_bothsq as the larger outer square, and both denominators, which are positive when the inner cutoffs are non-negative; the tables, the cutoffs and the implicit flag are kept, and an error changes nothing |
| PairLJCharmmCoulCharmmOmp.PairLJCharmmCoulCharmm.SetSwitching | src/USER-OPENMP/pair_lj_charmm_coul_charmm_omp.cpp:333-342 | with each inner cutoff below its outer one: the four squares, cut_bothsq as the larger outer square, and both denominators (outer² - inner²)³, positive for a non-negative inner cutoff; no other field changes |
| PairLJCharmmCoulCharmmOmp.PairLJCharmmCoulCharmm.InitOne | src/USER-OPENMP/pair_lj_charmm_coul_charmm_omp.cpp:349-381 | an unset pair gets the geometric-mean ε and eps14 and the arithmetic-mean σ and sigma14, and a set pair keeps its own; lj1..lj4 and lj14_1..lj14_4 are 48εσ¹², 24εσ⁶, 4εσ¹², 4εσ⁶ of the ordinary and of the 1-4 values (`WithDerived`); those eight are copied to (j, i), which keeps its own ε, σ and 1-4 values (`MirrorInto`); only (i, j) and (j, i) change; it returns the larger of the global cutoffs |
| PairLJCharmmCoulLongOmp.RespaLevel | src/USER-OPENMP/pair_lj_charmm_coul_long_omp.cpp:859-861 | level 2 exactly when there is a middle level, 1 exactly when there is an inner level and no middle one, else 0 |
| PairLJCharmmCoulLongOmp.RespaRequests | src/USER-OPENMP/pair_lj_charmm_coul_long_omp.cpp:863-885 | respa+1 requests; at level 0 one default request; otherwise full lists, inner first, outer last, middle between them at level 2, each with the id of its level |
| PairLJCharmmCoulLongOmp.SlotFor | src/USER-OPENMP/pair_lj_charmm_coul_long_omp.cpp:930-936 | init_list stores a list exactly for ids 0..3 |
| PairLJCharmmCoulLongOmp.RequestsReachTheirSlots | src/USER-OPENMP/pair_lj_charmm_coul_long_omp.cpp:858-888 | every requested list returns through init_list into the slot of its own level, and no two requests share a slot |
| PairLJCharmmCoulLongOmp.Pow2 | src/USER-OPENMP/pair_lj_charmm_coul_long_omp.cpp:990-991 | the reference 2^n, at least 1, against which the doubling loop `TableSize` is proved |
| PairLJCharmmCoulLongOmp.TableSize | src/USER-OPENMP/pair_lj_charmm_coul_long_omp.cpp:990-991 | the doubling loop yields 2^ncoultablebits (1 for no bits) |
| PairLJCharmmCoulLongOmp.ItableMax | src/USER-OPENMP/pair_lj_charmm_coul_long_omp.cpp:1100-1101 | the bin is in range and its cyclic successor is itablemin |
| PairLJCharmmCoulLongOmp.ItableMaxUnique | src/USER-OPENMP/pair_lj_charmm_coul_long_omp.cpp:1100-1101 | it is the only bin in range whose cyclic successor is itablemin |
| PairLJCharmmCoulLongOmp.ExtractLong | src/USER-OPENMP/pair_lj_charmm_coul_long_omp.cpp:1328-1337 | answers the charmm names plus cut_coul, and cut_coul names the Coulomb cutoff |
| PairLJCharmmCoulLongOmp.ExtractExtendsCharmm | src/USER-OPENMP/pair_lj_charmm_coul_long_omp.cpp:1328-1337 | the two extracts agree on every name except cut_coul |
| PairLJCharmmCoulLongOmp.PairLJCharmmCoulLong.constructor | src/USER-OPENMP/pair_lj_charmm_coul_long_omp.cpp:56-61 | respa is enabled, implicit is 0, and there are no tables yet |
| PairLJCharmmCoulLongOmp.PairLJCharmmCoulLong.Allocate | src/USER-OPENMP/pair_lj_charmm_coul_long_omp.cpp:766-790 | fresh tables with setflag clear on the upper triangle; the cutoffs, the values init_style derives or fetches, implicit, respa_enable and the list slots are kept |
| PairLJCharmmCoulLongOmp.PairLJCharmmCoulLong.Settings | src/USER-OPENMP/pair_lj_charmm_coul_long_omp.cpp:798-806 | Ok exactly with two or three arguments; the Coulomb cutoff defaults to the outer LJ one; the tables, the values init_style derives or fetches, implicit, respa_enable and the list slots are kept; an error changes nothing |
| PairLJCharmmCoulLongOmp.PairLJCharmmCoulLong.FillRow | src/USER-OPENMP/pair_lj_charmm_coul_long_omp.cpp:832-839 | one row of the loops: exactly its pairs are written and counted |
| PairLJCharmmCoulLongOmp.PairLJCharmmCoulLong.FillRange | src/USER-OPENMP/pair_lj_charmm_coul_long_omp.cpp:830-840 | exactly the selected pairs get ε, σ, eps14, sigma14 and the flag, and the count is the number of pairs selected |
| PairLJCharmmCoulLongOmp.PairLJCharmmCoulLong.Coeff | src/USER-OPENMP/pair_lj_charmm_coul_long_omp.cpp:812-843 | a wrong argument count is "Illegal pair_coeff command"; an empty range is "Incorrect args"; Ok otherwise, with the selected pairs holding ε, σ and the `Coeffs14` values, the other pairs unchanged, and the cutoffs, the values init_style derives or fetches, implicit, respa_enable and the list slots kept |
| PairLJCharmmCoulLongOmp.PairLJCharmmCoulLong.InitStyle | src/USER-OPENMP/pair_lj_charmm_coul_long_omp.cpp:849-923 | Ok exactly when there are charges, inner < outer, the rRESPA interior cutoffs are respected and a KSpace solver exists, with each error in the source's order; the requests, squares, cut_bothsq, denom_lj, cut_respa, g_ewald (kept on every error), and whether the tables are built; the tables, cutoffs, list slots, implicit and respa_enable are kept |
| PairLJCharmmCoulLongOmp.PairLJCharmmCoulLong.SetSwitching | src/USER-OPENMP/pair_lj_charmm_coul_long_omp.cpp:895-901 | with the inner cutoff below the outer one: the three squares, cut_bothsq as the larger outer square, and denom_lj (outer² - inner²)³, positive for a non-negative inner cutoff; no other field changes |
| PairLJCharmmCoulLongOmp.PairLJCharmmCoulLong.InitList | src/USER-OPENMP/pair_lj_charmm_coul_long_omp.cpp:930-936 | the slot that the id names now holds the list, every other slot is unchanged, an unknown id changes nothing, and the tables, the cutoffs, the values init_style derives or fetches, implicit and respa_enable are kept |
| PairLJCharmmCoulLongOmp.PairLJCharmmCoulLong.InitOne | src/USER-OPENMP/pair_lj_charmm_coul_long_omp.cpp:942-974 | the same mixing, derivation (`WithDerived`) and mirroring (`MirrorInto`) as lj/charmm/coul/charmm; it returns the larger of cut_lj and cut_coul |

## Left out

- The force and energy loops (`eval`, `eval_inner`, `eval_middle`, `eval_outer`, `compute`, `compute_inner`/`middle`/`outer`) and `single`: floating-point numerics. Only their neighbour decode is modelled, and it is the same in every one of them.
- OpenMP threading, per-thread force arrays and reductions: concurrency.
- `write_restart`, `read_restart` and their `_settings` variants, and the MPI broadcasts: file and network I/O.
- The tail-correction sums in `init_one` of lj/class2/coul/cut: the `MPI_Allreduce` and the `etail_ij`/`ptail_ij` values are floating point. Only the type-counting loop is modelled.
- `init_tables` and `free_tables` of lj/charmm/coul/long: the table values and the float/int bit reinterpretation. Only the table size and the wrap-around bin `itablemax` are modelled.
- `memory_usage`: byte accounting.
- The values of sqrt, exp, pow, division and `Pair::mix_distance` are parameters of the model (`MathLib`); their numbers are not computed.
- `cutsq` is written by `Pair::init`, which is not part of this model.
- `force->numeric` and `force->bounds` are not modelled; their results (the argument values and the type range) are inputs.
- Integers are unbounded and reals are exact: the widths of `int` and the rounding of `double` are not modelled.
- The source keeps one array per table. The model groups the entries of one type pair into a record. Two tables can never alias each other in the source, so nothing is lost.
- The contents of a newly allocated table are unspecified, as is memory from the allocator.
- The list pointers `list`, `listinner`, `listmiddle` and `listouter` are opaque references. The constructor of lj/charmm/coul/long leaves them uninitialised, as the source does.
- The header lib/gpu/pppm_gpu_memory.h only declares things and has no behaviour, so it is not modelled.
- PairBuckOmp.PairBuck.InitOne: requires i <= j, as `Pair::init` calls it. The fact that a set pair has rho > 0 is kept only for the upper triangle.
- PairLJCharmmCoulCharmmOmp.PairLJCharmmCoulCharmm.InitStyle: positivity of the denominators is stated only for non-negative inner cutoffs. The source does not check that an inner cutoff is non-negative, and a negative inner cutoff whose square is at least the outer square gives a non-positive denominator.
- PairLJCharmmCoulLongOmp.PairLJCharmmCoulLong.InitStyle: the same restriction applies to `denom_lj`. It requires the rRESPA cutoff array to have at least four entries, because the source reads `cutoff[3]`.
