# ARK Smart Breeding: the creature record

This project models the `Creature` class of ARK Smart Breeding, a breeding
and stat tracker for the game ARK: Survival Evolved. A creature record holds:

- its wild and domesticated levels for the eight stats (Health, Stamina,
  Oxygen, Food, Weight, MeleeDamage, Speed, Torpor);
- its taming effectiveness and imprinting bonus;
- links to its mother and father, next to the guids of those parents;
- a guid that serves as its identity;
- values derived from the above and cached on the record.

The model is a Dafny class `Creatures.Creature` with the same fields. The
operations that write fields are methods with `modifies` clauses: the
constructors, the parent setters, the found-level and generation
recalculations, the top-stat count and the value recalculation. The
accessors and the lineage walk are functions with `reads` clauses.

The modules:

- `Primitives`: C# `int` behaviour.
  - Unchecked addition wraps (`Wrap32`).
  - LINQ `Sum` over `int[]` is checked; an overflow becomes `None`
    (`CheckedSum`).
  - The guid is a 128-bit value whose empty guid is 0.
- `LevelFound`: recovers the wild level a creature had when it was tamed,
  from its current wild level and its taming effectiveness.
  - .NET `Math.Round` rounds ties to the even integer, and the model does
    the same.
  - `Math.Round(x, 6)`, `Math.Ceiling` and the `(int)` conversion are
    written out.
- `TopStats`: the scan behind `setTopStatCount`, counting in two
  conventions: the library view and the breeding planner.
- `SpeciesValues`: the species-name lookup (`List.IndexOf`) and the shape of
  the stat value function, which is passed in as a parameter.
- `Creatures`: the class itself, and lemmas about identity and the total
  level.
- `Lineage`: properties of the generation count.
  - It is bounded on any parent graph, including one with cycles.
  - It gives the leaf and max cases.
  - A creature recorded as its own mother gets generation 100.
  - On a lineage without loops that is shallower than the cut-off, it agrees
    with an uncapped reference definition.

The lineage walk reads the `mother`, `father` and `isBred` fields of a ghost
set `herd`. The set is closed under parent links. It exists only for the
proofs and stands for the part of the heap the walk can reach.

## Model

| member | source | states |
|---|---|---|
| Primitives.Wrap32 | ARKBreedingStats/Creature.cs:139 | unchecked `int` addition: a result in range is kept, and any other result is congruent modulo 2^32 to the true sum and lies in the `int` range |
| Primitives.CheckedSum | ARKBreedingStats/Creature.cs:142 | `levelsDom.Sum()` succeeds exactly when every running total from the left stays in the `int` range, and then equals the mathematical sum |
| Primitives.CheckedSumFrom | ARKBreedingStats/Creature.cs:142 | the same, for a running total started at `acc` |
| LevelFound.RoundHalfEven | ARKBreedingStats/Creature.cs:132 | `Math.Round`: the result is within 1/2 of the operand, and an exact tie goes to the even integer |
| LevelFound.Ceiling | ARKBreedingStats/Creature.cs:134 | `Math.Ceiling`: the least integer not below the operand |
| LevelFound.Round6 | ARKBreedingStats/Creature.cs:134 | `Math.Round(x, 6)` is within half a millionth of `x` |
| LevelFound.TamedQuotient | ARKBreedingStats/Creature.cs:132-134 | the quotient times `1 + tamingEff / 2` gives back the hatched level |
| LevelFound.EstimateWildLevel | ARKBreedingStats/Creature.cs:131-134 | the computing branch: with a level step, the quotient divided by the step, rounded to even, converted and multiplied back by the step (unchecked); without one, the quotient rounded to six decimals and then up. Its properties are proved by EstimateWithinLevel, SteppedEstimateIsNearestMultiple and ZeroStepEstimate |
| LevelFound.FoundLevel | ARKBreedingStats/Creature.cs:126-136 | 0 for a bred creature or negative taming effectiveness, the estimate otherwise; the guard is proved by FoundLevelGuard, and CalculateLevelFound stores this value |
| LevelFound.FoundLevelGuard | ARKBreedingStats/Creature.cs:128-130 | a bred creature, or one with negative taming effectiveness, has found level 0 for every level and level step |
| LevelFound.QuotientBounds | ARKBreedingStats/Creature.cs:132-134 | the quotient of a non-negative level lies between 0 and that level |
| LevelFound.QuotientLowerBound | ARKBreedingStats/Creature.cs:132-134 | with taming effectiveness at most 1, the quotient is at least two thirds of the level |
| LevelFound.EstimateWithinLevel | ARKBreedingStats/Creature.cs:133-134 | without a level step, the found level lies between 0 and the hatched level, and is at least two thirds of it when taming effectiveness is at most 1 |
| LevelFound.SteppedEstimateIsNearestMultiple | ARKBreedingStats/Creature.cs:131-132 | with a positive level step and no overflow, the found level is a non-negative multiple of the step within half a step of the quotient |
| LevelFound.RoundedMultipleBounds | ARKBreedingStats/Creature.cs:132 | scaling the rounded step count back by the step gives a multiple of the step within half a step of the quotient |
| LevelFound.ZeroStepEstimate | ARKBreedingStats/Creature.cs:132 | a zero level step gives found level 0 |
| LevelFound.FoundLevelExample | ARKBreedingStats/Creature.cs:126-136 | a wild creature now at level 20, tamed at 50% effectiveness, was found at level 16 |
| TopStats.BreedingPlannerCount | ARKBreedingStats/Creature.cs:190-196 | the breeding-planner count over the first `n` stats is at most `n` and at most 7 |
| TopStats.HighlightCount | ARKBreedingStats/Creature.cs:190-198 | the library-view count over the first `n` stats is at most `n` |
| TopStats.BreedingPlannerCountIsCardinality | ARKBreedingStats/Creature.cs:193-196 | the breeding-planner count is the number of top stats with index below 7 (torpor) |
| TopStats.HighlightCountIsCardinality | ARKBreedingStats/Creature.cs:193-198 | the library-view count is the number of stats that are both top stats and highlighted |
| TopStats.TorporNotCounted | ARKBreedingStats/Creature.cs:195-196 | the torpor flag never changes the breeding-planner count |
| TopStats.AllHighlightedCount | ARKBreedingStats/Creature.cs:190-202 | with every stat highlighted, the library view counts what the planner counts, plus torpor when torpor is a top stat |
| TopStats.CountTopStats | ARKBreedingStats/Creature.cs:190-200 | the loop fails (index out of range) exactly when an array is too short for the stats it reads; otherwise it returns both counts |
| TopStats.SevenTopStatsExample | ARKBreedingStats/Creature.cs:190-202 | seven top stats without torpor, all highlighted, count 7 in both conventions |
| SpeciesValues.BreedingValue | ARKBreedingStats/Creature.cs:215 | the breeding value of a stat: the stat value function applied to the wild level with no domesticated levels, taming effectiveness 1 and no imprinting; RecalculateCreatureValues stores it for every stat |
| SpeciesValues.DomesticatedValue | ARKBreedingStats/Creature.cs:216 | the current value of a stat: the stat value function applied to the wild and domesticated levels with the creature's taming effectiveness and imprinting bonus; RecalculateCreatureValues stores it for every stat |
| SpeciesValues.IndexOf | ARKBreedingStats/Creature.cs:210 | the position of the first equal name, or -1 exactly when the key is null or absent |
| Creatures.Creature.constructor | ARKBreedingStats/Creature.cs:76-93 | stores the arguments; a null name becomes `""`; missing domesticated levels become eight zeros; a bred creature gets taming effectiveness 1; the found level is computed from the stored fields; the guid and both parents stay empty |
| Creatures.Creature.Placeholder | ARKBreedingStats/Creature.cs:99-106 | stores the imported id, marks it imported, derives the guid from it, sets all eight wild levels to -1 and marks the record a placeholder |
| Creatures.Creature.Equals | ARKBreedingStats/Creature.cs:108-111 | two creatures are equal exactly when their guids agree; EqualsIsEquivalence proves it an equivalence relation |
| Creatures.Creature.EqualsObject | ARKBreedingStats/Creature.cs:113-119 | false for null and for objects that are not creatures, and `Equals(Creature)` otherwise; EqualsObjectAgrees proves both |
| Creatures.Creature.GetHashCode | ARKBreedingStats/Creature.cs:121-124 | the hash of the guid alone; EqualsAgreesWithHash proves that equal creatures hash alike |
| Creatures.Creature.LevelHatched | ARKBreedingStats/Creature.cs:139 | the torpor wild level plus one, wrapping to `int.MinValue` at `int.MaxValue` |
| Creatures.Creature.Level | ARKBreedingStats/Creature.cs:142 | fails when there are no domesticated levels (a null array, as on every placeholder) and, otherwise, exactly when a running total of the domesticated levels overflows; when it succeeds it is the hatched level plus their sum (unchecked final addition) |
| Creatures.Creature.Mutations | ARKBreedingStats/Creature.cs:223 | the sum of both mutation counters when it fits, and a negative number when it passes `int.MaxValue` |
| Creatures.Creature.CalculateLevelFound | ARKBreedingStats/Creature.cs:126-136 | `levelFound` becomes the found level of the current fields, 0 for a bred creature or negative taming effectiveness; no other field changes |
| Creatures.Creature.AncestorGenerations | ARKBreedingStats/Creature.cs:153-167 | ends on every parent graph, cycles included; 0 beyond depth 99, and between 0 and `100 - g` at depth `g` |
| Creatures.Creature.RecalculateAncestorGenerations | ARKBreedingStats/Creature.cs:144-147 | `generation` becomes the count from depth 0 and lies in 0..100; no other field changes |
| Creatures.Creature.SetMother | ARKBreedingStats/Creature.cs:170-177 | links the mother and sets `motherGuid` to her guid, or to the empty guid when cleared; nothing else changes |
| Creatures.Creature.SetFather | ARKBreedingStats/Creature.cs:178-186 | the same for the father and `fatherGuid` |
| Creatures.Creature.SetTopStatCount | ARKBreedingStats/Creature.cs:188-203 | when the arrays are long enough, stores the library-view and breeding-planner counts; otherwise (exception) both counts keep their old values |
| Creatures.Creature.RecalculateCreatureValues | ARKBreedingStats/Creature.cs:208-220 | a species not in the table leaves both value arrays as they were; a known species overwrites every stat with its breeding and current value; the found level is recomputed either way |
| Creatures.RecalculateTwice | ARKBreedingStats/Creature.cs:208-220 | recomputing the values twice in a row gives the same arrays |
| Creatures.NewLevels | ARKBreedingStats/Creature.cs:104 | a fresh array holding the same level for all eight stats |
| Creatures.LevelsOrZeros | ARKBreedingStats/Creature.cs:84 | the given domesticated levels, or a fresh array of eight zeros |
| Creatures.EqualsIsEquivalence | ARKBreedingStats/Creature.cs:108-111 | equality of creatures (same guid) is reflexive, symmetric and transitive |
| Creatures.EqualsAgreesWithHash | ARKBreedingStats/Creature.cs:108-124 | equal creatures have the same hash code |
| Creatures.EqualsObjectAgrees | ARKBreedingStats/Creature.cs:113-119 | `Equals(object)` on a creature agrees with `Equals(Creature)`, and is false for null |
| Creatures.PlaceholderLevel | ARKBreedingStats/Creature.cs:142 | the total level of a placeholder fails, since a placeholder has no domesticated levels |
| Creatures.SumWithin | ARKBreedingStats/Creature.cs:142 | a sum of levels between 0 and a bound lies between 0 and the bound times their number |
| Creatures.OrdinaryLevel | ARKBreedingStats/Creature.cs:139-142 | for levels up to a million, the total level is the torpor wild level plus one plus the domesticated levels |
| Creatures.UndomesticatedLevel | ARKBreedingStats/Creature.cs:139-142 | with all domesticated levels 0 (the constructor's default), the total level is the hatched level |
| Creatures.LevelOverflow | ARKBreedingStats/Creature.cs:142 | an example of the overflow case: a first domesticated level of `int.MaxValue` followed by 1 makes the total level fail |
| Lineage.LeafGeneration | ARKBreedingStats/Creature.cs:159-165 | a creature with no known parent has generation 1 when bred and 0 otherwise |
| Lineage.InnerGeneration | ARKBreedingStats/Creature.cs:159-166 | a creature with a known parent has generation `max(1 + gen(mother), 1 + gen(father))` over the parents it has, whatever its bred flag |
| Lineage.GenerationPositive | ARKBreedingStats/Creature.cs:159-166 | below the cut-off, the generation is positive exactly when the creature is bred or has a known parent |
| Lineage.ChildAfterParents | ARKBreedingStats/Creature.cs:160-166 | below the cut-off, the count of a creature from depth `g` is at least one more than the count of each known parent from depth `g + 1` (the cached generations themselves need not differ: a creature that is its own mother and that mother both have generation 100) |
| Lineage.OwnMotherCutOff | ARKBreedingStats/Creature.cs:155-157 | a creature recorded as its own mother gets, from depth `g`, the count `100 - g`, so its generation is 100 |
| Lineage.ThreeGenerations | ARKBreedingStats/Creature.cs:153-167 | three bred creatures linked mother to mother, with no fathers: the youngest is generation 3 |
| Lineage.CutOffUnreached | ARKBreedingStats/Creature.cs:153-167 | on a lineage without loops whose rank stays below the cut-off, the capped walk equals the uncapped generation |

## Left out

- Doubles are modelled as exact reals. The rounding error of the division
  in `calculateLevelFound` is not modelled, and neither is that of the
  inputs to the stat value function. Neither are NaN or infinities, except
  that a zero level step gives 0, as it does in the source.
- LevelFound.ConvertToInt32: an out-of-range conversion gives
  `int.MinValue`, the x86/x64 result. C# leaves this value unspecified, and
  other platforms may differ.
- `Math.Round` rounds ties to the even integer, not away from zero, and so
  does the model.
- Creatures.Creature.constructor does not take the `owner`, `tribe` and
  `sex` arguments and does not set `status` to `Available`, because these
  fields are plain data with no behaviour here. It requires eight wild
  levels, and eight domesticated levels when they are given. In the source
  a null or short wild-level array fails inside the constructor itself
  when the found level is computed for a creature that is not bred and has
  non-negative taming effectiveness; a longer one never fails. A short
  domesticated-level array fails later, in `recalculateCreatureValues`.
- The full constructor leaves `guid` empty (`Guid.Empty`): the
  constructor does not assign it.
- The parameterless constructor is not modelled; its only effect is eight
  unknown wild levels, as in the placeholder.
- These fields are serialised or displayed but take part in no modelled
  logic, and are not modelled:
  - `owner`, `imprinterName`, `tribe`, `server` and `note`;
  - `sex` and `status`;
  - `topBreedingCreature` and `topness`;
  - the parent ark ids and names;
  - colours, dates, `neutered` and tags.
- The stat value function (`Stats.calculateValue`), the species name table
  (`Values.V.speciesNames`), the ark-id-to-guid conversion and
  `Guid.GetHashCode` are code outside this class. They are parameters of
  the operations that call them.
- SpeciesValues.IndexOf: the species table holds non-null names, so a null
  species matches no entry. The source's `List<string>.IndexOf(null)` would
  find a null entry, if the table had one.
- Creatures.Creature.RecalculateCreatureValues requires domesticated
  levels when the species is found. The source raises
  `NullReferenceException` there, after the first breeding value has been
  written.
- Creatures.Creature.Equals takes a non-null creature. The source's
  `Equals(Creature)` raises `NullReferenceException` on null instead of
  returning false; that failure is not modelled. `Equals(object)` handles
  null and is modelled in full.
- Creatures.Creature.SetTopStatCount reports `IndexOutOfRangeException`
  as a false result with both counts unchanged. The exception itself is
  not propagated. A null highlight array is not modelled.
- The `herd` parameter of the lineage walk is ghost. The source walks the
  heap directly, and the set only names the objects the walk reads.
- The lineage cut-off is stated for any parent graph. The uncapped
  reference definition covers only lineages without loops, because a
  loop has no uncapped generation.
