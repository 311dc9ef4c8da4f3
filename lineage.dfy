/** Properties of the generation count over the live parent links: what it
    gives at the leaves and at inner creatures, how it cuts off a lineage
    that loops back on itself, and that the cut-off never fires on a lineage
    shallower than a hundred generations. */
module Lineage {
  import opened Creatures

  /** A creature with no known parent is generation 1 when bred and 0
      otherwise. */
  lemma LeafGeneration(c: Creature, herd: set<Creature>, g: int)
    requires c in herd && ParentsWithin(herd)
    requires g <= 99
    requires c.mother == null && c.father == null
    ensures c.AncestorGenerations(g, herd) == if c.isBred then 1 else 0
  {
  }

  /** A creature with a known parent is one generation after its latest
      known parent line, whatever its own bred flag. */
  lemma InnerGeneration(c: Creature, herd: set<Creature>, g: int)
    requires c in herd && ParentsWithin(herd)
    requires g <= 99
    requires c.mother != null || c.father != null
    ensures var mgen := if c.mother != null then 1 + c.mother.AncestorGenerations(g + 1, herd) else 0;
            var fgen := if c.father != null then 1 + c.father.AncestorGenerations(g + 1, herd) else 0;
            c.AncestorGenerations(g, herd) == if mgen > fgen then mgen else fgen
  {
  }

  /** Below the cut-off, the count is positive exactly when the creature is
      bred or has a known parent. */
  lemma GenerationPositive(c: Creature, herd: set<Creature>, g: int)
    requires c in herd && ParentsWithin(herd)
    requires g <= 99
    ensures c.AncestorGenerations(g, herd) > 0 <==> c.isBred || c.mother != null || c.father != null
  {
  }

  /** A creature is counted at least one generation after each known parent. */
  lemma ChildAfterParents(c: Creature, herd: set<Creature>, g: int)
    requires c in herd && ParentsWithin(herd)
    requires g <= 99
    ensures c.mother != null ==> c.AncestorGenerations(g, herd) >= c.mother.AncestorGenerations(g + 1, herd) + 1
    ensures c.father != null ==> c.AncestorGenerations(g, herd) >= c.father.AncestorGenerations(g + 1, herd) + 1
  {
  }

  /** A creature wrongly recorded as its own mother: the walk stops at the
      cut-off, and the count from depth `g` is `100 - g`, so the cached
      generation is 100. */
  lemma {:induction false} OwnMotherCutOff(c: Creature, herd: set<Creature>, g: int)
    requires c in herd && ParentsWithin(herd)
    requires c.mother == c
    requires 0 <= g <= 100
    ensures c.AncestorGenerations(g, herd) == 100 - g
    decreases 100 - g
  {
    if g < 100 {
      OwnMotherCutOff(c, herd, g + 1);
    }
  }

  /** Three bred creatures linked mother to mother, with no fathers: the
      youngest is generation 3. */
  lemma ThreeGenerations(a: Creature, b: Creature, c: Creature, herd: set<Creature>)
    requires a in herd && ParentsWithin(herd)
    requires a.mother == b && b.mother == c && c.mother == null
    requires a.father == null && b.father == null && c.father == null
    requires a.isBred && b.isBred && c.isBred
    ensures a.AncestorGenerations(0, herd) == 3
  {
    assert c.AncestorGenerations(2, herd) == 1;
    assert b.AncestorGenerations(1, herd) == 2;
  }

  /** A lineage without loops: every parent has a smaller rank than its
      child. */
  ghost predicate RankedLineage(herd: set<Creature>, rank: map<Creature, nat>)
    reads herd`mother, herd`father
  {
    forall c :: c in herd ==>
      && c in rank
      && (c.mother != null ==> c.mother in herd && c.mother in rank && rank[c.mother] < rank[c])
      && (c.father != null ==> c.father in herd && c.father in rank && rank[c.father] < rank[c])
  }

  /** The generation of a creature in a lineage without loops, with no
      depth limit: a creature with no known parent is generation 1 when bred
      and 0 otherwise; any other creature is one more than its latest known
      parent. */
  ghost function UncappedGeneration(c: Creature, herd: set<Creature>, rank: map<Creature, nat>): nat
    requires c in herd && RankedLineage(herd, rank)
    reads herd`mother, herd`father, herd`isBred
    decreases rank[c]
  {
    if c.mother == null && c.father == null then
      if c.isBred then 1 else 0
    else if c.father == null then
      1 + UncappedGeneration(c.mother, herd, rank)
    else if c.mother == null then
      1 + UncappedGeneration(c.father, herd, rank)
    else
      var m := UncappedGeneration(c.mother, herd, rank);
      var f := UncappedGeneration(c.father, herd, rank);
      1 + if m > f then m else f
  }

  /** In a lineage without loops whose ranks stay below the cut-off, the
      walk never reaches the cut-off and counts the true generation. */
  lemma {:induction false} CutOffUnreached(c: Creature, herd: set<Creature>, rank: map<Creature, nat>, g: int)
    requires c in herd && ParentsWithin(herd) && RankedLineage(herd, rank)
    requires rank[c] + g <= 99
    ensures c.AncestorGenerations(g, herd) == UncappedGeneration(c, herd, rank)
    decreases rank[c]
  {
    if c.mother != null {
      CutOffUnreached(c.mother, herd, rank, g + 1);
    }
    if c.father != null {
      CutOffUnreached(c.father, herd, rank, g + 1);
    }
  }
}
