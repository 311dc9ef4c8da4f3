/** The creature record: its levels, its parent links, its identity and the
    derived values it caches. */
module Creatures {
  import opened Primitives
  import opened LevelFound
  import opened TopStats
  import opened SpeciesValues

  /** Every parent of a creature of `herd` is itself in `herd`: the part of
      the heap a walk up the lineage can reach. */
  ghost predicate ParentsWithin(herd: set<Creature>)
    reads herd`mother, herd`father
  {
    forall c :: c in herd ==> (c.mother != null ==> c.mother in herd) && (c.father != null ==> c.father in herd)
  }

  class Creature {
    var species: Option<string>
    var name: string
    // one entry per stat, in the order of TopStats
    var levelsWild: array<Int32>
    var levelsDom: array?<Int32>
    var tamingEff: real
    var imprintingBonus: real
    var valuesBreeding: array<real>
    var valuesDom: array<real>
    var topBreedingStats: array<bool>
    var topStatsCount: Int16
    var topStatsCountBP: Int16
    var guid: Guid
    var arkId: Int64
    var arkIdImported: bool
    var isBred: bool
    var fatherGuid: Guid
    var motherGuid: Guid
    var father: Creature?
    var mother: Creature?
    var levelFound: Int32
    var generation: Int32
    var mutationsMaternal: Int32
    var mutationsPaternal: Int32
    var isPlaceholder: bool

    /** The level and value arrays hold one entry per stat, and the two value
        arrays are separate arrays. */
    ghost predicate Valid()
      reads this
    {
      && levelsWild.Length == StatCount
      && (levelsDom != null ==> levelsDom.Length == StatCount)
      && valuesBreeding.Length == StatCount
      && valuesDom.Length == StatCount
      && valuesBreeding != valuesDom
      && topBreedingStats.Length == StatCount
    }

    /** The constructor from explicit data. A missing name becomes the empty
        string, missing domesticated levels become eight zeros, a bred
        creature gets taming effectiveness 1, and the found level is computed.
        The guid is not assigned here and stays `Guid.Empty`. */
    constructor (species: Option<string>, name: Option<string>, levelsWild: array<Int32>, levelsDom: array?<Int32>, tamingEff: real,
                 isBred: bool, imprinting: real, levelStep: Option<Int32>)
      requires levelsWild.Length == StatCount
      requires levelsDom != null ==> levelsDom.Length == StatCount
      ensures Valid()
      ensures this.species == species
      ensures this.name == if name.Some? then name.value else ""
      ensures this.levelsWild == levelsWild
      ensures levelsDom != null ==> this.levelsDom == levelsDom
      ensures levelsDom == null ==>
        (this.levelsDom != null && fresh(this.levelsDom) && this.levelsDom[..] == [0, 0, 0, 0, 0, 0, 0, 0])
      ensures this.tamingEff == if isBred then 1.0 else tamingEff
      ensures this.isBred == isBred && imprintingBonus == imprinting
      ensures levelFound == FoundLevel(this.isBred, this.tamingEff, LevelHatched(), levelStep)
      ensures guid == EmptyGuid && mother == null && father == null
      ensures motherGuid == EmptyGuid && fatherGuid == EmptyGuid
      ensures generation == 0 && !isPlaceholder && !arkIdImported && arkId == 0
      ensures fresh(valuesBreeding) && fresh(valuesDom) && fresh(topBreedingStats)
    {
      // field initialisers and default values of the fields the body leaves alone
      this.valuesBreeding, this.valuesDom := new real[StatCount], new real[StatCount];
      this.topBreedingStats := new bool[StatCount];
      this.topStatsCount, this.topStatsCountBP := 0, 0;
      this.guid, this.arkId, this.arkIdImported := EmptyGuid, 0, false;
      this.fatherGuid, this.motherGuid, this.father, this.mother := EmptyGuid, EmptyGuid, null, null;
      this.levelFound, this.generation := 0, 0;
      this.mutationsMaternal, this.mutationsPaternal := 0, 0;
      this.isPlaceholder := false;
      this.species := species;
      this.name := if name.Some? then name.value else "";
      this.levelsWild := levelsWild;
      var dom := LevelsOrZeros(levelsDom);
      this.levelsDom := dom;
      this.tamingEff := if isBred then 1.0 else tamingEff;
      this.isBred := isBred;
      imprintingBonus := imprinting;
      new;
      CalculateLevelFound(levelStep);
    }

    /** The placeholder for an ancestor known only by its imported in-game id:
        all wild levels unknown (-1), the guid derived from the id by a
        conversion outside this model. */
    constructor Placeholder(arkId: Int64, arkIdToGuid: Int64 -> Guid)
      ensures Valid()
      ensures this.arkId == arkId && arkIdImported && isPlaceholder
      ensures guid == arkIdToGuid(arkId)
      ensures fresh(levelsWild) && levelsWild[..] == [-1, -1, -1, -1, -1, -1, -1, -1]
      ensures levelsDom == null && species == None && name == ""
      ensures !isBred && tamingEff == 0.0 && levelFound == 0 && generation == 0
      ensures mother == null && father == null && motherGuid == EmptyGuid && fatherGuid == EmptyGuid
    {
      // field initialisers and default values of the fields the body leaves alone
      species, name := None, "";
      levelsDom := null;
      tamingEff, imprintingBonus := 0.0, 0.0;
      valuesBreeding, valuesDom := new real[StatCount], new real[StatCount];
      topBreedingStats := new bool[StatCount];
      topStatsCount, topStatsCountBP := 0, 0;
      isBred := false;
      fatherGuid, motherGuid, father, mother := EmptyGuid, EmptyGuid, null, null;
      levelFound, generation := 0, 0;
      mutationsMaternal, mutationsPaternal := 0, 0;
      this.arkId := arkId;
      arkIdImported := true;
      guid := arkIdToGuid(arkId);
      var unknown := NewLevels(-1);
      levelsWild := unknown;
      isPlaceholder := true;
    }

    /** `Equals(Creature)`: two records are the same creature exactly when
        their guids agree, whatever their other fields hold. */
    predicate Equals(other: Creature)
      reads this`guid, other`guid
    {
      other.guid == guid
    }

    /** `Equals(object)`: false for null and for objects that are not
        creatures. */
    predicate EqualsObject(obj: object?)
      reads this`guid, obj
    {
      obj != null && obj is Creature && Equals(obj as Creature)
    }

    /** `GetHashCode`: the hash of the guid, by a function outside this
        model. */
    function GetHashCode(guidHash: Guid -> Int32): Int32
      reads this`guid
    {
      guidHash(guid)
    }

    /** The total wild level: the torpor level plus one (unchecked `int`
        addition). An unknown torpor level (-1) gives 0. */
    function LevelHatched(): (r: Int32)
      reads this`levelsWild, levelsWild
      requires levelsWild.Length == StatCount
      ensures levelsWild[TorporIndex] < MaxInt32 ==> r == levelsWild[TorporIndex] + 1
      ensures levelsWild[TorporIndex] == MaxInt32 ==> r == MinInt32
    {
      Wrap32(levelsWild[TorporIndex] as int + 1)
    }

    /** The total level: wild level plus the domesticated levels. The sum of
        the domesticated levels is checked and fails (`None`) exactly when a
        partial sum leaves the `int` range; the final addition wraps. A
        creature without domesticated levels (a placeholder) fails too: the
        sum of a null array raises `ArgumentNullException`. */
    function Level(): (r: Option<Int32>)
      reads this`levelsWild, this`levelsDom, levelsWild, levelsDom
      requires levelsWild.Length == StatCount
      ensures levelsDom == null ==> r.None?
      ensures levelsDom != null ==>
        (r.Some? <==> forall k :: 0 < k <= levelsDom.Length ==> InInt32(Sum(levelsDom[..k])))
      ensures r.Some? ==> levelsDom != null && r.value == Wrap32(LevelHatched() + Sum(levelsDom[..]))
    {
      if levelsDom == null then None
      else
        match CheckedSum(levelsDom[..])
        case None => None
        case Some(dom) => Some(Wrap32(LevelHatched() + dom))
    }

    /** The number of mutations inherited from both lines (unchecked `int`
        addition: two counters whose sum exceeds the range wrap to a negative
        total). */
    function Mutations(): (r: Int32)
      reads this`mutationsMaternal, this`mutationsPaternal
      ensures InInt32(mutationsMaternal + mutationsPaternal) ==> r == mutationsMaternal + mutationsPaternal
      ensures mutationsMaternal + mutationsPaternal > MaxInt32 ==> r < 0
    {
      Wrap32(mutationsMaternal as int + mutationsPaternal)
    }

    /** `calculateLevelFound`: 0 for bred creatures and unknown taming
        effectiveness, the reconstructed capture level otherwise. */
    method CalculateLevelFound(levelStep: Option<Int32>)
      requires levelsWild.Length == StatCount
      modifies this`levelFound
      ensures old(Valid()) ==> Valid()
      ensures levelFound == FoundLevel(isBred, tamingEff, LevelHatched(), levelStep)
      ensures isBred || tamingEff < 0.0 ==> levelFound == 0
    {
      levelFound := 0;
      if !isBred && tamingEff >= 0.0 {
        levelFound := EstimateWildLevel(LevelHatched(), tamingEff, levelStep);
      }
    }

    /** `ancestorGenerations(g)`: the number of generations up to the oldest
        known ancestor, walking the live parent links. A bred creature with no
        known parent counts as generation 1. The walk gives up below depth 99,
        so a lineage that loops back on itself still ends. */
    function AncestorGenerations(g: int, ghost herd: set<Creature>): (r: int)
      requires this in herd && ParentsWithin(herd)
      reads herd`mother, herd`father, herd`isBred
      ensures g > 99 ==> r == 0
      ensures g <= 99 ==> 0 <= r <= 100 - g
      decreases 100 - g
    {
      if g > 99 then 0
      else
        var mgen := if mother != null then mother.AncestorGenerations(g + 1, herd) + 1 else 0;
        var fgen := if father != null then father.AncestorGenerations(g + 1, herd) + 1 else 0;
        if isBred && mgen == 0 && fgen == 0 then 1
        else if mgen > fgen then mgen else fgen
    }

    /** `recalculateAncestorGenerations`: caches the generation count. */
    method RecalculateAncestorGenerations(ghost herd: set<Creature>)
      requires this in herd && ParentsWithin(herd)
      modifies this`generation
      ensures old(Valid()) ==> Valid()
      ensures generation == AncestorGenerations(0, herd)
      ensures 0 <= generation <= 100
    {
      generation := AncestorGenerations(0, herd);
    }

    /** The `Mother` setter: links the parent and keeps its guid beside it,
        `Guid.Empty` when the link is cleared. */
    method SetMother(m: Creature?)
      modifies this`mother, this`motherGuid
      ensures old(Valid()) ==> Valid()
      ensures mother == m
      ensures motherGuid == if m != null then m.guid else EmptyGuid
    {
      mother := m;
      motherGuid := if mother != null then mother.guid else EmptyGuid;
    }

    /** The `Father` setter, as the `Mother` setter. */
    method SetFather(f: Creature?)
      modifies this`father, this`fatherGuid
      ensures old(Valid()) ==> Valid()
      ensures father == f
      ensures fatherGuid == if f != null then f.guid else EmptyGuid
    {
      father := f;
      fatherGuid := if father != null then father.guid else EmptyGuid;
    }

    /** `setTopStatCount`: counts the top stats the caller highlights (torpor
        included) and the top stats other than torpor. An array shorter than
        the scan needs raises an exception before either count is stored:
        `ok` is then false and both counts keep their old values. */
    method SetTopStatCount(considerStatHighlight: array<bool>) returns (ok: bool)
      modifies this`topStatsCount, this`topStatsCountBP
      ensures old(Valid()) ==> Valid()
      ensures ok <==> ScannableUpTo(topBreedingStats[..], considerStatHighlight[..], StatCount)
      ensures ok ==> topStatsCount == HighlightCount(topBreedingStats[..], considerStatHighlight[..], StatCount)
      ensures ok ==> topStatsCountBP == BreedingPlannerCount(topBreedingStats[..], StatCount)
      ensures !ok ==> topStatsCount == old(topStatsCount) && topStatsCountBP == old(topStatsCountBP)
    {
      var counts := CountTopStats(topBreedingStats, considerStatHighlight);
      ok := counts.Some?;
      if ok {
        topStatsCount := counts.value.highlighted;
        topStatsCountBP := counts.value.breedingPlanner;
      }
    }

    /** `recalculateCreatureValues`: when the species is in the table, both
        value arrays are overwritten stat by stat; otherwise they keep their
        old contents. The found level is recomputed either way. */
    method RecalculateCreatureValues(levelStep: Option<Int32>, speciesNames: seq<string>, statValue: ValueFunction)
      requires Valid()
      requires IndexOf(speciesNames, species) >= 0 ==> levelsDom != null
      modifies valuesBreeding, valuesDom, this`levelFound
      ensures Valid()
      ensures IndexOf(speciesNames, species) < 0 ==>
        valuesBreeding[..] == old(valuesBreeding[..]) && valuesDom[..] == old(valuesDom[..])
      ensures var i := IndexOf(speciesNames, species);
        i >= 0 ==> forall s :: 0 <= s < StatCount ==>
          && valuesBreeding[s] == BreedingValue(statValue, i, s, levelsWild[s])
          && valuesDom[s] == DomesticatedValue(statValue, i, s, levelsWild[s], levelsDom[s], tamingEff, imprintingBonus)
      ensures levelFound == FoundLevel(isBred, tamingEff, LevelHatched(), levelStep)
    {
      var speciesIndex := IndexOf(speciesNames, species);
      if speciesIndex >= 0 {
        for s := 0 to StatCount
          invariant forall t :: 0 <= t < s ==>
            && valuesBreeding[t] == BreedingValue(statValue, speciesIndex, t, levelsWild[t])
            && valuesDom[t] == DomesticatedValue(statValue, speciesIndex, t, levelsWild[t], levelsDom[t], tamingEff, imprintingBonus)
        {
          valuesBreeding[s] := BreedingValue(statValue, speciesIndex, s, levelsWild[s]);
          valuesDom[s] := DomesticatedValue(statValue, speciesIndex, s, levelsWild[s], levelsDom[s], tamingEff, imprintingBonus);
        }
      }
      CalculateLevelFound(levelStep);
    }
  }

  /** Equality of creatures is an equivalence relation. */
  lemma EqualsIsEquivalence(a: Creature, b: Creature, c: Creature)
    ensures a.Equals(a)
    ensures a.Equals(b) ==> b.Equals(a)
    ensures a.Equals(b) && b.Equals(c) ==> a.Equals(c)
  {
  }

  /** Equal creatures hash alike, as `Equals` and `GetHashCode` require of
      each other. */
  lemma EqualsAgreesWithHash(a: Creature, b: Creature, guidHash: Guid -> Int32)
    ensures a.Equals(b) ==> a.GetHashCode(guidHash) == b.GetHashCode(guidHash)
  {
  }

  /** `Equals(object)` on a creature is `Equals(Creature)`, and null is never
      equal to a creature. */
  lemma EqualsObjectAgrees(a: Creature, b: Creature)
    ensures a.EqualsObject(b) <==> a.Equals(b)
    ensures !a.EqualsObject(null)
  {
  }

  /** A sum of entries between 0 and `bound` lies between 0 and `bound` times
      the number of entries. */
  lemma {:induction false} SumWithin(xs: seq<int>, bound: int)
    requires forall i :: 0 <= i < |xs| ==> 0 <= xs[i] <= bound
    ensures 0 <= Sum(xs) <= |xs| * bound
  {
    if xs != [] {
      var init := xs[..|xs| - 1];
      SumWithin(init, bound);
      assert |xs| * bound == |init| * bound + bound;
    }
  }

  /** For ordinary levels (domesticated levels and the torpor level up to a
      million), no partial sum overflows and the total level is the hatched
      level plus the domesticated levels. */
  lemma OrdinaryLevel(c: Creature)
    requires c.levelsWild.Length == StatCount && c.levelsDom != null && c.levelsDom.Length == StatCount
    requires -1 <= c.levelsWild[TorporIndex] <= 1_000_000
    requires forall s :: 0 <= s < StatCount ==> 0 <= c.levelsDom[s] <= 1_000_000
    ensures c.Level() == Some(c.levelsWild[TorporIndex] + 1 + Sum(c.levelsDom[..]))
  {
    forall k | 0 < k <= c.levelsDom.Length
      ensures InInt32(Sum(c.levelsDom[..k]))
    {
      SumWithin(c.levelsDom[..k], 1_000_000);
    }
    SumWithin(c.levelsDom[..], 1_000_000);
  }

  /** With no domesticated levels spent, the total level is the hatched
      level. */
  lemma UndomesticatedLevel(c: Creature)
    requires c.levelsWild.Length == StatCount && c.levelsDom != null && c.levelsDom.Length == StatCount
    requires forall s :: 0 <= s < StatCount ==> c.levelsDom[s] == 0
    ensures c.Level() == Some(c.LevelHatched())
  {
    forall k | 0 < k <= c.levelsDom.Length
      ensures InInt32(Sum(c.levelsDom[..k]))
    {
      SumWithin(c.levelsDom[..k], 0);
    }
    SumWithin(c.levelsDom[..], 0);
  }

  /** Domesticated levels whose running total passes the `int` range make the
      total level fail with an overflow. */
  lemma LevelOverflow(c: Creature)
    requires c.levelsWild.Length == StatCount && c.levelsDom != null && c.levelsDom.Length == StatCount
    requires c.levelsDom[0] == MaxInt32 && c.levelsDom[1] == 1
    ensures c.Level() == None
  {
    var prefix := c.levelsDom[..2];
    assert prefix[..1][..0] == [];
    assert Sum(prefix[..1]) == MaxInt32;
    assert !InInt32(Sum(prefix));
  }

  /** A placeholder has no domesticated levels, so its total level fails. */
  method PlaceholderLevel(arkId: Int64, arkIdToGuid: Int64 -> Guid) returns (level: Option<Int32>)
    ensures level.None?
  {
    var p := new Creature.Placeholder(arkId, arkIdToGuid);
    level := p.Level();
  }

  /** A fresh level array holding `level` for every stat. */
  method NewLevels(level: Int32) returns (a: array<Int32>)
    ensures fresh(a) && a[..] == [level, level, level, level, level, level, level, level]
  {
    a := new Int32[StatCount](_ => level);
    assert a[..] == [level, level, level, level, level, level, level, level];
  }

  /** `levels ?? new[] { 0, 0, 0, 0, 0, 0, 0, 0 }` */
  method LevelsOrZeros(levels: array?<Int32>) returns (a: array<Int32>)
    ensures levels != null ==> a == levels
    ensures levels == null ==> fresh(a) && a[..] == [0, 0, 0, 0, 0, 0, 0, 0]
  {
    if levels != null {
      a := levels;
    } else {
      a := NewLevels(0);
    }
  }

  /** Recomputing the values twice in a row gives the same arrays. */
  method RecalculateTwice(c: Creature, levelStep: Option<Int32>, speciesNames: seq<string>, statValue: ValueFunction)
    returns (breeding1: seq<real>, dom1: seq<real>, breeding2: seq<real>, dom2: seq<real>)
    requires c.Valid()
    requires IndexOf(speciesNames, c.species) >= 0 ==> c.levelsDom != null
    modifies c.valuesBreeding, c.valuesDom, c`levelFound
    ensures breeding1 == breeding2 && dom1 == dom2
  {
    c.RecalculateCreatureValues(levelStep, speciesNames, statValue);
    breeding1, dom1 := c.valuesBreeding[..], c.valuesDom[..];
    c.RecalculateCreatureValues(levelStep, speciesNames, statValue);
    breeding2, dom2 := c.valuesBreeding[..], c.valuesDom[..];
  }
}
