/** The species table the creature consults: the list of species names, and
    the per-species stat value function, which lies outside this model and
    is passed in as a parameter. */
module SpeciesValues {
  import opened Primitives

  /** `Stats.calculateValue(speciesIndex, stat, levelWild, levelDom, dom,
      tamingEff, imprintingBonus)`: the stat value of a creature of the given
      species with the given levels. */
  type ValueFunction = (nat, nat, int, int, bool, real, real) -> real

  /** `List<string>.IndexOf`: the position of the first name equal to `key`,
      or -1 when there is none. A null key (`None`) matches no name. */
  function IndexOf(names: seq<string>, key: Option<string>): (i: int)
    ensures -1 <= i < |names|
    ensures i == -1 <==> key.None? || key.value !in names
    ensures i >= 0 ==> key == Some(names[i]) && forall j :: 0 <= j < i ==> names[j] != names[i]
  {
    if names == [] then -1
    else if key == Some(names[0]) then 0
    else
      var k := IndexOf(names[1..], key);
      if k < 0 then -1 else k + 1
  }

  /** The breeding value of a stat: wild levels only, no domesticated levels,
      taming effectiveness 1 and no imprinting. */
  function BreedingValue(statValue: ValueFunction, speciesIndex: nat, stat: nat, levelWild: int): real {
    statValue(speciesIndex, stat, levelWild, 0, true, 1.0, 0.0)
  }

  /** The current value of a stat: wild and domesticated levels with the
      creature's own taming effectiveness and imprinting bonus. */
  function DomesticatedValue(statValue: ValueFunction, speciesIndex: nat, stat: nat, levelWild: int,
                             levelDom: int, tamingEff: real, imprintingBonus: real): real {
    statValue(speciesIndex, stat, levelWild, levelDom, true, tamingEff, imprintingBonus)
  }
}
