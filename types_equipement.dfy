/** The item types `remplacer_tous_equipements` goes through, and their
    downcased names, which `equiper` turns into setter names. */
module TypesEquipement {
  import Texte

  /** The types as the seed and `equiper` name them. */
  const TYPES: seq<string> := ["Tete", "Torse", "Mains", "Pantalons", "Bottes", "Arme"]

  /** The types as `remplacer_tous_equipements` lists them: the chest as `Plastron`. */
  const TYPES_TEL_QUEL: seq<string> := ["Tete", "Plastron", "Mains", "Pantalons", "Bottes", "Arme"]

  /** The six slot names. */
  const EMPLACEMENTS: seq<string> := ["tete", "torse", "mains", "pantalons", "bottes", "arme"]

  /** `downcase` turns each corrected type into its slot name. */
  lemma TypesMinuscules(k: nat)
    requires k < |TYPES|
    ensures |TYPES| == |EMPLACEMENTS|
    ensures Texte.Minuscules(TYPES[k]) == EMPLACEMENTS[k]
  {
    if k == 0 {
      MinusculesEgal("Tete", "tete");
    } else if k == 1 {
      MinusculesEgal("Torse", "torse");
    } else if k == 2 {
      MinusculesEgal("Mains", "mains");
    } else if k == 3 {
      MinusculesEgal("Pantalons", "pantalons");
    } else if k == 4 {
      MinusculesEgal("Bottes", "bottes");
    } else {
      MinusculesEgal("Arme", "arme");
    }
  }

  /** The source's list differs from the corrected one only at the chest,
      which `downcase` turns into `plastron`, a name no slot has. */
  lemma TypesTelQuel()
    ensures TYPES_TEL_QUEL == TYPES[1 := "Plastron"]
    ensures Texte.Minuscules(TYPES_TEL_QUEL[1]) == "plastron"
    ensures "plastron" !in EMPLACEMENTS
  {
    MinusculesEgal("Plastron", "plastron");
  }

  /** The six slot names are different. */
  lemma EmplacementsDistincts(k1: nat, k2: nat)
    requires k1 < k2 < |EMPLACEMENTS|
    ensures EMPLACEMENTS[k1] != EMPLACEMENTS[k2]
  {
    assert EMPLACEMENTS[k1][0] != EMPLACEMENTS[k2][0] || |EMPLACEMENTS[k1]| != |EMPLACEMENTS[k2]|;
  }

  /** Two strings related character by character by `MinusculeCar`. */
  lemma MinusculesEgal(s: string, m: string)
    requires |s| == |m|
    requires forall i :: 0 <= i < |s| ==> Texte.MinusculeCar(s[i]) == m[i]
    ensures Texte.Minuscules(s) == m
  {
  }
}
