/** The seed `init` writes into a new depot. */
module Graines {
  import opened Texte
  import Equipements

  /** A seed record: every one starts from the same leather outfit and long
      sword, with its own bonuses for hands, legs, feet and weapon. */
  function Graine(numero: nat, mains: int, pantalons: int, bottes: int, arme: int,
                  typeEquipement: string, nom: string, puissance: int): (e: Equipements.Equipement)
    ensures e.numero == numero && e.typeEquipement == typeEquipement && e.nom == nom && e.puissance == puissance
  {
    Equipements.Equipement(numero, 100, 10, 10, CASQUE, 1, PLASTRON, 1, GANTS, mains,
               PANTALONS, pantalons, BOTTES, bottes, EPEE, arme,
               typeEquipement, nom, puissance)
  }

  /** The outfit every seed record wears. */
  const CASQUE: string := "Casque de cuir"
  const PLASTRON: string := "Plastron de cuir"
  const GANTS: string := "Gants de cuir"
  const PANTALONS: string := "Pantalons de cuir"
  const BOTTES: string := "Bottes de cuir"
  const EPEE: string := "Epee longue"

  /** The records whose CSV lines (separator ':') `init` writes, in order. */
  const GRAINE: seq<Equipements.Equipement> :=
    [
     Graine(0, 1, 1, 1, 1, "Tete", "Casque de cuir", 1),
     Graine(1, 1, 1, 1, 1, "Torse", "Plastron de cuir", 1),
     Graine(2, 2, 5, 3, 2, "Mains", "Gants de cuir", 1),
     Graine(3, 3, 6, 4, 3, "Pantalons", "Pantalons de cuir", 1),
     Graine(4, 4, 7, 6, 5, "Bottes", "Bottes de cuir", 1),
     Graine(5, 4, 7, 6, 5, "Tete", "Casque de fer", 5),
     Graine(6, 4, 7, 6, 5, "Torse", "Plastron de fer", 5),
     Graine(7, 4, 7, 6, 5, "Mains", "Gant de fer", 5),
     Graine(8, 4, 7, 6, 5, "Pantalons", "Pantalons de fer", 5),
     Graine(9, 4, 7, 6, 5, "Bottes", "Bottes de fer", 5),
     Graine(10, 4, 7, 6, 5, "Tete", "Casque legendaire", 20),
     Graine(11, 4, 7, 6, 5, "Torse", "Plastron legendaire", 20),
     Graine(12, 4, 7, 6, 5, "Mains", "Gants legendaires", 20),
     Graine(13, 4, 7, 6, 5, "Pantalons", "Pantalons legendaires", 20),
     Graine(14, 4, 7, 6, 5, "Bottes", "Bottes legendaires", 20),
     Graine(15, 4, 7, 6, 5, "Arme", "Epee longue", 1),
     Graine(16, 4, 7, 6, 5, "Arme", "Epee courte", 5),
     Graine(17, 4, 7, 6, 5, "Arme", "Hache de fer", 25),
     Graine(18, 4, 7, 6, 5, "Arme", "Dague en or", 50),
     Graine(19, 4, 7, 6, 5, "Arme", "Arc legendaire", 100)
    ]

  /** What `init` writes for a list of seed records: the CSV line of each
      (separator ':'), each followed by a newline. `init` writes it for
      `GRAINE`. */
  function ContenuDe(g: seq<Equipements.Equipement>): string {
    Lignes(seq(|g|, i requires 0 <= i < |g| => Equipements.VersCsv(g[i], ':')))
  }

  /** What `f << ligne + "\\n"` writes for each line, in order. */
  function Lignes(ls: seq<string>): string {
    if ls == [] then [] else ls[0] + "\n" + Lignes(ls[1..])
  }
}
