/** The item class as the text store sees it: the CSV format, and the seed
    `init` writes read back through it. */
module DepotEquipements {
  import opened Wrappers
  import opened Texte
  import opened Numeros
  import opened Equipements
  import opened BdTexte
  import opened Graines

  /** `to_csv` and `new_from_csv`, both with ':' when the store passes no
      separator. */
  function CodecCsv(): Codec<Equipement> {
    Codec((e: Equipement, s: Option<char>) => VersCsv(e, s.GetOr(':')),
          (l: string, s: Option<char>) => DepuisCsv(l, s.GetOr(':')))
  }

  /** `Equipement` as handed to `config`: it answers to the CSV format only
      (its JSON conversion is not part of this model). */
  function KlasseEquipement(numeros: NumeroMax): Klasse<Equipement> {
    Klasse(map["csv" := CodecCsv()], (e: Equipement) => e.numero, numeros)
  }

  /** An item a CSV store with separator `sep` writes on one line and reads
      back unchanged. */
  predicate Stockable(e: Equipement, sep: char) {
    Transportable(e, sep) && sep != '\n' && SansSautDeLigne(e)
  }

  /** The configuration of a CSV store of items. */
  function ConfigCsv(numeros: NumeroMax, sep: Option<char>): (c: Config<Equipement>)
    ensures ConfigValide(c)
  {
    Config(KlasseEquipement(numeros), "csv", sep)
  }

  /** What `sauver` writes to a CSV store of items, `charger` reads back. */
  lemma SauverChargerCsv(numeros: NumeroMax, sep: Option<char>, xs: seq<Equipement>)
    requires forall i :: 0 <= i < |xs| ==> Stockable(xs[i], sep.GetOr(':'))
    ensures DecoderTout(ConfigCsv(numeros, sep), Readlines(Texte.Ecrire(Encodes(ConfigCsv(numeros, sep), xs)))) == Ok(xs)
  {
    var c := ConfigCsv(numeros, sep);
    forall i | 0 <= i < |xs|
      ensures '\n' !in Encoder(c, xs[i]) && Decoder(c, Encoder(c, xs[i]) + "\n") == Ok(xs[i])
    {
      VersCsvUneLigne(xs[i], sep.GetOr(':'));
      DepuisVersCsv(xs[i], sep.GetOr(':'));
    }
    SauverCharger(c, xs);
  }

  /** What `init` writes for a list of records, a CSV store with the
      separator ':' (given or by default) reads back as that list. */
  lemma ChargerContenuDe(numeros: NumeroMax, sep: Option<char>, g: seq<Equipement>)
    requires sep.GetOr(':') == ':'
    requires forall i :: 0 <= i < |g| ==> Stockable(g[i], ':')
    ensures DecoderTout(ConfigCsv(numeros, sep), Readlines(ContenuDe(g))) == Ok(g)
  {
    var c := ConfigCsv(numeros, sep);
    var ls := seq(|g|, i requires 0 <= i < |g| => VersCsv(g[i], ':'));
    forall i | 0 <= i < |g| ensures '\n' !in ls[i] {
      VersCsvUneLigne(g[i], ':');
    }
    LignesEcrire(ls);
    assert Encodes(c, g) == ls;
    SauverChargerCsv(numeros, sep, g);
  }

  /** `init` then `charger` on a CSV store of items with the separator ':'
      (given or by default): the seed comes back, record for record. */
  lemma ChargerGraine(numeros: NumeroMax, sep: Option<char>)
    requires sep.GetOr(':') == ':'
    ensures DecoderTout(ConfigCsv(numeros, sep), Readlines(ContenuDe(GRAINE))) == Ok(GRAINE)
  {
    forall i | 0 <= i < |GRAINE| ensures Stockable(GRAINE[i], ':') {
      GraineStockable(i);
    }
    ChargerContenuDe(numeros, sep, GRAINE);
  }

  /** Every seed record is stored on one line and read back. */
  lemma GraineStockable(i: nat)
    requires i < |GRAINE|
    ensures Stockable(GRAINE[i], ':')
  {
    if i == 0 {
      Graine0();
    } else if i == 1 {
      Graine1();
    } else if i == 2 {
      Graine2();
    } else if i == 3 {
      Graine3();
    } else if i == 4 {
      Graine4();
    } else if i == 5 {
      Graine5();
    } else if i == 6 {
      Graine6();
    } else if i == 7 {
      Graine7();
    } else if i == 8 {
      Graine8();
    } else if i == 9 {
      Graine9();
    } else if i == 10 {
      Graine10();
    } else if i == 11 {
      Graine11();
    } else if i == 12 {
      Graine12();
    } else if i == 13 {
      Graine13();
    } else if i == 14 {
      Graine14();
    } else if i == 15 {
      Graine15();
    } else if i == 16 {
      Graine16();
    } else if i == 17 {
      Graine17();
    } else if i == 18 {
      Graine18();
    } else {
      Graine19();
    }
  }

  lemma Graine0() ensures Stockable(GRAINE[0], ':') { GraineSure(0, 1, 1, 1, 1, "Tete", "Casque de cuir", 1); }
  lemma Graine1() ensures Stockable(GRAINE[1], ':') { GraineSure(1, 1, 1, 1, 1, "Torse", "Plastron de cuir", 1); }
  lemma Graine2() ensures Stockable(GRAINE[2], ':') { GraineSure(2, 2, 5, 3, 2, "Mains", "Gants de cuir", 1); }
  lemma Graine3() ensures Stockable(GRAINE[3], ':') { GraineSure(3, 3, 6, 4, 3, "Pantalons", "Pantalons de cuir", 1); }
  lemma Graine4() ensures Stockable(GRAINE[4], ':') { GraineSure(4, 4, 7, 6, 5, "Bottes", "Bottes de cuir", 1); }
  lemma Graine5() ensures Stockable(GRAINE[5], ':') { GraineSure(5, 4, 7, 6, 5, "Tete", "Casque de fer", 5); }
  lemma Graine6() ensures Stockable(GRAINE[6], ':') { GraineSure(6, 4, 7, 6, 5, "Torse", "Plastron de fer", 5); }
  lemma Graine7() ensures Stockable(GRAINE[7], ':') { GraineSure(7, 4, 7, 6, 5, "Mains", "Gant de fer", 5); }
  lemma Graine8() ensures Stockable(GRAINE[8], ':') { GraineSure(8, 4, 7, 6, 5, "Pantalons", "Pantalons de fer", 5); }
  lemma Graine9() ensures Stockable(GRAINE[9], ':') { GraineSure(9, 4, 7, 6, 5, "Bottes", "Bottes de fer", 5); }
  lemma Graine10() ensures Stockable(GRAINE[10], ':') { GraineSure(10, 4, 7, 6, 5, "Tete", "Casque legendaire", 20); }
  lemma Graine11() ensures Stockable(GRAINE[11], ':') { GraineSure(11, 4, 7, 6, 5, "Torse", "Plastron legendaire", 20); }
  lemma Graine12() ensures Stockable(GRAINE[12], ':') { GraineSure(12, 4, 7, 6, 5, "Mains", "Gants legendaires", 20); }
  lemma Graine13() ensures Stockable(GRAINE[13], ':') { GraineSure(13, 4, 7, 6, 5, "Pantalons", "Pantalons legendaires", 20); }
  lemma Graine14() ensures Stockable(GRAINE[14], ':') { GraineSure(14, 4, 7, 6, 5, "Bottes", "Bottes legendaires", 20); }
  lemma Graine15() ensures Stockable(GRAINE[15], ':') { GraineSure(15, 4, 7, 6, 5, "Arme", "Epee longue", 1); }
  lemma Graine16() ensures Stockable(GRAINE[16], ':') { GraineSure(16, 4, 7, 6, 5, "Arme", "Epee courte", 5); }
  lemma Graine17() ensures Stockable(GRAINE[17], ':') { GraineSure(17, 4, 7, 6, 5, "Arme", "Hache de fer", 25); }
  lemma Graine18() ensures Stockable(GRAINE[18], ':') { GraineSure(18, 4, 7, 6, 5, "Arme", "Dague en or", 50); }
  lemma Graine19() ensures Stockable(GRAINE[19], ':') { GraineSure(19, 4, 7, 6, 5, "Arme", "Arc legendaire", 100); }

  /** A seed record whose type and name hold neither ':' nor a newline is
      stored on one line and read back. */
  lemma GraineSure(numero: nat, mains: int, pantalons: int, bottes: int, arme: int,
                   typeEquipement: string, nom: string, puissance: int)
    requires ':' !in typeEquipement && ':' !in nom && '\n' !in typeEquipement && '\n' !in nom
    ensures Stockable(Graine(numero, mains, pantalons, bottes, arme, typeEquipement, nom, puissance), ':')
  {
    var e := Graine(numero, mains, pantalons, bottes, arme, typeEquipement, nom, puissance);
    TenueSure();
    StockableChamps(e, ':');
  }

  /** The seed outfit's names hold neither ':' nor a newline. */
  lemma TenueSure()
    ensures ':' !in CASQUE && '\n' !in CASQUE && ':' !in PLASTRON && '\n' !in PLASTRON
    ensures ':' !in GANTS && '\n' !in GANTS && ':' !in PANTALONS && '\n' !in PANTALONS
    ensures ':' !in BOTTES && '\n' !in BOTTES && ':' !in EPEE && '\n' !in EPEE
  {
    CasqueSur();
    PlastronSur();
    GantsSur();
    PantalonsSur();
    BottesSur();
    EpeeSur();
  }

  lemma CasqueSur() ensures ':' !in CASQUE && '\n' !in CASQUE {}
  lemma PlastronSur() ensures ':' !in PLASTRON && '\n' !in PLASTRON {}
  lemma GantsSur() ensures ':' !in GANTS && '\n' !in GANTS {}
  lemma PantalonsSur() ensures ':' !in PANTALONS && '\n' !in PANTALONS {}
  lemma BottesSur() ensures ':' !in BOTTES && '\n' !in BOTTES {}
  lemma EpeeSur() ensures ':' !in EPEE && '\n' !in EPEE {}

  /** An item is stored and read back when the separator suits and no text
      field holds it or a newline. */
  lemma StockableChamps(e: Equipement, sep: char)
    requires SeparateurSur(sep) && sep != '\n'
    requires sep !in e.tete && sep !in e.torse && sep !in e.mains && sep !in e.pantalons
    requires sep !in e.bottes && sep !in e.arme && sep !in e.typeEquipement && sep !in e.nom
    requires '\n' !in e.tete && '\n' !in e.torse && '\n' !in e.mains && '\n' !in e.pantalons
    requires '\n' !in e.bottes && '\n' !in e.arme && '\n' !in e.typeEquipement && '\n' !in e.nom
    ensures Stockable(e, sep)
  {
  }
}
