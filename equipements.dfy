/** An item of the hero's equipment (`GestionEquipements::Equipement`): its
    nineteen fields, the field-by-field comparison, its CSV line and its
    display table. The class-level state (`numero_max`, `comparateurs`) is
    `EquipementClasse`. */
module Equipements {
  import opened Wrappers
  import opened Texte
  import opened Interpreteur
  import opened Numeros

  /** The fields, in READERS order. The six slots (head, chest, hands, legs,
      feet, weapon) each hold an item name and its bonus; the type is the
      name of the item's Symbol. */
  datatype Equipement = Equipement(
    numero: nat, vie: int, attaque: int, defense: int,
    tete: string, tetedefense: int, torse: string, torsedefense: int,
    mains: string, mainsdefense: int, pantalons: string, pantalonsdefense: int,
    bottes: string, bottesdefense: int, arme: string, armeattaque: int,
    typeEquipement: string, nom: string, puissance: int)

  /** `Equipement.new`: the number must be a non-negative integer (that the
      type is a `Symbol` is given by the types). */
  function NouvelEquipement(numero: int, vie: int, attaque: int, defense: int,
                            tete: string, tetedefense: int, torse: string, torsedefense: int,
                            mains: string, mainsdefense: int, pantalons: string, pantalonsdefense: int,
                            bottes: string, bottesdefense: int, arme: string, armeattaque: int,
                            typeEquipement: string, nom: string, puissance: int): (r: Result<Equipement>)
    ensures r.Ok? <==> numero >= 0
    ensures r.Err? ==> r.error == Precondition
    ensures r.Ok? ==> (r.value.numero == numero && r.value.vie == vie && r.value.attaque == attaque
                       && r.value.defense == defense && r.value.typeEquipement == typeEquipement
                       && r.value.nom == nom && r.value.puissance == puissance)
    ensures r.Ok? ==> (r.value.tete == tete && r.value.tetedefense == tetedefense && r.value.torse == torse
                       && r.value.torsedefense == torsedefense && r.value.mains == mains
                       && r.value.mainsdefense == mainsdefense && r.value.pantalons == pantalons
                       && r.value.pantalonsdefense == pantalonsdefense && r.value.bottes == bottes
                       && r.value.bottesdefense == bottesdefense && r.value.arme == arme
                       && r.value.armeattaque == armeattaque)
  {
    if numero < 0 then Err(Precondition)
    else Ok(Equipement(numero, vie, attaque, defense, tete, tetedefense, torse, torsedefense,
                       mains, mainsdefense, pantalons, pantalonsdefense, bottes, bottesdefense,
                       arme, armeattaque, typeEquipement, nom, puissance))
  }

  // ---------------------------------------------------------------------
  // Fields by name: READERS, `send(champ)`
  // ---------------------------------------------------------------------

  datatype Champ =
    | Numero | Vie | Attaque | Defense
    | Tete | TeteDefense | Torse | TorseDefense | Mains | MainsDefense
    | Pantalons | PantalonsDefense | Bottes | BottesDefense | Arme | ArmeAttaque
    | Type | Nom | Puissance

  /** The reader's name of each field. */
  function NomDe(c: Champ): string {
    match c
    case Numero => "numero"
    case Vie => "vie"
    case Attaque => "attaque"
    case Defense => "defense"
    case Tete => "tete"
    case TeteDefense => "tetedefense"
    case Torse => "torse"
    case TorseDefense => "torsedefense"
    case Mains => "mains"
    case MainsDefense => "mainsdefense"
    case Pantalons => "pantalons"
    case PantalonsDefense => "pantalonsdefense"
    case Bottes => "bottes"
    case BottesDefense => "bottesdefense"
    case Arme => "arme"
    case ArmeAttaque => "armeattaque"
    case Type => "type"
    case Nom => "nom"
    case Puissance => "puissance"
  }

  /** READERS + ACCESSORS (the two lists are the same). */
  const NOMS_CHAMPS: set<string> :=
    {"numero", "vie", "attaque", "defense", "tete", "tetedefense", "torse", "torsedefense",
     "mains", "mainsdefense", "pantalons", "pantalonsdefense", "bottes", "bottesdefense",
     "arme", "armeattaque", "type", "nom", "puissance"}

  /** The field a name designates, if any. */
  function ChampDe(nom: string): (r: Option<Champ>)
    ensures r.Some? <==> nom in NOMS_CHAMPS
    ensures r.Some? ==> NomDe(r.value) == nom
  {
    if nom == "numero" then Some(Numero)
    else if nom == "vie" then Some(Vie)
    else if nom == "attaque" then Some(Attaque)
    else if nom == "defense" then Some(Defense)
    else if nom == "tete" then Some(Tete)
    else if nom == "tetedefense" then Some(TeteDefense)
    else if nom == "torse" then Some(Torse)
    else if nom == "torsedefense" then Some(TorseDefense)
    else if nom == "mains" then Some(Mains)
    else if nom == "mainsdefense" then Some(MainsDefense)
    else if nom == "pantalons" then Some(Pantalons)
    else if nom == "pantalonsdefense" then Some(PantalonsDefense)
    else if nom == "bottes" then Some(Bottes)
    else if nom == "bottesdefense" then Some(BottesDefense)
    else if nom == "arme" then Some(Arme)
    else if nom == "armeattaque" then Some(ArmeAttaque)
    else if nom == "type" then Some(Type)
    else if nom == "nom" then Some(Nom)
    else if nom == "puissance" then Some(Puissance)
    else None
  }

  /** Every field is found again from its name. */
  lemma ChampDeNomDe(c: Champ)
    ensures ChampDe(NomDe(c)) == Some(c)
  {
  }

  /** `comparateurs=`: every name must be a field name. */
  function ChampsDe(noms: seq<string>): (r: Option<seq<Champ>>)
    ensures r.Some? <==> forall i :: 0 <= i < |noms| ==> noms[i] in NOMS_CHAMPS
    ensures r.Some? ==> |r.value| == |noms| && forall i :: 0 <= i < |noms| ==> NomDe(r.value[i]) == noms[i]
  {
    if noms == [] then Some([])
    else match ChampDe(noms[0])
      case None => None
      case Some(c) =>
        match ChampsDe(noms[1..])
        case None => None
        case Some(cs) => Some([c] + cs)
  }

  /** A field's value: an Integer or a String (the type is read as its name). */
  datatype Donnee = Nombre(n: int) | Mot(s: string)

  predicate EstNombre(c: Champ) {
    !(c.Tete? || c.Torse? || c.Mains? || c.Pantalons? || c.Bottes? || c.Arme? || c.Type? || c.Nom?)
  }

  /** `send(champ)`. */
  function Lire(c: Champ, e: Equipement): (d: Donnee)
    ensures d.Nombre? <==> EstNombre(c)
  {
    match c
    case Numero => Nombre(e.numero)
    case Vie => Nombre(e.vie)
    case Attaque => Nombre(e.attaque)
    case Defense => Nombre(e.defense)
    case Tete => Mot(e.tete)
    case TeteDefense => Nombre(e.tetedefense)
    case Torse => Mot(e.torse)
    case TorseDefense => Nombre(e.torsedefense)
    case Mains => Mot(e.mains)
    case MainsDefense => Nombre(e.mainsdefense)
    case Pantalons => Mot(e.pantalons)
    case PantalonsDefense => Nombre(e.pantalonsdefense)
    case Bottes => Mot(e.bottes)
    case BottesDefense => Nombre(e.bottesdefense)
    case Arme => Mot(e.arme)
    case ArmeAttaque => Nombre(e.armeattaque)
    case Type => Mot(e.typeEquipement)
    case Nom => Mot(e.nom)
    case Puissance => Nombre(e.puissance)
  }

  /** Two items are the same item when every field reads the same. */
  lemma LireDetermine(a: Equipement, b: Equipement)
    requires forall c :: Lire(c, a) == Lire(c, b)
    ensures a == b
  {
    LireDetermineBase(a, b);
    LireDetermineHaut(a, b);
    LireDetermineBas(a, b);
  }

  /** The fields that are no slot read the same. */
  lemma LireDetermineBase(a: Equipement, b: Equipement)
    requires forall c :: Lire(c, a) == Lire(c, b)
    ensures a.numero == b.numero && a.vie == b.vie
    ensures a.attaque == b.attaque && a.defense == b.defense
    ensures a.typeEquipement == b.typeEquipement && a.nom == b.nom
    ensures a.puissance == b.puissance
  {
    assert a.numero == b.numero by { assert Lire(Numero, a) == Lire(Numero, b); }
    assert a.vie == b.vie by { assert Lire(Vie, a) == Lire(Vie, b); }
    assert a.attaque == b.attaque by { assert Lire(Attaque, a) == Lire(Attaque, b); }
    assert a.defense == b.defense by { assert Lire(Defense, a) == Lire(Defense, b); }
    assert a.typeEquipement == b.typeEquipement by { assert Lire(Type, a) == Lire(Type, b); }
    assert a.nom == b.nom by { assert Lire(Nom, a) == Lire(Nom, b); }
    assert a.puissance == b.puissance by { assert Lire(Puissance, a) == Lire(Puissance, b); }
  }

  /** The head, chest and hands slots read the same. */
  lemma LireDetermineHaut(a: Equipement, b: Equipement)
    requires forall c :: Lire(c, a) == Lire(c, b)
    ensures a.tete == b.tete && a.tetedefense == b.tetedefense
    ensures a.torse == b.torse && a.torsedefense == b.torsedefense
    ensures a.mains == b.mains && a.mainsdefense == b.mainsdefense
  {
    assert a.tete == b.tete by { assert Lire(Tete, a) == Lire(Tete, b); }
    assert a.tetedefense == b.tetedefense by { assert Lire(TeteDefense, a) == Lire(TeteDefense, b); }
    assert a.torse == b.torse by { assert Lire(Torse, a) == Lire(Torse, b); }
    assert a.torsedefense == b.torsedefense by { assert Lire(TorseDefense, a) == Lire(TorseDefense, b); }
    assert a.mains == b.mains by { assert Lire(Mains, a) == Lire(Mains, b); }
    assert a.mainsdefense == b.mainsdefense by { assert Lire(MainsDefense, a) == Lire(MainsDefense, b); }
  }

  /** The legs, feet and weapon slots read the same. */
  lemma LireDetermineBas(a: Equipement, b: Equipement)
    requires forall c :: Lire(c, a) == Lire(c, b)
    ensures a.pantalons == b.pantalons && a.pantalonsdefense == b.pantalonsdefense
    ensures a.bottes == b.bottes && a.bottesdefense == b.bottesdefense
    ensures a.arme == b.arme && a.armeattaque == b.armeattaque
  {
    assert a.pantalons == b.pantalons by { assert Lire(Pantalons, a) == Lire(Pantalons, b); }
    assert a.pantalonsdefense == b.pantalonsdefense by { assert Lire(PantalonsDefense, a) == Lire(PantalonsDefense, b); }
    assert a.bottes == b.bottes by { assert Lire(Bottes, a) == Lire(Bottes, b); }
    assert a.bottesdefense == b.bottesdefense by { assert Lire(BottesDefense, a) == Lire(BottesDefense, b); }
    assert a.arme == b.arme by { assert Lire(Arme, a) == Lire(Arme, b); }
    assert a.armeattaque == b.armeattaque by { assert Lire(ArmeAttaque, a) == Lire(ArmeAttaque, b); }
  }

  // ---------------------------------------------------------------------
  // Comparison: `<=>` over `Equipement.comparateurs`
  // ---------------------------------------------------------------------

  /** `send(champ) <=> autre.send(champ)`: integers numerically, strings and
      symbols by character codes. */
  function CompareChamp(c: Champ, a: Equipement, b: Equipement): (r: int)
    ensures -1 <= r <= 1
  {
    var x := Lire(c, a);
    var y := Lire(c, b);
    if EstNombre(c) then CompareEntiers(x.n, y.n) else CompareChaines(x.s, y.s)
  }

  /** On one field the comparison is antisymmetric, is 0 exactly when the
      field reads the same, and its "not after" relation is transitive. */
  lemma CompareChampOrdre(c: Champ, a: Equipement, b: Equipement, d: Equipement)
    ensures CompareChamp(c, a, b) == -CompareChamp(c, b, a)
    ensures CompareChamp(c, a, b) == 0 <==> Lire(c, a) == Lire(c, b)
    ensures CompareChamp(c, a, b) <= 0 && CompareChamp(c, b, d) <= 0 ==> CompareChamp(c, a, d) <= 0
  {
    if !EstNombre(c) {
      var x, y, z := Lire(c, a).s, Lire(c, b).s, Lire(c, d).s;
      CompareChainesAntisymetrique(x, y);
      if CompareChaines(x, y) <= 0 && CompareChaines(y, z) <= 0 {
        CompareChainesTransitive(x, y, z);
      }
    }
  }

  /** The `reduce(0)` of `<=>`: a non-zero result is kept, a zero one lets the
      next field decide. */
  function Reduire(cs: seq<Champ>, a: Equipement, b: Equipement, acc: int): int
    decreases |cs|
  {
    if cs == [] then acc
    else if acc != 0 then Reduire(cs[1..], a, b, acc)
    else Reduire(cs[1..], a, b, CompareChamp(cs[0], a, b))
  }

  /** `a <=> b` with comparators `cs`. */
  function CompareEquipement(cs: seq<Champ>, a: Equipement, b: Equipement): (r: int)
    ensures -1 <= r <= 1
  {
    ReduireBorne(cs, a, b, 0);
    Reduire(cs, a, b, 0)
  }

  lemma {:induction false} ReduireBorne(cs: seq<Champ>, a: Equipement, b: Equipement, acc: int)
    requires -1 <= acc <= 1
    ensures -1 <= Reduire(cs, a, b, acc) <= 1
    decreases |cs|
  {
    if cs != [] {
      if acc != 0 {
        ReduireBorne(cs[1..], a, b, acc);
      } else {
        ReduireBorne(cs[1..], a, b, CompareChamp(cs[0], a, b));
      }
    }
  }

  /** Once non-zero, the result of the reduction stays as it is. */
  lemma {:induction false} ReduireGarde(cs: seq<Champ>, a: Equipement, b: Equipement, r: int)
    requires r != 0
    ensures Reduire(cs, a, b, r) == r
    decreases |cs|
  {
    if cs != [] {
      ReduireGarde(cs[1..], a, b, r);
    }
  }

  /** The comparison of the first field decides, unless it is 0. */
  lemma CompareEquipementTete(cs: seq<Champ>, a: Equipement, b: Equipement)
    requires cs != []
    ensures CompareEquipement(cs, a, b) ==
      if CompareChamp(cs[0], a, b) != 0 then CompareChamp(cs[0], a, b) else CompareEquipement(cs[1..], a, b)
  {
    if CompareChamp(cs[0], a, b) != 0 {
      ReduireGarde(cs[1..], a, b, CompareChamp(cs[0], a, b));
    }
  }

  /** Swapping the two items negates the comparison. */
  lemma {:induction false} CompareEquipementOppose(cs: seq<Champ>, a: Equipement, b: Equipement)
    ensures CompareEquipement(cs, b, a) == -CompareEquipement(cs, a, b)
    decreases |cs|
  {
    if cs != [] {
      CompareEquipementTete(cs, a, b);
      CompareEquipementTete(cs, b, a);
      CompareChampOrdre(cs[0], a, b, a);
      CompareEquipementOppose(cs[1..], a, b);
    }
  }

  /** The comparison is 0 exactly when every listed field reads the same, and
      otherwise it is the comparison of the first field that differs. */
  lemma {:induction false} CompareEquipementPremierEcart(cs: seq<Champ>, a: Equipement, b: Equipement)
    ensures CompareEquipement(cs, a, b) == 0 <==> forall i :: 0 <= i < |cs| ==> Lire(cs[i], a) == Lire(cs[i], b)
    ensures CompareEquipement(cs, a, b) != 0 ==>
      exists k :: 0 <= k < |cs| && CompareEquipement(cs, a, b) == CompareChamp(cs[k], a, b)
        && forall i :: 0 <= i < k ==> Lire(cs[i], a) == Lire(cs[i], b)
    decreases |cs|
  {
    if cs != [] {
      CompareEquipementTete(cs, a, b);
      CompareChampOrdre(cs[0], a, b, a);
      CompareEquipementPremierEcart(cs[1..], a, b);
      var r := CompareEquipement(cs, a, b);
      if CompareChamp(cs[0], a, b) == 0 {
        if r == 0 {
          forall i | 0 <= i < |cs| ensures Lire(cs[i], a) == Lire(cs[i], b) {
            if i > 0 { assert cs[i] == cs[1..][i - 1]; }
          }
        } else {
          var k :| 0 <= k < |cs[1..]| && r == CompareChamp(cs[1..][k], a, b)
            && forall i :: 0 <= i < k ==> Lire(cs[1..][i], a) == Lire(cs[1..][i], b);
          assert cs[1..][k] == cs[k + 1];
          forall i | 0 <= i < k + 1 ensures Lire(cs[i], a) == Lire(cs[i], b) {
            if i > 0 { assert cs[i] == cs[1..][i - 1]; }
          }
        }
      }
    }
  }

  /** An item compares equal to itself, whatever the comparators. */
  lemma CompareEquipementReflexif(cs: seq<Champ>, e: Equipement)
    ensures CompareEquipement(cs, e, e) == 0
  {
    CompareEquipementPremierEcart(cs, e, e);
  }

  /** "Not after" is transitive: comparing with a common middle item orders
      the outer two. */
  lemma {:induction false} CompareEquipementTransitif(cs: seq<Champ>, a: Equipement, b: Equipement, d: Equipement)
    requires CompareEquipement(cs, a, b) <= 0 && CompareEquipement(cs, b, d) <= 0
    ensures CompareEquipement(cs, a, d) <= 0
    decreases |cs|
  {
    if cs != [] {
      var c := cs[0];
      CompareEquipementTete(cs, a, b);
      CompareEquipementTete(cs, b, d);
      CompareEquipementTete(cs, a, d);
      CompareChampOrdre(c, a, b, d);
      CompareChampOrdre(c, b, d, a);
      CompareChampOrdre(c, a, d, b);
      var x, y := CompareChamp(c, a, b), CompareChamp(c, b, d);
      if x == 0 && y == 0 {
        CompareEquipementTransitif(cs[1..], a, b, d);
      } else if x == 0 {
        assert CompareChamp(c, a, d) == y;
      } else if y == 0 {
        assert CompareChamp(c, a, d) == x;
      }
    }
  }

  // ---------------------------------------------------------------------
  // CSV: `to_csv` and `new_from_csv`
  // ---------------------------------------------------------------------

  /** READERS: the fields in the order `to_csv` writes them. */
  const READERS: seq<Champ> :=
    [Numero, Vie, Attaque, Defense, Tete, TeteDefense, Torse, TorseDefense, Mains, MainsDefense,
     Pantalons, PantalonsDefense, Bottes, BottesDefense, Arme, ArmeAttaque, Type, Nom, Puissance]

  /** Every field is in READERS, under its own name. */
  lemma ReadersComplet(c: Champ)
    ensures c in READERS && |READERS| == 19
    ensures forall i :: 0 <= i < |READERS| ==> NomDe(READERS[i]) in NOMS_CHAMPS
  {
  }

  /** How `join` writes a field: `to_s` for integers, the text as it is. */
  function Ecrire(d: Donnee): string {
    match d
    case Nombre(n) => IntToS(n)
    case Mot(s) => s
  }

  /** How `new_from_csv` reads a field back: `to_i` for the integer fields. */
  function Relire(s: string, nombre: bool): (d: Donnee)
    ensures d.Nombre? == nombre
  {
    if nombre then Nombre(ToI(s)) else Mot(s)
  }

  /** Every field value is read back as it was written. */
  lemma RelireEcrire(d: Donnee)
    ensures Relire(Ecrire(d), d.Nombre?) == d
  {
    if d.Nombre? {
      ToIIntToS(d.n);
    }
  }

  /** The nineteen fields of `to_csv`, in READERS order. */
  function ChampsCsv(e: Equipement): (parts: seq<string>)
    ensures |parts| == 19
  {
    seq(19, i requires 0 <= i < 19 => Ecrire(Lire(READERS[i], e)))
  }

  /** `to_csv(separateur)`. */
  function VersCsv(e: Equipement, sep: char): string {
    Join(ChampsCsv(e), sep)
  }

  /** `new_from_csv(ligne, separateur)`: `chomp`, split into at most
      nineteen pieces, then `new`. */
  function DepuisCsv(ligne: string, sep: char): (r: Result<Equipement>)
    ensures r.Ok? ==> r.value.numero >= 0
    ensures r.Err? ==> r.error == ErreurMethode || r.error == Precondition
  {
    DepuisPieces(Split(Chomp(ligne), sep, 19))
  }

  /** The pieces of a CSV line turned into an item: without a type piece,
      `to_sym` is called on nil; a missing name is nil (read here as the
      empty name) and a missing power converts to 0. */
  function DepuisPieces(p: seq<string>): (r: Result<Equipement>)
    ensures |p| < 17 ==> r == Err(ErreurMethode)
    ensures |p| >= 17 ==> (r.Ok? <==> ToI(p[0]) >= 0) && (r.Err? ==> r.error == Precondition)
    ensures r.Ok? ==> r.value.typeEquipement == p[16]
    ensures r.Ok? && |p| < 19 ==> r.value.puissance == 0
  {
    if |p| < 17 then Err(ErreurMethode)
    else NouvelEquipement(ToI(p[0]), ToI(p[1]), ToI(p[2]), ToI(p[3]),
                          p[4], ToI(p[5]), p[6], ToI(p[7]), p[8], ToI(p[9]),
                          p[10], ToI(p[11]), p[12], ToI(p[13]), p[14], ToI(p[15]),
                          p[16], if |p| > 17 then p[17] else "", if |p| > 18 then ToI(p[18]) else 0)
  }

  /** What a separator must avoid: the characters of numbers, and the blank
      that switches `split` to whitespace mode. */
  predicate SeparateurSur(sep: char) {
    sep != ' ' && !EstChiffre(sep) && sep != '-'
  }

  /** An item that `to_csv` and `new_from_csv` carry over unchanged: no text
      field holds the separator. */
  predicate Transportable(e: Equipement, sep: char) {
    SeparateurSur(sep) && forall c :: !EstNombre(c) ==> sep !in Lire(c, e).s
  }

  /** No text field holds a newline. */
  predicate SansSautDeLigne(e: Equipement) {
    forall c :: !EstNombre(c) ==> '\n' !in Lire(c, e).s
  }

  /** The CSV line of such an item, with any other separator, is one line. */
  lemma VersCsvUneLigne(e: Equipement, sep: char)
    requires sep != '\n' && SansSautDeLigne(e)
    ensures '\n' !in VersCsv(e, sep)
  {
    var parts := ChampsCsv(e);
    forall i | 0 <= i < |parts| ensures '\n' !in parts[i] {
      var d := Lire(READERS[i], e);
      if d.Nombre? {
        IntToSAlphabet(d.n, '\n');
      }
    }
    JoinSans(parts, sep, '\n');
  }

  lemma ChampsCsvSeparables(e: Equipement, sep: char)
    requires Transportable(e, sep)
    ensures SeparableSur(ChampsCsv(e), sep)
  {
    var parts := ChampsCsv(e);
    forall i | 0 <= i < |parts| ensures sep !in parts[i] {
      var d := Lire(READERS[i], e);
      if d.Nombre? {
        IntToSAlphabet(d.n, sep);
      }
    }
  }

  /** A line written by `to_csv` ends with a digit, so `chomp` leaves it as
      it is, and removes only the newline a file line adds. */
  lemma ChompVersCsv(e: Equipement, sep: char)
    ensures Chomp(VersCsv(e, sep)) == VersCsv(e, sep)
    ensures Chomp(VersCsv(e, sep) + "\n") == VersCsv(e, sep)
  {
    VersCsvFinChiffre(e, sep);
    ChompSansFin(VersCsv(e, sep));
  }

  /** The CSV line of an item ends with the last digit of its power. */
  lemma VersCsvFinChiffre(e: Equipement, sep: char)
    ensures VersCsv(e, sep) != [] && EstChiffre(VersCsv(e, sep)[|VersCsv(e, sep)| - 1])
  {
    var parts := ChampsCsv(e);
    var s := VersCsv(e, sep);
    JoinDernier(parts, sep);
    var der := IntToS(e.puissance);
    assert parts[18] == der;
    assert s == Join(parts[..18], sep) + [sep] + der;
    FinChiffre(e.puissance);
    assert s[|s| - 1] == der[|der| - 1];
  }

  lemma FinChiffre(n: int)
    ensures IntToS(n) != [] && EstChiffre(IntToS(n)[|IntToS(n)| - 1])
  {
    if n < 0 {
      var t := NatVersTexte(-n);
      assert IntToS(n)[|IntToS(n)| - 1] == t[|t| - 1];
    }
  }

  /** The nineteen pieces of a line, each read back as the field of `e` it holds. */
  predicate PiecesDe(p: seq<string>, e: Equipement) {
    |p| == 19 && forall i :: 0 <= i < 19 ==> Relire(p[i], EstNombre(READERS[i])) == Lire(READERS[i], e)
  }

  lemma DepuisPiecesDe(p: seq<string>, e: Equipement)
    requires PiecesDe(p, e)
    ensures DepuisPieces(p) == Ok(e)
  {
    PiecesCaracteristiques(p, e);
    PiecesHaut(p, e);
    PiecesMilieu(p, e);
    PiecesBas(p, e);
    PiecesFin(p, e);
  }

  lemma PiecesCaracteristiques(p: seq<string>, e: Equipement)
    requires PiecesDe(p, e)
    ensures ToI(p[0]) == e.numero && ToI(p[1]) == e.vie && ToI(p[2]) == e.attaque && ToI(p[3]) == e.defense
  {
    PieceNombreDe(p, e, 0);
    PieceNombreDe(p, e, 1);
    PieceNombreDe(p, e, 2);
    PieceNombreDe(p, e, 3);
  }

  lemma PiecesHaut(p: seq<string>, e: Equipement)
    requires PiecesDe(p, e)
    ensures p[4] == e.tete && ToI(p[5]) == e.tetedefense && p[6] == e.torse && ToI(p[7]) == e.torsedefense
  {
    PieceMotDe(p, e, 4);
    PieceNombreDe(p, e, 5);
    PieceMotDe(p, e, 6);
    PieceNombreDe(p, e, 7);
  }

  lemma PiecesMilieu(p: seq<string>, e: Equipement)
    requires PiecesDe(p, e)
    ensures p[8] == e.mains && ToI(p[9]) == e.mainsdefense && p[10] == e.pantalons && ToI(p[11]) == e.pantalonsdefense
  {
    PieceMotDe(p, e, 8);
    PieceNombreDe(p, e, 9);
    PieceMotDe(p, e, 10);
    PieceNombreDe(p, e, 11);
  }

  lemma PiecesBas(p: seq<string>, e: Equipement)
    requires PiecesDe(p, e)
    ensures p[12] == e.bottes && ToI(p[13]) == e.bottesdefense && p[14] == e.arme && ToI(p[15]) == e.armeattaque
  {
    PieceMotDe(p, e, 12);
    PieceNombreDe(p, e, 13);
    PieceMotDe(p, e, 14);
    PieceNombreDe(p, e, 15);
  }

  lemma PiecesFin(p: seq<string>, e: Equipement)
    requires PiecesDe(p, e)
    ensures p[16] == e.typeEquipement && p[17] == e.nom && ToI(p[18]) == e.puissance
  {
    PieceMotDe(p, e, 16);
    PieceMotDe(p, e, 17);
    PieceNombreDe(p, e, 18);
  }

  lemma PieceNombreDe(p: seq<string>, e: Equipement, k: nat)
    requires PiecesDe(p, e) && k < 19 && EstNombre(READERS[k])
    ensures ToI(p[k]) == Lire(READERS[k], e).n
  {
    assert Relire(p[k], true) == Lire(READERS[k], e);
  }

  lemma PieceMotDe(p: seq<string>, e: Equipement, k: nat)
    requires PiecesDe(p, e) && k < 19 && !EstNombre(READERS[k])
    ensures p[k] == Lire(READERS[k], e).s
  {
    assert Relire(p[k], false) == Lire(READERS[k], e);
  }

  lemma ChampsCsvPieces(e: Equipement)
    ensures PiecesDe(ChampsCsv(e), e)
  {
    var p := ChampsCsv(e);
    forall i | 0 <= i < 19 ensures Relire(p[i], EstNombre(READERS[i])) == Lire(READERS[i], e) {
      RelireEcrire(Lire(READERS[i], e));
    }
  }

  /** An item written by `to_csv` is read back by `new_from_csv`, with or
      without the newline a file line keeps. */
  lemma DepuisVersCsv(e: Equipement, sep: char)
    requires Transportable(e, sep)
    ensures DepuisCsv(VersCsv(e, sep), sep) == Ok(e)
    ensures DepuisCsv(VersCsv(e, sep) + "\n", sep) == Ok(e)
  {
    var parts := ChampsCsv(e);
    ChampsCsvSeparables(e, sep);
    SplitJoin(parts, sep);
    ChompVersCsv(e, sep);
    ChampsCsvPieces(e);
    DepuisPiecesDe(parts, e);
  }

  /** A line cut into fewer than seventeen pieces has no type: reading it fails. */
  lemma DepuisCsvCourt(ligne: string, sep: char)
    requires |Split(Chomp(ligne), sep, 19)| < 17
    ensures DepuisCsv(ligne, sep) == Err(ErreurMethode)
  {
  }

  // ---------------------------------------------------------------------
  // Display: `to_s` through the template interpreter
  // ---------------------------------------------------------------------

  /** `vrai_format_et_valeur`: for each field letter or digit, the native
      conversion and the value. */
  function TableEquipement(e: Equipement): (t: Table)
    ensures t.Keys == {'I', 'V', 'A', 'D', 'H', '1', 'T', '2', 'M', '3', 'P', '4', 'B', '5', 'W', '6', 'L', 'N', 'O'}
  {
    map['I' := ('d', Entier(e.numero)),
        'V' := ('d', Entier(e.vie)),
        'A' := ('d', Entier(e.attaque)),
        'D' := ('d', Entier(e.defense)),
        'H' := ('s', Chaine(e.tete)),
        '1' := ('s', Entier(e.tetedefense)),
        'T' := ('s', Chaine(e.torse)),
        '2' := ('s', Entier(e.torsedefense)),
        'M' := ('s', Chaine(e.mains)),
        '3' := ('s', Entier(e.mainsdefense)),
        'P' := ('s', Chaine(e.pantalons)),
        '4' := ('s', Entier(e.pantalonsdefense)),
        'B' := ('s', Chaine(e.bottes)),
        '5' := ('s', Entier(e.bottesdefense)),
        'W' := ('s', Chaine(e.arme)),
        '6' := ('s', Entier(e.armeattaque)),
        'L' := ('s', Symbole(e.typeEquipement)),
        'N' := ('s', Chaine(e.nom)),
        'O' := ('d', Entier(e.puissance))]
  }

  const FORMAT_LONG: string := "%-2I: %-20N (%L) - Puissance: %O"

  /** `to_s(le_format)`: the native template and the arguments handed to
      `format`; no template means the long one. */
  function VersTexte(e: Equipement, leFormat: Option<string>): (r: (string, seq<Valeur>))
    ensures |r.0| <= |leFormat.GetOr(FORMAT_LONG)| && !AEchappement(r.0)
    ensures var f := leFormat.GetOr(FORMAT_LONG); '\n' !in f ==>
      r == (RemplacerEchappements(ReecritureTelQuEcrit(f, TableEquipement(e)).0), ReecritureTelQuEcrit(f, TableEquipement(e)).1)
    ensures var f := leFormat.GetOr(FORMAT_LONG); '%' !in f && !AEchappement(f) ==> r == (f, [])
  {
    FormatEtArgsTelQuEcrit(leFormat.GetOr(FORMAT_LONG), TableEquipement(e));
    FormatEtArgs(leFormat.GetOr(FORMAT_LONG), TableEquipement(e))
  }

  /** The long template: number, name, type and power, each with its own
      native conversion, the rest as written. */
  lemma ExempleFormatLong(e: Equipement)
    ensures VersTexte(e, None)
         == ("%-2d: %-20s (%s) - Puissance: %d",
             [Entier(e.numero), Chaine(e.nom), Symbole(e.typeEquipement), Entier(e.puissance)])
  {
    TableFormatLong(e);
    FormatLongAvec(FORMAT_LONG, TableEquipement(e), Entier(e.numero), Chaine(e.nom),
                   Symbole(e.typeEquipement), Entier(e.puissance));
  }

  lemma TableFormatLong(e: Equipement)
    ensures var table := TableEquipement(e);
      'I' in table && 'N' in table && 'L' in table && 'O' in table
      && table['I'] == ('d', Entier(e.numero)) && table['N'] == ('s', Chaine(e.nom))
      && table['L'] == ('s', Symbole(e.typeEquipement)) && table['O'] == ('d', Entier(e.puissance))
  {
    var table := TableEquipement(e);
    assert table['I'] == ('d', Entier(e.numero));
    assert table['N'] == ('s', Chaine(e.nom));
    assert table['L'] == ('s', Symbole(e.typeEquipement));
    assert table['O'] == ('d', Entier(e.puissance));
  }

  lemma FormatLongAvec(f: string, table: Table, i: Valeur, n: Valeur, l: Valeur, o: Valeur)
    requires f == "%-2I: %-20N (%L) - Puissance: %O"
    requires 'I' in table && 'N' in table && 'L' in table && 'O' in table
    requires table['I'] == ('d', i) && table['N'] == ('s', n) && table['L'] == ('s', l) && table['O'] == ('d', o)
    ensures FormatEtArgs(f, table) == ("%-2d: %-20s (%s) - Puissance: %d", [i, n, l, o])
  {
    ReecritureFormatLong(f, table, i, n, l, o);
    assert '\\' !in Reecriture(f, table).0 by { SansBarreFormatLong(); }
    FormatEtArgsSansBarre(f, table);
  }

  lemma SansBarreFormatLong()
    ensures '\\' !in "%-2d: %-20s (%s) - Puissance: %d"
  {
  }

  lemma ReecritureFormatLong(f: string, table: Table, i: Valeur, n: Valeur, l: Valeur, o: Valeur)
    requires f == "%-2I: %-20N (%L) - Puissance: %O"
    requires 'I' in table && 'N' in table && 'L' in table && 'O' in table
    requires table['I'] == ('d', i) && table['N'] == ('s', n) && table['L'] == ('s', l) && table['O'] == ('d', o)
    ensures Reecriture(f, table).0 == "%-2d: %-20s (%s) - Puissance: %d"
    ensures Reecriture(f, table).1 == [i, n, l, o]
  {
    var e := "";
    assert EstLargeur("-2") && EstLargeur("-20") && EstLargeur(e);
    DecoupeFormatLong();
    QuatrePlaceholders(f, table, Morceau(e, "-2", 'I'), Morceau(": ", "-20", 'N'), Morceau(" (", e, 'L'),
                       Morceau(") - Puissance: ", e, 'O'), e);
    TexteFormatLong();
  }

  lemma DecoupeFormatLong()
    ensures "%-2I: %-20N (%L) - Puissance: %O"
         == "" + "%" + "-2" + ['I']
            + (": " + "%" + "-20" + ['N'] + (" (" + "%" + "" + ['L'] + (") - Puissance: " + "%" + "" + ['O'] + "")))
  {
    MorceauxDecoupeLong();
    AssembleDecoupeLong();
  }

  lemma MorceauxDecoupeLong()
    ensures "" + "%" + "-2" + ['I'] == "%-2I"
    ensures ": " + "%" + "-20" + ['N'] == ": %-20N"
    ensures " (" + "%" + "" + ['L'] == " (%L"
    ensures ") - Puissance: " + "%" + "" + ['O'] + "" == ") - Puissance: %O"
  {
  }

  lemma AssembleDecoupeLong()
    ensures "%-2I" + ": %-20N" + " (%L" + ") - Puissance: %O" == "%-2I: %-20N (%L) - Puissance: %O"
  {
  }

  lemma TexteFormatLong()
    ensures "" + "%" + "-2" + ['d']
            + (": " + "%" + "-20" + ['s'] + (" (" + "%" + "" + ['s'] + (") - Puissance: " + "%" + "" + ['d'] + "")))
         == "%-2d: %-20s (%s) - Puissance: %d"
  {
    MorceauxTexteLong();
    AssembleTexteLong();
  }

  lemma MorceauxTexteLong()
    ensures "" + "%" + "-2" + ['d'] == "%-2d"
    ensures ": " + "%" + "-20" + ['s'] == ": %-20s"
    ensures " (" + "%" + "" + ['s'] == " (%s"
    ensures ") - Puissance: " + "%" + "" + ['d'] + "" == ") - Puissance: %d"
  {
  }

  lemma AssembleTexteLong()
    ensures "%-2d" + ": %-20s" + " (%s" + ") - Puissance: %d" == "%-2d: %-20s (%s) - Puissance: %d"
  {
  }

  /** Digit codes share their characters with widths: in "%15" the pattern
      takes the longest width still followed by a code, so `1` is the width
      and `5` (the boots' bonus) the code. */
  lemma ExempleChiffres(e: Equipement, f: string)
    requires f == "%15"
    ensures VersTexte(e, Some(f)) == ("%1s", [Entier(e.bottesdefense)])
  {
    var table := TableEquipement(e);
    assert table['5'] == ('s', Entier(e.bottesdefense));
    ReecritureChiffres(f, table, Entier(e.bottesdefense));
    assert '\\' !in Reecriture(f, table).0 by { SansBarreChiffres(); }
    FormatEtArgsSansBarre(f, table);
  }

  lemma SansBarreChiffres()
    ensures '\\' !in "%1s"
  {
  }

  lemma ReecritureChiffres(f: string, table: Table, x: Valeur)
    requires f == "%15" && '5' in table && table['5'] == ('s', x)
    ensures Reecriture(f, table).0 == "%1s"
    ensures Reecriture(f, table).1 == [x]
  {
    EtapeChiffres(f, table.Keys);
    ReecritureDeplie(f, table);
    assert Reecriture("", table) == ("", []);
    assert Reecriture(f, table).0 == "" + "%" + "1" + ['s'] + "";
  }

  lemma EtapeChiffres(f: string, codes: set<char>)
    requires f == "%15" && '5' in codes
    ensures Etape(f, codes) == Some(Correspondance("", "1", '5', ""))
  {
    assert IndexDe(f, '%') == 0;
    var apres := f[1..];
    LargeurChiffres(apres, codes);
  }

  lemma LargeurChiffres(s: string, codes: set<char>)
    requires s == "15" && '5' in codes
    ensures Largeur(s, codes) == Some(1) && s[..1] == "1" && s[2..] == ""
  {
    assert PrefixeChiffres(s[1..]) == 1;
    assert LargeurMax(s) == 2;
  }

  // ---------------------------------------------------------------------
  // Class-level state: `numero_max` and `comparateurs`
  // ---------------------------------------------------------------------

  class EquipementClasse {
    const numeros: NumeroMax
    var comparateurs: seq<Champ>

    constructor()
      ensures comparateurs == [Numero] && fresh(numeros) && numeros.valeur == None
    {
      numeros := new NumeroMax();
      comparateurs := [Numero];
    }

    /** `Equipement.comparateurs = cs`: rejected, and left as it was, when a
        name is not a field. */
    method SetComparateurs(noms: seq<string>) returns (r: Result<()>)
      modifies this
      ensures r.Ok? <==> forall i :: 0 <= i < |noms| ==> noms[i] in NOMS_CHAMPS
      ensures r.Ok? ==> Some(comparateurs) == ChampsDe(noms)
      ensures r.Err? ==> r.error == Precondition && comparateurs == old(comparateurs)
    {
      match ChampsDe(noms)
      case None => r := Err(Precondition);
      case Some(cs) => comparateurs := cs; r := Ok(());
    }

    /** `Equipement.new`: an item built with number `n` raises the class mark to `n`. */
    method Nouveau(numero: int, vie: int, attaque: int, defense: int,
                   tete: string, tetedefense: int, torse: string, torsedefense: int,
                   mains: string, mainsdefense: int, pantalons: string, pantalonsdefense: int,
                   bottes: string, bottesdefense: int, arme: string, armeattaque: int,
                   typeEquipement: string, nom: string, puissance: int) returns (r: Result<Equipement>)
      modifies numeros
      ensures r == NouvelEquipement(numero, vie, attaque, defense, tete, tetedefense, torse, torsedefense,
                                    mains, mainsdefense, pantalons, pantalonsdefense, bottes, bottesdefense,
                                    arme, armeattaque, typeEquipement, nom, puissance)
      ensures r.Ok? ==> numeros.valeur == Observe(old(numeros.valeur), r.value.numero)
      ensures r.Err? ==> numeros.valeur == old(numeros.valeur)
    {
      r := NouvelEquipement(numero, vie, attaque, defense, tete, tetedefense, torse, torsedefense,
                            mains, mainsdefense, pantalons, pantalonsdefense, bottes, bottesdefense,
                            arme, armeattaque, typeEquipement, nom, puissance);
      if r.Ok? {
        numeros.Observer(r.value.numero);
      }
    }

    /** `Equipement.creer`: the next free number, the numeric arguments
        converted from text with `to_i`. */
    method Creer(vie: string, attaque: string, defense: string, tete: string, tetedefense: string,
                 torse: string, torsedefense: string, mains: string, mainsdefense: string,
                 pantalons: string, pantalonsdefense: string, bottes: string, bottesdefense: string,
                 arme: string, armeattaque: string, typeEquipement: string, nom: string, puissance: string)
      returns (e: Equipement)
      modifies numeros
      ensures e.numero == old(numeros.Prochain()) && numeros.valeur == Some(e.numero)
      ensures e.vie == ToI(vie) && e.attaque == ToI(attaque) && e.defense == ToI(defense)
      ensures e.tete == tete && e.tetedefense == ToI(tetedefense) && e.torse == torse
        && e.torsedefense == ToI(torsedefense) && e.mains == mains && e.mainsdefense == ToI(mainsdefense)
        && e.pantalons == pantalons && e.pantalonsdefense == ToI(pantalonsdefense)
        && e.bottes == bottes && e.bottesdefense == ToI(bottesdefense)
        && e.arme == arme && e.armeattaque == ToI(armeattaque)
      ensures e.typeEquipement == typeEquipement && e.nom == nom && e.puissance == ToI(puissance)
    {
      var numero := numeros.Prochain();
      var r := Nouveau(numero, ToI(vie), ToI(attaque), ToI(defense), tete, ToI(tetedefense),
                       torse, ToI(torsedefense), mains, ToI(mainsdefense), pantalons, ToI(pantalonsdefense),
                       bottes, ToI(bottesdefense), arme, ToI(armeattaque), typeEquipement, nom, ToI(puissance));
      e := r.value;
    }

    /** `Equipement.new_from_csv`. */
    method NouveauDepuisCsv(ligne: string, sep: char) returns (r: Result<Equipement>)
      modifies numeros
      ensures r == DepuisCsv(ligne, sep)
      ensures r.Ok? ==> numeros.valeur == Observe(old(numeros.valeur), r.value.numero)
      ensures r.Err? ==> numeros.valeur == old(numeros.valeur)
    {
      r := DepuisCsv(ligne, sep);
      if r.Ok? {
        numeros.Observer(r.value.numero);
      }
    }

    /** `a <=> b` with the current comparators. */
    function Comparer(a: Equipement, b: Equipement): (r: int)
      reads this
      ensures r == -CompareEquipement(comparateurs, b, a)
      ensures r == 0 <==> forall i :: 0 <= i < |comparateurs| ==> Lire(comparateurs[i], a) == Lire(comparateurs[i], b)
    {
      CompareEquipementOppose(comparateurs, a, b);
      CompareEquipementPremierEcart(comparateurs, a, b);
      CompareEquipement(comparateurs, a, b)
    }
  }
}
