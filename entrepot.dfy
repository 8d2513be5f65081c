/** The warehouse of equipment (`GestionEquipements::EntrepotEquipements`):
    the collection loaded from the store, looked up, filtered, sorted and
    re-equipped. The singleton's class-level state is the class
    `EntrepotEquipements`; the operations that only read the collection are
    functions on it. */
module Entrepot {
  import opened Wrappers
  import Texte
  import opened Tri
  import opened Equipements
  import opened BdTexte
  import opened Graines
  import opened TypesEquipement
  import Interpreteur
  import opened Numeros

  // ---------------------------------------------------------------------
  // Lookup and selection: `l_equipement`, `les_equipements`
  // ---------------------------------------------------------------------

  /** The position `find { |v| v.numero == n }` stops at. */
  function Indice(xs: seq<Equipement>, n: int): (r: Option<nat>)
    ensures r.Some? ==> r.value < |xs| && xs[r.value].numero == n
    ensures r.Some? ==> forall j :: 0 <= j < r.value ==> xs[j].numero != n
    ensures r.None? <==> forall j :: 0 <= j < |xs| ==> xs[j].numero != n
    decreases |xs|
  {
    if xs == [] then None
    else if xs[0].numero == n then Some(0)
    else match Indice(xs[1..], n)
      case None => None
      case Some(k) => Some(k + 1)
  }

  /** `l_equipement(n)`: the first item numbered `n`, nil when there is none. */
  function LEquipement(xs: seq<Equipement>, n: int): (r: Option<Equipement>)
    ensures r.None? <==> forall x :: x in xs ==> x.numero != n
    ensures r.Some? ==> exists k :: 0 <= k < |xs| && xs[k] == r.value && r.value.numero == n
                                    && forall j :: 0 <= j < k ==> xs[j].numero != n
  {
    match Indice(xs, n)
    case None => None
    case Some(k) => Some(xs[k])
  }

  /** `select`: the elements the block accepts, in their order. */
  function Selection<T>(xs: seq<T>, p: T -> bool): (r: seq<T>)
    ensures |r| <= |xs|
    ensures forall x :: x in r ==> x in xs && p(x)
    ensures forall x :: x in xs && p(x) ==> x in r
    decreases |xs|
  {
    if xs == [] then []
    else
      assert forall x :: x in xs ==> x == xs[0] || x in xs[1..];
      (if p(xs[0]) then [xs[0]] else []) + Selection(xs[1..], p)
  }

  /** Selecting from a concatenation selects from each part, in order: the
      selection keeps the elements' order. */
  lemma {:induction false} SelectionConcat<T>(xs: seq<T>, ys: seq<T>, p: T -> bool)
    ensures Selection(xs + ys, p) == Selection(xs, p) + Selection(ys, p)
    decreases |xs|
  {
    if xs != [] {
      assert xs + ys == [xs[0]] + (xs[1..] + ys);
      assert xs == [xs[0]] + xs[1..];
      SelectionConcat(xs[1..], ys, p);
      SelectionTete(xs[0], xs[1..] + ys, p);
      SelectionTete(xs[0], xs[1..], p);
      var h := if p(xs[0]) then [xs[0]] else [];
      Interpreteur.Associe(h, Selection(xs[1..], p), Selection(ys, p));
    } else {
      assert xs + ys == ys;
    }
  }

  /** Selecting from a list with a head decides the head, then the rest. */
  lemma SelectionTete<T>(x: T, xs: seq<T>, p: T -> bool)
    ensures Selection([x] + xs, p) == (if p(x) then [x] else []) + Selection(xs, p)
  {
    assert ([x] + xs)[1..] == xs;
  }

  /** Each accepted element is kept as many times as it occurs; the others
      not at all. */
  lemma {:induction false} SelectionMultiset<T>(xs: seq<T>, p: T -> bool, x: T)
    ensures multiset(Selection(xs, p))[x] == if p(x) then multiset(xs)[x] else 0
    decreases |xs|
  {
    if xs != [] {
      SelectionMultiset(xs[1..], p, x);
      assert xs == [xs[0]] + xs[1..];
    }
  }

  /** A block that accepts everything selects the whole collection. */
  lemma {:induction false} SelectionTout<T>(xs: seq<T>, p: T -> bool)
    requires forall x :: x in xs ==> p(x)
    ensures Selection(xs, p) == xs
    decreases |xs|
  {
    if xs != [] {
      assert forall x :: x in xs[1..] ==> x in xs;
      SelectionTout(xs[1..], p);
    }
  }

  /** `les_equipements(motif:)` with an optional block: an item is kept when
      it matches the motif (standing for the regular expression matched
      against its `to_s`) and the block accepts it; a missing criterion
      accepts everything. */
  function LesEquipements(xs: seq<Equipement>, motif: Option<Equipement -> bool>,
                          bloc: Option<Equipement -> bool>): (r: seq<Equipement>)
    ensures forall x :: x in r <==> x in xs && (motif.None? || motif.value(x)) && (bloc.None? || bloc.value(x))
  {
    Selection(xs, Critere(motif, bloc))
  }

  /** The condition `les_equipements` puts on each item. */
  function Critere(motif: Option<Equipement -> bool>, bloc: Option<Equipement -> bool>): Equipement -> bool {
    (x: Equipement) => (motif.None? || motif.value(x)) && (bloc.None? || bloc.value(x))
  }

  /** Without motif nor block, the whole collection, in order. */
  lemma LesEquipementsTous(xs: seq<Equipement>)
    ensures LesEquipements(xs, None, None) == xs
  {
    SelectionTout(xs, Critere(None, None));
  }

  // ---------------------------------------------------------------------
  // Slots: `equiper` and the copy of `remplacer_equipement_specifique`
  // ---------------------------------------------------------------------

  /** The twelve fields of the six slots: each slot's item name and bonus. */
  predicate EstEmplacement(c: Champ) {
    !(c.Numero? || c.Vie? || c.Attaque? || c.Defense? || c.Type? || c.Nom? || c.Puissance?)
  }

  /** The fields `equiper` sets for a downcased type, through the setters
      `<type>=` and `<type>defense=` (`armeattaque=` for a weapon); only the
      six slot names have both setters. */
  function Emplacement(t: string): (r: Option<(Champ, Champ)>)
    ensures r.Some? ==> EstEmplacement(r.value.0) && !EstNombre(r.value.0)
    ensures r.Some? ==> EstEmplacement(r.value.1) && EstNombre(r.value.1)
  {
    if t == "tete" then Some((Tete, TeteDefense))
    else if t == "torse" then Some((Torse, TorseDefense))
    else if t == "mains" then Some((Mains, MainsDefense))
    else if t == "pantalons" then Some((Pantalons, PantalonsDefense))
    else if t == "bottes" then Some((Bottes, BottesDefense))
    else if t == "arme" then Some((Arme, ArmeAttaque))
    else None
  }

  /** The name of a slot's bonus after the slot's own name. */
  function Suffixe(t: string): string {
    if t == "arme" then "attaque" else "defense"
  }

  /** Two different types name four different fields. */
  lemma EmplacementsDisjoints(t1: string, t2: string)
    requires Emplacement(t1).Some? && Emplacement(t2).Some? && t1 != t2
    ensures var (n1, b1) := Emplacement(t1).value;
            var (n2, b2) := Emplacement(t2).value;
            n1 != n2 && n1 != b2 && b1 != n2 && b1 != b2
  {
  }

  /** The two fields of a slot are those whose setters `equiper` calls:
      `<type>=` and `<type>defense=`, `<type>attaque=` for the weapon. */
  lemma EmplacementSetters(t: string)
    requires Emplacement(t).Some?
    ensures NomDe(Emplacement(t).value.0) == t
    ensures NomDe(Emplacement(t).value.1) == t + Suffixe(t)
  {
    if t == "tete" {
      assert "tete" + "defense" == "tetedefense";
    } else if t == "torse" {
      assert "torse" + "defense" == "torsedefense";
    } else if t == "mains" {
      assert "mains" + "defense" == "mainsdefense";
    } else if t == "pantalons" {
      assert "pantalons" + "defense" == "pantalonsdefense";
    } else if t == "bottes" {
      assert "bottes" + "defense" == "bottesdefense";
    } else {
      assert "arme" + "attaque" == "armeattaque";
    }
  }

  /** `send("<champ>=", d)` on a slot field: that field reads `d`, every
      other field is as it was. */
  function Poser(e: Equipement, c: Champ, d: Donnee): (r: Equipement)
    requires EstEmplacement(c) && d.Nombre? == EstNombre(c)
    ensures Lire(c, r) == d
    ensures forall c2 :: c2 != c ==> Lire(c2, r) == Lire(c2, e)
  {
    if c == Tete then e.(tete := d.s)
    else if c == TeteDefense then e.(tetedefense := d.n)
    else if c == Torse then e.(torse := d.s)
    else if c == TorseDefense then e.(torsedefense := d.n)
    else if c == Mains then e.(mains := d.s)
    else if c == MainsDefense then e.(mainsdefense := d.n)
    else if c == Pantalons then e.(pantalons := d.s)
    else if c == PantalonsDefense then e.(pantalonsdefense := d.n)
    else if c == Bottes then e.(bottes := d.s)
    else if c == BottesDefense then e.(bottesdefense := d.n)
    else if c == Arme then e.(arme := d.s)
    else e.(armeattaque := d.n)
  }

  /** Two items that differ at most in their slots. */
  predicate MemeBase(a: Equipement, b: Equipement) {
    forall c :: !EstEmplacement(c) ==> Lire(c, a) == Lire(c, b)
  }

  /** `equiper`: the item becomes the piece of its own slot (the slot named
      by its downcased type takes its name, the slot's bonus its power);
      a type without both setters fails. */
  function Equiper(e: Equipement): (r: Result<Equipement>)
    ensures r.Ok? <==> Emplacement(Texte.Minuscules(e.typeEquipement)).Some?
    ensures r.Err? ==> r.error == ErreurMethode
    ensures r.Ok? ==>
      var (nom, bonus) := Emplacement(Texte.Minuscules(e.typeEquipement)).value;
      && Lire(nom, r.value) == Mot(e.nom) && Lire(bonus, r.value) == Nombre(e.puissance)
      && (forall c :: c != nom && c != bonus ==> Lire(c, r.value) == Lire(c, e))
  {
    match Emplacement(Texte.Minuscules(e.typeEquipement))
    case None => Err(ErreurMethode)
    case Some((nom, bonus)) => Ok(Poser(Poser(e, nom, Mot(e.nom)), bonus, Nombre(e.puissance)))
  }

  /** Equipping changes only slots, so the item keeps its number, type, name
      and power, and equipping it again changes nothing. */
  lemma EquiperIdempotent(e: Equipement)
    requires Equiper(e).Ok?
    ensures MemeBase(Equiper(e).value, e)
    ensures Equiper(Equiper(e).value) == Equiper(e)
  {
    var f := Equiper(e).value;
    EquiperMemeBase(e);
    MemeBaseChamps(f, e);
    forall c ensures Lire(c, Equiper(f).value) == Lire(c, f) {
    }
    LireDetermine(Equiper(f).value, f);
  }

  /** Equipping writes only the two fields of a slot. */
  lemma EquiperMemeBase(e: Equipement)
    requires Equiper(e).Ok?
    ensures MemeBase(Equiper(e).value, e)
  {
    var (nom, bonus) := Emplacement(Texte.Minuscules(e.typeEquipement)).value;
    assert EstEmplacement(nom) && EstEmplacement(bonus);
  }

  /** The assignments `remplacer_equipement_specifique` makes on each item:
      it takes the twelve slot fields of `modele` and keeps the others. */
  function Habiller(e: Equipement, modele: Equipement): (r: Equipement)
    ensures forall c :: Lire(c, r) == if EstEmplacement(c) then Lire(c, modele) else Lire(c, e)
  {
    e.(tete := modele.tete, tetedefense := modele.tetedefense,
       torse := modele.torse, torsedefense := modele.torsedefense,
       mains := modele.mains, mainsdefense := modele.mainsdefense,
       pantalons := modele.pantalons, pantalonsdefense := modele.pantalonsdefense,
       bottes := modele.bottes, bottesdefense := modele.bottesdefense,
       arme := modele.arme, armeattaque := modele.armeattaque)
  }

  /** Dressing depends only on what is not a slot: two items that differ at
      most in their slots come out the same, and the model dressed as
      itself is unchanged. */
  lemma HabillerMemeBase(a: Equipement, b: Equipement, m: Equipement)
    requires MemeBase(a, b)
    ensures Habiller(a, m) == Habiller(b, m)
    ensures MemeBase(Habiller(a, m), a)
    ensures Habiller(m, m) == m
  {
    forall c ensures Lire(c, Habiller(a, m)) == Lire(c, Habiller(b, m)) {
    }
    LireDetermine(Habiller(a, m), Habiller(b, m));
    forall c ensures Lire(c, Habiller(m, m)) == Lire(c, m) {
    }
    LireDetermine(Habiller(m, m), m);
  }

  // ---------------------------------------------------------------------
  // The best item of a type: `select { … }.reduce { … }`
  // ---------------------------------------------------------------------

  /** `reduce { |prev, current| prev.puissance > current.puissance ? prev : current }`
      over `s[i..]`, starting from `s[k]`: the position of the item kept.
      The later item wins a tie. */
  function Plier(s: seq<Equipement>, k: nat, i: nat): (r: nat)
    requires k < i <= |s|
    ensures r < |s| && (r == k || i <= r)
    ensures s[k].puissance <= s[r].puissance
    ensures forall j :: i <= j < |s| ==> s[j].puissance <= s[r].puissance
    ensures forall j :: i <= j < |s| && r < j ==> s[j].puissance < s[r].puissance
    ensures r == k ==> forall j :: i <= j < |s| ==> s[j].puissance < s[k].puissance
    decreases |s| - i
  {
    if i == |s| then k
    else Plier(s, if s[k].puissance > s[i].puissance then k else i, i + 1)
  }

  /** `select { |e| e.type == t }`. */
  function DuType(xs: seq<Equipement>, t: string): (r: seq<Equipement>)
    ensures forall x :: x in r <==> x in xs && x.typeEquipement == t
  {
    Selection(xs, (e: Equipement) => e.typeEquipement == t)
  }

  /** The most powerful item of type `t`, the later one on ties; nil when the
      collection has none of that type. */
  function Meilleur(xs: seq<Equipement>, t: string): (r: Option<Equipement>)
    ensures r.None? <==> forall x :: x in xs ==> x.typeEquipement != t
    ensures r.Some? ==> r.value in xs && r.value.typeEquipement == t
    ensures r.Some? ==> forall x :: x in xs && x.typeEquipement == t ==> x.puissance <= r.value.puissance
  {
    var s := DuType(xs, t);
    if s == [] then None
    else
      var k := Plier(s, 0, 1);
      assert s[k] in s;
      assert forall x :: x in xs && x.typeEquipement == t ==> x.puissance <= s[k].puissance by {
        forall x | x in xs && x.typeEquipement == t ensures x.puissance <= s[k].puissance {
          assert x in s;
          var j :| 0 <= j < |s| && s[j] == x;
        }
      }
      Some(s[k])
  }

  /** On a tie the later item wins: every item of the type after the one
      chosen is strictly weaker. */
  lemma MeilleurDernier(xs: seq<Equipement>, t: string)
    requires Meilleur(xs, t).Some?
    ensures exists k :: 0 <= k < |DuType(xs, t)| && DuType(xs, t)[k] == Meilleur(xs, t).value
                        && forall j :: k < j < |DuType(xs, t)| ==> DuType(xs, t)[j].puissance < Meilleur(xs, t).value.puissance
  {
    var s := DuType(xs, t);
    var k := Plier(s, 0, 1);
    assert Meilleur(xs, t).value == s[k];
  }

  // ---------------------------------------------------------------------
  // The hero's totals: `calculer_attaque_max`, `calculer_defense_max`
  // ---------------------------------------------------------------------

  /** `calculer_attaque_max`: the hero is item 0; its weapon's bonus counts
      when it is at least 1. Fails when there is no item 0. */
  function AttaqueMax(xs: seq<Equipement>): (r: Result<int>)
    ensures r.Err? <==> forall x :: x in xs ==> x.numero != 0
    ensures r.Err? ==> r.error == EntreeVide
    ensures r.Ok? ==> var h := LEquipement(xs, 0).value;
      r.value >= h.attaque && (r.value == h.attaque <==> h.armeattaque < 1)
      && (h.armeattaque >= 1 ==> r.value == h.attaque + h.armeattaque)
  {
    match LEquipement(xs, 0)
    case None => Err(EntreeVide)
    case Some(h) => Ok(if h.armeattaque >= 1 then h.attaque + h.armeattaque else h.attaque)
  }

  /** `calculer_defense_max`: the hero's base defence and the five armour
      bonuses (the weapon's bonus is an attack). Fails when there is no item 0. */
  function DefenseMax(xs: seq<Equipement>): (r: Result<int>)
    ensures r.Err? <==> forall x :: x in xs ==> x.numero != 0
    ensures r.Err? ==> r.error == EntreeVide
    ensures r.Ok? ==> var h := LEquipement(xs, 0).value;
      r.value == h.defense + Bonus(h, "tete") + Bonus(h, "torse") + Bonus(h, "mains")
                 + Bonus(h, "pantalons") + Bonus(h, "bottes")
  {
    match LEquipement(xs, 0)
    case None => Err(EntreeVide)
    case Some(h) => Ok(h.defense + h.tetedefense + h.torsedefense + h.mainsdefense
                       + h.pantalonsdefense + h.bottesdefense)
  }

  /** The bonus the slot named `t` gives its wearer. */
  function Bonus(e: Equipement, t: string): int
    requires Emplacement(t).Some?
  {
    Lire(Emplacement(t).value.1, e).n
  }

  /** After every item has been dressed like `m`, the hero's attack is its
      own plus the bonus of `m`'s weapon, when at least 1. */
  lemma AttaqueApresHabillage(xs: seq<Equipement>, ys: seq<Equipement>, m: Equipement)
    requires |ys| == |xs| && forall i :: 0 <= i < |xs| ==> ys[i] == Habiller(xs[i], m)
    ensures AttaqueMax(ys) == match LEquipement(xs, 0)
      case None => Err(EntreeVide)
      case Some(h) => Ok(if m.armeattaque >= 1 then h.attaque + m.armeattaque else h.attaque)
  {
    LEquipementHabille(xs, ys, m, 0);
    AttaqueHabillee(xs, ys, m);
  }

  /** After every item has been dressed like `m`, the hero's defence is its
      own plus `m`'s five armour bonuses. */
  lemma DefenseApresHabillage(xs: seq<Equipement>, ys: seq<Equipement>, m: Equipement)
    requires |ys| == |xs| && forall i :: 0 <= i < |xs| ==> ys[i] == Habiller(xs[i], m)
    ensures DefenseMax(ys) == match LEquipement(xs, 0)
      case None => Err(EntreeVide)
      case Some(h) => Ok(h.defense + m.tetedefense + m.torsedefense + m.mainsdefense
                         + m.pantalonsdefense + m.bottesdefense)
  {
    LEquipementHabille(xs, ys, m, 0);
    DefenseHabillee(xs, ys, m);
  }

  /** The attack total when the hero of `ys` is the hero of `xs` dressed like `m`. */
  lemma AttaqueHabillee(xs: seq<Equipement>, ys: seq<Equipement>, m: Equipement)
    requires LEquipement(ys, 0) == match LEquipement(xs, 0)
      case None => None
      case Some(h) => Some(Habiller(h, m))
    ensures AttaqueMax(ys) == match LEquipement(xs, 0)
      case None => Err(EntreeVide)
      case Some(h) => Ok(if m.armeattaque >= 1 then h.attaque + m.armeattaque else h.attaque)
  {
    if LEquipement(xs, 0).Some? {
      var h := LEquipement(xs, 0).value;
      var g := Habiller(h, m);
      assert g.attaque == h.attaque && g.armeattaque == m.armeattaque;
    }
  }

  /** The defence total when the hero of `ys` is the hero of `xs` dressed like `m`. */
  lemma DefenseHabillee(xs: seq<Equipement>, ys: seq<Equipement>, m: Equipement)
    requires LEquipement(ys, 0) == match LEquipement(xs, 0)
      case None => None
      case Some(h) => Some(Habiller(h, m))
    ensures DefenseMax(ys) == match LEquipement(xs, 0)
      case None => Err(EntreeVide)
      case Some(h) => Ok(h.defense + m.tetedefense + m.torsedefense + m.mainsdefense
                         + m.pantalonsdefense + m.bottesdefense)
  {
    if LEquipement(xs, 0).Some? {
      var h := LEquipement(xs, 0).value;
      var g := Habiller(h, m);
      assert g.defense == h.defense && g.tetedefense == m.tetedefense && g.torsedefense == m.torsedefense;
      assert g.mainsdefense == m.mainsdefense && g.pantalonsdefense == m.pantalonsdefense;
      assert g.bottesdefense == m.bottesdefense;
    }
  }

  /** Looking up a dressed collection finds the dressed item. */
  lemma LEquipementHabille(xs: seq<Equipement>, ys: seq<Equipement>, m: Equipement, n: int)
    requires |ys| == |xs| && forall i :: 0 <= i < |xs| ==> ys[i] == Habiller(xs[i], m)
    ensures LEquipement(ys, n) == match LEquipement(xs, n)
      case None => None
      case Some(h) => Some(Habiller(h, m))
  {
    IndiceHabille(xs, ys, m, n);
  }

  /** Dressing keeps numbers, so lookups find the same position. */
  lemma {:induction false} IndiceHabille(xs: seq<Equipement>, ys: seq<Equipement>, m: Equipement, n: int)
    requires |ys| == |xs| && forall i :: 0 <= i < |xs| ==> ys[i] == Habiller(xs[i], m)
    ensures Indice(ys, n) == Indice(xs, n)
    decreases |xs|
  {
    if xs != [] {
      IndiceHabille(xs[1..], ys[1..], m, n);
    }
  }

  // ---------------------------------------------------------------------
  // Sorting: `trier`
  // ---------------------------------------------------------------------

  /** The block of `trier`: `<=>` over the comparators, negated as a whole
      when `reverse`. */
  function Ordre(cs: seq<Champ>, reverse: bool): (Equipement, Equipement) -> int {
    (a: Equipement, b: Equipement) => (if reverse then -1 else 1) * CompareEquipement(cs, a, b)
  }

  /** Either way, the block orders any collection: `sort` may use it. */
  lemma OrdrePreordre(cs: seq<Champ>, reverse: bool, s: seq<Equipement>)
    ensures PreordreTotal(Ordre(cs, reverse), s)
  {
    var o := Ordre(cs, reverse);
    forall a, b | a in s && b in s ensures o(a, b) == -o(b, a) {
      CompareEquipementOppose(cs, a, b);
    }
    forall a, b, d | a in s && b in s && d in s && o(a, b) <= 0 && o(b, d) <= 0 ensures o(a, d) <= 0 {
      if reverse {
        CompareEquipementOppose(cs, a, b);
        CompareEquipementOppose(cs, b, d);
        CompareEquipementOppose(cs, a, d);
        CompareEquipementTransitif(cs, d, b, a);
      } else {
        CompareEquipementTransitif(cs, a, b, d);
      }
    }
  }

  /** With the number among the comparators, only items with the same number
      tie: the order is strict on a collection with distinct numbers. */
  lemma OrdreStrict(cs: seq<Champ>, reverse: bool, a: Equipement, b: Equipement)
    requires Numero in cs && Ordre(cs, reverse)(a, b) == 0
    ensures a.numero == b.numero
  {
    CompareEquipementPremierEcart(cs, a, b);
    var k :| 0 <= k < |cs| && cs[k] == Numero;
    assert Lire(cs[k], a) == Lire(cs[k], b);
  }

  // ---------------------------------------------------------------------
  // Re-equipping: `remplacer_equipement_specifique`, `remplacer_tous_equipements`
  // ---------------------------------------------------------------------

  /** The numbers of a collection are all different. */
  predicate NumerosDistincts(xs: seq<Equipement>) {
    forall i, j :: 0 <= i < j < |xs| ==> xs[i].numero != xs[j].numero
  }

  /** The list of types can be worked through without failing on `xs`:
      every type that has an item there names a slot, and no two types name
      the same one. */
  predicate TypesValides(xs: seq<Equipement>, types: seq<string>) {
    && (forall k :: 0 <= k < |types| && Meilleur(xs, types[k]).Some? ==>
          Emplacement(Texte.Minuscules(types[k])).Some?)
    && TypesDistincts(types)
  }

  /** No two types of the list downcase to the same name. */
  predicate TypesDistincts(types: seq<string>) {
    forall k1, k2 :: 0 <= k1 < k2 < |types| ==> Texte.Minuscules(types[k1]) != Texte.Minuscules(types[k2])
  }

  /** What working through the choices needs: each chosen item is in the
      collection and has the type it was chosen for, which names a slot. */
  predicate ChoixValides(debut: seq<Equipement>, types: seq<string>, choix: seq<Option<Equipement>>) {
    && |choix| == |types| && TypesDistincts(types)
    && forall k :: 0 <= k < |types| && choix[k].Some? ==>
         && choix[k].value in debut && choix[k].value.typeEquipement == types[k]
         && Emplacement(Texte.Minuscules(types[k])).Some?
  }

  /** The best items of valid types are valid choices. */
  lemma ChoixMeilleurs(xs: seq<Equipement>, types: seq<string>, choix: seq<Option<Equipement>>)
    requires TypesValides(xs, types)
    requires |choix| == |types| && forall k :: 0 <= k < |types| ==> choix[k] == Meilleur(xs, types[k])
    ensures ChoixValides(xs, types, choix)
  {
  }

  /** `e` wears `b` in the slot of type `t`: the slot holds `b`'s name and
      the slot's bonus `b`'s power. */
  predicate Porte(e: Equipement, t: string, b: Equipement) {
    match Emplacement(Texte.Minuscules(t))
    case None => false
    case Some((nom, bonus)) => Lire(nom, e) == Mot(b.nom) && Lire(bonus, e) == Nombre(b.puissance)
  }

  /** While the types are worked through, the item chosen for the current
      type is found again by its number: the same item, up to its slots,
      and it can be equipped. */
  lemma TrouveEtEquipe(debut: seq<Equipement>, avant: seq<Equipement>, types: seq<string>,
                       choix: seq<Option<Equipement>>, k: nat)
    requires k < |types| && NumerosDistincts(debut) && ChoixValides(debut, types, choix)
    requires |avant| == |debut| && forall i :: 0 <= i < |debut| ==> MemeBase(avant[i], debut[i])
    requires choix[k].Some?
    ensures var b := choix[k].value;
      && LEquipement(avant, b.numero).Some?
      && LEquipement(avant, b.numero).value.typeEquipement == types[k]
      && LEquipement(avant, b.numero).value.nom == b.nom
      && LEquipement(avant, b.numero).value.puissance == b.puissance
      && Equiper(LEquipement(avant, b.numero).value).Ok?
  {
    var b := choix[k].value;
    RetrouveParNumero(debut, avant, b);
    MemeBaseChamps(LEquipement(avant, b.numero).value, b);
  }

  /** In a collection with distinct numbers, an item is found again by its
      number after every item has had its slots changed. */
  lemma RetrouveParNumero(debut: seq<Equipement>, avant: seq<Equipement>, b: Equipement)
    requires NumerosDistincts(debut) && b in debut
    requires |avant| == |debut| && forall i :: 0 <= i < |debut| ==> MemeBase(avant[i], debut[i])
    ensures LEquipement(avant, b.numero).Some? && MemeBase(LEquipement(avant, b.numero).value, b)
  {
    var j :| 0 <= j < |debut| && debut[j] == b;
    assert avant[j].numero == b.numero by { assert Lire(Numero, avant[j]) == Lire(Numero, debut[j]); }
    var q := Indice(avant, b.numero).value;
    assert debut[q].numero == b.numero by { assert Lire(Numero, avant[q]) == Lire(Numero, debut[q]); }
    assert q == j;
  }

  /** Items of the same base have the same type, name and power. */
  lemma MemeBaseChamps(f: Equipement, b: Equipement)
    requires MemeBase(f, b)
    ensures f.typeEquipement == b.typeEquipement && f.nom == b.nom && f.puissance == b.puissance
  {
    assert Lire(Type, f) == Lire(Type, b) && Lire(Nom, f) == Lire(Nom, b) && Lire(Puissance, f) == Lire(Puissance, b);
  }

  /** Every item wears the item chosen for each of the first `k` types
      that has one. */
  predicate PortentJusqua(ys: seq<Equipement>, types: seq<string>, choix: seq<Option<Equipement>>, k: nat)
    requires k <= |types| == |choix|
  {
    forall k2, i :: 0 <= k2 < k && 0 <= i < |ys| && choix[k2].Some? ==> Porte(ys[i], types[k2], choix[k2].value)
  }

  /** A type with no item to choose adds nothing to wear. */
  lemma PortentSansChoix(ys: seq<Equipement>, types: seq<string>, choix: seq<Option<Equipement>>, k: nat)
    requires k < |types| == |choix| && choix[k].None?
    requires PortentJusqua(ys, types, choix, k)
    ensures PortentJusqua(ys, types, choix, k + 1)
  {
  }

  /** One step of `remplacer_tous_equipements`: once every item is dressed
      like the equipped item chosen for `types[k]`, all items wear it, and
      still wear the items chosen for the types before. */
  lemma EtapeRemplacement(debut: seq<Equipement>, avant: seq<Equipement>, apres: seq<Equipement>,
                          types: seq<string>, choix: seq<Option<Equipement>>, k: nat, m: Equipement)
    requires k < |types| && NumerosDistincts(debut) && ChoixValides(debut, types, choix)
    requires |avant| == |debut| && forall i :: 0 <= i < |debut| ==> MemeBase(avant[i], debut[i])
    requires PortentJusqua(avant, types, choix, k)
    requires choix[k].Some?
    requires LEquipement(avant, choix[k].value.numero).Some?
    requires Equiper(LEquipement(avant, choix[k].value.numero).value) == Ok(m)
    requires |apres| == |avant| && forall i :: 0 <= i < |avant| ==> apres[i] == Habiller(avant[i], m)
    ensures PortentJusqua(apres, types, choix, k + 1)
  {
    var b := choix[k].value;
    TrouveEtEquipe(debut, avant, types, choix, k);
    var f := LEquipement(avant, b.numero).value;
    EquiperSoi(f, b);
    var j :| 0 <= j < |avant| && avant[j] == f;
    forall k2, i | 0 <= k2 <= k && 0 <= i < |apres| && choix[k2].Some?
      ensures Porte(apres[i], types[k2], choix[k2].value)
    {
      if k2 < k {
        EquiperPorte(f, types[k2], choix[k2].value);
      }
      HabillerPorte(avant[i], m, types[k2], choix[k2].value);
    }
  }

  /** Dressing every item like `m` keeps what is not a slot. */
  lemma HabillerTousMemeBase(debut: seq<Equipement>, avant: seq<Equipement>, apres: seq<Equipement>, m: Equipement)
    requires |avant| == |debut| && forall i :: 0 <= i < |debut| ==> MemeBase(avant[i], debut[i])
    requires |apres| == |avant| && forall i :: 0 <= i < |avant| ==> apres[i] == Habiller(avant[i], m)
    ensures forall i :: 0 <= i < |debut| ==> MemeBase(apres[i], debut[i])
  {
    forall i | 0 <= i < |debut| ensures MemeBase(apres[i], debut[i]) {
      assert MemeBase(avant[i], debut[i]);
    }
  }

  /** An item dressed like `m` wears what `m` wears. */
  lemma HabillerPorte(e: Equipement, m: Equipement, t: string, b: Equipement)
    requires Porte(m, t, b)
    ensures Porte(Habiller(e, m), t, b)
  {
  }

  /** An equipped item wears itself in its own slot. */
  lemma EquiperSoi(f: Equipement, b: Equipement)
    requires Equiper(f).Ok? && f.nom == b.nom && f.puissance == b.puissance
    ensures Porte(Equiper(f).value, f.typeEquipement, b)
  {
  }

  /** Equipping an item leaves the slots of the other types as they were. */
  lemma EquiperPorte(f: Equipement, t: string, b: Equipement)
    requires Equiper(f).Ok? && Porte(f, t, b)
    requires Texte.Minuscules(t) != Texte.Minuscules(f.typeEquipement)
    ensures Porte(Equiper(f).value, t, b)
  {
    EmplacementsDisjoints(Texte.Minuscules(t), Texte.Minuscules(f.typeEquipement));
  }

  /** The `map` of `remplacer_equipement_specifique`: each item in turn
      takes the twelve slot fields of `modele`. */
  method HabillerTous(xs: seq<Equipement>, modele: Equipement) returns (ys: seq<Equipement>)
    ensures |ys| == |xs| && forall i :: 0 <= i < |xs| ==> ys[i] == Habiller(xs[i], modele)
  {
    ys := xs;
    var i := 0;
    while i < |ys|
      invariant 0 <= i <= |ys| == |xs|
      invariant forall j :: 0 <= j < i ==> ys[j] == Habiller(xs[j], modele)
      invariant forall j :: i <= j < |ys| ==> ys[j] == xs[j]
    {
      ys := ys[i := Habiller(ys[i], modele)];
      i := i + 1;
    }
  }

  /** Two items whose twelve slot fields agree. */
  predicate MemesEmplacements(a: Equipement, b: Equipement) {
    forall c :: EstEmplacement(c) ==> Lire(c, a) == Lire(c, b)
  }

  /** `c` is one of the two fields of the slot type `t` names. */
  predicate ChampDeType(c: Champ, t: string) {
    match Emplacement(Texte.Minuscules(t))
    case None => false
    case Some((nom, bonus)) => c == nom || c == bonus
  }

  /** The choices of `remplacer_tous_equipements`: the best item of each
      type of the list, nil for a type without items. */
  function Choix(xs: seq<Equipement>, types: seq<string>): (r: seq<Option<Equipement>>)
    ensures |r| == |types| && forall k :: 0 <= k < |types| ==> r[k] == Meilleur(xs, types[k])
  {
    seq(|types|, k requires 0 <= k < |types| => Meilleur(xs, types[k]))
  }

  /** The first choice among the first `n`: the first that is not nil. */
  function Premier(choix: seq<Option<Equipement>>, n: nat): (r: Option<Equipement>)
    requires n <= |choix|
    ensures r.None? <==> forall k :: 0 <= k < n ==> choix[k].None?
    ensures r.Some? ==> exists k :: 0 <= k < n && r == choix[k] && forall j :: 0 <= j < k ==> choix[j].None?
  {
    if n == 0 then None
    else
      var p := Premier(choix, n - 1);
      if p.Some? then p else choix[n - 1]
  }

  /** One of the first `n` types has an item chosen, and its slot holds `c`. */
  predicate ChampChoisi(types: seq<string>, choix: seq<Option<Equipement>>, n: nat, c: Champ)
    requires n <= |types| == |choix|
  {
    exists k :: 0 <= k < n && choix[k].Some? && ChampDeType(c, types[k])
  }

  /** What `remplacer_tous_equipements` leaves after the first `n` choices,
      of which `p` is the first: before any choice, the collection as it
      was; after one, every item has the same slots, and a slot no choice
      has filled holds what the first chosen item held there. */
  predicate Uniformes(ys: seq<Equipement>, xs: seq<Equipement>, types: seq<string>,
                      choix: seq<Option<Equipement>>, n: nat, p: Option<Equipement>)
    requires n <= |types| == |choix|
  {
    && (p.None? ==> ys == xs)
    && (p.Some? ==> forall i, j :: 0 <= i < |ys| && 0 <= j < |ys| ==> MemesEmplacements(ys[i], ys[j]))
    && (p.Some? && NumerosDistincts(xs) ==>
          forall i, c :: 0 <= i < |ys| && EstEmplacement(c) && !ChampChoisi(types, choix, n, c) ==>
            Lire(c, ys[i]) == Lire(c, p.value))
  }

  /** In a collection with distinct numbers, an item is found by its number. */
  lemma TrouveSoi(xs: seq<Equipement>, b: Equipement)
    requires NumerosDistincts(xs) && b in xs
    ensures LEquipement(xs, b.numero) == Some(b)
  {
    var j :| 0 <= j < |xs| && xs[j] == b;
    var q := Indice(xs, b.numero).value;
    assert q == j;
  }

  /** A type without items changes nothing. */
  lemma UniformesSansChoix(ys: seq<Equipement>, xs: seq<Equipement>, types: seq<string>,
                           choix: seq<Option<Equipement>>, k: nat, p: Option<Equipement>)
    requires k < |types| == |choix| && choix[k].None?
    requires Uniformes(ys, xs, types, choix, k, p)
    ensures Uniformes(ys, xs, types, choix, k + 1, p)
  {
    forall c | ChampChoisi(types, choix, k + 1, c) ensures ChampChoisi(types, choix, k, c) {
      var j :| 0 <= j < k + 1 && choix[j].Some? && ChampDeType(c, types[j]);
    }
  }

  /** One call of `remplacer_equipement_specifique` for the item chosen for
      `types[k]`: every item takes the slots of the equipped item, which
      are the old slots of the item found, but for its own. */
  lemma UniformesEtape(xs: seq<Equipement>, avant: seq<Equipement>, apres: seq<Equipement>,
                       types: seq<string>, choix: seq<Option<Equipement>>, k: nat,
                       p: Option<Equipement>, m: Equipement)
    requires k < |types| == |choix| && choix[k].Some?
    requires choix[k].value in xs && choix[k].value.typeEquipement == types[k]
    requires |avant| == |xs| && forall i :: 0 <= i < |xs| ==> MemeBase(avant[i], xs[i])
    requires Uniformes(avant, xs, types, choix, k, p)
    requires LEquipement(avant, choix[k].value.numero).Some?
    requires Equiper(LEquipement(avant, choix[k].value.numero).value) == Ok(m)
    requires |apres| == |avant| && forall i :: 0 <= i < |avant| ==> apres[i] == Habiller(avant[i], m)
    ensures Uniformes(apres, xs, types, choix, k + 1, if p.Some? then p else choix[k])
  {
    var p2 := if p.Some? then p else choix[k];
    forall i, j | 0 <= i < |apres| && 0 <= j < |apres| ensures MemesEmplacements(apres[i], apres[j]) {
    }
    if NumerosDistincts(xs) {
      var b := choix[k].value;
      var f := LEquipement(avant, b.numero).value;
      RetrouveParNumero(xs, avant, b);
      MemeBaseChamps(f, b);
      var j :| 0 <= j < |avant| && avant[j] == f;
      if p.None? {
        TrouveSoi(xs, b);
      }
      forall i, c | 0 <= i < |apres| && EstEmplacement(c) && !ChampChoisi(types, choix, k + 1, c)
        ensures Lire(c, apres[i]) == Lire(c, p2.value)
      {
        assert !ChampDeType(c, types[k]);
        assert !ChampChoisi(types, choix, k, c);
        assert Lire(c, apres[i]) == Lire(c, m) == Lire(c, f);
      }
    }
  }

  /** The collection `remplacer_tous_equipements` leaves after the first
      `n` types of the list: for each type with a best item, that item is
      found again by its number, equipped, and every item takes its twelve
      slot fields. Fails as `equiper` does, or when the item is not found. */
  function Remplacement(xs: seq<Equipement>, choix: seq<Option<Equipement>>, n: nat): Result<seq<Equipement>>
    requires n <= |choix|
  {
    if n == 0 then Ok(xs)
    else match Remplacement(xs, choix, n - 1)
      case Err(e) => Err(e)
      case Ok(ys) => Remplacer(ys, choix[n - 1])
  }

  /** One choice worked through: nothing without an item chosen; otherwise
      the item is found again by its number, equipped, and every item takes
      its twelve slot fields. */
  function Remplacer(ys: seq<Equipement>, choix: Option<Equipement>): Result<seq<Equipement>> {
    match choix
    case None => Ok(ys)
    case Some(b) =>
      match LEquipement(ys, b.numero)
      case None => Err(ErreurMethode)
      case Some(f) =>
        match Equiper(f)
        case Err(e) => Err(e)
        case Ok(m) => Ok(seq(|ys|, i requires 0 <= i < |ys| => Habiller(ys[i], m)))
  }

  /** Each choice is an item of the collection of the type it was made for. */
  predicate ChoixDe(xs: seq<Equipement>, types: seq<string>, choix: seq<Option<Equipement>>) {
    |choix| == |types| &&
    forall k :: 0 <= k < |types| && choix[k].Some? ==> choix[k].value in xs && choix[k].value.typeEquipement == types[k]
  }

  /** The best items of the types are such choices. */
  lemma ChoixDeMeilleurs(xs: seq<Equipement>, types: seq<string>)
    ensures ChoixDe(xs, types, Choix(xs, types))
  {
  }

  /** After the first `n` choices: only slots have changed, and the slots
      are as `Uniformes` says. */
  predicate Etat(ys: seq<Equipement>, xs: seq<Equipement>, types: seq<string>,
                 choix: seq<Option<Equipement>>, n: nat)
    requires n <= |types| == |choix|
  {
    && |ys| == |xs| && (forall i :: 0 <= i < |xs| ==> MemeBase(ys[i], xs[i]))
    && Uniformes(ys, xs, types, choix, n, Premier(choix, n))
  }

  /** Before any choice the collection is as it was; after one, every item
      has the same slots, and a slot that no choice has filled holds what
      the first chosen item held there. Only slots ever change. */
  lemma {:induction false} RemplacementUniforme(xs: seq<Equipement>, types: seq<string>,
                                                choix: seq<Option<Equipement>>, n: nat)
    requires ChoixDe(xs, types, choix) && n <= |types|
    ensures Remplacement(xs, choix, n).Ok? ==> Etat(Remplacement(xs, choix, n).value, xs, types, choix, n)
  {
    if n > 0 {
      RemplacementUniforme(xs, types, choix, n - 1);
      UniformeSuivant(xs, types, choix, n);
    }
  }

  /** One step of the induction above. */
  lemma UniformeSuivant(xs: seq<Equipement>, types: seq<string>, choix: seq<Option<Equipement>>, n: nat)
    requires ChoixDe(xs, types, choix) && 0 < n <= |types|
    requires Remplacement(xs, choix, n - 1).Ok? ==> Etat(Remplacement(xs, choix, n - 1).value, xs, types, choix, n - 1)
    ensures Remplacement(xs, choix, n).Ok? ==> Etat(Remplacement(xs, choix, n).value, xs, types, choix, n)
  {
    if Remplacement(xs, choix, n).Ok? {
      EtatSuivant(xs, Remplacement(xs, choix, n - 1).value, types, choix, n - 1);
    }
  }

  /** One more choice keeps `Etat`. */
  lemma EtatSuivant(xs: seq<Equipement>, ys: seq<Equipement>, types: seq<string>,
                    choix: seq<Option<Equipement>>, k: nat)
    requires ChoixDe(xs, types, choix) && k < |types|
    requires Etat(ys, xs, types, choix, k) && Remplacer(ys, choix[k]).Ok?
    ensures Etat(Remplacer(ys, choix[k]).value, xs, types, choix, k + 1)
  {
    if choix[k].None? {
      EtatSansChoix(ys, xs, types, choix, k);
    } else {
      var f := LEquipement(ys, choix[k].value.numero).value;
      EtatEtape(xs, ys, Remplacer(ys, choix[k]).value, types, choix, k, Equiper(f).value);
    }
  }

  /** The step above when the type has no item chosen. */
  lemma EtatSansChoix(ys: seq<Equipement>, xs: seq<Equipement>, types: seq<string>,
                      choix: seq<Option<Equipement>>, k: nat)
    requires k < |types| == |choix| && choix[k].None?
    requires Etat(ys, xs, types, choix, k)
    ensures Etat(ys, xs, types, choix, k + 1)
  {
    UniformesSansChoix(ys, xs, types, choix, k, Premier(choix, k));
  }

  /** The step above when the type has an item chosen. */
  lemma EtatEtape(xs: seq<Equipement>, avant: seq<Equipement>, apres: seq<Equipement>,
                  types: seq<string>, choix: seq<Option<Equipement>>, k: nat, m: Equipement)
    requires ChoixDe(xs, types, choix) && k < |types| && choix[k].Some?
    requires Etat(avant, xs, types, choix, k)
    requires LEquipement(avant, choix[k].value.numero).Some?
    requires Equiper(LEquipement(avant, choix[k].value.numero).value) == Ok(m)
    requires |apres| == |avant| && forall i :: 0 <= i < |avant| ==> apres[i] == Habiller(avant[i], m)
    ensures Etat(apres, xs, types, choix, k + 1)
  {
    HabillerTousMemeBase(xs, avant, apres, m);
    UniformesEtape(xs, avant, apres, types, choix, k, Premier(choix, k), m);
  }

  /** Once every choice has been worked through, in the terms of the
      callers: the first choice, and the slots no choice has filled. */
  lemma RemplacementFin(xs: seq<Equipement>, types: seq<string>)
    ensures Remplacement(xs, Choix(xs, types), |types|).Ok? ==>
      Uniformes(Remplacement(xs, Choix(xs, types), |types|).value, xs, types, Choix(xs, types), |types|,
                Premier(Choix(xs, types), |types|))
  {
    var choix := Choix(xs, types);
    ChoixDeMeilleurs(xs, types);
    RemplacementUniforme(xs, types, choix, |types|);
  }

  /** The loop's step: one more choice worked through. */
  lemma RemplacementSuivant(xs: seq<Equipement>, choix: seq<Option<Equipement>>, k: nat,
                            ys: seq<Equipement>, zs: seq<Equipement>, m: Equipement)
    requires k < |choix| && Remplacement(xs, choix, k) == Ok(ys) && choix[k].Some?
    requires LEquipement(ys, choix[k].value.numero).Some?
    requires Equiper(LEquipement(ys, choix[k].value.numero).value) == Ok(m)
    requires |zs| == |ys| && forall i :: 0 <= i < |ys| ==> zs[i] == Habiller(ys[i], m)
    ensures Remplacement(xs, choix, k + 1) == Ok(zs)
  {
    var ws := seq(|ys|, i requires 0 <= i < |ys| => Habiller(ys[i], m));
    assert ws == zs;
    assert Remplacer(ys, choix[k]) == Ok(zs);
  }

  /** Without any item chosen, nothing changes. */
  lemma {:induction false} RemplacementRien(xs: seq<Equipement>, choix: seq<Option<Equipement>>, n: nat)
    requires n <= |choix| && forall k :: 0 <= k < n ==> choix[k].None?
    ensures Remplacement(xs, choix, n) == Ok(xs)
  {
    if n > 0 {
      RemplacementRien(xs, choix, n - 1);
    }
  }

  /** Once a step has failed, the whole run fails. */
  lemma {:induction false} RemplacementEchec(xs: seq<Equipement>, choix: seq<Option<Equipement>>, k: nat, n: nat)
    requires k <= n <= |choix| && Remplacement(xs, choix, k).Err?
    ensures Remplacement(xs, choix, n).Err?
  {
    if n > k {
      RemplacementEchec(xs, choix, k, n - 1);
    }
  }

  /** Only slots change. */
  lemma RemplacementBase(xs: seq<Equipement>, types: seq<string>, choix: seq<Option<Equipement>>, n: nat)
    requires ChoixDe(xs, types, choix) && n <= |types|
    ensures Remplacement(xs, choix, n).Ok? ==>
      |Remplacement(xs, choix, n).value| == |xs| &&
      forall i :: 0 <= i < |xs| ==> MemeBase(Remplacement(xs, choix, n).value[i], xs[i])
  {
    RemplacementUniforme(xs, types, choix, n);
  }

  /** On a collection with distinct numbers and valid choices, no step
      fails, and every item wears the item chosen for each type. */
  lemma {:induction false} RemplacementPorte(xs: seq<Equipement>, types: seq<string>,
                                             choix: seq<Option<Equipement>>, n: nat)
    requires NumerosDistincts(xs) && ChoixValides(xs, types, choix) && n <= |types|
    ensures Remplacement(xs, choix, n).Ok?
    ensures PortentJusqua(Remplacement(xs, choix, n).value, types, choix, n)
  {
    if n > 0 {
      RemplacementPorte(xs, types, choix, n - 1);
      RemplacementBase(xs, types, choix, n - 1);
      var ys := Remplacement(xs, choix, n - 1).value;
      if choix[n - 1].None? {
        PortentSansChoix(ys, types, choix, n - 1);
      } else {
        PorteSuivant(xs, types, choix, n - 1, ys);
      }
    }
  }

  /** The step above when the type has an item chosen. */
  lemma PorteSuivant(xs: seq<Equipement>, types: seq<string>, choix: seq<Option<Equipement>>, k: nat,
                     ys: seq<Equipement>)
    requires NumerosDistincts(xs) && ChoixValides(xs, types, choix) && k < |types| && choix[k].Some?
    requires Remplacement(xs, choix, k) == Ok(ys) && PortentJusqua(ys, types, choix, k)
    requires |ys| == |xs| && forall i :: 0 <= i < |xs| ==> MemeBase(ys[i], xs[i])
    ensures Remplacement(xs, choix, k + 1).Ok?
    ensures PortentJusqua(Remplacement(xs, choix, k + 1).value, types, choix, k + 1)
  {
    TrouveEtEquipe(xs, ys, types, choix, k);
    var m := Equiper(LEquipement(ys, choix[k].value.numero).value).value;
    var zs := seq(|ys|, i requires 0 <= i < |ys| => Habiller(ys[i], m));
    RemplacementSuivant(xs, choix, k, ys, zs, m);
    EtapeRemplacement(xs, ys, zs, types, choix, k, m);
  }

  /** On a collection with distinct numbers whose types name different
      slots, no step fails. */
  lemma RemplacementReussit(xs: seq<Equipement>, types: seq<string>)
    ensures NumerosDistincts(xs) && TypesValides(xs, types) ==> Remplacement(xs, Choix(xs, types), |types|).Ok?
  {
    if NumerosDistincts(xs) && TypesValides(xs, types) {
      ChoixMeilleurs(xs, types, Choix(xs, types));
      RemplacementPorte(xs, types, Choix(xs, types), |types|);
    }
  }

  /** What `remplacer_tous_equipements` leaves, `ys`, from `xs`, for a
      list of types, `ok` telling whether it succeeded: only slots change;
      without any item chosen nothing changes; otherwise all items end with
      the same slots, a slot no choice fills holding the first chosen
      item's old value; and on a collection with distinct numbers whose
      types name different slots, nothing fails and every item wears the
      best item of every type. */
  predicate Remplaces(xs: seq<Equipement>, types: seq<string>, ok: bool, ys: seq<Equipement>) {
    var choix := Choix(xs, types);
    var p := Premier(choix, |types|);
    && |ys| == |xs| && (forall i :: 0 <= i < |xs| ==> MemeBase(ys[i], xs[i]))
    && (p.None? ==> ok && ys == xs)
    && (NumerosDistincts(xs) && TypesValides(xs, types) ==>
          && ok
          && forall k, i :: 0 <= k < |types| && 0 <= i < |ys| && Meilleur(xs, types[k]).Some? ==>
               Porte(ys[i], types[k], Meilleur(xs, types[k]).value))
    && (ok && p.Some? ==>
          forall i, j :: 0 <= i < |ys| && 0 <= j < |ys| ==> MemesEmplacements(ys[i], ys[j]))
    && (ok && NumerosDistincts(xs) && p.Some? ==>
          forall i, c :: 0 <= i < |ys| && EstEmplacement(c) && !ChampChoisi(types, choix, |types|, c) ==>
            Lire(c, ys[i]) == Lire(c, p.value))
  }

  /** Working through the choices, when it succeeds, leaves what
      `Remplaces` says. */
  lemma RemplacementSelonProprietes(xs: seq<Equipement>, types: seq<string>)
    requires Remplacement(xs, Choix(xs, types), |types|).Ok?
    ensures Remplaces(xs, types, true, Remplacement(xs, Choix(xs, types), |types|).value)
  {
    var choix := Choix(xs, types);
    ChoixDeMeilleurs(xs, types);
    RemplacementUniforme(xs, types, choix, |types|);
    RemplacementFin(xs, types);
    if Premier(choix, |types|).None? {
      RemplacementRien(xs, choix, |types|);
    }
    if NumerosDistincts(xs) && TypesValides(xs, types) {
      ChoixMeilleurs(xs, types, choix);
      RemplacementPorte(xs, types, choix, |types|);
    }
  }

  /** A failure happens only with some item chosen, and only when the
      numbers repeat or the types do not name different slots; what is
      left then differs from the collection at most in its slots. */
  lemma RemplacementEchoue(xs: seq<Equipement>, types: seq<string>, ys: seq<Equipement>)
    requires Remplacement(xs, Choix(xs, types), |types|).Err?
    requires |ys| == |xs| && forall i :: 0 <= i < |xs| ==> MemeBase(ys[i], xs[i])
    ensures Remplaces(xs, types, false, ys)
  {
    var choix := Choix(xs, types);
    if Premier(choix, |types|).None? {
      RemplacementRien(xs, choix, |types|);
    }
    RemplacementReussit(xs, types);
  }

  // ---------------------------------------------------------------------
  // The warehouse singleton
  // ---------------------------------------------------------------------

  /** The singleton's class-level state: the depot and store `ouvrir` was
      given (nil before), the collection, and the item class whose
      comparators `trier` sets. */
  class EntrepotEquipements {
    const classe: EquipementClasse
    var depot: Option<string>
    var bd: Option<Depot<Equipement>>
    var lesEquipements: seq<Equipement>

    constructor(classe: EquipementClasse)
      ensures this.classe == classe && depot == None && bd == None && lesEquipements == []
    {
      this.classe := classe;
      depot := None;
      bd := None;
      lesEquipements := [];
    }

    /** `ouvrir(depot, bd)`: remembers the depot and the store, then loads
        the collection; when loading fails the collection is as it was.
        Loading raises the item class's `numero_max` by every record
        decoded, up to the first failure; it stays as it was when the store
        is unconfigured or the depot unreadable. */
    method Ouvrir(fs: SystemeFichiers, depot: string, bd: Depot<Equipement>) returns (r: Result<()>)
      requires bd.Valide()
      modifies this, bd.Cibles()
      ensures this.depot == Some(depot) && this.bd == Some(bd)
      ensures var charge := Chargement(bd.config, LignesLues(fs.fichiers, fs.entreeStandard, depot));
        && (r.Ok? <==> charge.Ok?)
        && (charge.Ok? ==> lesEquipements == charge.value)
        && (charge.Err? ==> r == Err(charge.error) && lesEquipements == old(lesEquipements))
      ensures bd.config.Some? && LignesLues(fs.fichiers, fs.entreeStandard, depot).Some? ==>
        var c := bd.config.value;
        c.klasse.numeros.valeur == ObserveTout(old(c.klasse.numeros.valeur),
                                               NumerosDe(c.klasse, Premiers(c, LignesLues(fs.fichiers, fs.entreeStandard, depot).value)))
      ensures bd.config.None? || LignesLues(fs.fichiers, fs.entreeStandard, depot).None? ==>
        forall o :: o in bd.Cibles() ==> o.valeur == old(o.valeur)
    {
      this.depot := Some(depot);
      this.bd := Some(bd);
      var charge := bd.Charger(fs, depot);
      if charge.Err? {
        return Err(charge.error);
      }
      lesEquipements := charge.value;
      r := Ok(());
    }

    /** `fermer`: requires a previous `ouvrir`, then saves the collection
        into the same depot through the same store. */
    method Fermer(fs: SystemeFichiers) returns (r: Result<()>)
      requires bd.Some? ==> bd.value.Valide()
      modifies fs
      ensures fs.entreeStandard == old(fs.entreeStandard)
      ensures depot.None? || bd.None? ==> r == Err(Precondition) && fs.fichiers == old(fs.fichiers)
      ensures depot.Some? && bd.Some? && depot.value !in old(fs.fichiers) ==>
                r == Err(FichierInexistant) && fs.fichiers == old(fs.fichiers)
      ensures depot.Some? && bd.Some? && depot.value in old(fs.fichiers) ==>
        && fs.fichiers == old(fs.fichiers)[depot.value + ".bak" := old(fs.fichiers)[depot.value]]
                                          [depot.value := ContenuSauve(bd.value.config, lesEquipements)]
        && (r.Ok? <==> bd.value.config.Some? || lesEquipements == [])
    {
      if depot.None? || bd.None? {
        return Err(Precondition);
      }
      r := bd.value.Sauver(fs, depot.value, lesEquipements);
    }

    /** `trier(cles, reverse)`: `:numero` is appended to the keys when
        missing (the caller's array is changed too, so the new keys are
        returned), they become the comparators, and the collection comes
        back sorted by them, reversed when asked, without being changed. */
    method Trier(cles: seq<string>, reverse: bool) returns (nouvellesCles: seq<string>, r: Result<seq<Equipement>>)
      modifies classe
      ensures nouvellesCles == if "numero" in cles then cles else cles + ["numero"]
      ensures r.Ok? <==> forall i :: 0 <= i < |nouvellesCles| ==> nouvellesCles[i] in NOMS_CHAMPS
      ensures r.Err? ==> r.error == Precondition && classe.comparateurs == old(classe.comparateurs)
      ensures r.Ok? ==> Some(classe.comparateurs) == ChampsDe(nouvellesCles)
      ensures r.Ok? ==> multiset(r.value) == multiset(lesEquipements)
      ensures r.Ok? ==> Trie(r.value, Ordre(classe.comparateurs, reverse))
    {
      nouvellesCles := if "numero" in cles then cles else cles + ["numero"];
      var ok := classe.SetComparateurs(nouvellesCles);
      if ok.Err? {
        return nouvellesCles, Err(Precondition);
      }
      var o := Ordre(classe.comparateurs, reverse);
      OrdrePreordre(classe.comparateurs, reverse, lesEquipements);
      TrierParTrie(lesEquipements, o);
      r := Ok(TrierPar(lesEquipements, o));
    }

    /** `remplacer_equipement_specifique(numero)`: item `numero` is equipped
        in place, then every item takes its twelve slot fields. Fails, and
        changes nothing, when there is no such item or its type names no
        slot. */
    method RemplacerEquipementSpecifique(numero: int) returns (r: Result<()>)
      modifies this
      ensures depot == old(depot) && bd == old(bd)
      ensures r.Ok? <==> LEquipement(old(lesEquipements), numero).Some?
                         && Equiper(LEquipement(old(lesEquipements), numero).value).Ok?
      ensures r.Err? ==> r.error == ErreurMethode && lesEquipements == old(lesEquipements)
      ensures r.Ok? ==> |lesEquipements| == |old(lesEquipements)|
      ensures r.Ok? ==> forall i :: 0 <= i < |lesEquipements| ==>
        lesEquipements[i] == Habiller(old(lesEquipements)[i], Equiper(LEquipement(old(lesEquipements), numero).value).value)
    {
      var k := Indice(lesEquipements, numero);
      if k.None? {
        return Err(ErreurMethode);
      }
      var equipe := Equiper(lesEquipements[k.value]);
      if equipe.Err? {
        return Err(ErreurMethode);
      }
      var nouvel := equipe.value;
      EquiperIdempotent(lesEquipements[k.value]);
      HabillerMemeBase(nouvel, lesEquipements[k.value], nouvel);
      ghost var avant := lesEquipements;
      lesEquipements := lesEquipements[k.value := nouvel];
      lesEquipements := HabillerTous(lesEquipements, nouvel);
      forall i | 0 <= i < |avant| ensures lesEquipements[i] == Habiller(avant[i], nouvel) {
        if i == k.value {
          HabillerMemeBase(nouvel, avant[i], nouvel);
        }
      }
      r := Ok(());
    }

    /** The loop of `remplacer_tous_equipements` over its choices: for
        each type with an item chosen, in order, that item is equipped by
        its number and every item takes its twelve slot fields; the first
        failure stops the loop. */
    method Parcourir(ghost types: seq<string>, choix: seq<Option<Equipement>>) returns (r: Result<()>)
      requires ChoixDe(lesEquipements, types, choix)
      modifies this
      ensures depot == old(depot) && bd == old(bd)
      ensures r.Ok? <==> Remplacement(old(lesEquipements), choix, |choix|).Ok?
      ensures r.Ok? ==> Remplacement(old(lesEquipements), choix, |choix|) == Ok(lesEquipements)
      ensures r.Err? ==> r.error == ErreurMethode
      ensures r.Err? ==> |lesEquipements| == |old(lesEquipements)|
                         && forall i :: 0 <= i < |lesEquipements| ==> MemeBase(lesEquipements[i], old(lesEquipements)[i])
    {
      ghost var xs := lesEquipements;
      r := Ok(());
      var k := 0;
      while k < |choix|
        invariant 0 <= k <= |choix|
        invariant depot == old(depot) && bd == old(bd)
        invariant Remplacement(xs, choix, k) == Ok(lesEquipements)
      {
        if choix[k].Some? {
          ghost var avant := lesEquipements;
          var rk := RemplacerEquipementSpecifique(choix[k].value.numero);
          if rk.Err? {
            assert Remplacement(xs, choix, k + 1).Err?;
            RemplacementEchec(xs, choix, k + 1, |choix|);
            RemplacementBase(xs, types, choix, k);
            return rk;
          }
          ghost var m := Equiper(LEquipement(avant, choix[k].value.numero).value).value;
          RemplacementSuivant(xs, choix, k, avant, lesEquipements, m);
        }
        k := k + 1;
      }
    }

    /** `remplacer_tous_equipements` for a list of types: the best item of
        each type is picked first, then each picked item is equipped by its
        number, in order; a type without items is skipped. What it leaves
        is what `Remplaces` says. */
    method RemplacerSelon(types: seq<string>) returns (r: Result<()>)
      modifies this
      ensures depot == old(depot) && bd == old(bd)
      ensures r.Err? ==> r.error == ErreurMethode
      ensures r.Ok? ==> Remplacement(old(lesEquipements), Choix(old(lesEquipements), types), |types|) == Ok(lesEquipements)
      ensures Remplaces(old(lesEquipements), types, r.Ok?, lesEquipements)
    {
      var xs := lesEquipements;
      var choix := Choix(xs, types);
      ChoixDeMeilleurs(xs, types);
      r := Parcourir(types, choix);
      if r.Ok? {
        RemplacementSelonProprietes(xs, types);
      } else {
        RemplacementEchoue(xs, types, lesEquipements);
      }
    }

    /** `remplacer_tous_equipements` as intended: the chest is the `Torse`
        slot. On a collection with distinct numbers nothing fails. */
    method RemplacerTousEquipements() returns (r: Result<()>)
      modifies this
      ensures depot == old(depot) && bd == old(bd)
      ensures r.Err? ==> r.error == ErreurMethode
      ensures Remplaces(old(lesEquipements), TYPES, r.Ok?, lesEquipements)
      ensures NumerosDistincts(old(lesEquipements)) ==> r.Ok?
    {
      TypesCorrigesValides(lesEquipements);
      r := RemplacerSelon(TYPES);
    }

    /** `remplacer_tous_equipements` as written: it looks for `Plastron`
        items, a type no slot has. */
    method RemplacerTousEquipementsTelQuel() returns (r: Result<()>)
      modifies this
      ensures depot == old(depot) && bd == old(bd)
      ensures r.Err? ==> r.error == ErreurMethode
      ensures Remplaces(old(lesEquipements), TYPES_TEL_QUEL, r.Ok?, lesEquipements)
    {
      r := RemplacerSelon(TYPES_TEL_QUEL);
    }

    /** `l_equipement(numero)` on the collection: the first item with that
        number. */
    function LEquipementDe(numero: int): (r: Option<Equipement>)
      reads this
      ensures r.None? <==> forall x :: x in lesEquipements ==> x.numero != numero
      ensures r.Some? ==> r.value in lesEquipements && r.value.numero == numero
      ensures r.Some? ==> exists k :: 0 <= k < |lesEquipements| && lesEquipements[k] == r.value
                                      && forall j :: 0 <= j < k ==> lesEquipements[j].numero != numero
    {
      LEquipement(lesEquipements, numero)
    }

    /** `calculer_attaque_max` on the collection. */
    function CalculerAttaqueMax(): (r: Result<int>)
      reads this
      ensures r.Err? <==> forall x :: x in lesEquipements ==> x.numero != 0
      ensures r.Ok? ==> var h := LEquipementDe(0).value;
        h.armeattaque >= 1 ==> r.value == h.attaque + h.armeattaque
      ensures r.Ok? ==> var h := LEquipementDe(0).value;
        h.armeattaque < 1 ==> r.value == h.attaque
    {
      AttaqueMax(lesEquipements)
    }

    /** `calculer_defense_max` on the collection. */
    function CalculerDefenseMax(): (r: Result<int>)
      reads this
      ensures r.Err? <==> forall x :: x in lesEquipements ==> x.numero != 0
      ensures r.Ok? ==> var h := LEquipementDe(0).value;
        r.value == h.defense + Bonus(h, "tete") + Bonus(h, "torse") + Bonus(h, "mains")
                   + Bonus(h, "pantalons") + Bonus(h, "bottes")
    {
      DefenseMax(lesEquipements)
    }
  }

  /** The six corrected types name six different slots, whatever the collection. */
  lemma TypesCorrigesValides(xs: seq<Equipement>)
    ensures TypesValides(xs, TYPES)
  {
    TypesCorrigesDistincts();
    TypesCorrigesEmplacements();
  }

  /** The corrected types downcase to six different names. */
  lemma TypesCorrigesDistincts()
    ensures TypesDistincts(TYPES)
  {
    forall k1, k2 | 0 <= k1 < k2 < |TYPES|
      ensures Texte.Minuscules(TYPES[k1]) != Texte.Minuscules(TYPES[k2])
    {
      TypesMinuscules(k1);
      TypesMinuscules(k2);
      EmplacementsDistincts(k1, k2);
    }
  }

  /** Each corrected type downcases to a slot name. */
  lemma TypesCorrigesEmplacements()
    ensures forall k :: 0 <= k < |TYPES| ==> Emplacement(Texte.Minuscules(TYPES[k])).Some?
  {
    forall k | 0 <= k < |TYPES|
      ensures Emplacement(Texte.Minuscules(TYPES[k])).Some?
    {
      TypesMinuscules(k);
      EmplacementsConnus(k);
    }
  }

  /** As written, `remplacer_tous_equipements` never equips the chest: no
      type of its list downcases to the chest slot, and its `Plastron`
      downcases to a name that is no slot. */
  lemma TelQuelSansTorse()
    ensures forall k :: 0 <= k < |TYPES_TEL_QUEL| ==> Texte.Minuscules(TYPES_TEL_QUEL[k]) != "torse"
    ensures Emplacement(Texte.Minuscules(TYPES_TEL_QUEL[1])).None?
  {
    TypesTelQuel();
    forall k | 0 <= k < |TYPES_TEL_QUEL|
      ensures Texte.Minuscules(TYPES_TEL_QUEL[k]) != "torse"
    {
      if k == 1 {
        PlastronPasTorse();
      } else {
        TypesMinuscules(k);
        assert TYPES_TEL_QUEL[k] == TYPES[k];
        assert EMPLACEMENTS[1] == "torse";
        if k < 1 { EmplacementsDistincts(k, 1); } else { EmplacementsDistincts(1, k); }
      }
    }
    EmplacementHors("plastron");
  }

  lemma PlastronPasTorse()
    ensures "plastron" != "torse"
  {
    assert |"plastron"| != |"torse"|;
  }

  /** A name that is no slot's has no slot. */
  lemma EmplacementHors(t: string)
    requires t !in EMPLACEMENTS
    ensures Emplacement(t).None?
  {
    assert EMPLACEMENTS == ["tete", "torse", "mains", "pantalons", "bottes", "arme"];
  }

  /** Yet the seed holds chest items, of type `Torse`, such as the legendary
      chest of power 20. */
  lemma GraineTorse()
    ensures GRAINE[11] in GRAINE && GRAINE[11].typeEquipement == TYPES[1]
    ensures GRAINE[11].nom == "Plastron legendaire" && GRAINE[11].puissance == 20
    ensures Emplacement(Texte.Minuscules(TYPES[1])) == Some((Torse, TorseDefense))
  {
    TypesMinuscules(1);
  }

  /** An item of type `t` in the collection makes the best one exist, at
      least as powerful. */
  lemma MeilleurAuMoins(xs: seq<Equipement>, t: string, x: Equipement)
    requires x in xs && x.typeEquipement == t
    ensures Meilleur(xs, t).Some? && Meilleur(xs, t).value.puissance >= x.puissance
  {
  }

  /** The seed's numbers are its positions, so they are all different. */
  lemma GraineNumeros()
    ensures forall i :: 0 <= i < |GRAINE| ==> GRAINE[i].numero == i
    ensures NumerosDistincts(GRAINE)
  {
    var g := GRAINE;
    assert |g| == 20;
    assert forall i :: 0 <= i < |g| ==> g[i].numero == i;
  }

  /** Each of the six slot names is one `equiper` knows. */
  lemma EmplacementsConnus(k: nat)
    requires k < |EMPLACEMENTS|
    ensures Emplacement(EMPLACEMENTS[k]).Some?
  {
  }

  // ---------------------------------------------------------------------
  // `remplacer_tous_equipements` on the seed
  // ---------------------------------------------------------------------

  /** What matters here of a collection shaped like the seed: numbers are
      positions; every record wears the leather chest of bonus 1 and has
      base defence 10; the fifteen armour records come by type in rounds of
      five, of power 1, 5 and 20; the last five are weapons. */
  predicate CommeGraine(g: seq<Equipement>) {
    && |g| == 20
    && (forall i :: 0 <= i < 20 ==> g[i].numero == i && g[i].defense == 10)
    && (forall i :: 0 <= i < 20 ==> g[i].torse == PLASTRON && g[i].torsedefense == 1)
    && (forall i :: 0 <= i < 5 ==> g[i].typeEquipement == TYPES[i] && g[i].puissance == 1)
    && (forall i :: 5 <= i < 10 ==> g[i].typeEquipement == TYPES[i - 5] && g[i].puissance == 5)
    && (forall i :: 10 <= i < 15 ==> g[i].typeEquipement == TYPES[i - 10] && g[i].puissance == 20)
    && (forall i :: 15 <= i < 20 ==> g[i].typeEquipement == TYPES[5])
  }

  /** The seed is shaped so. */
  lemma GraineCommeGraine()
    ensures CommeGraine(GRAINE)
  {
    GraineBase();
    GraineTorses();
    GraineCuir();
    GraineFer();
    GraineLegende();
    GraineArmes();
  }

  lemma GraineBase()
    ensures |GRAINE| == 20 && forall i :: 0 <= i < 20 ==> GRAINE[i].numero == i && GRAINE[i].defense == 10
  {
    var g := GRAINE;
    assert forall i :: 0 <= i < 20 ==> g[i].numero == i && g[i].defense == 10;
  }

  lemma GraineTorses()
    ensures |GRAINE| == 20 && forall i :: 0 <= i < 20 ==> GRAINE[i].torse == PLASTRON && GRAINE[i].torsedefense == 1
  {
    var g := GRAINE;
    assert forall i :: 0 <= i < 20 ==> g[i].torse == PLASTRON && g[i].torsedefense == 1;
  }

  lemma GraineCuir()
    ensures |GRAINE| == 20 && forall i :: 0 <= i < 5 ==> GRAINE[i].typeEquipement == TYPES[i] && GRAINE[i].puissance == 1
  {
    var g := GRAINE;
    assert forall i :: 0 <= i < 5 ==> g[i].typeEquipement == TYPES[i] && g[i].puissance == 1;
  }

  lemma GraineFer()
    ensures |GRAINE| == 20 && forall i :: 5 <= i < 10 ==> GRAINE[i].typeEquipement == TYPES[i - 5] && GRAINE[i].puissance == 5
  {
    var g := GRAINE;
    assert forall i :: 5 <= i < 10 ==> g[i].typeEquipement == TYPES[i - 5] && g[i].puissance == 5;
  }

  lemma GraineLegende()
    ensures |GRAINE| == 20 && forall i :: 10 <= i < 15 ==> GRAINE[i].typeEquipement == TYPES[i - 10] && GRAINE[i].puissance == 20
  {
    var g := GRAINE;
    assert forall i :: 10 <= i < 15 ==> g[i].typeEquipement == TYPES[i - 10] && g[i].puissance == 20;
  }

  lemma GraineArmes()
    ensures |GRAINE| == 20 && forall i :: 15 <= i < 20 ==> GRAINE[i].typeEquipement == TYPES[5]
  {
    var g := GRAINE;
    assert forall i :: 15 <= i < 20 ==> g[i].typeEquipement == TYPES[5];
  }

  /** Numbers that are positions are all different. */
  lemma CommeGraineNumeros(g: seq<Equipement>)
    requires CommeGraine(g)
    ensures NumerosDistincts(g)
  {
  }

  /** The best item of each armour type has power 20. */
  lemma CommeGraineMeilleur(g: seq<Equipement>, k: nat)
    requires CommeGraine(g) && k < 5
    ensures Meilleur(g, TYPES[k]).Some? && Meilleur(g, TYPES[k]).value.puissance == 20
  {
    assert g[10 + k].typeEquipement == TYPES[k];
    MeilleurAuMoins(g, TYPES[k], g[10 + k]);
    var b := Meilleur(g, TYPES[k]).value;
    var i :| 0 <= i < |g| && g[i] == b;
    ArmureNiArme(k);
    assert i < 15;
  }

  /** No armour type is the weapon's. */
  lemma ArmureNiArme(k: nat)
    requires k < 5
    ensures TYPES[k] != TYPES[5]
  {
    TypesCorrigesDistincts();
  }

  /** No item has the type `Plastron`. */
  lemma CommeGrainePlastron(g: seq<Equipement>)
    requires CommeGraine(g)
    ensures Meilleur(g, TYPES_TEL_QUEL[1]).None?
  {
    TypesTelQuel();
    forall i | 0 <= i < |g| ensures g[i].typeEquipement != TYPES_TEL_QUEL[1] {
      var k := if i < 5 then i else if i < 10 then i - 5 else if i < 15 then i - 10 else 5;
      assert g[i].typeEquipement == TYPES[k];
      TypesMinuscules(k);
    }
  }

  /** Only the chest's type names the chest's fields. */
  lemma ChampDeTorse(c: Champ, t: string)
    requires c == Torse || c == TorseDefense
    requires ChampDeType(c, t)
    ensures Texte.Minuscules(t) == "torse"
  {
  }

  /** The hero of a collection that differs from such a one at most in its
      slots is its first item, of base defence 10. */
  lemma HerosCommeGraine(g: seq<Equipement>, ys: seq<Equipement>)
    requires CommeGraine(g)
    requires |ys| == |g| && forall i :: 0 <= i < |g| ==> MemeBase(ys[i], g[i])
    ensures LEquipement(ys, 0) == Some(ys[0]) && ys[0].defense == 10
  {
    assert Lire(Numero, ys[0]) == Lire(Numero, g[0]);
    assert Lire(Defense, ys[0]) == Lire(Defense, g[0]);
    var h := LEquipement(ys, 0).value;
    var j :| 0 <= j < |ys| && ys[j] == h;
    assert Lire(Numero, ys[j]) == Lire(Numero, g[j]);
  }

  /** Wearing `b` in the slot of type `t` gives that slot `b`'s power as bonus. */
  lemma PorteBonus(h: Equipement, t: string, b: Equipement)
    requires Porte(h, t, b)
    ensures Emplacement(Texte.Minuscules(t)).Some? && Bonus(h, Texte.Minuscules(t)) == b.puissance
  {
  }

  /** Wearing the best item of an armour type gives that slot the bonus 20. */
  lemma BonusCommeGraine(g: seq<Equipement>, h: Equipement, k: nat)
    requires CommeGraine(g) && k < 5
    requires Meilleur(g, TYPES[k]).Some? && Porte(h, TYPES[k], Meilleur(g, TYPES[k]).value)
    ensures Emplacement(Texte.Minuscules(TYPES[k])).Some? && Bonus(h, Texte.Minuscules(TYPES[k])) == 20
  {
    CommeGraineMeilleur(g, k);
    PorteBonus(h, TYPES[k], Meilleur(g, TYPES[k]).value);
  }

  /** The types as written are valid on such a collection: the chest's
      `Plastron` has no item, and the six names downcase differently. */
  lemma CommeGraineTelQuelValides(g: seq<Equipement>)
    requires CommeGraine(g)
    ensures TypesValides(g, TYPES_TEL_QUEL)
  {
    CommeGrainePlastron(g);
    TypesTelQuel();
    forall k | 0 <= k < |TYPES_TEL_QUEL| && Meilleur(g, TYPES_TEL_QUEL[k]).Some?
      ensures Emplacement(Texte.Minuscules(TYPES_TEL_QUEL[k])).Some?
    {
      TypesMinuscules(k);
      EmplacementsConnus(k);
    }
    forall k1, k2 | 0 <= k1 < k2 < |TYPES_TEL_QUEL|
      ensures Texte.Minuscules(TYPES_TEL_QUEL[k1]) != Texte.Minuscules(TYPES_TEL_QUEL[k2])
    {
      TypesMinuscules(k1);
      TypesMinuscules(k2);
      if k1 != 1 && k2 != 1 {
        EmplacementsDistincts(k1, k2);
      }
    }
  }

  /** What `Remplaces` says of the items' base fields. */
  lemma RemplacesBase(xs: seq<Equipement>, types: seq<string>, ok: bool, ys: seq<Equipement>)
    requires Remplaces(xs, types, ok, ys)
    ensures |ys| == |xs| && forall i :: 0 <= i < |xs| ==> MemeBase(ys[i], xs[i])
  {
  }

  /** What `Remplaces` says of the best items on a valid collection. */
  lemma RemplacesPorte(xs: seq<Equipement>, types: seq<string>, ok: bool, ys: seq<Equipement>, k: nat, i: nat)
    requires Remplaces(xs, types, ok, ys) && NumerosDistincts(xs) && TypesValides(xs, types)
    requires k < |types| && i < |ys| && Meilleur(xs, types[k]).Some?
    ensures ok && Porte(ys[i], types[k], Meilleur(xs, types[k]).value)
  {
  }

  /** What `Remplaces` says of a slot no choice fills. */
  lemma RemplacesLibre(xs: seq<Equipement>, types: seq<string>, ok: bool, ys: seq<Equipement>, i: nat, c: Champ)
    requires Remplaces(xs, types, ok, ys) && ok && NumerosDistincts(xs)
    requires Premier(Choix(xs, types), |types|).Some?
    requires i < |ys| && EstEmplacement(c) && !ChampChoisi(types, Choix(xs, types), |types|, c)
    ensures Lire(c, ys[i]) == Lire(c, Premier(Choix(xs, types), |types|).value)
  {
  }

  /** The five armour bonuses are the five defence fields. */
  lemma BonusChamps(h: Equipement)
    ensures forall k :: 0 <= k < 5 ==> Emplacement(EMPLACEMENTS[k]).Some?
    ensures Bonus(h, EMPLACEMENTS[0]) == h.tetedefense && Bonus(h, EMPLACEMENTS[1]) == h.torsedefense
    ensures Bonus(h, EMPLACEMENTS[2]) == h.mainsdefense && Bonus(h, EMPLACEMENTS[3]) == h.pantalonsdefense
    ensures Bonus(h, EMPLACEMENTS[4]) == h.bottesdefense
  {
    assert EMPLACEMENTS == ["tete", "torse", "mains", "pantalons", "bottes", "arme"];
  }

  /** Items whose chest fields read the same have the same chest. */
  lemma MemeTorse(a: Equipement, b: Equipement)
    requires Lire(Torse, a) == Lire(Torse, b) && Lire(TorseDefense, a) == Lire(TorseDefense, b)
    ensures a.torse == b.torse && a.torsedefense == b.torsedefense
  {
  }

  /** The hero's defence total when its five armour bonuses are known. */
  lemma DefenseDuHeros(ys: seq<Equipement>, tete: int, torse: int, mains: int, pantalons: int, bottes: int)
    requires |ys| > 0 && LEquipement(ys, 0) == Some(ys[0])
    requires Bonus(ys[0], EMPLACEMENTS[0]) == tete && Bonus(ys[0], EMPLACEMENTS[1]) == torse
    requires Bonus(ys[0], EMPLACEMENTS[2]) == mains && Bonus(ys[0], EMPLACEMENTS[3]) == pantalons
    requires Bonus(ys[0], EMPLACEMENTS[4]) == bottes
    ensures DefenseMax(ys) == Ok(ys[0].defense + tete + torse + mains + pantalons + bottes)
  {
  }

  /** On a collection shaped like the seed, an armour type the list holds
      at its own place gives every item the bonus 20 in that slot. */
  lemma ArmureCommeGraine(g: seq<Equipement>, types: seq<string>, ok: bool, ys: seq<Equipement>, k: nat, i: nat)
    requires CommeGraine(g) && Remplaces(g, types, ok, ys) && TypesValides(g, types)
    requires k < 5 && k < |types| && types[k] == TYPES[k] && i < |ys|
    ensures ok && Emplacement(EMPLACEMENTS[k]).Some? && Bonus(ys[i], EMPLACEMENTS[k]) == 20
  {
    EmplacementsConnus(k);
    CommeGraineNumeros(g);
    CommeGraineMeilleur(g, k);
    RemplacesPorte(g, types, ok, ys, k, i);
    BonusCommeGraine(g, ys[i], k);
    TypesMinuscules(k);
  }

  /** The hero (item 0) has a bonus of 20 in each armour slot other than
      the chest. */
  predicate ArmuresDuHeros(ys: seq<Equipement>) {
    && |ys| > 0
    && forall k :: 0 <= k < 5 && k != 1 ==> Emplacement(EMPLACEMENTS[k]).Some? && Bonus(ys[0], EMPLACEMENTS[k]) == 20
  }

  /** On a collection shaped like the seed, when the list holds the four
      armour types other than the chest at their own places: nothing fails
      and the hero wears the best of each of them. */
  lemma ArmuresCommeGraine(g: seq<Equipement>, types: seq<string>, ok: bool, ys: seq<Equipement>)
    requires CommeGraine(g) && Remplaces(g, types, ok, ys) && TypesValides(g, types)
    requires |types| == 6 && forall k :: 0 <= k < 5 && k != 1 ==> types[k] == TYPES[k]
    ensures ok && ArmuresDuHeros(ys)
  {
    RemplacesBase(g, types, ok, ys);
    ArmureCommeGraine(g, types, ok, ys, 0, 0);
    forall k | 0 <= k < 5 && k != 1
      ensures Emplacement(EMPLACEMENTS[k]).Some? && Bonus(ys[0], EMPLACEMENTS[k]) == 20
    {
      ArmureCommeGraine(g, types, ok, ys, k, 0);
    }
  }

  /** The hero's defence total, once those four slots give 20 each: its
      base 10, 80, and whatever bonus its chest gives. */
  lemma DefenseCommeGraine(g: seq<Equipement>, ys: seq<Equipement>)
    requires CommeGraine(g) && ArmuresDuHeros(ys)
    requires |ys| == |g| && forall i :: 0 <= i < |g| ==> MemeBase(ys[i], g[i])
    ensures |ys| == 20 && DefenseMax(ys) == Ok(90 + ys[0].torsedefense)
  {
    HerosCommeGraine(g, ys);
    BonusChamps(ys[0]);
    DefenseDuHeros(ys, 20, ys[0].torsedefense, 20, 20, 20);
  }

  /** As written, on a collection shaped like the seed (`GraineCommeGraine`:
      the seed is): nothing fails, every item keeps the leather chest of
      bonus 1, and the hero's defence total is 91. */
  lemma TelQuelCommeGraine(g: seq<Equipement>, types: seq<string>, ok: bool, ys: seq<Equipement>)
    requires types == TYPES_TEL_QUEL && CommeGraine(g) && Remplaces(g, types, ok, ys)
    ensures ok
    ensures forall i :: 0 <= i < |ys| ==> ys[i].torse == PLASTRON && ys[i].torsedefense == 1
    ensures DefenseMax(ys) == Ok(91)
  {
    TorsesTelQuel(g, types, ok, ys);
    ArmuresTelQuel(g, types, ok, ys);
  }

  /** The armour part of the above: the four other armour types are at
      their own places in the list as written, so the hero's defence is
      90 and its chest's bonus. */
  lemma ArmuresTelQuel(g: seq<Equipement>, types: seq<string>, ok: bool, ys: seq<Equipement>)
    requires types == TYPES_TEL_QUEL && CommeGraine(g) && Remplaces(g, types, ok, ys)
    ensures ok && |ys| == 20 && DefenseMax(ys) == Ok(90 + ys[0].torsedefense)
  {
    CommeGraineTelQuelValides(g);
    TypesTelQuel();
    ArmuresCommeGraine(g, types, ok, ys);
    RemplacesBase(g, types, ok, ys);
    DefenseCommeGraine(g, ys);
  }

  /** The chest part of the above: no choice fills the chest, which keeps
      the first chosen item's, the leather one. */
  lemma TorsesTelQuel(g: seq<Equipement>, types: seq<string>, ok: bool, ys: seq<Equipement>)
    requires types == TYPES_TEL_QUEL && CommeGraine(g) && Remplaces(g, types, ok, ys)
    ensures ok
    ensures forall i :: 0 <= i < |ys| ==> ys[i].torse == PLASTRON && ys[i].torsedefense == 1
  {
    CommeGraineNumeros(g);
    CommeGraineTelQuelValides(g);
    RemplacesBase(g, types, ok, ys);
    CommeGraineMeilleur(g, 0);
    TypesTelQuel();
    assert types[0] == TYPES[0];
    RemplacesPorte(g, types, ok, ys, 0, 0);
    var choix := Choix(g, types);
    var p := Premier(choix, |types|);
    assert p.Some? by { assert choix[0].Some?; }
    assert p.value in g;
    TelQuelSansTorse();
    forall c | c == Torse || c == TorseDefense ensures !ChampChoisi(types, choix, |types|, c) {
      if ChampChoisi(types, choix, |types|, c) {
        var k :| 0 <= k < |types| && choix[k].Some? && ChampDeType(c, types[k]);
        ChampDeTorse(c, types[k]);
      }
    }
    var b := p.value;
    assert b.torse == PLASTRON && b.torsedefense == 1 by {
      var j :| 0 <= j < |g| && g[j] == b;
    }
    forall i | 0 <= i < |ys| ensures ys[i].torse == b.torse && ys[i].torsedefense == b.torsedefense {
      RemplacesLibre(g, types, ok, ys, i, Torse);
      RemplacesLibre(g, types, ok, ys, i, TorseDefense);
      MemeTorse(ys[i], b);
    }
  }

  /** As intended, on a collection shaped like the seed (`GraineCommeGraine`:
      the seed is): nothing fails, every item wears a chest of bonus 20,
      and the hero's defence total is 110. */
  lemma CorrigeeCommeGraine(g: seq<Equipement>, types: seq<string>, ok: bool, ys: seq<Equipement>)
    requires types == TYPES && CommeGraine(g) && Remplaces(g, types, ok, ys)
    ensures ok
    ensures forall i :: 0 <= i < |ys| ==> ys[i].torsedefense == 20
    ensures DefenseMax(ys) == Ok(110)
  {
    TorsesCorriges(g, types, ok, ys);
    ArmuresCorrigees(g, types, ok, ys);
  }

  /** The chest part of the above: every item wears the best chest. */
  lemma TorsesCorriges(g: seq<Equipement>, types: seq<string>, ok: bool, ys: seq<Equipement>)
    requires types == TYPES && CommeGraine(g) && Remplaces(g, types, ok, ys)
    ensures ok
    ensures forall i :: 0 <= i < |ys| ==> ys[i].torsedefense == 20
  {
    RemplacesBase(g, types, ok, ys);
    TorseCorrige(g, types, ok, ys, 0);
    forall i | 0 <= i < |ys| ensures ys[i].torsedefense == 20 {
      TorseCorrige(g, types, ok, ys, i);
    }
  }

  /** Item `i` wears the best chest, of bonus 20. */
  lemma TorseCorrige(g: seq<Equipement>, types: seq<string>, ok: bool, ys: seq<Equipement>, i: nat)
    requires types == TYPES && CommeGraine(g) && Remplaces(g, types, ok, ys) && i < |ys|
    ensures ok && ys[i].torsedefense == 20
  {
    TypesCorrigesValides(g);
    ArmureCommeGraine(g, types, ok, ys, 1, i);
    BonusChamps(ys[i]);
  }

  /** The armour part of the corrected case: the hero's defence is 90 and
      its chest's bonus. */
  lemma ArmuresCorrigees(g: seq<Equipement>, types: seq<string>, ok: bool, ys: seq<Equipement>)
    requires types == TYPES && CommeGraine(g) && Remplaces(g, types, ok, ys)
    ensures ok && |ys| == 20 && DefenseMax(ys) == Ok(90 + ys[0].torsedefense)
  {
    TypesCorrigesValides(g);
    ArmuresCommeGraine(g, types, ok, ys);
    RemplacesBase(g, types, ok, ys);
    DefenseCommeGraine(g, ys);
  }

  /** The seed itself, with the list as written: nothing fails, every item
      keeps the leather chest of bonus 1, and the hero's defence is 91. */
  lemma GraineTelQuel(g: seq<Equipement>, types: seq<string>, ok: bool, ys: seq<Equipement>)
    requires g == GRAINE && types == TYPES_TEL_QUEL && Remplaces(g, types, ok, ys)
    ensures ok && DefenseMax(ys) == Ok(91)
    ensures forall i :: 0 <= i < |ys| ==> ys[i].torsedefense == 1
  {
    GraineCommeGraine();
    TelQuelCommeGraine(g, types, ok, ys);
  }

  /** The seed itself, with the corrected list: nothing fails, every item
      wears a chest of bonus 20, and the hero's defence is 110. */
  lemma GraineCorrigee(g: seq<Equipement>, types: seq<string>, ok: bool, ys: seq<Equipement>)
    requires g == GRAINE && types == TYPES && Remplaces(g, types, ok, ys)
    ensures ok && DefenseMax(ys) == Ok(110)
    ensures forall i :: 0 <= i < |ys| ==> ys[i].torsedefense == 20
  {
    GraineCommeGraine();
    CorrigeeCommeGraine(g, types, ok, ys);
  }
}
