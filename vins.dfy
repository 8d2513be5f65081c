/** A wine of the cellar (`GestionVins::Vin`): its fields, its rating, the
    field-by-field comparison, its CSV line and its display table. The
    class-level state (`numero_max`, `comparateurs`) is `VinClasse`. */
module Vins {
  import opened Wrappers
  import opened Texte
  import opened Dates
  import opened Interpreteur
  import opened Numeros
  import Motifs

  /** The fields of a wine. The price is kept in cents; the rating and the
      comment are absent (nil) until the wine is rated. */
  datatype Vin = Vin(numero: nat, dateAchat: Date, typeVin: string, appellation: string,
                     millesime: nat, nom: string, prix: nat,
                     note: Option<int>, commentaire: Option<string>)

  /** `bu?` (alias `note?`): the wine has been rated. */
  predicate Bu(v: Vin) {
    v.note.Some?
  }

  /** `note`: only defined once the wine has been rated. */
  function Note(v: Vin): (r: Result<int>)
    ensures r.Ok? <==> Bu(v)
    ensures r.Ok? ==> Some(r.value) == v.note
    ensures r.Err? ==> r.error == Precondition
  {
    if v.note.None? then Err(Precondition) else Ok(v.note.value)
  }

  /** `commentaire`: only defined once the wine has been rated; it may be nil. */
  function Commentaire(v: Vin): (r: Result<Option<string>>)
    ensures r.Ok? <==> Bu(v)
    ensures r.Ok? ==> r.value == v.commentaire
    ensures r.Err? ==> r.error == Precondition
  {
    if v.note.None? then Err(Precondition) else Ok(v.commentaire)
  }

  /** `Vin.new`: the contract checks on the number, the vintage and the price.
      (That the date is a `Date` and the type a `Symbol` is given by the types.) */
  function NouveauVin(numero: int, date: Date, typeVin: string, appellation: string,
                      millesime: int, nom: string, prix: int,
                      note: Option<int>, commentaire: Option<string>): (r: Result<Vin>)
    ensures r.Ok? <==> numero >= 0 && millesime >= 0 && prix >= 0
    ensures r.Ok? ==> (r.value.numero == numero && r.value.dateAchat == date && r.value.typeVin == typeVin
      && r.value.appellation == appellation && r.value.millesime == millesime && r.value.nom == nom
      && r.value.prix == prix && r.value.note == note && r.value.commentaire == commentaire)
    ensures r.Err? ==> r.error == Precondition
  {
    if numero < 0 || millesime < 0 || prix < 0 then Err(Precondition)
    else Ok(Vin(numero, date, typeVin, appellation, millesime, nom, prix, note, commentaire))
  }

  /** `noter`: fails on a wine already rated, then on a rating outside
      NOTE_MIN..NOTE_MAX; otherwise sets the rating and the comment. */
  function Noter(v: Vin, note: int, commentaire: string): (r: Result<Vin>)
    ensures r.Ok? <==> !Bu(v) && Motifs.NOTE_MIN <= note <= Motifs.NOTE_MAX
    ensures r.Err? ==> r.error == (if Bu(v) then DejaNote else NoteInvalide)
    ensures r.Ok? ==> Bu(r.value) && Note(r.value) == Ok(note) && Commentaire(r.value) == Ok(Some(commentaire))
    ensures r.Ok? ==> r.value.(note := v.note, commentaire := v.commentaire) == v
  {
    if v.note.Some? then Err(DejaNote)
    else if note < Motifs.NOTE_MIN || note > Motifs.NOTE_MAX then Err(NoteInvalide)
    else Ok(v.(note := Some(note), commentaire := Some(commentaire)))
  }

  /** A wine is rated once: rating it again always fails. */
  lemma NoterUneFois(v: Vin, n1: int, c1: string, n2: int, c2: string)
    requires Noter(v, n1, c1).Ok?
    ensures Noter(Noter(v, n1, c1).value, n2, c2) == Err(DejaNote)
  {
  }

  // ---------------------------------------------------------------------
  // Comparison: `<=>` over `Vin.comparateurs`
  // ---------------------------------------------------------------------

  /** The names allowed in `comparateurs` (READERS + ACCESSORS). */
  datatype Champ = Numero | DateAchat | Type | Appellation | Millesime | Nom | Prix | NoteChamp | CommentaireChamp

  function ChampDe(nom: string): (r: Option<Champ>)
    ensures r.Some? <==> nom in NOMS_CHAMPS
  {
    if nom == "numero" then Some(Numero)
    else if nom == "date_achat" then Some(DateAchat)
    else if nom == "type" then Some(Type)
    else if nom == "appellation" then Some(Appellation)
    else if nom == "millesime" then Some(Millesime)
    else if nom == "nom" then Some(Nom)
    else if nom == "prix" then Some(Prix)
    else if nom == "note" then Some(NoteChamp)
    else if nom == "commentaire" then Some(CommentaireChamp)
    else None
  }

  const NOMS_CHAMPS: set<string> :=
    {"numero", "date_achat", "type", "appellation", "millesime", "nom", "prix", "note", "commentaire"}

  /** `comparateurs=`: every name must be a field name; otherwise the call
      fails and nothing is returned. */
  function ChampsDe(noms: seq<string>): (r: Option<seq<Champ>>)
    ensures r.Some? <==> forall i :: 0 <= i < |noms| ==> noms[i] in NOMS_CHAMPS
    ensures r.Some? ==> |r.value| == |noms| && forall i :: 0 <= i < |noms| ==> Some(r.value[i]) == ChampDe(noms[i])
  {
    if noms == [] then Some([])
    else match ChampDe(noms[0])
      case None => None
      case Some(c) =>
        match ChampsDe(noms[1..])
        case None => None
        case Some(cs) => Some([c] + cs)
  }

  /** What `<=>` on one field gives: an order, or nil when exactly one of two
      comments is nil. */
  datatype Comparaison = Ordre(r: int) | Incomparable

  function Oppose(c: Comparaison): Comparaison {
    match c
    case Ordre(r) => Ordre(-r)
    case Incomparable => Incomparable
  }

  function OpposeResultat(r: Result<Comparaison>): Result<Comparaison> {
    match r
    case Ok(c) => Ok(Oppose(c))
    case Err(e) => Err(e)
  }

  /** `send(champ) <=> autre.send(champ)`: reading the rating or the comment of
      an unrated wine fails (the receiver is read first). */
  function CompareChamp(c: Champ, a: Vin, b: Vin): (r: Result<Comparaison>)
    ensures r.Err? <==> (c == NoteChamp || c == CommentaireChamp) && (!Bu(a) || !Bu(b))
    ensures r.Ok? && r.value.Ordre? ==> -1 <= r.value.r <= 1
  {
    match c
    case Numero => Ok(Ordre(CompareEntiers(a.numero, b.numero)))
    case DateAchat => Ok(Ordre(CompareDates(a.dateAchat, b.dateAchat)))
    case Type => Ok(Ordre(CompareChaines(a.typeVin, b.typeVin)))
    case Appellation => Ok(Ordre(CompareChaines(a.appellation, b.appellation)))
    case Millesime => Ok(Ordre(CompareEntiers(a.millesime, b.millesime)))
    case Nom => Ok(Ordre(CompareChaines(a.nom, b.nom)))
    case Prix => Ok(Ordre(CompareEntiers(a.prix, b.prix)))
    case NoteChamp =>
      if !Bu(a) || !Bu(b) then Err(Precondition)
      else Ok(Ordre(CompareEntiers(a.note.value, b.note.value)))
    case CommentaireChamp =>
      if !Bu(a) || !Bu(b) then Err(Precondition)
      else match (a.commentaire, b.commentaire)
        case (Some(x), Some(y)) => Ok(Ordre(CompareChaines(x, y)))
        case (None, None) => Ok(Ordre(0))
        case _ => Ok(Incomparable)
  }

  /** The `reduce(0)` of `<=>`: a non-zero result is kept, a zero one lets
      the next field decide, and a nil one fails on `nonzero?` if any field
      follows. */
  function Reduire(cs: seq<Champ>, a: Vin, b: Vin, acc: Comparaison): Result<Comparaison>
    decreases |cs|
  {
    if cs == [] then Ok(acc)
    else match acc
      case Incomparable => Err(ErreurMethode)
      case Ordre(r) =>
        if r != 0 then Reduire(cs[1..], a, b, acc)
        else match CompareChamp(cs[0], a, b)
          case Err(e) => Err(e)
          case Ok(c) => Reduire(cs[1..], a, b, c)
  }

  /** `a <=> b` with comparators `cs`. */
  function CompareVin(cs: seq<Champ>, a: Vin, b: Vin): Result<Comparaison> {
    Reduire(cs, a, b, Ordre(0))
  }

  lemma CompareChampOppose(c: Champ, a: Vin, b: Vin)
    ensures CompareChamp(c, b, a) == OpposeResultat(CompareChamp(c, a, b))
  {
    match c
    case Type => CompareChainesAntisymetrique(a.typeVin, b.typeVin);
    case Appellation => CompareChainesAntisymetrique(a.appellation, b.appellation);
    case Nom => CompareChainesAntisymetrique(a.nom, b.nom);
    case DateAchat => CompareDatesOrdre(a.dateAchat, b.dateAchat, a.dateAchat);
    case CommentaireChamp => CommentaireOppose(a, b);
    case _ =>
  }

  lemma CommentaireOppose(a: Vin, b: Vin)
    ensures CompareChamp(CommentaireChamp, b, a) == OpposeResultat(CompareChamp(CommentaireChamp, a, b))
  {
    if Bu(a) && Bu(b) && a.commentaire.Some? && b.commentaire.Some? {
      CompareChainesAntisymetrique(a.commentaire.value, b.commentaire.value);
    }
  }

  lemma {:induction false} ReduireOppose(cs: seq<Champ>, a: Vin, b: Vin, acc: Comparaison)
    ensures Reduire(cs, b, a, Oppose(acc)) == OpposeResultat(Reduire(cs, a, b, acc))
    decreases |cs|
  {
    if cs != [] && acc.Ordre? {
      if acc.r != 0 {
        ReduireOppose(cs[1..], a, b, acc);
      } else {
        CompareChampOppose(cs[0], a, b);
        if CompareChamp(cs[0], a, b).Ok? {
          ReduireOppose(cs[1..], a, b, CompareChamp(cs[0], a, b).value);
        }
      }
    }
  }

  /** Swapping the two wines negates the order and keeps nil and the
      failures. */
  lemma CompareVinOppose(cs: seq<Champ>, a: Vin, b: Vin)
    ensures CompareVin(cs, b, a) == OpposeResultat(CompareVin(cs, a, b))
  {
    ReduireOppose(cs, a, b, Ordre(0));
  }

  /** No field in `cs` needs a rating that a wine does not have. */
  predicate Lisibles(cs: seq<Champ>, v: Vin) {
    Bu(v) || forall i :: 0 <= i < |cs| ==> cs[i] != NoteChamp && cs[i] != CommentaireChamp
  }

  /** Every field in `cs` gives an order (never a failure, never nil). */
  predicate Ordonnables(cs: seq<Champ>, a: Vin, b: Vin) {
    forall i :: 0 <= i < |cs| ==> CompareChamp(cs[i], a, b).Ok? && CompareChamp(cs[i], a, b).value.Ordre?
  }

  function OrdreChamp(c: Champ, a: Vin, b: Vin): int
    requires CompareChamp(c, a, b).Ok? && CompareChamp(c, a, b).value.Ordre?
  {
    CompareChamp(c, a, b).value.r
  }

  /** When every field orders the two wines, the first field on which they
      differ decides, and they compare equal when no field differs. */
  lemma {:induction false} CompareVinPremierEcart(cs: seq<Champ>, a: Vin, b: Vin)
    requires Ordonnables(cs, a, b)
    ensures CompareVin(cs, a, b).Ok? && CompareVin(cs, a, b).value.Ordre?
    ensures CompareVin(cs, a, b).value.r == 0 <==> forall i :: 0 <= i < |cs| ==> OrdreChamp(cs[i], a, b) == 0
    ensures CompareVin(cs, a, b).value.r != 0 ==>
      exists k :: (0 <= k < |cs| && CompareVin(cs, a, b).value.r == OrdreChamp(cs[k], a, b)
        && forall i :: 0 <= i < k ==> OrdreChamp(cs[i], a, b) == 0)
    decreases |cs|
  {
    if cs != [] {
      var o := OrdreChamp(cs[0], a, b);
      assert Ordonnables(cs[1..], a, b) by {
        forall i | 0 <= i < |cs[1..]| ensures CompareChamp(cs[1..][i], a, b).Ok? && CompareChamp(cs[1..][i], a, b).value.Ordre? {
          assert cs[1..][i] == cs[i + 1];
        }
      }
      if o != 0 {
        ReduireGarde(cs[1..], a, b, o);
        assert CompareVin(cs, a, b) == Ok(Ordre(o));
      } else {
        CompareVinPremierEcart(cs[1..], a, b);
        assert CompareVin(cs, a, b) == CompareVin(cs[1..], a, b);
        var r := CompareVin(cs, a, b).value.r;
        if r == 0 {
          forall i | 0 <= i < |cs| ensures OrdreChamp(cs[i], a, b) == 0 {
            if i > 0 { assert cs[i] == cs[1..][i - 1]; }
          }
        } else {
          var k :| 0 <= k < |cs[1..]| && r == OrdreChamp(cs[1..][k], a, b)
            && forall i :: 0 <= i < k ==> OrdreChamp(cs[1..][i], a, b) == 0;
          assert cs[1..][k] == cs[k + 1];
          forall i | 0 <= i < k + 1 ensures OrdreChamp(cs[i], a, b) == 0 {
            if i > 0 { assert cs[i] == cs[1..][i - 1]; }
          }
        }
      }
    }
  }

  /** `String#<=>` on three texts: an equal middle passes the other
      comparison through, and "before" and "not after" are transitive. */
  lemma ChainesTransitives(x: string, y: string, z: string)
    ensures CompareChaines(x, y) == 0 ==> CompareChaines(x, z) == CompareChaines(y, z)
    ensures CompareChaines(y, z) == 0 ==> CompareChaines(x, z) == CompareChaines(x, y)
    ensures CompareChaines(x, y) <= 0 && CompareChaines(y, z) <= 0 ==> CompareChaines(x, z) <= 0
    ensures CompareChaines(x, y) < 0 && CompareChaines(y, z) < 0 ==> CompareChaines(x, z) < 0
  {
    CompareChainesAntisymetrique(x, y);
    CompareChainesAntisymetrique(y, z);
    CompareChainesAntisymetrique(x, z);
    if CompareChaines(x, y) <= 0 && CompareChaines(y, z) <= 0 {
      CompareChainesTransitive(x, y, z);
    }
  }

  /** One field that orders all three pairs of three wines: an equal middle
      passes the other comparison through, and "before" and "not after"
      are transitive. */
  lemma CompareChampTransitif(c: Champ, a: Vin, b: Vin, d: Vin)
    requires CompareChamp(c, a, b).Ok? && CompareChamp(c, a, b).value.Ordre?
    requires CompareChamp(c, b, d).Ok? && CompareChamp(c, b, d).value.Ordre?
    requires CompareChamp(c, a, d).Ok? && CompareChamp(c, a, d).value.Ordre?
    ensures OrdreChamp(c, a, b) == 0 ==> OrdreChamp(c, a, d) == OrdreChamp(c, b, d)
    ensures OrdreChamp(c, b, d) == 0 ==> OrdreChamp(c, a, d) == OrdreChamp(c, a, b)
    ensures OrdreChamp(c, a, b) <= 0 && OrdreChamp(c, b, d) <= 0 ==> OrdreChamp(c, a, d) <= 0
    ensures OrdreChamp(c, a, b) < 0 && OrdreChamp(c, b, d) < 0 ==> OrdreChamp(c, a, d) < 0
  {
    match c
    case Type => ChainesTransitives(a.typeVin, b.typeVin, d.typeVin);
    case Appellation => ChainesTransitives(a.appellation, b.appellation, d.appellation);
    case Nom => ChainesTransitives(a.nom, b.nom, d.nom);
    case DateAchat =>
      CompareDatesOrdre(a.dateAchat, b.dateAchat, d.dateAchat);
      CompareDatesOrdre(b.dateAchat, d.dateAchat, a.dateAchat);
      CompareDatesOrdre(a.dateAchat, d.dateAchat, b.dateAchat);
    case CommentaireChamp =>
      if a.commentaire.Some? && b.commentaire.Some? && d.commentaire.Some? {
        ChainesTransitives(a.commentaire.value, b.commentaire.value, d.commentaire.value);
      }
    case _ =>
  }

  /** "Not after" is transitive: when every field orders the three pairs, a
      wine not after a middle one that is not after a third is not after
      that third. */
  lemma {:induction false} CompareVinTransitif(cs: seq<Champ>, a: Vin, b: Vin, d: Vin)
    requires Ordonnables(cs, a, b) && Ordonnables(cs, b, d) && Ordonnables(cs, a, d)
    requires CompareVin(cs, a, b).Ok? && CompareVin(cs, a, b).value.Ordre? && CompareVin(cs, a, b).value.r <= 0
    requires CompareVin(cs, b, d).Ok? && CompareVin(cs, b, d).value.Ordre? && CompareVin(cs, b, d).value.r <= 0
    ensures CompareVin(cs, a, d).Ok? && CompareVin(cs, a, d).value.Ordre? && CompareVin(cs, a, d).value.r <= 0
    decreases |cs|
  {
    CompareVinPremierEcart(cs, a, d);
    if cs != [] {
      var c := cs[0];
      assert Ordonnables(cs[1..], a, b) && Ordonnables(cs[1..], b, d) && Ordonnables(cs[1..], a, d) by {
        forall i | 0 <= i < |cs[1..]| ensures cs[1..][i] == cs[i + 1] {}
      }
      CompareChampTransitif(c, a, b, d);
      var x, y, z := OrdreChamp(c, a, b), OrdreChamp(c, b, d), OrdreChamp(c, a, d);
      if x != 0 { ReduireGarde(cs[1..], a, b, x); }
      if y != 0 { ReduireGarde(cs[1..], b, d, y); }
      if z != 0 { ReduireGarde(cs[1..], a, d, z); }
      if x == 0 && y == 0 {
        assert CompareVin(cs, a, b) == CompareVin(cs[1..], a, b);
        assert CompareVin(cs, b, d) == CompareVin(cs[1..], b, d);
        assert CompareVin(cs, a, d) == CompareVin(cs[1..], a, d);
        CompareVinTransitif(cs[1..], a, b, d);
      } else if x == 0 {
        assert CompareVin(cs, b, d) == Ok(Ordre(y));
      } else if y == 0 {
        assert CompareVin(cs, a, b) == Ok(Ordre(x));
      } else {
        assert CompareVin(cs, a, b) == Ok(Ordre(x));
        assert CompareVin(cs, b, d) == Ok(Ordre(y));
      }
    }
  }

  /** Once non-zero, the result of the reduction stays as it is. */
  lemma {:induction false} ReduireGarde(cs: seq<Champ>, a: Vin, b: Vin, r: int)
    requires r != 0
    ensures Reduire(cs, a, b, Ordre(r)) == Ok(Ordre(r))
    decreases |cs|
  {
    if cs != [] {
      ReduireGarde(cs[1..], a, b, r);
    }
  }

  /** A wine compares equal to itself on every field it can be read on. */
  lemma {:induction false} CompareVinReflexive(cs: seq<Champ>, v: Vin)
    requires Lisibles(cs, v)
    ensures CompareVin(cs, v, v) == Ok(Ordre(0))
    decreases |cs|
  {
    if cs != [] {
      CompareChampReflexif(cs[0], v);
      assert Lisibles(cs[1..], v) by {
        if !Bu(v) {
          forall i | 0 <= i < |cs[1..]| ensures cs[1..][i] != NoteChamp && cs[1..][i] != CommentaireChamp {
            assert cs[1..][i] == cs[i + 1];
          }
        }
      }
      CompareVinReflexive(cs[1..], v);
    }
  }

  lemma CompareChampReflexif(c: Champ, v: Vin)
    requires Bu(v) || (c != NoteChamp && c != CommentaireChamp)
    ensures CompareChamp(c, v, v) == Ok(Ordre(0))
  {
    match c
    case Type => CompareChainesAntisymetrique(v.typeVin, v.typeVin);
    case Appellation => CompareChainesAntisymetrique(v.appellation, v.appellation);
    case Nom => CompareChainesAntisymetrique(v.nom, v.nom);
    case DateAchat => CompareDatesOrdre(v.dateAchat, v.dateAchat, v.dateAchat);
    case CommentaireChamp =>
      if v.commentaire.Some? {
        CompareChainesAntisymetrique(v.commentaire.value, v.commentaire.value);
      }
    case _ =>
  }

  /** Comparing on a rating or a comment of an unrated wine fails as soon as
      the comparison reaches that field. */
  lemma CompareVinNonBu(cs: seq<Champ>, a: Vin, b: Vin)
    requires |cs| >= 1 && (cs[0] == NoteChamp || cs[0] == CommentaireChamp) && (!Bu(a) || !Bu(b))
    ensures CompareVin(cs, a, b) == Err(Precondition)
  {
  }

  // ---------------------------------------------------------------------
  // CSV: `to_csv` and `new_from_csv`
  // ---------------------------------------------------------------------

  /** `sprintf("%.2f", prix)` for a price held in cents. */
  function FormatPrix(c: nat): (s: string)
    ensures Motifs.Prix(s)
  {
    var e := NatVersTexte(c / 100);
    var s := e + "." + Pad2(c % 100);
    assert s[..|s| - 3] == e && s[|s| - 2..] == Pad2(c % 100);
    Motifs.LongueurNatVersTexte(c / 100);
    s
  }

  /** The first two decimals of a text, as cents. */
  function Decimales(t: string): (c: nat)
    ensures c < 100
  {
    if t == [] || !EstChiffre(t[0]) then 0
    else 10 * ValeurChiffre(t[0]) + (if |t| > 1 && EstChiffre(t[1]) then ValeurChiffre(t[1]) else 0)
  }

  /** The cents of an unsigned decimal text: its leading digits, and the first
      two decimals after a dot. */
  function CentimesDe(s: string): (c: nat)
    ensures TousChiffres(s) ==> c == ValeurChiffres(s) * 100
    ensures s == [] || (!EstChiffre(s[0]) && s[0] != '.') ==> c == 0
  {
    var k := PrefixeChiffres(s);
    var f := s[k..];
    assert TousChiffres(s) ==> s[..k] == s by {
      if TousChiffres(s) {
        PrefixeToutChiffres(s);
      }
    }
    ValeurChiffres(s[..k]) * 100 + (if f != [] && f[0] == '.' then Decimales(f[1..]) else 0)
  }

  /** `String#to_f` read to the cent: an optional sign, digits, and an
      optional dot followed by decimals; anything that does not fit is 0. */
  function LirePrix(s: string): (r: int)
    ensures s != [] && s[0] == '-' ==> r <= 0
    ensures s == [] || s[0] != '-' ==> r >= 0
  {
    if s != [] && s[0] == '-' then 0 - CentimesDe(s[1..]) as int
    else if s != [] && s[0] == '+' then CentimesDe(s[1..])
    else CentimesDe(s)
  }

  /** A price written by `to_csv` is read back by `to_f`. */
  lemma LireFormatPrix(c: nat)
    ensures LirePrix(FormatPrix(c)) == c
  {
    var e := NatVersTexte(c / 100);
    var p := Pad2(c % 100);
    var s := FormatPrix(c);
    assert s == e + "." + p;
    Motifs.LongueurNatVersTexte(c / 100);
    assert s[0] == e[0];
    PrefixeChiffresDevantPoint(e, p);
    assert s[|e|..] == "." + p;
    assert s[..|e|] == e;
    ValeurNatVersTexte(c / 100);
    assert Decimales(p) == c % 100 by { ValeurPad2(c % 100); }
  }

  lemma PrefixeChiffresDevantPoint(e: string, p: string)
    requires TousChiffres(e)
    ensures PrefixeChiffres(e + "." + p) == |e|
  {
    var s := e + "." + p;
    assert s[|e|] == '.';
    ChiffresJusqua(s, |e|);
  }

  /** The nine fields of `to_csv`, in order. */
  function ChampsCsv(v: Vin): (parts: seq<string>)
    requires Valide(v.dateAchat)
    ensures |parts| == 9
  {
    [IntToS(v.numero), FormatDate(v.dateAchat), v.typeVin, v.appellation, IntToS(v.millesime), v.nom,
     FormatPrix(v.prix),
     if Bu(v) then IntToS(v.note.value) else "",
     if Bu(v) then v.commentaire.GetOr("") else ""]
  }

  /** `to_csv(separateur)`. */
  function VersCsv(v: Vin, sep: char): string
    requires Valide(v.dateAchat)
  {
    Join(ChampsCsv(v), sep)
  }

  /** `new_from_csv(ligne, separateur)`: `chomp`, split into at most nine
      pieces; a missing date piece is a method called on nil, an impossible
      date is an invalid date, a missing later piece is again a method called
      on nil, and then `new` checks the values. */
  function DepuisCsv(ligne: string, sep: char): (r: Result<Vin>)
    ensures r.Ok? ==> Valide(r.value.dateAchat)
  {
    DepuisPieces(Split(Chomp(ligne), sep, 9))
  }

  /** The pieces of a CSV line turned into a wine. */
  function DepuisPieces(parts: seq<string>): (r: Result<Vin>)
    ensures r.Ok? ==> Valide(r.value.dateAchat)
  {
    if |parts| < 2 then Err(ErreurMethode)
    else match LireDate(parts[1])
      case Err(e) => Err(e)
      case Ok(d) =>
        if |parts| < 9 then Err(ErreurMethode)
        else NouveauVin(ToI(parts[0]), d, parts[2], parts[3], ToI(parts[4]), parts[5], LirePrix(parts[6]),
                        if parts[7] == [] then None else Some(ToI(parts[7])),
                        if parts[8] == [] then None else Some(parts[8]))
  }

  /** What a separator must avoid for a line to be cut back into its
      fields: the characters of numbers, dates and prices, and the blank
      that switches `split` to whitespace mode. */
  predicate SeparateurSur(sep: char) {
    sep != ' ' && !EstChiffre(sep) && sep != '-' && sep != '/' && sep != '.' && sep != '\n' && sep != '\r'
  }

  /** A wine that `to_csv` and `new_from_csv` carry over unchanged: a year
      in the 2000s (only two digits are written), no separator in the text
      fields but the last, no newline, a comment only on a rated wine and
      never empty (an empty one is read back as nil). */
  predicate Transportable(v: Vin, sep: char) {
    && SeparateurSur(sep)
    && Valide(v.dateAchat) && 2000 <= v.dateAchat.annee <= 2099
    && sep !in v.typeVin && sep !in v.appellation && sep !in v.nom
    && '\n' !in v.typeVin && '\n' !in v.appellation && '\n' !in v.nom
    && (v.note.None? ==> v.commentaire.None?)
    && (v.commentaire.Some? ==>
          (v.commentaire.value != [] && '\n' !in v.commentaire.value
           && v.commentaire.value[|v.commentaire.value| - 1] != '\r'))
  }

  lemma SansSeparateur(n: int, sep: char)
    requires SeparateurSur(sep)
    ensures sep !in IntToS(n)
  {
    IntToSAlphabet(n, sep);
  }

  lemma ChiffresSans(s: string, c: char)
    requires TousChiffres(s) && !EstChiffre(c)
    ensures c !in s
  {
  }

  lemma ChampsCsvSeparables(v: Vin, sep: char)
    requires Transportable(v, sep)
    ensures SeparableSur(ChampsCsv(v), sep)
  {
    var parts := ChampsCsv(v);
    SansSeparateur(v.numero, sep);
    SansSeparateur(v.millesime, sep);
    if Bu(v) { SansSeparateur(v.note.value, sep); }
    var d := v.dateAchat;
    ChiffresSans(Pad2(d.jour), sep);
    ChiffresSans(Pad2(d.mois), sep);
    ChiffresSans(Pad2(d.annee % 100), sep);
    assert parts[1] == Pad2(d.jour) + "/" + Pad2(d.mois) + "/" + Pad2(d.annee % 100);
    var e := NatVersTexte(v.prix / 100);
    ChiffresSans(e, sep);
    ChiffresSans(Pad2(v.prix % 100), sep);
    assert parts[6] == e + "." + Pad2(v.prix % 100);
  }

  lemma ChompVersCsv(v: Vin, sep: char)
    requires Transportable(v, sep)
    ensures Chomp(VersCsv(v, sep)) == VersCsv(v, sep)
    ensures Chomp(VersCsv(v, sep) + "\n") == VersCsv(v, sep)
  {
    var parts := ChampsCsv(v);
    var s := VersCsv(v, sep);
    JoinDernier(parts, sep);
    var der := parts[8];
    assert s == Join(parts[..8], sep) + [sep] + der;
    assert s != [];
    assert s[|s| - 1] != '\n' && s[|s| - 1] != '\r' by {
      if der == [] { assert s[|s| - 1] == sep; } else { assert s[|s| - 1] == der[|der| - 1]; }
    }
    ChompSansFin(s);
  }

  /** A transportable wine written by `to_csv` is read back by
      `new_from_csv`, with or without the newline a file line keeps. */
  lemma DepuisVersCsv(v: Vin, sep: char)
    requires Transportable(v, sep)
    ensures DepuisCsv(VersCsv(v, sep), sep) == Ok(v)
    ensures DepuisCsv(VersCsv(v, sep) + "\n", sep) == Ok(v)
  {
    var parts := ChampsCsv(v);
    ChampsCsvSeparables(v, sep);
    SplitJoin(parts, sep);
    ChompVersCsv(v, sep);
    ChampsCsvPieces(v, sep);
    LireChamps(v, sep, VersCsv(v, sep), parts);
    LireChamps(v, sep, VersCsv(v, sep) + "\n", parts);
  }

  /** The nine pieces of a line, each read back as the field of `v` it holds. */
  predicate PiecesDe(parts: seq<string>, v: Vin) {
    && |parts| == 9
    && LireDate(parts[1]) == Ok(v.dateAchat)
    && ToI(parts[0]) == v.numero && ToI(parts[4]) == v.millesime && LirePrix(parts[6]) == v.prix
    && parts[2] == v.typeVin && parts[3] == v.appellation && parts[5] == v.nom
    && (parts[7] == [] <==> v.note.None?) && (v.note.Some? ==> ToI(parts[7]) == v.note.value)
    && (parts[8] == [] <==> v.commentaire.None?) && (v.commentaire.Some? ==> parts[8] == v.commentaire.value)
  }

  lemma LireChamps(v: Vin, sep: char, ligne: string, parts: seq<string>)
    requires Split(Chomp(ligne), sep, 9) == parts && PiecesDe(parts, v)
    ensures DepuisCsv(ligne, sep) == Ok(v)
  {
    DepuisPiecesDe(parts, v);
  }

  lemma DepuisPiecesDe(parts: seq<string>, v: Vin)
    requires PiecesDe(parts, v)
    ensures DepuisPieces(parts) == Ok(v)
  {
    var note := if parts[7] == [] then None else Some(ToI(parts[7]));
    var comm := if parts[8] == [] then None else Some(parts[8]);
    assert note == v.note;
    assert comm == v.commentaire;
    assert v == Vin(v.numero, v.dateAchat, v.typeVin, v.appellation, v.millesime, v.nom, v.prix, note, comm);
  }

  lemma ChampsCsvPieces(v: Vin, sep: char)
    requires Transportable(v, sep)
    ensures PiecesDe(ChampsCsv(v), v)
  {
    PieceDate(v);
    PiecesNombres(v);
    PiecesNote(v);
  }

  lemma PieceDate(v: Vin)
    requires Valide(v.dateAchat) && 2000 <= v.dateAchat.annee <= 2099
    ensures LireDate(ChampsCsv(v)[1]) == Ok(v.dateAchat)
  {
    var s := FormatDate(v.dateAchat);
    assert ChampsCsv(v)[1] == s;
    LireFormatDate(v.dateAchat);
  }

  lemma PiecesNombres(v: Vin)
    requires Valide(v.dateAchat)
    ensures ToI(ChampsCsv(v)[0]) == v.numero && ToI(ChampsCsv(v)[4]) == v.millesime
    ensures LirePrix(ChampsCsv(v)[6]) == v.prix
  {
    ToIIntToS(v.numero);
    ToIIntToS(v.millesime);
    LireFormatPrix(v.prix);
  }

  lemma PiecesNote(v: Vin)
    requires Valide(v.dateAchat)
    requires v.note.None? ==> v.commentaire.None?
    requires v.commentaire != Some([])
    ensures var parts := ChampsCsv(v);
      && (parts[7] == [] <==> v.note.None?) && (v.note.Some? ==> ToI(parts[7]) == v.note.value)
      && (parts[8] == [] <==> v.commentaire.None?) && (v.commentaire.Some? ==> parts[8] == v.commentaire.value)
  {
    if Bu(v) {
      ToIIntToS(v.note.value);
    }
  }

  /** The fields `to_csv` writes have the shapes the input patterns check. */
  lemma ChampsCsvMotifs(v: Vin)
    requires Valide(v.dateAchat)
    ensures Motifs.NumVin(ChampsCsv(v)[0]) && Motifs.Date(ChampsCsv(v)[1]) && Motifs.Prix(ChampsCsv(v)[6])
    ensures 1000 <= v.millesime <= 9999 ==> Motifs.Millesime(ChampsCsv(v)[4])
    ensures Bu(v) && Motifs.NOTE_MIN <= v.note.value <= Motifs.NOTE_MAX ==> Motifs.Note(ChampsCsv(v)[7])
  {
    Motifs.NumVinIntToS(v.numero);
    FormatDateMotif(v.dateAchat);
    Motifs.MillesimeIntToS(v.millesime);
    if Bu(v) { Motifs.NoteIntToS(v.note.value); }
  }

  // ---------------------------------------------------------------------
  // Display: `to_s` through the template interpreter
  // ---------------------------------------------------------------------

  /** `vrai_format_et_valeur`: for each field letter, the native conversion
      and the value. */
  function TableVin(v: Vin): (t: Table)
    requires Valide(v.dateAchat)
    ensures t.Keys == {'I', 'D', 'T', 'A', 'M', 'N', 'P', 'n', 'c'}
  {
    map['I' := ('d', Entier(v.numero)),
        'D' := ('s', Chaine(FormatDate(v.dateAchat))),
        'T' := ('s', Symbole(v.typeVin)),
        'A' := ('s', Chaine(v.appellation)),
        'M' := ('d', Entier(v.millesime)),
        'N' := ('s', Chaine(v.nom)),
        'P' := ('f', Reel(v.prix)),
        'n' := (if Bu(v) then ('d', Entier(v.note.value)) else ('s', Chaine(""))),
        'c' := ('s', if !Bu(v) then Chaine("") else match v.commentaire case Some(c) => Chaine(c) case None => Nul)]
  }

  const FORMAT_LONG: string := "%I [%T - %.2P$]: %A %M, %N (%D) => %n {%c}"

  /** `to_s(le_format)`: the native template and the arguments handed to
      `format`; no template means the long one. */
  function VersTexte(v: Vin, leFormat: Option<string>): (r: (string, seq<Valeur>))
    requires Valide(v.dateAchat)
    ensures |r.0| <= |leFormat.GetOr(FORMAT_LONG)| && !AEchappement(r.0)
    ensures var f := leFormat.GetOr(FORMAT_LONG); '\n' !in f ==>
      r == (RemplacerEchappements(ReecritureTelQuEcrit(f, TableVin(v)).0), ReecritureTelQuEcrit(f, TableVin(v)).1)
    ensures var f := leFormat.GetOr(FORMAT_LONG); '%' !in f && !AEchappement(f) ==> r == (f, [])
  {
    FormatEtArgsTelQuEcrit(leFormat.GetOr(FORMAT_LONG), TableVin(v));
    FormatEtArgs(leFormat.GetOr(FORMAT_LONG), TableVin(v))
  }

  /** On a template that has no field letter after its first `%`, the
      template is handed to `format` unchanged and with no argument. */
  lemma VersTexteSansChamp(v: Vin, f: string)
    requires Valide(v.dateAchat)
    requires !AEchappement(f)
    requires !('%' in f && Amorce(f[IndexDe(f, '%') + 1..], TableVin(v).Keys))
    ensures VersTexte(v, Some(f)) == (f, [])
  {
    SansPlaceholder(f, TableVin(v));
    RemplacerSansEchappement(f);
  }

  /** "xxx %X %s %T": `X` is no field letter, so the first `%` stops the
      rewriting and `format` is handed the template as it is. */
  lemma ExempleChampInvalide(v: Vin, f: string)
    requires Valide(v.dateAchat)
    requires f == "xxx %X %s %T"
    ensures VersTexte(v, Some(f)) == (f, [])
  {
    PremierPourcentX(f);
    var apres := f[5..];
    assert apres[0] == 'X';
    SansAmorce(apres, TableVin(v).Keys);
    VersTexteSansChamp(v, f);
  }

  /** "%4I:%-4I:%.4I": each width (right-justified, left-justified,
      precision) is carried over to an integer conversion of the number. */
  lemma ExempleLargeurs(v: Vin, f: string)
    requires Valide(v.dateAchat)
    requires f == "%4I:%-4I:%.4I"
    ensures VersTexte(v, Some(f)) == ("%4d:%-4d:%.4d", [Entier(v.numero), Entier(v.numero), Entier(v.numero)])
  {
    var table := TableVin(v);
    assert table['I'] == ('d', Entier(v.numero));
    ReecritureLargeurs(f, table, Entier(v.numero));
    assert '\\' !in Reecriture(f, table).0 by { SansBarreLargeurs(); }
    FormatEtArgsSansBarre(f, table);
  }

  lemma SansBarreLargeurs()
    ensures '\\' !in "%4d:%-4d:%.4d"
  {
  }

  lemma ReecritureLargeurs(f: string, table: Table, x: Valeur)
    requires f == "%4I:%-4I:%.4I"
    requires 'I' in table && table['I'] == ('d', x)
    ensures Reecriture(f, table).0 == "%4d:%-4d:%.4d"
    ensures Reecriture(f, table).1 == [x, x, x]
  {
    var e := "";
    assert EstLargeur("4") && EstLargeur("-4") && EstLargeur(".4");
    assert f == e + "%" + "4" + ['I'] + (":" + "%" + "-4" + ['I'] + (":" + "%" + ".4" + ['I'] + e));
    TroisPlaceholders(f, table, Morceau(e, "4", 'I'), Morceau(":", "-4", 'I'), Morceau(":", ".4", 'I'), e);
    TexteLargeurs();
  }

  lemma TexteLargeurs()
    ensures "" + "%" + "4" + ['d'] + (":" + "%" + "-4" + ['d'] + (":" + "%" + ".4" + ['d'] + "")) == "%4d:%-4d:%.4d"
  {
    assert "" + "%" + "4" + ['d'] == "%4d";
    assert ":" + "%" + "-4" + ['d'] == ":%-4d";
    assert ":" + "%" + ".4" + ['d'] + "" == ":%.4d";
  }

  /** "%I => %N": the number and the name, the rest of the template as it is. */
  lemma ExempleNumeroNom(v: Vin, f: string)
    requires Valide(v.dateAchat)
    requires f == "%I => %N"
    ensures VersTexte(v, Some(f)) == ("%d => %s", [Entier(v.numero), Chaine(v.nom)])
  {
    var table := TableVin(v);
    assert table['I'] == ('d', Entier(v.numero)) && table['N'] == ('s', Chaine(v.nom));
    ReecritureNumeroNom(f, table, Entier(v.numero), Chaine(v.nom));
    assert '\\' !in Reecriture(f, table).0 by { SansBarreNumeroNom(); }
    FormatEtArgsSansBarre(f, table);
  }

  lemma SansBarreNumeroNom()
    ensures '\\' !in "%d => %s"
  {
  }

  lemma ReecritureNumeroNom(f: string, table: Table, x: Valeur, y: Valeur)
    requires f == "%I => %N"
    requires 'I' in table && table['I'] == ('d', x) && 'N' in table && table['N'] == ('s', y)
    ensures Reecriture(f, table).0 == "%d => %s"
    ensures Reecriture(f, table).1 == [x, y]
  {
    var e := "";
    assert EstLargeur(e);
    assert f == e + "%" + e + ['I'] + (" => " + "%" + e + ['N'] + e);
    DeuxPlaceholders(f, table, Morceau(e, e, 'I'), Morceau(" => ", e, 'N'), e);
    TexteNumeroNom();
  }

  lemma TexteNumeroNom()
    ensures "" + "%" + "" + ['d'] + (" => " + "%" + "" + ['s'] + "") == "%d => %s"
  {
    assert "" + "%" + "" + ['d'] == "%d";
    assert " => " + "%" + "" + ['s'] + "" == " => %s";
  }

  lemma PremierPourcentX(f: string)
    requires f == "xxx %X %s %T"
    ensures '%' in f && IndexDe(f, '%') == 4 && |f| > 5 && f[5] == 'X' && !AEchappement(f)
  {
    PourcentXPositions(f);
    IndexDePosition(f, '%', 4);
    SansBarreSansEchappement(f);
  }

  lemma PourcentXPositions(f: string)
    requires f == "xxx %X %s %T"
    ensures |f| > 5 && f[4] == '%' && '%' !in f[..4] && f[5] == 'X' && '\\' !in f
  {
  }

  // ---------------------------------------------------------------------
  // Class-level state: `numero_max` and `comparateurs`
  // ---------------------------------------------------------------------

  class VinClasse {
    const numeros: NumeroMax
    var comparateurs: seq<Champ>

    constructor()
      ensures comparateurs == [Numero] && fresh(numeros) && numeros.valeur == None
    {
      numeros := new NumeroMax();
      comparateurs := [Numero];
    }

    /** `Vin.comparateurs = cs`: rejected, and left as it was, when a name is
        not a field. */
    method SetComparateurs(noms: seq<string>) returns (r: Result<()>)
      modifies this
      ensures r.Ok? <==> forall i :: 0 <= i < |noms| ==> noms[i] in NOMS_CHAMPS
      ensures r.Ok? ==> Some(comparateurs) == ChampsDe(noms)
      ensures r.Err? ==> r.error == Precondition && comparateurs == old(comparateurs)
    {
      match ChampsDe(noms)
      case None => r := Err(Precondition);
      case Some(cs) => comparateurs := cs; r := Ok(());
    }

    /** `Vin.new`: a wine built with number `n` raises the class mark to `n`. */
    method Nouveau(numero: int, date: Date, typeVin: string, appellation: string,
                   millesime: int, nom: string, prix: int,
                   note: Option<int>, commentaire: Option<string>) returns (r: Result<Vin>)
      modifies numeros
      ensures r == NouveauVin(numero, date, typeVin, appellation, millesime, nom, prix, note, commentaire)
      ensures r.Ok? ==> numeros.valeur == Observe(old(numeros.valeur), r.value.numero)
      ensures r.Err? ==> numeros.valeur == old(numeros.valeur)
    {
      r := NouveauVin(numero, date, typeVin, appellation, millesime, nom, prix, note, commentaire);
      if r.Ok? {
        numeros.Observer(r.value.numero);
      }
    }

    /** `Vin.creer`: the next free number, today's date (a parameter here),
        the vintage and the price converted from text, no rating. */
    method Creer(typeVin: string, appellation: string, millesime: string, nom: string, prix: string,
                 aujourdhui: Date) returns (r: Result<Vin>)
      modifies numeros
      ensures r == NouveauVin(old(numeros.Prochain()), aujourdhui, typeVin, appellation, ToI(millesime), nom,
                              LirePrix(prix), None, None)
      ensures r.Ok? ==>
        (!Bu(r.value) && r.value.numero == old(numeros.Prochain()) && numeros.valeur == Some(r.value.numero))
    {
      var numero := numeros.Prochain();
      r := Nouveau(numero, aujourdhui, typeVin, appellation, ToI(millesime), nom, LirePrix(prix), None, None);
    }

    /** `Vin.new_from_csv`. */
    method NouveauDepuisCsv(ligne: string, sep: char) returns (r: Result<Vin>)
      modifies numeros
      ensures r == DepuisCsv(ligne, sep)
      ensures r.Ok? ==> numeros.valeur == Observe(old(numeros.valeur), r.value.numero)
      ensures r.Err? ==> numeros.valeur == old(numeros.valeur)
    {
      r := DepuisCsv(ligne, sep);
      if r.Ok? {
        numeros.Observer(r.value.numero);
      }
    }

    /** `a <=> b` with the current comparators. */
    function Comparer(a: Vin, b: Vin): (r: Result<Comparaison>)
      reads this
      ensures r == OpposeResultat(CompareVin(comparateurs, b, a))
    {
      CompareVinOppose(comparateurs, b, a);
      CompareVin(comparateurs, a, b)
    }
  }
}
