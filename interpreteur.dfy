/** The template interpreter shared by `Vin#to_s` and `Equipement#to_s`
    (`generer_format_et_args`): placeholders `%<width><code>` are rewritten
    into Ruby `format` conversions and the matching values are collected, in
    order. The table that `vrai_format_et_valeur` builds is a parameter. */
module Interpreteur {
  import opened Wrappers
  import opened Texte

  /** A value handed to Ruby's `format`: an Integer, a String, a Symbol, a
      Float (a price, held in cents) or nil. */
  datatype Valeur = Entier(i: int) | Chaine(s: string) | Symbole(nom: string) | Reel(centimes: int) | Nul

  /** What `vrai_format_et_valeur` returns: for each code character, the
      native conversion character and the value to format. */
  type Table = map<char, (char, Valeur)>

  // ---------------------------------------------------------------------
  // The width part of a placeholder: [-]?\d*[.]?\d*
  // ---------------------------------------------------------------------

  /** A whole string matching `[-]?\d*[.]?\d*`. */
  predicate EstLargeur(w: string) {
    var m := if |w| > 0 && w[0] == '-' then 1 else 0;
    var d := m + PrefixeChiffres(w[m..]);
    d == |w| || (w[d] == '.' && TousChiffres(w[d + 1..]))
  }

  lemma {:induction false} PrefixeChiffresTronque(s: string, l: nat)
    requires l <= |s|
    ensures PrefixeChiffres(s[..l]) == if l < PrefixeChiffres(s) then l else PrefixeChiffres(s)
  {
    if l > 0 && EstChiffre(s[0]) {
      assert s[..l][1..] == s[1..][..l - 1];
      PrefixeChiffresTronque(s[1..], l - 1);
    }
  }

  lemma ChiffresJusqua(s: string, k: nat)
    requires k <= |s|
    ensures TousChiffres(s[..k]) <==> k <= PrefixeChiffres(s)
  {
    var p := PrefixeChiffres(s);
    if k > p {
      assert s[..k][p] == s[p];
    } else {
      assert forall i :: 0 <= i < k ==> s[..k][i] == s[..p][i];
    }
  }

  /** Length of the longest prefix of `s` that is a width. */
  function LargeurMax(s: string): (k: nat)
    ensures k <= |s|
  {
    var m := if |s| > 0 && s[0] == '-' then 1 else 0;
    var d := m + PrefixeChiffres(s[m..]);
    if d < |s| && s[d] == '.' then d + 1 + PrefixeChiffres(s[d + 1..]) else d
  }

  /** The width prefixes of `s` are exactly those no longer than `LargeurMax(s)`. */
  lemma LargeurPrefixes(s: string, l: nat)
    requires l <= |s|
    ensures EstLargeur(s[..l]) <==> l <= LargeurMax(s)
  {
    if l > 0 {
      var m := if s[0] == '-' then 1 else 0;
      var d := m + PrefixeChiffres(s[m..]);
      SigneEtChiffres(s, l, m);
      if l > d {
        PointEtChiffres(s, l, d);
      }
    }
  }

  /** The sign and integer digits of a prefix are those of the text, cut at the prefix. */
  lemma SigneEtChiffres(s: string, l: nat, m: nat)
    requires 0 < l <= |s| && m == (if s[0] == '-' then 1 else 0)
    ensures var w := s[..l];
      && (m == if w[0] == '-' then 1 else 0)
      && m + PrefixeChiffres(w[m..]) == if l < m + PrefixeChiffres(s[m..]) then l else m + PrefixeChiffres(s[m..])
  {
    var w := s[..l];
    assert w[0] == s[0];
    assert w[m..] == s[m..][..l - m];
    PrefixeChiffresTronque(s[m..], l - m);
  }

  /** Past the integer digits, a prefix is a width when the text has a dot
      there followed by enough digits. */
  lemma PointEtChiffres(s: string, l: nat, d: nat)
    requires d < l <= |s|
    ensures var w := s[..l];
      (w[d] == '.' && TousChiffres(w[d + 1..])) <==> (s[d] == '.' && l <= d + 1 + PrefixeChiffres(s[d + 1..]))
  {
    var w := s[..l];
    assert w[d] == s[d];
    assert w[d + 1..] == s[d + 1..][..l - d - 1];
    ChiffresJusqua(s[d + 1..], l - d - 1);
  }

  /** Searching downwards from `l` for a position of `s` holding a code. */
  function ChoixCode(s: string, codes: set<char>, l: int): (r: Option<nat>)
    requires l < |s|
    ensures r.Some? ==> r.value <= l && s[r.value] in codes
    ensures r.Some? ==> forall j :: r.value < j <= l ==> s[j] !in codes
    ensures r.None? ==> forall j :: 0 <= j <= l ==> s[j] !in codes
    decreases l + 1
  {
    if l < 0 then None
    else if s[l] in codes then Some(l)
    else ChoixCode(s, codes, l - 1)
  }

  /** The width the pattern settles on after a `%`, given the text `s` that
      follows it: greedy backtracking tries the width prefixes from the
      longest down, so it is the longest one followed by a code. */
  function Largeur(s: string, codes: set<char>): (r: Option<nat>)
    ensures r.Some? ==> r.value < |s| && s[r.value] in codes
  {
    var k := LargeurMax(s);
    ChoixCode(s, codes, if k < |s| then k else |s| - 1)
  }

  /** The width `Largeur` picks is a width. */
  lemma LargeurValide(s: string, codes: set<char>)
    requires Largeur(s, codes).Some?
    ensures EstLargeur(s[..Largeur(s, codes).value])
  {
    LargeurPrefixes(s, Largeur(s, codes).value);
  }

  /** No longer width than the one `Largeur` picks is followed by a code. */
  lemma LargeurMaximale(s: string, codes: set<char>, l: nat)
    requires l < |s| && EstLargeur(s[..l]) && s[l] in codes
    ensures Largeur(s, codes).Some? && l <= Largeur(s, codes).value
  {
    LargeurPrefixes(s, l);
  }

  /** `Largeur` picks the longest width that is followed by a code, and finds
      none only when no width is followed by a code. */
  lemma LargeurLaPlusLongue(s: string, codes: set<char>)
    ensures Largeur(s, codes).Some? ==> EstLargeur(s[..Largeur(s, codes).value])
    ensures forall l {:trigger EstLargeur(s[..l])} :: 0 <= l < |s| && EstLargeur(s[..l]) && s[l] in codes ==>
              Largeur(s, codes).Some? && l <= Largeur(s, codes).value
  {
    if Largeur(s, codes).Some? {
      LargeurValide(s, codes);
    }
    forall l | 0 <= l < |s| && EstLargeur(s[..l]) && s[l] in codes
      ensures Largeur(s, codes).Some? && l <= Largeur(s, codes).value
    {
      LargeurMaximale(s, codes, l);
    }
  }

  // ---------------------------------------------------------------------
  // One match of the pattern, and the rewriting
  // ---------------------------------------------------------------------

  /** The named groups of a match and the `post_match`. */
  datatype Correspondance = Correspondance(prefixe: string, largeur: string, code: char, suite: string)

  /** The placeholder that starts the text: everything up to the first `%`,
      then a width and a code. None when the first `%` starts no placeholder
      or there is no `%`. */
  function Etape(t: string, codes: set<char>): (r: Option<Correspondance>)
    ensures r.Some? ==> |r.value.suite| < |t| && r.value.code in codes
  {
    if '%' !in t then None
    else
      var q := IndexDe(t, '%');
      var apres := t[q + 1..];
      match Largeur(apres, codes)
      case None => None
      case Some(l) => Some(Correspondance(t[..q], apres[..l], apres[l], apres[l + 1..]))
  }

  /** A match splits the text into its groups: a prefix without `%`, the `%`,
      a width, the code, and the rest. */
  lemma EtapeDecoupe(t: string, codes: set<char>)
    requires Etape(t, codes).Some?
    ensures var m := Etape(t, codes).value;
      && m.prefixe + "%" + m.largeur + [m.code] + m.suite == t
      && '%' !in m.prefixe && EstLargeur(m.largeur)
  {
    var q := IndexDe(t, '%');
    var apres := t[q + 1..];
    LargeurValide(apres, codes);
    Decoupe(t, q, Largeur(apres, codes).value);
  }

  lemma Decoupe(t: string, q: nat, l: nat)
    requires q + 1 + l < |t| && t[q] == '%'
    ensures var apres := t[q + 1..]; t[..q] + "%" + apres[..l] + [apres[l]] + apres[l + 1..] == t
  {
    var apres := t[q + 1..];
    Coupe(apres, l);
    Coupe(t, q);
    assert "%" == [t[q]];
    assert t[..q] + "%" + apres[..l] + [apres[l]] + apres[l + 1..]
        == t[..q] + "%" + (apres[..l] + [apres[l]] + apres[l + 1..]);
  }

  lemma Coupe(s: string, i: nat)
    requires i < |s|
    ensures s[..i] + [s[i]] + s[i + 1..] == s
  {
  }

  /** The loop of `generer_format_et_args` before the final `gsub`: each
      placeholder becomes prefix, `%`, width and native conversion, and its
      value is appended; what is left when no placeholder starts the text is
      copied unchanged. */
  function Reecriture(t: string, table: Table): (r: (string, seq<Valeur>))
    ensures |r.0| == |t|
    ensures '%' !in t ==> r == (t, [])
    decreases |t|
  {
    match Etape(t, table.Keys)
    case None => (t, [])
    case Some(m) =>
      EtapeDecoupe(t, table.Keys);
      var suite := Reecriture(m.suite, table);
      (m.prefixe + "%" + m.largeur + [table[m.code].0] + suite.0, [table[m.code].1] + suite.1)
  }

  /** The result of `generer_format_et_args`: the rewritten template with every
      backslash-n pair turned into a newline, and the argument list. */
  function FormatEtArgs(t: string, table: Table): (r: (string, seq<Valeur>))
    ensures !AEchappement(r.0) && |r.0| <= |t|
  {
    var (f, args) := Reecriture(t, table);
    SansEchappementApres(f);
    (RemplacerEchappements(f), args)
  }

  /** `generer_format_et_args`: the `while m = motif.match(...)` loop with its
      two accumulators, each match anchored at the start of what is left (the
      corrected reading; see `EtapeLigne` for `^` as Ruby reads it). On a
      template without a newline it is the loop as written. The template
      itself is a value and is left as it was. */
  method GenererFormatEtArgs(leFormat: string, table: Table) returns (formatFinal: string, args: seq<Valeur>)
    ensures (formatFinal, args) == FormatEtArgs(leFormat, table)
    ensures '\n' !in leFormat ==>
      formatFinal == RemplacerEchappements(ReecritureTelQuEcrit(leFormat, table).0)
      && args == ReecritureTelQuEcrit(leFormat, table).1
  {
    var aTraiter := leFormat;
    var final := "";
    args := [];
    var m := Etape(aTraiter, table.Keys);
    while m.Some?
      invariant m == Etape(aTraiter, table.Keys)
      invariant final + Reecriture(aTraiter, table).0 == Reecriture(leFormat, table).0
      invariant args + Reecriture(aTraiter, table).1 == Reecriture(leFormat, table).1
      decreases |aTraiter|
    {
      var (car, val) := table[m.value.code];
      var morceau := m.value.prefixe + "%" + m.value.largeur + [car];
      ReecritureDeplie(aTraiter, table);
      Associe(final, morceau, Reecriture(m.value.suite, table).0);
      Associe(args, [val], Reecriture(m.value.suite, table).1);
      final := final + morceau;
      args := args + [val];
      aTraiter := m.value.suite;
      m := Etape(aTraiter, table.Keys);
    }
    assert Reecriture(aTraiter, table) == (aTraiter, []);
    final := final + aTraiter;
    formatFinal := RemplacerEchappements(final);
    FormatEtArgsDeplie(leFormat, table);
    assert final == Reecriture(leFormat, table).0;
    assert args == Reecriture(leFormat, table).1;
    FormatEtArgsTelQuEcrit(leFormat, table);
  }

  lemma FormatEtArgsDeplie(t: string, table: Table)
    ensures FormatEtArgs(t, table) == (RemplacerEchappements(Reecriture(t, table).0), Reecriture(t, table).1)
  {
  }

  /** One turn of the rewriting. */
  lemma ReecritureDeplie(t: string, table: Table)
    requires Etape(t, table.Keys).Some?
    ensures var m := Etape(t, table.Keys).value;
      && Reecriture(t, table).0 == m.prefixe + "%" + m.largeur + [table[m.code].0] + Reecriture(m.suite, table).0
      && Reecriture(t, table).1 == [table[m.code].1] + Reecriture(m.suite, table).1
  {
  }

  lemma Associe<T>(a: seq<T>, b: seq<T>, c: seq<T>)
    ensures a + b + c == a + (b + c)
  {
  }

  // ---------------------------------------------------------------------
  // What the rewriting does, position by position
  // ---------------------------------------------------------------------

  /** `n` unmarked positions. */
  function Faux(n: nat): (r: seq<bool>)
    ensures |r| == n && forall i :: 0 <= i < n ==> !r[i]
  {
    if n == 0 then [] else [false] + Faux(n - 1)
  }

  /** The code characters the rewriting consumes, marked on the template:
      true exactly at the code of each placeholder it rewrites. */
  ghost function Masque(t: string, table: Table): (r: seq<bool>)
    decreases |t|
  {
    match Etape(t, table.Keys)
    case None => Faux(|t|)
    case Some(m) => Faux(|m.prefixe| + 1 + |m.largeur|) + [true] + Masque(m.suite, table)
  }

  /** A mask of the template's length whose marked characters are codes of the table. */
  predicate Marque(t: string, masque: seq<bool>, table: Table) {
    |masque| == |t| && forall i :: 0 <= i < |t| && masque[i] ==> t[i] in table
  }

  /** The template with each marked code replaced by its native conversion. */
  function Appliquer(t: string, masque: seq<bool>, table: Table): (r: string)
    requires Marque(t, masque, table)
    ensures |r| == |t|
    ensures forall i :: 0 <= i < |t| ==> r[i] == if masque[i] then table[t[i]].0 else t[i]
  {
    seq(|t|, i requires 0 <= i < |t| => if masque[i] then table[t[i]].0 else t[i])
  }

  /** The table's values for the marked codes, in template order. */
  function Valeurs(t: string, masque: seq<bool>, table: Table): seq<Valeur>
    requires Marque(t, masque, table)
  {
    if t == [] then []
    else (if masque[0] then [table[t[0]].1] else []) + Valeurs(t[1..], masque[1..], table)
  }

  lemma MasqueDeplie(t: string, table: Table)
    requires Etape(t, table.Keys).Some?
    ensures var m := Etape(t, table.Keys).value;
      Masque(t, table) == Faux(|m.prefixe + "%" + m.largeur|) + [true] + Masque(m.suite, table)
  {
  }

  lemma {:induction false} MasqueMarque(t: string, table: Table)
    ensures Marque(t, Masque(t, table), table)
    decreases |t|
  {
    if Etape(t, table.Keys).Some? {
      var m := Etape(t, table.Keys).value;
      MasqueMarque(m.suite, table);
      EtapeDecoupe(t, table.Keys);
      MasqueDeplie(t, table);
      MarqueConcat(t, Masque(t, table), m.prefixe + "%" + m.largeur, m.code, m.suite, Masque(m.suite, table), table);
    }
  }

  lemma MarqueConcat(t: string, mk: seq<bool>, tete: string, c: char, suite: string, ms: seq<bool>, table: Table)
    requires t == tete + [c] + suite && mk == Faux(|tete|) + [true] + ms
    requires c in table && Marque(suite, ms, table)
    ensures Marque(t, mk, table)
  {
    forall i | 0 <= i < |t| && mk[i] ensures t[i] in table {
      if i > |tete| { assert t[i] == suite[i - |tete| - 1] && mk[i] == ms[i - |tete| - 1]; }
    }
  }

  lemma AppliquerConcat(t: string, mk: seq<bool>, tete: string, c: char, suite: string, ms: seq<bool>, table: Table)
    requires t == tete + [c] + suite && mk == Faux(|tete|) + [true] + ms
    requires c in table && Marque(suite, ms, table) && Marque(t, mk, table)
    ensures Appliquer(t, mk, table) == tete + [table[c].0] + Appliquer(suite, ms, table)
  {
    var r := Appliquer(t, mk, table);
    var r' := tete + [table[c].0] + Appliquer(suite, ms, table);
    forall i | 0 <= i < |t| ensures r[i] == r'[i] {
      if i > |tete| { assert t[i] == suite[i - |tete| - 1] && mk[i] == ms[i - |tete| - 1]; }
      else if i < |tete| { assert t[i] == tete[i] && !mk[i]; }
    }
  }

  lemma {:induction false} ValeursFaux(a: string, b: string, mb: seq<bool>, table: Table)
    requires Marque(a + b, Faux(|a|) + mb, table)
    ensures Marque(b, mb, table)
    ensures Valeurs(a + b, Faux(|a|) + mb, table) == Valeurs(b, mb, table)
    decreases |a|
  {
    if a == [] {
      assert a + b == b && Faux(|a|) + mb == mb;
    } else {
      var t := a + b;
      var mk := Faux(|a|) + mb;
      assert t[1..] == a[1..] + b;
      assert mk[1..] == Faux(|a[1..]|) + mb;
      assert !mk[0];
      MarqueSuite(t, mk, table);
      ValeursFaux(a[1..], b, mb, table);
    }
  }

  lemma MarqueSuite(t: string, mk: seq<bool>, table: Table)
    requires Marque(t, mk, table) && t != []
    ensures Marque(t[1..], mk[1..], table)
  {
    forall i | 0 <= i < |t| - 1 && mk[1..][i] ensures t[1..][i] in table {
      assert t[1..][i] == t[i + 1] && mk[1..][i] == mk[i + 1];
    }
  }

  lemma ValeursConcat(t: string, mk: seq<bool>, tete: string, c: char, suite: string, ms: seq<bool>, table: Table)
    requires t == tete + ([c] + suite) && mk == Faux(|tete|) + ([true] + ms)
    requires Marque(t, mk, table)
    ensures c in table && Marque(suite, ms, table)
    ensures Valeurs(t, mk, table) == [table[c].1] + Valeurs(suite, ms, table)
  {
    ValeursFaux(tete, [c] + suite, [true] + ms, table);
    ValeursTete(c, suite, ms, table);
  }

  lemma ValeursTete(c: char, suite: string, ms: seq<bool>, table: Table)
    requires Marque([c] + suite, [true] + ms, table)
    ensures c in table && Marque(suite, ms, table)
    ensures Valeurs([c] + suite, [true] + ms, table) == [table[c].1] + Valeurs(suite, ms, table)
  {
    assert ([c] + suite)[0] == c;
    MarqueSuite([c] + suite, [true] + ms, table);
    assert ([c] + suite)[1..] == suite && ([true] + ms)[1..] == ms;
  }

  /** The reference: the rewriting replaces the code character at each
      position the mask marks by its native conversion, and collects the
      marked codes' values in text order. */
  lemma {:induction false} ReecritureMasque(t: string, table: Table)
    ensures Marque(t, Masque(t, table), table)
    ensures Reecriture(t, table) == (Appliquer(t, Masque(t, table), table), Valeurs(t, Masque(t, table), table))
    decreases |t|
  {
    MasqueMarque(t, table);
    if Etape(t, table.Keys).Some? {
      var m := Etape(t, table.Keys).value;
      ReecritureMasque(m.suite, table);
      EtapeDecoupe(t, table.Keys);
      MasqueDeplie(t, table);
      ReecritureDeplie(t, table);
      var tete := m.prefixe + "%" + m.largeur;
      AppliquerConcat(t, Masque(t, table), tete, m.code, m.suite, Masque(m.suite, table), table);
      Associe(tete, [m.code], m.suite);
      Associe(Faux(|tete|), [true], Masque(m.suite, table));
      ValeursConcat(t, Masque(t, table), tete, m.code, m.suite, Masque(m.suite, table), table);
      assert tete + [table[m.code].0] + Reecriture(m.suite, table).0 == m.prefixe + "%" + m.largeur + [table[m.code].0] + Reecriture(m.suite, table).0;
    } else {
      assert Masque(t, table) == Faux(|t|);
      ValeursAucun(t, table);
      assert Appliquer(t, Faux(|t|), table) == t;
    }
  }

  lemma {:induction false} ValeursAucun(t: string, table: Table)
    requires Marque(t, Faux(|t|), table)
    ensures Valeurs(t, Faux(|t|), table) == []
    decreases |t|
  {
    if t != [] {
      assert Faux(|t|)[1..] == Faux(|t| - 1);
      MarqueSuite(t, Faux(|t|), table);
      ValeursAucun(t[1..], table);
    }
  }

  /** Some width at the start of `apres` is followed by a code. */
  predicate Amorce(apres: string, codes: set<char>) {
    exists l :: 0 <= l < |apres| && EstLargeur(apres[..l]) && apres[l] in codes
  }

  lemma AmorceEn(apres: string, codes: set<char>, l: nat)
    requires l < |apres| && EstLargeur(apres[..l]) && apres[l] in codes
    ensures Amorce(apres, codes)
  {
  }

  /** A text that starts with a character that is neither a code nor the
      start of a width holds no placeholder start. */
  lemma SansAmorce(apres: string, codes: set<char>)
    requires |apres| > 0 && apres[0] !in codes
    requires apres[0] != '-' && apres[0] != '.' && !EstChiffre(apres[0])
    ensures !Amorce(apres, codes)
  {
    forall l | 0 < l < |apres| ensures !EstLargeur(apres[..l]) {
      assert apres[..l][0] == apres[0];
    }
  }

  /** A width is made of signs, dots and digits only. */
  lemma LargeurAlphabet(w: string, i: nat)
    requires EstLargeur(w) && i < |w|
    ensures w[i] == '-' || w[i] == '.' || EstChiffre(w[i])
  {
    var m := if |w| > 0 && w[0] == '-' then 1 else 0;
    var d := m + PrefixeChiffres(w[m..]);
    if i >= m && i < d {
      assert w[m..][..d - m][i - m] == w[i];
    } else if i > d {
      assert w[d + 1..][i - d - 1] == w[i];
    }
  }

  /** A placeholder with a code that cannot belong to a width is matched as
      written: its width is the one before the code. */
  lemma EtapeEn(t: string, codes: set<char>, pre: string, w: string, c: char, suite: string)
    requires t == pre + "%" + w + [c] + suite
    requires '%' !in pre && EstLargeur(w) && c in codes
    requires c != '-' && c != '.' && !EstChiffre(c)
    ensures Etape(t, codes) == Some(Correspondance(pre, w, c, suite))
  {
    var apres := w + [c] + suite;
    PourcentApres(t, pre, apres);
    LargeurEn(apres, codes, w, c, suite);
    var l := |w|;
    assert apres[..l] == w && apres[l] == c && apres[l + 1..] == suite;
  }

  lemma PourcentApres(t: string, pre: string, apres: string)
    requires t == pre + "%" + apres && '%' !in pre
    ensures '%' in t && IndexDe(t, '%') == |pre| && t[..|pre|] == pre && t[|pre| + 1..] == apres
  {
    assert t == pre + ['%'] + apres;
    IndexDeApres(pre, '%', apres);
  }

  lemma LargeurEn(apres: string, codes: set<char>, w: string, c: char, suite: string)
    requires apres == w + [c] + suite
    requires EstLargeur(w) && c in codes
    requires c != '-' && c != '.' && !EstChiffre(c)
    ensures Largeur(apres, codes) == Some(|w|)
  {
    assert apres[..|w|] == w;
    LargeurMaximale(apres, codes, |w|);
    var l := Largeur(apres, codes).value;
    if l > |w| {
      LargeurValide(apres, codes);
      assert apres[..l][|w|] == c;
      LargeurAlphabet(apres[..l], |w|);
    }
  }

  /** Without a backslash in the rewritten template, the final `gsub` changes nothing. */
  lemma FormatEtArgsSansBarre(t: string, table: Table)
    requires '\\' !in Reecriture(t, table).0
    ensures FormatEtArgs(t, table) == Reecriture(t, table)
  {
    var f := Reecriture(t, table).0;
    assert !AEchappement(f) by {
      forall i | 0 <= i < |f| - 1 ensures f[i] != '\\' {
        assert f[i] in f;
      }
    }
    RemplacerSansEchappement(f);
  }

  /** One turn of the rewriting on a placeholder matched as written. */
  lemma ReecritureEn(t: string, table: Table, pre: string, w: string, c: char, suite: string)
    requires t == pre + "%" + w + [c] + suite
    requires '%' !in pre && EstLargeur(w) && c in table
    requires c != '-' && c != '.' && !EstChiffre(c)
    ensures Reecriture(t, table).0 == pre + "%" + w + [table[c].0] + Reecriture(suite, table).0
    ensures Reecriture(t, table).1 == [table[c].1] + Reecriture(suite, table).1
  {
    EtapeEn(t, table.Keys, pre, w, c, suite);
    ReecritureDeplie(t, table);
  }

  /** One placeholder of a template written out piece by piece: the text
      before it, its width and its code. */
  datatype Morceau = Morceau(prefixe: string, largeur: string, code: char)

  /** The template made of the placeholders `ms`, in order, then `fin`. */
  function Assembler(ms: seq<Morceau>, fin: string): string
    decreases |ms|
  {
    if ms == [] then fin
    else ms[0].prefixe + "%" + ms[0].largeur + [ms[0].code] + Assembler(ms[1..], fin)
  }

  /** Every code of `ms` is a key of the table. */
  predicate Connus(ms: seq<Morceau>, table: Table) {
    forall i :: 0 <= i < |ms| ==> ms[i].code in table
  }

  /** A placeholder the pattern matches as written: no `%` before it, a
      width, and a code that cannot be taken for part of a width. */
  predicate Net(m: Morceau) {
    '%' !in m.prefixe && EstLargeur(m.largeur) && m.code != '-' && m.code != '.' && !EstChiffre(m.code)
  }

  /** The same placeholders with each code replaced by its native conversion. */
  function Traduire(ms: seq<Morceau>, table: Table): (r: seq<Morceau>)
    requires Connus(ms, table)
    ensures |r| == |ms|
    ensures forall i :: 0 <= i < |ms| ==> r[i] == ms[i].(code := table[ms[i].code].0)
  {
    seq(|ms|, i requires 0 <= i < |ms| => ms[i].(code := table[ms[i].code].0))
  }

  /** The table's values for the placeholders, in order. */
  function ArgsDe(ms: seq<Morceau>, table: Table): (r: seq<Valeur>)
    requires Connus(ms, table)
    ensures |r| == |ms|
    ensures forall i :: 0 <= i < |ms| ==> r[i] == table[ms[i].code].1
  {
    seq(|ms|, i requires 0 <= i < |ms| => table[ms[i].code].1)
  }

  /** A template whose placeholders all match as written is rewritten
      placeholder by placeholder, with one value per placeholder in order,
      and its tail without `%` is copied. */
  lemma {:induction false} ReecritureAssembler(ms: seq<Morceau>, fin: string, table: Table)
    requires Connus(ms, table) && forall i :: 0 <= i < |ms| ==> Net(ms[i])
    requires '%' !in fin
    ensures Reecriture(Assembler(ms, fin), table).0 == Assembler(Traduire(ms, table), fin)
    ensures Reecriture(Assembler(ms, fin), table).1 == ArgsDe(ms, table)
    decreases |ms|
  {
    if ms != [] {
      var m := ms[0];
      var reste := Assembler(ms[1..], fin);
      assert Net(m) && m.code in table;
      assert Assembler(ms, fin) == m.prefixe + "%" + m.largeur + [m.code] + reste;
      ReecritureEn(Assembler(ms, fin), table, m.prefixe, m.largeur, m.code, reste);
      QueueNette(ms, table);
      ReecritureAssembler(ms[1..], fin, table);
      AssemblerTraduire(ms, fin, table);
    }
  }

  lemma QueueNette(ms: seq<Morceau>, table: Table)
    requires ms != [] && Connus(ms, table) && forall i :: 0 <= i < |ms| ==> Net(ms[i])
    ensures Connus(ms[1..], table) && forall i :: 0 <= i < |ms[1..]| ==> Net(ms[1..][i])
  {
    assert forall i :: 0 <= i < |ms[1..]| ==> ms[1..][i] == ms[i + 1];
  }

  /** Translating then assembling, one placeholder at a time. */
  lemma AssemblerTraduire(ms: seq<Morceau>, fin: string, table: Table)
    requires Connus(ms, table) && ms != [] && Connus(ms[1..], table)
    ensures Assembler(Traduire(ms, table), fin)
         == ms[0].prefixe + "%" + ms[0].largeur + [table[ms[0].code].0] + Assembler(Traduire(ms[1..], table), fin)
    ensures ArgsDe(ms, table) == [table[ms[0].code].1] + ArgsDe(ms[1..], table)
  {
    var tr := Traduire(ms, table);
    assert tr[1..] == Traduire(ms[1..], table);
  }

  /** Two placeholders that match as written, then a tail without `%`. */
  lemma DeuxPlaceholders(f: string, table: Table, m1: Morceau, m2: Morceau, fin: string)
    requires f == m1.prefixe + "%" + m1.largeur + [m1.code] + (m2.prefixe + "%" + m2.largeur + [m2.code] + fin)
    requires Net(m1) && Net(m2) && m1.code in table && m2.code in table && '%' !in fin
    ensures Reecriture(f, table).0
         == m1.prefixe + "%" + m1.largeur + [table[m1.code].0] + (m2.prefixe + "%" + m2.largeur + [table[m2.code].0] + fin)
    ensures Reecriture(f, table).1 == [table[m1.code].1, table[m2.code].1]
  {
    var s1 := m2.prefixe + "%" + m2.largeur + [m2.code] + fin;
    assert Reecriture(fin, table) == (fin, []);
    ReecritureEn(s1, table, m2.prefixe, m2.largeur, m2.code, fin);
    var r1 := Reecriture(s1, table);
    ReecritureEn(f, table, m1.prefixe, m1.largeur, m1.code, s1);
    var r := Reecriture(f, table);
    assert r.1 == [table[m1.code].1] + r1.1;
    assert r.1 == [table[m1.code].1, table[m2.code].1];
  }

  /** Three placeholders that match as written, then a tail without `%`. */
  lemma TroisPlaceholders(f: string, table: Table, m1: Morceau, m2: Morceau, m3: Morceau, fin: string)
    requires f == m1.prefixe + "%" + m1.largeur + [m1.code]
                + (m2.prefixe + "%" + m2.largeur + [m2.code] + (m3.prefixe + "%" + m3.largeur + [m3.code] + fin))
    requires Net(m1) && Net(m2) && Net(m3) && m1.code in table && m2.code in table && m3.code in table
    requires '%' !in fin
    ensures Reecriture(f, table).0
         == m1.prefixe + "%" + m1.largeur + [table[m1.code].0]
            + (m2.prefixe + "%" + m2.largeur + [table[m2.code].0] + (m3.prefixe + "%" + m3.largeur + [table[m3.code].0] + fin))
    ensures Reecriture(f, table).1 == [table[m1.code].1, table[m2.code].1, table[m3.code].1]
  {
    var s1 := m2.prefixe + "%" + m2.largeur + [m2.code] + (m3.prefixe + "%" + m3.largeur + [m3.code] + fin);
    DeuxPlaceholders(s1, table, m2, m3, fin);
    var r1 := Reecriture(s1, table);
    ReecritureEn(f, table, m1.prefixe, m1.largeur, m1.code, s1);
    var r := Reecriture(f, table);
    assert r.1 == [table[m1.code].1] + r1.1;
    assert r.1 == [table[m1.code].1, table[m2.code].1, table[m3.code].1];
  }

  /** Four placeholders that match as written, then a tail without `%`. */
  lemma QuatrePlaceholders(f: string, table: Table, m1: Morceau, m2: Morceau, m3: Morceau, m4: Morceau, fin: string)
    requires f == m1.prefixe + "%" + m1.largeur + [m1.code]
                + (m2.prefixe + "%" + m2.largeur + [m2.code]
                + (m3.prefixe + "%" + m3.largeur + [m3.code] + (m4.prefixe + "%" + m4.largeur + [m4.code] + fin)))
    requires Net(m1) && Net(m2) && Net(m3) && Net(m4)
    requires m1.code in table && m2.code in table && m3.code in table && m4.code in table
    requires '%' !in fin
    ensures Reecriture(f, table).0
         == m1.prefixe + "%" + m1.largeur + [table[m1.code].0]
            + (m2.prefixe + "%" + m2.largeur + [table[m2.code].0]
            + (m3.prefixe + "%" + m3.largeur + [table[m3.code].0] + (m4.prefixe + "%" + m4.largeur + [table[m4.code].0] + fin)))
    ensures Reecriture(f, table).1 == [table[m1.code].1, table[m2.code].1, table[m3.code].1, table[m4.code].1]
  {
    var s1 := m2.prefixe + "%" + m2.largeur + [m2.code]
              + (m3.prefixe + "%" + m3.largeur + [m3.code] + (m4.prefixe + "%" + m4.largeur + [m4.code] + fin));
    TroisPlaceholders(s1, table, m2, m3, m4, fin);
    var r1 := Reecriture(s1, table);
    ReecritureEn(f, table, m1.prefixe, m1.largeur, m1.code, s1);
    var r := Reecriture(f, table);
    EnTeteDeTrois(table[m1.code].1, table[m2.code].1, table[m3.code].1, table[m4.code].1, r1.1);
  }

  lemma EnTeteDeTrois<T>(a: T, b: T, c: T, d: T, s: seq<T>)
    requires s == [b, c, d]
    ensures [a] + s == [a, b, c, d]
  {
  }

  /** A match exists exactly when the text has a `%` and some width after
      the first one is followed by a code. */
  lemma EtapeTrouve(t: string, codes: set<char>)
    ensures Etape(t, codes).Some? <==> '%' in t && Amorce(t[IndexDe(t, '%') + 1..], codes)
  {
    if Etape(t, codes).Some? {
      EtapeAmorce(t, codes);
    } else if '%' in t && Amorce(t[IndexDe(t, '%') + 1..], codes) {
      AmorceEtape(t, codes);
    }
  }

  lemma EtapeAmorce(t: string, codes: set<char>)
    requires Etape(t, codes).Some?
    ensures '%' in t && Amorce(t[IndexDe(t, '%') + 1..], codes)
  {
    var apres := t[IndexDe(t, '%') + 1..];
    LargeurValide(apres, codes);
    AmorceEn(apres, codes, Largeur(apres, codes).value);
  }

  lemma AmorceEtape(t: string, codes: set<char>)
    requires '%' in t && Amorce(t[IndexDe(t, '%') + 1..], codes)
    ensures Etape(t, codes).Some?
  {
    var apres := t[IndexDe(t, '%') + 1..];
    var l :| 0 <= l < |apres| && EstLargeur(apres[..l]) && apres[l] in codes;
    LargeurMaximale(apres, codes, l);
  }

  /** The rewriting collects no value exactly when no placeholder starts at
      the first `%`, and then it returns the template unchanged: the text
      after a `%` that starts no placeholder is never examined. */
  lemma SansPlaceholder(t: string, table: Table)
    ensures Reecriture(t, table).1 == [] <==> !('%' in t && Amorce(t[IndexDe(t, '%') + 1..], table.Keys))
    ensures Reecriture(t, table).1 == [] ==> Reecriture(t, table).0 == t
  {
    EtapeTrouve(t, table.Keys);
  }

  // ---------------------------------------------------------------------
  // The pattern as Ruby runs it: `^` is a line anchor
  // ---------------------------------------------------------------------

  /** `motif.match` as written: Ruby's `^` matches at the start of the text
      and after every newline, so when the placeholder search fails on the
      first line the engine tries again from each later line start. Returns
      where the match starts along with its groups. */
  function EtapeLigne(t: string, codes: set<char>): (r: Option<(nat, Correspondance)>)
    ensures r.Some? ==> r.value.0 + |r.value.1.suite| < |t| && r.value.1.code in codes
    ensures r.Some? ==> var m := r.value.1;
      r.value.0 + |m.prefixe| + |m.largeur| + 2 + |m.suite| == |t|
    ensures '%' !in t ==> r.None?
    decreases |t|
  {
    match Etape(t, codes)
    case Some(m) =>
      EtapeDecoupe(t, codes);
      Some((0, m))
    case None =>
      if '\n' !in t then None
      else
        var i := IndexDe(t, '\n');
        match EtapeLigne(t[i + 1..], codes)
        case None => None
        case Some(r) => Some((r.0 + i + 1, r.1))
  }

  /** The loop of `generer_format_et_args` as written: the text before the
      line where a match starts (its `pre_match`) is not copied. */
  function ReecritureTelQuEcrit(t: string, table: Table): (r: (string, seq<Valeur>))
    ensures |r.0| <= |t|
    ensures '%' !in t ==> r == (t, [])
    decreases |t|
  {
    match EtapeLigne(t, table.Keys)
    case None => (t, [])
    case Some(r) =>
      var m := r.1;
      var suite := ReecritureTelQuEcrit(m.suite, table);
      (m.prefixe + "%" + m.largeur + [table[m.code].0] + suite.0, [table[m.code].1] + suite.1)
  }

  /** On a template without newline characters the two readings agree. */
  lemma {:induction false} SansSautDeLigneIdentiques(t: string, table: Table)
    requires '\n' !in t
    ensures ReecritureTelQuEcrit(t, table) == Reecriture(t, table)
    decreases |t|
  {
    match Etape(t, table.Keys)
    case None =>
    case Some(m) =>
      assert m.suite == t[|t| - |m.suite|..];
      SansSautDeLigneIdentiques(m.suite, table);
  }
  /** The result of `generer_format_et_args`, as written and as corrected,
      agree on a template without a newline; a template with no `%` and no
      backslash-n pair comes out unchanged, with no argument. */
  lemma FormatEtArgsTelQuEcrit(t: string, table: Table)
    ensures '\n' !in t ==>
      FormatEtArgs(t, table) == (RemplacerEchappements(ReecritureTelQuEcrit(t, table).0), ReecritureTelQuEcrit(t, table).1)
    ensures '%' !in t && !AEchappement(t) ==> FormatEtArgs(t, table) == (t, [])
  {
    FormatEtArgsDeplie(t, table);
    if '\n' !in t {
      SansSautDeLigneIdentiques(t, table);
    }
    if '%' !in t && !AEchappement(t) {
      RemplacerSansEchappement(t);
    }
  }


  /** With a newline after a `%` that starts no placeholder, the code as
      written drops the first line and rewrites a placeholder of the second:
      "100%\n%I" becomes "%d" with one value, where the rewriting stops at the
      first `%` and keeps the template whole. */
  lemma PerteAvantSautDeLigne(t: string, table: Table)
    requires t == "100%\n%I"
    requires 'I' in table && '\n' !in table
    ensures Reecriture(t, table) == (t, [])
    ensures ReecritureTelQuEcrit(t, table) == ("%" + [table['I'].0], [table['I'].1])
  {
    ReecritureArretee(t, table);
    SecondeLigneReecrite(t, table);
  }

  lemma SecondeLigneReecrite(t: string, table: Table)
    requires t == "100%\n%I"
    requires 'I' in table && '\n' !in table
    ensures ReecritureTelQuEcrit(t, table) == ("%" + [table['I'].0], [table['I'].1])
  {
    LigneSuivante(t, table.Keys);
    PlaceholderSeul(t, table, 5, 'I');
  }

  /** A match that is a bare placeholder ending the text is rewritten alone. */
  lemma PlaceholderSeul(t: string, table: Table, n: nat, k: char)
    requires k in table && EtapeLigne(t, table.Keys) == Some((n, Correspondance("", "", k, "")))
    ensures ReecritureTelQuEcrit(t, table) == ("%" + [table[k].0], [table[k].1])
  {
    DernierPlaceholder(t, table);
    var c := table[k].0;
    assert "" + "%" + "" + [c] == "%" + [c];
  }

  lemma ReecritureArretee(t: string, table: Table)
    requires t == "100%\n%I" && '\n' !in table
    ensures Reecriture(t, table) == (t, [])
  {
    PremiereLigneSansPlaceholder(t, table.Keys);
  }

  /** When the match found is the last thing in the text, the rewriting as
      written is that one rewritten placeholder. */
  lemma DernierPlaceholder(t: string, table: Table)
    requires EtapeLigne(t, table.Keys).Some? && EtapeLigne(t, table.Keys).value.1.suite == ""
    ensures var m := EtapeLigne(t, table.Keys).value.1;
      ReecritureTelQuEcrit(t, table) == (m.prefixe + "%" + m.largeur + [table[m.code].0], [table[m.code].1])
  {
    var m := EtapeLigne(t, table.Keys).value.1;
    var suite := ReecritureTelQuEcrit(m.suite, table);
    assert ReecritureTelQuEcrit(t, table) == (m.prefixe + "%" + m.largeur + [table[m.code].0] + suite.0, [table[m.code].1] + suite.1);
    assert suite == ("", []);
    assert m.prefixe + "%" + m.largeur + [table[m.code].0] + "" == m.prefixe + "%" + m.largeur + [table[m.code].0];
    assert [table[m.code].1] + suite.1 == [table[m.code].1];
  }

  /** The search as written moves on to the second line of "100%\n%I". */
  lemma LigneSuivante(t: string, codes: set<char>)
    requires t == "100%\n%I" && 'I' in codes && '\n' !in codes
    ensures EtapeLigne(t, codes) == Some((5, Correspondance("", "", 'I', "")))
  {
    PremiereLigneSansPlaceholder(t, codes);
    SautEnQuatre(t);
    DeuxiemeLigne(t[5..], codes);
  }

  lemma SautEnQuatre(t: string)
    requires t == "100%\n%I"
    ensures '\n' in t && IndexDe(t, '\n') == 4 && t[5..] == "%I"
  {
    assert t == "100%" + ['\n'] + "%I";
    IndexDeApres("100%", '\n', "%I");
  }

  /** After the first `%` of "100%\n%I" comes a newline: no width is followed by a code. */
  lemma PremiereLigneSansPlaceholder(t: string, codes: set<char>)
    requires t == "100%\n%I" && '\n' !in codes
    ensures Etape(t, codes) == None
  {
    assert IndexDe(t, '%') == 3 by { IndexDeApres("100", '%', "\n%I"); assert t == "100" + ['%'] + "\n%I"; }
    var apres := t[4..];
    assert apres == "\n%I";
    assert PrefixeChiffres(apres) == 0;
    assert LargeurMax(apres) == 0;
    assert ChoixCode(apres, codes, 0) == None;
  }

  /** "%I" is one placeholder with an empty width, when `I` is a code. */
  lemma DeuxiemeLigne(t: string, codes: set<char>)
    requires t == "%I" && 'I' in codes
    ensures EtapeLigne(t, codes) == Some((0, Correspondance("", "", 'I', "")))
  {
    assert IndexDe(t, '%') == 0;
    var apres := t[1..];
    assert apres == "I";
    assert PrefixeChiffres(apres) == 0;
    assert LargeurMax(apres) == 0;
    assert Largeur(apres, codes) == Some(0);
  }
}
