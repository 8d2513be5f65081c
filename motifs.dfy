/** The lexical patterns of `GestionVins::Motifs`, each read as a predicate
    on a whole string (callers anchor the Ruby patterns with `^…$` or `\b…\b`). */
module Motifs {
  import opened Texte

  const NOTE_MIN: int := 0
  const NOTE_MAX: int := 5

  /** NUM_VIN, `[0-9][0-9]*`: one or more digits. */
  predicate NumVin(s: string) { |s| >= 1 && TousChiffres(s) }

  /** The day part of DATE: `0[1-9]|[12][0-9]|3[01]`. */
  predicate Jour(a: char, b: char) {
    (a == '0' && '1' <= b <= '9') || ((a == '1' || a == '2') && EstChiffre(b)) || (a == '3' && (b == '0' || b == '1'))
  }

  /** The month part of DATE: `0[1-9]|1[0-2]`. */
  predicate Mois(a: char, b: char) {
    (a == '0' && '1' <= b <= '9') || (a == '1' && '0' <= b <= '2')
  }

  /** DATE: `JJ/MM/AA`, lexical only (no calendar check). */
  predicate Date(s: string) {
    |s| == 8 && Jour(s[0], s[1]) && s[2] == '/' && Mois(s[3], s[4]) && s[5] == '/'
    && EstChiffre(s[6]) && EstChiffre(s[7])
  }

  /** CHAINE: `"…"` without inner `"`, `'…'` without inner `'` (both non-empty
      inside), or a non-empty run of non-whitespace characters. */
  predicate Chaine(s: string) {
    (|s| >= 3 && s[0] == '"' && s[|s| - 1] == '"' && '"' !in s[1..|s| - 1])
    || (|s| >= 3 && s[0] == '\'' && s[|s| - 1] == '\'' && '\'' !in s[1..|s| - 1])
    || (|s| >= 1 && forall i :: 0 <= i < |s| ==> !EstEspace(s[i]))
  }

  /** MILLESIME: exactly four digits. */
  predicate Millesime(s: string) { |s| == 4 && TousChiffres(s) }

  /** PRIX: one or more digits, a dot, exactly two digits. */
  predicate Prix(s: string) {
    |s| >= 4 && s[|s| - 3] == '.' && TousChiffres(s[..|s| - 3]) && TousChiffres(s[|s| - 2..])
  }

  /** NOTE: one character of the class `[NOTE_MIN-NOTE_MAX]`. */
  predicate Note(s: string) {
    |s| == 1 && EstChiffre(s[0]) && NOTE_MIN <= ValeurChiffre(s[0]) <= NOTE_MAX
  }

  lemma IntToSChiffre(n: int)
    requires 0 <= n < 10
    ensures IntToS(n) == [Chiffre(n)]
  {
  }

  lemma {:induction false} IntToSLong(n: nat)
    requires n >= 10
    ensures |IntToS(n)| >= 2
  {
  }

  /** NOTE accepts exactly the decimal texts of the legal notes. */
  lemma NoteIntToS(n: int)
    ensures Note(IntToS(n)) <==> NOTE_MIN <= n <= NOTE_MAX
  {
    if 0 <= n < 10 {
      IntToSChiffre(n);
      assert ValeurChiffre(Chiffre(n)) == n;
    } else if n >= 10 {
      IntToSLong(n);
    }
  }

  /** A NOTE text reads back, with `to_i`, as a note in range. */
  lemma NoteToI(s: string)
    requires Note(s)
    ensures NOTE_MIN <= ToI(s) <= NOTE_MAX && s == IntToS(ToI(s))
  {
    var d := ValeurChiffre(s[0]);
    assert s == [Chiffre(d)];
    PrefixeToutChiffres(s);
    assert s[..1] == s;
    assert s[..0] == [];
    assert s[0] != '-' && s[0] != '+';
    assert ValeurChiffres(s) == d;
    assert ToI(s) == d;
    IntToSChiffre(d);
  }

  /** NUM_VIN accepts the decimal text of every non-negative number, and no negative one. */
  lemma NumVinIntToS(n: int)
    ensures NumVin(IntToS(n)) <==> n >= 0
  {
    if n < 0 {
      assert IntToS(n)[0] == '-' && !EstChiffre('-');
    }
  }

  /** MILLESIME accepts the decimal text of exactly the four-digit years. */
  lemma {:induction false} MillesimeIntToS(n: int)
    ensures Millesime(IntToS(n)) <==> 1000 <= n <= 9999
  {
    if n >= 0 {
      LongueurNatVersTexte(n);
    }
  }

  /** Length of a decimal text: k digits exactly when 10^(k-1) <= n < 10^k (k = 1..4 used here). */
  lemma {:induction false} LongueurNatVersTexte(n: nat)
    ensures |NatVersTexte(n)| == 4 <==> 1000 <= n <= 9999
    ensures n < 1000 ==> |NatVersTexte(n)| <= 3
    ensures n >= 1000 ==> |NatVersTexte(n)| >= 4
    ensures n >= 10000 ==> |NatVersTexte(n)| >= 5
  {
    if n >= 10 {
      LongueurNatVersTexte(n / 10);
    }
  }

  /** The accept/reject examples of the Ruby test suite, on whole strings. */
  lemma ExemplesNumVin()
    ensures NumVin("1") && NumVin("901")
    ensures !NumVin("999X") && !NumVin("X999") && !NumVin("")
  {
    assert "999X"[3] == 'X' && "X999"[0] == 'X' && !EstChiffre('X');
  }

  lemma ExemplesDate()
    ensures Date("10/10/10") && Date("01/01/01") && Date("29/02/01") && Date("30/02/01")
    ensures !Date("10/13/10") && !Date("32/11/11") && !Date("12/13/12") && !Date("12/33/12")
    ensures !Date("10/10/2010") && !Date("1/1/1") && !Date("12-12-12") && !Date("1x 10 10")
  {
  }

  lemma ExemplesMillesime()
    ensures Millesime("2010") && Millesime("1990")
    ensures !Millesime("00") && !Millesime("22.0") && !Millesime("deux mille")
  {
    assert "22.0"[2] == '.';
  }

  lemma ExemplesPrix()
    ensures Prix("0.99") && Prix("9.99") && Prix("22.90") && Prix("122.00")
    ensures !Prix("22") && !Prix("22.0") && !Prix("vingt-deux") && !Prix("122.000")
  {
    assert "122.000"[4] != '.';
    assert !TousChiffres("vingt-deux"[..7]) by { assert !EstChiffre("vingt-deux"[0]); }
  }

  lemma ExemplesChaineGuillemets()
    ensures Chaine("\"Pays D'Oc\"") && Chaine("'Beaujolais Villages'")
  {
  }

  lemma ExemplesChaineImbriquees()
    ensures Chaine("'Tres bon, de style \"Pinot\"'") && Chaine("\"Tres bon, de style Pinot\"")
  {
  }

  lemma ExemplesChaineMot()
    ensures Chaine("Cotes-du-Rhone-Rasteau")
    ensures !Chaine("") && !Chaine("deux mots") && !Chaine("'a b")
  {
    assert "deux mots"[4] == ' ';
    assert "'a b"[2] == ' ';
  }

  lemma ExemplesNote()
    ensures forall n :: NOTE_MIN <= n <= NOTE_MAX ==> Note(IntToS(n))
    ensures !Note("-1") && !Note("6") && !Note("abc") && !Note(" 4 ")
  {
    forall n | NOTE_MIN <= n <= NOTE_MAX ensures Note(IntToS(n)) { NoteIntToS(n); }
  }
}
