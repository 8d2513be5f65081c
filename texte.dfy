/** The few Ruby String and Integer primitives the core relies on, written
    out so that their edge cases are visible: `Integer#to_s`, `String#to_i`,
    `String#split` (with and without a limit, including the whitespace mode
    Ruby uses when the separator is a single space), `Array#join`, `chomp`,
    `IO.readlines`, `IO#puts`, `String#<=>` and `downcase` on ASCII letters. */
module Texte {

  // ---------------------------------------------------------------------
  // Decimal digits
  // ---------------------------------------------------------------------

  predicate EstChiffre(c: char) { '0' <= c <= '9' }

  predicate TousChiffres(s: string) { forall i :: 0 <= i < |s| ==> EstChiffre(s[i]) }

  function Chiffre(d: nat): (c: char)
    requires d < 10
    ensures EstChiffre(c)
  {
    (d + '0' as int) as char
  }

  function ValeurChiffre(c: char): (d: nat)
    requires EstChiffre(c)
    ensures d < 10 && Chiffre(d) == c
  {
    var d := c as int - '0' as int;
    d
  }

  /** The value of a run of decimal digits (leading zeros allowed). */
  function ValeurChiffres(s: string): nat
    requires TousChiffres(s)
  {
    if s == [] then 0 else ValeurChiffres(s[..|s| - 1]) * 10 + ValeurChiffre(s[|s| - 1])
  }

  /** `Integer#to_s` on a non-negative integer: digits without leading zeros. */
  function NatVersTexte(n: nat): (s: string)
    ensures s != [] && TousChiffres(s)
    ensures s[0] == '0' ==> n == 0
  {
    if n < 10 then [Chiffre(n)] else NatVersTexte(n / 10) + [Chiffre(n % 10)]
  }

  /** `Integer#to_s`. */
  function IntToS(n: int): (r: string)
    ensures r != [] && (r[0] == '-' <==> n < 0)
    ensures n >= 0 ==> TousChiffres(r)
  {
    if n < 0 then "-" + NatVersTexte(-n) else NatVersTexte(n)
  }

  /** Two-digit zero-padded rendering, as `%02d` or strftime's `%d`/`%m`/`%y`. */
  function Pad2(n: nat): (s: string)
    requires n < 100
    ensures |s| == 2 && TousChiffres(s)
  {
    [Chiffre(n / 10), Chiffre(n % 10)]
  }

  /** Length of the run of decimal digits at the start of `s`. */
  function PrefixeChiffres(s: string): (k: nat)
    ensures k <= |s| && TousChiffres(s[..k])
    ensures k < |s| ==> !EstChiffre(s[k])
  {
    if s == [] || !EstChiffre(s[0]) then 0
    else
      var k := 1 + PrefixeChiffres(s[1..]);
      assert s[..k] == [s[0]] + s[1..][..k - 1];
      k
  }

  /** The value of the leading digits of `s` (0 when there are none). */
  function ValeurPrefixe(s: string): nat {
    ValeurChiffres(s[..PrefixeChiffres(s)])
  }

  /** `String#to_i`: an optional sign followed by the leading digits; text
      without leading digits converts to 0. */
  function ToI(s: string): (r: int)
    ensures s != [] && EstChiffre(s[0]) ==> r >= 0
    ensures s == [] || (!EstChiffre(s[0]) && s[0] != '-' && s[0] != '+') ==> r == 0
  {
    if |s| > 0 && s[0] == '-' then -(ValeurPrefixe(s[1..]) as int)
    else if |s| > 0 && s[0] == '+' then ValeurPrefixe(s[1..])
    else ValeurPrefixe(s)
  }

  lemma {:induction false} ValeurNatVersTexte(n: nat)
    ensures ValeurChiffres(NatVersTexte(n)) == n
  {
    if n >= 10 {
      ValeurNatVersTexte(n / 10);
      var s := NatVersTexte(n / 10) + [Chiffre(n % 10)];
      assert s[..|s| - 1] == NatVersTexte(n / 10);
    }
  }

  lemma PrefixeToutChiffres(s: string)
    requires TousChiffres(s)
    ensures PrefixeChiffres(s) == |s|
  {
    if s != [] { PrefixeToutChiffres(s[1..]); }
  }

  /** `to_i` reads back what `to_s` writes, for every integer. */
  lemma ToIIntToS(n: int)
    ensures ToI(IntToS(n)) == n
  {
    if n < 0 {
      var t := NatVersTexte(-n);
      assert IntToS(n)[1..] == t;
      ValeurPrefixeNat(-n);
    } else {
      ValeurPrefixeNat(n);
    }
  }

  /** The digits `to_s` writes for a natural number read back as it, and
      start with no sign. */
  lemma ValeurPrefixeNat(n: nat)
    ensures ValeurPrefixe(NatVersTexte(n)) == n
    ensures EstChiffre(NatVersTexte(n)[0])
  {
    var t := NatVersTexte(n);
    PrefixeToutChiffres(t);
    assert t[..|t|] == t;
    ValeurNatVersTexte(n);
  }

  lemma {:induction false} ValeurPad2(n: nat)
    requires n < 100
    ensures ValeurChiffres(Pad2(n)) == n
  {
    var s := Pad2(n);
    assert ValeurChiffre(Chiffre(n / 10)) == n / 10;
    assert ValeurChiffre(Chiffre(n % 10)) == n % 10;
    assert s[..1][..0] == [];
    assert s[..1] == [Chiffre(n / 10)];
    assert ValeurChiffres(s[..1]) == n / 10;
    assert s[..|s| - 1] == s[..1];
    assert ValeurChiffres(s) == ValeurChiffres(s[..1]) * 10 + ValeurChiffre(s[1]);
  }

  lemma ToIPad2(n: nat)
    requires n < 100
    ensures ToI(Pad2(n)) == n
  {
    PrefixeToutChiffres(Pad2(n));
    assert Pad2(n)[..2] == Pad2(n);
    ValeurPad2(n);
  }

  /** A decimal text never contains a character that is neither a digit nor `-`. */
  lemma IntToSAlphabet(n: int, c: char)
    requires !EstChiffre(c) && c != '-'
    ensures c !in IntToS(n)
  {
    var s := IntToS(n);
    assert forall i :: 0 <= i < |s| ==> EstChiffre(s[i]) || s[i] == '-' by {
      if n < 0 {
        var t := NatVersTexte(-n);
        assert forall i :: 1 <= i < |s| ==> s[i] == t[i - 1];
      }
    }
  }

  // ---------------------------------------------------------------------
  // Whitespace, case
  // ---------------------------------------------------------------------

  /** Ruby's ASCII whitespace: space, tab, newline, vertical tab, form feed, carriage return. */
  predicate EstEspace(c: char) { c == ' ' || '\t' <= c <= '\r' }

  function MinusculeCar(c: char): char {
    if 'A' <= c <= 'Z' then (c as int + 32) as char else c
  }

  /** `String#downcase` restricted to ASCII letters. */
  function Minuscules(s: string): (r: string)
    ensures |r| == |s| && forall i :: 0 <= i < |s| ==> r[i] == MinusculeCar(s[i])
  {
    if s == [] then [] else [MinusculeCar(s[0])] + Minuscules(s[1..])
  }

  // ---------------------------------------------------------------------
  // split / join
  // ---------------------------------------------------------------------

  function IndexDe(s: string, c: char): (i: nat)
    requires c in s
    ensures i < |s| && s[i] == c && c !in s[..i]
  {
    if s[0] == c then 0 else 1 + IndexDe(s[1..], c)
  }

  /** Cutting `s` at occurrences of `sep`, into at most `n` pieces; the last
      piece keeps the rest of the text, separators included. */
  function Morceaux(s: string, sep: char, n: nat): (r: seq<string>)
    requires n >= 1
    ensures 1 <= |r| <= n
    decreases n
  {
    if n == 1 || sep !in s then [s]
    else
      var i := IndexDe(s, sep);
      [s[..i]] + Morceaux(s[i + 1..], sep, n - 1)
  }

  /** Ruby's whitespace ("awk") splitting, used when the separator is `" "`:
      leading whitespace is skipped, runs of whitespace separate fields, and
      text ending in whitespace yields one trailing empty field. */
  function MorceauxEspaces(s: string, n: nat): (r: seq<string>)
    requires n >= 1
    ensures 1 <= |r| <= n
    decreases |s|
  {
    var k := DebutNonEspace(s);
    var t := s[k..];
    if t == [] then [""]
    else if n == 1 then [t]
    else
      var f := FinMot(t);
      if f == |t| then [t] else [t[..f]] + MorceauxEspaces(t[f..], n - 1)
  }

  /** Index of the first non-whitespace character (or |s|). */
  function DebutNonEspace(s: string): (k: nat)
    ensures k <= |s| && forall i :: 0 <= i < k ==> EstEspace(s[i])
    ensures k < |s| ==> !EstEspace(s[k])
  {
    if s == [] || !EstEspace(s[0]) then 0 else 1 + DebutNonEspace(s[1..])
  }

  /** Index of the first whitespace character (or |s|). */
  function FinMot(s: string): (k: nat)
    ensures k <= |s| && forall i :: 0 <= i < k ==> !EstEspace(s[i])
    ensures k < |s| ==> EstEspace(s[k])
  {
    if s == [] || EstEspace(s[0]) then 0 else 1 + FinMot(s[1..])
  }

  /** `s.split(sep, n)` for a one-character separator and a limit n >= 1. */
  function Split(s: string, sep: char, n: nat): (r: seq<string>)
    requires n >= 1
    ensures |r| <= n
    ensures r == [] <==> s == []
  {
    if s == [] then []
    else if sep == ' ' then MorceauxEspaces(s, n)
    else Morceaux(s, sep, n)
  }

  function SansVidesFinaux(r: seq<string>): (t: seq<string>)
    ensures |t| <= |r| && t == r[..|t|]
    ensures t == [] || t[|t| - 1] != []
  {
    if r == [] || r[|r| - 1] != [] then r else SansVidesFinaux(r[..|r| - 1])
  }

  /** `s.split(sep)` with no limit, for a separator other than `" "`: trailing
      empty fields are dropped. */
  function SplitTout(s: string, sep: char): (r: seq<string>)
    requires sep != ' '
    ensures |r| <= |s| + 1
    ensures r == [] || r[|r| - 1] != []
  {
    if s == [] then [] else SansVidesFinaux(Morceaux(s, sep, |s| + 1))
  }

  /** `Array#join(sep)`. */
  function Join(parts: seq<string>, sep: char): string {
    if parts == [] then []
    else if |parts| == 1 then parts[0]
    else parts[0] + [sep] + Join(parts[1..], sep)
  }

  /** A join of two pieces or more ends with the last piece after a separator. */
  lemma {:induction false} JoinDernier(parts: seq<string>, sep: char)
    requires |parts| >= 2
    ensures Join(parts, sep) == Join(parts[..|parts| - 1], sep) + [sep] + parts[|parts| - 1]
    decreases |parts|
  {
    var n := |parts|;
    var init := parts[..n - 1];
    if n == 2 {
      assert parts[1..] == [parts[1]];
      assert Join(parts[1..], sep) == parts[1];
      assert init == [parts[0]];
      assert Join(init, sep) == parts[0];
    } else {
      JoinDernier(parts[1..], sep);
      assert parts[1..][..n - 2] == init[1..];
      assert parts[1..][n - 2] == parts[n - 1];
      assert Join(parts, sep) == parts[0] + [sep] + Join(parts[1..], sep);
      assert Join(init, sep) == init[0] + [sep] + Join(init[1..], sep);
    }
  }

  /** A character that is neither the separator nor in any piece is not in
      the join. */
  lemma {:induction false} JoinSans(parts: seq<string>, sep: char, c: char)
    requires c != sep && forall i :: 0 <= i < |parts| ==> c !in parts[i]
    ensures c !in Join(parts, sep)
    decreases |parts|
  {
    if |parts| >= 2 {
      JoinSans(parts[1..], sep, c);
    }
  }

  /** The pieces that `split` must get back: none but the last contains the
      separator (the last one may, since the limit keeps it whole). */
  predicate SeparableSur(parts: seq<string>, sep: char) {
    forall i :: 0 <= i < |parts| - 1 ==> sep !in parts[i]
  }

  /** The first occurrence of `c` in `a + [c] + b`, when `a` has none, is right after `a`. */
  lemma IndexDeApres(a: string, c: char, b: string)
    requires c !in a
    ensures IndexDe(a + [c] + b, c) == |a|
  {
    var s := a + [c] + b;
    var i := IndexDe(s, c);
    assert forall j :: 0 <= j < |a| ==> s[j] == a[j];
    assert s[|a|] == c;
  }

  /** The first occurrence of `c` is at `i` when `s[i]` is `c` and nothing before it is. */
  lemma IndexDePosition(s: string, c: char, i: nat)
    requires i < |s| && s[i] == c && c !in s[..i]
    ensures IndexDe(s, c) == i
  {
  }

  /** Cutting what `join` produced, into as many pieces as were joined,
      gives the pieces back. */
  lemma {:induction false} MorceauxJoin(parts: seq<string>, sep: char)
    requires |parts| >= 1 && SeparableSur(parts, sep)
    ensures Morceaux(Join(parts, sep), sep, |parts|) == parts
    decreases |parts|
  {
    if |parts| > 1 {
      var s := Join(parts, sep);
      var reste := Join(parts[1..], sep);
      assert s == parts[0] + [sep] + reste;
      assert sep !in parts[0];
      assert s[|parts[0]|] == sep;
      IndexDeApres(parts[0], sep, reste);
      assert s[..|parts[0]|] == parts[0];
      assert s[|parts[0]| + 1..] == reste;
      assert Morceaux(s, sep, |parts|) == [parts[0]] + Morceaux(reste, sep, |parts| - 1);
      assert SeparableSur(parts[1..], sep) by {
        forall i | 0 <= i < |parts[1..]| - 1 ensures sep !in parts[1..][i] {
          assert parts[1..][i] == parts[i + 1];
        }
      }
      MorceauxJoin(parts[1..], sep);
      assert [parts[0]] + parts[1..] == parts;
    }
  }

  lemma SplitJoin(parts: seq<string>, sep: char)
    requires |parts| >= 2 && SeparableSur(parts, sep) && sep != ' '
    ensures Split(Join(parts, sep), sep, |parts|) == parts
  {
    assert Join(parts, sep) == parts[0] + [sep] + Join(parts[1..], sep);
    MorceauxJoin(parts, sep);
  }

  /** The first piece of a split is the text before the first separator. */
  lemma PremierMorceau(s: string, sep: char, n: nat)
    requires n >= 2 && sep in s
    ensures Morceaux(s, sep, n)[0] == s[..IndexDe(s, sep)]
  {
  }

  // ---------------------------------------------------------------------
  // Lines: chomp, readlines, puts
  // ---------------------------------------------------------------------

  /** `String#chomp`: removes one trailing "\r\n", "\n" or "\r". */
  function Chomp(s: string): (r: string)
    ensures |s| - 2 <= |r| <= |s| && r == s[..|r|]
  {
    if |s| >= 2 && s[|s| - 2..] == "\r\n" then s[..|s| - 2]
    else if |s| >= 1 && (s[|s| - 1] == '\n' || s[|s| - 1] == '\r') then s[..|s| - 1]
    else s
  }

  /** A line that does not end with a line end is left as it is by `chomp`,
      and gets back from `chomp` once a file line's newline is added. */
  lemma ChompSansFin(s: string)
    requires s != [] && s[|s| - 1] != '\n' && s[|s| - 1] != '\r'
    ensures Chomp(s) == s && Chomp(s + "\n") == s
  {
    if |s| >= 2 {
      assert s[|s| - 2..][1] == s[|s| - 1];
    }
    ChompLigne(s);
  }

  lemma ChompLigne(s: string)
    requires s == [] || s[|s| - 1] != '\r'
    ensures Chomp(s + "\n") == s
  {
    var t := s + "\n";
    if |t| >= 2 {
      assert t[|t| - 2] == s[|s| - 1] != '\r';
      assert t[|t| - 2..] != "\r\n";
    }
    assert t[..|t| - 1] == s;
  }

  /** `IO.readlines`: the text cut after every newline, each line keeping its
      "\n"; a last line without newline is kept as it is. */
  function Readlines(contenu: string): (r: seq<string>)
    ensures |r| <= |contenu|
    ensures r == [] <==> contenu == []
    decreases |contenu|
  {
    if contenu == [] then []
    else if '\n' !in contenu then [contenu]
    else
      var i := IndexDe(contenu, '\n');
      [contenu[..i + 1]] + Readlines(contenu[i + 1..])
  }

  /** What `IO#puts` writes for one string: the string and a newline unless it
      already ends with one. */
  function Puts(s: string): string {
    if s != [] && s[|s| - 1] == '\n' then s else s + "\n"
  }

  /** `puts` keeps the string, adds at most one character, and always ends
      the line. */
  lemma PutsFinLigne(s: string)
    ensures |s| <= |Puts(s)| <= |s| + 1 && Puts(s)[..|s|] == s
    ensures Puts(s) != [] && Puts(s)[|Puts(s)| - 1] == '\n'
  {
  }

  /** The text of a file written by one `puts` per string, in order. */
  function Ecrire(lignes: seq<string>): string {
    if lignes == [] then [] else Puts(lignes[0]) + Ecrire(lignes[1..])
  }

  /** Writing one more line appends what `puts` writes for it. */
  lemma {:induction false} EcrireAjout(lignes: seq<string>, l: string)
    ensures Ecrire(lignes + [l]) == Ecrire(lignes) + Puts(l)
    decreases |lignes|
  {
    if lignes == [] {
      assert [l][1..] == [];
    } else {
      assert (lignes + [l])[1..] == lignes[1..] + [l];
      EcrireAjout(lignes[1..], l);
    }
  }

  /** Lines written with `puts` are read back by `readlines`, each with its newline. */
  lemma {:induction false} ReadlinesEcrire(lignes: seq<string>)
    requires forall i :: 0 <= i < |lignes| ==> '\n' !in lignes[i]
    ensures Readlines(Ecrire(lignes)) == seq(|lignes|, i requires 0 <= i < |lignes| => lignes[i] + "\n")
  {
    if lignes != [] {
      var l := lignes[0];
      assert Puts(l) == l + "\n";
      var c := Ecrire(lignes);
      assert c == l + "\n" + Ecrire(lignes[1..]);
      IndexDeApres(l, '\n', Ecrire(lignes[1..]));
      var i := IndexDe(c, '\n');
      assert i == |l|;
      assert c[..i + 1] == l + "\n";
      assert c[i + 1..] == Ecrire(lignes[1..]);
      ReadlinesEcrire(lignes[1..]);
    }
  }

  // ---------------------------------------------------------------------
  // gsub(/\\n/, "\n")
  // ---------------------------------------------------------------------

  /** True when `s` holds a backslash immediately followed by `n`. */
  predicate AEchappement(s: string) {
    exists i :: 0 <= i < |s| - 1 && s[i] == '\\' && s[i + 1] == 'n'
  }

  /** Text without a backslash holds no escape. */
  lemma SansBarreSansEchappement(s: string)
    requires '\\' !in s
    ensures !AEchappement(s)
  {
    forall i | 0 <= i < |s| - 1 ensures s[i] != '\\' {
      assert s[i] in s;
    }
  }

  /** Replaces every two-character sequence backslash-n by a newline, left to right. */
  function RemplacerEchappements(s: string): (r: string)
    ensures |r| <= |s|
  {
    if |s| >= 2 && s[0] == '\\' && s[1] == 'n' then "\n" + RemplacerEchappements(s[2..])
    else if s == [] then []
    else [s[0]] + RemplacerEchappements(s[1..])
  }

  /** After the replacement no backslash-n pair is left. */
  lemma {:induction false} SansEchappementApres(s: string)
    ensures !AEchappement(RemplacerEchappements(s))
    decreases |s|
  {
    var r := RemplacerEchappements(s);
    if |s| >= 2 && s[0] == '\\' && s[1] == 'n' {
      SansEchappementApres(s[2..]);
      var q := RemplacerEchappements(s[2..]);
      assert r == "\n" + q;
      forall i | 0 <= i < |r| - 1 && r[i] == '\\' ensures r[i + 1] != 'n' {
        assert i > 0 && r[i] == q[i - 1] && r[i + 1] == q[i];
      }
    } else if s != [] {
      SansEchappementApres(s[1..]);
      var q := RemplacerEchappements(s[1..]);
      assert r == [s[0]] + q;
      forall i | 0 <= i < |r| - 1 && r[i] == '\\' ensures r[i + 1] != 'n' {
        if i == 0 {
          if |s| >= 2 {
            assert s[1] != 'n';
            if |s| >= 3 && s[1] == '\\' && s[2] == 'n' { assert q[0] == '\n'; }
            else { assert q[0] == s[1]; }
          }
        } else {
          assert r[i] == q[i - 1] && r[i + 1] == q[i];
        }
      }
    }
  }

  /** Text with no backslash-n pair passes through unchanged. */
  lemma {:induction false} RemplacerSansEchappement(s: string)
    requires !AEchappement(s)
    ensures RemplacerEchappements(s) == s
    decreases |s|
  {
    if s != [] {
      if |s| >= 2 { assert !(s[0] == '\\' && s[1] == 'n'); }
      assert !AEchappement(s[1..]) by {
        forall i | 0 <= i < |s[1..]| - 1 ensures !(s[1..][i] == '\\' && s[1..][i + 1] == 'n') {
          assert s[1..][i] == s[i + 1] && s[1..][i + 1] == s[i + 2];
        }
      }
      RemplacerSansEchappement(s[1..]);
    }
  }

  // ---------------------------------------------------------------------
  // <=> on integers and strings
  // ---------------------------------------------------------------------

  /** `Integer#<=>`. */
  function CompareEntiers(a: int, b: int): int {
    if a < b then -1 else if a > b then 1 else 0
  }

  /** `String#<=>`: lexicographic on character codes, a proper prefix first. */
  function CompareChaines(a: string, b: string): (r: int)
    ensures -1 <= r <= 1
  {
    if a == [] && b == [] then 0
    else if a == [] then -1
    else if b == [] then 1
    else if a[0] < b[0] then -1
    else if a[0] > b[0] then 1
    else CompareChaines(a[1..], b[1..])
  }

  lemma {:induction false} CompareChainesAntisymetrique(a: string, b: string)
    ensures CompareChaines(a, b) == -CompareChaines(b, a)
    ensures CompareChaines(a, b) == 0 <==> a == b
  {
    if a != [] && b != [] && a[0] == b[0] {
      CompareChainesAntisymetrique(a[1..], b[1..]);
      if a[1..] == b[1..] { assert a == [a[0]] + a[1..] && b == [b[0]] + b[1..]; }
    }
  }

  lemma {:induction false} CompareChainesTransitive(a: string, b: string, c: string)
    requires CompareChaines(a, b) <= 0 && CompareChaines(b, c) <= 0
    ensures CompareChaines(a, c) <= 0
  {
    if a != [] && b != [] && c != [] && a[0] == b[0] && b[0] == c[0] {
      CompareChainesTransitive(a[1..], b[1..], c[1..]);
    }
  }
}
