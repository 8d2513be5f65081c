/** Calendar dates as `Vin` uses them: built with Ruby's `Date.new(a, m, j)`,
    written with `strftime("%d/%m/%y")`, compared with `Date#<=>`. */
module Dates {
  import opened Wrappers
  import opened Texte
  import Motifs

  datatype Date = Date(annee: int, mois: nat, jour: nat)

  /** Gregorian leap years. */
  predicate Bissextile(a: int) {
    (a % 4 == 0 && a % 100 != 0) || a % 400 == 0
  }

  function JoursDansMois(a: int, m: nat): (n: nat)
    requires 1 <= m <= 12
    ensures 28 <= n <= 31
  {
    if m == 2 then (if Bissextile(a) then 29 else 28)
    else if m == 4 || m == 6 || m == 9 || m == 11 then 30
    else 31
  }

  predicate Valide(d: Date) {
    1 <= d.mois <= 12 && 1 <= d.jour <= JoursDansMois(d.annee, d.mois)
  }

  /** `Date.new(a, m, j)`: a negative month counts back from December and a
      negative day from the end of the month; anything else out of range
      fails. */
  function NouvelleDate(a: int, m: int, j: int): (r: Result<Date>)
    ensures r.Ok? ==> Valide(r.value) && r.value.annee == a
    ensures r.Err? ==> r.error == DateInvalide
  {
    var m' := if m < 0 then m + 13 else m;
    if m' < 1 || m' > 12 then Err(DateInvalide)
    else
      var n := JoursDansMois(a, m');
      var j' := if j < 0 then j + n + 1 else j;
      if j' < 1 || j' > n then Err(DateInvalide)
      else Ok(Date(a, m', j'))
  }

  /** A valid date given by its own year, month and day is built unchanged. */
  lemma NouvelleDateValide(d: Date)
    requires Valide(d)
    ensures NouvelleDate(d.annee, d.mois, d.jour) == Ok(d)
  {
  }

  /** Month and day 0 are always rejected, and so is a month beyond 12. */
  lemma NouvelleDateRejets(a: int, m: int, j: int)
    ensures NouvelleDate(a, 0, j).Err? && NouvelleDate(a, m, 0).Err?
    ensures m > 12 ==> NouvelleDate(a, m, j).Err?
  {
  }

  /** `strftime("%d/%m/%y")`: two-digit day, month and year of the century. */
  function FormatDate(d: Date): (s: string)
    requires Valide(d)
    ensures |s| == 8 && s[2] == '/' && s[5] == '/'
  {
    Pad2(d.jour) + "/" + Pad2(d.mois) + "/" + Pad2(d.annee % 100)
  }

  /** What `FormatDate` writes is accepted by the DATE pattern. */
  lemma FormatDateMotif(d: Date)
    requires Valide(d)
    ensures Motifs.Date(FormatDate(d))
  {
    var s := FormatDate(d);
    assert s[..2] == Pad2(d.jour) && s[3..5] == Pad2(d.mois) && s[6..] == Pad2(d.annee % 100);
    assert Motifs.Jour(s[0], s[1]) by { JourPad2(d.jour); }
    assert Motifs.Mois(s[3], s[4]) by { MoisPad2(d.mois); }
  }

  lemma JourPad2(j: nat)
    requires 1 <= j <= 31
    ensures Motifs.Jour(Pad2(j)[0], Pad2(j)[1])
  {
  }

  lemma MoisPad2(m: nat)
    requires 1 <= m <= 12
    ensures Motifs.Mois(Pad2(m)[0], Pad2(m)[1])
  {
  }

  /** How `new_from_csv` reads a date back: `split("/")`, a missing part is
      nil and converts to 0, and the year is taken in the 2000s. */
  function LireDate(s: string): (r: Result<Date>)
    ensures r.Ok? ==> Valide(r.value)
    ensures r.Err? ==> r.error == DateInvalide
  {
    var p := SplitTout(s, '/');
    var j := if |p| > 0 then ToI(p[0]) else 0;
    var m := if |p| > 1 then ToI(p[1]) else 0;
    var a := if |p| > 2 then ToI(p[2]) else 0;
    NouvelleDate(2000 + a, m, j)
  }

  /** A date of the years 2000 to 2099 is read back as it was written. */
  lemma LireFormatDate(d: Date)
    requires Valide(d) && 2000 <= d.annee <= 2099
    ensures LireDate(FormatDate(d)) == Ok(d)
  {
    Siecle(d.annee);
    LireTroisNombres(d.jour, d.mois, d.annee % 100);
    NouvelleDateValide(d);
  }

  /** Two-digit day, month and year joined with '/' are read back as the
      date of that day and month in that year of the 2000s. */
  lemma LireTroisNombres(j: nat, m: nat, a: nat)
    requires j < 100 && m < 100 && a < 100
    ensures LireDate(Pad2(j) + "/" + Pad2(m) + "/" + Pad2(a)) == NouvelleDate(2000 + a, m, j)
  {
    var parts := [Pad2(j), Pad2(m), Pad2(a)];
    SplitTroisNombres(j, m, a);
    LireDateDe(Pad2(j) + "/" + Pad2(m) + "/" + Pad2(a), parts);
    LireTroisPieces(parts, j, m, a);
  }

  /** `split("/")` cuts two-digit day, month and year back apart. */
  lemma SplitTroisNombres(j: nat, m: nat, a: nat)
    requires j < 100 && m < 100 && a < 100
    ensures SplitTout(Pad2(j) + "/" + Pad2(m) + "/" + Pad2(a), '/') == [Pad2(j), Pad2(m), Pad2(a)]
  {
    SansBarre(Pad2(j));
    SansBarre(Pad2(m));
    SansBarre(Pad2(a));
    SplitTrois(Pad2(j), Pad2(m), Pad2(a));
  }

  /** `split("/")` cuts three pieces without '/' back apart. */
  lemma SplitTrois(x: string, y: string, z: string)
    requires '/' !in x && '/' !in y && '/' !in z && z != []
    ensures SplitTout(x + "/" + y + "/" + z, '/') == [x, y, z]
  {
    var queue := y + ['/'] + z;
    BarresTrois(x, y, z);
    var s := x + ['/'] + queue;
    var n := |s| + 1;
    MorceauxTete(x, '/', queue, n);
    MorceauxTete(y, '/', z, n - 1);
    assert [x] + ([y] + [z]) == [x, y, z];
    SplitToutMorceaux(s, [x, y, z]);
  }

  /** Cutting that yields pieces ending with a non-empty one is what `split` returns. */
  lemma SplitToutMorceaux(s: string, r: seq<string>)
    requires s != [] && Morceaux(s, '/', |s| + 1) == r && r != [] && r[|r| - 1] != []
    ensures SplitTout(s, '/') == r
  {
  }

  lemma BarresTrois(x: string, y: string, z: string)
    ensures x + "/" + y + "/" + z == x + ['/'] + (y + ['/'] + z)
  {
  }

  /** Digits are no '/'. */
  lemma SansBarre(p: string)
    requires TousChiffres(p)
    ensures '/' !in p
  {
  }

  /** The two-digit year of the 2000s. */
  lemma Siecle(a: int)
    requires 2000 <= a <= 2099
    ensures a % 100 == a - 2000
  {
  }

  lemma LireDateDe(s: string, parts: seq<string>)
    requires SplitTout(s, '/') == parts && |parts| == 3
    ensures LireDate(s) == NouvelleDate(2000 + ToI(parts[2]), ToI(parts[1]), ToI(parts[0]))
  {
  }

  lemma LireTroisPieces(parts: seq<string>, j: nat, m: nat, a: nat)
    requires j < 100 && m < 100 && a < 100
    requires parts == [Pad2(j), Pad2(m), Pad2(a)]
    ensures ToI(parts[0]) == j && ToI(parts[1]) == m && ToI(parts[2]) == a
  {
    ToIPad2(j);
    ToIPad2(m);
    ToIPad2(a);
  }

  /** Cutting a string that starts with a piece without the separator, then
      the separator, gives that piece, then the cuts of the rest. */
  lemma MorceauxTete(a: string, sep: char, b: string, n: nat)
    requires n >= 2 && sep !in a
    ensures Morceaux(a + [sep] + b, sep, n) == [a] + Morceaux(b, sep, n - 1)
    ensures sep !in b ==> Morceaux(b, sep, n - 1) == [b]
  {
    var s := a + [sep] + b;
    IndexDeApres(a, sep, b);
    assert s[..|a|] == a;
    assert s[|a| + 1..] == b;
    assert s[|a|] == sep;
  }

  /** `Date#<=>`: chronological order. */
  function CompareDates(a: Date, b: Date): (r: int)
    ensures -1 <= r <= 1
  {
    if a.annee != b.annee then CompareEntiers(a.annee, b.annee)
    else if a.mois != b.mois then CompareEntiers(a.mois, b.mois)
    else CompareEntiers(a.jour, b.jour)
  }

  /** Date comparison is antisymmetric, is 0 exactly on equal dates, and its
      "not after" relation is transitive. */
  lemma CompareDatesOrdre(a: Date, b: Date, c: Date)
    ensures CompareDates(a, b) == -CompareDates(b, a)
    ensures CompareDates(a, b) == 0 <==> a == b
    ensures CompareDates(a, b) <= 0 && CompareDates(b, c) <= 0 ==> CompareDates(a, c) <= 0
  {
  }
}
