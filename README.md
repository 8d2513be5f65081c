# Equipment warehouse and wine cellar — a Dafny model

This project models the core of a small Ruby command-line program. It keeps a
hero's equipment, and before that a wine cellar, in a text database.

- **Records.** An `Equipement` (nineteen fields) and a `Vin` (nine fields) are
  value records with a class-level `numero_max` and a class-level
  `comparateurs` list. They have a field-by-field `<=>`, a CSV line
  (`to_csv` / `new_from_csv`) and a display `to_s`. `to_s` goes through a
  small template interpreter (`generer_format_et_args`).
- **Store.** The generic text store `BDTexte` is configured with a record
  class, a format and a separator. It can `init` a depot with twenty seed
  items, `charger` every line of a depot or of standard input, and `sauver`
  a collection after backing up the old file.
- **Warehouse.** `EntrepotEquipements` opens and closes a depot through the
  store. It looks items up by number, selects them and sorts them by
  comparators. It equips an item in its own slot and dresses every item
  like it. It picks the most powerful item of each type and computes the
  hero's attack and defence totals.
- **Input patterns.** `Motifs` holds the lexical patterns that check wine
  fields given on input.

Modules follow the Ruby files:

- `Vins`, `Equipements`, `Interpreteur`, `Dates` and `Numeros`: `lib/gv/vin.rb`
  and `lib/gv/equipement.rb`.
- `BdTexte`, `Graines` and `DepotEquipements`: `lib/bd-texte.rb`.
- `Entrepot`, `TypesEquipement` and `Tri`: `lib/gv/entrepot-vins.rb`.
- `Motifs`: `lib/gv/motifs.rb`.
- `Texte`: the Ruby String and Integer primitives the code relies on
  (`to_s`, `to_i`, `split`, `join`, `chomp`, `downcase`, `readlines`,
  `puts`, `<=>`).

How the model represents the program:

- **Class state as Dafny classes.**
  - The store's configuration is a `Depot` class.
  - The warehouse's depot, store and collection are an `EntrepotEquipements`
    class.
  - Each record class's `numero_max` and `comparateurs` are a `NumeroMax`,
    `VinClasse` or `EquipementClasse` class.
  - The files are a `SystemeFichiers` class: a map from path to contents,
    plus the text of standard input.
- **Failures as values.** Every Ruby failure becomes an `Err` value naming
  its kind:
  - a failed `DBC.require`;
  - a `NoMethodError` on nil or on a setter that does not exist;
  - an invalid date;
  - each explicit `fail`.

## Model

| member | source | states |
|---|---|---|
| Motifs.NoteIntToS | lib/gv/motifs.rb:40-42 | NOTE accepts the decimal text of n exactly when NOTE_MIN <= n <= NOTE_MAX, in both directions |
| Motifs.NumVin | lib/gv/motifs.rb:22 | definition of NUM_VIN on a whole text (one digit or more); no contract of its own, it is pinned by Motifs.ExemplesNumVin and Motifs.NumVinIntToS |
| Motifs.Date | lib/gv/motifs.rb:24-29 | definition of DATE on a whole text; pinned by Motifs.ExemplesDate and Dates.FormatDateMotif |
| Motifs.Chaine | lib/gv/motifs.rb:31 | definition of CHAINE (double-quoted, single-quoted, or a word without blanks); pinned by the three Motifs.ExemplesChaine lemmas |
| Motifs.Millesime | lib/gv/motifs.rb:37 | definition of MILLESIME (exactly four digits); pinned by Motifs.ExemplesMillesime and Motifs.MillesimeIntToS |
| Motifs.Prix | lib/gv/motifs.rb:38 | definition of PRIX (digits, a dot, two digits); pinned by Motifs.ExemplesPrix and Vins.FormatPrix |
| Motifs.Note | lib/gv/motifs.rb:40-42 | definition of NOTE (one character from NOTE_MIN to NOTE_MAX); pinned by Motifs.NoteIntToS and Motifs.ExemplesNote |
| Motifs.NoteToI | lib/gv/motifs.rb:40-42 | a text NOTE accepts reads back with `to_i` as a note in range, and is that note's `to_s` |
| Motifs.NumVinIntToS | lib/gv/motifs.rb:22 | NUM_VIN accepts the `to_s` of n exactly when n is non-negative |
| Motifs.MillesimeIntToS | lib/gv/motifs.rb:37 | MILLESIME accepts the `to_s` of n exactly when n is a year from 1000 to 9999 |
| Motifs.LongueurNatVersTexte | lib/gv/motifs.rb:37 | `to_s` of a natural has four digits exactly when it lies in 1000..9999, at most three below, at least five from 10000 |
| Motifs.ExemplesNumVin | test/motifs_test.rb:13-24 | "1" and "901" are numbers; "999X", "X999" and "" are not |
| Motifs.ExemplesDate | test/motifs_test.rb:26-50 | the accepted dates include "30/02/01" (lexical check only); month 13, day 32, four-digit years, one-digit parts and '-' are rejected |
| Motifs.ExemplesMillesime | test/motifs_test.rb:52-63 | "2010", "1990" accepted; "00", "22.0", "deux mille" rejected |
| Motifs.ExemplesPrix | test/motifs_test.rb:65-79 | exactly two decimals after at least one digit: "0.99", "122.00" accepted; "22", "22.0", "122.000" rejected |
| Motifs.ExemplesChaineGuillemets | test/motifs_test.rb:82-88 | a double-quoted text may hold an apostrophe; a single-quoted text may hold blanks |
| Motifs.ExemplesChaineImbriquees | test/motifs_test.rb:90-96 | a single-quoted text may hold double quotes |
| Motifs.ExemplesChaineMot | lib/gv/motifs.rb:31 | an unquoted word has no blank: "Cotes-du-Rhone-Rasteau" is accepted; "", "deux mots" and an unclosed quote are not |
| Motifs.ExemplesNote | test/motifs_test.rb:103-116 | every note in range is accepted; "-1", "6", "abc" are not |
| Texte.NatVersTexte | lib/gv/vin.rb:214 | `to_s` of a natural is a non-empty run of digits, with a leading 0 only for 0 |
| Texte.IntToS | lib/gv/vin.rb:214 | `Integer#to_s` is never empty, starts with '-' exactly for a negative number, and is all digits otherwise |
| Texte.ToI | lib/gv/vin.rb:242 | `String#to_i` of a text starting with a digit is non-negative; a text starting with neither a digit nor a sign reads as 0 |
| Texte.ValeurNatVersTexte | lib/gv/vin.rb:214 | the digits `to_s` writes have the value of the number |
| Texte.ToIIntToS | lib/gv/vin.rb:242 | `to_i` reads back what `to_s` writes, for every integer including negative ones |
| Texte.ToIPad2 | lib/gv/vin.rb:243 | a two-digit zero-padded number reads back with `to_i` as itself |
| Texte.Pad2 | lib/gv/vin.rb:215 | the `%d`/`%m`/`%y` rendering is exactly two digits |
| Texte.IntToSAlphabet | lib/gv/equipement.rb:164-183 | the `to_s` of an integer holds only digits and '-', so no other separator can occur in it |
| Texte.Minuscules | lib/gv/entrepot-vins.rb:171 | `downcase` keeps the length and lowers each character on its own |
| Texte.Morceaux | lib/gv/vin.rb:237 | a `split` with limit n yields between one and n pieces |
| Texte.Split | lib/gv/vin.rb:237 | `split(sep, n)` yields at most n pieces, and none exactly for the empty text |
| Texte.SplitTout | lib/gv/vin.rb:239 | `split(sep)` without a limit drops trailing empty fields: the last piece, if any, is not empty |
| Texte.Join | lib/gv/vin.rb:223 | definition of `Array#join`; no contract of its own, its meaning is stated by Texte.JoinSans, Texte.JoinDernier and Texte.SplitJoin |
| Texte.MorceauxJoin | lib/gv/equipement.rb:183-197 | cutting a `join` of pieces, into as many pieces, gives the pieces back, when only the last may hold the separator |
| Texte.SplitJoin | lib/gv/equipement.rb:183-197 | `split(sep, n)` undoes `join(sep)` of n >= 2 pieces under the same condition, for a separator other than the blank |
| Texte.JoinSans | lib/gv/vin.rb:223 | `join` adds no character other than the separator |
| Texte.JoinDernier | lib/gv/vin.rb:223 | a join of two pieces or more is the join of all but the last, the separator, then the last |
| Texte.Chomp | lib/gv/vin.rb:237 | `chomp` removes at most two characters and only at the end |
| Texte.ChompSansFin | lib/gv/equipement.rb:197 | `chomp` leaves a line without a line end unchanged and removes exactly one appended newline |
| Texte.ChompLigne | lib/bd-texte.rb:109-112 | a line read with its newline is given back by `chomp` without it |
| Texte.EcrireAjout | lib/bd-texte.rb:139-141 | each `puts` appends that string's line to the file |
| Texte.PutsFinLigne | lib/bd-texte.rb:140 | `puts` keeps the string, adds at most one character, and always ends with a newline |
| Texte.Puts | lib/bd-texte.rb:140 | definition of what `puts` writes for one string; no contract of its own, stated by Texte.PutsFinLigne and Texte.EcrireAjout |
| Texte.Readlines | lib/bd-texte.rb:109 | `readlines` gives no line exactly for an empty text, and never more lines than characters; how lines come back is Texte.ReadlinesEcrire |
| Texte.ReadlinesEcrire | lib/bd-texte.rb:109-141 | lines written with `puts` come back from `readlines` in order, each with its newline |
| Texte.RemplacerEchappements | lib/gv/equipement.rb:255 | the backslash-n replacement never lengthens the text |
| Texte.SansEchappementApres | lib/gv/equipement.rb:255 | after the replacement no backslash-n pair is left |
| Texte.RemplacerSansEchappement | lib/gv/equipement.rb:255 | a text without a backslash-n pair passes through unchanged |
| Texte.CompareChaines | lib/gv/equipement.rb:145 | String `<=>` answers -1, 0 or 1 |
| Texte.CompareChainesAntisymetrique | lib/gv/equipement.rb:145 | swapping the strings negates String `<=>`, which is 0 exactly on equal strings |
| Texte.CompareChainesTransitive | lib/gv/equipement.rb:145 | "not after" on strings is transitive |
| Dates.JoursDansMois | lib/gv/vin.rb:243 | a month has 28 to 31 days |
| Dates.NouvelleDate | lib/gv/vin.rb:243 | `Date.new` succeeds only on a valid date with the given year; any other input raises the invalid-date error |
| Dates.NouvelleDateValide | lib/gv/vin.rb:243 | a valid date given by its own year, month and day is built unchanged |
| Dates.NouvelleDateRejets | lib/gv/vin.rb:243 | month 0, day 0 and a month beyond 12 are always rejected |
| Dates.FormatDate | lib/gv/vin.rb:215 | `strftime("%d/%m/%y")` is eight characters with '/' at positions 2 and 5 |
| Dates.FormatDateMotif | lib/gv/motifs.rb:24-29 | every date `to_csv` writes is accepted by DATE |
| Dates.LireFormatDate | lib/gv/vin.rb:239-243 | a date of 2000 to 2099 written as `%d/%m/%y` is read back by `split("/")`, `to_i` and `Date.new(2000 + a, m, j)` as the same date |
| Dates.LireDate | lib/gv/vin.rb:239-243 | the date piece read back is a valid date; any failure is the invalid-date error |
| Dates.LireTroisNombres | lib/gv/vin.rb:239-243 | for any two-digit day, month and year, the reading is `Date.new(2000 + a, m, j)` |
| Dates.SplitTroisNombres | lib/gv/vin.rb:239 | `split("/")` cuts two-digit day, month and year back apart |
| Dates.SplitTrois | lib/gv/vin.rb:239 | `split("/")` cuts three pieces without '/', the last non-empty, back apart |
| Dates.CompareDates | lib/gv/vin.rb:194 | Date `<=>` answers -1, 0 or 1 |
| Dates.CompareDatesOrdre | lib/gv/vin.rb:194 | Date `<=>` is antisymmetric, 0 exactly on equal dates, and transitive |
| Numeros.Observe | lib/gv/vin.rb:96 | after an instance numbered n, `numero_max` is the larger of n and the previous mark |
| Numeros.ObserveToutMax | lib/gv/vin.rb:96 | after a sequence of instances the mark is the largest number seen (or the earlier mark) and is one of them |
| Numeros.ObserveToutAjout | lib/gv/equipement.rb:102 | one more instance is one more update of the mark |
| Numeros.NumeroMax.constructor | lib/gv/vin.rb:34-36 | the mark starts as nil |
| Numeros.NumeroMax.Prochain | lib/gv/vin.rb:67 | the number `creer` gives is 0 without a mark and beyond the mark otherwise |
| Numeros.NumeroMax.Observer | lib/gv/equipement.rb:102 | the update of `initialize`; afterwards the next number is beyond n and has not decreased |
| Tri.Inserer | lib/gv/entrepot-vins.rb:241-242 | insertion adds exactly the one element |
| Tri.TrierPar | lib/gv/entrepot-vins.rb:241-242 | `sort` with a block returns a permutation of the collection |
| Tri.InsererTrie | lib/gv/entrepot-vins.rb:241-242 | inserting into a sorted sequence keeps it sorted under a total preorder |
| Tri.TrierParTrie | lib/gv/entrepot-vins.rb:241-242 | with a block that is a total preorder, the result is sorted by the block and is a permutation |
| TypesEquipement.TypesMinuscules | lib/gv/entrepot-vins.rb:171 | each of the six seed types downcases to its slot name |
| TypesEquipement.TypesTelQuel | lib/gv/entrepot-vins.rb:148-153 | the types the method lists differ from the seed's only at the chest (`Plastron`), whose downcased name is no slot |
| TypesEquipement.EmplacementsDistincts | lib/gv/entrepot-vins.rb:174-179 | the six slot names are pairwise different |
| Interpreteur.LargeurMax | lib/gv/equipement.rb:236 | the longest width prefix of a text lies within it |
| Interpreteur.LargeurPrefixes | lib/gv/equipement.rb:236 | a prefix matches `[-]?\d*[.]?\d*` exactly when it is no longer than the longest such prefix |
| Interpreteur.ChoixCode | lib/gv/equipement.rb:236-237 | the downward search finds the last position up to l holding a code, or reports that none does |
| Interpreteur.Largeur | lib/gv/equipement.rb:236-237 | the width settled on is followed by a code character |
| Interpreteur.LargeurValide | lib/gv/equipement.rb:236 | the width settled on matches the width pattern |
| Interpreteur.LargeurMaximale | lib/gv/equipement.rb:236-237 | any width followed by a code is no longer than the one settled on, which therefore exists |
| Interpreteur.LargeurLaPlusLongue | lib/gv/equipement.rb:236-237 | the greedy pattern with backtracking settles on the longest width that is followed by a code |
| Interpreteur.Etape | lib/gv/equipement.rb:234-238 | the match attempted at the start of the text only (the corrected anchor of Findings row 1; `EtapeLigne` is Ruby's `^`): its `post_match` is strictly shorter than the text and its code is a key of the table |
| Interpreteur.EtapeDecoupe | lib/gv/equipement.rb:234-238 | a match cuts the text into a prefix without '%', the '%', a width, the code and the `post_match` |
| Interpreteur.EtapeTrouve | lib/gv/equipement.rb:234-238 | a match exists exactly when the text has a '%' and some width after the first one is followed by a code |
| Interpreteur.EtapeEn | lib/gv/equipement.rb:234-238 | a placeholder whose code cannot extend the width is matched with exactly its prefix, width, code and rest |
| Interpreteur.SansAmorce | lib/gv/equipement.rb:236-237 | after '%', a character that is neither a code nor a width character stops the search |
| Interpreteur.Reecriture | lib/gv/equipement.rb:240-252 | the loop with each match anchored at the start of what is left (corrected reading): it keeps the template's length, each code becoming its one-letter conversion; a template without '%' is kept, with no argument |
| Interpreteur.Appliquer | lib/gv/equipement.rb:244-245 | replacing the marked codes keeps every other character in place |
| Interpreteur.ReecritureMasque | lib/gv/equipement.rb:240-252 | reference reading: the loop replaces exactly the code characters of the matched placeholders, and the arguments are their table values in template order |
| Interpreteur.ReecritureEn | lib/gv/equipement.rb:241-248 | one turn of the loop on a placeholder: prefix, '%', width, conversion, then the rest rewritten |
| Interpreteur.Traduire | lib/gv/equipement.rb:244-245 | each placeholder keeps its prefix and width and gets its conversion letter |
| Interpreteur.ArgsDe | lib/gv/equipement.rb:244-246 | the arguments are the table values of the placeholders, in order |
| Interpreteur.ReecritureAssembler | lib/gv/equipement.rb:240-252 | a template made of placeholders that match as written, then a tail without '%', is rewritten placeholder by placeholder with the arguments in order |
| Interpreteur.DeuxPlaceholders | lib/gv/equipement.rb:240-252 | the same for two placeholders |
| Interpreteur.TroisPlaceholders | lib/gv/equipement.rb:240-252 | the same for three placeholders |
| Interpreteur.QuatrePlaceholders | lib/gv/equipement.rb:240-252 | the same for four placeholders |
| Interpreteur.SansPlaceholder | lib/gv/equipement.rb:240-252 | in the corrected reading, no argument is collected exactly when the first '%' starts no placeholder, and then the template is kept as it is; Ruby's `^` may still match on a later line (Findings row 1) |
| Interpreteur.FormatEtArgs | lib/gv/equipement.rb:252-255 | the final template holds no backslash-n and is no longer than the original |
| Interpreteur.FormatEtArgsSansBarre | lib/gv/equipement.rb:255 | without a backslash, the final `gsub` changes nothing |
| Interpreteur.GenererFormatEtArgs | lib/gv/equipement.rb:225-256 | the `while m = motif.match(...)` loop, then `gsub`, computes exactly the template and arguments of the corrected reading; on a template without a newline these are also those of the loop as written |
| Interpreteur.ReecritureTelQuEcrit | lib/gv/equipement.rb:240-250 | the loop as written, with `^` matching after any newline: it never lengthens the template, and leaves a template without '%' unchanged with no argument |
| Interpreteur.FormatEtArgsTelQuEcrit | lib/gv/equipement.rb:225-256 | on a template without a newline, the corrected result is the result of the loop as written; a template with no '%' and no backslash-n pair comes out unchanged, with no argument |
| Interpreteur.EtapeLigne | lib/gv/equipement.rb:234 | with `^` read as Ruby does, the match found is at the start of a line and its code is a key |
| Interpreteur.SansSautDeLigneIdentiques | lib/gv/equipement.rb:234 | on a template without newline, the loop as written and the loop anchored at the start of the text agree |
| Interpreteur.PerteAvantSautDeLigne | lib/gv/equipement.rb:234 | on "100%\n%I" the loop as written drops "100%\n" and keeps only the second line's placeholder (see Findings) |
| Vins.Note | lib/gv/vin.rb:113-117 | `note` succeeds exactly on a rated wine and gives its rating; otherwise a precondition failure |
| Vins.Commentaire | lib/gv/vin.rb:125-129 | `commentaire` succeeds exactly on a rated wine; otherwise a precondition failure |
| Vins.NouveauVin | lib/gv/vin.rb:79-97 | `Vin.new` accepts exactly a non-negative number, vintage and price, and keeps every field given |
| Vins.Noter | lib/gv/vin.rb:143-149 | `noter` fails on a rated wine, then on a rating outside NOTE_MIN..NOTE_MAX; otherwise the wine is rated with that note and comment and nothing else changes |
| Vins.NoterUneFois | lib/gv/vin.rb:144 | rating a rated wine always fails |
| Vins.ChampDe | lib/gv/vin.rb:14-15 | a name designates a field exactly when it is one of READERS + ACCESSORS |
| Vins.ChampsDe | lib/gv/vin.rb:39-41 | a list of comparators is accepted exactly when every name is a field name |
| Vins.CompareChamp | lib/gv/vin.rb:194 | comparing on one field fails exactly when it reads the rating or comment of an unrated wine; otherwise it gives -1, 0, 1 or nil |
| Vins.Reduire | lib/gv/vin.rb:193-195 | definition of the `reduce`; no contract of its own, stated by Vins.ReduireGarde and Vins.ReduireOppose |
| Vins.CompareVin | lib/gv/vin.rb:192-196 | definition of `<=>`; no contract of its own, stated by Vins.CompareVinOppose, Vins.CompareVinPremierEcart, Vins.CompareVinReflexive and Vins.CompareVinTransitif |
| Vins.CompareChampOppose | lib/gv/vin.rb:194 | swapping the wines on one field negates the order and keeps nil and failures |
| Vins.ReduireOppose | lib/gv/vin.rb:193-195 | the same for the `reduce` from any starting value |
| Vins.CompareVinOppose | lib/gv/vin.rb:192-196 | swapping the two wines negates `<=>` and keeps nil and failures |
| Vins.ChainesTransitives | lib/gv/vin.rb:194 | `String#<=>`: an equal middle passes the other comparison through; "before" and "not after" are transitive |
| Vins.CompareChampTransitif | lib/gv/vin.rb:194 | on one field that orders three wines pairwise, an equal middle passes the other comparison through, and "before" and "not after" are transitive |
| Vins.CompareVinTransitif | lib/gv/vin.rb:192-196 | when every comparator orders the three pairs, `<=>` is transitive: a <= b and b <= d give a <= d |
| Vins.CompareVinPremierEcart | lib/gv/vin.rb:192-196 | when every field orders the wines, `<=>` is 0 exactly when all fields agree, and otherwise is the order of the first field that differs |
| Vins.ReduireGarde | lib/gv/vin.rb:194 | once non-zero, the result of the `reduce` is kept |
| Vins.CompareVinReflexive | test/vin_test.rb:72-75 | a wine compares equal to itself on any fields it can be read on |
| Vins.CompareChampReflexif | lib/gv/vin.rb:194 | on one readable field a wine compares equal to itself |
| Vins.CompareVinNonBu | lib/gv/vin.rb:114 | comparing first on rating or comment when a wine is unrated fails with the precondition |
| Vins.FormatPrix | lib/gv/vin.rb:220 | `sprintf("%.2f", prix)` is accepted by PRIX |
| Vins.CentimesDe | lib/gv/vin.rb:248 | an unsigned text of digits only is that many whole units; a text starting with neither a digit nor a dot is 0 |
| Vins.LirePrix | lib/gv/vin.rb:248 | `to_f` read to the cent: a leading '-' gives at most 0, anything else a non-negative price |
| Vins.Decimales | lib/gv/vin.rb:248 | the decimals `to_f` keeps are fewer than 100 cents |
| Vins.LireFormatPrix | lib/gv/vin.rb:248 | `to_f` reads back every price `to_csv` writes |
| Vins.ChampsCsv | lib/gv/vin.rb:214-223 | `to_csv` writes nine fields |
| Vins.VersCsv | lib/gv/vin.rb:211-224 | definition of `to_csv`: the nine fields joined by the separator; no contract of its own, its meaning is stated by Vins.ChampsCsvMotifs and the round trip Vins.DepuisVersCsv |
| Vins.DepuisCsv | lib/gv/vin.rb:233-251 | any wine `new_from_csv` builds has a valid purchase date |
| Vins.DepuisPieces | lib/gv/vin.rb:239-250 | the same for the pieces of a line |
| Vins.ChampsCsvSeparables | lib/gv/vin.rb:223 | for a transportable wine, no piece but the comment holds the separator |
| Vins.ChompVersCsv | lib/gv/vin.rb:237 | `chomp` leaves a transportable wine's line unchanged and removes its appended newline |
| Vins.DepuisVersCsv | lib/gv/vin.rb:211-251 | `new_from_csv` reads back exactly the wine `to_csv` wrote, with or without the newline, for every transportable wine |
| Vins.PieceDate | lib/gv/vin.rb:239-243 | the date piece reads back as the purchase date, for years 2000 to 2099 |
| Vins.PiecesNombres | lib/gv/vin.rb:242-248 | number, vintage and price pieces read back as the fields |
| Vins.PiecesNote | lib/gv/vin.rb:249-250 | an empty rating or comment piece reads back as nil; a written one reads back as the value |
| Vins.ChampsCsvMotifs | lib/gv/vin.rb:214-221 | the number, date and price written are accepted by NUM_VIN, DATE and PRIX; a four-digit vintage by MILLESIME, a rating in range by NOTE |
| Vins.TableVin | lib/gv/vin.rb:322-334 | the display table has exactly the nine field letters |
| Vins.VersTexte | lib/gv/vin.rb:176-181 | the native template handed to `format` holds no backslash-n and is never longer than the given one or the long default; on a template without a newline it is what the loop as written produces; a template without '%' or backslash-n is handed on as it is, with no argument |
| Vins.VersTexteSansChamp | lib/gv/vin.rb:298-316 | in the corrected reading, a template whose first '%' starts no placeholder is handed to `format` unchanged, with no argument (as written, only when no later line holds a placeholder) |
| Vins.ExempleChampInvalide | test/vin_test.rb:197-200 | "xxx %X %s %T" reaches `format` unchanged and with no argument, which is where the expected error is raised |
| Vins.ExempleLargeurs | test/vin_test.rb:189-191 | "%4I:%-4I:%.4I" becomes "%4d:%-4d:%.4d" with the number three times |
| Vins.ExempleNumeroNom | test/vin_test.rb:204-209 | "%I => %N" becomes "%d => %s" with the number and the name |
| Vins.VinClasse.constructor | lib/gv/vin.rb:26 | the comparators start as `[:numero]` and there is no mark |
| Vins.VinClasse.SetComparateurs | lib/gv/vin.rb:39-44 | `comparateurs=` accepts exactly lists of field names and stores them; otherwise it fails and the comparators are unchanged |
| Vins.VinClasse.Nouveau | lib/gv/vin.rb:79-97 | a wine built raises `numero_max` to its number; a rejected one leaves the mark unchanged |
| Vins.VinClasse.Creer | lib/gv/vin.rb:65-72 | `creer` builds an unrated wine with the next free number, today's date and the converted vintage and price, and raises the mark |
| Vins.VinClasse.NouveauDepuisCsv | lib/gv/vin.rb:233-251 | `new_from_csv` gives the wine of the line and raises the mark to its number |
| Vins.VinClasse.Comparer | lib/gv/vin.rb:192-196 | `a <=> b` with the current comparators is the negation of `b <=> a` |
| Equipements.NouvelEquipement | lib/gv/equipement.rb:93-103 | `Equipement.new` accepts exactly a non-negative number and keeps every field given |
| Equipements.ChampDe | lib/gv/equipement.rb:14-15 | a name designates a field exactly when it is a reader's name, and that field carries the name |
| Equipements.ChampDeNomDe | lib/gv/equipement.rb:14 | every field is found again from its reader's name |
| Equipements.ChampsDe | lib/gv/equipement.rb:39-44 | a comparator list is accepted exactly when every name is a field name, and keeps the order |
| Equipements.Lire | lib/gv/equipement.rb:49-50 | `send(champ)` gives an integer exactly on the integer fields |
| Equipements.LireDetermine | lib/gv/equipement.rb:14 | two items whose nineteen readers agree are the same item |
| Equipements.CompareChamp | lib/gv/equipement.rb:145 | one field's `<=>` answers -1, 0 or 1 |
| Equipements.CompareChampOrdre | lib/gv/equipement.rb:145 | one field's `<=>` is antisymmetric, 0 exactly when the field reads the same, and transitive |
| Equipements.CompareEquipement | lib/gv/equipement.rb:143-147 | `<=>` answers -1, 0 or 1 |
| Equipements.ReduireBorne | lib/gv/equipement.rb:144-146 | the `reduce` stays within -1..1 |
| Equipements.Reduire | lib/gv/equipement.rb:144-146 | definition of the `reduce`; no contract of its own, stated by Equipements.ReduireBorne and Equipements.ReduireGarde |
| Equipements.ReduireGarde | lib/gv/equipement.rb:145 | once non-zero, the result of the `reduce` is kept |
| Equipements.CompareEquipementTete | lib/gv/equipement.rb:144-146 | the first comparator decides unless it gives 0 |
| Equipements.CompareEquipementOppose | lib/gv/equipement.rb:143-147 | swapping the items negates `<=>` |
| Equipements.CompareEquipementPremierEcart | lib/gv/equipement.rb:143-147 | `<=>` is 0 exactly when every comparator field reads the same; otherwise it is the order of the first field that differs |
| Equipements.CompareEquipementReflexif | lib/gv/equipement.rb:143-147 | an item compares equal to itself |
| Equipements.CompareEquipementTransitif | lib/gv/equipement.rb:143-147 | "not after" is transitive, whatever the comparators |
| Equipements.ReadersComplet | lib/gv/equipement.rb:14 | READERS lists all nineteen fields, each under a valid name |
| Equipements.Relire | lib/gv/equipement.rb:200-218 | a piece is read as an integer exactly for the integer fields |
| Equipements.RelireEcrire | lib/gv/equipement.rb:164-218 | every field value is read back as it was written |
| Equipements.ChampsCsv | lib/gv/equipement.rb:164-183 | `to_csv` writes nineteen fields |
| Equipements.VersCsv | lib/gv/equipement.rb:162-184 | definition of `to_csv`: the nineteen fields joined by the separator; no contract of its own, stated by Equipements.VersCsvUneLigne and the round trip Equipements.DepuisVersCsv |
| Equipements.DepuisCsv | lib/gv/equipement.rb:193-219 | an item `new_from_csv` builds has a non-negative number; any failure is the nil method error or the `DBC.require` of `new` |
| Equipements.DepuisPieces | lib/gv/equipement.rb:196-218 | fewer than seventeen pieces fail on `nil.to_sym`; otherwise the item is built exactly when the number is non-negative, with the given type, and a missing power reads as 0 |
| Equipements.VersCsvUneLigne | lib/gv/equipement.rb:162-184 | an item without a newline in its text fields is written on one line |
| Equipements.ChampsCsvSeparables | lib/gv/equipement.rb:183 | for a transportable item, no piece but the last holds the separator |
| Equipements.ChompVersCsv | lib/gv/equipement.rb:197 | `chomp` leaves an item's line unchanged and removes its appended newline |
| Equipements.VersCsvFinChiffre | lib/gv/equipement.rb:182 | an item's line ends with the last digit of its power |
| Equipements.DepuisPiecesDe | lib/gv/equipement.rb:200-218 | pieces that each read back as a field of e build exactly e |
| Equipements.ChampsCsvPieces | lib/gv/equipement.rb:164-218 | every piece `to_csv` writes is read back by `new_from_csv` as its field |
| Equipements.DepuisVersCsv | lib/gv/equipement.rb:162-219 | `new_from_csv` reads back exactly the item `to_csv` wrote, with or without the newline, for every transportable item |
| Equipements.DepuisCsvCourt | lib/gv/equipement.rb:196-216 | a line cut into fewer than seventeen pieces fails with the nil method error |
| Equipements.TableEquipement | lib/gv/equipement.rb:258-280 | the display table has exactly the nineteen codes, digits '1' to '6' for the bonuses |
| Equipements.VersTexte | lib/gv/equipement.rb:127-132 | the native template holds no backslash-n and is never longer than the given one or the long default; on a template without a newline it is what the loop as written produces; a template without '%' or backslash-n is handed on as it is, with no argument |
| Equipements.ExempleFormatLong | lib/gv/equipement.rb:128 | the long template becomes "%-2d: %-20s (%s) - Puissance: %d" with number, name, type and power |
| Equipements.ExempleChiffres | lib/gv/equipement.rb:236-237 | in "%15" the width gives back the digit '5' as a code: the feet bonus with width 1 |
| Equipements.EquipementClasse.constructor | lib/gv/equipement.rb:26 | the comparators start as `[:numero]` and there is no mark |
| Equipements.EquipementClasse.SetComparateurs | lib/gv/equipement.rb:39-44 | `comparateurs=` accepts exactly lists of field names; otherwise it fails and nothing changes |
| Equipements.EquipementClasse.Nouveau | lib/gv/equipement.rb:93-103 | an item built raises `numero_max` to its number; a rejected one leaves it |
| Equipements.EquipementClasse.Creer | lib/gv/equipement.rb:80-86 | `creer` gives the next free number, the `to_i` of each numeric argument, the texts as given, and raises the mark |
| Equipements.EquipementClasse.NouveauDepuisCsv | lib/gv/equipement.rb:193-219 | `new_from_csv` gives the item of the line and raises the mark to its number |
| Equipements.EquipementClasse.Comparer | lib/gv/equipement.rb:143-147 | `a <=> b` with the current comparators negates `b <=> a` and is 0 exactly when all comparator fields agree |
| BdTexte.SystemeFichiers.constructor | lib/bd-texte.rb:105-109 | the files and standard input are those given |
| BdTexte.ConfigDe | lib/bd-texte.rb:31-47 | `config` succeeds exactly when the class answers to the format and a separator, if any, is one character for the csv format; it stores class, format and separator |
| BdTexte.Depot.constructor | lib/bd-texte.rb:43-46 | the store starts without configuration |
| BdTexte.Depot.Configurer | lib/bd-texte.rb:31-47 | the stored configuration is the one `config` accepts; a rejected call changes nothing |
| BdTexte.Depot.Init | lib/bd-texte.rb:60-92 | an existing depot without `detruire` is an error and nothing changes; otherwise the depot holds exactly the twenty seed lines |
| BdTexte.Encodes | lib/bd-texte.rb:139-141 | the lines written are each record's `to_<format>`, in order |
| BdTexte.ContenuSauve | lib/bd-texte.rb:139-141 | definition of what `sauver` writes; no contract of its own, stated by BdTexte.Depot.Sauver and BdTexte.SauverCharger |
| BdTexte.EcrireEncodesSuivant | lib/bd-texte.rb:139-141 | writing one more record appends its line |
| BdTexte.Premiers | lib/bd-texte.rb:109-116 | the records built before the first line that fails, each from its line |
| BdTexte.PremiersUnique | lib/bd-texte.rb:109-116 | those records are the only ones decoded in order up to the first failing line |
| BdTexte.DecoderTout | lib/bd-texte.rb:109-116 | the `map` succeeds exactly when every line decodes, giving the records in line order |
| BdTexte.LignesLues | lib/bd-texte.rb:105-109 | only a missing file other than `-` cannot be read; `-` is standard input |
| BdTexte.Chargement | lib/bd-texte.rb:104-117 | a missing depot fails; otherwise the result is the `map` over its lines |
| BdTexte.Depot.Charger | lib/bd-texte.rb:104-117 | `charger` returns that result, and the class's `numero_max` has seen exactly the records built before any failure |
| BdTexte.Depot.Sauver | lib/bd-texte.rb:132-143 | a missing depot fails and nothing changes; otherwise `depot.bak` holds the old contents and the depot holds one line per record, in order |
| BdTexte.SauverCharger | test/bd-texte_test.rb:34-50 | what `sauver` writes, `charger` reads back as the same records in the same order, when each line is one line and decodes to its record |
| BdTexte.SauverPuisCharger | lib/bd-texte.rb:104-143 | loading a depot right after saving it gives back the saved collection |
| BdTexte.ChargerVide | test/bd-texte_test.rb:39-41 | an empty depot loads as an empty collection |
| BdTexte.LignesEcrire | lib/bd-texte.rb:70-90 | writing lines with `<<` and a newline is the same as writing them with `puts` |
| DepotEquipements.SauverChargerCsv | lib/bd-texte.rb:132-143 | a CSV store of items reads back every collection of storable items it saved |
| Graines.Graine | lib/bd-texte.rb:71-90 | a seed record carries the number, type, name and power given for its line |
| Graines.ContenuDe | lib/bd-texte.rb:70-91 | definition of what `init` writes; no contract of its own, stated by DepotEquipements.ChargerContenuDe and DepotEquipements.ChargerGraine |
| DepotEquipements.ChargerContenuDe | lib/bd-texte.rb:70-91 | lines written as `init` writes them load back as the records, with separator ':' |
| DepotEquipements.ChargerGraine | lib/bd-texte.rb:71-90 | `init` then `charger` with separator ':' gives exactly the twenty seed items |
| DepotEquipements.GraineStockable | lib/bd-texte.rb:71-90 | every seed item is stored on one line and read back with ':' |
| Entrepot.Indice | lib/gv/entrepot-vins.rb:274 | `find` stops at the first item with that number, or finds none when no item has it |
| Entrepot.LEquipement | lib/gv/entrepot-vins.rb:273-275 | `l_equipement` gives an item of the collection with that number, and nil exactly when there is none |
| Entrepot.Selection | lib/gv/entrepot-vins.rb:148 | `select` keeps exactly the elements the block accepts |
| Entrepot.DuType | lib/gv/entrepot-vins.rb:148 | `select { type == t }` keeps exactly the items of the collection with that type |
| Entrepot.SelectionConcat | lib/gv/entrepot-vins.rb:148 | selecting from a concatenation selects from each part, in order |
| Entrepot.SelectionMultiset | lib/gv/entrepot-vins.rb:148 | each accepted element is kept as many times as it occurs; the others never are |
| Entrepot.SelectionTout | lib/gv/entrepot-vins.rb:258-263 | a block that accepts everything keeps the whole collection in order |
| Entrepot.LesEquipements | lib/gv/entrepot-vins.rb:257-265 | an item is listed exactly when it is in the collection and passes the motif and the block given |
| Entrepot.LesEquipementsTous | lib/gv/entrepot-vins.rb:257-265 | without motif or block, the whole collection in order |
| Entrepot.Emplacement | lib/gv/entrepot-vins.rb:171-180 | a slot name gives the item-name field and the bonus field whose setters `equiper` calls |
| Entrepot.EmplacementsDisjoints | lib/gv/entrepot-vins.rb:174-179 | two different slot names name four different fields |
| Entrepot.EmplacementSetters | lib/gv/entrepot-vins.rb:175-179 | the two fields are `<type>` and `<type>attaque` for the weapon, `<type>defense` otherwise |
| Entrepot.EmplacementsConnus | lib/gv/entrepot-vins.rb:171-179 | each of the six slot names is one `equiper` knows |
| Entrepot.Poser | lib/gv/entrepot-vins.rb:175-179 | a setter call changes its field and no other |
| Entrepot.Equiper | lib/gv/entrepot-vins.rb:168-182 | `equiper` succeeds exactly when the downcased type names a slot, and then puts the item's name and power in that slot only |
| Entrepot.EquiperMemeBase | lib/gv/entrepot-vins.rb:168-182 | equipping changes only slots |
| Entrepot.EquiperIdempotent | lib/gv/entrepot-vins.rb:168-182 | equipping twice is equipping once |
| Entrepot.Habiller | lib/gv/entrepot-vins.rb:127-140 | the twelve slot fields are the model's; every other field is the item's own |
| Entrepot.HabillerMemeBase | lib/gv/entrepot-vins.rb:127-140 | dressing depends only on non-slot fields, keeps them, and leaves the model itself unchanged |
| Entrepot.HabillerTous | lib/gv/entrepot-vins.rb:127-140 | the `map` dresses every item like the model, in place and in order |
| Entrepot.Plier | lib/gv/entrepot-vins.rb:148 | the `reduce` keeps the earlier item only when strictly stronger, so it ends on the last item of maximal power |
| Entrepot.Meilleur | lib/gv/entrepot-vins.rb:148-153 | the item chosen for a type has that type and no item of that type is stronger; nil exactly when the type is absent |
| Entrepot.MeilleurAuMoins | lib/gv/entrepot-vins.rb:148-153 | any item of the type makes the choice exist and be at least as strong |
| Entrepot.AttaqueMax | lib/gv/entrepot-vins.rb:213-217 | without item 0 the call fails; otherwise it is the hero's attack plus the weapon bonus when that bonus is at least 1 |
| Entrepot.DefenseMax | lib/gv/entrepot-vins.rb:225-229 | without item 0 the call fails; otherwise the hero's defence plus the bonus field `equiper` fills in each of the five armour slots |
| Entrepot.AttaqueApresHabillage | lib/gv/entrepot-vins.rb:127-140 | after every item is dressed like m, the attack total is the hero's attack with m's weapon bonus |
| Entrepot.DefenseApresHabillage | lib/gv/entrepot-vins.rb:127-140 | after every item is dressed like m, the defence total is the hero's defence plus m's five armour bonuses |
| Entrepot.LEquipementHabille | lib/gv/entrepot-vins.rb:127-140 | looking up a dressed collection finds the dressed item |
| Entrepot.IndiceHabille | lib/gv/entrepot-vins.rb:127-140 | dressing keeps numbers, so lookups stop at the same position |
| Entrepot.OrdrePreordre | lib/gv/entrepot-vins.rb:242 | the `sort` block, reversed or not, is a total preorder on any collection |
| Entrepot.Ordre | lib/gv/entrepot-vins.rb:242 | definition of the `sort` block; no contract of its own, stated by Entrepot.OrdrePreordre and Entrepot.OrdreStrict |
| Entrepot.OrdreStrict | lib/gv/entrepot-vins.rb:239-242 | with `:numero` among the keys, the block gives 0 only to items with the same number |
| Entrepot.ChoixMeilleurs | lib/gv/entrepot-vins.rb:148-153 | the best items of types that name different slots are valid choices |
| Entrepot.EtapeRemplacement | lib/gv/entrepot-vins.rb:154-159 | one call of `remplacer_equipement_specifique` keeps every item wearing the earlier choices and adds the current one |
| Entrepot.EquiperSoi | lib/gv/entrepot-vins.rb:168-182 | an equipped item wears itself in its own slot |
| Entrepot.EquiperPorte | lib/gv/entrepot-vins.rb:168-182 | equipping leaves the slots of other types as they were |
| Entrepot.HabillerPorte | lib/gv/entrepot-vins.rb:127-140 | an item dressed like m wears what m wears |
| Entrepot.EntrepotEquipements.constructor | lib/gv/entrepot-vins.rb:14 | no depot, no store and an empty collection before `ouvrir` |
| Entrepot.EntrepotEquipements.Ouvrir | lib/gv/entrepot-vins.rb:26-30 | `ouvrir` remembers depot and store, and the collection is what `charger` returns; the class's `numero_max` has then seen the number of every record loaded; a failed load leaves the collection and every counter as they were |
| Entrepot.EntrepotEquipements.Fermer | lib/gv/entrepot-vins.rb:40-44 | `fermer` without an earlier `ouvrir` fails; otherwise it is `sauver` of the collection to the same depot |
| Entrepot.EntrepotEquipements.Trier | lib/gv/entrepot-vins.rb:238-243 | `:numero` is added to the keys when missing; they become the comparators; the result is the collection permuted and sorted by them, reversed on request |
| Entrepot.EntrepotEquipements.LEquipementDe | lib/gv/entrepot-vins.rb:273-275 | `l_equipement` on the collection: the first item of it with that number, nil exactly when none has it |
| Entrepot.EntrepotEquipements.CalculerAttaqueMax | lib/gv/entrepot-vins.rb:213-217 | fails exactly without item 0; otherwise the hero's attack, plus the weapon bonus when it is at least 1 |
| Entrepot.EntrepotEquipements.CalculerDefenseMax | lib/gv/entrepot-vins.rb:225-229 | fails exactly without item 0; otherwise the hero's defence plus the five armour slot bonuses |
| Entrepot.EntrepotEquipements.RemplacerEquipementSpecifique | lib/gv/entrepot-vins.rb:123-141 | item n is equipped, then every item takes its twelve slot fields; a missing item or a type without slot fails and changes nothing |
| Entrepot.EntrepotEquipements.RemplacerSelon | lib/gv/entrepot-vins.rb:147-160 | a failure is the NoMethodError; a success leaves the collection the chain of calls computes. Either way only slots change. With no listed type present nothing changes. On distinct numbers, when every listed type that has an item names a slot and no two listed types downcase alike, nothing fails and every item wears the best item of every listed type. After a success every item has the same slots, and a slot that no chosen type fills holds what the first chosen item held there |
| Entrepot.EntrepotEquipements.RemplacerTousEquipements | lib/gv/entrepot-vins.rb:147-160 | with the chest as `Torse`: on distinct numbers nothing fails and every item wears the best item of each of the six types; the rest of the promise of `RemplacerSelon` holds for the six types |
| Entrepot.EntrepotEquipements.RemplacerTousEquipementsTelQuel | lib/gv/entrepot-vins.rb:147-160 | the method as written (chest as `Plastron`): the promise of `RemplacerSelon` for the six types it lists, so the chest slots keep the first chosen item's |
| Entrepot.EntrepotEquipements.Parcourir | lib/gv/entrepot-vins.rb:154-159 | the calls of `remplacer_equipement_specifique`, one per type that has an item, in order: the run succeeds exactly when that chain of calls does, and then leaves its result; a failure is the NoMethodError and keeps every non-slot field |
| Entrepot.RemplacementRien | lib/gv/entrepot-vins.rb:154-159 | when no type has an item, no call is made and nothing changes |
| Entrepot.RemplacementEchec | lib/gv/entrepot-vins.rb:154-159 | once one call fails, the whole run fails |
| Entrepot.RemplacementUniforme | lib/gv/entrepot-vins.rb:154-159 | after each call only slots have changed; after the first chosen item every item has the same slots, and a slot no choice has filled holds the first chosen item's |
| Entrepot.RemplacementPorte | lib/gv/entrepot-vins.rb:154-159 | on distinct numbers, with choices of types naming different slots, no call fails and every item wears every choice made so far |
| Entrepot.RemplacementReussit | lib/gv/entrepot-vins.rb:147-160 | on distinct numbers, when every listed type that has an item names a slot and no two listed types downcase alike, no call on the best items fails |
| Entrepot.RemplacementSelonProprietes | lib/gv/entrepot-vins.rb:147-160 | a successful run of the calls on the best items keeps every promise of `RemplacerSelon` |
| Entrepot.RemplacementEchoue | lib/gv/entrepot-vins.rb:147-160 | a failed run keeps the promises of `RemplacerSelon` about failures: some listed type has an item, and either two items share a number, or a listed type with an item names no slot, or two listed types downcase alike |
| Entrepot.TypesCorrigesValides | lib/gv/entrepot-vins.rb:148-153 | the six seed types name six different slots, whatever the collection |
| Entrepot.TypesCorrigesDistincts | lib/gv/entrepot-vins.rb:148-153 | the six seed types downcase to six different names |
| Entrepot.TypesCorrigesEmplacements | lib/gv/entrepot-vins.rb:171-179 | each seed type downcases to a slot name |
| Entrepot.TelQuelSansTorse | lib/gv/entrepot-vins.rb:149 | no type the method lists downcases to "torse", and `Plastron` names no slot: the chest is never replaced |
| Entrepot.GraineTorse | lib/bd-texte.rb:82 | the seed holds a chest item of type `Torse` ("Plastron legendaire", power 20), whose slot is the chest |
| Entrepot.GraineNumeros | lib/bd-texte.rb:71-90 | the seed's numbers are 0 to 19, all different |
| Entrepot.GraineCommeGraine | lib/bd-texte.rb:71-90 | the seed: item i is numbered i, has defence 10 and the leather chest of bonus 1; items 0-4, 5-9 and 10-14 are the five armour types of power 1, 5 and 20; items 15-19 are weapons |
| Entrepot.CommeGraineMeilleur | lib/gv/entrepot-vins.rb:148-153 | on such a collection the best item of each armour type has power 20 |
| Entrepot.DefenseCommeGraine | lib/gv/entrepot-vins.rb:225-229 | when the hero has bonus 20 in the four armour slots other than the chest, its defence total is 90 plus its chest's bonus |
| Entrepot.TorsesTelQuel | lib/gv/entrepot-vins.rb:147-160 | as written, on such a collection: nothing fails and every item keeps the leather chest of bonus 1 |
| Entrepot.ArmuresTelQuel | lib/gv/entrepot-vins.rb:147-160 | as written, on such a collection: the hero's defence is 90 plus its chest's bonus |
| Entrepot.TelQuelCommeGraine | lib/gv/entrepot-vins.rb:147-160 | as written, on such a collection: nothing fails, every item keeps the leather chest, and `calculer_defense_max` gives 91 |
| Entrepot.TorseCorrige | lib/gv/entrepot-vins.rb:147-160 | corrected, on such a collection: an item wears a chest of bonus 20 |
| Entrepot.TorsesCorriges | lib/gv/entrepot-vins.rb:147-160 | corrected, on such a collection: nothing fails and every item wears a chest of bonus 20 |
| Entrepot.ArmuresCorrigees | lib/gv/entrepot-vins.rb:147-160 | corrected, on such a collection: the hero's defence is 90 plus its chest's bonus |
| Entrepot.CorrigeeCommeGraine | lib/gv/entrepot-vins.rb:147-160 | corrected, on such a collection: nothing fails, every item wears a chest of bonus 20, and `calculer_defense_max` gives 110 |
| Entrepot.GraineTelQuel | lib/bd-texte.rb:71-90 | on the seed itself, as written: nothing fails, every chest bonus is 1 and the defence total is 91 |
| Entrepot.GraineCorrigee | lib/bd-texte.rb:71-90 | on the seed itself, corrected: nothing fails, every chest bonus is 20 and the defence total is 110 |

## Left out

- `jouer`, `message_victoire` and `action` (lib/gv/entrepot-vins.rb:50-116): console output, a random choice each turn and float arithmetic on the goblin's values.
- `creer_status` (lib/gv/entrepot-vins.rb:188-205): it only builds a display template from the two totals, which are modelled (`AttaqueMax`, `DefenseMax`).
- The final `format(vrai_format, *arguments)` of both `to_s` methods: the model stops at the native template and its arguments, so the padded text is not computed. The errors Ruby's `format` raises, such as too few arguments, are not modelled either.
- `Vin#to_json` and `Vin.new_from_json`: JSON encoding is not modelled.
- Floats: a wine's price is an integer number of cents. `to_f` is read to the cent; exponents and a third decimal are ignored.
- `to_i` is modelled on an optional sign followed by leading digits. Leading blanks, underscores and radix prefixes are not modelled; `to_s` never writes them.
- Vins.LirePrix: `to_f` is modelled on an optional sign, digits, and an optional dot followed by digits, truncated to cents. Leading blanks, underscores and exponents are not modelled. So `" 12.50"` reads as 0 here and as 12.5 in Ruby, and `"1_000.00"` reads as 1.00 here and as 1000.0 in Ruby. The prices the program writes have none of these.
- The `motif:` regular expression of `les_equipements` (a case-insensitive search in `to_s`) is an arbitrary predicate on the item.
- The patterns of `Motifs` are predicates on whole strings. Searching for them inside a longer text, with word boundaries, is not modelled.
- Object identity and aliasing: items and wines are values. The in-place writes of `equiper`, of the setters and of `noter` become a new value stored back in the collection. A reference held elsewhere is not updated.
- Before `ouvrir`, `@les_equipements` is nil in Ruby and any use raises an error. The model starts with an empty collection.
- The file system is a map from path to whole contents. Permissions, I/O errors and `FileUtils.touch` on an existing file are not modelled. Standard input is a parameter, and so is today's date for `creer`.
- `downcase` lowers ASCII letters only. Strings are sequences of characters, with no encoding.
- Dates follow the Gregorian calendar, including Ruby's negative month and day counting. Ruby's Julian dates before October 1582 are not modelled.
- A missing name piece in an item's CSV line is nil in Ruby and the empty name here.
- The exception class handed to `config` and the messages of the errors: only the kind of each failure is kept.
- The display path follows the corrected anchor of Findings row 1. Each match is tried only at the start of what is left of the template, whereas Ruby's `^` (lib/gv/equipement.rb:234, lib/gv/vin.rb:298) also matches after each newline. The two agree on every template without a newline (`Interpreteur.SansSautDeLigneIdentiques`, `Interpreteur.FormatEtArgsTelQuEcrit`). On a template with a newline, the text Ruby drops before the matching line is kept here. The members below follow this reading:
- Interpreteur.Etape: the match at the start of the text only; Ruby's match after a newline is `Interpreteur.EtapeLigne`.
- Interpreteur.Reecriture: the loop with that anchor; the loop as Ruby runs it is `Interpreteur.ReecritureTelQuEcrit`.
- Interpreteur.SansPlaceholder: true of the corrected loop; as written, a placeholder on a later line is still collected.
- Interpreteur.GenererFormatEtArgs: equal to the corrected reading; equal to the code as written only on templates without a newline.
- Vins.VersTexte: the corrected reading; on a template with a newline it may keep text Ruby drops.
- Vins.VersTexteSansChamp: the corrected reading; as written, a placeholder on a later line would still be rewritten.
- Equipements.VersTexte: the corrected reading; on a template with a newline it may keep text Ruby drops.
- Entrepot.EntrepotEquipements.RemplacerEquipementSpecifique: the partial write before the NoMethodError is not modelled. For an item whose downcased type is another field with a setter (`vie`, `numero`, `type`, `tetedefense`, ...), `equiper` first writes the name into that field of the stored item, then fails on the missing `<type>defense=` (lib/gv/entrepot-vins.rb:175-179). Fields are typed here and cannot hold a name where Ruby stores an integer, so the model fails with the collection unchanged.
- Entrepot.EntrepotEquipements.RemplacerSelon: the same partial write is not modelled. When a listed type names such a field, Ruby changes that field of the chosen item before failing. The model's "only slots change" does not cover that case. It does not arise for the six types of `remplacer_tous_equipements`, whose only non-slot type, `Plastron`, has no setter at all.
- Vins.DepuisVersCsv: stated for transportable wines only:
  - years 2000 to 2099, since `%y` drops the century and `new_from_csv` adds 2000;
  - no separator or newline in the text fields but the last;
  - a comment only on a rated wine, and never empty;
  - a separator that is not a blank, a digit, '-', '.', '/' or a line end.
- Equipements.DepuisVersCsv: stated only for a separator that is not a blank, a digit or '-', and that no text field contains. Ruby splits on runs of blanks when the separator is " ".

## Findings

| source | as written | input that shows it | evidently intended | confidence | as-written member | corrected member |
|---|---|---|---|---|---|---|
| lib/gv/equipement.rb:234 | The template pattern is anchored with `^`, which in Ruby matches at the start of any line; the same pattern is at lib/gv/vin.rb:298. When the first '%' of the rest starts no placeholder, the match is taken on a later line. Everything before it, that '%' and the newline included, is dropped from the template | the template "100%\n%I" (a backslash-n in a template is turned into a newline only after the loop, so a real newline is needed) | anchor at the start of the rest of the template, so that no template text is lost; `Reecriture` does this and keeps the template's length | not executed; medium | Interpreteur.PerteAvantSautDeLigne | Interpreteur.ReecritureMasque |
| lib/gv/entrepot-vins.rb:149 | `remplacer_tous_equipements` selects items of type `:Plastron`. No item of the seed has that type, and `equiper` would find no `plastron=` setter anyway, so the chest slot is never replaced | the depot written by `init` (lib/bd-texte.rb:71-90), whose chest items have type `Torse`: every item keeps the leather chest of bonus 1, and `calculer_defense_max` gives 91 | select `:Torse`, so that every item wears the strongest chest item ("Plastron legendaire", power 20), and the defence total is 110 | not executed; high | Entrepot.GraineTelQuel | Entrepot.EntrepotEquipements.RemplacerTousEquipements |
