/** The text store (`BDTexte`): one record per line of a file, read with the
    record class's `new_from_<format>` and written with its `to_<format>`.
    Files are a map from path to contents held by `SystemeFichiers`. */
module BdTexte {
  import opened Wrappers
  import opened Texte
  import opened Numeros
  import Equipements
  import opened Graines

  /** The files the store sees: each path's whole contents, and what standard
      input holds. */
  class SystemeFichiers {
    var fichiers: map<string, string>
    var entreeStandard: string

    constructor(fichiers: map<string, string>, entreeStandard: string)
      ensures this.fichiers == fichiers && this.entreeStandard == entreeStandard
    {
      this.fichiers := fichiers;
      this.entreeStandard := entreeStandard;
    }
  }

  /** One format of a record class: `to_<format>` and `new_from_<format>`,
      each given the separator when one was configured. */
  datatype Codec<!T> = Codec(ecrire: (T, Option<char>) -> string, lire: (string, Option<char>) -> Result<T>)

  /** The record class handed to `config`: the formats it answers to, the
      number of each record, and the class's `numero_max` that decoding raises. */
  datatype Klasse<!T> = Klasse(codecs: map<string, Codec<T>>, numero: T -> nat, numeros: NumeroMax)

  /** What `config` stores: the class, the format and the separator. */
  datatype Config<!T> = Config(klasse: Klasse<T>, format: string, separateur: Option<char>)

  predicate ConfigValide<T>(c: Config<T>) {
    c.format in c.klasse.codecs
  }

  /** `config`: the class must answer to the format, and a separator is only
      for CSV and must be one character. */
  function ConfigDe<T>(format: string, klasse: Klasse<T>, separateur: Option<string>): (r: Result<Config<T>>)
    ensures r.Ok? <==> format in klasse.codecs && (separateur.Some? ==> format == "csv" && |separateur.value| == 1)
    ensures r.Ok? ==> ConfigValide(r.value) && r.value.klasse == klasse && r.value.format == format
    ensures r.Ok? ==> (r.value.separateur.Some? <==> separateur.Some?)
    ensures r.Ok? && separateur.Some? ==> [r.value.separateur.value] == separateur.value
    ensures r.Err? ==> r.error == Precondition
  {
    if format !in klasse.codecs then Err(Precondition)
    else if separateur.Some? && format != "csv" then Err(Precondition)
    else if separateur.Some? && |separateur.value| != 1 then Err(Precondition)
    else Ok(Config(klasse, format, if separateur.Some? then Some(separateur.value[0]) else None))
  }

  /** One record written in the configured format. */
  function Encoder<T>(c: Config<T>, x: T): string
    requires ConfigValide(c)
  {
    c.klasse.codecs[c.format].ecrire(x, c.separateur)
  }

  /** One line read in the configured format. */
  function Decoder<T>(c: Config<T>, ligne: string): Result<T>
    requires ConfigValide(c)
  {
    c.klasse.codecs[c.format].lire(ligne, c.separateur)
  }

  /** The lines `sauver` hands to `puts`, in order. */
  function Encodes<T>(c: Config<T>, xs: seq<T>): (r: seq<string>)
    requires ConfigValide(c)
    ensures |r| == |xs| && forall i :: 0 <= i < |xs| ==> r[i] == Encoder(c, xs[i])
  {
    seq(|xs|, i requires 0 <= i < |xs| => Encoder(c, xs[i]))
  }

  /** Writing the lines of one more record appends that record's line. */
  lemma EcrireEncodesSuivant<T>(c: Config<T>, xs: seq<T>, i: nat)
    requires ConfigValide(c) && i < |xs|
    ensures Ecrire(Encodes(c, xs[..i + 1])) == Ecrire(Encodes(c, xs[..i])) + Puts(Encoder(c, xs[i]))
  {
    assert Encodes(c, xs[..i + 1]) == Encodes(c, xs[..i]) + [Encoder(c, xs[i])];
    EcrireAjout(Encodes(c, xs[..i]), Encoder(c, xs[i]));
  }

  /** The records `map` builds before the first line that fails to decode. */
  function Premiers<T>(c: Config<T>, lignes: seq<string>): (xs: seq<T>)
    requires ConfigValide(c)
    ensures |xs| <= |lignes|
    ensures forall i :: 0 <= i < |xs| ==> Decoder(c, lignes[i]) == Ok(xs[i])
    ensures |xs| < |lignes| ==> Decoder(c, lignes[|xs|]).Err?
    decreases |lignes|
  {
    if lignes == [] then []
    else match Decoder(c, lignes[0])
      case Err(_) => []
      case Ok(x) =>
        var reste := Premiers(c, lignes[1..]);
        assert forall i :: 1 <= i < |lignes| ==> lignes[i] == lignes[1..][i - 1];
        [x] + reste
  }

  /** `lignes.map { new_from_<format> }`: every record in line order, or the
      error of the first line that fails. */
  function DecoderTout<T>(c: Config<T>, lignes: seq<string>): (r: Result<seq<T>>)
    requires ConfigValide(c)
    ensures r.Ok? <==> forall i :: 0 <= i < |lignes| ==> Decoder(c, lignes[i]).Ok?
    ensures r.Ok? ==> |r.value| == |lignes| && forall i :: 0 <= i < |lignes| ==> Decoder(c, lignes[i]) == Ok(r.value[i])
  {
    var xs := Premiers(c, lignes);
    if |xs| == |lignes| then Ok(xs) else Err(Decoder(c, lignes[|xs|]).error)
  }

  /** `Premiers` is the only sequence of records decoded in order up to the
      first failure. */
  lemma PremiersUnique<T>(c: Config<T>, lignes: seq<string>, xs: seq<T>)
    requires ConfigValide(c) && |xs| <= |lignes|
    requires forall i :: 0 <= i < |xs| ==> Decoder(c, lignes[i]) == Ok(xs[i])
    requires |xs| < |lignes| ==> Decoder(c, lignes[|xs|]).Err?
    ensures Premiers(c, lignes) == xs
  {
    var ys := Premiers(c, lignes);
    assert |ys| == |xs|;
    assert forall i :: 0 <= i < |xs| ==> Ok(xs[i]) == Ok(ys[i]);
  }

  /** The numbers of decoded records, in order. */
  function NumerosDe<T>(k: Klasse<T>, xs: seq<T>): (ns: seq<nat>)
    ensures |ns| == |xs| && forall i :: 0 <= i < |xs| ==> ns[i] == k.numero(xs[i])
  {
    seq(|xs|, i requires 0 <= i < |xs| => k.numero(xs[i]))
  }

  /** The lines `charger` reads: standard input for `-`, else the depot's
      file; nothing when that file does not exist. */
  function LignesLues(fichiers: map<string, string>, entree: string, depot: string): (r: Option<seq<string>>)
    ensures r.None? <==> depot != "-" && depot !in fichiers
    ensures depot in fichiers && depot != "-" ==> r == Some(Readlines(fichiers[depot]))
  {
    if depot == "-" then Some(Readlines(entree))
    else if depot in fichiers then Some(Readlines(fichiers[depot]))
    else None
  }

  /** What `charger` returns for the lines it read: without a configuration
      the class is nil, so the first line already fails. */
  function Chargement<T>(config: Option<Config<T>>, lignes: Option<seq<string>>): (r: Result<seq<T>>)
    requires config.Some? ==> ConfigValide(config.value)
    ensures lignes.None? ==> r == Err(FichierInexistant)
    ensures lignes.Some? && config.None? ==> (r.Ok? <==> lignes.value == [])
    ensures lignes.Some? && config.Some? ==> r == DecoderTout(config.value, lignes.value)
  {
    match lignes
    case None => Err(FichierInexistant)
    case Some(ls) =>
      if config.Some? then DecoderTout(config.value, ls)
      else if ls == [] then Ok([]) else Err(ErreurMethode)
  }

  /** What `sauver` leaves in the depot: one `puts` per record, in order;
      without a configuration the file is only emptied. */
  function ContenuSauve<T>(config: Option<Config<T>>, elements: seq<T>): string
    requires config.Some? ==> ConfigValide(config.value)
  {
    if config.Some? then Ecrire(Encodes(config.value, elements)) else ""
  }

  /** The store: its configuration, set by `config` and read by the other
      operations. */
  class Depot<T> {
    var config: Option<Config<T>>

    predicate Valide()
      reads this
    {
      config.Some? ==> ConfigValide(config.value)
    }

    /** What loading may change: the configured class's `numero_max`. */
    function Cibles(): set<NumeroMax>
      reads this
    {
      if config.Some? then {config.value.klasse.numeros} else {}
    }

    constructor()
      ensures config.None? && Valide()
    {
      config := None;
    }

    /** `config(format, klass, separateur:)`: rejected, and nothing changes,
        when the class or the separator does not fit. */
    method Configurer(format: string, klasse: Klasse<T>, separateur: Option<string>) returns (r: Result<()>)
      modifies this
      ensures Valide() || (old(!Valide()) && r.Err?)
      ensures r.Ok? <==> ConfigDe(format, klasse, separateur).Ok?
      ensures r.Ok? ==> config == Some(ConfigDe(format, klasse, separateur).value)
      ensures r.Err? ==> r.error == Precondition && config == old(config)
    {
      var c := ConfigDe(format, klasse, separateur);
      if c.Err? {
        r := Err(Precondition);
      } else {
        config := Some(c.value);
        r := Ok(());
      }
    }

    /** `init(depot, detruire:)`: an existing depot is kept, and the call
        fails, unless `detruire`; otherwise the depot holds the twenty seed
        lines. */
    method Init(fs: SystemeFichiers, depot: string, detruire: bool) returns (r: Result<()>)
      modifies fs
      ensures fs.entreeStandard == old(fs.entreeStandard)
      ensures depot in old(fs.fichiers) && !detruire ==> r == Err(FichierExiste) && fs.fichiers == old(fs.fichiers)
      ensures !(depot in old(fs.fichiers) && !detruire) ==>
                r == Ok(()) && fs.fichiers == old(fs.fichiers)[depot := ContenuDe(GRAINE)]
    {
      if depot in fs.fichiers && !detruire {
        return Err(FichierExiste);
      }
      fs.fichiers := fs.fichiers[depot := ContenuDe(GRAINE)];
      r := Ok(());
    }

    /** `charger(depot)`: the depot must be `-` (standard input) or an
        existing file; each line is decoded in order and the first failure
        stops the reading, after the records before it have raised the
        class's `numero_max`. */
    method Charger(fs: SystemeFichiers, depot: string) returns (r: Result<seq<T>>)
      requires Valide()
      modifies Cibles()
      ensures r == Chargement(config, LignesLues(fs.fichiers, fs.entreeStandard, depot))
      ensures config.Some? && LignesLues(fs.fichiers, fs.entreeStandard, depot).Some? ==>
        var c := config.value;
        c.klasse.numeros.valeur == ObserveTout(old(c.klasse.numeros.valeur),
                                               NumerosDe(c.klasse, Premiers(c, LignesLues(fs.fichiers, fs.entreeStandard, depot).value)))
      ensures config.None? || LignesLues(fs.fichiers, fs.entreeStandard, depot).None? ==>
        forall o :: o in Cibles() ==> o.valeur == old(o.valeur)
    {
      if depot != "-" && depot !in fs.fichiers {
        return Err(FichierInexistant);
      }
      var lignes := Readlines(if depot == "-" then fs.entreeStandard else fs.fichiers[depot]);
      if config.None? {
        if lignes == [] {
          return Ok([]);
        }
        return Err(ErreurMethode);
      }
      var c := config.value;
      var numeros := c.klasse.numeros;
      var xs: seq<T> := [];
      var i := 0;
      while i < |lignes|
        invariant i == |xs| <= |lignes|
        invariant forall j :: 0 <= j < i ==> Decoder(c, lignes[j]) == Ok(xs[j])
        invariant numeros.valeur == ObserveTout(old(numeros.valeur), NumerosDe(c.klasse, xs))
      {
        var d := Decoder(c, lignes[i]);
        if d.Err? {
          PremiersUnique(c, lignes, xs);
          return Err(d.error);
        }
        ObserveToutAjout(old(numeros.valeur), NumerosDe(c.klasse, xs), c.klasse.numero(d.value));
        assert NumerosDe(c.klasse, xs + [d.value]) == NumerosDe(c.klasse, xs) + [c.klasse.numero(d.value)];
        numeros.Observer(c.klasse.numero(d.value));
        xs := xs + [d.value];
        i := i + 1;
      }
      PremiersUnique(c, lignes, xs);
      r := Ok(xs);
    }

    /** `sauver(depot, les_elements)`: the depot must exist, since it is first
        copied to `depot.bak`; it is then emptied and receives one `puts` per
        record, in order. */
    method Sauver(fs: SystemeFichiers, depot: string, elements: seq<T>) returns (r: Result<()>)
      requires Valide()
      modifies fs
      ensures fs.entreeStandard == old(fs.entreeStandard)
      ensures depot !in old(fs.fichiers) ==> r == Err(FichierInexistant) && fs.fichiers == old(fs.fichiers)
      ensures depot in old(fs.fichiers) ==>
        && fs.fichiers == old(fs.fichiers)[depot + ".bak" := old(fs.fichiers)[depot]][depot := ContenuSauve(config, elements)]
        && r == if config.None? && elements != [] then Err(ErreurMethode) else Ok(())
    {
      if depot !in fs.fichiers {
        return Err(FichierInexistant);
      }
      fs.fichiers := fs.fichiers[depot + ".bak" := fs.fichiers[depot]];
      fs.fichiers := fs.fichiers[depot := ""];
      if config.None? {
        if elements != [] {
          return Err(ErreurMethode);
        }
        return Ok(());
      }
      var c := config.value;
      ghost var copie := fs.fichiers;
      var i := 0;
      while i < |elements|
        invariant 0 <= i <= |elements|
        invariant fs.fichiers == copie[depot := Ecrire(Encodes(c, elements[..i]))]
        invariant fs.entreeStandard == old(fs.entreeStandard)
      {
        var ligne := Encoder(c, elements[i]);
        EcrireEncodesSuivant(c, elements, i);
        fs.fichiers := fs.fichiers[depot := fs.fichiers[depot] + Puts(ligne)];
        i := i + 1;
      }
      assert elements[..i] == elements;
      r := Ok(());
    }
  }

  /** What `sauver` writes, `charger` reads back: the same records in the same
      order, whenever each record's line has no newline and decodes to it. */
  lemma SauverCharger<T>(c: Config<T>, xs: seq<T>)
    requires ConfigValide(c)
    requires forall i :: 0 <= i < |xs| ==> '\n' !in Encoder(c, xs[i]) && Decoder(c, Encoder(c, xs[i]) + "\n") == Ok(xs[i])
    ensures DecoderTout(c, Readlines(Ecrire(Encodes(c, xs)))) == Ok(xs)
  {
    var lignes := Encodes(c, xs);
    ReadlinesEcrire(lignes);
    var lues := Readlines(Ecrire(lignes));
    assert forall i :: 0 <= i < |xs| ==> lues[i] == Encoder(c, xs[i]) + "\n";
    PremiersUnique(c, lues, xs);
  }

  /** `fermer` then `ouvrir` on the same depot: what `sauver` left in the
      file, `charger` reads back as the same records; an unconfigured store
      only round-trips the empty collection. */
  lemma SauverPuisCharger<T>(config: Option<Config<T>>, xs: seq<T>,
                             fichiers: map<string, string>, entree: string, depot: string)
    requires depot != "-"
    requires config.None? ==> xs == []
    requires config.Some? ==> ConfigValide(config.value)
    requires config.Some? ==> forall i :: 0 <= i < |xs| ==>
               '\n' !in Encoder(config.value, xs[i]) && Decoder(config.value, Encoder(config.value, xs[i]) + "\n") == Ok(xs[i])
    ensures Chargement(config, LignesLues(fichiers[depot := ContenuSauve(config, xs)], entree, depot)) == Ok(xs)
  {
    if config.Some? {
      SauverCharger(config.value, xs);
    }
  }

  /** An empty depot loads as an empty collection. */
  lemma ChargerVide<T>(c: Config<T>)
    requires ConfigValide(c)
    ensures DecoderTout(c, Readlines("")) == Ok([])
  {
  }

  /** Lines without a newline are written by `<<` with a newline exactly as by `puts`. */
  lemma {:induction false} LignesEcrire(ls: seq<string>)
    requires forall i :: 0 <= i < |ls| ==> '\n' !in ls[i]
    ensures Lignes(ls) == Ecrire(ls)
    decreases |ls|
  {
    if ls != [] {
      assert ls[0] == [] || ls[0][|ls[0]| - 1] in ls[0];
      assert Puts(ls[0]) == ls[0] + "\n";
      LignesEcrire(ls[1..]);
    }
  }
}
