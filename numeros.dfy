/** The class-level `numero_max` that `Vin` and `Equipement` keep: the
    largest number any instance was built with, or nil before the first. */
module Numeros {
  import opened Wrappers

  /** The high-water mark after seeing `n`. */
  function Observe(o: Option<nat>, n: nat): (r: Option<nat>)
    ensures r.Some? && n <= r.value
    ensures o.Some? ==> o.value <= r.value
    ensures r.value == n || (o.Some? && r.value == o.value)
  {
    match o
    case None => Some(n)
    case Some(m) => Some(if m < n then n else m)
  }

  /** The high-water mark after seeing each of `ns` in turn. */
  function ObserveTout(o: Option<nat>, ns: seq<nat>): Option<nat>
    decreases |ns|
  {
    if ns == [] then o else ObserveTout(Observe(o, ns[0]), ns[1..])
  }

  /** After a sequence of numbers, the mark is the largest of them and of the
      previous mark: no number seen is above it, and it is one of them. */
  lemma {:induction false} ObserveToutMax(o: Option<nat>, ns: seq<nat>)
    requires o.Some? || ns != []
    ensures ObserveTout(o, ns).Some?
    ensures forall i :: 0 <= i < |ns| ==> ns[i] <= ObserveTout(o, ns).value
    ensures o.Some? ==> o.value <= ObserveTout(o, ns).value
    ensures ObserveTout(o, ns).value in ns || (o.Some? && ObserveTout(o, ns).value == o.value)
    decreases |ns|
  {
    if ns != [] {
      var o' := Observe(o, ns[0]);
      ObserveToutMax(o', ns[1..]);
      var r := ObserveTout(o', ns[1..]);
      assert r == ObserveTout(o, ns);
      forall i | 0 <= i < |ns| ensures ns[i] <= r.value {
        if i > 0 { assert ns[i] == ns[1..][i - 1]; }
      }
      if r.value in ns[1..] {
        var k :| 0 <= k < |ns[1..]| && ns[1..][k] == r.value;
        assert ns[k + 1] == r.value;
      }
    }
  }

  /** Seeing one more number after a sequence is one more `Observe`. */
  lemma {:induction false} ObserveToutAjout(o: Option<nat>, ns: seq<nat>, n: nat)
    ensures ObserveTout(o, ns + [n]) == Observe(ObserveTout(o, ns), n)
    decreases |ns|
  {
    if ns != [] {
      assert (ns + [n])[1..] == ns[1..] + [n];
      ObserveToutAjout(Observe(o, ns[0]), ns[1..], n);
    }
  }

  /** The mark of a class, as its instances are built. */
  class NumeroMax {
    var valeur: Option<nat>

    constructor()
      ensures valeur == None
    {
      valeur := None;
    }

    /** The number `creer` gives to a new instance: 0 at first, then one more
        than any number seen. */
    function Prochain(): (n: nat)
      reads this
      ensures valeur.Some? ==> valeur.value < n
      ensures valeur.None? ==> n == 0
    {
      if valeur.None? then 0 else valeur.value + 1
    }

    /** What `initialize` does once an instance is built with number `n`. */
    method Observer(n: nat)
      modifies this
      ensures valeur == Observe(old(valeur), n)
      ensures n < Prochain() && old(Prochain()) <= Prochain()
    {
      valeur := Observe(valeur, n);
    }
  }
}
