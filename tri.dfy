/** `Array#sort` with a comparison block: the result is a permutation of the
    input, in order for the block. Ruby's sort is not stable, so nothing is
    said about the relative order of elements the block finds equal. */
module Tri {

  /** What a `<=>`-style block must be on the elements sorted: antisymmetric,
      and "not after" is transitive. */
  ghost predicate PreordreTotal<T(!new)>(cmp: (T, T) -> int, s: seq<T>) {
    (forall a, b :: a in s && b in s ==> cmp(a, b) == -cmp(b, a)) &&
    (forall a, b, c :: a in s && b in s && c in s && cmp(a, b) <= 0 && cmp(b, c) <= 0 ==> cmp(a, c) <= 0)
  }

  predicate Trie<T>(s: seq<T>, cmp: (T, T) -> int) {
    forall i, j :: 0 <= i < j < |s| ==> cmp(s[i], s[j]) <= 0
  }

  function Inserer<T>(x: T, s: seq<T>, cmp: (T, T) -> int): (r: seq<T>)
    ensures multiset(r) == multiset(s) + multiset{x}
  {
    if s == [] then [x]
    else if cmp(x, s[0]) <= 0 then [x] + s
    else
      assert s == [s[0]] + s[1..];
      [s[0]] + Inserer(x, s[1..], cmp)
  }

  /** The sort, by insertion. */
  function TrierPar<T>(s: seq<T>, cmp: (T, T) -> int): (r: seq<T>)
    ensures multiset(r) == multiset(s)
  {
    if s == [] then []
    else
      assert s == [s[0]] + s[1..];
      Inserer(s[0], TrierPar(s[1..], cmp), cmp)
  }

  lemma {:induction false} InsererTrie<T(!new)>(x: T, s: seq<T>, cmp: (T, T) -> int, dom: seq<T>)
    requires PreordreTotal(cmp, dom)
    requires x in dom && forall y :: y in s ==> y in dom
    requires Trie(s, cmp)
    ensures Trie(Inserer(x, s, cmp), cmp)
    decreases |s|
  {
    if s == [] {
    } else if cmp(x, s[0]) <= 0 {
      InsererEnTete(x, s, cmp, dom);
    } else {
      assert Trie(s[1..], cmp);
      InsererTrie(x, s[1..], cmp, dom);
      InsererApres(x, s, cmp, dom);
    }
  }

  lemma InsererEnTete<T(!new)>(x: T, s: seq<T>, cmp: (T, T) -> int, dom: seq<T>)
    requires PreordreTotal(cmp, dom)
    requires x in dom && forall y :: y in s ==> y in dom
    requires Trie(s, cmp) && s != [] && cmp(x, s[0]) <= 0
    ensures Trie([x] + s, cmp)
  {
    var r := [x] + s;
    forall i, j | 0 <= i < j < |r| ensures cmp(r[i], r[j]) <= 0 {
      if i == 0 {
        assert r[j] == s[j - 1] && s[0] in dom && s[j - 1] in dom;
        if j > 1 { assert cmp(s[0], s[j - 1]) <= 0; }
      } else {
        assert r[i] == s[i - 1] && r[j] == s[j - 1];
      }
    }
  }

  lemma InsererApres<T(!new)>(x: T, s: seq<T>, cmp: (T, T) -> int, dom: seq<T>)
    requires PreordreTotal(cmp, dom)
    requires x in dom && forall y :: y in s ==> y in dom
    requires Trie(s, cmp) && s != [] && cmp(x, s[0]) > 0
    requires Trie(Inserer(x, s[1..], cmp), cmp)
    ensures Trie(Inserer(x, s, cmp), cmp)
  {
    assert s[0] in dom;
    assert cmp(s[0], x) < 0;
    TeteDevant(x, s, cmp);
  }

  /** Inserting after the head an element the head comes before keeps the
      order, given the insertion into the rest keeps it. */
  lemma TeteDevant<T>(x: T, s: seq<T>, cmp: (T, T) -> int)
    requires Trie(s, cmp) && s != [] && cmp(s[0], x) < 0
    requires Trie(Inserer(x, s[1..], cmp), cmp)
    ensures Trie([s[0]] + Inserer(x, s[1..], cmp), cmp)
  {
    var t := Inserer(x, s[1..], cmp);
    var r := [s[0]] + t;
    forall i, j | 0 <= i < j < |r| ensures cmp(r[i], r[j]) <= 0 {
      if i == 0 {
        assert r[j] == t[j - 1];
        assert r[j] in multiset(t);
        TeteAvant(x, s, cmp, r[j]);
      } else {
        assert r[i] == t[i - 1] && r[j] == t[j - 1];
      }
    }
  }

  /** The head of a sorted sequence comes before every element of the rest
      once an element after it is inserted there. */
  lemma TeteAvant<T>(x: T, s: seq<T>, cmp: (T, T) -> int, y: T)
    requires Trie(s, cmp) && s != [] && cmp(s[0], x) < 0
    requires y in multiset(s[1..]) + multiset{x}
    ensures cmp(s[0], y) <= 0
  {
    if y != x {
      var k :| 0 <= k < |s[1..]| && s[1..][k] == y;
      assert s[k + 1] == y;
    }
  }

  /** With a block that orders the elements, the sort returns them in order. */
  lemma {:induction false} TrierParTrie<T(!new)>(s: seq<T>, cmp: (T, T) -> int)
    requires PreordreTotal(cmp, s)
    ensures Trie(TrierPar(s, cmp), cmp)
    ensures multiset(TrierPar(s, cmp)) == multiset(s)
  {
    TrierParTrieDans(s, cmp, s);
  }

  lemma {:induction false} TrierParTrieDans<T(!new)>(s: seq<T>, cmp: (T, T) -> int, dom: seq<T>)
    requires PreordreTotal(cmp, dom)
    requires forall y :: y in s ==> y in dom
    ensures Trie(TrierPar(s, cmp), cmp)
    decreases |s|
  {
    if s != [] {
      assert forall y :: y in s[1..] ==> y in s;
      TrierParTrieDans(s[1..], cmp, dom);
      var t := TrierPar(s[1..], cmp);
      forall y | y in t ensures y in dom {
        assert y in multiset(t);
        assert y in multiset(s[1..]);
      }
      InsererTrie(s[0], t, cmp, dom);
    }
  }
}
