/** The iteration order of the source's ordered containers (`BTreeMap`, `BTreeSet`). */
module Ordered {

  predicate IsFirst(m: nat, s: set<nat>) {
    m in s && forall x :: x in s ==> m <= x
  }

  lemma {:induction false} FirstExists(s: set<nat>)
    requires s != {}
    ensures exists m :: IsFirst(m, s)
  {
    var y :| y in s;
    if IsFirst(y, s) {
    } else {
      var z :| z in s && z < y;
      var t := set x | x in s && x < y;
      assert z in t && y !in t && t < s;
      FirstExists(t);
      var m :| IsFirst(m, t);
      forall x | x in s ensures m <= x {
        if x < y { assert x in t; }
      }
      assert IsFirst(m, s);
    }
  }

  /** The first key of an ordered container. */
  function First(s: set<nat>): (m: nat)
    requires s != {}
    ensures m in s && forall x :: x in s ==> m <= x
  {
    FirstExists(s);
    var m :| m in s && IsFirst(m, s);
    m
  }

  /** The last key of an ordered container. */
  function Last(s: set<nat>): (m: nat)
    requires s != {}
    ensures m in s && forall x :: x in s ==> x <= m
  {
    var f := First(s);
    assert forall x :: x in s ==> x == f || x in s - {f};
    if s - {f} == {} then f else Last(s - {f})
  }

  ghost predicate Increasing(s: seq<nat>) {
    forall i, j :: 0 <= i < j < |s| ==> s[i] < s[j]
  }

  ghost predicate Lists(ks: seq<nat>, s: set<nat>) {
    forall x :: x in ks <==> x in s
  }

  lemma PrependKey(f: nat, rest: seq<nat>, s: set<nat>)
    requires f in s && (forall x :: x in s ==> f <= x)
    requires Increasing(rest) && Lists(rest, s - {f})
    ensures Increasing([f] + rest) && Lists([f] + rest, s)
  {
    forall i | 0 <= i < |rest| ensures f < rest[i] {
      assert rest[i] in s - {f};
    }
  }

  /** The keys in iteration order. */
  function Keys(s: set<nat>): (ks: seq<nat>)
    ensures Increasing(ks) && Lists(ks, s) && |ks| == |s|
  {
    if s == {} then [] else
      var f := First(s);
      var rest := Keys(s - {f});
      PrependKey(f, rest, s);
      [f] + rest
  }

  lemma {:induction false} KeysIn(s: set<nat>)
    ensures forall i :: 0 <= i < |Keys(s)| ==> Keys(s)[i] in s
  {
    hide Keys, Increasing;
    forall i | 0 <= i < |Keys(s)| ensures Keys(s)[i] in s {
      assert Keys(s)[i] in Keys(s);
    }
  }

  lemma SomeElement(s: seq<nat>)
    requires s != []
    ensures exists x :: x in s
  {
    assert s[0] in s;
  }

  /** Iteration order is determined by the key set alone. */
  lemma {:induction false} IncreasingUnique(a: seq<nat>, b: seq<nat>)
    requires Increasing(a) && Increasing(b) && forall x :: x in a <==> x in b
    ensures a == b
  {
    if a == [] {
      if b != [] { SomeElement(b); }
    } else if b == [] {
      SomeElement(a);
    } else {
      assert a[0] in b && b[0] in a;
      var a', b' := a[1..], b[1..];
      assert forall x :: x in a <==> x == a[0] || x in a';
      assert forall x :: x in b <==> x == b[0] || x in b';
      IncreasingUnique(a', b');
    }
  }

  lemma KeysOf(ks: seq<nat>, s: set<nat>)
    requires Increasing(ks) && Lists(ks, s)
    ensures Keys(s) == ks
  {
    IncreasingUnique(Keys(s), ks);
  }
}
