/**
  The ordering of Rust's `String`, which a `BTreeMap<String, _>` uses for its keys:
  lexicographic on UTF-8 bytes. For Unicode scalar values (Dafny's `char`) that is the
  same as lexicographic order on the characters, a proper prefix coming first.
 */
module StringOrder {

  predicate LexLe(a: string, b: string)
    decreases |a|
  {
    |a| == 0 || (|b| > 0 && (a[0] < b[0] || (a[0] == b[0] && LexLe(a[1..], b[1..]))))
  }

  predicate LexLt(a: string, b: string) {
    LexLe(a, b) && a != b
  }

  lemma {:induction false} LexLeReflexive(a: string)
    ensures LexLe(a, a)
    decreases |a|
  {
    if |a| > 0 {
      LexLeReflexive(a[1..]);
    }
  }

  lemma {:induction false} LexLeTotal(a: string, b: string)
    ensures LexLe(a, b) || LexLe(b, a)
    decreases |a|
  {
    if |a| > 0 && |b| > 0 && a[0] == b[0] {
      LexLeTotal(a[1..], b[1..]);
    }
  }

  lemma {:induction false} LexLeAntisymmetric(a: string, b: string)
    requires LexLe(a, b) && LexLe(b, a)
    ensures a == b
    decreases |a|
  {
    if |a| > 0 {
      LexLeAntisymmetric(a[1..], b[1..]);
      assert a == [a[0]] + a[1..] && b == [b[0]] + b[1..];
    }
  }

  lemma {:induction false} LexLeTransitive(a: string, b: string, c: string)
    requires LexLe(a, b) && LexLe(b, c)
    ensures LexLe(a, c)
    decreases |a|
  {
    if |a| > 0 && a[0] == b[0] && b[0] == c[0] {
      LexLeTransitive(a[1..], b[1..], c[1..]);
    }
  }

  /** Strictly ascending: each key comes before every later one, so no key repeats. */
  predicate StrictlySorted(s: seq<string>) {
    forall i, j :: 0 <= i < j < |s| ==> LexLt(s[i], s[j])
  }

  /** Every non-empty set of strings has a least element. */
  lemma {:induction false} MinimumExists(ks: set<string>)
    requires ks != {}
    ensures exists m :: m in ks && forall x :: x in ks ==> LexLe(m, x)
    decreases ks
  {
    var y :| y in ks;
    if ks == {y} {
      LexLeReflexive(y);
      assert forall x :: x in ks ==> x == y;
    } else {
      MinimumExists(ks - {y});
      var m :| m in ks - {y} && forall x :: x in ks - {y} ==> LexLe(m, x);
      LexLeTotal(m, y);
      if LexLe(m, y) {
        forall x | x in ks
          ensures LexLe(m, x)
        {
          if x != y {
            assert x in ks - {y};
          }
        }
      } else {
        forall x | x in ks
          ensures LexLe(y, x)
        {
          if x == y {
            LexLeReflexive(y);
          } else {
            LexLeTransitive(y, m, x);
          }
        }
      }
    }
  }

  /**
    The keys of a `BTreeMap` in traversal (and serialisation) order: every key exactly
    once, in ascending order.
   */
  ghost function SortedKeys(ks: set<string>): (r: seq<string>)
    ensures StrictlySorted(r)
    ensures forall k :: k in r <==> k in ks
    ensures |r| == |ks|
    decreases ks
  {
    if ks == {} then []
    else
      MinimumExists(ks);
      var m :| m in ks && forall x :: x in ks ==> LexLe(m, x);
      var rest := SortedKeys(ks - {m});
      assert forall j :: 0 <= j < |rest| ==> LexLt(m, rest[j]);
      [m] + rest
  }

  /** A strictly sorted sequence is determined by its elements. */
  lemma {:induction false} StrictlySortedUnique(r1: seq<string>, r2: seq<string>)
    requires StrictlySorted(r1) && StrictlySorted(r2)
    requires forall k :: k in r1 <==> k in r2
    ensures r1 == r2
    decreases |r1|
  {
    assert |r1| > 0 ==> r1[0] in r1;
    assert |r2| > 0 ==> r2[0] in r2;
    if |r1| > 0 && |r2| > 0 {
      if r1[0] != r2[0] {
        assert r1[0] in r2;
        assert r2[0] in r1;
        var i :| 0 <= i < |r1| && r1[i] == r2[0];
        var j :| 0 <= j < |r2| && r2[j] == r1[0];
        assert LexLe(r1[0], r2[0]) && LexLe(r2[0], r1[0]);
        LexLeAntisymmetric(r1[0], r2[0]);
      }
      forall k
        ensures k in r1[1..] <==> k in r2[1..]
      {
        if k in r1[1..] {
          var i :| 1 <= i < |r1| && r1[i] == k;
          assert k in r2 && k != r2[0];
        }
        if k in r2[1..] {
          var j :| 1 <= j < |r2| && r2[j] == k;
          assert k in r1 && k != r1[0];
        }
      }
      StrictlySortedUnique(r1[1..], r2[1..]);
      assert r1 == [r1[0]] + r1[1..] && r2 == [r2[0]] + r2[1..];
    }
  }
}
