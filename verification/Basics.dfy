/** Optional values, and strings ordered by code point as Python's `sorted` orders them. */
module Basics {

  datatype Option<+T> = None | Some(value: T)

  datatype Result<+T, +E> = Ok(value: T) | Err(error: E)

  /** Strict code-point order on strings. */
  predicate Below(a: string, b: string) {
    if b == "" then false
    else if a == "" then true
    else if a[0] != b[0] then a[0] < b[0]
    else Below(a[1..], b[1..])
  }

  lemma BelowTransitive(a: string, b: string, c: string)
    requires Below(a, b) && Below(b, c)
    ensures Below(a, c)
  {
    if a != "" && a[0] == b[0] && b[0] == c[0] {
      BelowTransitive(a[1..], b[1..], c[1..]);
    }
  }

  lemma {:induction false} BelowTotal(a: string, b: string)
    ensures !(Below(a, b) && Below(b, a))
    ensures a == b || Below(a, b) || Below(b, a)
    ensures a == b ==> !Below(a, b)
  {
    if a != "" && b != "" && a[0] == b[0] {
      BelowTotal(a[1..], b[1..]);
      assert a == [a[0]] + a[1..] && b == [b[0]] + b[1..];
    }
  }

  predicate Increasing(s: seq<string>) {
    forall i, j :: 0 <= i < j < |s| ==> Below(s[i], s[j])
  }

  ghost predicate IsLeast(x: string, keys: set<string>) {
    x in keys && forall y :: y in keys && y != x ==> Below(x, y)
  }

  lemma LeastExists(keys: set<string>) returns (x: string)
    requires keys != {}
    ensures IsLeast(x, keys)
  {
    var y :| y in keys;
    if keys == {y} {
      x := y;
    } else {
      var z := LeastExists(keys - {y});
      BelowTotal(y, z);
      if Below(y, z) {
        forall w | w in keys && w != y ensures Below(y, w) {
          if w != z { BelowTransitive(y, z, w); }
        }
        x := y;
      } else {
        x := z;
      }
    }
  }

  ghost function Least(keys: set<string>): (x: string)
    requires keys != {}
    ensures IsLeast(x, keys)
  {
    assert exists x :: IsLeast(x, keys) by {
      var x := LeastExists(keys);
    }
    var x :| IsLeast(x, keys);
    x
  }

  /** The increasing listing of a set: what `sorted` returns for a duplicate-free list. */
  ghost function Sorted(keys: set<string>): seq<string> {
    if keys == {} then []
    else
      var x := Least(keys);
      [x] + Sorted(keys - {x})
  }

  lemma {:induction false} SortedLists(keys: set<string>)
    ensures Increasing(Sorted(keys))
    ensures forall k :: k in Sorted(keys) <==> k in keys
    ensures |Sorted(keys)| == |keys|
  {
    if keys != {} {
      SortedLists(keys - {Least(keys)});
    }
  }

  /** An increasing listing is determined by the set it lists. */
  lemma {:induction false} IncreasingUnique(s: seq<string>, t: seq<string>)
    requires Increasing(s) && Increasing(t)
    requires forall k :: k in s <==> k in t
    ensures s == t
  {
    assert |t| > 0 ==> t[0] in t && t[0] in s;
    if s != [] {
      assert s[0] in s && s[0] in t;
      assert t[0] in t && t[0] in s;
      var i :| 0 <= i < |t| && t[i] == s[0];
      var j :| 0 <= j < |s| && s[j] == t[0];
      BelowTotal(s[0], t[0]);
      assert s[0] == t[0];
      forall k ensures k in s[1..] <==> k in t[1..] {
        HeadIsNew(s, k);
        HeadIsNew(t, k);
      }
      IncreasingUnique(s[1..], t[1..]);
    }
  }

  lemma HeadIsNew(s: seq<string>, k: string)
    requires Increasing(s) && s != []
    ensures k in s[1..] <==> k in s && k != s[0]
  {
    BelowTotal(s[0], s[0]);
    if k in s[1..] {
      var i :| 0 <= i < |s[1..]| && s[1..][i] == k;
      assert s[i + 1] == k;
    }
  }

  lemma SomeMember(s: set<int>)
    ensures s == {} || exists x :: x in s
  {
    if forall x :: x !in s { assert s == {}; }
  }
}
