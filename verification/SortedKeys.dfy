// Sorting a set of keys, as `sorted(set(...))` does. Keys are SHA-256 digests; the
// lexicographic order of equally long hexadecimal digests is the numeric order.
module SortedKeys {
  type Key = nat

  predicate StrictlyIncreasing(s: seq<Key>) {
    forall i, j | 0 <= i < j < |s| :: s[i] < s[j]
  }

  function Elements(s: seq<Key>): set<Key> {
    set k | k in s
  }

  lemma {:induction false} LeastExists(s: set<Key>) returns (m: Key)
    requires s != {}
    ensures m in s && forall k | k in s :: m <= k
  {
    m :| m in s;
    var rest := s - {m};
    assert forall k | k in s :: k == m || k in rest;
    if rest != {} {
      var least := LeastExists(rest);
      m := if m <= least then m else least;
    }
  }

  function Least(s: set<Key>): (m: Key)
    requires s != {}
    ensures m in s && forall k | k in s :: m <= k
  {
    assert exists m :: m in s && forall k | k in s :: m <= k by { var _ := LeastExists(s); }
    var m :| m in s && forall k | k in s :: m <= k;
    m
  }

  function Sorted(s: set<Key>): (r: seq<Key>)
    ensures StrictlyIncreasing(r) && Elements(r) == s
  {
    if s == {} then []
    else
      var m := Least(s);
      var rest := Sorted(s - {m});
      assert forall k | k in rest :: k in Elements(rest);
      assert Elements([m] + rest) == s by {
        assert forall k :: k in [m] + rest <==> k == m || k in Elements(rest);
      }
      [m] + rest
  }

  lemma NoElements(s: seq<Key>)
    ensures s == [] || s[0] in Elements(s)
  {
  }

  // A strictly increasing sequence is determined by its elements.
  lemma {:induction false} SortedIsUnique(a: seq<Key>, b: seq<Key>)
    requires StrictlyIncreasing(a) && StrictlyIncreasing(b)
    requires Elements(a) == Elements(b)
    ensures a == b
  {
    if a == [] {
      NoElements(b);
    } else {
      assert a[0] in Elements(b) && b != [];
      assert b[0] in Elements(a);
      assert a[0] == b[0];
      forall k ensures k in Elements(a[1..]) <==> k in Elements(b[1..]) {
        assert k in Elements(a[1..]) <==> k in Elements(a) && k != a[0] by { TailElements(a, k); }
        assert k in Elements(b[1..]) <==> k in Elements(b) && k != b[0] by { TailElements(b, k); }
      }
      SortedIsUnique(a[1..], b[1..]);
      assert a == [a[0]] + a[1..] && b == [b[0]] + b[1..];
    }
  }

  lemma TailElements(s: seq<Key>, k: Key)
    requires s != [] && StrictlyIncreasing(s)
    ensures k in Elements(s[1..]) <==> k in Elements(s) && k != s[0]
  {
    assert s == [s[0]] + s[1..];
    if k in s[1..] {
      var i :| 0 <= i < |s[1..]| && s[1..][i] == k;
      assert s[i + 1] == k;
    }
  }
}
