/** The lexical order on canonical identifiers.  Python compares strings code point by
    code point; every ordered tuple of identifiers in the diagnostics uses that order. */
module Ordering {

  datatype Option<+T> = None | Some(value: T)

  predicate Less(a: string, b: string)
    decreases a
  {
    b != [] && (a == [] || a[0] < b[0] || (a[0] == b[0] && Less(a[1..], b[1..])))
  }

  lemma {:induction false} LessTransitive(a: string, b: string, c: string)
    requires Less(a, b) && Less(b, c)
    ensures Less(a, c)
    decreases a
  {
    if a != [] && a[0] == b[0] && b[0] == c[0] {
      LessTransitive(a[1..], b[1..], c[1..]);
    }
  }

  lemma {:induction false} LessTotal(a: string, b: string)
    ensures Less(a, b) || Less(b, a) || a == b
    ensures !(Less(a, b) && Less(b, a))
    ensures Less(a, b) ==> a != b
    decreases a
  {
    if a != [] && b != [] && a[0] == b[0] {
      LessTotal(a[1..], b[1..]);
      assert a == [a[0]] + a[1..] && b == [b[0]] + b[1..];
    }
  }

  /** The two agree up to here, where the first ends or has the smaller character. */
  predicate DiffersAt(a: string, b: string, k: nat) {
    k <= |a| && k < |b| && a[..k] == b[..k] && (k == |a| || a[k] < b[k])
  }

  lemma HeadsAgree(a: string, b: string, k: nat)
    requires DiffersAt(a, b, k)
    ensures k > 0 ==> a[0] == b[0]
  {
    if k > 0 {
      assert a[..k][0] == a[0] && b[..k][0] == b[0];
    }
  }

  lemma {:induction false} LessMeans(a: string, b: string)
    ensures Less(a, b) <==> exists k: nat :: DiffersAt(a, b, k)
    decreases a
  {
    if a == [] || b == [] || a[0] != b[0] {
      if Less(a, b) {
        assert DiffersAt(a, b, 0);
      }
      forall k: nat | DiffersAt(a, b, k) ensures Less(a, b) {
        HeadsAgree(a, b, k);
      }
    } else {
      LessMeans(a[1..], b[1..]);
      if Less(a, b) {
        var k: nat :| DiffersAt(a[1..], b[1..], k);
        assert a[..k + 1] == [a[0]] + a[1..][..k] && b[..k + 1] == [b[0]] + b[1..][..k];
        assert DiffersAt(a, b, k + 1);
      }
      forall k: nat | DiffersAt(a, b, k) ensures Less(a, b) {
        if k > 0 {
          assert a[1..][..k - 1] == a[..k][1..] && b[1..][..k - 1] == b[..k][1..];
          assert DiffersAt(a[1..], b[1..], k - 1);
        }
      }
    }
  }

  /** Unique and lexically ordered. */
  predicate StrictlySorted(s: seq<string>) {
    forall i, j :: 0 <= i < j < |s| ==> Less(s[i], s[j])
  }

  function Elements<T>(s: seq<T>): set<T> {
    set x | x in s
  }

  predicate Distinct<T(==)>(s: seq<T>) {
    forall i, j :: 0 <= i < j < |s| ==> s[i] != s[j]
  }

  /** A set counts the elements of a sequence exactly when none is repeated. */
  lemma {:induction false} CountsDistinct<T>(s: seq<T>)
    ensures |Elements(s)| <= |s|
    ensures |Elements(s)| == |s| <==> Distinct(s)
  {
    if s != [] {
      var front, last := s[..|s| - 1], s[|s| - 1];
      CountsDistinct(front);
      assert s == front + [last];
      assert Elements(s) == Elements(front) + {last};
      if last in front {
        var i :| 0 <= i < |front| && front[i] == last;
        assert s[i] == s[|s| - 1];
      }
    }
  }

  lemma SortedTail(s: seq<string>)
    requires StrictlySorted(s) && s != []
    ensures StrictlySorted(s[1..])
    ensures Elements(s[1..]) == Elements(s) - {s[0]}
  {
    forall x | x in Elements(s[1..]) ensures x in Elements(s) - {s[0]} {
      var i :| 0 <= i < |s[1..]| && s[1..][i] == x;
      assert s[i + 1] == x && Less(s[0], s[i + 1]);
      LessTotal(s[0], x);
    }
    forall x | x in Elements(s) - {s[0]} ensures x in Elements(s[1..]) {
      var i :| 0 <= i < |s| && s[i] == x;
      assert s[1..][i - 1] == x;
    }
  }

  lemma HeadIsLeast(s: seq<string>, x: string)
    requires StrictlySorted(s) && x in s
    ensures s[0] == x || Less(s[0], x)
  {
    var i :| 0 <= i < |s| && s[i] == x;
  }

  lemma HeadIsElement(s: seq<string>)
    requires s != []
    ensures s[0] in Elements(s)
  {
  }

  /** A set has only one strictly sorted enumeration. */
  lemma {:induction false} SortedUnique(a: seq<string>, b: seq<string>)
    requires StrictlySorted(a) && StrictlySorted(b)
    requires Elements(a) == Elements(b)
    ensures a == b
    decreases a
  {
    if a != [] {
      HeadIsElement(a);
    }
    if b != [] {
      HeadIsElement(b);
    }
    if a != [] {
      assert b != [] && a[0] in b;
      HeadIsLeast(b, a[0]);
      HeadIsLeast(a, b[0]);
      LessTotal(a[0], b[0]);
      SortedTail(a);
      SortedTail(b);
      SortedUnique(a[1..], b[1..]);
      assert a == [a[0]] + a[1..] && b == [b[0]] + b[1..];
    }
  }

  lemma SortedJoin(a: seq<string>, b: seq<string>)
    requires StrictlySorted(a) && StrictlySorted(b)
    requires forall x, y :: x in a && y in b ==> Less(x, y)
    ensures StrictlySorted(a + b)
  {
    var t := a + b;
    forall i, j | 0 <= i < j < |t| ensures Less(t[i], t[j]) {
      if i < |a| <= j {
        assert t[i] in a && t[j] in b;
      }
    }
  }

  lemma AboveInserted(s: seq<string>, k: nat, x: string)
    requires StrictlySorted(s) && k < |s| && x !in s && !Less(s[k], x)
    ensures forall y :: y in s[k..] ==> Less(x, y)
  {
    forall j | k <= j < |s| ensures Less(x, s[j]) {
      LessTotal(s[k], x);
      if k < j {
        LessTransitive(x, s[k], s[j]);
      }
    }
  }

  lemma Inserted(s: seq<string>, k: nat, x: string)
    requires StrictlySorted(s) && k <= |s| && x !in s
    requires forall i :: 0 <= i < k ==> Less(s[i], x)
    requires k < |s| ==> !Less(s[k], x)
    ensures StrictlySorted(s[..k] + [x] + s[k..])
    ensures Elements(s[..k] + [x] + s[k..]) == Elements(s) + {x}
  {
    var low, high := s[..k], s[k..];
    assert s == low + high;
    if k < |s| {
      AboveInserted(s, k, x);
    }
    SortedJoin(low, [x]);
    forall a, b | a in low + [x] && b in high ensures Less(a, b) {
      if a in low {
        LessTransitive(a, x, b);
      }
    }
    SortedJoin(low + [x], high);
  }

  /** `tuple(sorted(ids))`: enumerates a set of identifiers in lexical order. */
  method SortIds(ids: set<string>) returns (s: seq<string>)
    ensures StrictlySorted(s)
    ensures Elements(s) == ids
  {
    s := [];
    var rest := ids;
    while rest != {}
      invariant rest <= ids
      invariant StrictlySorted(s) && Elements(s) == ids - rest
      decreases |rest|
    {
      var x :| x in rest;
      var k := 0;
      while k < |s| && Less(s[k], x)
        invariant 0 <= k <= |s|
        invariant forall i :: 0 <= i < k ==> Less(s[i], x)
      {
        k := k + 1;
      }
      assert x !in Elements(s);
      Inserted(s, k, x);
      s := s[..k] + [x] + s[k..];
      rest := rest - {x};
    }
  }
}
