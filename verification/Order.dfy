/** The order in which the database lists identifiers: a strict total order on strings,
    and the ascending listing of a finite set, which is what ORDER BY returns. */
module Order {

  predicate Less(a: string, b: string) {
    |b| > 0 && (|a| == 0 || a[0] < b[0] || (a[0] == b[0] && Less(a[1..], b[1..])))
  }

  predicate Ascends(r: seq<string>) {
    forall i, j :: 0 <= i < j < |r| ==> Less(r[i], r[j])
  }

  lemma {:induction false} LessIsTransitive(a: string, b: string, c: string)
    requires Less(a, b) && Less(b, c)
    ensures Less(a, c)
  {
    if |a| > 0 && a[0] == b[0] == c[0] {
      LessIsTransitive(a[1..], b[1..], c[1..]);
    }
  }

  lemma {:induction false} LessIsStrict(a: string)
    ensures !Less(a, a)
  {
    if |a| > 0 {
      LessIsStrict(a[1..]);
    }
  }

  lemma {:induction false} LessIsTotal(a: string, b: string)
    ensures a == b || Less(a, b) || Less(b, a)
  {
    if |a| > 0 && |b| > 0 && a[0] == b[0] {
      LessIsTotal(a[1..], b[1..]);
      assert a == [a[0]] + a[1..] && b == [b[0]] + b[1..];
    }
  }

  predicate IsLeast(m: string, s: set<string>) {
    m in s && forall x :: x in s && x != m ==> Less(m, x)
  }

  lemma LeastExists(s: set<string>)
    requires s != {}
    ensures exists m :: IsLeast(m, s)
    decreases |s|
  {
    var x :| x in s;
    var rest := s - {x};
    if rest == {} {
      assert s == {x};
      assert IsLeast(x, s);
    } else {
      LeastExists(rest);
      var m :| IsLeast(m, rest);
      LessIsTotal(x, m);
      var least := if Less(x, m) then x else m;
      forall y | y in s && y != least
        ensures Less(least, y)
      {
        if least == x && y != m {
          LessIsTransitive(x, m, y);
        }
      }
      assert IsLeast(least, s);
    }
  }

  lemma LeastIsUnique(m: string, n: string, s: set<string>)
    requires IsLeast(m, s) && IsLeast(n, s)
    ensures m == n
  {
    if m != n {
      LessIsTransitive(m, n, m);
      LessIsStrict(m);
    }
  }

  /** The least element of a set. */
  function Least(s: set<string>): (m: string)
    requires s != {}
    ensures IsLeast(m, s)
  {
    LeastExists(s);
    assert forall m, n | IsLeast(m, s) && IsLeast(n, s) :: m == n by {
      forall m, n | IsLeast(m, s) && IsLeast(n, s) ensures m == n { LeastIsUnique(m, n, s); }
    }
    var m :| m in s && IsLeast(m, s);
    m
  }

  /** ORDER BY: the elements of a set, each once, in ascending order. */
  function Listing(s: set<string>): (r: seq<string>)
    ensures Ascends(r)
    ensures forall x :: x in r <==> x in s
    ensures |r| == |s|
    decreases |s|
  {
    if s == {} then [] else
      var m := Least(s);
      var rest := Listing(s - {m});
      assert forall x :: x in rest ==> Less(m, x);
      [m] + rest
  }

  lemma AscendingHasNoDuplicates(r: seq<string>)
    requires Ascends(r)
    ensures forall i, j :: 0 <= i < j < |r| ==> r[i] != r[j]
  {
    forall i, j | 0 <= i < j < |r| ensures r[i] != r[j] { LessIsStrict(r[i]); }
  }

  /** The first rows of a listing are the ones up to the last row taken. */
  lemma AscendingPrefix(r: seq<string>, n: nat, x: string)
    requires Ascends(r) && 0 < n <= |r|
    ensures x in r[..n] <==> x in r && (x == r[n - 1] || Less(x, r[n - 1]))
  {
    if x in r {
      var i :| 0 <= i < |r| && r[i] == x;
      if i < n {
        assert r[..n][i] == x;
      } else {
        assert Less(r[n - 1], x);
        LessIsStrict(x);
        if Less(x, r[n - 1]) { LessIsTransitive(x, r[n - 1], x); }
        assert forall j :: 0 <= j < n ==> Less(r[..n][j], r[i]);
      }
    }
  }

  lemma TailElements(r: seq<string>, x: string)
    requires r != [] && forall i, j :: 0 <= i < j < |r| ==> r[i] != r[j]
    ensures x in r[1..] <==> x in r && x != r[0]
  {
    if x in r[1..] {
      var i :| 0 <= i < |r| - 1 && r[1..][i] == x;
      assert r[i + 1] == x;
    }
    if x in r && x != r[0] {
      var i :| 0 <= i < |r| && r[i] == x;
      assert r[1..][i - 1] == x;
    }
  }

  /** There is one way to list a set: ascending sequences with the same elements are equal. */
  lemma {:induction false} ListingIsUnique(a: seq<string>, b: seq<string>)
    requires Ascends(a) && Ascends(b)
    requires forall x :: x in a <==> x in b
    ensures a == b
  {
    assert b != [] ==> b[0] in b;
    if a != [] {
      assert a[0] in b;
      assert b[0] in a;
      var i :| 0 <= i < |b| && b[i] == a[0];
      var j :| 0 <= j < |a| && a[j] == b[0];
      if i != 0 {
        assert Less(b[0], a[0]);
        LessIsStrict(a[0]);
        if j != 0 { LessIsTransitive(a[0], b[0], a[0]); }
        assert false;
      }
      AscendingHasNoDuplicates(a);
      AscendingHasNoDuplicates(b);
      forall x ensures x in a[1..] <==> x in b[1..] {
        TailElements(a, x);
        TailElements(b, x);
      }
      ListingIsUnique(a[1..], b[1..]);
    }
  }
}
