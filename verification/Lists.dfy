/** Lists without duplicates, kept in order of last use. */
module Lists {
  import opened Common

  function RemoveAt<T>(s: seq<T>, i: nat): (r: seq<T>)
    requires i < |s|
    ensures |r| == |s| - 1
  {
    s[..i] + s[i + 1..]
  }

  function InsertAt<T>(s: seq<T>, i: nat, x: T): (r: seq<T>)
    requires i <= |s|
    ensures |r| == |s| + 1 && r[i] == x && RemoveAt(r, i) == s
  {
    var r := s[..i] + [x] + s[i..];
    assert r[..i] == s[..i] && r[i + 1..] == s[i..];
    r
  }

  lemma InsertFront<T>(s: seq<T>, x: T)
    ensures InsertAt(s, 0, x) == [x] + s
  {
  }

  function Take<T>(s: seq<T>, n: nat): (r: seq<T>)
    ensures |r| == (if |s| <= n then |s| else n) && r == s[..|r|]
  {
    if |s| <= n then s else s[..n]
  }

  /** Where x first occurs. */
  function IndexOf<T(==, !new)>(s: seq<T>, x: T): (r: Option<nat>)
    ensures r.Some? ==> r.value < |s| && s[r.value] == x && x !in s[..r.value]
    ensures r.None? <==> x !in s
  {
    if s == [] then None
    else if s[0] == x then Some(0)
    else
      var rest := IndexOf(s[1..], x);
      assert forall y :: y in s <==> y == s[0] || y in s[1..];
      if rest.None? then None else
      assert s[..rest.value + 1] == [s[0]] + s[1..][..rest.value];
      Some(rest.value + 1)
  }

  /** The list with every x dropped. */
  function Without<T(==, !new)>(s: seq<T>, x: T): (r: seq<T>)
    ensures x !in r && |r| <= |s|
    ensures forall y :: y in r <==> y in s && y != x
  {
    if s == [] then []
    else
      assert forall y :: y in s <==> y == s[0] || y in s[1..];
      if s[0] == x then Without(s[1..], x) else [s[0]] + Without(s[1..], x)
  }

  lemma {:induction false} WithoutDistinct<T(!new)>(s: seq<T>, x: T)
    requires Distinct(s)
    ensures Distinct(Without(s, x))
  {
    if s != [] {
      WithoutDistinct(s[1..], x);
      assert s[0] !in s[1..];
    }
  }

  lemma {:induction false} WithoutAbsent<T(!new)>(s: seq<T>, x: T)
    requires x !in s
    ensures Without(s, x) == s
  {
    if s != [] {
      WithoutAbsent(s[1..], x);
    }
  }

  /** From a list without duplicates, at most one place is dropped. */
  lemma {:induction false} WithoutAt<T(!new)>(s: seq<T>, i: nat)
    requires Distinct(s) && i < |s|
    ensures Without(s, s[i]) == RemoveAt(s, i)
  {
    if i == 0 {
      WithoutAbsent(s[1..], s[0]);
    } else {
      WithoutAt(s[1..], i - 1);
      assert RemoveAt(s, i) == [s[0]] + RemoveAt(s[1..], i - 1);
    }
  }

  lemma InsertDistinct<T(!new)>(s: seq<T>, i: nat, x: T)
    requires Distinct(s) && x !in s && i <= |s|
    ensures Distinct(InsertAt(s, i, x))
  {
    var r := InsertAt(s, i, x);
    assert forall j :: 0 <= j < |r| ==> r[j] == if j < i then s[j] else if j == i then x else s[j - 1];
  }

  lemma RemoveAtMembers<T(!new)>(s: seq<T>, i: nat)
    requires i < |s|
    ensures forall y :: y in RemoveAt(s, i) ==> y in s
    ensures forall y :: y in s && y != s[i] ==> y in RemoveAt(s, i)
  {
    forall y | y in s && y != s[i] ensures y in RemoveAt(s, i) {
      var j :| 0 <= j < |s| && s[j] == y;
      assert RemoveAt(s, i)[if j < i then j else j - 1] == y;
    }
  }

  lemma RemoveAtDistinct<T(!new)>(s: seq<T>, i: nat)
    requires Distinct(s) && i < |s|
    ensures Distinct(RemoveAt(s, i)) && s[i] !in RemoveAt(s, i)
    ensures forall y :: y in RemoveAt(s, i) <==> y in s && y != s[i]
  {
    WithoutAt(s, i);
  }

  /** The set of elements has as many members as the list has places exactly when the list
      has no duplicates. */
  lemma {:induction false} SizeIffDistinct<T(!new)>(s: seq<T>)
    ensures |set x | x in s| <= |s|
    ensures |set x | x in s| == |s| <==> Distinct(s)
  {
    if s != [] {
      var rest := s[1..];
      SizeIffDistinct(rest);
      var all, tail := set x | x in s, set x | x in rest;
      assert all == tail + {s[0]};
      if s[0] in rest {
        assert all == tail;
        var j :| 0 <= j < |rest| && rest[j] == s[0];
        assert s[j + 1] == s[0];
      } else {
        assert |all| == |tail| + 1;
        assert Distinct(s) <==> Distinct(rest) by {
          if Distinct(s) {
            assert forall i, j :: 0 <= i < j < |rest| ==> rest[i] == s[i + 1] && rest[j] == s[j + 1];
          }
          if Distinct(rest) {
            forall i, j | 0 <= i < j < |s| ensures s[i] != s[j] {
              assert s[j] == rest[j - 1];
              if 0 < i {
                assert s[i] == rest[i - 1];
              }
            }
          }
        }
      }
    }
  }

  /** What was used, newest first, without repetition. */
  function MostRecent<T(==, !new)>(log: seq<T>): (r: seq<T>)
    ensures forall y :: y in r <==> y in log
  {
    if log == [] then []
    else
      assert forall y :: y in log <==> y == log[0] || y in log[1..];
      [log[0]] + Without(MostRecent(log[1..]), log[0])
  }

  lemma {:induction false} MostRecentDistinct<T(!new)>(log: seq<T>)
    ensures Distinct(MostRecent(log))
  {
    if log != [] {
      MostRecentDistinct(log[1..]);
      WithoutDistinct(MostRecent(log[1..]), log[0]);
    }
  }

  lemma FrontDistinct<T(!new)>(s: seq<T>, x: T, n: nat)
    requires Distinct(s) && x !in s
    ensures Distinct(Take([x] + s, n))
  {
  }

  lemma TakeFront<T>(s: seq<T>, x: T, n: nat)
    requires 0 < n
    ensures Take([x] + s, n) == [x] + Take(s, n - 1)
  {
  }

  lemma RemoveFromCut<T>(all: seq<T>, i: nat, n: nat)
    requires i < |all| && i < n
    ensures Take(RemoveAt(Take(all, n), i), n - 1) == Take(RemoveAt(all, i), n - 1)
  {
    if n < |all| {
      assert all[..n][..i] == all[..i] && all[..n][i + 1..] == all[i + 1..n];
      assert Take(RemoveAt(all, i), n - 1) == all[..i] + all[i + 1..n];
    }
  }

  lemma FrontOfKept<T(!new)>(all: seq<T>, i: nat, n: nat)
    requires Distinct(all) && i < |all| && i < n
    ensures Take([all[i]] + Without(Take(all, n), all[i]), n) == Take([all[i]] + Without(all, all[i]), n)
  {
    WithoutAt(all, i);
    WithoutAt(Take(all, n), i);
    TakeFront(RemoveAt(Take(all, n), i), all[i], n);
    TakeFront(RemoveAt(all, i), all[i], n);
    RemoveFromCut(all, i, n);
  }

  lemma FrontOfDropped<T(!new)>(all: seq<T>, i: nat, n: nat)
    requires Distinct(all) && n <= i < |all| && 0 < n
    ensures Take([all[i]] + Without(Take(all, n), all[i]), n) == Take([all[i]] + Without(all, all[i]), n)
  {
    var cut := Take(all, n);
    WithoutAt(all, i);
    WithoutAbsent(cut, all[i]);
    assert Take([all[i]] + cut, n) == Take([all[i]] + RemoveAt(all, i), n);
  }

  /** Moving x to the front of a list cut to n places gives the cut of the whole list with x
      moved to the front, even when x had been cut off. */
  lemma FrontOfCut<T(!new)>(all: seq<T>, x: T, n: nat)
    requires Distinct(all) && 0 < n
    ensures Take([x] + Without(Take(all, n), x), n) == Take([x] + Without(all, x), n)
  {
    var i := IndexOf(all, x);
    if i.None? {
      WithoutAbsent(all, x);
      WithoutAbsent(Take(all, n), x);
    } else if i.value < n {
      FrontOfKept(all, i.value, n);
    } else {
      FrontOfDropped(all, i.value, n);
    }
  }
}
