/** Python's orders and its stable `sorted`, shared by every module that sorts. */
module Ordering {

  datatype Option<+T> = None | Some(value: T)

  /** Lexicographic comparison of strings by code point: Python's `a <= b` on `str`. */
  predicate StrLeq(a: string, b: string)
  {
    a == "" || (b != "" && (a[0] < b[0] || (a[0] == b[0] && StrLeq(a[1..], b[1..]))))
  }

  lemma StrLeqTotal(a: string, b: string)
    ensures StrLeq(a, b) || StrLeq(b, a)
  {
  }

  lemma StrLeqAntisymmetric(a: string, b: string)
    requires StrLeq(a, b) && StrLeq(b, a)
    ensures a == b
  {
    if a != "" {
      StrLeqAntisymmetric(a[1..], b[1..]);
      assert a == [a[0]] + a[1..] && b == [b[0]] + b[1..];
    }
  }

  lemma StrLeqTransitive(a: string, b: string, c: string)
    requires StrLeq(a, b) && StrLeq(b, c)
    ensures StrLeq(a, c)
  {
    if a != "" && a[0] == b[0] == c[0] {
      StrLeqTransitive(a[1..], b[1..], c[1..]);
    }
  }

  ghost predicate Total<T(!new)>(leq: (T, T) -> bool) {
    forall x, y :: leq(x, y) || leq(y, x)
  }

  ghost predicate Transitive<T(!new)>(leq: (T, T) -> bool) {
    forall x, y, z :: leq(x, y) && leq(y, z) ==> leq(x, z)
  }

  ghost predicate Sorted<T>(s: seq<T>, leq: (T, T) -> bool) {
    forall i, j :: 0 <= i < j < |s| ==> leq(s[i], s[j])
  }

  function Insert<T>(x: T, s: seq<T>, leq: (T, T) -> bool): seq<T> {
    if s == [] || leq(x, s[0]) then [x] + s else [s[0]] + Insert(x, s[1..], leq)
  }

  /** `sorted(s, key=...)`: an element goes before the later ones it is equivalent to, so the sort is stable. */
  function Sort<T>(s: seq<T>, leq: (T, T) -> bool): seq<T> {
    if s == [] then [] else Insert(s[0], Sort(s[1..], leq), leq)
  }

  lemma {:induction false} InsertKeeps<T(!new)>(x: T, s: seq<T>, leq: (T, T) -> bool)
    requires Total(leq) && Transitive(leq) && Sorted(s, leq)
    ensures Sorted(Insert(x, s, leq), leq)
    ensures multiset(Insert(x, s, leq)) == multiset(s) + multiset{x}
  {
    var r := Insert(x, s, leq);
    if s == [] {
    } else if leq(x, s[0]) {
      forall j | 0 <= j < |s| ensures leq(x, s[j]) {
        assert leq(s[0], s[j]) by { assert leq(s[0], s[0]); }
      }
      assert r == [x] + s;
    } else {
      var t := Insert(x, s[1..], leq);
      InsertKeeps(x, s[1..], leq);
      assert s == [s[0]] + s[1..];
      forall j | 0 <= j < |t| ensures leq(s[0], t[j]) {
        assert t[j] in multiset(t);
        assert t[j] == x || t[j] in s[1..];
      }
      assert r == [s[0]] + t;
    }
  }

  /** The sort is a sorted permutation of its input. */
  lemma {:induction false} SortIsSortedPermutation<T(!new)>(s: seq<T>, leq: (T, T) -> bool)
    requires Total(leq) && Transitive(leq)
    ensures Sorted(Sort(s, leq), leq)
    ensures multiset(Sort(s, leq)) == multiset(s)
    ensures |Sort(s, leq)| == |s|
    ensures forall x :: x in Sort(s, leq) <==> x in s
  {
    if s != [] {
      SortIsSortedPermutation(s[1..], leq);
      InsertKeeps(s[0], Sort(s[1..], leq), leq);
      assert s == [s[0]] + s[1..];
    }
    hide Sort;
    SameMembers(Sort(s, leq), s);
  }

  /** `r` lists `s` in order, equivalent elements as they came: `places[k]` is where element `k` of `r` stood. */
  ghost predicate StablySorted<T>(s: seq<T>, r: seq<T>, places: seq<nat>, leq: (T, T) -> bool) {
    && |places| == |s| == |r| && (forall k :: 0 <= k < |places| ==> places[k] < |s| && r[k] == s[places[k]]) && Distinct(places)
    && forall k, l :: 0 <= k < l < |r| ==> leq(r[k], r[l]) && (leq(r[l], r[k]) ==> places[k] < places[l])
  }

  lemma {:induction false} InsertedAt<T>(x: T, s: seq<T>, leq: (T, T) -> bool) returns (n: nat)
    ensures n <= |s| && Insert(x, s, leq) == s[..n] + [x] + s[n..]
    ensures (forall k :: 0 <= k < n ==> !leq(x, s[k])) && (n < |s| ==> leq(x, s[n]))
  {
    if s == [] || leq(x, s[0]) {
      n := 0;
    } else {
      var m := InsertedAt(x, s[1..], leq);
      n := m + 1;
      assert s[..n] == [s[0]] + s[1..][..m];
    }
  }

  function Shifted(places: seq<nat>): seq<nat> { seq(|places|, k requires 0 <= k < |places| => places[k] + 1) }

  /** The sort is stable. */
  lemma {:induction false} SortIsStable<T(!new)>(s: seq<T>, leq: (T, T) -> bool) returns (places: seq<nat>)
    requires Total(leq) && Transitive(leq)
    ensures StablySorted(s, Sort(s, leq), places, leq)
  {
    if s == [] {
      places := [];
    } else {
      var rest := Sort(s[1..], leq);
      var ps := SortIsStable(s[1..], leq);
      var n := InsertedAt(s[0], rest, leq);
      places := Shifted(ps)[..n] + [0] + Shifted(ps)[n..];
      PlacedFirst(s, rest, ps, n, places, leq);
    }
  }

  /** The elements of the two lists with one more put in at `n`. */
  ghost predicate Spliced<T>(rest: seq<T>, ps: seq<nat>, n: nat, x: T, r: seq<T>, places: seq<nat>) {
    && |ps| == |rest| && |r| == |places| == |rest| + 1 && n <= |rest| && r[n] == x && places[n] == 0
    && (forall k :: 0 <= k < n ==> r[k] == rest[k] && places[k] == ps[k] + 1)
    && (forall k :: n < k < |r| ==> r[k] == rest[k - 1] && places[k] == ps[k - 1] + 1)
  }

  lemma SplicedAt<T>(rest: seq<T>, ps: seq<nat>, n: nat, x: T)
    requires |ps| == |rest| && n <= |rest|
    ensures Spliced(rest, ps, n, x, rest[..n] + [x] + rest[n..], Shifted(ps)[..n] + [0] + Shifted(ps)[n..])
  {
  }

  lemma InOrder<T(!new)>(s: seq<T>, rest: seq<T>, ps: seq<nat>, n: nat, r: seq<T>, places: seq<nat>, leq: (T, T) -> bool, k: nat, l: nat)
    requires Total(leq) && Transitive(leq) && s != [] && StablySorted(s[1..], rest, ps, leq) && Spliced(rest, ps, n, s[0], r, places)
    requires (forall k :: 0 <= k < n ==> !leq(s[0], rest[k])) && (n < |rest| ==> leq(s[0], rest[n]))
    requires k < l < |r|
    ensures places[k] != places[l] && leq(r[k], r[l]) && (leq(r[l], r[k]) ==> places[k] < places[l])
  {
    var a, b := if k < n then k else k - 1, if l < n then l else l - 1;
    if k == n {
      assert leq(rest[n], rest[b]) by { assert leq(rest[n], rest[n]); }
    } else if l == n {
      assert leq(s[0], rest[a]) || leq(rest[a], s[0]);
    }
  }

  lemma PlacedFirst<T(!new)>(s: seq<T>, rest: seq<T>, ps: seq<nat>, n: nat, places: seq<nat>, leq: (T, T) -> bool)
    requires Total(leq) && Transitive(leq) && s != [] && StablySorted(s[1..], rest, ps, leq) && n <= |rest|
    requires (forall k :: 0 <= k < n ==> !leq(s[0], rest[k])) && (n < |rest| ==> leq(s[0], rest[n]))
    requires places == Shifted(ps)[..n] + [0] + Shifted(ps)[n..]
    ensures StablySorted(s, rest[..n] + [s[0]] + rest[n..], places, leq)
  {
    var r := rest[..n] + [s[0]] + rest[n..];
    SplicedAt(rest, ps, n, s[0]);
    hide Shifted, Total, Transitive;
    forall k | 0 <= k < |r| ensures places[k] < |s| && r[k] == s[places[k]] {
      if k != n { assert s[1..][ps[if k < n then k else k - 1]] == r[k]; }
    }
    forall k, l | 0 <= k < l < |r| ensures places[k] != places[l] && leq(r[k], r[l]) && (leq(r[l], r[k]) ==> places[k] < places[l]) {
      InOrder(s, rest, ps, n, r, places, leq, k, l);
    }
  }

  lemma SameMembers<T>(a: seq<T>, b: seq<T>)
    requires multiset(a) == multiset(b)
    ensures |a| == |b| && forall x :: x in a <==> x in b
  {
    assert |multiset(a)| == |multiset(b)|;
    forall x ensures x in a <==> x in b {
      assert x in a <==> x in multiset(a);
      assert x in b <==> x in multiset(b);
    }
  }

  ghost predicate Distinct<T>(s: seq<T>) {
    forall i, j :: 0 <= i < j < |s| ==> s[i] != s[j]
  }

  lemma {:induction false} DistinctOnce<T>(s: seq<T>, x: T)
    requires Distinct(s)
    ensures multiset(s)[x] <= 1
  {
    if s != [] {
      assert s == [s[0]] + s[1..];
      DistinctOnce(s[1..], x);
      assert x == s[0] ==> x !in s[1..];
    }
  }

  lemma CountedTwice<T>(s: seq<T>, i: nat, j: nat)
    requires i < j < |s| && s[i] == s[j]
    ensures multiset(s)[s[i]] >= 2
  {
    assert s == s[..j] + s[j..];
    assert s[..j][i] == s[i] && s[j..][0] == s[i];
  }

  /** A permutation of a list without repeats has no repeats. */
  lemma PermutedDistinct<T>(a: seq<T>, b: seq<T>)
    requires Distinct(a) && multiset(a) == multiset(b)
    ensures Distinct(b)
  {
    forall i, j | 0 <= i < j < |b| ensures b[i] != b[j] {
      DistinctOnce(a, b[i]);
      if b[i] == b[j] { CountedTwice(b, i, j); }
    }
  }

  /** Two sorted listings without repeats of the same elements are the same listing,
      when equivalent elements are equal. */
  lemma {:induction false} SortedListingUnique<T(!new)>(a: seq<T>, b: seq<T>, leq: (T, T) -> bool)
    requires Sorted(a, leq) && Sorted(b, leq) && Distinct(a) && Distinct(b)
    requires forall x :: x in a <==> x in b
    requires forall x, y :: x in a && y in a && leq(x, y) && leq(y, x) ==> x == y
    ensures a == b
  {
    assert b != [] ==> b[0] in a;
    if a != [] {
      assert a[0] in a && a[0] in b && b != [];
      assert b[0] in b && b[0] in a;
      assert a[0] == b[0];
      assert a == [a[0]] + a[1..] && b == [b[0]] + b[1..];
      forall x ensures x in a[1..] <==> x in b[1..] {
        assert x in a <==> x == a[0] || x in a[1..];
        assert x in b <==> x == b[0] || x in b[1..];
        assert a[0] !in a[1..] && b[0] !in b[1..];
      }
      SortedListingUnique(a[1..], b[1..], leq);
    }
  }

  lemma {:induction false} LeastExists(s: set<string>)
    requires s != {}
    ensures exists m :: m in s && forall k :: k in s ==> StrLeq(m, k)
  {
    hide StrLeq;
    var x :| x in s;
    if s == {x} {
      StrLeqTotal(x, x);
      assert forall k :: k in s ==> StrLeq(x, k);
    } else {
      var rest := s - {x};
      assert s == rest + {x};
      LeastExists(rest);
      var m :| m in rest && forall k :: k in rest ==> StrLeq(m, k);
      StrLeqTotal(m, x);
      StrLeqTotal(x, x);
      if StrLeq(m, x) {
        assert m in s && forall k :: k in s ==> StrLeq(m, k);
      } else {
        forall k | k in s ensures StrLeq(x, k) {
          if k != x { StrLeqTransitive(x, m, k); }
        }
      }
    }
  }

  function Least(s: set<string>): (m: string)
    requires s != {}
    ensures m in s && forall k :: k in s ==> StrLeq(m, k)
  {
    LeastExists(s);
    assert forall a, b | (a in s && forall k :: k in s ==> StrLeq(a, k)) && (b in s && forall k :: k in s ==> StrLeq(b, k)) ::
        a == b by {
      forall a, b | (a in s && forall k :: k in s ==> StrLeq(a, k)) && (b in s && forall k :: k in s ==> StrLeq(b, k))
        ensures a == b
      {
        StrLeqAntisymmetric(a, b);
      }
    }
    var m :| m in s && forall k :: k in s ==> StrLeq(m, k);
    m
  }

  /** `sorted(some_set)` of strings. */
  function SortedKeys(s: set<string>): (r: seq<string>)
    ensures forall k :: k in r <==> k in s
    ensures Sorted(r, StrLeq) && Distinct(r)
  {
    if s == {} then []
    else
      var m := Least(s);
      [m] + SortedKeys(s - {m})
  }
}
