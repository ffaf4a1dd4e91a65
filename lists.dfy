/** Sequence operations the application performs through JavaScript's built-ins:
    `String.prototype.includes`, `Array.prototype.filter` with `!==`, and the
    insertion-ordered `Set` used to remove duplicates. */
module Lists {

  // ---------------------------------------------------------------------------
  // Substring containment (`s.includes(sub)`)
  // ---------------------------------------------------------------------------

  /** `s.includes(sub)`: `sub` occurs in `s` as a contiguous block. */
  predicate Includes<T(==, !new)>(s: seq<T>, sub: seq<T>): (r: bool)
    ensures r ==> |sub| <= |s|
    ensures r && |sub| == |s| ==> s == sub
    decreases |s|
  {
    sub <= s || (|s| > 0 && Includes(s[1..], sub))
  }

  /** Reference definition of an occurrence: `sub` starts at index `i` of `s`. */
  ghost predicate OccursAt<T>(s: seq<T>, sub: seq<T>, i: int)
  {
    0 <= i && i + |sub| <= |s| && s[i..i + |sub|] == sub
  }

  /** The scanning definition agrees with "there is an index where `sub` starts". */
  lemma {:induction false} IncludesIffOccurs<T(!new)>(s: seq<T>, sub: seq<T>)
    ensures Includes(s, sub) <==> exists i :: OccursAt(s, sub, i)
    decreases |s|
  {
    if |s| > 0 {
      IncludesIffOccurs(s[1..], sub);
      forall i | OccursAt(s[1..], sub, i) ensures OccursAt(s, sub, i + 1) {
        assert s[1..][i..i + |sub|] == s[i + 1..i + 1 + |sub|];
      }
      forall i | OccursAt(s, sub, i) && i > 0 ensures OccursAt(s[1..], sub, i - 1) {
        assert s[1..][i - 1..i - 1 + |sub|] == s[i..i + |sub|];
      }
    }
    assert OccursAt(s, sub, 0) <==> sub <= s by {
      if sub <= s {
        assert s[0..|sub|] == sub;
      }
    }
  }

  /** Every sequence includes the empty sequence (`s.includes('')` is true). */
  lemma IncludesEmpty<T(!new)>(s: seq<T>)
    ensures Includes(s, [])
  {
  }

  /** A sequence shorter than `sub` cannot include it. */
  lemma {:induction false} ShorterExcludes<T(!new)>(s: seq<T>, sub: seq<T>)
    requires |s| < |sub|
    ensures !Includes(s, sub)
    decreases |s|
  {
    if |s| > 0 {
      ShorterExcludes(s[1..], sub);
    }
  }

  // ---------------------------------------------------------------------------
  // Order-preserving deletion (`xs.filter(y => y !== x)`)
  // ---------------------------------------------------------------------------

  /** `s.filter(y => y !== x)`. */
  function Without<T(==, !new)>(s: seq<T>, x: T): (r: seq<T>)
    ensures |r| <= |s|
    ensures forall y :: y in r <==> y in s && y != x
  {
    if s == [] then []
    else (if s[0] == x then [] else [s[0]]) + Without(s[1..], x)
  }

  /** `a` is obtained from `b` by deleting elements: order is kept. */
  predicate IsSubsequence<T(==, !new)>(a: seq<T>, b: seq<T>)
    decreases |b|
  {
    if a == [] then true
    else if b == [] then false
    else (a[0] == b[0] && IsSubsequence(a[1..], b[1..])) || IsSubsequence(a, b[1..])
  }

  predicate NoDuplicates<T(==, !new)>(s: seq<T>)
  {
    forall i, j :: 0 <= i < j < |s| ==> s[i] != s[j]
  }

  /** Deleting every `x` keeps the other elements in their original order. */
  lemma {:induction false} WithoutIsSubsequence<T(!new)>(s: seq<T>, x: T)
    ensures IsSubsequence(Without(s, x), s)
  {
    if s != [] {
      WithoutIsSubsequence(s[1..], x);
      var w := Without(s, x);
      if s[0] != x {
        assert w == [s[0]] + Without(s[1..], x);
        assert w[0] == s[0] && w[1..] == Without(s[1..], x);
        assert IsSubsequence(w, s);
      } else {
        assert w == Without(s[1..], x);
        SubsequenceDropHead(w, s);
      }
    }
  }

  /** Deleting every `x` removes all of its occurrences and keeps the number of
      occurrences of every other element. */
  lemma {:induction false} WithoutCounts<T(!new)>(s: seq<T>, x: T)
    ensures multiset(Without(s, x)) == multiset(s)[x := 0]
  {
    if s != [] {
      WithoutCounts(s[1..], x);
      var t := Without(s[1..], x);
      assert s == [s[0]] + s[1..];
      assert multiset(s) == multiset{s[0]} + multiset(s[1..]);
      if s[0] == x {
        assert Without(s, x) == t;
        assert multiset(s)[x := 0] == multiset(s[1..])[x := 0];
      } else {
        assert Without(s, x) == [s[0]] + t;
        assert multiset(Without(s, x)) == multiset{s[0]} + multiset(t);
        assert multiset(s)[x := 0] == multiset{s[0]} + multiset(s[1..])[x := 0];
      }
    }
  }

  /** Dropping a value from a sequence that ends with it drops that last
      element too. */
  lemma {:induction false} WithoutAppend<T(!new)>(s: seq<T>, x: T)
    ensures Without(s + [x], x) == Without(s, x)
  {
    if s == [] {
      assert Without([x][1..], x) == [];
    } else {
      assert (s + [x])[1..] == s[1..] + [x];
      WithoutAppend(s[1..], x);
    }
  }

  /** When `x` does not occur, deleting it changes nothing. */
  lemma {:induction false} WithoutAbsent<T(!new)>(s: seq<T>, x: T)
    requires x !in s
    ensures Without(s, x) == s
  {
    if s != [] {
      WithoutAbsent(s[1..], x);
      assert s == [s[0]] + s[1..];
    }
  }

  lemma SubsequenceDropHead<T(!new)>(a: seq<T>, b: seq<T>)
    requires b != [] && IsSubsequence(a, b[1..])
    ensures IsSubsequence(a, b)
  {
  }

  /** Every element of a subsequence is an element of the whole. */
  lemma {:induction false} SubsequenceElements<T(!new)>(a: seq<T>, b: seq<T>)
    requires IsSubsequence(a, b)
    ensures forall x :: x in a ==> x in b
    decreases |b|
  {
    if a != [] {
      if a[0] == b[0] && IsSubsequence(a[1..], b[1..]) {
        SubsequenceElements(a[1..], b[1..]);
        assert a == [a[0]] + a[1..];
      } else {
        SubsequenceElements(a, b[1..]);
      }
    }
  }

  /** A subsequence of a duplicate-free sequence is duplicate-free. */
  lemma {:induction false} SubsequenceOfDistinct<T(!new)>(a: seq<T>, b: seq<T>)
    requires IsSubsequence(a, b) && NoDuplicates(b)
    ensures NoDuplicates(a)
    decreases |b|
  {
    if a != [] {
      assert NoDuplicates(b[1..]) by {
        forall i, j | 0 <= i < j < |b[1..]| ensures b[1..][i] != b[1..][j] {
          assert b[1..][i] == b[i + 1] && b[1..][j] == b[j + 1];
        }
      }
      if a[0] == b[0] && IsSubsequence(a[1..], b[1..]) {
        SubsequenceOfDistinct(a[1..], b[1..]);
        SubsequenceElements(a[1..], b[1..]);
        forall j | 0 < j < |a| ensures a[0] != a[j] {
          assert a[j] == a[1..][j - 1];
          assert a[j] in b[1..];
          var k :| 0 <= k < |b[1..]| && b[1..][k] == a[j];
          assert b[k + 1] == a[j];
        }
      } else {
        SubsequenceOfDistinct(a, b[1..]);
      }
    }
  }

  /** Subsequences combine piecewise over concatenation. */
  lemma {:induction false} SubsequenceConcat<T(!new)>(a1: seq<T>, b1: seq<T>, a2: seq<T>, b2: seq<T>)
    requires IsSubsequence(a1, b1) && IsSubsequence(a2, b2)
    ensures IsSubsequence(a1 + a2, b1 + b2)
    decreases |b1|
  {
    if a1 == [] {
      assert a1 + a2 == a2;
      SubsequenceUnderPrefix(a2, b1, b2);
    } else {
      assert (a1 + a2)[0] == a1[0] && (b1 + b2)[0] == b1[0];
      assert (b1 + b2)[1..] == b1[1..] + b2;
      if a1[0] == b1[0] && IsSubsequence(a1[1..], b1[1..]) {
        assert (a1 + a2)[1..] == a1[1..] + a2;
        SubsequenceConcat(a1[1..], b1[1..], a2, b2);
      } else {
        SubsequenceConcat(a1, b1[1..], a2, b2);
      }
    }
  }

  lemma {:induction false} SubsequenceUnderPrefix<T(!new)>(a: seq<T>, c: seq<T>, b: seq<T>)
    requires IsSubsequence(a, b)
    ensures IsSubsequence(a, c + b)
    decreases |c|
  {
    if c != [] {
      SubsequenceUnderPrefix(a, c[1..], b);
      assert (c + b)[1..] == c[1..] + b;
      SubsequenceDropHead(a, c + b);
    } else {
      assert c + b == b;
    }
  }

  // ---------------------------------------------------------------------------
  // Duplicate removal through an insertion-ordered set (`[...new Set(xs)]`)
  // ---------------------------------------------------------------------------

  /** Adds the elements of `s`, left to right, to the ordered set `acc`:
      an element already present is skipped, a new one goes at the end. */
  function AddAll<T(==, !new)>(acc: seq<T>, s: seq<T>): (r: seq<T>)
    ensures acc <= r
    ensures forall y :: y in r <==> y in acc || y in s
    ensures NoDuplicates(acc) ==> NoDuplicates(r)
    decreases |s|
  {
    if s == [] then acc
    else AddAll(if s[0] in acc then acc else acc + [s[0]], s[1..])
  }

  /** `[...new Set(s)]`. */
  function Dedup<T(==, !new)>(s: seq<T>): (r: seq<T>)
    ensures NoDuplicates(r)
    ensures forall y :: y in r <==> y in s
  {
    AddAll([], s)
  }

  /** Independent reference for duplicate removal: keep the first element and
      remove its later copies, then continue with the rest. */
  ghost function Nub<T(!new)>(s: seq<T>): seq<T>
    decreases |s|
  {
    if s == [] then [] else [s[0]] + Nub(Without(s[1..], s[0]))
  }

  /** `s.filter(y => !acc.includes(y))`. */
  function Unseen<T(==, !new)>(s: seq<T>, acc: seq<T>): (r: seq<T>)
    ensures forall y :: y in r <==> y in s && y !in acc
  {
    if s == [] then []
    else (if s[0] in acc then [] else [s[0]]) + Unseen(s[1..], acc)
  }

  lemma {:induction false} UnseenExtend<T(!new)>(s: seq<T>, acc: seq<T>, x: T)
    ensures Without(Unseen(s, acc), x) == Unseen(s, acc + [x])
  {
    if s != [] {
      UnseenExtend(s[1..], acc, x);
      var u := Unseen(s, acc);
      if s[0] in acc {
        assert u == Unseen(s[1..], acc);
      } else {
        assert u == [s[0]] + Unseen(s[1..], acc);
        assert u[1..] == Unseen(s[1..], acc);
      }
    }
  }

  /** Inserting into an ordered set appends, in order, the first occurrences of
      the elements not yet present. */
  lemma {:induction false} AddAllIsNub<T(!new)>(acc: seq<T>, s: seq<T>)
    ensures AddAll(acc, s) == acc + Nub(Unseen(s, acc))
    decreases |s|
  {
    if s == [] {
    } else if s[0] in acc {
      AddAllIsNub(acc, s[1..]);
      assert Unseen(s, acc) == Unseen(s[1..], acc);
    } else {
      AddAllIsNub(acc + [s[0]], s[1..]);
      AddAllIsNubFresh(acc, s);
    }
  }

  /** The step of `AddAllIsNub` for a first element not yet present. */
  lemma AddAllIsNubFresh<T(!new)>(acc: seq<T>, s: seq<T>)
    requires s != [] && s[0] !in acc
    requires AddAll(acc + [s[0]], s[1..]) == acc + [s[0]] + Nub(Unseen(s[1..], acc + [s[0]]))
    ensures AddAll(acc, s) == acc + Nub(Unseen(s, acc))
  {
    var x, t := s[0], s[1..];
    UnseenExtend(t, acc, x);
    NubCons(x, Unseen(t, acc));
    ConcatAssoc(acc, [x], Nub(Without(Unseen(t, acc), x)));
  }

  lemma ConcatAssoc<T>(a: seq<T>, b: seq<T>, c: seq<T>)
    ensures a + b + c == a + (b + c)
  {
  }

  lemma NubCons<T(!new)>(x: T, v: seq<T>)
    ensures Nub([x] + v) == [x] + Nub(Without(v, x))
  {
    assert ([x] + v)[0] == x && ([x] + v)[1..] == v;
  }

  lemma UnseenNothing<T(!new)>(s: seq<T>)
    ensures Unseen(s, []) == s
  {
  }

  /** The Set-based duplicate removal keeps exactly the first occurrence of
      every element, in the order of first occurrence. */
  lemma DedupIsNub<T(!new)>(s: seq<T>)
    ensures Dedup(s) == Nub(s)
  {
    AddAllIsNub([], s);
    UnseenNothing(s);
  }

  /** A sequence with no duplicates passes through the set unchanged. */
  lemma {:induction false} AddAllDistinct<T(!new)>(acc: seq<T>, s: seq<T>)
    requires NoDuplicates(acc + s)
    ensures AddAll(acc, s) == acc + s
    decreases |s|
  {
    if s != [] {
      assert (acc + s)[|acc|] == s[0];
      assert s[0] !in acc by {
        forall i | 0 <= i < |acc| ensures acc[i] != s[0] {
          assert (acc + s)[i] == acc[i];
        }
      }
      assert acc + s == (acc + [s[0]]) + s[1..];
      AddAllDistinct(acc + [s[0]], s[1..]);
    }
  }

  lemma DedupDistinct<T(!new)>(s: seq<T>)
    requires NoDuplicates(s)
    ensures Dedup(s) == s
  {
    AddAllDistinct([], s);
  }

  /** Adding elements that are all present already changes nothing. */
  lemma {:induction false} AddAllPresent<T(!new)>(acc: seq<T>, s: seq<T>)
    requires forall y :: y in s ==> y in acc
    ensures AddAll(acc, s) == acc
    decreases |s|
  {
    if s != [] {
      AddAllPresent(acc, s[1..]);
    }
  }

  /** Inserting `a + b` is inserting `a`, then `b`. */
  lemma {:induction false} AddAllConcat<T(!new)>(acc: seq<T>, a: seq<T>, b: seq<T>)
    ensures AddAll(acc, a + b) == AddAll(AddAll(acc, a), b)
    decreases |a|
  {
    if a == [] {
      assert a + b == b;
    } else {
      assert (a + b)[0] == a[0] && (a + b)[1..] == a[1..] + b;
      AddAllConcat(if a[0] in acc then acc else acc + [a[0]], a[1..], b);
    }
  }

  /** `[...new Set([...prev, ...more])]`: duplicate-free, the union of both,
      the de-duplicated `prev` first, and stable when `more` is added again. */
  lemma UnionDedup<T(!new)>(prev: seq<T>, more: seq<T>)
    ensures NoDuplicates(Dedup(prev + more))
    ensures forall y :: y in Dedup(prev + more) <==> y in prev || y in more
    ensures Dedup(prev) <= Dedup(prev + more)
    ensures NoDuplicates(prev) ==> prev <= Dedup(prev + more)
    ensures Dedup(Dedup(prev + more) + more) == Dedup(prev + more)
  {
    var r := Dedup(prev + more);
    AddAllConcat([], prev, more);
    if NoDuplicates(prev) {
      DedupDistinct(prev);
    }
    AddAllConcat([], r, more);
    DedupDistinct(r);
    AddAllPresent(r, more);
  }
}
