/** Shared vocabulary: optional values, the Python exceptions the model
    surfaces, and small facts about integer sequences (ranges, sorting,
    flattening, sums) that several components use. */
module Common {

  datatype Option<T> = None | Some(value: T)

  /** The Python exceptions that the modelled code can raise at run time. */
  datatype PyError = AttributeError | ValueError | IndexError

  /** How a handler ended: normally, or by raising. */
  datatype Status = Completed | Raised(error: PyError)

  /** No id occurs twice. */
  predicate Distinct(s: seq<int>)
  {
    forall i, j :: 0 <= i < j < |s| ==> s[i] != s[j]
  }

  /** Strictly increasing: what `np.sort` gives on distinct ids. */
  predicate StrictlyAscending(s: seq<int>)
  {
    forall i, j :: 0 <= i < j < |s| ==> s[i] < s[j]
  }

  /** Non-decreasing. */
  predicate Ascending(s: seq<int>)
  {
    forall i, j :: 0 <= i < j < |s| ==> s[i] <= s[j]
  }

  /** `np.arange(lo, hi)` / `range(lo, hi)`. */
  function Range(lo: int, hi: int): (r: seq<int>)
    ensures |r| == if lo <= hi then hi - lo else 0
    ensures forall k :: 0 <= k < |r| ==> r[k] == lo + k
    decreases hi - lo
  {
    if lo >= hi then [] else [lo] + Range(lo + 1, hi)
  }

  lemma RangeMembers(lo: int, hi: int)
    ensures forall x :: x in Range(lo, hi) <==> lo <= x < hi
    ensures StrictlyAscending(Range(lo, hi)) && Distinct(Range(lo, hi))
  {
    var r := Range(lo, hi);
    forall x | lo <= x < hi ensures x in r {
      assert r[x - lo] == x;
    }
  }

  lemma StrictImpliesDistinct(s: seq<int>)
    requires StrictlyAscending(s)
    ensures Distinct(s)
  {
  }

  /** The elements of `s`, in order, that differ from `x` (`np.delete` of
      every position where the array equals `x`). */
  function Without(s: seq<int>, x: int): (r: seq<int>)
    ensures forall y :: y in r <==> y in s && y != x
    ensures |r| <= |s|
  {
    if s == [] then []
    else if s[0] == x then Without(s[1..], x)
    else [s[0]] + Without(s[1..], x)
  }

  lemma {:induction false} WithoutDistinct(s: seq<int>, x: int)
    requires Distinct(s)
    ensures Distinct(Without(s, x))
    ensures x in s ==> |Without(s, x)| == |s| - 1
    ensures x !in s ==> Without(s, x) == s
  {
    if s != [] {
      assert Distinct(s[1..]) by {
        forall i, j | 0 <= i < j < |s[1..]| ensures s[1..][i] != s[1..][j] {
          assert s[1..][i] == s[i + 1] && s[1..][j] == s[j + 1];
        }
      }
      WithoutDistinct(s[1..], x);
      assert s[0] !in s[1..] by {
        forall k | 0 <= k < |s[1..]| ensures s[1..][k] != s[0] {
          assert s[1..][k] == s[k + 1];
        }
      }
      if s[0] != x {
        var t := Without(s[1..], x);
        assert s[0] !in t;
        forall i, j | 0 <= i < j < |[s[0]] + t| ensures ([s[0]] + t)[i] != ([s[0]] + t)[j] {
          if i == 0 {
            assert ([s[0]] + t)[j] == t[j - 1];
          } else {
            assert ([s[0]] + t)[i] == t[i - 1] && ([s[0]] + t)[j] == t[j - 1];
          }
        }
        if x !in s {
          assert s == [s[0]] + s[1..];
        }
      }
    }
  }

  /** Inserts `x` into an ascending sequence, before the first larger element. */
  function Insert(x: int, s: seq<int>): (r: seq<int>)
    ensures |r| == |s| + 1
  {
    if s == [] || x <= s[0] then [x] + s else [s[0]] + Insert(x, s[1..])
  }

  /** Insertion sort: the model of `np.sort` on an integer array. */
  function SortAsc(s: seq<int>): (r: seq<int>)
    ensures |r| == |s|
  {
    if s == [] then [] else Insert(s[0], SortAsc(s[1..]))
  }

  lemma {:induction false} InsertMultiset(x: int, s: seq<int>)
    ensures multiset(Insert(x, s)) == multiset{x} + multiset(s)
  {
    if s != [] && x > s[0] {
      InsertMultiset(x, s[1..]);
      assert s == [s[0]] + s[1..];
    }
  }

  /** Every element of `Insert(x, s)` is at least any common lower bound. */
  lemma {:induction false} InsertLowerBound(x: int, s: seq<int>, m: int)
    requires m <= x && forall k :: 0 <= k < |s| ==> m <= s[k]
    ensures forall k :: 0 <= k < |Insert(x, s)| ==> m <= Insert(x, s)[k]
  {
    if s != [] && x > s[0] {
      InsertLowerBound(x, s[1..], m);
    }
  }

  lemma {:induction false} InsertAscending(x: int, s: seq<int>)
    requires Ascending(s)
    ensures Ascending(Insert(x, s))
  {
    if s != [] && x > s[0] {
      var t := Insert(x, s[1..]);
      InsertAscending(x, s[1..]);
      InsertLowerBound(x, s[1..], s[0]);
      var r := [s[0]] + t;
      forall i, j | 0 <= i < j < |r| ensures r[i] <= r[j] {
        if i == 0 {
          assert r[j] == t[j - 1];
        } else {
          assert r[i] == t[i - 1] && r[j] == t[j - 1];
        }
      }
    }
  }

  /** `SortAsc` returns an ascending permutation of its input. */
  lemma {:induction false} SortAscFacts(s: seq<int>)
    ensures Ascending(SortAsc(s))
    ensures multiset(SortAsc(s)) == multiset(s)
    ensures |SortAsc(s)| == |s|
  {
    if s != [] {
      var t := SortAsc(s[1..]);
      SortAscFacts(s[1..]);
      assert SortAsc(s) == Insert(s[0], t);
      InsertAscending(s[0], t);
      InsertMultiset(s[0], t);
      assert s == [s[0]] + s[1..];
      assert multiset(s) == multiset{s[0]} + multiset(s[1..]);
    }
  }

  /** Distinctness is a property of the multiset of a sequence, and
      carries over to any sub-multiset. */
  lemma {:induction false} DistinctByMultiset(s: seq<int>, t: seq<int>)
    requires multiset(t) <= multiset(s) && Distinct(s)
    ensures Distinct(t)
  {
    forall i, j | 0 <= i < j < |t| ensures t[i] != t[j] {
      if t[i] == t[j] {
        var x := t[i];
        assert multiset(t)[x] >= 2 by {
          var rest := t[..i] + t[i + 1..];
          assert t == t[..i] + [t[i]] + t[i + 1..];
          assert multiset(t) == multiset(rest) + multiset{x};
          assert rest[j - 1] == x;
          assert x in multiset(rest);
        }
        DistinctCountsOne(s, x);
      }
    }
  }

  lemma {:induction false} DistinctCountsOne(s: seq<int>, x: int)
    requires Distinct(s)
    ensures multiset(s)[x] <= 1
  {
    if s != [] {
      assert s == [s[0]] + s[1..];
      assert Distinct(s[1..]) by {
        forall i, j | 0 <= i < j < |s[1..]| ensures s[1..][i] != s[1..][j] {
          assert s[1..][i] == s[i + 1] && s[1..][j] == s[j + 1];
        }
      }
      DistinctCountsOne(s[1..], x);
      if s[0] == x {
        assert x !in s[1..] by {
          forall k | 0 <= k < |s[1..]| ensures s[1..][k] != x {
            assert s[1..][k] == s[k + 1];
          }
        }
      }
    }
  }

  /** Sorting distinct ids gives a strictly increasing sequence with the same
      elements. */
  lemma SortDistinct(s: seq<int>)
    requires Distinct(s)
    ensures StrictlyAscending(SortAsc(s))
    ensures forall x :: x in SortAsc(s) <==> x in s
    ensures |SortAsc(s)| == |s|
  {
    SortAscFacts(s);
    DistinctByMultiset(s, SortAsc(s));
    var r := SortAsc(s);
    forall x ensures x in r <==> x in s {
      assert x in r <==> x in multiset(r);
      assert x in s <==> x in multiset(s);
    }
  }

  lemma ConcatAssoc<T>(a: seq<T>, b: seq<T>, c: seq<T>)
    ensures a + b + c == a + (b + c)
  {
  }

  /** `np.array(lists).flatten()` for lists of equal length: concatenation. */
  function Flatten(xss: seq<seq<int>>): (r: seq<int>)
    ensures forall xs, x :: xs in xss && x in xs ==> x in r
    ensures forall x :: x in r ==> exists xs :: xs in xss && x in xs
  {
    if xss == [] then [] else xss[0] + Flatten(xss[1..])
  }

  function Sum(s: seq<int>): int
  {
    if s == [] then 0 else Sum(s[..|s| - 1]) + s[|s| - 1]
  }

  /** Overwriting one entry changes the sum by the difference. */
  lemma {:induction false} SumUpdate(s: seq<int>, i: int, v: int)
    requires 0 <= i < |s|
    ensures Sum(s[i := v]) == Sum(s) - s[i] + v
    decreases |s|
  {
    var t := s[i := v];
    if i == |s| - 1 {
      assert t[..|t| - 1] == s[..|s| - 1];
    } else {
      assert t[..|t| - 1] == s[..|s| - 1][i := v];
      SumUpdate(s[..|s| - 1], i, v);
    }
  }
}
