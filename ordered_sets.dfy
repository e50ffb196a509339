/** Lists used as insertion-ordered sets: the three handler lists and the two
    subscription ledgers. Adding is "append if absent"; removing is Python's
    `list.remove`, which drops the first equal element. */
module OrderedSets {

  ghost predicate NoDuplicates<T>(s: seq<T>) {
    forall i, j :: 0 <= i < j < |s| ==> s[i] != s[j]
  }

  /** `if x not in s: s.append(x)` */
  function Added<T(==)>(s: seq<T>, x: T): (r: seq<T>)
  {
    if x in s then s else s + [x]
  }

  /** `list.remove(x)` when `x` is present: the first occurrence goes. */
  function RemoveFirst<T(==)>(s: seq<T>, x: T): (r: seq<T>)
  {
    if s == [] then []
    else if s[0] == x then s[1..]
    else [s[0]] + RemoveFirst(s[1..], x)
  }

  /** The elements of `s` other than `x`, in their order in `s`. */
  function Without<T(==)>(s: seq<T>, x: T): (r: seq<T>)
  {
    if s == [] then []
    else if s[0] == x then Without(s[1..], x)
    else [s[0]] + Without(s[1..], x)
  }

  /** Adding keeps the list duplicate-free and its registration order: a
      present element leaves it unchanged, an absent one goes to the end. */
  lemma AddedKeepsOrderAndDistinct<T>(s: seq<T>, x: T)
    requires NoDuplicates(s)
    ensures x in s ==> Added(s, x) == s
    ensures x !in s ==> Added(s, x) == s + [x]
    ensures NoDuplicates(Added(s, x))
    ensures x in Added(s, x)
    ensures forall y :: y in Added(s, x) <==> y in s || y == x
  {
    if x !in s {
      var r := s + [x];
      forall i, j | 0 <= i < j < |r| ensures r[i] != r[j] {
        if j == |s| {
          assert r[i] == s[i];
        }
      }
    }
  }

  /** Removing an absent element is a no-op. */
  lemma {:induction false} RemoveAbsentIsNoop<T>(s: seq<T>, x: T)
    requires x !in s
    ensures RemoveFirst(s, x) == s
  {
    if s != [] {
      RemoveAbsentIsNoop(s[1..], x);
    }
  }

  /** On a duplicate-free list, `list.remove` drops exactly `x` and keeps the
      relative order of everything else. */
  lemma {:induction false} RemoveFirstOfDistinct<T>(s: seq<T>, x: T)
    requires NoDuplicates(s)
    ensures RemoveFirst(s, x) == Without(s, x)
    ensures x !in RemoveFirst(s, x)
    ensures forall y :: y in RemoveFirst(s, x) <==> y in s && y != x
    ensures NoDuplicates(RemoveFirst(s, x))
    ensures x in s ==> |RemoveFirst(s, x)| == |s| - 1
  {
    if s != [] {
      assert NoDuplicates(s[1..]) by {
        forall i, j | 0 <= i < j < |s[1..]| ensures s[1..][i] != s[1..][j] {
          assert s[1..][i] == s[i + 1] && s[1..][j] == s[j + 1];
        }
      }
      RemoveFirstOfDistinct(s[1..], x);
      if s[0] == x {
        assert x !in s[1..] by {
          forall k | 0 <= k < |s[1..]| ensures s[1..][k] != x {
            assert s[1..][k] == s[k + 1];
          }
        }
        RemoveAbsentIsNoop(s[1..], x);
        WithoutAbsent(s[1..], x);
      } else {
        var r := [s[0]] + RemoveFirst(s[1..], x);
        assert s[0] !in s[1..] by {
          forall k | 0 <= k < |s[1..]| ensures s[1..][k] != s[0] {
            assert s[1..][k] == s[k + 1];
          }
        }
        forall i, j | 0 <= i < j < |r| ensures r[i] != r[j] {
          if i == 0 {
            assert r[j] in RemoveFirst(s[1..], x);
          } else {
            assert r[i] == RemoveFirst(s[1..], x)[i - 1];
            assert r[j] == RemoveFirst(s[1..], x)[j - 1];
          }
        }
      }
    }
  }

  /** Filtering out an absent element changes nothing. */
  lemma {:induction false} WithoutAbsent<T>(s: seq<T>, x: T)
    requires x !in s
    ensures Without(s, x) == s
  {
    if s != [] {
      WithoutAbsent(s[1..], x);
    }
  }
}
