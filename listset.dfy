/**
  Lists used as sets by the pages: selected skills, liked, saved and hired posts.
  Every one of them is updated by the same toggle: `list.includes(x) ? list.filter(i => i !== x)
  : [...list, x]`.
*/
module ListSet {

  /** `xs` occurs in `ys` in order, possibly with gaps. */
  predicate IsSubsequence<T(==)>(xs: seq<T>, ys: seq<T>)
  {
    if xs == [] then true
    else if ys == [] then false
    else (xs[0] == ys[0] && IsSubsequence(xs[1..], ys[1..])) || IsSubsequence(xs, ys[1..])
  }

  predicate NoDup<T(==)>(xs: seq<T>)
  {
    forall i, j :: 0 <= i < j < |xs| ==> xs[i] != xs[j]
  }

  /** `xs.filter(i => i !== x)`: every occurrence of `x` goes, the rest keeps its order. */
  function Remove<T(==)>(xs: seq<T>, x: T): (r: seq<T>)
    ensures multiset(r) == multiset(xs)[x := 0]
    ensures IsSubsequence(r, xs)
  {
    if xs == [] then []
    else if xs[0] == x then
      var rest := Remove(xs[1..], x);
      assert xs == [xs[0]] + xs[1..];
      rest
    else
      var rest := Remove(xs[1..], x);
      assert xs == [xs[0]] + xs[1..];
      [xs[0]] + rest
  }

  /** The toggle every page applies to its selection lists. */
  function Toggle<T(==)>(xs: seq<T>, x: T): seq<T>
  {
    if x in xs then Remove(xs, x) else xs + [x]
  }

  lemma {:induction false} SubsequenceMembers<T>(xs: seq<T>, ys: seq<T>, y: T)
    requires IsSubsequence(xs, ys)
    ensures y in xs ==> y in ys
  {
    if xs != [] {
      if xs[0] == ys[0] && IsSubsequence(xs[1..], ys[1..]) {
        SubsequenceMembers(xs[1..], ys[1..], y);
      } else {
        SubsequenceMembers(xs, ys[1..], y);
      }
    }
  }

  lemma {:induction false} SubsequenceNoDup<T>(xs: seq<T>, ys: seq<T>)
    requires IsSubsequence(xs, ys) && NoDup(ys)
    ensures NoDup(xs)
  {
    if xs != [] {
      assert NoDup(ys[1..]) by {
        forall i, j | 0 <= i < j < |ys| - 1 ensures ys[1..][i] != ys[1..][j] {
          assert ys[1..][i] == ys[i + 1] && ys[1..][j] == ys[j + 1];
        }
      }
      if xs[0] == ys[0] && IsSubsequence(xs[1..], ys[1..]) {
        SubsequenceNoDup(xs[1..], ys[1..]);
        SubsequenceMembers(xs[1..], ys[1..], xs[0]);
        assert xs[0] !in ys[1..] by {
          forall k | 0 <= k < |ys| - 1 ensures ys[1..][k] != ys[0] {
            assert ys[1..][k] == ys[k + 1];
          }
        }
        forall i, j | 0 <= i < j < |xs| ensures xs[i] != xs[j] {
          if i == 0 {
            assert xs[j] == xs[1..][j - 1];
          } else {
            assert xs[i] == xs[1..][i - 1] && xs[j] == xs[1..][j - 1];
          }
        }
      } else {
        SubsequenceNoDup(xs, ys[1..]);
      }
    }
  }

  /**
    Toggling flips the membership of `x` and of nothing else. When `x` was absent it is
    appended at the end behind the untouched old list; when present, every occurrence goes and
    the remaining entries keep their relative order and multiplicities.
  */
  lemma ToggleSpec<T>(xs: seq<T>, x: T)
    ensures x in Toggle(xs, x) <==> x !in xs
    ensures forall y :: y != x ==> (y in Toggle(xs, x) <==> y in xs)
    ensures x !in xs ==> |Toggle(xs, x)| == |xs| + 1 && Toggle(xs, x)[..|xs|] == xs && Toggle(xs, x)[|xs|] == x
    ensures x in xs ==> IsSubsequence(Toggle(xs, x), xs) && multiset(Toggle(xs, x)) == multiset(xs)[x := 0]
  {
    if x in xs {
      var r := Remove(xs, x);
      assert x !in multiset(r);
      forall y | y != x ensures y in r <==> y in xs {
        assert y in r <==> y in multiset(r);
        assert y in xs <==> y in multiset(xs);
      }
    }
  }

  /** A duplicate-free list stays duplicate-free under toggling. */
  lemma ToggleKeepsNoDup<T>(xs: seq<T>, x: T)
    requires NoDup(xs)
    ensures NoDup(Toggle(xs, x))
  {
    if x in xs {
      SubsequenceNoDup(Remove(xs, x), xs);
    } else {
      var r := xs + [x];
      forall i, j | 0 <= i < j < |r| ensures r[i] != r[j] {
        if j == |xs| { assert r[i] == xs[i]; }
      }
    }
  }

  lemma {:induction false} RemoveAbsent<T>(xs: seq<T>, x: T)
    requires x !in xs
    ensures Remove(xs, x) == xs
  {
    if xs != [] {
      assert x !in xs[1..];
      RemoveAbsent(xs[1..], x);
      assert xs == [xs[0]] + xs[1..];
    }
  }

  lemma {:induction false} RemoveAppend<T>(xs: seq<T>, ys: seq<T>, x: T)
    ensures Remove(xs + ys, x) == Remove(xs, x) + Remove(ys, x)
  {
    if xs != [] {
      assert (xs + ys)[1..] == xs[1..] + ys;
      RemoveAppend(xs[1..], ys, x);
    } else {
      assert xs + ys == ys;
    }
  }

  lemma {:induction false} NoDupOccursOnce<T>(xs: seq<T>, x: T)
    requires NoDup(xs) && x in xs
    ensures multiset(xs)[x] == 1
  {
    assert xs == [xs[0]] + xs[1..];
    assert NoDup(xs[1..]) by {
      forall i, j | 0 <= i < j < |xs| - 1 ensures xs[1..][i] != xs[1..][j] {
        assert xs[1..][i] == xs[i + 1] && xs[1..][j] == xs[j + 1];
      }
    }
    if xs[0] == x {
      assert x !in xs[1..] by {
        forall k | 0 <= k < |xs| - 1 ensures xs[1..][k] != x { assert xs[1..][k] == xs[k + 1]; }
      }
    } else {
      NoDupOccursOnce(xs[1..], x);
    }
  }

  /**
    Toggling the same item twice restores the list's membership and multiplicities; when the
    item was absent it restores the list exactly.
  */
  lemma ToggleTwice<T>(xs: seq<T>, x: T)
    requires NoDup(xs)
    ensures multiset(Toggle(Toggle(xs, x), x)) == multiset(xs)
    ensures x !in xs ==> Toggle(Toggle(xs, x), x) == xs
  {
    if x in xs {
      var r := Remove(xs, x);
      assert x !in multiset(r);
      assert Toggle(Toggle(xs, x), x) == r + [x];
      NoDupOccursOnce(xs, x);
    } else {
      RemoveAppend(xs, [x], x);
      RemoveAbsent(xs, x);
      assert Remove([x], x) == [];
    }
  }

  /** Appending an absent element keeps a list free of duplicates. */
  lemma NoDupAppend<T>(xs: seq<T>, x: T)
    requires NoDup(xs) && x !in xs
    ensures NoDup(xs + [x])
  {
    var ys := xs + [x];
    forall i, j | 0 <= i < j < |ys| ensures ys[i] != ys[j] {
      if j == |xs| {
        assert ys[i] == xs[i];
      } else {
        assert ys[i] == xs[i] && ys[j] == xs[j];
      }
    }
  }
}
