/** First-match search, replacement and occurrence counting on sequences. */
module Search {
  import opened Wrappers

  predicate OccursAt<T(==)>(s: seq<T>, pat: seq<T>, i: int) {
    0 <= i && i + |pat| <= |s| && s[i..i + |pat|] == pat
  }

  lemma OccursElement<T>(s: seq<T>, pat: seq<T>, i: int, k: nat)
    requires k < |pat|
    ensures OccursAt(s, pat, i) ==> i + k < |s| && s[i + k] == pat[k]
  {
    if OccursAt(s, pat, i) {
      assert s[i + k] == s[i..i + |pat|][k];
    }
  }

  /** First position at or after `from` at which `pat` occurs, as the library searches do. */
  function FindFrom<T(==)>(s: seq<T>, pat: seq<T>, from: nat): (r: Option<nat>)
    ensures r.Some? ==> from <= r.value && OccursAt(s, pat, r.value)
    decreases |s| - from
  {
    if from + |pat| > |s| then None
    else if OccursAt(s, pat, from) then Some(from)
    else FindFrom(s, pat, from + 1)
  }

  function Find<T(==)>(s: seq<T>, pat: seq<T>): (r: Option<nat>)
    ensures r.Some? ==> OccursAt(s, pat, r.value)
  {
    FindFrom(s, pat, 0)
  }

  predicate Contains<T(==)>(s: seq<T>, pat: seq<T>) {
    Find(s, pat).Some?
  }

  ghost predicate IsFirst<T>(s: seq<T>, pat: seq<T>, from: nat, k: nat) {
    from <= k && OccursAt(s, pat, k) && forall i :: from <= i < k ==> !OccursAt(s, pat, i)
  }

  lemma {:induction false} FindFromIsFirst<T>(s: seq<T>, pat: seq<T>, from: nat)
    ensures match FindFrom(s, pat, from)
            case Some(k) => IsFirst(s, pat, from, k)
            case None => forall i :: from <= i ==> !OccursAt(s, pat, i)
    decreases |s| - from
  {
    if from + |pat| <= |s| && !OccursAt(s, pat, from) {
      FindFromIsFirst(s, pat, from + 1);
    }
  }

  lemma FindIs<T>(s: seq<T>, pat: seq<T>, k: nat)
    requires IsFirst(s, pat, 0, k)
    ensures Find(s, pat) == Some(k)
  {
    FindFromIsFirst(s, pat, 0);
  }

  lemma ContainsIff<T>(s: seq<T>, pat: seq<T>)
    ensures Contains(s, pat) <==> exists i :: OccursAt(s, pat, i)
  {
    FindFromIsFirst(s, pat, 0);
  }

  /** How many positions `pat` occurs at, overlaps included. */
  function Count<T(==)>(s: seq<T>, pat: seq<T>): nat {
    if s == [] then 0
    else Count(s[1..], pat) + (if OccursAt(s, pat, 0) then 1 else 0)
  }

  /** Past the first position, `s` and its tail have the same occurrences. */
  lemma OccursInTail<T>(s: seq<T>, pat: seq<T>, i: int)
    requires s != [] && i >= 1
    ensures OccursAt(s, pat, i) <==> OccursAt(s[1..], pat, i - 1)
  {
    if i + |pat| <= |s| {
      assert s[1..][i - 1..i - 1 + |pat|] == s[i..i + |pat|];
    }
  }

  lemma {:induction false} CountZeroIff<T>(s: seq<T>, pat: seq<T>)
    requires pat != []
    ensures Count(s, pat) == 0 <==> forall i :: !OccursAt(s, pat, i)
  {
    if s != [] {
      CountZeroIff(s[1..], pat);
      forall i | i >= 1 ensures OccursAt(s, pat, i) <==> OccursAt(s[1..], pat, i - 1) {
        OccursInTail(s, pat, i);
      }
      forall i | i >= 0 ensures OccursAt(s[1..], pat, i) <==> OccursAt(s, pat, i + 1) {
        OccursInTail(s, pat, i + 1);
      }
    }
  }

  /** No occurrence of `pat` straddles the cut between `a` and `b`. */
  ghost predicate CleanCut<T>(a: seq<T>, b: seq<T>, pat: seq<T>) {
    forall i :: i < |a| < i + |pat| ==> !OccursAt(a + b, pat, i)
  }

  lemma {:induction false} CountAcrossCut<T>(a: seq<T>, b: seq<T>, pat: seq<T>)
    requires pat != [] && CleanCut(a, b, pat)
    ensures Count(a + b, pat) == Count(a, pat) + Count(b, pat)
  {
    if a == [] {
      assert a + b == b;
    } else {
      var rest := a[1..];
      assert (a + b)[1..] == rest + b;
      assert CleanCut(rest, b, pat) by {
        forall i | i < |rest| < i + |pat| ensures !OccursAt(rest + b, pat, i) {
          if OccursAt(rest + b, pat, i) {
            assert (a + b)[i + 1..i + 1 + |pat|] == (rest + b)[i..i + |pat|];
            assert OccursAt(a + b, pat, i + 1);
          }
        }
      }
      CountAcrossCut(rest, b, pat);
      assert OccursAt(a + b, pat, 0) <==> OccursAt(a, pat, 0) by {
        if |pat| <= |a| {
          assert (a + b)[..|pat|] == a[..|pat|];
        }
      }
    }
  }
}
