/** Counting facts about finite sets that several components need. */
module Sets {
  lemma Member<T>(s: set<T>) returns (x: T)
    requires s != {}
    ensures x in s
  {
    x :| x in s;
  }

  lemma SubsetIsNoLarger<T>(small: set<T>, big: set<T>)
    requires small <= big
    ensures |small| <= |big|
  {
    assert small + (big - small) == big;
  }

  lemma ProperSubsetIsSmaller<T>(small: set<T>, big: set<T>, missing: T)
    requires small <= big && missing in big && missing !in small
    ensures |small| < |big|
  {
    SubsetIsNoLarger(small, big - {missing});
  }

  /** Two sets that differ at most in one element. */
  lemma OneElementChange<T>(before: set<T>, after: set<T>, x: T)
    requires before - {x} == after - {x}
    ensures |after| == |before| + (if x in after then 1 else 0) - (if x in before then 1 else 0)
  {
    var others := before - {x};
    assert before == if x in before then others + {x} else others;
    assert after == if x in after then others + {x} else others;
  }

  /** A set that gains one new element, or nothing. */
  lemma OneMoreElement<T>(before: set<T>, after: set<T>, x: T, gained: bool)
    requires forall y :: y in after <==> y in before || (gained && y == x)
    requires gained ==> x !in before
    ensures |after| == |before| + (if gained then 1 else 0)
  {
    assert after == if gained then before + {x} else before;
  }

  /** The numbers below n. */
  function Below(n: nat): (numbers: set<nat>)
    ensures |numbers| == n && forall i: nat :: i in numbers <==> i < n
  {
    if n == 0 then {} else Below(n - 1) + {n - 1}
  }

  /** Indices with pairwise different images number no more than the images. */
  lemma {:induction false} DistinctImagesCount(indices: set<nat>, image: nat -> int, images: set<int>)
    requires forall i :: i in indices ==> image(i) in images
    requires forall i, j :: i in indices && j in indices && image(i) == image(j) ==> i == j
    ensures |indices| <= |images|
    decreases |indices|
  {
    if indices != {} {
      var i :| i in indices;
      DistinctImagesCount(indices - {i}, image, images - {image(i)});
    }
  }
}
