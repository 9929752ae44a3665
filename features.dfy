/**
 The fixed, ordered feature set the scaler and the clustering model were fitted
 on, and the list of candidates offered for the second feature once the first
 one is chosen.
 */
module Features {

  /** Column names, in the column order of every input row. */
  const AllFeatures: seq<string> := [
    "acousticness", "danceability", "energy", "instrumentalness", "liveness",
    "loudness", "speechiness", "tempo", "valence", "popularity"
  ]

  /** Number of columns of an input row. */
  const FeatureCount: nat := |AllFeatures|

  predicate Distinct(s: seq<string>) {
    forall i, j :: 0 <= i < j < |s| ==> s[i] != s[j]
  }

  /** The feature set has ten pairwise-distinct names. */
  lemma AllFeaturesDistinct()
    ensures FeatureCount == 10
    ensures Distinct(AllFeatures)
  {
    forall i, j | 0 <= i < j < |AllFeatures|
      ensures AllFeatures[i] != AllFeatures[j]
    {
      var a, b := AllFeatures[i], AllFeatures[j];
      assert |a| != |b| || a[0] != b[0] || a[1] != b[1];
    }
  }

  /** Position of the first occurrence of `x` in `s`. */
  function IndexIn(s: seq<string>, x: string): (i: nat)
    requires x in s
    ensures i < |s| && s[i] == x
    ensures x !in s[..i]
  {
    if s[0] == x then 0
    else
      var j := IndexIn(s[1..], x);
      assert s[..1 + j] == [s[0]] + s[1..][..j];
      1 + j
  }

  /** Column of feature `f` in an input row. */
  function ColumnIndex(f: string): (i: nat)
    requires f in AllFeatures
    ensures i < FeatureCount && AllFeatures[i] == f
    ensures forall k :: 0 <= k < FeatureCount ==> (AllFeatures[k] == f <==> k == i)
  {
    AllFeaturesDistinct();
    IndexIn(AllFeatures, f)
  }

  /** The elements of `s` other than `x`, in their original order. */
  function Without(s: seq<string>, x: string): (r: seq<string>)
    ensures |r| <= |s|
    ensures x !in r
    ensures forall y :: y in r <==> y in s && y != x
  {
    if s == [] then []
    else if s[0] == x then Without(s[1..], x)
    else [s[0]] + Without(s[1..], x)
  }

  /** Removing an absent name changes nothing. */
  lemma {:induction false} WithoutAbsent(s: seq<string>, x: string)
    requires x !in s
    ensures Without(s, x) == s
  {
    if s != [] {
      WithoutAbsent(s[1..], x);
    }
  }

  /**
   In a sequence of distinct names, removing a present name drops exactly its
   one slot and keeps the others in order.
   */
  lemma {:induction false} WithoutRemovesOneSlot(s: seq<string>, x: string)
    requires Distinct(s) && x in s
    ensures var k := IndexIn(s, x);
      Without(s, x) == s[..k] + s[k + 1..]
    ensures |Without(s, x)| == |s| - 1
  {
    if s[0] == x {
      assert x !in s[1..];
      WithoutAbsent(s[1..], x);
    } else {
      assert Distinct(s[1..]);
      WithoutRemovesOneSlot(s[1..], x);
      var j := IndexIn(s[1..], x);
      assert s[..1 + j] == [s[0]] + s[1..][..j];
      assert s[1 + j + 1..] == s[1..][j + 1..];
    }
  }

  /** Candidates offered for the second feature once `first` is chosen. */
  function SecondChoices(first: string): (r: seq<string>)
    ensures first !in r
    ensures forall f :: f in r <==> f in AllFeatures && f != first
  {
    Without(AllFeatures, first)
  }

  /**
   For a first feature from the feature set, the second list holds nine names:
   the feature set with that one removed, the rest in their order.
   */
  lemma SecondChoicesShape(first: string)
    requires first in AllFeatures
    ensures var k := ColumnIndex(first);
      SecondChoices(first) == AllFeatures[..k] + AllFeatures[k + 1..]
    ensures |SecondChoices(first)| == FeatureCount - 1
  {
    AllFeaturesDistinct();
    WithoutRemovesOneSlot(AllFeatures, first);
  }

  /** Any pair picked from the two lists is two different features of the set. */
  lemma SelectedPairDistinct(first: string, second: string)
    requires first in AllFeatures
    requires second in SecondChoices(first)
    ensures second in AllFeatures
    ensures first != second
    ensures ColumnIndex(first) != ColumnIndex(second)
  {
  }
}
