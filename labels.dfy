/** The static table from cluster id to a human-readable description. */
module Labels {

  const ClusterDescription: map<int, string> := map[
    0 := "Trending/Popular Songs",
    1 := "Acoustic/Chill/Lo-fi",
    2 := "High Energy/Dance/Party",
    3 := "Outlier/Noise or Rare"
  ]

  /** The description of an id the table does not know. */
  const UnknownType: string := "Unknown Type"

  /** The table lookup with its fallback; total over all integers. */
  function Describe(id: int): (d: string)
    ensures |d| > 0
    ensures d == UnknownType <==> !(0 <= id <= 3)
    ensures d == UnknownType || d in ClusterDescription.Values
  {
    if id in ClusterDescription then ClusterDescription[id] else UnknownType
  }

  /** The four table entries, exactly as the table spells them. */
  lemma DescribeKnownIds()
    ensures Describe(0) == "Trending/Popular Songs"
    ensures Describe(1) == "Acoustic/Chill/Lo-fi"
    ensures Describe(2) == "High Energy/Dance/Party"
    ensures Describe(3) == "Outlier/Noise or Rare"
  {
  }
}
