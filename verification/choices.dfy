/** The rule tables: the default first and second choices used when the
    middle school belongs to no cluster, the fixed pair a cluster imposes
    instead, and the three zone-based choices that fill slots 3 to 5. An
    absent school (`None`) is the engine's empty string. */
module Choices {
  import opened Options
  import opened Domain
  import opened Clusters

  /** The most competitive school of each zone. */
  function TopSchool(z: Zone): (r: Option<School>)
    ensures r.None? <==> z == OtherZone
  {
    match z
    case Uichang => Some(Jungang)
    case Seongsan => Some(ChangwonNam)
    case Masan => Some(MasanHigh)
    case OtherZone => None
  }

  /** The zone a core cluster is named after; the north cluster and the
      empty cluster have none. */
  function HomeZone(c: Cluster): Zone
  {
    match c
    case MasanCore => Masan
    case UichangCore => Uichang
    case SeongsanCore => Seongsan
    case _ => OtherZone
  }

  /** Default first choice, written branch by branch as the engine decides
      it. An explorer first tries the 90-point and then the 85-point tier;
      when neither answers (the score is below 85, or the zone is none of
      the three) the below-85 rule applies. */
  function BaseFirstChoice(t: StudentType, score: real, z: Zone): (r: Option<School>)
    ensures r.None? <==> t == OtherType || z == OtherZone
    ensures t == Explorer && score >= 85.0 ==> r == TopSchool(z)
    ensures t == Explorer && score < 85.0 && z != Masan ==> r == (if z == OtherZone then None else Some(Sapa))
    ensures t == Explorer && z == Masan ==> r == TopSchool(Masan)
    ensures t == Challenger ==> r == TopSchool(z)
    ensures t == Stable && z != OtherZone ==> r != TopSchool(z)
  {
    match t
    case Explorer =>
      if score >= 90.0 && z == Uichang then Some(Jungang)
      else if score >= 90.0 && z == Seongsan then Some(ChangwonNam)
      else if score >= 90.0 && z == Masan then Some(MasanHigh)
      else if score >= 85.0 && z == Uichang then Some(Jungang)
      else if score >= 85.0 && z == Seongsan then Some(ChangwonNam)
      else if score >= 85.0 && z == Masan then Some(MasanHigh)
      else if z == Uichang || z == Seongsan then Some(Sapa)
      else if z == Masan then Some(MasanHigh)
      else assert z.OtherZone?; None
    case Stable =>
      if z == Uichang || z == Seongsan then Some(Sapa)
      else if z == Masan then Some(Munseong)
      else assert z.OtherZone?; None
    case Challenger =>
      if z == Uichang then Some(Jungang)
      else if z == Seongsan then Some(ChangwonNam)
      else if z == Masan then Some(MasanHigh)
      else assert z.OtherZone?; None
    case OtherType => None
  }

  /** Default second choice. The score is accepted and never consulted.
      Explorers and challengers are pointed at the top school of the other
      Changwon zone (Masan students at Uichang's). */
  function BaseSecondChoice(t: StudentType, score: real, z: Zone): (r: Option<School>)
    ensures r.None? <==> t == OtherType || z == OtherZone
    ensures (t == Explorer || t == Challenger) && z == Uichang ==> r == TopSchool(Seongsan)
    ensures (t == Explorer || t == Challenger) && z != Uichang && z != OtherZone ==> r == TopSchool(Uichang)
    ensures r.Some? ==> r != BaseFirstChoice(t, score, z)
  {
    match t
    case Explorer =>
      if z == Uichang then Some(ChangwonNam)
      else if z == Seongsan then Some(Jungang)
      else if z == Masan then Some(Jungang)
      else assert z.OtherZone?; None
    case Stable =>
      if z == Uichang || z == Seongsan then Some(Munseong)
      else if z == Masan then Some(Sapa)
      else assert z.OtherZone?; None
    case Challenger =>
      if z == Uichang then Some(ChangwonNam)
      else if z == Seongsan then Some(Jungang)
      else if z == Masan then Some(Jungang)
      else assert z.OtherZone?; None
    case OtherType => None
  }

  /** Only the explorer's first choice looks at the score, and only at the
      85-point line: the 90-point tier answers exactly as the 85-point tier
      does, and stable and challenger students get the same first choice
      whatever their score. The second choice never depends on the score,
      and explorers and challengers share it. */
  lemma ScoreIndependence(t: StudentType, s1: real, s2: real, z: Zone)
    ensures t != Explorer ==> BaseFirstChoice(t, s1, z) == BaseFirstChoice(t, s2, z)
    ensures (s1 >= 85.0 <==> s2 >= 85.0) ==> BaseFirstChoice(t, s1, z) == BaseFirstChoice(t, s2, z)
    ensures s1 >= 85.0 ==> BaseFirstChoice(Challenger, s2, z) == BaseFirstChoice(Explorer, s1, z)
    ensures BaseSecondChoice(t, s1, z) == BaseSecondChoice(t, s2, z)
    ensures BaseSecondChoice(Explorer, s1, z) == BaseSecondChoice(Challenger, s2, z)
  {
  }

  /** The first and second choice a cluster imposes, whatever the student's
      disposition, score and zone. A core cluster's first choice is the top
      school of the zone it is named after. */
  function ClusterPair(c: Cluster): (p: (School, School))
    requires c != NoCluster
    ensures p.0 != p.1
    ensures HomeZone(c) != OtherZone ==> Some(p.0) == TopSchool(HomeZone(c))
    ensures c == North ==> p.1 == TopSchool(Uichang).value
  {
    match c
    case North => (Munseong, Jungang)
    case MasanCore => (MasanHigh, MasanGirls)
    case UichangCore => (Jungang, Sapa)
    case SeongsanCore => (ChangwonNam, Myeongji)
  }

  /** Choices 3 to 5: three different schools for each of the three zones,
      never the zone's top school; nothing for any other zone. */
  function ZoneTriple(z: Zone): (r: seq<Option<School>>)
    ensures |r| == 3
    ensures z == OtherZone ==> forall i | 0 <= i < 3 :: r[i].None?
    ensures z != OtherZone ==> forall i | 0 <= i < 3 :: r[i].Some? && r[i] != TopSchool(z)
    ensures forall i, j | 0 <= i < j < 3 :: r[i].Some? ==> r[i] != r[j]
  {
    match z
    case Uichang => [Some(Sapa), Some(Munseong), Some(Sinwol)]
    case Seongsan => [Some(Sapa), Some(Munseong), Some(Sinwol)]
    case Masan => [Some(Munseong), Some(Sapa), Some(MasanGirls)]
    case OtherZone => [None, None, None]
  }
}
