/** The recommendation itself: five slots filled from the cluster or the
    zone defaults and from the zone triple, deduplicated in order and cut to
    at most five schools. */
module Recommend {
  import opened Options
  import opened Domain
  import opened Clusters
  import opened Choices
  import opened Deduplication

  /** Python's `xs[:n]`. */
  function Take<T>(xs: seq<T>, n: nat): (r: seq<T>)
    ensures |r| == if |xs| <= n then |xs| else n
    ensures r == xs[..|r|]
  {
    if |xs| <= n then xs else xs[..n]
  }

  /** The five candidate slots for a student of cluster `c`, disposition `t`
      and zone `z`, first choice first. A cluster fixes the first two; without
      one the default tables do. The first two slots are filled together,
      with different schools, unless there is no cluster and the disposition
      or zone is unrecognised; the last three are filled exactly when the zone
      is recognised. */
  function Slots(c: Cluster, t: StudentType, score: real, z: Zone): (slots: seq<Option<School>>)
    ensures |slots| == 5
    ensures slots[0].None? <==> c == NoCluster && (t == OtherType || z == OtherZone)
    ensures slots[1].None? <==> slots[0].None?
    ensures slots[0].Some? ==> slots[0] != slots[1]
    ensures forall i | 2 <= i < 5 :: slots[i].Some? <==> z != OtherZone
  {
    var rec1 := if c == NoCluster then BaseFirstChoice(t, score, z) else Some(ClusterPair(c).0);
    var rec2 := if c == NoCluster then BaseSecondChoice(t, score, z) else Some(ClusterPair(c).1);
    [rec1, rec2] + ZoneTriple(z)
  }

  /** The slots the engine fills for a student, from the middle-school name,
      the disposition and zone strings and the score. */
  function StudentSlots(middleSchool: string, sType: string, score: real, zone: string): seq<Option<School>>
  {
    Slots(DetectCluster(middleSchool), ParseType(sType), score, ParseZone(zone))
  }

  /** The engine's recommendation for a student. The name and the two
      preferred schools are accepted and not used. */
  function RecommendSchools(name: string, middleSchool: string, sType: string, score: real,
                            zone: string, pref1: string, pref2: string): (r: seq<School>)
    ensures |r| <= 5
  {
    Take(Dedup(StudentSlots(middleSchool, sType, score, zone)), 5)
  }

  /** What the list is: every school of the five slots once, no other
      school, in the order the slots first name them; so the first slot,
      when filled, heads the list. The cut to five never removes anything. */
  lemma RecommendIsOrderedUnion(name: string, middleSchool: string, sType: string, score: real,
                                zone: string, pref1: string, pref2: string)
    ensures var r := RecommendSchools(name, middleSchool, sType, score, zone, pref1, pref2);
            var slots := StudentSlots(middleSchool, sType, score, zone);
            && |r| <= 5
            && Distinct(r)
            && (forall s :: s in r <==> Some(s) in slots)
            && (forall i, j | 0 <= i < j < |r| :: Before(slots, Some(r[i]), Some(r[j])))
            && (slots[0].Some? ==> |r| > 0 && r[0] == slots[0].value)
  {
    var slots := StudentSlots(middleSchool, sType, score, zone);
    assert Take(Dedup(slots), 5) == Dedup(slots);
    DedupDistinct(slots);
    DedupMembers(slots);
    DedupOrder(slots);
    if slots[0].Some? {
      DedupHead(slots);
    }
  }

  /** The first two slots, when both are filled with different schools,
      are the first two schools of the list. */
  lemma LeadingPairKept(slots: seq<Option<School>>, a: School, b: School)
    requires |slots| >= 2 && slots[0] == Some(a) && slots[1] == Some(b) && a != b
    ensures |Dedup(slots)| >= 2 && Dedup(slots)[..2] == [a, b]
  {
    DedupOfDistinct(slots[..2], [a, b]);
    DedupPrefix(slots, 2);
  }

  /** A cluster decides the first and second choice, whatever the student's
      disposition, score and zone. */
  lemma ClusterOverridesDefaults(name: string, middleSchool: string, sType: string, score: real,
                                 zone: string, pref1: string, pref2: string)
    requires DetectCluster(middleSchool) != NoCluster
    ensures var r := RecommendSchools(name, middleSchool, sType, score, zone, pref1, pref2);
            var p := ClusterPair(DetectCluster(middleSchool));
            |r| >= 2 && r[0] == p.0 && r[1] == p.1
  {
    ClusterSlotsLead(DetectCluster(middleSchool), ParseType(sType), score, ParseZone(zone));
  }

  /** With a cluster, its pair leads the deduplicated slots. */
  lemma ClusterSlotsLead(c: Cluster, t: StudentType, score: real, z: Zone)
    requires c != NoCluster
    ensures var d := Dedup(Slots(c, t, score, z));
            |d| >= 2 && d[0] == ClusterPair(c).0 && d[1] == ClusterPair(c).1
  {
    LeadingPairKept(Slots(c, t, score, z), ClusterPair(c).0, ClusterPair(c).1);
  }

  /** Without a cluster, a recognised disposition and zone give the default
      first and second choice as the first two schools. */
  lemma DefaultsWithoutCluster(name: string, middleSchool: string, sType: string, score: real,
                               zone: string, pref1: string, pref2: string)
    requires DetectCluster(middleSchool) == NoCluster
    requires ParseType(sType) != OtherType && ParseZone(zone) != OtherZone
    ensures var r := RecommendSchools(name, middleSchool, sType, score, zone, pref1, pref2);
            var t, z := ParseType(sType), ParseZone(zone);
            |r| >= 2 && Some(r[0]) == BaseFirstChoice(t, score, z) && Some(r[1]) == BaseSecondChoice(t, score, z)
  {
    DefaultSlotsLead(ParseType(sType), score, ParseZone(zone));
  }

  /** Without a cluster, the default first and second choice lead the
      deduplicated slots. */
  lemma DefaultSlotsLead(t: StudentType, score: real, z: Zone)
    requires t != OtherType && z != OtherZone
    ensures var d := Dedup(Slots(NoCluster, t, score, z));
            |d| >= 2 && Some(d[0]) == BaseFirstChoice(t, score, z) && Some(d[1]) == BaseSecondChoice(t, score, z)
  {
    LeadingPairKept(Slots(NoCluster, t, score, z), BaseFirstChoice(t, score, z).value, BaseSecondChoice(t, score, z).value);
  }

  /** Three different schools are in a list only if it has at least three
      entries. */
  lemma ThreeMembers<T>(r: seq<T>, a: T, b: T, c: T)
    requires a != b && b != c && a != c
    requires a in r && b in r && c in r
    ensures |r| >= 3
  {
  }

  /** Three filled, pairwise different slots among the last three keep the
      list at three entries or more. */
  lemma TripleKept(slots: seq<Option<School>>)
    requires |slots| == 5
    requires forall i | 2 <= i < 5 :: slots[i].Some?
    requires slots[2] != slots[3] && slots[3] != slots[4] && slots[2] != slots[4]
    ensures 3 <= |Dedup(slots)|
    ensures forall i | 2 <= i < 5 :: slots[i].value in Dedup(slots)
  {
    DedupMembers(slots);
    ThreeMembers(Dedup(slots), slots[2].value, slots[3].value, slots[4].value);
  }

  /** Slots of which only the first two are filled, with different schools,
      deduplicate to those two. */
  lemma OnlyLeadingPair(slots: seq<Option<School>>, a: School, b: School)
    requires |slots| == 5 && slots[0] == Some(a) && slots[1] == Some(b) && a != b
    requires forall i | 2 <= i < 5 :: slots[i].None?
    ensures Dedup(slots) == [a, b]
  {
    DedupOfDistinct(slots[..2], [a, b]);
    DedupEmptyTail(slots, 2);
  }

  /** The length of the list: a recognised zone contributes three schools
      of its own, so the list has three to five entries; an unrecognised
      zone leaves at most the two cluster choices, and nothing at all
      without a cluster. */
  lemma RecommendLength(name: string, middleSchool: string, sType: string, score: real,
                        zone: string, pref1: string, pref2: string)
    ensures var r := RecommendSchools(name, middleSchool, sType, score, zone, pref1, pref2);
            var z := ParseZone(zone);
            var c := DetectCluster(middleSchool);
            && (z != OtherZone ==> 3 <= |r| <= 5 && forall i | 0 <= i < 3 :: ZoneTriple(z)[i].value in r)
            && (z == OtherZone && c == NoCluster ==> r == [])
            && (z == OtherZone && c != NoCluster ==> r == [ClusterPair(c).0, ClusterPair(c).1])
  {
    var slots := StudentSlots(middleSchool, sType, score, zone);
    assert Take(Dedup(slots), 5) == Dedup(slots);
    SlotsLength(DetectCluster(middleSchool), ParseType(sType), score, ParseZone(zone));
  }

  /** The length of the deduplicated slots for a cluster, disposition and
      zone that are already decided. */
  lemma SlotsLength(c: Cluster, t: StudentType, score: real, z: Zone)
    ensures var d := Dedup(Slots(c, t, score, z));
            && (z != OtherZone ==> 3 <= |d| <= 5 && forall i | 0 <= i < 3 :: ZoneTriple(z)[i].value in d)
            && (z == OtherZone && c == NoCluster ==> d == [])
            && (z == OtherZone && c != NoCluster ==> d == [ClusterPair(c).0, ClusterPair(c).1])
  {
    var slots := Slots(c, t, score, z);
    var triple := ZoneTriple(z);
    assert slots[2] == triple[0] && slots[3] == triple[1] && slots[4] == triple[2];
    if z != OtherZone {
      TripleKept(slots);
    } else if c == NoCluster {
      DedupEmptyTail(slots, 0);
      assert slots[..0] == [];
    } else {
      OnlyLeadingPair(slots, ClusterPair(c).0, ClusterPair(c).1);
    }
  }

  /** The student's name and preferred schools never change the list. */
  lemma MemoInputsUnused(name: string, middleSchool: string, sType: string, score: real, zone: string,
                         pref1: string, pref2: string, name': string, pref1': string, pref2': string)
    ensures RecommendSchools(name, middleSchool, sType, score, zone, pref1, pref2)
         == RecommendSchools(name', middleSchool, sType, score, zone, pref1', pref2')
  {
  }

  /** A student from 용지중 (Uichang core) with an explorer disposition, a
      score of 93 and the Uichang zone gets 창원중앙고, 사파고, 문성고,
      신월고: 사파고 appears both as the cluster's second choice and as the
      third slot and is listed once. */
  lemma YongjiExample()
    ensures RecommendSchools("예시학생A", "용지중", "탐구형", 93.0, "의창", "", "")
         == [Jungang, Sapa, Munseong, Sinwol]
  {
    YongjiIsUichangCore();
    var slots := StudentSlots("용지중", "탐구형", 93.0, "의창");
    assert slots == [Some(Jungang), Some(Sapa), Some(Sapa), Some(Munseong), Some(Sinwol)];
    YongjiSlotsDeduplicated(slots);
  }

  lemma YongjiSlotsDeduplicated(slots: seq<Option<School>>)
    requires slots == [Some(Jungang), Some(Sapa), Some(Sapa), Some(Munseong), Some(Sinwol)]
    ensures Dedup(slots) == [Jungang, Sapa, Munseong, Sinwol]
  {
    assert Dedup(slots[..1]) == [Jungang] by {
      assert slots[..1][..0] == [];
    }
    assert Dedup(slots[..2]) == [Jungang, Sapa] by {
      assert slots[..2][..1] == slots[..1];
    }
    assert Dedup(slots[..3]) == [Jungang, Sapa] by {
      assert slots[..3][..2] == slots[..2];
    }
    assert Dedup(slots[..4]) == [Jungang, Sapa, Munseong] by {
      assert slots[..4][..3] == slots[..3];
    }
    assert slots[..5] == slots;
  }
}
