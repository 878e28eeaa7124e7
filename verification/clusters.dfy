/** Cluster detection: a middle-school name is classified into a residential
    cluster by looking for fixed keywords anywhere in the name, trying the
    clusters in a fixed order and taking the first that matches. */
module Clusters {
  import opened Text

  /** `NoCluster` is the engine's empty tag `""`. */
  datatype Cluster = NoCluster | North | MasanCore | UichangCore | SeongsanCore

  /** The tag string the engine uses for each cluster. */
  function Tag(c: Cluster): (t: string)
    ensures t == "" <==> c == NoCluster
  {
    match c
    case NoCluster => ""
    case North => "north"
    case MasanCore => "masan_core"
    case UichangCore => "uichang_core"
    case SeongsanCore => "seongsan_core"
  }

  /** Different clusters have different tags, so the tag the engine returns
      identifies the cluster. */
  lemma TagInjective(c: Cluster, d: Cluster)
    ensures Tag(c) == Tag(d) <==> c == d
  {
  }

  /** The keywords that place a middle school in a cluster; `NoCluster` has
      none. Every keyword is a non-empty word without whitespace, and no list
      repeats a keyword. */
  function Keywords(c: Cluster): (ks: seq<string>)
    ensures ks == [] <==> c == NoCluster
    ensures forall i | 0 <= i < |ks| :: |ks[i]| > 0 && NoSpace(ks[i])
    ensures forall i, j | 0 <= i < j < |ks| :: ks[i] != ks[j]
  {
    match c
    case NoCluster => []
    case North => ["북면", "동읍"]
    case MasanCore => ["양덕", "석전", "합성", "회원", "내서", "월영", "자산", "오동"]
    case UichangCore => ["용지", "팔용", "명서", "창원중"]
    case SeongsanCore => ["상남", "사파", "반송", "성주", "용호"]
  }

  /** The position of a cluster in the order the detector tries them. */
  function Rank(c: Cluster): nat
  {
    match c
    case North => 0
    case MasanCore => 1
    case UichangCore => 2
    case SeongsanCore => 3
    case NoCluster => 4
  }

  /** Python's `any(k in ms for k in keywords)`. */
  predicate MentionsAny(ms: string, keywords: seq<string>)
  {
    exists i | 0 <= i < |keywords| :: Contains(ms, keywords[i])
  }

  /** The name mentions a keyword of cluster `c`. */
  predicate Mentions(ms: string, c: Cluster)
  {
    MentionsAny(ms, Keywords(c))
  }

  /** The engine's classification of a middle-school name: an empty name has
      no cluster; otherwise the name is stripped of surrounding whitespace and
      the clusters are tried in order. */
  function DetectCluster(middleSchool: string): (c: Cluster)
    ensures middleSchool == "" ==> c == NoCluster
    ensures c != NoCluster ==> Mentions(Strip(middleSchool), c)
    ensures forall d | Rank(d) < Rank(c) :: !Mentions(Strip(middleSchool), d)
  {
    if middleSchool == "" then NoCluster
    else
      var ms := Strip(middleSchool);
      if Mentions(ms, North) then North
      else if Mentions(ms, MasanCore) then MasanCore
      else if Mentions(ms, UichangCore) then UichangCore
      else if Mentions(ms, SeongsanCore) then SeongsanCore
      else NoCluster
  }

  /** Every keyword is a non-empty string without whitespace. */
  /** Stripping the name changes no cluster's match. */
  lemma StripPreservesMentions(ms: string, c: Cluster)
    ensures Mentions(Strip(ms), c) <==> Mentions(ms, c)
  {
    var ks := Keywords(c);
    forall i | 0 <= i < |ks|
      ensures Contains(Strip(ms), ks[i]) <==> Contains(ms, ks[i])
    {
      StripPreservesContains(ms, ks[i]);
    }
  }

  /** Nothing is mentioned by a name that is empty or all whitespace. */
  lemma BlankMentionsNothing(ms: string, c: Cluster)
    requires AllSpace(ms)
    ensures !Mentions(ms, c)
  {
    var ks := Keywords(c);
    forall i | 0 <= i < |ks|
      ensures !Contains(ms, ks[i])
    {
      if Contains(ms, ks[i]) {
        var j :| 0 <= j <= |ms| - |ks[i]| && OccursAt(ms, ks[i], j);
        assert ms[j] == ks[i][0] by { assert ms[j..j + |ks[i]|][0] == ms[j]; }
        assert false;
      }
    }
  }

  /** The detector tries the clusters on the name as given: neither the
      empty-name test nor the stripping changes its answer. */
  lemma DetectOnRawName(ms: string)
    ensures DetectCluster(ms) ==
      if Mentions(ms, North) then North
      else if Mentions(ms, MasanCore) then MasanCore
      else if Mentions(ms, UichangCore) then UichangCore
      else if Mentions(ms, SeongsanCore) then SeongsanCore
      else NoCluster
  {
    if ms == "" {
      BlankMentionsNothing(ms, North);
      BlankMentionsNothing(ms, MasanCore);
      BlankMentionsNothing(ms, UichangCore);
      BlankMentionsNothing(ms, SeongsanCore);
    } else {
      StripPreservesMentions(ms, North);
      StripPreservesMentions(ms, MasanCore);
      StripPreservesMentions(ms, UichangCore);
      StripPreservesMentions(ms, SeongsanCore);
    }
  }

  /** First-match precedence in the abstract: when the chosen cluster is the
      first, in detection order, for which `mentions` holds, a cluster is
      chosen exactly when it is mentioned and no cluster tried before it is. */
  lemma FirstMatchPrecedence(chosen: Cluster, mentions: Cluster -> bool, c: Cluster)
    requires !mentions(NoCluster)
    requires chosen ==
      if mentions(North) then North
      else if mentions(MasanCore) then MasanCore
      else if mentions(UichangCore) then UichangCore
      else if mentions(SeongsanCore) then SeongsanCore
      else NoCluster
    ensures c != NoCluster ==>
      (chosen == c <==> mentions(c) && forall d: Cluster | Rank(d) < Rank(c) :: !mentions(d))
    ensures chosen == NoCluster <==> forall d: Cluster :: !mentions(d)
  {
    if chosen == NoCluster {
      forall d: Cluster ensures !mentions(d) {
        match d
        case NoCluster =>
        case North =>
        case MasanCore =>
        case UichangCore =>
        case SeongsanCore =>
      }
    }
  }

  /** The detector's answer, stated on the name as given (whitespace
      included): a cluster is chosen exactly when the name mentions one of its
      keywords and no keyword of a cluster tried before it; no cluster is
      chosen exactly when no keyword is mentioned. An empty or all-whitespace
      name therefore has no cluster. */
  lemma DetectClusterSpec(ms: string, c: Cluster)
    ensures c != NoCluster ==>
      (DetectCluster(ms) == c <==>
        Mentions(ms, c) && forall d: Cluster | Rank(d) < Rank(c) :: !Mentions(ms, d))
    ensures DetectCluster(ms) == NoCluster <==> forall d: Cluster :: !Mentions(ms, d)
    ensures AllSpace(ms) ==> DetectCluster(ms) == NoCluster
  {
    DetectOnRawName(ms);
    FirstMatchPrecedence(DetectCluster(ms), d => Mentions(ms, d), c);
    if AllSpace(ms) {
      BlankMentionsNothing(ms, North);
      BlankMentionsNothing(ms, MasanCore);
      BlankMentionsNothing(ms, UichangCore);
      BlankMentionsNothing(ms, SeongsanCore);
    }
  }

  /** A name that mentions keywords of two clusters goes to the one tried
      first. */
  lemma EarlierClusterWins(ms: string, c: Cluster, d: Cluster)
    requires c != NoCluster && d != NoCluster && Rank(c) < Rank(d)
    requires Mentions(ms, c) && Mentions(ms, d)
    ensures DetectCluster(ms) != d
    ensures Rank(DetectCluster(ms)) <= Rank(c)
  {
    DetectClusterSpec(ms, d);
    DetectClusterSpec(ms, DetectCluster(ms));
  }

  /** A keyword whose first character does not occur in the name is not
      mentioned. */
  lemma FirstCharAbsent(ms: string, k: string)
    requires |k| > 0 && k[0] !in ms
    ensures !Contains(ms, k)
  {
  }

  /** None of the keywords of `c` starts with a character of the name. */
  lemma NoInitialOf(ms: string, c: Cluster)
    requires forall i | 0 <= i < |Keywords(c)| :: |Keywords(c)[i]| > 0 && Keywords(c)[i][0] !in ms
    ensures !Mentions(ms, c)
  {
    forall i | 0 <= i < |Keywords(c)| ensures !Contains(ms, Keywords(c)[i]) {
      FirstCharAbsent(ms, Keywords(c)[i]);
    }
  }

  /** "용지중" is in the Uichang core. */
  lemma YongjiIsUichangCore()
    ensures DetectCluster("용지중") == UichangCore
  {
    var ms := "용지중";
    assert Strip(ms) == ms;
    NoInitialOf(ms, North);
    NoInitialOf(ms, MasanCore);
    assert Mentions(ms, UichangCore) by {
      assert OccursAt(ms, Keywords(UichangCore)[0], 0);
    }
  }

  /** A name padded with spaces that holds both a Masan-core and a
      Uichang-core keyword is in the Masan core. */
  lemma PaddedMixedNameIsMasanCore()
    ensures DetectCluster(" 내서용지중 ") == MasanCore
  {
    var ms := "내서용지중";
    var padded := " 내서용지중 ";
    assert padded[1..] == ms + " ";
    assert LeadingSpaces(padded) == 1;
    assert padded[..|padded| - 1] == " " + ms;
    assert TrailingSpaces(padded) == 1;
    assert Strip(padded) == ms;
    NoInitialOf(ms, North);
    assert Mentions(ms, MasanCore) by {
      assert OccursAt(ms, Keywords(MasanCore)[4], 0);
    }
  }
}
