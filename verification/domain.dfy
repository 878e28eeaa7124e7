/** The closed vocabularies of the recommender: the high schools it can name,
    the three student dispositions and the three commuting zones. The engine
    receives dispositions and zones as Korean strings and compares them with
    fixed literals; `ParseType` and `ParseZone` are those comparisons, and any
    other string lands in the `Other` case, for which the tables have no row. */
module Domain {
  import opened Options

  /** The high schools that appear anywhere in the recommendation rules. */
  datatype School =
    | Munseong        // 문성고
    | Jungang         // 창원중앙고
    | ChangwonNam     // 창원남고
    | MasanHigh       // 마산고
    | MasanGirls      // 마산여고
    | Sapa            // 사파고
    | Myeongji        // 명지여고
    | Sinwol          // 신월고

  /** The name the engine returns for a school. */
  function Name(s: School): (n: string)
    ensures |n| >= 3 && n[|n| - 1] == '고'
  {
    match s
    case Munseong => "문성고"
    case Jungang => "창원중앙고"
    case ChangwonNam => "창원남고"
    case MasanHigh => "마산고"
    case MasanGirls => "마산여고"
    case Sapa => "사파고"
    case Myeongji => "명지여고"
    case Sinwol => "신월고"
  }

  /** The school a name denotes, if any. */
  function SchoolNamed(n: string): (r: Option<School>)
    ensures r.Some? ==> Name(r.value) == n
  {
    if n == "문성고" then Some(Munseong)
    else if n == "창원중앙고" then Some(Jungang)
    else if n == "창원남고" then Some(ChangwonNam)
    else if n == "마산고" then Some(MasanHigh)
    else if n == "마산여고" then Some(MasanGirls)
    else if n == "사파고" then Some(Sapa)
    else if n == "명지여고" then Some(Myeongji)
    else if n == "신월고" then Some(Sinwol)
    else None
  }

  /** Every school's name reads back as that school, so names are distinct
      and none is the empty string the choice functions use for "no school";
      comparing names, as the engine does, is comparing schools. */
  lemma NameRoundTrip(s: School)
    ensures SchoolNamed(Name(s)) == Some(s)
    ensures forall t: School :: Name(t) == Name(s) <==> t == s
  {
  }

  /** The student's disposition (성향). */
  datatype StudentType = Explorer | Stable | Challenger | OtherType

  function TypeLabel(t: StudentType): string
  {
    match t
    case Explorer => "탐구형"
    case Stable => "안정형"
    case Challenger => "도전형"
    case OtherType => ""
  }

  /** Which of the three literal dispositions a string is. */
  function ParseType(s: string): (t: StudentType)
    ensures t != OtherType ==> TypeLabel(t) == s
    ensures t == OtherType <==> s !in {"탐구형", "안정형", "도전형"}
  {
    if s == "탐구형" then Explorer
    else if s == "안정형" then Stable
    else if s == "도전형" then Challenger
    else OtherType
  }

  /** The commuting zone (통학구역). */
  datatype Zone = Uichang | Seongsan | Masan | OtherZone

  function ZoneLabel(z: Zone): string
  {
    match z
    case Uichang => "의창"
    case Seongsan => "성산"
    case Masan => "마산"
    case OtherZone => ""
  }

  /** Which of the three literal zones a string is. */
  function ParseZone(s: string): (z: Zone)
    ensures z != OtherZone ==> ZoneLabel(z) == s
    ensures z == OtherZone <==> s !in {"의창", "성산", "마산"}
  {
    if s == "의창" then Uichang
    else if s == "성산" then Seongsan
    else if s == "마산" then Masan
    else OtherZone
  }
}
