/** The version-type tabs and lookup tables that `ThemeDetail`
    (src/components/ThemeDetail.tsx) and `VersionList`
    (src/components/VersionList.tsx) both define, identically. */
module VersionTypes {
  import opened Types
  import Seqs

  /** The tabs, in the order they are shown. */
  const VersionTabs: seq<string> := ["all", "STANDARD", "ENSAMBLE", "DUETO", "GRUPO_REDUCIDO"]

  function HasTypeCode(code: string): Version -> bool {
    (v: Version) => v.vtype.Code() == code
  }

  /** The count beside a tab: all versions for `all`, else those of that type. */
  function TabCount(versions: seq<Version>, tab: string): (n: nat)
    ensures n <= |versions|
    ensures tab == "all" ==> n == |versions|
  {
    if tab == "all" then |versions| else |Seqs.Filter(versions, HasTypeCode(tab))|
  }

  lemma TabCountStep(versions: seq<Version>, code: string)
    requires |versions| > 0 && code != "all"
    ensures TabCount(versions, code) == TabCount(versions[1..], code) + if versions[0].vtype.Code() == code then 1 else 0
  {
  }

  /** The four type tabs together count every version once. */
  lemma {:induction false} TypeTabsSum(versions: seq<Version>)
    ensures TabCount(versions, "STANDARD") + TabCount(versions, "ENSAMBLE") + TabCount(versions, "DUETO")
      + TabCount(versions, "GRUPO_REDUCIDO") == TabCount(versions, "all")
    decreases |versions|
  {
    if |versions| > 0 {
      TypeTabsSum(versions[1..]);
      TabCountStep(versions, "STANDARD");
      TabCountStep(versions, "ENSAMBLE");
      TabCountStep(versions, "DUETO");
      TabCountStep(versions, "GRUPO_REDUCIDO");
      match versions[0].vtype
      case Standard =>
      case Ensamble =>
      case Dueto =>
      case GrupoReducido =>
    }
  }

  /** A tab that is not a type code counts nothing. */
  lemma {:induction false} UnknownTabCountsNothing(versions: seq<Version>, tab: string)
    requires tab !in VersionTabs
    ensures TabCount(versions, tab) == 0
    decreases |versions|
  {
    if |versions| > 0 {
      UnknownTabCountsNothing(versions[1..], tab);
      TabCountStep(versions, tab);
      match versions[0].vtype
      case Standard =>
      case Ensamble =>
      case Dueto =>
      case GrupoReducido =>
    }
  }

  /** `getTypeLabel`: the four codes have their labels, anything else is shown as it is. */
  function TypeLabel(code: string): (text: string)
    ensures code !in {"STANDARD", "ENSAMBLE", "DUETO", "GRUPO_REDUCIDO"} ==> text == code
  {
    match code
    case "STANDARD" => "Standard"
    case "ENSAMBLE" => "Ensamble"
    case "DUETO" => "Dueto"
    case "GRUPO_REDUCIDO" => "Grupo Reducido"
    case _ => code
  }

  /** The labels of the four types are pairwise distinct and differ from their codes. */
  lemma TypeLabelsDistinct(a: VersionType, b: VersionType)
    ensures a != b ==> TypeLabel(a.Code()) != TypeLabel(b.Code())
    ensures TypeLabel(a.Code()) != a.Code()
  {
  }

  /** `getTypeIcon`, with the note icon for anything else. */
  function TypeIcon(code: string): (icon: string)
    ensures code !in {"STANDARD", "ENSAMBLE", "DUETO", "GRUPO_REDUCIDO"} ==> icon == "🎵"
  {
    match code
    case "STANDARD" => "🎼"
    case "ENSAMBLE" => "👥"
    case "DUETO" => "👫"
    case "GRUPO_REDUCIDO" => "🎭"
    case _ => "🎵"
  }

  /** `getTypeColor`, grey for anything else. */
  function TypeColor(code: string): (color: string)
    ensures code !in {"STANDARD", "ENSAMBLE", "DUETO", "GRUPO_REDUCIDO"} ==> color == "#6c757d"
  {
    match code
    case "STANDARD" => "#28a745"
    case "ENSAMBLE" => "#007bff"
    case "DUETO" => "#fd7e14"
    case "GRUPO_REDUCIDO" => "#6f42c1"
    case _ => "#6c757d"
  }

  /** Every type has its own icon and colour, none of them the fallback. */
  lemma TypeIconsAndColorsDistinct(a: VersionType, b: VersionType)
    ensures a != b ==> TypeIcon(a.Code()) != TypeIcon(b.Code()) && TypeColor(a.Code()) != TypeColor(b.Code())
    ensures TypeIcon(a.Code()) != "🎵" && TypeColor(a.Code()) != "#6c757d"
  {
  }
}
