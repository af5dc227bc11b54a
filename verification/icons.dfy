/** The icon names a habit may use, and the renames applied before drawing them. */
module Icons {

  const VALID_ICONS: seq<string> := [
    "star", "heart", "fitness", "water", "book", "bed", "walk", "bicycle", "meditate", "restaurant",
    "sunny", "moon", "calendar", "checkmark-circle", "time", "trophy", "happy", "leaf",
    "musical-notes", "barbell"]

  const ICON_MAP: map<string, string> := map[
    "meditate" := "body-outline",
    "fitness" := "fitness-outline",
    "water" := "water-outline"]

  /** `ICON_MAP[name] || name`: the mapped name when there is a non-empty one, else the name itself. */
  function GetIconName(name: string): (r: string)
    ensures name !in ICON_MAP ==> r == name
    ensures name in ICON_MAP ==> r == ICON_MAP[name] && r !in ICON_MAP
  {
    if name in ICON_MAP && ICON_MAP[name] != "" then ICON_MAP[name] else name
  }

  /** The three renames. */
  lemma KnownRenames()
    ensures GetIconName("meditate") == "body-outline"
    ensures GetIconName("fitness") == "fitness-outline"
    ensures GetIconName("water") == "water-outline"
  {
  }

  /** No renamed name is renamed again, so the lookup is idempotent. */
  lemma GetIconNameIdempotent(name: string)
    ensures GetIconName(GetIconName(name)) == GetIconName(name)
  {
  }

  /** Every renamed name is one of the allowed icons. */
  lemma MapKeysAreValidIcons()
    ensures forall k :: k in ICON_MAP ==> k in VALID_ICONS
  {
    assert VALID_ICONS[3] == "water" && VALID_ICONS[2] == "fitness" && VALID_ICONS[8] == "meditate";
  }

  /** The allow-list names twenty different icons. */
  lemma ValidIconsDistinct()
    ensures |VALID_ICONS| == 20
    ensures forall i, j :: 0 <= i < j < |VALID_ICONS| ==> VALID_ICONS[i] != VALID_ICONS[j]
  {
  }
}
