/** The colour-scheme picker: six named presets; the one whose primary colour is selected is highlighted. */
module ColorPicker {
  import opened Common
  import opened ResumeData

  const Presets: seq<Palette> := [
    Palette(Some("Ocean Blue"), "#3B82F6", "#8B5CF6", "#06B6D4"),
    Palette(Some("Forest Green"), "#10B981", "#059669", "#34D399"),
    Palette(Some("Sunset Orange"), "#F59E0B", "#EF4444", "#F97316"),
    Palette(Some("Royal Purple"), "#8B5CF6", "#A855F7", "#C084FC"),
    Palette(Some("Rose Gold"), "#EC4899", "#F472B6", "#FB7185"),
    Palette(Some("Midnight"), "#1F2937", "#374151", "#6B7280")
  ]

  /** Six presets, each named, with pairwise different primary colours. */
  lemma PresetsWellFormed()
    ensures |Presets| == 6
    ensures forall i :: 0 <= i < |Presets| ==> Presets[i].name.Some?
    ensures forall i, j :: 0 <= i < j < |Presets| ==> Presets[i].primary != Presets[j].primary
  {
  }

  /**
   * A preset is highlighted exactly when the selection's primary colour is its primary colour; the other
   * two colours and the name play no part, so a selected palette always highlights itself.
   */
  function Highlighted(selected: Palette, preset: Palette): (highlighted: bool)
    ensures highlighted <==> selected.primary == preset.primary
    ensures selected == preset ==> highlighted
  {
    selected.primary == preset.primary
  }

  /** Whatever is selected, at most one preset is highlighted. */
  lemma AtMostOneHighlighted(selected: Palette, i: nat, j: nat)
    requires i < |Presets| && j < |Presets|
    requires Highlighted(selected, Presets[i]) && Highlighted(selected, Presets[j])
    ensures i == j
  {
    PresetsWellFormed();
  }

  /** A click on preset `i` emits the whole preset, name included; afterwards exactly that preset is highlighted. */
  function Choose(i: nat): (emitted: Palette)
    requires i < |Presets|
    ensures emitted == Presets[i] && emitted.name.Some?
    ensures forall j :: 0 <= j < |Presets| ==> (Highlighted(emitted, Presets[j]) <==> j == i)
  {
    var p := Presets[i];
    assert forall j :: 0 <= j < |Presets| && Highlighted(p, Presets[j]) ==> j == i by {
      forall j | 0 <= j < |Presets| && Highlighted(p, Presets[j]) ensures j == i {
        AtMostOneHighlighted(p, i, j);
      }
    }
    p
  }
}
