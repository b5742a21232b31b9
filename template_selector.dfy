/** The template chooser: three cards; the one whose id is selected is highlighted and ticked. */
module TemplateSelector {
  import View
  import ResumePreview

  /** A card as the selector lists it; its preview swatch is styling and not part of the model. */
  datatype Card = Card(id: string, name: string, description: string)

  const Cards: seq<Card> := [
    Card("modern", "Modern", "Clean and contemporary design"),
    Card("classic", "Classic", "Traditional professional layout"),
    Card("creative", "Creative", "Bold and artistic design")
  ]

  /**
   * Highlight and tick mark both show exactly when the selected id is the card's id; a card of the
   * selector that shows as selected has its layout rendered by the preview.
   */
  function IsSelected(selected: string, card: Card): (shown: bool)
    ensures shown <==> selected == card.id
    ensures shown && card in Cards ==> ResumePreview.LayoutId(ResumePreview.Dispatch(selected)) == selected
  {
    selected == card.id
  }

  /** Three cards with different ids. */
  lemma CardsWellFormed()
    ensures |Cards| == 3
    ensures forall i, j :: 0 <= i < j < |Cards| ==> Cards[i].id != Cards[j].id
  {
  }

  /** Whatever is selected, at most one card is highlighted. */
  lemma AtMostOneSelected(selected: string, i: nat, j: nat)
    requires i < |Cards| && j < |Cards|
    requires IsSelected(selected, Cards[i]) && IsSelected(selected, Cards[j])
    ensures i == j
  {
    CardsWellFormed();
  }

  /**
   * A click on card `i` emits its id: afterwards exactly that card is selected, and the preview renders the
   * card's own layout (the id is never left to the dispatcher's default).
   */
  function Click(i: nat): (emitted: string)
    requires i < |Cards|
    ensures forall j :: 0 <= j < |Cards| ==> (IsSelected(emitted, Cards[j]) <==> j == i)
    ensures ResumePreview.LayoutId(ResumePreview.Dispatch(emitted)) == emitted
  {
    var id := Cards[i].id;
    assert forall j :: 0 <= j < |Cards| && IsSelected(id, Cards[j]) ==> j == i by {
      forall j | 0 <= j < |Cards| && IsSelected(id, Cards[j]) ensures j == i {
        AtMostOneSelected(id, i, j);
      }
    }
    id
  }

  /** Every layout has a card, named after it. */
  lemma EveryLayoutOffered(layout: View.Layout)
    ensures exists i :: 0 <= i < |Cards| && Cards[i].id == ResumePreview.LayoutId(layout)
  {
    match layout
    case Modern => assert Cards[0].id == "modern";
    case Classic => assert Cards[1].id == "classic";
    case Creative => assert Cards[2].id == "creative";
  }
}
