/** The live preview: picks the renderer for the selected template id and hands it the resume and colours. */
module ResumePreview {
  import opened ResumeData
  import opened View
  import ModernTemplate
  import ClassicTemplate
  import CreativeTemplate

  /** `renderTemplate`'s switch: "classic" and "creative" have their own renderer, every other id gets Modern. */
  function Dispatch(template: string): (layout: Layout)
    ensures layout == Classic <==> template == "classic"
    ensures layout == Creative <==> template == "creative"
    ensures layout == Modern <==> template != "classic" && template != "creative"
  {
    match template
    case "classic" => Classic
    case "creative" => Creative
    case _ => Modern
  }

  /** The id under which the template selector offers a layout; dispatching it gives that layout back. */
  function LayoutId(layout: Layout): (id: string)
    ensures Dispatch(id) == layout
  {
    match layout
    case Modern => "modern"
    case Classic => "classic"
    case Creative => "creative"
  }

  /** Different layouts have different ids. */
  lemma LayoutIdInjective(a: Layout, b: Layout)
    ensures LayoutId(a) == LayoutId(b) ==> a == b
  {
    assert Dispatch(LayoutId(a)) == a && Dispatch(LayoutId(b)) == b;
  }

  /**
   * The preview for any template id: the dispatched renderer applied to the same resume and colours.
   * Whatever the id, the heading, the palette and which sections appear are the same.
   */
  function RenderTemplate(template: string, r: Resume, colors: Palette): (d: Document)
    ensures d.layout == Dispatch(template)
    ensures d.layout == Modern ==> d == ModernTemplate.Render(r, colors)
    ensures d.layout == Classic ==> d == ClassicTemplate.Render(r, colors)
    ensures d.layout == Creative ==> d == CreativeTemplate.Render(r, colors)
    ensures d.palette == colors && d.name == DisplayName(r.personalInfo)
    ensures d.summary.Some? <==> r.personalInfo.summary != ""
    ensures d.experience.Some? <==> r.experience != []
    ensures d.education.Some? <==> r.education != []
    ensures d.skills.Some? <==> r.skills != []
    ensures d.projects.Some? <==> r.projects != []
  {
    match Dispatch(template)
    case Classic => ClassicTemplate.Render(r, colors)
    case Creative => CreativeTemplate.Render(r, colors)
    case Modern => ModernTemplate.Render(r, colors)
  }

  /** Two template ids that dispatch alike give the same preview; in particular every unknown id previews as "modern". */
  lemma UnknownIdIsModern(template: string, r: Resume, colors: Palette)
    requires template != "classic" && template != "creative"
    ensures RenderTemplate(template, r, colors) == RenderTemplate("modern", r, colors)
  {
  }
}
