/** The Modern template: colour header band, then summary, experience, education, skill bars, projects. */
module ModernTemplate {
  import opened ResumeData
  import opened View
  import DateFormat
  import SkillsEditor

  /** A skill as a bar a quarter wide per level, captioned with the level text. */
  function SkillItem(s: Skill): SkillView
  {
    SkillView(s.name, Bar(SkillsEditor.BarWidth(s.level), s.level))
  }

  function ExperienceRow(e: Experience): ExperienceView
  {
    ExperienceItem(e, false)
  }

  function ProjectRow(p: Project): ProjectView
  {
    ProjectItem(p, TechnologiesText(p))
  }

  /**
   * What the template shows for a resume: each section exactly when it has something in it, one item
   * per entry in the entries' order, skills as bars.
   */
  function Render(r: Resume, colors: Palette): (d: Document)
    ensures d.layout == Modern && d.palette == colors
    ensures d.name == DisplayName(r.personalInfo)
    ensures d.image == ProfileImage(r.personalInfo) && d.contacts == Contacts(r.personalInfo)
    ensures d.summary == Shown(r.personalInfo.summary)
    ensures d.summary.Some? <==> r.personalInfo.summary != ""
    ensures d.experience.Some? <==> r.experience != []
    ensures d.education.Some? <==> r.education != []
    ensures d.skills.Some? <==> r.skills != []
    ensures d.projects.Some? <==> r.projects != []
  {
    var p := r.personalInfo;
    Document(Modern, colors, DisplayName(p), ProfileImage(p), Contacts(p), Shown(p.summary),
             Listing(r.experience, ExperienceRow), Listing(r.education, EducationItem),
             Listing(r.skills, SkillItem), Listing(r.projects, ProjectRow))
  }

  /** One experience item per entry, in order, each with the entry's date range and no connector. */
  lemma ExperienceRows(r: Resume, colors: Palette)
    ensures var d := Render(r, colors);
      d.experience.Some? ==> (|d.experience.value| == |r.experience| &&
      forall i :: 0 <= i < |r.experience| ==>
        var e := r.experience[i];
        d.experience.value[i].dates == DateFormat.FormatDateRange(e.startDate, e.endDate, e.current) &&
        !d.experience.value[i].connector)
  {
    var d := Render(r, colors);
    if d.experience.Some? {
      forall i | 0 <= i < |r.experience|
        ensures var e := r.experience[i];
          d.experience.value[i].dates == DateFormat.FormatDateRange(e.startDate, e.endDate, e.current)
        ensures !d.experience.value[i].connector
      {
        assert d.experience.value[i] == ExperienceRow(r.experience[i]);
      }
    }
  }

  /** One bar per skill, in order, a quarter of the width per level and captioned with the level. */
  lemma SkillRows(r: Resume, colors: Palette)
    ensures var d := Render(r, colors);
      d.skills.Some? ==> (|d.skills.value| == |r.skills| &&
      forall i :: 0 <= i < |r.skills| ==>
        d.skills.value[i].rating == Bar(SkillsEditor.BarWidth(r.skills[i].level), r.skills[i].level))
  {
    var d := Render(r, colors);
    if d.skills.Some? {
      forall i | 0 <= i < |r.skills|
        ensures d.skills.value[i].rating == Bar(SkillsEditor.BarWidth(r.skills[i].level), r.skills[i].level)
      {
        assert d.skills.value[i] == SkillItem(r.skills[i]);
      }
    }
  }

  /** One item per project, in order, with the technologies as one line and dates exactly when it has one. */
  lemma ProjectRows(r: Resume, colors: Palette)
    ensures var d := Render(r, colors);
      d.projects.Some? ==> (|d.projects.value| == |r.projects| &&
      forall i :: 0 <= i < |r.projects| ==>
        d.projects.value[i].technologies == TechnologiesText(r.projects[i]) &&
        (d.projects.value[i].dates.Some? <==> r.projects[i].startDate != "" || r.projects[i].endDate != ""))
  {
    var d := Render(r, colors);
    if d.projects.Some? {
      forall i | 0 <= i < |r.projects|
        ensures d.projects.value[i].technologies == TechnologiesText(r.projects[i])
        ensures d.projects.value[i].dates.Some? <==> r.projects[i].startDate != "" || r.projects[i].endDate != ""
      {
        assert d.projects.value[i] == ProjectRow(r.projects[i]);
      }
    }
  }
}
