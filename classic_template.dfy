/** The Classic template: centred header, then summary, experience, education, skills as text, projects. */
module ClassicTemplate {
  import opened ResumeData
  import opened View
  import DateFormat

  /** A skill with its level shown as the stored text, with no numeric mapping. */
  function SkillItem(s: Skill): SkillView
  {
    SkillView(s.name, Label(s.level))
  }

  function ExperienceRow(e: Experience): ExperienceView
  {
    ExperienceItem(e, false)
  }

  function ProjectRow(p: Project): ProjectView
  {
    ProjectItem(p, TechnologiesText(p))
  }

  /**
   * What the template shows for a resume: each section exactly when it has something in it, one item
   * per entry in the entries' order, levels verbatim, the GPA line only when a GPA is given.
   */
  function Render(r: Resume, colors: Palette): (d: Document)
    ensures d.layout == Classic && d.palette == colors
    ensures d.name == DisplayName(r.personalInfo)
    ensures d.image == ProfileImage(r.personalInfo) && d.contacts == Contacts(r.personalInfo)
    ensures d.summary == Shown(r.personalInfo.summary)
    ensures d.summary.Some? <==> r.personalInfo.summary != ""
    ensures d.experience.Some? <==> r.experience != []
    ensures d.education.Some? <==> r.education != []
    ensures d.skills.Some? <==> r.skills != []
    ensures d.projects.Some? <==> r.projects != []
  {
    var p := r.personalInfo;
    Document(Classic, colors, DisplayName(p), ProfileImage(p), Contacts(p), Shown(p.summary),
             Listing(r.experience, ExperienceRow), Listing(r.education, EducationItem),
             Listing(r.skills, SkillItem), Listing(r.projects, ProjectRow))
  }

  /** One experience item per entry, in order, each with the entry's date range and no connector. */
  lemma ExperienceRows(r: Resume, colors: Palette)
    ensures var d := Render(r, colors);
      d.experience.Some? ==> (|d.experience.value| == |r.experience| &&
      forall i :: 0 <= i < |r.experience| ==>
        var e := r.experience[i];
        d.experience.value[i].dates == DateFormat.FormatDateRange(e.startDate, e.endDate, e.current) &&
        !d.experience.value[i].connector)
  {
    var d := Render(r, colors);
    if d.experience.Some? {
      forall i | 0 <= i < |r.experience|
        ensures var e := r.experience[i];
          d.experience.value[i].dates == DateFormat.FormatDateRange(e.startDate, e.endDate, e.current)
        ensures !d.experience.value[i].connector
      {
        assert d.experience.value[i] == ExperienceRow(r.experience[i]);
      }
    }
  }

  /** One item per education entry, in order, with a GPA line exactly when a GPA is given. */
  lemma EducationRows(r: Resume, colors: Palette)
    ensures var d := Render(r, colors);
      d.education.Some? ==> (|d.education.value| == |r.education| &&
      forall i :: 0 <= i < |r.education| ==>
        (d.education.value[i].gpa.Some? <==> r.education[i].gpa != ""))
  {
    var d := Render(r, colors);
    if d.education.Some? {
      forall i | 0 <= i < |r.education|
        ensures d.education.value[i].gpa.Some? <==> r.education[i].gpa != ""
      {
        assert d.education.value[i] == EducationItem(r.education[i]);
      }
    }
  }

  /** One line per skill, in order, showing the level as its text. */
  lemma SkillRows(r: Resume, colors: Palette)
    ensures var d := Render(r, colors);
      d.skills.Some? ==> (|d.skills.value| == |r.skills| &&
      forall i :: 0 <= i < |r.skills| ==> d.skills.value[i].rating == Label(r.skills[i].level))
  {
    var d := Render(r, colors);
    if d.skills.Some? {
      forall i | 0 <= i < |r.skills| ensures d.skills.value[i].rating == Label(r.skills[i].level) {
        assert d.skills.value[i] == SkillItem(r.skills[i]);
      }
    }
  }

  /** One item per project, in order, with dates exactly when it has a start or an end date. */
  lemma ProjectRows(r: Resume, colors: Palette)
    ensures var d := Render(r, colors);
      d.projects.Some? ==> (|d.projects.value| == |r.projects| &&
      forall i :: 0 <= i < |r.projects| ==>
        (d.projects.value[i].dates.Some? <==> r.projects[i].startDate != "" || r.projects[i].endDate != ""))
  {
    var d := Render(r, colors);
    if d.projects.Some? {
      forall i | 0 <= i < |r.projects|
        ensures d.projects.value[i].dates.Some? <==> r.projects[i].startDate != "" || r.projects[i].endDate != ""
      {
        assert d.projects.value[i] == ProjectRow(r.projects[i]);
      }
    }
  }
}
