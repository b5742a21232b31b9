/**
 * The Creative template: a sidebar with contacts and star-rated skills, and a main column with the
 * summary, a timeline of experience, education and projects with technology chips.
 */
module CreativeTemplate {
  import opened Common
  import opened ResumeData
  import opened View
  import DateFormat
  import SkillsEditor
  import Text

  /** Filled stars out of four: one per level, four for Expert and for any unknown level. */
  function StarCount(level: string): (n: nat)
    ensures 1 <= n <= 4
    ensures n == 1 <==> level == "Beginner"
    ensures n == 2 <==> level == "Intermediate"
    ensures n == 3 <==> level == "Advanced"
  {
    if level == "Beginner" then 1
    else if level == "Intermediate" then 2
    else if level == "Advanced" then 3
    else 4
  }

  /** Stars and bars agree: a star stands for a quarter of the Modern template's bar. */
  lemma StarsMatchBars(level: string)
    ensures 25 * StarCount(level) == SkillsEditor.BarWidth(level)
  {
  }

  /** `[...Array(4)].map((_, i) => i < count)`: four stars, the first `StarCount` of them filled. */
  function StarRow(level: string): (stars: seq<bool>)
    ensures |stars| == 4
    ensures forall i :: 0 <= i < 4 ==> (stars[i] <==> i < StarCount(level))
  {
    seq(4, i => i < StarCount(level))
  }

  function SkillItem(s: Skill): SkillView
  {
    SkillView(s.name, Stars(StarRow(s.level)))
  }

  /**
   * `technologies.split(',').map(t => t.trim())`: one chip per comma-separated piece, so one more chip
   * than commas; a chip contains no comma and no surrounding whitespace, and may be empty.
   */
  function Chips(t: string): (chips: seq<string>)
    ensures |chips| == Text.Occurrences(t, ',') + 1
    ensures forall i :: 0 <= i < |chips| ==> chips[i] == Text.Trim(Text.Split(t, ',')[i])
    ensures forall i :: 0 <= i < |chips| ==> ',' !in chips[i]
  {
    var pieces := Text.Split(t, ',');
    var chips := seq(|pieces|, i requires 0 <= i < |pieces| => Text.Trim(pieces[i]));
    assert forall i :: 0 <= i < |chips| ==> ',' !in chips[i] by {
      forall i | 0 <= i < |chips| ensures ',' !in chips[i] {
        assert pieces[i] in pieces;
      }
    }
    chips
  }

  function ProjectRow(p: Project): ProjectView
  {
    ProjectItem(p, if p.technologies == "" then None else Some(TechChips(Chips(p.technologies))))
  }

  /** The experience timeline: every entry but the last has a connector to the next. */
  function Timeline(xs: seq<Experience>): (items: seq<ExperienceView>)
    ensures |items| == |xs|
    ensures forall i :: 0 <= i < |xs| ==> items[i] == ExperienceItem(xs[i], i < |xs| - 1)
  {
    seq(|xs|, i requires 0 <= i < |xs| => ExperienceItem(xs[i], i < |xs| - 1))
  }

  /**
   * What the template shows for a resume: each section exactly when it has something in it, skills as
   * stars, a connector after every experience entry but the last, technologies as chips.
   */
  function Render(r: Resume, colors: Palette): (d: Document)
    ensures d.layout == Creative && d.palette == colors
    ensures d.name == DisplayName(r.personalInfo)
    ensures d.image == ProfileImage(r.personalInfo) && d.contacts == Contacts(r.personalInfo)
    ensures d.summary == Shown(r.personalInfo.summary)
    ensures d.summary.Some? <==> r.personalInfo.summary != ""
    ensures d.experience.Some? <==> r.experience != []
    ensures d.education.Some? <==> r.education != []
    ensures d.skills.Some? <==> r.skills != []
    ensures d.projects.Some? <==> r.projects != []
  {
    var p := r.personalInfo;
    Document(Creative, colors, DisplayName(p), ProfileImage(p), Contacts(p), Shown(p.summary),
             if r.experience == [] then None else Some(Timeline(r.experience)),
             Listing(r.education, EducationItem), Listing(r.skills, SkillItem), Listing(r.projects, ProjectRow))
  }

  /** One timeline item per entry, in order, with its date range, each but the last with a connector to the next. */
  lemma ExperienceRows(r: Resume, colors: Palette)
    ensures var d := Render(r, colors);
      d.experience.Some? ==> (|d.experience.value| == |r.experience| &&
      forall i :: 0 <= i < |r.experience| ==>
        var e := r.experience[i];
        d.experience.value[i].dates == DateFormat.FormatDateRange(e.startDate, e.endDate, e.current) &&
        (d.experience.value[i].connector <==> i != |r.experience| - 1))
  {
    var d := Render(r, colors);
    if d.experience.Some? {
      forall i | 0 <= i < |r.experience|
        ensures var e := r.experience[i];
          d.experience.value[i].dates == DateFormat.FormatDateRange(e.startDate, e.endDate, e.current)
        ensures d.experience.value[i].connector <==> i != |r.experience| - 1
      {
        assert d.experience.value[i] == ExperienceItem(r.experience[i], i < |r.experience| - 1);
      }
    }
  }

  /** One row of four stars per skill, in order, as many filled as the level's rank. */
  lemma SkillRows(r: Resume, colors: Palette)
    ensures var d := Render(r, colors);
      d.skills.Some? ==> (|d.skills.value| == |r.skills| &&
      forall i :: 0 <= i < |r.skills| ==> d.skills.value[i].rating == Stars(StarRow(r.skills[i].level)))
  {
    var d := Render(r, colors);
    if d.skills.Some? {
      forall i | 0 <= i < |r.skills| ensures d.skills.value[i].rating == Stars(StarRow(r.skills[i].level)) {
        assert d.skills.value[i] == SkillItem(r.skills[i]);
      }
    }
  }

  /** One item per project, in order, with the technologies as chips and dates exactly when it has one. */
  lemma ProjectRows(r: Resume, colors: Palette)
    ensures var d := Render(r, colors);
      d.projects.Some? ==> (|d.projects.value| == |r.projects| &&
      forall i :: 0 <= i < |r.projects| ==>
        var t := r.projects[i].technologies;
        d.projects.value[i].technologies == (if t == "" then None else Some(TechChips(Chips(t)))) &&
        (d.projects.value[i].dates.Some? <==> r.projects[i].startDate != "" || r.projects[i].endDate != ""))
  {
    var d := Render(r, colors);
    if d.projects.Some? {
      forall i | 0 <= i < |r.projects|
        ensures var t := r.projects[i].technologies;
          d.projects.value[i].technologies == (if t == "" then None else Some(TechChips(Chips(t))))
        ensures d.projects.value[i].dates.Some? <==> r.projects[i].startDate != "" || r.projects[i].endDate != ""
      {
        assert d.projects.value[i] == ProjectRow(r.projects[i]);
      }
    }
  }
}
