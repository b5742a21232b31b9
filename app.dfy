/**
 * The application root: the state it keeps (resume, template id, colours), how that state is set up
 * from what the browser had stored, the one-section update every editor goes through, and the name of
 * the exported file.
 */
module App {
  import opened Common
  import opened ResumeData
  import View
  import ResumePreview
  import ColorPicker

  /** The sections `updateResumeData` can replace, with a value of the section's own type. */
  datatype SectionValue =
    | PersonalInfoValue(info: PersonalInfo)
    | ExperienceValue(experience: seq<Experience>)
    | EducationValue(education: seq<Education>)
    | SkillsValue(skills: seq<Skill>)
    | ProjectsValue(projects: seq<Project>)
    | CertificationsValue(certifications: seq<Certification>)

  datatype Section = PersonalInfoSection | ExperienceSection | EducationSection
                   | SkillsSection | ProjectsSection | CertificationsSection

  function SectionOfValue(v: SectionValue): Section
  {
    match v
    case PersonalInfoValue(_) => PersonalInfoSection
    case ExperienceValue(_) => ExperienceSection
    case EducationValue(_) => EducationSection
    case SkillsValue(_) => SkillsSection
    case ProjectsValue(_) => ProjectsSection
    case CertificationsValue(_) => CertificationsSection
  }

  /** `resumeData[section]`. */
  function Get(r: Resume, s: Section): (v: SectionValue)
    ensures SectionOfValue(v) == s
  {
    match s
    case PersonalInfoSection => PersonalInfoValue(r.personalInfo)
    case ExperienceSection => ExperienceValue(r.experience)
    case EducationSection => EducationValue(r.education)
    case SkillsSection => SkillsValue(r.skills)
    case ProjectsSection => ProjectsValue(r.projects)
    case CertificationsSection => CertificationsValue(r.certifications)
  }

  /** `{ ...prev, [section]: data }`: the named section takes the value and every other section is kept. */
  function WithSection(r: Resume, v: SectionValue): (r': Resume)
    ensures Get(r', SectionOfValue(v)) == v
    ensures forall s :: s != SectionOfValue(v) ==> Get(r', s) == Get(r, s)
  {
    match v
    case PersonalInfoValue(p) => r.(personalInfo := p)
    case ExperienceValue(xs) => r.(experience := xs)
    case EducationValue(xs) => r.(education := xs)
    case SkillsValue(xs) => r.(skills := xs)
    case ProjectsValue(xs) => r.(projects := xs)
    case CertificationsValue(xs) => r.(certifications := xs)
  }

  /** A resume is determined by its sections. */
  lemma {:induction false} SectionsDetermineResume(a: Resume, b: Resume)
    requires forall s :: Get(a, s) == Get(b, s)
    ensures a == b
  {
    assert Get(a, PersonalInfoSection) == Get(b, PersonalInfoSection);
    assert Get(a, ExperienceSection) == Get(b, ExperienceSection);
    assert Get(a, EducationSection) == Get(b, EducationSection);
    assert Get(a, SkillsSection) == Get(b, SkillsSection);
    assert Get(a, ProjectsSection) == Get(b, ProjectsSection);
    assert Get(a, CertificationsSection) == Get(b, CertificationsSection);
  }

  /**
   * Two updates of the same section: the second replaces the first entirely, so of two lists an editor
   * emits in one handler only the last one survives. Updates of different sections commute.
   */
  lemma UpdatesCompose(r: Resume, v: SectionValue, w: SectionValue)
    ensures SectionOfValue(v) == SectionOfValue(w) ==> WithSection(WithSection(r, v), w) == WithSection(r, w)
    ensures SectionOfValue(v) != SectionOfValue(w) ==>
      WithSection(WithSection(r, v), w) == WithSection(WithSection(r, w), v)
  {
    if SectionOfValue(v) == SectionOfValue(w) {
      SectionsDetermineResume(WithSection(WithSection(r, v), w), WithSection(r, w));
    } else {
      SectionsDetermineResume(WithSection(WithSection(r, v), w), WithSection(WithSection(r, w), v));
    }
  }

  /** Writing back a section's current value changes nothing. */
  lemma WriteBackIsIdentity(r: Resume, s: Section)
    ensures WithSection(r, Get(r, s)) == r
  {
    SectionsDetermineResume(WithSection(r, Get(r, s)), r);
  }

  /** The resume a first visit starts with: empty texts, no image, no entries. */
  function DefaultResume(): (r: Resume)
    ensures var p := r.personalInfo;
      p.fullName == "" && p.email == "" && p.phone == "" && p.location == "" &&
      p.website == "" && p.linkedin == "" && p.summary == "" && p.profileImage.None?
    ensures r.experience == [] && r.education == [] && r.skills == [] && r.projects == []
    ensures r.certifications == []
  {
    Resume(PersonalInfo("", "", "", "", "", "", "", None), [], [], [], [], [])
  }

  /** The colours a first visit starts with: Ocean Blue's three colours, without a preset name. */
  function DefaultColors(): (c: Palette)
    ensures c.name.None?
    ensures c.primary == "#3B82F6" && c.secondary == "#8B5CF6" && c.accent == "#06B6D4"
  {
    Palette(None, "#3B82F6", "#8B5CF6", "#06B6D4")
  }

  /** The default colours highlight the Ocean Blue preset and no other. */
  lemma DefaultColorsHighlightOceanBlue()
    ensures forall i :: 0 <= i < |ColorPicker.Presets| ==>
      (ColorPicker.Highlighted(DefaultColors(), ColorPicker.Presets[i]) <==> i == 0)
  {
    ColorPicker.PresetsWellFormed();
  }

  /**
   * The initial resume: the stored string is parsed whenever it is truthy (present and non-empty),
   * and the default is used otherwise. A throwing parse is not caught, so it is the result too.
   */
  function InitialResume(saved: Option<string>, parse: string -> Load<Resume>): (r: Load<Resume>)
    ensures !Truthy(saved) ==> r == Loaded(DefaultResume())
    ensures Truthy(saved) ==> r == parse(saved.value)
  {
    if Truthy(saved) then parse(saved.value) else Loaded(DefaultResume())
  }

  /** The initial colours, by the same rule as the resume. */
  function InitialColors(saved: Option<string>, parse: string -> Load<Palette>): (c: Load<Palette>)
    ensures !Truthy(saved) ==> c == Loaded(DefaultColors())
    ensures Truthy(saved) ==> c == parse(saved.value)
  {
    if Truthy(saved) then parse(saved.value) else Loaded(DefaultColors())
  }

  /** `getItem('selectedTemplate') || 'modern'`: the stored id when truthy, otherwise "modern". */
  function InitialTemplate(saved: Option<string>): (t: string)
    ensures Truthy(saved) ==> t == saved.value
    ensures !Truthy(saved) ==> t == "modern"
    ensures t != ""
  {
    if Truthy(saved) then saved.value else "modern"
  }

  /**
   * A first visit (nothing stored) previews the Modern layout with the default colours, "Your Name"
   * as the heading, and no section below the header.
   */
  lemma FirstVisitPreview(parseResume: string -> Load<Resume>, parseColors: string -> Load<Palette>)
    ensures InitialResume(None, parseResume) == Loaded(DefaultResume())
    ensures InitialColors(None, parseColors) == Loaded(DefaultColors())
    ensures var d := ResumePreview.RenderTemplate(InitialTemplate(None), DefaultResume(), DefaultColors());
      d.layout == View.Modern && d.name == "Your Name" && d.palette == DefaultColors() &&
      d.summary.None? && d.experience.None? && d.education.None? && d.skills.None? && d.projects.None?
  {
  }

  /** The exported file: `<fullName>.pdf`, or `Resume.pdf` when the name is empty; always a ".pdf" name. */
  function ExportFileName(fullName: string): (f: string)
    ensures fullName != "" ==> f == fullName + ".pdf"
    ensures fullName == "" ==> f == "Resume.pdf"
    ensures |f| > 4 && f[|f| - 4..] == ".pdf"
  {
    (if fullName != "" then fullName else "Resume") + ".pdf"
  }

  /** Different non-empty names give different file names. */
  lemma ExportFileNameInjective(a: string, b: string)
    requires a != "" && b != ""
    requires ExportFileName(a) == ExportFileName(b)
    ensures a == b
  {
    assert a == ExportFileName(a)[..|a|];
    assert b == ExportFileName(b)[..|b|];
  }

  /** The three values a previous session left in local storage, each possibly absent. */
  datatype Storage = Storage(resumeData: Option<string>, selectedTemplate: Option<string>, selectedColors: Option<string>)

  /** The application's kept state. */
  class AppState {
    var resumeData: Resume
    var selectedTemplate: string
    var selectedColors: Palette

    constructor (resume: Resume, template: string, colors: Palette)
      ensures resumeData == resume && selectedTemplate == template && selectedColors == colors
    {
      resumeData := resume;
      selectedTemplate := template;
      selectedColors := colors;
    }

    /** `updateResumeData(section, data)`: one section replaced, the rest of the state untouched. */
    method UpdateResumeData(v: SectionValue)
      modifies this`resumeData
      ensures resumeData == WithSection(old(resumeData), v)
      ensures Get(resumeData, SectionOfValue(v)) == v
      ensures forall s :: s != SectionOfValue(v) ==> Get(resumeData, s) == Get(old(resumeData), s)
    {
      resumeData := WithSection(resumeData, v);
    }

    /** `onTemplateChange`: the template selector's emitted id becomes the selection. */
    method SelectTemplate(id: string)
      modifies this`selectedTemplate
      ensures selectedTemplate == id
    {
      selectedTemplate := id;
    }

    /** `onColorsChange`: the colour picker's emitted preset becomes the selection. */
    method SelectColors(colors: Palette)
      modifies this`selectedColors
      ensures selectedColors == colors
    {
      selectedColors := colors;
    }

    /** What the preview shows for the current state. */
    function Preview(): (d: View.Document)
      reads this
      ensures d.layout == ResumePreview.Dispatch(selectedTemplate) && d.palette == selectedColors
      ensures d.name == View.DisplayName(resumeData.personalInfo)
    {
      ResumePreview.RenderTemplate(selectedTemplate, resumeData, selectedColors)
    }

    /** The name the exported PDF is saved under. */
    function FileName(): (f: string)
      reads this
      ensures f == ExportFileName(resumeData.personalInfo.fullName)
      ensures resumeData.personalInfo.fullName == "" ==> f == "Resume.pdf"
    {
      ExportFileName(resumeData.personalInfo.fullName)
    }
  }

  /**
   * The three state initialisers, run in order at mount: `null` when a stored resume or stored colours
   * fail to parse (the exception is not caught and the application does not start), otherwise the
   * state the initialisers produce.
   */
  method Launch(stored: Storage, parseResume: string -> Load<Resume>, parseColors: string -> Load<Palette>)
    returns (app: AppState?)
    ensures app == null <==>
      InitialResume(stored.resumeData, parseResume).Threw? || InitialColors(stored.selectedColors, parseColors).Threw?
    ensures app != null ==> (fresh(app) &&
      app.resumeData == InitialResume(stored.resumeData, parseResume).value &&
      app.selectedTemplate == InitialTemplate(stored.selectedTemplate) &&
      app.selectedColors == InitialColors(stored.selectedColors, parseColors).value)
  {
    var resume := InitialResume(stored.resumeData, parseResume);
    if resume.Threw? {
      return null;
    }
    var template := InitialTemplate(stored.selectedTemplate);
    var colors := InitialColors(stored.selectedColors, parseColors);
    if colors.Threw? {
      return null;
    }
    app := new AppState(resume.value, template, colors.value);
  }
}
