/**
 * What a template shows, as data rather than markup: which sections appear, and for each entry which
 * texts, dates and ratings. Styling, icons and colours other than the palette passed through are not
 * represented. The rules shared by the three templates are defined here once.
 */
module View {
  import opened Common
  import opened ResumeData
  import DateFormat

  datatype Layout = Modern | Classic | Creative

  datatype ContactKind = EmailContact | PhoneContact | LocationContact | WebsiteContact | LinkedinContact

  datatype Contact = Contact(kind: ContactKind, text: string)

  /** How a skill's level is shown: a bar with the level as caption, the level alone, or four stars. */
  datatype Rating = Bar(percent: nat, caption: string) | Label(level: string) | Stars(filled: seq<bool>)

  datatype SkillView = SkillView(name: string, rating: Rating)

  /** `connector`: the timeline line drawn below the entry's dot (Creative only). */
  datatype ExperienceView = ExperienceView(
    jobTitle: string, company: string, location: Option<string>, dates: string,
    description: Option<string>, connector: bool)

  datatype EducationView = EducationView(
    degree: string, school: string, location: Option<string>, dates: string,
    gpa: Option<string>, description: Option<string>)

  /** Technologies as one line of text, or as one chip per comma-separated piece. */
  datatype Technologies = TechText(text: string) | TechChips(chips: seq<string>)

  /** `hasUrl` / `hasGithub`: whether the link icons are shown. */
  datatype ProjectView = ProjectView(
    name: string, hasUrl: bool, hasGithub: bool, technologies: Option<Technologies>,
    dates: Option<string>, description: Option<string>)

  /** A rendered resume. A section that is `None` is not rendered at all, heading included. */
  datatype Document = Document(
    layout: Layout, palette: Palette,
    name: string, image: Option<string>, contacts: seq<Contact>,
    summary: Option<string>,
    experience: Option<seq<ExperienceView>>,
    education: Option<seq<EducationView>>,
    skills: Option<seq<SkillView>>,
    projects: Option<seq<ProjectView>>)

  /** `{text && ...}`: a text is shown only when it is not empty. */
  function Shown(text: string): (r: Option<string>)
    ensures r.Some? <==> text != ""
    ensures r.Some? ==> r.value == text
  {
    if text == "" then None else Some(text)
  }

  /** `{xs.length > 0 && ...}` over `xs.map(view)`: no section for an empty list, one item per entry otherwise. */
  function Listing<T, U>(xs: seq<T>, view: T -> U): (r: Option<seq<U>>)
    ensures r.None? <==> xs == []
    ensures r.Some? ==> |r.value| == |xs| && forall i :: 0 <= i < |xs| ==> r.value[i] == view(xs[i])
  {
    if xs == [] then None else Some(seq(|xs|, i requires 0 <= i < |xs| => view(xs[i])))
  }

  /** The heading: the full name, or "Your Name" while it is empty. */
  function DisplayName(p: PersonalInfo): (name: string)
    ensures name != ""
    ensures p.fullName != "" ==> name == p.fullName
    ensures p.fullName == "" ==> name == "Your Name"
  {
    if p.fullName != "" then p.fullName else "Your Name"
  }

  /** The profile image is shown when it is set to a non-empty data URL. */
  function ProfileImage(p: PersonalInfo): (r: Option<string>)
    ensures r.Some? <==> Truthy(p.profileImage)
    ensures r.Some? ==> r == p.profileImage
  {
    if Truthy(p.profileImage) then p.profileImage else None
  }

  function ContactText(p: PersonalInfo, k: ContactKind): string
  {
    match k
    case EmailContact => p.email
    case PhoneContact => p.phone
    case LocationContact => p.location
    case WebsiteContact => p.website
    case LinkedinContact => p.linkedin
  }

  /** The contact line of kind `k`, when that field is not empty. */
  function ContactIf(p: PersonalInfo, k: ContactKind): (r: seq<Contact>)
    ensures r == [] <==> ContactText(p, k) == ""
    ensures |r| <= 1 && forall c :: c in r ==> c == Contact(k, ContactText(p, k))
  {
    if ContactText(p, k) == "" then [] else [Contact(k, ContactText(p, k))]
  }

  /** The position of each contact line in the header, first to last. */
  function Rank(k: ContactKind): nat
  {
    match k
    case EmailContact => 0
    case PhoneContact => 1
    case LocationContact => 2
    case WebsiteContact => 3
    case LinkedinContact => 4
  }

  /** The order in which every template lists the contact fields. */
  const HeaderOrder: seq<ContactKind> := [EmailContact, PhoneContact, LocationContact, WebsiteContact, LinkedinContact]

  predicate Ranked(ks: seq<ContactKind>)
  {
    forall i, j :: 0 <= i < j < |ks| ==> Rank(ks[i]) < Rank(ks[j])
  }

  /** The contact lines for the kinds `ks`, in that order: one per kind whose field is not empty. */
  function ContactsIn(p: PersonalInfo, ks: seq<ContactKind>): (r: seq<Contact>)
    ensures forall c :: c in r ==> c.kind in ks && c.text == ContactText(p, c.kind) && c.text != ""
    ensures forall k :: k in ks && ContactText(p, k) != "" ==> Contact(k, ContactText(p, k)) in r
    decreases |ks|
  {
    if ks == [] then [] else ContactIf(p, ks[0]) + ContactsIn(p, ks[1..])
  }

  /** Contact lines listed strictly in header order, so each kind appears at most once. */
  predicate InHeaderOrder(cs: seq<Contact>)
  {
    forall i, j :: 0 <= i < j < |cs| ==> Rank(cs[i].kind) < Rank(cs[j].kind)
  }

  /** In a ranked list of kinds, the first ranks strictly below every later one. */
  lemma RankedHeadFirst(ks: seq<ContactKind>, k: ContactKind)
    requires Ranked(ks) && ks != [] && k in ks[1..]
    ensures Rank(ks[0]) < Rank(k)
  {
    var m :| 0 <= m < |ks[1..]| && ks[1..][m] == k;
    assert ks[m + 1] == k;
  }

  /** Dropping the first kind of a ranked list leaves a ranked list. */
  lemma RankedTail(ks: seq<ContactKind>)
    requires Ranked(ks) && ks != []
    ensures Ranked(ks[1..])
  {
    var tail := ks[1..];
    forall i, j | 0 <= i < j < |tail| ensures Rank(tail[i]) < Rank(tail[j]) {
      assert tail[i] == ks[i + 1] && tail[j] == ks[j + 1];
    }
  }

  /** A line of one kind put before ordered lines of strictly later kinds keeps them in header order. */
  lemma OrderedAfterHead(head: seq<Contact>, rest: seq<Contact>, first: ContactKind)
    requires |head| <= 1 && forall c :: c in head ==> c.kind == first
    requires InHeaderOrder(rest) && forall c :: c in rest ==> Rank(first) < Rank(c.kind)
    ensures InHeaderOrder(head + rest)
  {
    var r := head + rest;
    forall i, j | 0 <= i < j < |r| ensures Rank(r[i].kind) < Rank(r[j].kind) {
      if i < |head| {
        assert r[i] in head && r[j] == rest[j - |head|];
        assert r[j] in rest;
      } else {
        assert r[i] == rest[i - |head|] && r[j] == rest[j - |head|];
      }
    }
  }

  /** When the kinds are listed in header order, so are their contact lines. */
  lemma {:induction false} ContactsInRanked(p: PersonalInfo, ks: seq<ContactKind>)
    requires Ranked(ks)
    ensures InHeaderOrder(ContactsIn(p, ks))
    decreases |ks|
  {
    if ks != [] {
      var tail := ks[1..];
      RankedTail(ks);
      ContactsInRanked(p, tail);
      var rest := ContactsIn(p, tail);
      forall c | c in rest ensures Rank(ks[0]) < Rank(c.kind) {
        RankedHeadFirst(ks, c.kind);
      }
      OrderedAfterHead(ContactIf(p, ks[0]), rest, ks[0]);
    }
  }

  /**
   * The contact lines: exactly the non-empty contact fields, each with its own text, each once, in the
   * fixed order email, phone, location, website, LinkedIn.
   */
  function Contacts(p: PersonalInfo): (r: seq<Contact>)
    ensures forall c :: c in r ==> c.text == ContactText(p, c.kind) && c.text != ""
    ensures forall k :: ContactText(p, k) != "" ==> Contact(k, ContactText(p, k)) in r
    ensures InHeaderOrder(r)
  {
    forall k: ContactKind ensures k in HeaderOrder {
      assert HeaderOrder[Rank(k)] == k;
    }
    ContactsInRanked(p, HeaderOrder);
    ContactsIn(p, HeaderOrder)
  }

  /**
   * An experience entry: title and company always, location and description only when given, the date
   * range ending in "Present" while the position is current, and the connector the template asks for.
   */
  function ExperienceItem(e: Experience, connector: bool): (v: ExperienceView)
    ensures v.jobTitle == e.jobTitle && v.company == e.company && v.connector == connector
    ensures v.location == Shown(e.location) && v.description == Shown(e.description)
    ensures v.location.Some? <==> e.location != ""
    ensures v.description.Some? <==> e.description != ""
    ensures v.dates == DateFormat.FormatDateRange(e.startDate, e.endDate, e.current)
    ensures e.current ==> |v.dates| >= 7 && v.dates[|v.dates| - 7..] == "Present"
  {
    ExperienceView(e.jobTitle, e.company, Shown(e.location),
                   DateFormat.FormatDateRange(e.startDate, e.endDate, e.current),
                   Shown(e.description), connector)
  }

  /** An education entry: its dates are always shown and never as current, its GPA only when given. */
  function EducationItem(e: Education): (v: EducationView)
    ensures v.degree == e.degree && v.school == e.school
    ensures v.location == Shown(e.location) && v.description == Shown(e.description)
    ensures v.location.Some? <==> e.location != ""
    ensures v.gpa.Some? <==> e.gpa != ""
    ensures v.gpa.Some? ==> v.gpa.value == e.gpa
    ensures v.description.Some? <==> e.description != ""
    ensures v.dates == DateFormat.FormatDate(e.startDate) + " - " + DateFormat.FormatDate(e.endDate)
  {
    EducationView(e.degree, e.school, Shown(e.location),
                  DateFormat.FormatDateRange(e.startDate, e.endDate, false),
                  Shown(e.gpa), Shown(e.description))
  }

  /** A project's dates are shown when it has a start or an end date. */
  function ProjectDates(p: Project): (r: Option<string>)
    ensures r.Some? <==> p.startDate != "" || p.endDate != ""
    ensures r.Some? ==> r.value == DateFormat.FormatDateRange(p.startDate, p.endDate, false)
  {
    if p.startDate != "" || p.endDate != "" then Some(DateFormat.FormatDateRange(p.startDate, p.endDate, false))
    else None
  }

  /**
   * A project: the link and repository icons exactly when a URL or repository is given, the dates
   * exactly when a start or an end date is given, the technologies as the template renders them.
   */
  function ProjectItem(p: Project, technologies: Option<Technologies>): (v: ProjectView)
    ensures v.name == p.name && v.technologies == technologies
    ensures v.hasUrl <==> p.url != ""
    ensures v.hasGithub <==> p.github != ""
    ensures v.dates == ProjectDates(p) && v.description == Shown(p.description)
    ensures v.dates.Some? <==> p.startDate != "" || p.endDate != ""
    ensures v.description.Some? <==> p.description != ""
  {
    ProjectView(p.name, p.url != "", p.github != "", technologies, ProjectDates(p), Shown(p.description))
  }

  /** The technologies as one line of text, unsplit, when there are any (Modern and Classic). */
  function TechnologiesText(p: Project): (t: Option<Technologies>)
    ensures t.None? <==> p.technologies == ""
    ensures t.Some? ==> t.value == TechText(p.technologies)
  {
    if p.technologies == "" then None else Some(TechText(p.technologies))
  }
}
