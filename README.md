# Resume builder: a Dafny model of its editing and rendering rules

The resume builder is a browser application. The user fills in a resume section by section: personal
information, work experience, education, skills and projects. They pick one of three templates and a
colour scheme, and watch a live preview. This project models the rules behind that, with the markup,
styling and browser I/O taken out:

- **The resume record and the root update.** `updateResumeData` replaces one named section. The
  initial state is either what the browser had stored or a hard default.
- **The section editors.** Each editor appends an entry with empty fields, updates one field of the
  entry with a given id, or removes an entry by id. The skill editor trims the input and refuses a
  blank name. The personal-information editor refuses images over 5 MiB.
- **The rendering decisions of the three templates (Modern, Classic, Creative).** These cover:
  - date formatting;
  - which sections and lines appear;
  - the name fallback;
  - the skill-level bars, labels and stars;
  - the technology chips;
  - the timeline connectors.

  A rendered resume is a `View.Document` value, not markup.
- **The preview's dispatch on the template id, the colour picker and the template selector.**

Modules follow the source files:

| module | source |
|---|---|
| `App` | `src/App.jsx` |
| `ExperienceEditor`, `EducationEditor`, `ProjectsEditor`, `SkillsEditor`, `PersonalInfoEditor` | the files of the same name under `src/components/editors/` |
| `ResumePreview`, `ColorPicker`, `TemplateSelector` | the files of the same name under `src/components/` |
| `ModernTemplate`, `ClassicTemplate`, `CreativeTemplate` | the files of the same name under `src/components/templates/` |

Some modules hold logic that several source files repeat:

- `EntryList`: the append, map-by-id and filter-by-id list operations every editor performs.
- `DateFormat`: `formatDate` and `formatDateRange`, defined identically in all three templates.
- `View`: the rendered document and the rules the three templates share.
- `Text`: JavaScript's `trim` and one-character `split`.
- `ResumeData`: the entities.
- `Common`: `Option` and the outcome of a parse that may throw.

Entry ids come from the clock in the source. Here they are parameters, and the uniqueness lemmas
require a fresh id. Stored values are `Option<string>`, as `getItem` returns them. `JSON.parse` is a
parameter that returns a value or `Threw`.

The code does not catch an exception from parsing a stored value: `App.InitialResume` returns the
parser's `Threw`, and `App.Launch` then yields no application.

## Model

| member | source | states |
|---|---|---|
| Text.TrimOffset | src/components/editors/SkillsEditor.jsx:14-17 | the leading whitespace ends at the first character that is not whitespace |
| Text.TrimEndOffset | src/components/editors/SkillsEditor.jsx:14-17 | the trailing whitespace starts just after the last character that is not whitespace |
| Text.Trim | src/components/editors/SkillsEditor.jsx:14-17 | `trim` yields the slice of the input that starts at `TrimOffset`, with only whitespace before and after it, and it neither starts nor ends with whitespace |
| Text.TrimEmptyIff | src/components/editors/SkillsEditor.jsx:14 | the trimmed text is empty exactly when the input is all whitespace (the skill guard's test) |
| Text.TrimIdempotent | src/components/editors/SkillsEditor.jsx:17 | trimming a stored skill name again changes nothing |
| Text.Split | src/components/templates/CreativeTemplate.jsx:243 | `split(',')` yields one more piece than there are commas, and no piece contains a comma |
| Text.SplitThenJoin | src/components/templates/CreativeTemplate.jsx:243 | joining the pieces with the separator restores the text, so splitting loses nothing |
| Text.JoinThenSplit | src/components/templates/CreativeTemplate.jsx:243 | splitting joined comma-free pieces yields exactly those pieces |
| EntryList.AppendFreshKeepsUnique | src/components/editors/ExperienceEditor.jsx:24 | `[...data, entry]` with an unused id keeps ids unique |
| EntryList.Without | src/components/editors/ExperienceEditor.jsx:38 | `filter(x => x.id !== id)` leaves no entry with that id and never grows the list |
| EntryList.WithoutMembers | src/components/editors/ExperienceEditor.jsx:38 | an entry survives the filter exactly when it was there and has another id |
| EntryList.WithoutConcat | src/components/editors/ExperienceEditor.jsx:38 | filtering distributes over concatenation, so the survivors keep their relative order |
| EntryList.WithoutAbsent | src/components/editors/ExperienceEditor.jsx:38 | removing an absent id returns the list unchanged |
| EntryList.WithoutIdempotent | src/components/editors/ExperienceEditor.jsx:38 | removing twice equals removing once |
| EntryList.WithoutSplice | src/components/editors/ExperienceEditor.jsx:38 | removing the id of an entry that appears once between two parts yields the two parts joined |
| EntryList.UniqueNotBefore | src/components/editors/ExperienceEditor.jsx:38 | with unique ids, no entry before position i shares entry i's id |
| EntryList.UniqueNotAfter | src/components/editors/ExperienceEditor.jsx:38 | with unique ids, no entry after position i shares entry i's id |
| EntryList.WithoutOnly | src/components/editors/ExperienceEditor.jsx:38 | when entry i's id occurs nowhere else, removing it cuts out exactly entry i |
| EntryList.WithoutAt | src/components/editors/ExperienceEditor.jsx:38 | with unique ids, removing entry i's id cuts out exactly entry i |
| EntryList.WithoutKeepsUnique | src/components/editors/ExperienceEditor.jsx:38 | removal keeps ids unique |
| EntryList.MapWhere | src/components/editors/ExperienceEditor.jsx:32-34 | `map(x => x.id === id ? f(x) : x)` keeps the length and applies `f` exactly at matching positions |
| EntryList.MapWhereAbsent | src/components/editors/ExperienceEditor.jsx:32-34 | an update of an absent id returns the list unchanged |
| EntryList.MapWhereKeepsIds | src/components/editors/ExperienceEditor.jsx:32-34 | an update that leaves ids alone keeps every id in place and keeps them unique |
| EntryList.ReplayKeepsUnique | src/components/editors/ExperienceEditor.jsx:13-38 | any session of fresh-id appends, id-preserving updates and removals keeps ids unique |
| ExperienceEditor.Edited | src/components/editors/ExperienceEditor.jsx:33 | `{...exp, [field]: value}` sets the named field and keeps the id and every other field |
| ExperienceEditor.Add | src/components/editors/ExperienceEditor.jsx:13-24 | one entry appended after the unchanged old list, with the given id, empty texts and `current` false |
| ExperienceEditor.AddFresh | src/components/editors/ExperienceEditor.jsx:13-24 | with an unused id, adding keeps ids unique, and removing that id restores the list |
| ExperienceEditor.Update | src/components/editors/ExperienceEditor.jsx:31-35 | same length; matching entries are edited and all others are unchanged, in place |
| ExperienceEditor.UpdateAbsent | src/components/editors/ExperienceEditor.jsx:32-34 | an update of an absent id returns the list unchanged |
| ExperienceEditor.UpdateKeepsIds | src/components/editors/ExperienceEditor.jsx:31-35 | an update keeps every id in place, hence keeps ids unique |
| ExperienceEditor.Remove | src/components/editors/ExperienceEditor.jsx:37-38 | exactly the entries with another id remain |
| ExperienceEditor.RemoveCutsOut | src/components/editors/ExperienceEditor.jsx:37-38 | with unique ids, removal cuts out exactly the one entry, keeps the order of the rest, and is idempotent |
| ExperienceEditor.CurrentChanged | src/components/editors/ExperienceEditor.jsx:149-154 | the checkbox handler as written emits first the update setting `current` to the box, then, when checking, a second update of the same old list clearing `endDate`; one list when unchecking |
| ExperienceEditor.CheckingKeepsStaleCurrent | src/components/editors/ExperienceEditor.jsx:149-154 | the last list emitted on checking is the old list with only the matching entries' `endDate` cleared, so their `current` keeps its old value |
| ExperienceEditor.CheckingOneEntry | src/components/editors/ExperienceEditor.jsx:149-154 | for a freshly added entry, the prevailing list after checking still has `current` false |
| ExperienceEditor.UncheckingClearsFlagOnly | src/components/editors/ExperienceEditor.jsx:150-153 | unchecking emits one list that sets `current` false and leaves every `endDate` alone |
| ExperienceEditor.CurrentChangedIntended | src/components/editors/ExperienceEditor.jsx:149-154 | the corrected handler sets each matching entry's `current` to the box and, when checked, empties its end date, keeping its id and every other field; other entries are unchanged |
| EducationEditor.Edited | src/components/editors/EducationEditor.jsx:33 | `{...edu, [field]: value}` sets the named field and keeps the id and every other field |
| EducationEditor.Add | src/components/editors/EducationEditor.jsx:13-24 | one entry appended after the unchanged old list, with the given id and all seven texts empty |
| EducationEditor.AddFresh | src/components/editors/EducationEditor.jsx:13-24 | with an unused id, adding keeps ids unique, and removing that id restores the list |
| EducationEditor.Update | src/components/editors/EducationEditor.jsx:31-35 | same length; matching entries are edited and all others are unchanged, in place |
| EducationEditor.UpdateKeepsIds | src/components/editors/EducationEditor.jsx:31-35 | an update keeps ids unique; with an absent id it changes nothing |
| EducationEditor.Remove | src/components/editors/EducationEditor.jsx:37-38 | exactly the entries with another id remain |
| EducationEditor.RemoveCutsOut | src/components/editors/EducationEditor.jsx:37-38 | with unique ids, removal cuts out exactly the one entry, keeps the order of the rest, and is idempotent |
| ProjectsEditor.Edited | src/components/editors/ProjectsEditor.jsx:33 | `{...project, [field]: value}` sets the named field verbatim and keeps the id and every other field |
| ProjectsEditor.Add | src/components/editors/ProjectsEditor.jsx:13-24 | one entry appended after the unchanged old list, with the given id and all seven texts empty |
| ProjectsEditor.AddFresh | src/components/editors/ProjectsEditor.jsx:13-24 | with an unused id, adding keeps ids unique, and removing that id restores the list |
| ProjectsEditor.Update | src/components/editors/ProjectsEditor.jsx:31-35 | same length; matching entries are edited and all others are unchanged; technologies are stored as typed |
| ProjectsEditor.UpdateKeepsIds | src/components/editors/ProjectsEditor.jsx:31-35 | an update keeps ids unique; with an absent id it changes nothing |
| ProjectsEditor.Remove | src/components/editors/ProjectsEditor.jsx:37-38 | exactly the entries with another id remain |
| ProjectsEditor.RemoveCutsOut | src/components/editors/ProjectsEditor.jsx:37-38 | with unique ids, removal cuts out exactly the one entry, keeps the order of the rest, and is idempotent |
| SkillsEditor.NewSkill | src/components/editors/SkillsEditor.jsx:14-19 | no skill when the text is whitespace only; otherwise the trimmed, non-empty name, the given id and level "Intermediate" |
| SkillsEditor.Add | src/components/editors/SkillsEditor.jsx:13-20 | nothing is emitted for a blank text; otherwise the old list is kept and the new skill is appended |
| SkillsEditor.AddFresh | src/components/editors/SkillsEditor.jsx:15-20 | with an unused id, adding keeps ids unique, and removing that id restores the list |
| SkillsEditor.Remove | src/components/editors/SkillsEditor.jsx:29-30 | exactly the skills with another id remain |
| SkillsEditor.RemoveCutsOut | src/components/editors/SkillsEditor.jsx:29-30 | with unique ids, removal cuts out exactly the one skill, keeps the order of the rest, and is idempotent |
| SkillsEditor.UpdateLevel | src/components/editors/SkillsEditor.jsx:37-41 | only `level` of the matching skills changes; ids, names and other skills stay |
| SkillsEditor.BarWidth | src/components/editors/SkillsEditor.jsx:123-125 | 25, 50 and 75 percent exactly for Beginner, Intermediate and Advanced; 100 for anything else |
| SkillsEditor.LevelsAreGraded | src/components/editors/SkillsEditor.jsx:49 | four distinct levels in order, each a quarter wider than the one before |
| SkillsEditor.SkillInput.Change | src/components/editors/SkillsEditor.jsx:68 | typing sets the new-skill text |
| SkillsEditor.SkillInput.AddSkill | src/components/editors/SkillsEditor.jsx:13-27 | emits the list `Add` gives for the current text; clears the text exactly when it emits |
| SkillsEditor.SkillInput.KeyPress | src/components/editors/SkillsEditor.jsx:43-47 | Enter adds the skill; any other key emits nothing and keeps the text |
| PersonalInfoEditor.HandleInputChange | src/components/editors/PersonalInfoEditor.jsx:14-19 | the named field takes the value, and every other field is unchanged |
| PersonalInfoEditor.HandleImageUpload | src/components/editors/PersonalInfoEditor.jsx:21-43 | nothing happens without a file; a file over 5 MiB is refused; otherwise only the image changes, to the data URL |
| PersonalInfoEditor.SizeLimitIsInclusive | src/components/editors/PersonalInfoEditor.jsx:24 | exactly 5 MiB is accepted, and one byte more is refused |
| PersonalInfoEditor.RemoveImage | src/components/editors/PersonalInfoEditor.jsx:45-50 | the emitted record has no image and the same texts, and a mounted file input is cleared |
| DateFormat.FormatDate | src/components/templates/ModernTemplate.jsx:7-11 | empty exactly for an empty date; "Mon YYYY" for a year-month; "Invalid Date" for other text |
| DateFormat.FormatDateInjective | src/components/templates/ModernTemplate.jsx:7-11 | two different year-months never render alike |
| DateFormat.FormatDateRange | src/components/templates/ModernTemplate.jsx:13-17 | the range is the formatted start, " - ", then "Present" when current or else the formatted end; an empty start still yields " - " |
| DateFormat.CurrentPositionRange | src/components/templates/ModernTemplate.jsx:13-17 | a current position from 2023-01 renders "Jan 2023 - Present" |
| View.Shown | src/components/templates/ModernTemplate.jsx:82 | a text line appears exactly when the text is non-empty |
| View.Listing | src/components/templates/ModernTemplate.jsx:95 | a section is absent exactly when its list is empty; otherwise it has one item per entry, in order |
| View.DisplayName | src/components/templates/ModernTemplate.jsx:43 | the heading is the full name, or "Your Name" when it is empty |
| View.ProfileImage | src/components/templates/ModernTemplate.jsx:34 | the image shows exactly when it is set and non-empty |
| View.ContactIf | src/components/templates/ModernTemplate.jsx:45-74 | one contact line of a kind exactly when its field is not empty |
| View.ContactsIn | src/components/templates/ModernTemplate.jsx:45-74 | the contact lines of the listed kinds: each non-empty field of those kinds, with its own text |
| View.RankedTail | src/components/templates/ModernTemplate.jsx:45-74 | the kinds after the first of a header-ordered list are still in header order |
| View.RankedHeadFirst | src/components/templates/ModernTemplate.jsx:45-74 | the first kind of a header-ordered list comes before every later one |
| View.OrderedAfterHead | src/components/templates/ModernTemplate.jsx:45-74 | a line of the first kind put before ordered lines of later kinds keeps header order |
| View.ContactsInRanked | src/components/templates/ModernTemplate.jsx:45-74 | kinds listed in header order give contact lines in header order |
| View.Contacts | src/components/templates/ModernTemplate.jsx:45-74 | exactly the non-empty contact fields appear, each with its own text, each once, in the order email, phone, location, website, LinkedIn |
| View.ExperienceItem | src/components/templates/ModernTemplate.jsx:104-122 | title and company always; location and description shown as the entry's own text exactly when non-empty; the entry's date range, ending in "Present" when current |
| View.EducationItem | src/components/templates/ModernTemplate.jsx:138-154 | degree and school always; location, GPA and description shown as the entry's own text exactly when non-empty; the start and end dates, never "Present" |
| View.ProjectItem | src/components/templates/ModernTemplate.jsx:203-234 | the link and repository icons exactly when a URL or repository is given; the dates are `ProjectDates`, so shown exactly when a start or end date is given; the description as typed when non-empty |
| View.TechnologiesText | src/components/templates/ModernTemplate.jsx:218-222 | the technologies line appears exactly when the field is non-empty, as the text typed |
| View.ProjectDates | src/components/templates/ModernTemplate.jsx:224-229 | a project's range appears exactly when it has a start or an end date |
| ModernTemplate.Render | src/components/templates/ModernTemplate.jsx:43-240 | the name fallback; the profile image, the contact lines of `View.Contacts` (so in header order) and the summary line; summary and each section present iff non-empty |
| ModernTemplate.ExperienceRows | src/components/templates/ModernTemplate.jsx:104-122 | one item per entry, in order, each with the entry's date range and no connector |
| ModernTemplate.SkillRows | src/components/templates/ModernTemplate.jsx:170-187 | one bar per skill, in order, `BarWidth` of its level wide and captioned with the level |
| ModernTemplate.ProjectRows | src/components/templates/ModernTemplate.jsx:203-234 | one item per project, in order, technologies as one line, dates exactly when it has a start or end date |
| ClassicTemplate.Render | src/components/templates/ClassicTemplate.jsx:32-218 | the name fallback; the profile image, the contact lines of `View.Contacts` (so in header order) and the summary line; sections present iff non-empty |
| ClassicTemplate.ExperienceRows | src/components/templates/ClassicTemplate.jsx:92-103 | one item per entry, in order, each with the entry's date range and no connector |
| ClassicTemplate.EducationRows | src/components/templates/ClassicTemplate.jsx:128-138 | one item per education entry, in order, with a GPA line exactly when a GPA is given |
| ClassicTemplate.SkillRows | src/components/templates/ClassicTemplate.jsx:160-163 | one line per skill, in order, showing the level as its text |
| ClassicTemplate.ProjectRows | src/components/templates/ClassicTemplate.jsx:180-205 | one item per project, in order, with dates exactly when it has a start or end date |
| CreativeTemplate.StarCount | src/components/templates/CreativeTemplate.jsx:95-97 | between 1 and 4 filled stars: 1, 2 and 3 exactly for Beginner, Intermediate and Advanced |
| CreativeTemplate.StarsMatchBars | src/components/templates/CreativeTemplate.jsx:95-97 | a star is worth a quarter of the Modern bar for every level |
| CreativeTemplate.StarRow | src/components/templates/CreativeTemplate.jsx:93-97 | four stars, and the first `StarCount` of them are filled |
| CreativeTemplate.Chips | src/components/templates/CreativeTemplate.jsx:243-249 | one chip per comma-separated piece, trimmed: commas plus one chips, none containing a comma |
| CreativeTemplate.Timeline | src/components/templates/CreativeTemplate.jsx:145 | one item per entry, with a connector on every entry but the last |
| CreativeTemplate.Render | src/components/templates/CreativeTemplate.jsx:82-262 | the name fallback; the profile image, the contact lines of `View.Contacts` (so in header order) and the summary line; sections present iff non-empty |
| CreativeTemplate.ExperienceRows | src/components/templates/CreativeTemplate.jsx:139-161 | one timeline item per entry, in order, each with the entry's date range and a connector on all but the last |
| CreativeTemplate.SkillRows | src/components/templates/CreativeTemplate.jsx:86-97 | one row of stars per skill, in order, `StarRow` of its level |
| CreativeTemplate.ProjectRows | src/components/templates/CreativeTemplate.jsx:226-258 | one item per project, in order, technologies as chips, dates exactly when it has a start or end date |
| ResumePreview.Dispatch | src/components/ResumePreview.jsx:11-18 | "classic" and "creative" select their renderers; every other id selects Modern, so dispatch is total |
| ResumePreview.LayoutId | src/components/ResumePreview.jsx:12-17 | each layout's id dispatches back to that layout |
| ResumePreview.LayoutIdInjective | src/components/ResumePreview.jsx:12-17 | different layouts have different ids |
| ResumePreview.RenderTemplate | src/components/ResumePreview.jsx:8-19 | the chosen renderer gets the same resume and colours; name, palette and section presence do not depend on the template |
| ResumePreview.UnknownIdIsModern | src/components/ResumePreview.jsx:16-17 | any id other than "classic" or "creative" previews exactly as "modern" |
| ColorPicker.PresetsWellFormed | src/components/ColorPicker.jsx:5-12 | six named presets with pairwise different primary colours |
| ColorPicker.Highlighted | src/components/ColorPicker.jsx:29 | a preset is highlighted exactly when its primary colour equals the selected primary, so the selected preset itself always is |
| ColorPicker.AtMostOneHighlighted | src/components/ColorPicker.jsx:29 | whatever is selected, at most one preset is highlighted |
| ColorPicker.Choose | src/components/ColorPicker.jsx:33 | a click emits exactly the clicked preset, all three colours and its name, and afterwards exactly that preset is highlighted |
| TemplateSelector.CardsWellFormed | src/components/TemplateSelector.jsx:5-24 | three cards with distinct ids |
| TemplateSelector.IsSelected | src/components/TemplateSelector.jsx:37-50 | a card is highlighted and ticked exactly when its id is the selected id, which then dispatches to that card's layout |
| TemplateSelector.AtMostOneSelected | src/components/TemplateSelector.jsx:37 | whatever is selected, at most one card is highlighted and ticked |
| TemplateSelector.Click | src/components/TemplateSelector.jsx:41 | a click emits the card's id; afterwards exactly that card is selected, and the id dispatches to its own layout |
| TemplateSelector.EveryLayoutOffered | src/components/TemplateSelector.jsx:5-24 | every layout the preview can render has a card |
| App.Get | src/App.jsx:62-67 | reading a section yields a value of that section |
| App.WithSection | src/App.jsx:62-67 | `updateResumeData` sets the named section and leaves every other section unchanged |
| App.SectionsDetermineResume | src/App.jsx:62-67 | two resumes with equal sections are equal |
| App.UpdatesCompose | src/App.jsx:62-67 | a second update of the same section overrides the first; updates of different sections commute |
| App.WriteBackIsIdentity | src/App.jsx:62-67 | writing back a section's own value changes nothing |
| App.DefaultResume | src/App.jsx:16-32 | all personal texts empty, no image, and every list empty |
| App.DefaultColors | src/App.jsx:41-45 | no preset name, and primary #3B82F6, secondary #8B5CF6, accent #06B6D4 |
| App.DefaultColorsHighlightOceanBlue | src/App.jsx:41-45 | the default colours highlight Ocean Blue and no other preset |
| App.InitialResume | src/App.jsx:14-33 | a truthy stored string is parsed, and a thrown parse propagates; otherwise the default |
| App.InitialColors | src/App.jsx:39-46 | a truthy stored string is parsed, and a thrown parse propagates; otherwise the default |
| App.InitialTemplate | src/App.jsx:35-37 | the stored id when truthy, otherwise "modern"; never empty |
| App.FirstVisitPreview | src/App.jsx:14-46 | with nothing stored, the preview is Modern with the default colours, "Your Name" and no sections |
| App.ExportFileName | src/App.jsx:108 | `fullName + ".pdf"`, or "Resume.pdf" for an empty name; always ends in ".pdf" |
| App.ExportFileNameInjective | src/App.jsx:108 | different non-empty names give different file names |
| App.AppState.UpdateResumeData | src/App.jsx:62-67 | the kept resume gets one section replaced, and the rest of the state is untouched |
| App.AppState.SelectTemplate | src/App.jsx:151-154 | the emitted template id becomes the selection |
| App.AppState.SelectColors | src/App.jsx:156-159 | the emitted palette becomes the selection |
| App.AppState.Preview | src/App.jsx:175-179 | the preview has the dispatched layout, the selected colours and the name fallback |
| App.AppState.FileName | src/App.jsx:108 | the export name of the kept full name |
| App.Launch | src/App.jsx:14-46 | no application when a stored resume or stored colours fail to parse; otherwise the three initial values |

## Left out

- JSX markup, CSS classes, inline styles, colours applied to elements and animation: presentation only.
  The palette is carried into the document and not used further.
- The order and placement of sections on the page (sidebar or main column, header band). The model
  states which sections appear and what each shows, not where.
- Toast notifications: they have no effect on state.
- Reading and writing local storage, and `JSON.stringify`. Stored values come in as `Option<string>`,
  and the parser is a parameter.
- `JSON.parse` itself. A stored value that parses to a value of the wrong shape is not modelled: the
  parser is typed to return a `Resume` or `Palette`, or to throw.
- PDF export (`html2canvas`, `jsPDF`, the page-fit arithmetic in floating point): foreign libraries.
  Only the file name is modelled.
- `Date.now()` ids: clock-dependent. Ids are parameters.
- The `FileReader` conversion to a data URL: asynchronous and foreign. Its result is the `dataUrl`
  parameter.
- The `FileReader` callback closes over the `data` of the render that started the upload. The
  model applies it to the record it is given.
- DateFormat.FormatDate: covers "YYYY-MM" months with years 1000 to 9999. It does not model the
  browser's lenient parsing of other text, years outside that range, or the time-zone shift. The
  `-01` date is parsed as UTC and printed in local time, which west of UTC shows the previous month.
- `Header.jsx` and `ResumeEditor.jsx`, and the preview-mode toggle: button labels and tab wiring,
  with no logic of their own.
- Field updates with a value of the wrong type (a boolean into a text field) cannot be expressed:
  each editor's `Edit`/`Field` types only allow well-typed updates.
- Certifications: the default resume carries an empty list, which `App.WithSection` can replace.
  No editor or template reads it, so its entries are plain strings.
- React's batching of the two `onChange` calls in the experience checkbox handler is not modelled as
  such: `ExperienceEditor.CurrentChanged` returns the lists in the order emitted, and that the last
  one prevails is `App.UpdatesCompose` applied to the experience section.

## Findings

| source | as written | input that shows it | evidently intended | confidence | as-written member | corrected member |
|---|---|---|---|---|---|---|
| src/components/editors/ExperienceEditor.jsx:149-154 | checking "I currently work here" emits the `current: true` list and then the `endDate: ''` list, both built from the same `data`, so the second discards the first | one entry with `current` false and any end date; tick the box; the prevailing list has `endDate` empty and `current` still false, so the box stays unticked and the range ends in " - " with nothing after it instead of "Present" | the entry ends with `current` true and an empty end date | not executed | ExperienceEditor.CheckingKeepsStaleCurrent | ExperienceEditor.CurrentChangedIntended |
