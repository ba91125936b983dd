# resume_maker in Dafny

This project models the data core of a single-page resume builder. A user
fills in one resume record in an editor form, picks one of seven templates
in a picker, sees the record rendered by that template in a preview pane,
and prints the pane under a document title derived from the full name.

The record (`ResumeData`) is a personal-info singleton with seven text
fields, plus five lists of entries that carry ids: experience, education,
skill categories, projects and certifications. The model covers five parts.

- **Record and editor** (`Resume`, `Entries`, `Editor`, `Form`, `Strings`):
  - every handler of the editor form builds a new record from the old one:
    `updatePersonalInfo`, and add/update/remove for each of the five lists;
  - the phone sanitiser and the skills parser, with the string operations
    they use (`split`, `trim`, `join`, `filter(Boolean)`);
  - the invariants that every session keeps.
- **Application state** (`AppState.App`): a class with the two state cells,
  the record and the selected template id, and their two setters.
- **Download title** (`Download`): the `documentTitle` expression.
- **Preview and picker** (`Preview`, `Selector`):
  - the switch from template id to template, with Classic as the fallback;
  - the `resume-preview` container;
  - the list of seven template buttons and which of them is highlighted.
- **Templates** (`Blocks`, `Layout`, `Sections`, and one module per
  template):
  - with the styling stripped, each template is a function from the record
    to a flat sequence of blocks;
  - each block carries the kind of text it shows (name, section heading,
    contact value, grade, link, bullet, chip, separator, connector,
    accent dot);
  - `Select(page, kind)` reads the texts of one kind in page order, and
    every template property is stated on it.

Date formatting is a parameter `fmt: string -> string`. The model fixes
only that the empty string formats to the empty string. Entry ids, which
the source takes from the clock, are parameters too.

## Model

| member | source | states |
|---|---|---|
| Resume.InitialData | src/App.tsx:61-76 | every personal field of the initial record is empty and all five lists are empty |
| Resume.SetPersonal | src/components/DataInput.tsx:16-21 | spreading `{...personalInfo, [field]: value}` makes `field` read back `value` and keeps every other personal field |
| Resume.PersonalExtensional | src/App.tsx:13-21 | two personal records that agree on every field are equal, so the field-wise frame facts pin the record down |
| Resume.PutExperience | src/components/DataInput.tsx:41-48 | `{...exp, [field]: value}` keeps the id, makes `field` read back `value`, and keeps every other field |
| Resume.PutEducation | src/components/DataInput.tsx:75-82 | the same spread on an education entry: id kept, only `field` changed |
| Resume.PutSkill | src/components/DataInput.tsx:105-116 | the same spread on a skill category: id kept, only `field` changed |
| Resume.PutProject | src/components/DataInput.tsx:141-148 | the same spread on a project: id kept, only `field` changed |
| Resume.PutCertification | src/components/DataInput.tsx:173-180 | the same spread on a certification: id kept, only `field` changed |
| Resume.ExperienceExtensional | src/App.tsx:23-31 | experience entries that agree on id and every field are equal |
| Resume.EducationExtensional | src/App.tsx:32-39 | education entries that agree on id and every field are equal |
| Resume.SkillExtensional | src/App.tsx:40-44 | skill categories that agree on id and every field are equal |
| Resume.ProjectExtensional | src/App.tsx:45-51 | projects that agree on id and every field are equal |
| Resume.CertificationExtensional | src/App.tsx:52-58 | certifications that agree on id and every field are equal |
| Strings.Split | src/components/DataInput.tsx:492 | `split` with a one-character separator yields at least one piece and no piece holds the separator |
| Strings.SplitCount | src/components/DataInput.tsx:492 | a split yields one piece more than the input has separators, so empty pieces are kept |
| Strings.JoinSplit | src/components/DataInput.tsx:487-492 | joining the pieces of a split with the separator gives back the input |
| Strings.SplitJoin | src/components/DataInput.tsx:487-492 | splitting the join of separator-free pieces gives back the pieces |
| Strings.SplitAppend | src/components/DataInput.tsx:492 | splitting at a separator splits the two sides independently |
| Strings.TrimStart | src/components/DataInput.tsx:492 | the result is a suffix of the input, everything cut off is whitespace, and it does not start with whitespace |
| Strings.TrimEnd | src/components/DataInput.tsx:492 | the result is a prefix of the input, everything cut off is whitespace, and it does not end with whitespace |
| Strings.Trim | src/components/DataInput.tsx:492 | the result is a run of the input with nothing but whitespace cut off before and after it, and it has no whitespace at either end, so exactly the whitespace at both ends is removed |
| Strings.TrimBlank | src/components/DataInput.tsx:492 | a string of whitespace trims to the empty string |
| Strings.TrimOfTrimmed | src/components/DataInput.tsx:487-492 | trimming leaves a trimmed string alone and removes the blank that `join(", ")` puts in front of it |
| Strings.NonEmpty | src/components/templates/ClassicTemplate.tsx:94 | `filter(Boolean)` keeps exactly the non-empty items and is no longer than its input |
| Strings.NonEmptyAppend | src/components/templates/ClassicTemplate.tsx:94 | the filter of a concatenation is the concatenation of the filters, so order is kept |
| Entries.Ids | src/components/DataInput.tsx:41-55 | the id list has one id per entry, in entry order |
| Entries.UpdateWhere | src/components/DataInput.tsx:41-48 | `map` with an id test keeps the length and edits exactly the entries whose id matches |
| Entries.RemoveWhere | src/components/DataInput.tsx:50-55 | `filter` on the id keeps only entries of the input, none with the id, and every entry without it |
| Entries.UpdateAbsent | src/components/DataInput.tsx:41-48 | an update whose id matches no entry leaves the list unchanged |
| Entries.UpdateKeepsIds | src/components/DataInput.tsx:41-48 | an edit that keeps ids keeps the id list, so it keeps ids distinct |
| Entries.RemoveAppend | src/components/DataInput.tsx:50-55 | removal distributes over concatenation, so survivors keep their order |
| Entries.RemoveDropsId | src/components/DataInput.tsx:50-55 | after a removal no entry carries the id |
| Entries.RemoveAbsent | src/components/DataInput.tsx:50-55 | removing an id no entry carries leaves the list unchanged |
| Entries.RemoveCount | src/components/DataInput.tsx:50-55 | the length falls by exactly the number of entries carrying the id |
| Entries.AddThenRemove | src/components/DataInput.tsx:23-55 | appending an entry with a fresh id and then removing that id restores the list |
| Entries.AddKeepsDistinct | src/components/DataInput.tsx:23-39 | appending an entry with a fresh id keeps ids distinct |
| Entries.RemoveKeepsDistinct | src/components/DataInput.tsx:50-55 | removal keeps ids distinct |
| Entries.SameIdsDistinct | src/components/DataInput.tsx:41-48 | distinctness depends on the id list alone |
| Editor.UpdatePersonalInfo | src/components/DataInput.tsx:16-21 | `updatePersonalInfo` sets personal field `f` to `v`, keeps the other personal fields, and leaves all five lists unchanged |
| Editor.SanitizePhone | src/components/DataInput.tsx:225 | the sanitised phone is no longer than its input and holds only digits and `-` |
| Editor.SanitizeAppend | src/components/DataInput.tsx:225 | the sanitiser works character by character, so it keeps the order of what it keeps |
| Editor.SanitizeKeepsExactly | src/components/DataInput.tsx:225 | every digit and `-` of the input survives as often as it occurs, and nothing else does |
| Editor.SanitizeIdempotent | src/components/DataInput.tsx:225 | a string of digits and `-` passes unchanged, so sanitising twice equals sanitising once |
| Editor.OnPhoneInput | src/components/DataInput.tsx:224-227 | the phone field afterwards holds only digits and `-`, and nothing else in the record changes |
| Editor.Map | src/components/DataInput.tsx:492 | `map` gives one result per element, the i-th result being the function applied to the i-th element |
| Editor.MapAppend | src/components/DataInput.tsx:492 | mapping a concatenation maps each side |
| Editor.TrimEach | src/components/DataInput.tsx:492 | `map(trim)` gives one item per piece, the i-th item being the i-th piece trimmed |
| Editor.TrimEachClean | src/components/DataInput.tsx:492 | every mapped item is trimmed and holds no character that no piece held |
| Editor.ParseSkills | src/components/DataInput.tsx:492 | one item per comma-separated piece, the i-th item being the i-th piece trimmed, so it is trimmed and comma-free |
| Editor.ParseSkillsCount | src/components/DataInput.tsx:492 | there are as many items as commas plus one, empty pieces included |
| Editor.ParseSkillsPiece | src/components/DataInput.tsx:492 | a piece without a comma is one item, the piece trimmed |
| Editor.ParseSkillsJoin | src/components/DataInput.tsx:492 | comma-free pieces joined with commas parse back to the pieces, each trimmed |
| Editor.ParseSkillsFour | src/components/DataInput.tsx:492 | four comma-free pieces joined with commas give four items, each trimmed on its own |
| Editor.ParseSkillsExample | src/components/DataInput.tsx:492 | `"JS, , React ,"` gives the four items `JS`, empty, `React`, empty |
| Editor.ParseSkillsAppend | src/components/DataInput.tsx:492 | each comma-separated piece is parsed on its own |
| Editor.ParseSkillsBlank | src/components/DataInput.tsx:492 | an empty or blank piece becomes an empty item rather than being dropped |
| Editor.ShownPiecesJoin | src/components/DataInput.tsx:487 | the text shown in the skills input, `items.join(", ")`, splits at its commas into the items with a blank in front of all but the first |
| Editor.SkillsRoundTrip | src/components/DataInput.tsx:487-492 | parsing what the input shows gives back a non-empty list of trimmed, comma-free items |
| Editor.SkillsRoundTripEmpty | src/components/DataInput.tsx:487-492 | the round trip fails for the empty list, which comes back as `[""]` |
| Editor.AddExperience | src/components/DataInput.tsx:23-39 | exactly one entry is appended, carrying the given id and the empty defaults (`current` false); earlier entries and the other sections are unchanged |
| Editor.UpdateExperience | src/components/DataInput.tsx:41-48 | the length, order and ids are kept, only field `f` of the entries with the id changes, and an absent id leaves the record unchanged |
| Editor.RemoveExperience | src/components/DataInput.tsx:50-55 | every entry with the id is dropped, every other entry is kept, an absent id changes nothing, and the other sections are unchanged; the new list is the `filter` of the old one on the id, so survivors keep their order |
| Editor.AddEducation | src/components/DataInput.tsx:57-73 | one entry is appended with the given id and every field empty text, `gpa` included |
| Editor.UpdateEducation | src/components/DataInput.tsx:75-82 | the length, order and ids are kept, only field `f` of the matching entries changes, and an absent id changes nothing |
| Editor.RemoveEducation | src/components/DataInput.tsx:84-89 | the matching entries are dropped, the rest kept, an absent id changes nothing; the new list is the `filter` of the old one on the id, so survivors keep their order |
| Editor.AddSkillCategory | src/components/DataInput.tsx:91-103 | one category is appended with the given id, an empty name and no items |
| Editor.UpdateSkillCategory | src/components/DataInput.tsx:105-116 | the length, order and ids are kept, only field `f` of the matching categories changes, and an absent id changes nothing |
| Editor.RemoveSkillCategory | src/components/DataInput.tsx:118-123 | the matching categories are dropped, the rest kept, an absent id changes nothing; the new list is the `filter` of the old one on the id, so survivors keep their order |
| Editor.OnSkillsInput | src/components/DataInput.tsx:488-494 | the parsed pieces become the items of every category with the id, and nothing else changes |
| Editor.AddProject | src/components/DataInput.tsx:125-139 | one project is appended with the given id and every field empty text, `link` included |
| Editor.UpdateProject | src/components/DataInput.tsx:141-148 | the length, order and ids are kept, only field `f` of the matching projects changes, and an absent id changes nothing |
| Editor.RemoveProject | src/components/DataInput.tsx:150-155 | the matching projects are dropped, the rest kept, an absent id changes nothing; the new list is the `filter` of the old one on the id, so survivors keep their order |
| Editor.AddCertification | src/components/DataInput.tsx:157-171 | one certification is appended with the given id and every field empty text, `link` included |
| Editor.UpdateCertification | src/components/DataInput.tsx:173-180 | the length, order and ids are kept, only field `f` of the matching certifications changes, and an absent id changes nothing |
| Editor.RemoveCertification | src/components/DataInput.tsx:182-187 | the matching certifications are dropped, the rest kept, an absent id changes nothing; the new list is the `filter` of the old one on the id, so survivors keep their order |
| Form.Apply | src/components/DataInput.tsx:16-187 | only the personal-field and phone events touch the personal record |
| Form.ApplyAdd | src/components/DataInput.tsx:23-171 | an add button appends the new id to its section's ids and leaves the other sections and the personal record unchanged |
| Form.ApplyRemove | src/components/DataInput.tsx:50-187 | a remove button leaves no entry of the section with the id, changes nothing for an absent id, and leaves the rest unchanged |
| Form.AddKeepsOptionals | src/components/DataInput.tsx:69 | an add creates `gpa` and `link` as `""`, never missing |
| Form.RemoveKeepsOptionals | src/components/DataInput.tsx:50-187 | a removal keeps the optional fields present |
| Form.EditKeepsOptionals | src/components/DataInput.tsx:75-180 | an edit of `gpa` or `link` stores text, so the fields stay present |
| Form.ApplyKeepsOptionals | src/App.tsx:38-57 | although `gpa` and `link` are optional in the type, every event keeps them present |
| Form.ApplyKeepsDistinct | src/components/DataInput.tsx:29 | every event keeps ids distinct within each section, provided each add uses a fresh id |
| Form.AddKeepsDistinctAll | src/components/DataInput.tsx:23-171 | an add with a fresh id keeps every section's ids distinct |
| Form.RemoveKeepsDistinctAll | src/components/DataInput.tsx:50-187 | a removal keeps every section's ids distinct |
| Form.EditKeepsDistinct | src/components/DataInput.tsx:41-180 | every edit leaves all ids where they were |
| Form.ReplayKeepsInvariants | src/components/DataInput.tsx:16-187 | any session of well-typed events with fresh ids keeps ids distinct and the optional fields present |
| Form.InitialInvariants | src/App.tsx:61-76 | the initial record satisfies both invariants |
| Form.AddThenRemove | src/components/DataInput.tsx:23-55 | adding an entry with a fresh id and then removing it restores the whole record |
| AppState.App.constructor | src/App.tsx:79-80 | a session starts from the initial record with `classic` selected, and the invariants hold |
| AppState.App.SetResumeData | src/App.tsx:79 | `setResumeData` replaces the whole record and keeps the template id |
| AppState.App.SetSelectedTemplate | src/App.tsx:80 | `setSelectedTemplate` replaces only the template id and keeps the record |
| AppState.App.Edit | src/App.tsx:99-102 | an editor event replaces the record by the event's result, keeps the template id, and keeps the invariants when an add uses a fresh id |
| AppState.App.ClickTemplate | src/App.tsx:95-98 | a click on button `i` selects that button's id, which is then highlighted and resolved by the preview to its own template; the record is kept |
| AppState.App.Pane | src/App.tsx:113-116 | the preview shows the record through the template the selected id resolves to, inside `resume-preview` |
| AppState.App.Title | src/App.tsx:108-111 | the download title is the one the download button makes from the current full name: `Resume` when it is empty, otherwise a title ending in `_Resume` |
| Download.CollapseWhitespace | src/components/DownloadButton.tsx:19 | `replace(/\s+/g, '_')` leaves no whitespace, keeps non-whitespace leading characters, and is empty only for the empty input |
| Download.CollapsePlain | src/components/DownloadButton.tsx:19 | a name without whitespace is left as it is |
| Download.CollapseBlank | src/components/DownloadButton.tsx:19 | a non-empty run of whitespace becomes a single `_` |
| Download.CollapseKeepsText | src/components/DownloadButton.tsx:19 | for a name with no underscore of its own, removing the underscores from the result gives the name without its whitespace, so every other character is kept in order |
| Download.CollapseNoDoubleUnderscore | src/components/DownloadButton.tsx:19 | for a name with no underscore of its own, no two underscores are adjacent: each maximal run becomes one `_` |
| Download.CollapseGap | src/components/DownloadButton.tsx:19 | a whitespace run in front of a word becomes one underscore |
| Download.CollapsePlainPrefix | src/components/DownloadButton.tsx:19 | a whitespace-free prefix is copied as it is |
| Download.DocumentTitle | src/components/DownloadButton.tsx:18-20 | the title has no whitespace, is `Resume` for an empty name, and otherwise is the name with its whitespace runs collapsed followed by `_Resume` |
| Download.TitleOfPlainName | src/components/DownloadButton.tsx:19 | a name `n` without whitespace gives `n + "_Resume"` |
| Download.TitleOfBlankName | src/components/DownloadButton.tsx:18-19 | a name of blanks only counts as non-empty and gives `__Resume` |
| Download.TitleOfTwoWords | src/components/DownloadButton.tsx:19 | two words separated by any whitespace run are joined by one `_`, so `Jane Doe` gives `Jane_Doe_Resume` |
| Preview.Resolve | src/components/ResumePreview.tsx:18-37 | each of the seven ids selects its own template, and any other id, `""` included, selects Classic |
| Preview.ResolveIdOf | src/components/ResumePreview.tsx:19-33 | every template has a case of its own in the switch |
| Preview.IdsDistinct | src/components/ResumePreview.tsx:19-33 | different templates have different ids |
| Preview.UnknownRendersClassic | src/components/ResumePreview.tsx:34-35 | an unknown id renders exactly the Classic page, the same as `classic` |
| Preview.PreviewPane | src/components/ResumePreview.tsx:41-46 | the rendered page always sits in the element with id `resume-preview`; it depends on the id only through the template it selects, and the record is passed on unchanged |
| Selector.Position | src/components/TemplateSelector.tsx:11-19 | every template stands at some position of the list |
| Selector.TemplatesListed | src/components/TemplateSelector.tsx:11-19 | the list has seven pairwise distinct ids, `classic` first, each the id of its template |
| Selector.ListedIdsResolve | src/components/TemplateSelector.tsx:11-19 | every listed id has its own case in the preview switch, and every case of the switch is listed |
| Selector.Buttons | src/components/TemplateSelector.tsx:29-42 | one button per list entry, in list order, highlighted exactly when its id is the selection |
| Selector.AtMostOneHighlighted | src/components/TemplateSelector.tsx:33 | at most one button is highlighted |
| Selector.HighlightFollowsSelection | src/components/TemplateSelector.tsx:33 | some button is highlighted exactly when the selection is one of the seven ids |
| Selector.SameListForAnySelection | src/components/TemplateSelector.tsx:29-42 | the entries and their order do not depend on the selection |
| Selector.Click | src/components/TemplateSelector.tsx:35 | a click hands on exactly the button's own id |
| Selector.ClickHighlights | src/components/TemplateSelector.tsx:33-35 | after a click only the clicked button is highlighted, and clicking the highlighted button hands on the current selection |
| Blocks.FormatDate | src/components/templates/ClassicTemplate.tsx:10-14 | `formatDate("")` is `""`, and any other input goes through the locale formatter |
| Blocks.DateRange | src/components/templates/ClassicTemplate.tsx:52 | the end of the range reads `Present` when `current` is set and `formatDate(endDate)` otherwise |
| Blocks.CurrentHidesEnd | src/components/templates/ClassicTemplate.tsx:52 | for a current entry the end date is never shown, whatever it holds |
| Blocks.DescriptionLines | src/components/templates/ClassicTemplate.tsx:55-59 | an empty description gives no lines, and a non-empty one gives newline-free lines |
| Blocks.DescriptionRoundTrip | src/components/templates/ClassicTemplate.tsx:55-59 | the lines joined with newlines give the description back, and `k` newlines give `k + 1` lines, so a trailing newline gives an empty line |
| Blocks.BulletsOf | src/components/templates/BusinessTemplate.tsx:92-96 | one bullet per item, in order, with no filtering |
| Blocks.ChipsOf | src/components/templates/ModernTemplate.tsx:96-103 | one chip per item, in order, with no filtering |
| Layout.ContactLines | src/components/templates/ClassicTemplate.tsx:22-28 | a contact line is present exactly when the field is a contact field and non-empty |
| Layout.HeaderSelect | src/components/templates/ClassicTemplate.tsx:19-31 | the header shows the full name, even when empty, and exactly the non-empty contact fields, each under its tag |
| Layout.SummarySelect | src/components/templates/ClassicTemplate.tsx:33-38 | the summary heading and text appear exactly when the summary is non-empty |
| Layout.ListSelect | src/components/templates/ClassicTemplate.tsx:41-66 | a list section shows its heading exactly when the list is non-empty, and under any other kind what its entries show, entry after entry |
| Layout.ExperienceSelect | src/components/templates/ClassicTemplate.tsx:44-63 | an experience entry shows its position, company and date range, and one bullet per description line |
| Layout.GradeLines | src/components/templates/ClassicTemplate.tsx:77 | the `GPA:` line is present exactly when `gpa` is truthy |
| Layout.StackedEducationSelect | src/components/templates/ModernTemplate.tsx:118-130 | a stacked education entry shows degree, field, institution and date range, and a grade exactly when `gpa` is truthy |
| Layout.InFieldEducationSelect | src/components/templates/ClassicTemplate.tsx:71-83 | the education title is `degree in field` even when either part is empty, and the grade appears exactly when `gpa` is truthy |
| Layout.SkillLineSkipsEmpty | src/components/templates/ClassicTemplate.tsx:94 | an empty item adds nothing to a `category: items` line |
| Layout.SkillLineSelect | src/components/templates/ClassicTemplate.tsx:92-96 | one `category: items` line per category |
| Layout.ChipSkillsSelect | src/components/templates/ModernTemplate.tsx:92-103 | a category shows its name and every item as a chip, empty items included |
| Layout.BulletSkillsSelect | src/components/templates/BusinessTemplate.tsx:86-98 | a category shows its name and every item as a bullet, empty items included |
| Layout.LinkLines | src/components/templates/ClassicTemplate.tsx:108 | a link line is present exactly when `link` is truthy |
| Layout.TechLines | src/components/templates/ClassicTemplate.tsx:110-112 | the technologies line is present exactly when there are technologies |
| Layout.ProjectTextLines | src/components/templates/ClassicTemplate.tsx:104-117 | the project description is present exactly when it is non-empty |
| Layout.ProjectSelect | src/components/templates/ClassicTemplate.tsx:104-117 | a project shows its name, and a link, technologies and description exactly when each is non-empty |
| Layout.StackedCertificationSelect | src/components/templates/ModernTemplate.tsx:140-153 | a certification shows name, issuer and date, and a link exactly when it is truthy |
| Sections.ExperienceList | src/components/templates/ClassicTemplate.tsx:41-66 | an experience list shows every position, company and period, one per entry, and every description line as a bullet |
| Sections.StackedEducationList | src/components/templates/ModernTemplate.tsx:113-132 | a stacked education list shows one degree, field, institution and period per entry, and a grade for exactly the entries with a truthy `gpa` |
| Sections.InFieldEducationList | src/components/templates/ClassicTemplate.tsx:68-87 | the `degree in field` education list shows one title, institution and period per entry and the truthy grades |
| Sections.SkillLineList | src/components/templates/ClassicTemplate.tsx:89-99 | one `category: items` line per category, in order |
| Sections.ChipSkillsList | src/components/templates/ModernTemplate.tsx:86-110 | each category heading in order, and every item of every category as a chip |
| Sections.BulletSkillsList | src/components/templates/BusinessTemplate.tsx:80-102 | each category heading in order, and every item of every category as a bullet |
| Sections.ProjectList | src/components/templates/ClassicTemplate.tsx:101-118 | every project name, and a link, technologies line and description for exactly the projects that have one |
| Sections.StackedCertificationList | src/components/templates/ModernTemplate.tsx:135-154 | every certification name, issuer and date, and a link for exactly the entries with a truthy one |
| ClassicTemplate.CertificationSelect | src/components/templates/ClassicTemplate.tsx:123-133 | a certification shows `name - issuer`, its date, and its link exactly when truthy |
| ClassicTemplate.CertificationList | src/components/templates/ClassicTemplate.tsx:120-135 | the certification list shows one `name - issuer` and one date per entry, and the truthy links |
| ClassicTemplate.RenderSelect | src/components/templates/ClassicTemplate.tsx:16-137 | of every kind, the page shows header, summary, experience, education, skills, projects and certifications in that order, each section only when it has content |
| ClassicTemplate.ShowsName | src/components/templates/ClassicTemplate.tsx:20 | the full name heads the page, even when empty |
| ClassicTemplate.ShowsTitles | src/components/templates/ClassicTemplate.tsx:33-135 | the section headings are exactly those of the non-empty sections, in page order |
| ClassicTemplate.ShowsContacts | src/components/templates/ClassicTemplate.tsx:21-30 | each contact value is shown, bare, exactly when non-empty |
| ClassicTemplate.ShowsDescriptions | src/components/templates/ClassicTemplate.tsx:55-59 | every line of every description becomes one bullet, in order |
| ClassicTemplate.ShowsGrades | src/components/templates/ClassicTemplate.tsx:77 | a grade line appears for exactly the entries with a truthy `gpa` |
| ClassicTemplate.ShowsSkills | src/components/templates/ClassicTemplate.tsx:92-96 | one `category: items` line per category, empty items dropped |
| ClassicTemplate.ShowsLinks | src/components/templates/ClassicTemplate.tsx:101-131 | project and certification links appear for exactly the entries with a truthy link |
| ModernTemplate.ItemConnectors | src/components/templates/ModernTemplate.tsx:54 | entry `i` draws a connector exactly when it is not the first |
| ModernTemplate.TimelineConnectors | src/components/templates/ModernTemplate.tsx:52-80 | `n` experiences draw `max(n - 1, 0)` connectors |
| ModernTemplate.RenderSelect | src/components/templates/ModernTemplate.tsx:16-184 | of every kind, the page shows header, summary, experience, skills, education, certifications and projects in that order, each section only when it has content |
| ModernTemplate.ShowsName | src/components/templates/ModernTemplate.tsx:20 | the full name heads the page, even when empty |
| ModernTemplate.ShowsTitles | src/components/templates/ModernTemplate.tsx:36-159 | the section headings are exactly those of the non-empty sections, in page order |
| ModernTemplate.ShowsContacts | src/components/templates/ModernTemplate.tsx:21-32 | each contact value is shown after its emoji exactly when non-empty |
| ModernTemplate.ShowsDescriptions | src/components/templates/ModernTemplate.tsx:67-75 | every line of every description becomes one `▶` item, in order |
| ModernTemplate.ShowsConnectors | src/components/templates/ModernTemplate.tsx:52-56 | the page holds one connector fewer than there are experiences |
| ModernTemplate.ShowsGrades | src/components/templates/ModernTemplate.tsx:124 | a grade line appears for exactly the entries with a truthy `gpa` |
| ModernTemplate.ShowsSkills | src/components/templates/ModernTemplate.tsx:92-103 | each category is a heading of its own, and every item is a chip, empty ones included |
| ModernTemplate.ShowsLinks | src/components/templates/ModernTemplate.tsx:146-171 | project and certification links appear for exactly the entries with a truthy link |
| ElegantTemplate.ContactLineSelect | src/components/templates/ElegantTemplate.tsx:22 | an unseparated contact value shows exactly when non-empty |
| ElegantTemplate.SeparatedSelect | src/components/templates/ElegantTemplate.tsx:23-31 | a separated contact value brings its bar separator and its value exactly when non-empty |
| ElegantTemplate.HeaderSelect | src/components/templates/ElegantTemplate.tsx:19-33 | apart from separators, the header shows the name and exactly the non-empty contact values |
| ElegantTemplate.HeaderSeparators | src/components/templates/ElegantTemplate.tsx:21-31 | the header holds one separator for each non-empty phone, location and website |
| ElegantTemplate.LeadingSeparator | src/components/templates/ElegantTemplate.tsx:22-24 | without an email but with a phone, the first row opens with a separator, whatever precedes it |
| ElegantTemplate.SummaryLines | src/components/templates/ElegantTemplate.tsx:37-45 | the quoted summary is present exactly when the summary is non-empty |
| ElegantTemplate.ItemsLineSkipsEmpty | src/components/templates/ElegantTemplate.tsx:108 | an empty item adds nothing to the ` • `-joined line |
| ElegantTemplate.ProjectBlocksSelect | src/components/templates/ElegantTemplate.tsx:125-144 | kind by kind, a project shows what the shared project entry shows, with the link moved last |
| ElegantTemplate.ClosingUnwrapped | src/components/templates/ElegantTemplate.tsx:117-165 | the projects/certifications wrapper, drawn when either list is non-empty, shows nothing of its own |
| ElegantTemplate.RenderSelect | src/components/templates/ElegantTemplate.tsx:16-168 | of every kind, the page shows header, summary, experience, education, skills, projects and certifications in that order, each only when it has content |
| ElegantTemplate.ShowsName | src/components/templates/ElegantTemplate.tsx:20 | the full name heads the page, even when empty |
| ElegantTemplate.ShowsTitles | src/components/templates/ElegantTemplate.tsx:48-150 | the section headings are exactly those of the non-empty lists, in page order; the summary has none |
| ElegantTemplate.ShowsSummary | src/components/templates/ElegantTemplate.tsx:37-45 | the summary is shown in quotation marks exactly when non-empty |
| ElegantTemplate.ShowsContacts | src/components/templates/ElegantTemplate.tsx:21-31 | each contact value is shown exactly when non-empty |
| ElegantTemplate.ShowsSeparators | src/components/templates/ElegantTemplate.tsx:23-31 | the page holds one bar separator for each non-empty phone, location and website, whatever the preceding field holds |
| ElegantTemplate.ShowsDescriptions | src/components/templates/ElegantTemplate.tsx:66-68 | every line of every description becomes one `•` item, in order |
| ElegantTemplate.ShowsGrades | src/components/templates/ElegantTemplate.tsx:91 | a grade line appears for exactly the entries with a truthy `gpa` |
| ElegantTemplate.ShowsSkills | src/components/templates/ElegantTemplate.tsx:104-110 | one line per category of its non-empty items joined with ` • ` |
| ElegantTemplate.ShowsLinks | src/components/templates/ElegantTemplate.tsx:138-161 | project and certification links appear for exactly the entries with a truthy link |
| MinimalTemplate.ExperienceSelect | src/components/templates/MinimalTemplate.tsx:42-60 | an experience shows `position @ company`, its date range and one dash item per description line |
| MinimalTemplate.ExperienceList | src/components/templates/MinimalTemplate.tsx:39-63 | the experience list shows one `position @ company` and one period per entry and every description line |
| MinimalTemplate.RenderSelect | src/components/templates/MinimalTemplate.tsx:16-137 | of every kind, the page shows header, summary, experience, skills, education, projects and certifications in that order, each only when it has content |
| MinimalTemplate.ShowsName | src/components/templates/MinimalTemplate.tsx:20 | the full name heads the page, even when empty |
| MinimalTemplate.ShowsTitles | src/components/templates/MinimalTemplate.tsx:31-121 | the section headings are exactly those of the non-empty sections, in page order, skills before education |
| MinimalTemplate.ShowsContacts | src/components/templates/MinimalTemplate.tsx:22-26 | each contact value is shown after its `Email: `…`Website: ` label exactly when non-empty |
| MinimalTemplate.ShowsRoles | src/components/templates/MinimalTemplate.tsx:46-47 | each experience shows `position @ company` on one line |
| MinimalTemplate.ShowsDescriptions | src/components/templates/MinimalTemplate.tsx:54-56 | every line of every description becomes one dash item, in order |
| MinimalTemplate.ShowsGrades | src/components/templates/MinimalTemplate.tsx:86 | a grade line appears for exactly the entries with a truthy `gpa` |
| MinimalTemplate.ShowsSkills | src/components/templates/MinimalTemplate.tsx:68-72 | one `category: items` line per category, empty items dropped |
| MinimalTemplate.ShowsLinks | src/components/templates/MinimalTemplate.tsx:105-131 | project and certification links appear for exactly the entries with a truthy link |
| ColorfulTemplate.RenderSelect | src/components/templates/ColorfulTemplate.tsx:16-176 | of every kind, the page shows header, summary, experience, skills, education, certifications and projects in that order, each only when it has content |
| ColorfulTemplate.ShowsName | src/components/templates/ColorfulTemplate.tsx:20 | the full name heads the page, even when empty |
| ColorfulTemplate.ShowsTitles | src/components/templates/ColorfulTemplate.tsx:36-151 | the section headings are exactly those of the non-empty sections, in page order |
| ColorfulTemplate.ShowsContacts | src/components/templates/ColorfulTemplate.tsx:21-32 | each contact value is shown after its emoji exactly when non-empty |
| ColorfulTemplate.ShowsDescriptions | src/components/templates/ColorfulTemplate.tsx:62-70 | every line of every description becomes one `▸` item, in order |
| ColorfulTemplate.ShowsGrades | src/components/templates/ColorfulTemplate.tsx:116 | a grade line appears for exactly the entries with a truthy `gpa` |
| ColorfulTemplate.ShowsSkills | src/components/templates/ColorfulTemplate.tsx:84-95 | each category is a heading of its own, and every item is a chip, empty ones included |
| ColorfulTemplate.ShowsLinks | src/components/templates/ColorfulTemplate.tsx:138-163 | project and certification links appear for exactly the entries with a truthy link |
| CreativeTemplate.ItemConnectors | src/components/templates/CreativeTemplate.tsx:84-86 | entry `i` of `n` draws a connector exactly when it is not the last |
| CreativeTemplate.TimelineConnectors | src/components/templates/CreativeTemplate.tsx:54-90 | `n` experiences draw `max(n - 1, 0)` connectors |
| CreativeTemplate.CycleAlternates | src/components/templates/CreativeTemplate.tsx:57-61 | colouring by `index % m` never gives neighbouring entries the same colour, and stays within the palette |
| CreativeTemplate.ListColours | src/components/templates/CreativeTemplate.tsx:54-61 | a list whose entry `i` carries colour `i % m` carries the cycle `0, 1, …` in order |
| CreativeTemplate.ItemsColours | src/components/templates/CreativeTemplate.tsx:57-180 | each entry carries exactly its own index-chosen colour: mod 4 for experiences and skills, mod 2 for education and certifications, mod 3 for projects |
| CreativeTemplate.ShowsAccents | src/components/templates/CreativeTemplate.tsx:57-180 | the page's accent colours, in order, are each list's own cycle, starting over in every section |
| CreativeTemplate.RenderSelect | src/components/templates/CreativeTemplate.tsx:16-201 | of every kind, the page shows header, summary, experience, skills, education, certifications and projects in that order, each only when it has content |
| CreativeTemplate.ShowsName | src/components/templates/CreativeTemplate.tsx:23 | the full name heads the page, even when empty |
| CreativeTemplate.ShowsTitles | src/components/templates/CreativeTemplate.tsx:40-175 | the section headings are exactly those of the non-empty sections, in page order |
| CreativeTemplate.ShowsContacts | src/components/templates/CreativeTemplate.tsx:24-35 | each contact value is shown exactly when non-empty |
| CreativeTemplate.ShowsDescriptions | src/components/templates/CreativeTemplate.tsx:72-80 | every line of every description becomes one `•` item, in order |
| CreativeTemplate.ShowsConnectors | src/components/templates/CreativeTemplate.tsx:84-86 | the page holds one connector fewer than there are experiences |
| CreativeTemplate.ShowsGrades | src/components/templates/CreativeTemplate.tsx:139 | a grade line appears for exactly the entries with a truthy `gpa` |
| CreativeTemplate.ShowsSkills | src/components/templates/CreativeTemplate.tsx:99-118 | each category is a heading of its own, and every item is a chip, empty ones included |
| CreativeTemplate.ShowsLinks | src/components/templates/CreativeTemplate.tsx:161-188 | project and certification links appear for exactly the entries with a truthy link |
| BusinessTemplate.RenderSelect | src/components/templates/BusinessTemplate.tsx:16-177 | of every kind, the page shows header, summary, experience, skills, education, certifications and projects in that order, each only when it has content |
| BusinessTemplate.ShowsName | src/components/templates/BusinessTemplate.tsx:20 | the full name heads the page, even when empty |
| BusinessTemplate.ShowsTitles | src/components/templates/BusinessTemplate.tsx:38-152 | the section headings are exactly those of the non-empty sections, in page order |
| BusinessTemplate.ShowsContacts | src/components/templates/BusinessTemplate.tsx:23-31 | each contact value is shown after its `Email:`…`Website:` label exactly when non-empty |
| BusinessTemplate.ShowsDescriptions | src/components/templates/BusinessTemplate.tsx:66-71 | every line of every description becomes one `▪` item, in order |
| BusinessTemplate.ShowsGrades | src/components/templates/BusinessTemplate.tsx:117 | a grade line appears for exactly the entries with a truthy `gpa` |
| BusinessTemplate.ShowsSkills | src/components/templates/BusinessTemplate.tsx:86-98 | each category is a heading of its own, and every item is a `•` bullet, empty ones included |
| BusinessTemplate.ShowsLinks | src/components/templates/BusinessTemplate.tsx:139-164 | project and certification links appear for exactly the entries with a truthy link |

## Left out

- `src/components/Header.tsx` is not part of this model. It holds navigation chrome, a document-level `mousedown` listener and a mobile-menu toggle, and no record logic.
- The print plumbing of `DownloadButton.tsx` is left out: the print hook, the page style sheet and the ref wiring. They are calls into a foreign library and the DOM. Only the title expression is modelled.
- `formatDate` on a non-empty string is left out. It parses `s + '-01'` as a date and formats it for a locale. That depends on the host's date parser and time zone, and malformed input gives `Invalid Date`. The model takes the formatter as a parameter `fmt` and fixes only `"" -> ""`.
- Entry ids are left out. The source takes them from `Date.now()`, a clock read. The model takes each new id as a parameter and does not claim ids are unique. Distinctness is proved only under the stated freshness assumption (`Form.FreshAdd`).
- Styling is left out: class names, colours, grid layout, icons and JSX keys. Contact tags (labels and emoji) and bullet glyphs are kept as constant texts.
- Creative's gradient bars and the coloured dots beside its contact values are left out. They carry no record data and do not vary. The index-chosen accent colours of its list entries are modelled as colour indices into each list's palette.
- Classic's bullet is the three characters `â€¢`, the UTF-8 bytes of `•` read as Windows-1252. It is modelled exactly as written.
- Browser input affordances are left out: the phone field's `pattern`, the month inputs' `min`/`max`, the disabled end date and the placeholders. The record stores whatever value the handler receives.
- React machinery is left out: `useState` re-render scheduling and the UI component library. The two state cells are fields of `AppState.App`, and each setter overwrites its field at once.
- Strings.Trim: `trim` and the regular expression `\s` are modelled with a fixed whitespace set, the ECMAScript WhiteSpace and LineTerminator characters as of Unicode 15. A host with a different Unicode version may differ.
- Properties that compare templates with each other are not stated. The templates differ in their order of sections, their skill filtering and their summary heading, so every fact is stated per template.
