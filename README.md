# ResumeBuilder core, modelled in Dafny

This project models the logic at the centre of the ResumeBuilder web application and
proves properties of it. ResumeBuilder is a React and Supabase resume editor. The model
covers these parts:

- **The ATS exporters** (`exportToATSPDF`, `exportToATSDOCX`). They turn a resume
  snapshot into a text-flow PDF, laid out with a vertical cursor and page breaks, and
  into a DOCX paragraph list. The model proves three things about them:
  - both emit the same section headings, in a fixed order, each present exactly when
    its data is non-empty;
  - without a location in the header, they carry the same texts in the same order;
  - the PDF cursor obeys the page-break rule.
- **The older Word exporter** (`exportToWord`). It has a different section order,
  groups every skill by category and has no referees section.
- **The storage helpers**: the upload size limit and path, the path extraction of a
  delete, `getFileExtension` with its `>>> 0` trick, and `isCertificateFile`.
- **The section editors**:
  - the projects editor, with its technologies normalisation and the append,
    replace-by-id and remove-by-id list updates;
  - the skills editor, with its add validation.
- **The resume store** (`useResumeStore`):
  - the assembly of the full resume from its section queries;
  - the row transforms of `duplicateResume`;
  - the single pending auto-save timer;
  - the rule that refetches the current resume after a write.
- **The AI helpers**:
  - the prompt builder;
  - the response-shape selection and the brace-span JSON extraction;
  - the fallback to the sample answer, which means the service never fails;
  - the suggestion-merge loops of the AI generator panel.
- **The analytics page**: event counting, unique visitors, the ten most recent events,
  event labels and relative-time buckets.
- **The export dialog**: file name derivation, the missing-preview error and the
  `exporting` flag.

Parts the source leaves to libraries or the runtime become parameters of the model:
- `splitTextToSize` is a function `wrap(text, size, style)`;
- `toLocaleDateString` and `getFullYear` are fields of `DateFormat`;
- number-to-text conversion is `num: real -> string`;
- `JSON.parse` is `parse: string -> Option<Json>`;
- the outcome of each Supabase call is an input to the method that makes it.

JavaScript values are modelled explicitly, in two datatypes:
- `Js.Val` (`undefined`, `null` or a string) covers form fields;
- `Js.Json` covers database rows and AI replies.

Truthiness, `||` defaults and template interpolation (`undefined` prints as
"undefined") follow the language rules.

PDF geometry is kept in centipoints, so `fontSize * 0.5` points is exactly
`fontSize * 50`. No floating point is involved.

Quirks of the code are modelled as written:
- The ATS exporters print `lang.name`, but the languages editor stores `language`, so
  an editor-made language prints as "undefined (…)" (`AtsContent.EditorLanguageRendersUndefined`).
- The Word exporter reads `cert.issuer`, not `issuing_organization`.
- `project.technologies` is interpolated as text, so a list prints comma-joined with no
  spaces.
- The Word exporter's achievement bullet is the mis-encoded text "â€¢ ".
- `getExportFormatLabel` returns an inherited member for prototype names such as
  "constructor".
- All three exporters group skills in a plain `{}`, so a skill category naming an
  `Object.prototype` member ("constructor", "toString", "__proto__", …) makes `.push`
  throw and the export fail with its fixed error (`SkillGroups.GroupAsWritten`; see
  "## Findings"). The section programs describe the intended grouping, which the
  exporters produce whenever the written one does not throw.
- `getFileExtension(".png")` is "" while the upload path keeps "png" (`Storage.LeadingDotDisagreement`).
- A relative time for an event up to one minute in the future reads "-1 minutes ago"
  (`Analytics.FutureEvents`).

## Model

| member | source | states |
|---|---|---|
| PdfLayout.DrawLines | src/lib/atsExportService.js:42-47 | one draw op per wrapped line |
| PdfLayout.DrawLinesAt | src/lib/atsExportService.js:42-47 | line k of a block is drawn at y0 + k * fontSize * 0.5, on the block's page, at the alignment's x |
| PdfLayout.EmptyTextIsNoOp | src/lib/atsExportService.js:27-28 | `addText` with empty text leaves cursor, page and drawing unchanged |
| PdfLayout.GapAdvancesExactly | src/lib/atsExportService.js:50-52 | `addSpace(p)` advances the cursor by exactly p with no page check and draws nothing |
| PdfLayout.AddTextPaginates | src/lib/atsExportService.js:34-47 | one page check per call, before drawing: a new page and y := margin iff y + n * fontSize * 0.5 exceeds the bottom margin; afterwards y has advanced by exactly n * fontSize * 0.5 and the n new lines sit on the current page at successive offsets |
| PdfLayout.FittingBlockStaysInMargins | src/lib/atsExportService.js:37-47 | a block no taller than the printable area ends above the bottom margin |
| PdfLayout.OversizedBlockOverflows | src/lib/atsExportService.js:37-47 | a taller block is not split: it overflows the bottom margin after at most one page break |
| PdfLayout.AppendOnPage | src/lib/atsExportService.js:37-47 | appending lines of the current page keeps every op on an existing page below the top margin, in page order |
| PdfLayout.AddTextKeepsWellFormed | src/lib/atsExportService.js:27-48 | `addText` keeps the cursor at or below the top margin and the ops page-ordered |
| PdfLayout.StepKeepsWellFormed | src/lib/atsExportService.js:27-62 | the same for `addSpace` and `addSection` |
| PdfLayout.ExecWellFormed | src/lib/atsExportService.js:27-62 | any sequence of layout calls from the first page keeps the layout well formed |
| PdfLayout.ExecExtends | src/lib/atsExportService.js:27-62 | later calls only append ops and never move back a page |
| PdfLayout.PdfDocument.constructor | src/lib/atsExportService.js:14-24 | a new document starts on page 1 at y = margin with nothing drawn |
| PdfLayout.PdfDocument.PlaceText | src/lib/atsExportService.js:27-48 | the layout state after the call is the page-break rule applied to the old state |
| PdfLayout.PdfDocument.DrawBlock | src/lib/atsExportService.js:42-47 | the lines loop draws each line and advances y by fontSize * 0.5 per line |
| PdfLayout.PdfDocument.AddText | src/lib/atsExportService.js:27-48 | records the call; with empty text, y, page and ops are unchanged |
| PdfLayout.PdfDocument.AddSpace | src/lib/atsExportService.js:50-52 | y advances by exactly the gap; page and ops unchanged |
| PdfLayout.PdfDocument.AddSection | src/lib/atsExportService.js:54-62 | gap 15, rule at the cursor, gap 5, bold 14 pt title, gap 10 |
| AtsContent.FormatDate | src/lib/atsExportService.js:756-760 | a falsy date formats to "" |
| AtsContent.FormatYear | src/lib/atsExportService.js:762-766 | a falsy date formats to "" |
| AtsContent.FormatMonthYear | src/lib/atsExportService.js:768-770 | a falsy date formats to ""; same text as `formatDate` |
| AtsContent.ExperienceTitle | src/lib/atsExportService.js:115 | "PROJECT EXPERIENCE" iff `experience_type === 'project'`, else "WORK EXPERIENCE" |
| AtsContent.CandidatesRanked | src/lib/atsExportService.js:100-282 | the nine candidate sections are in the fixed order, summary first and referees last |
| AtsContent.SelectedMembers | src/lib/atsExportService.js:100-282 | a heading is emitted iff its section is present |
| AtsContent.SelectedOrdered | src/lib/atsExportService.js:100-282 | emitted headings keep the fixed order |
| AtsContent.SectionTitlesOrdered | src/lib/atsExportService.js:100-282 | the heading sequence is strictly increasing in the fixed order |
| AtsContent.SectionTitlesPresence | src/lib/atsExportService.js:100-282 | each heading appears iff its backing value is non-empty; the experience heading iff experience or projects is non-empty |
| AtsContent.CompanyLine | src/lib/atsExportService.js:126 | company and location, empty parts dropped, joined with ", " |
| AtsContent.DegreeText | src/lib/atsExportService.js:184 | degree and "in field", empty parts dropped, joined with a space |
| AtsContent.InstitutionLine | src/lib/atsExportService.js:188 | institution and location, empty parts dropped, joined with " - " |
| AtsContent.CertHeader | src/lib/atsExportService.js:237-241 | name, issue date and organisation, empty parts dropped, joined with " \| "; empty iff all three are |
| AtsContent.LinkParts | src/lib/atsExportService.js:91-94 | no link line iff linkedin, website and github are all falsy |
| AtsContent.ProjectDates | src/lib/atsExportService.js:158-160 | a project date line exists iff `start_date` is set; a missing end shows "Present" |
| AtsContent.CompetenciesIgnoreTail | src/lib/atsExportService.js:109 | skills after the twelfth never affect Core Competencies |
| AtsContent.CompetenciesListAll | src/lib/atsExportService.js:109 | with at most twelve skills, all names are listed in order, joined with " • " |
| AtsContent.EditorLanguageRendersUndefined | src/lib/atsExportService.js:255 | a language saved by the editor, which has no `name`, prints as "undefined (level)" |
| AtsContent.AtsFormatLabel | src/lib/atsExportService.js:746-753 | known formats map to fixed labels; prototype names give the inherited member; any other input is returned unchanged |
| SkillGroups.SkillsPartition | src/lib/atsExportService.js:205-223 | every skill is in exactly one of technical (`category !== 'Soft Skills'`, case-sensitive) and soft |
| SkillGroups.GroupCorrect | src/lib/atsExportService.js:209-219 | groups have distinct categories, one per `category \|\| 'Other'` value, in first-appearance order, each holding exactly that category's names in input order |
| SkillGroups.GroupKeys | src/lib/atsExportService.js:209-214 | the group keys are the first appearances of the skills' categories |
| SkillGroups.GroupNamesLookup | src/lib/atsExportService.js:209-214 | the names under a category are the names of the skills in that category, in order |
| SkillGroups.GroupAsWrittenFails | src/lib/atsExportService.js:209-214 | the grouping as written fails iff some category names an `Object.prototype` member; otherwise it equals the corrected grouping |
| SkillGroups.ConstructorCategoryFails | src/lib/atsExportService.js:210-212 | a skill with category "constructor" makes the grouping fail |
| AtsPdf.AtsPdfHeadings | src/lib/atsExportService.js:100-282 | the headings drawn by the PDF program are exactly the section titles |
| AtsPdf.ExportToAtsPdf | src/lib/atsExportService.js:12-290 | when the written skill grouping succeeds, the calls the exporter makes are exactly the PDF program of the resume and a failed save gives "Failed to export ATS-friendly PDF"; when it throws, drawing stops after the TECHNICAL SKILLS heading and the export fails with that error; the document stays well formed |
| AtsPdf.EmitHeader | src/lib/atsExportService.js:67-98 | name (default "Your Name"), then title, location, phone \| email and links, each only when non-empty |
| AtsPdf.EmitOpening | src/lib/atsExportService.js:100-111 | summary and Core Competencies sections, each only when non-empty |
| AtsPdf.EmitExperienceSection | src/lib/atsExportService.js:113-175 | one experience heading when experience or projects exist; all experience entries come before all project entries |
| AtsPdf.EmitExperience | src/lib/atsExportService.js:119-148 | the experience loop emits every entry in order |
| AtsPdf.EmitExperienceEntry | src/lib/atsExportService.js:120-146 | position, company line if non-empty, `start - (current ? 'Present' : end)`, description bullet, achievement bullets only for a list |
| AtsPdf.EmitAchievements | src/lib/atsExportService.js:141-146 | one bullet line and a gap of 3 per achievement |
| AtsPdf.EmitProjects | src/lib/atsExportService.js:151-174 | the project loop emits every entry in order |
| AtsPdf.EmitProjectEntry | src/lib/atsExportService.js:152-173 | leading gap unless this is the first entry after no experience; name, date line, description and technologies lines |
| AtsPdf.EmitEducationSection | src/lib/atsExportService.js:177-202 | education heading and entries only when education is non-empty |
| AtsPdf.EmitEducation | src/lib/atsExportService.js:181-201 | the education loop emits every entry in order |
| AtsPdf.EmitEducationEntry | src/lib/atsExportService.js:181-200 | degree line, institution line, year range ending in `graduation_date` or "Present", optional GPA |
| AtsPdf.EmitSkills | src/lib/atsExportService.js:204-228 | throws iff the `reduce` over the technical skills throws, right after the heading; otherwise technical skills as `Category: a, b` lines per group, then soft skills joined with " • " |
| AtsPdf.EmitGroups | src/lib/atsExportService.js:216-219 | one line and a gap of 5 per category group |
| AtsPdf.EmitClosing | src/lib/atsExportService.js:230-282 | certifications, languages and referees sections, each only when non-empty |
| AtsPdf.EmitCertifications | src/lib/atsExportService.js:234-249 | per certification: its header line and an optional description |
| AtsPdf.EmitCertificationEntry | src/lib/atsExportService.js:235-248 | a gap of 8 before every certification but the first, the bold header line, then a gap of 3 and the description when it is present |
| AtsPdf.EmitReferences | src/lib/atsExportService.js:263-281 | the referee loop emits every entry in order |
| AtsPdf.EmitReferenceEntry | src/lib/atsExportService.js:263-280 | name, then position, company, "Tel: " and "Email: " lines, each only when present |
| AtsDocx.AtsDocxHeadings | src/lib/atsExportService.js:406-713 | the DOCX section headings are exactly the section titles |
| AtsDocx.ExportToAtsDocx | src/lib/atsExportService.js:333-741 | a `Document` is built iff the written skill grouping does not throw; its children are exactly the DOCX program of the resume, with 720-twip margins; a throw or a failed save gives "Failed to export DOCX file" |
| AtsDocx.PushHeader | src/lib/atsExportService.js:355-404 | name heading, title, phone \| email \| location and links, each only when non-empty |
| AtsDocx.PushExperienceSection | src/lib/atsExportService.js:429-536 | one heading when experience or projects exist; experience paragraphs before project paragraphs |
| AtsDocx.PushExperience | src/lib/atsExportService.js:435-491 | the experience loop pushes every entry's paragraphs, in order |
| AtsDocx.PushProjects | src/lib/atsExportService.js:495-535 | the project loop pushes every entry's paragraphs, in order |
| AtsDocx.PushExperienceEntry | src/lib/atsExportService.js:435-490 | position, company line, date range, description, achievement bullets and a blank spacer paragraph |
| AtsDocx.PushProjectEntry | src/lib/atsExportService.js:495-534 | name, date line iff `start_date` is set, description and technologies paragraphs |
| AtsDocx.PushEducation | src/lib/atsExportService.js:538-580 | per entry: degree, institution line, year range and optional GPA |
| AtsDocx.PushSkills | src/lib/atsExportService.js:582-618 | throws iff the `reduce` over the technical skills throws, right after the heading; otherwise one `Category: names` paragraph per technical group, then the soft skills line |
| AtsDocx.PushClosing | src/lib/atsExportService.js:620-713 | certifications, languages and referees paragraphs, each section only when non-empty |
| AtsDocx.PushReferenceEntry | src/lib/atsExportService.js:667-711 | name, then position, company, "Tel: " and "Email: " paragraphs when present |
| AtsAgreement.SameHeadings | src/lib/atsExportService.js:100-282 | the PDF and DOCX exporters produce the same heading sequence |
| AtsAgreement.PdfBody | src/lib/atsExportService.js:100-282 | after the header, the PDF draws the shared sequence of body texts |
| AtsAgreement.DocxBody | src/lib/atsExportService.js:406-713 | after the header, the DOCX holds the same shared sequence of body texts |
| AtsAgreement.PdfHeader | src/lib/atsExportService.js:67-98 | without a location, the PDF header texts are name, title, contact line and link line |
| AtsAgreement.DocxHeader | src/lib/atsExportService.js:355-404 | without a location, the DOCX header texts are the same four |
| AtsAgreement.SameTextsWithoutLocation | src/lib/atsExportService.js:12-713 | without a header location, both documents carry the same non-empty texts in the same order |
| WordExport.Suffix | src/lib/exportService.js:125 | `' - x'` for a truthy x, else "" |
| WordExport.WordContactParts | src/lib/exportService.js:64-67 | the non-empty items among email, phone and location |
| WordExport.DateLine | src/lib/exportService.js:131-141 | a date line iff start or end is set; a missing end shows "Present" |
| WordExport.DateLineIgnoresCurrent | src/lib/exportService.js:131-141 | the `current` flag never changes the Word date line |
| WordExport.CurrentWithEndDate | src/lib/exportService.js:131-141 | a current job with an end date shows the end date in Word and "Present" in the ATS exporters |
| WordExport.AchievementItems | src/lib/exportService.js:152-153 | a non-list truthy achievements value becomes a one-element list; a falsy one gives none |
| WordExport.AchievementBullets | src/lib/exportService.js:154-162 | exactly one bullet paragraph per achievement, in order |
| WordExport.AchievementCoercion | src/lib/exportService.js:152-162 | a text achievement gives one bullet; an empty text or missing value gives none; an empty list gives none |
| WordExport.PositionLine | src/lib/exportService.js:123-126 | the title line reads `position \|\| ''`, plus " - company" only when company is present |
| WordExport.SoftSkillsGrouped | src/lib/exportService.js:220-239 | soft skills form a "Soft Skills" group in Word but never among the ATS technical groups |
| WordExport.GroupByCategory | src/lib/exportService.js:220-227 | the in-place `skillsByCategory` fill throws iff some category names an `Object.prototype` member; otherwise it yields the category groups: distinct, one per category, first-appearance order |
| WordExport.WordProgramHeadings | src/lib/exportService.js:96-338 | the headings emitted are exactly the Word section titles |
| WordExport.WordTitlesPresence | src/lib/exportService.js:96-338 | each Word heading appears iff its value is non-empty |
| WordExport.ProjectsAreNotExperience | src/lib/exportService.js:111 | projects alone give a Projects heading and no Work Experience heading (the same code again at line 243) |
| WordExport.ReferencesIgnored | src/lib/exportService.js:47-338 | the references never affect the Word document |
| WordExport.ExportToWord | src/lib/exportService.js:47-357 | when the skill grouping succeeds, the sections are exactly the Word program of the resume and a failed save gives "Failed to export Word document"; when it throws, the sections end with the Skills heading and the export fails with that error |
| WordExport.PushHeader | src/lib/exportService.js:54-93 | name title, contact line and link line, each only when non-empty |
| WordExport.PushExperience | src/lib/exportService.js:120-165 | the experience loop emits every entry in order |
| WordExport.PushExperienceEntry | src/lib/exportService.js:121-164 | title line, optional date line, description, bullets and a spacer |
| WordExport.PushEducation | src/lib/exportService.js:178-206 | degree line, graduation date and GPA, each only when present |
| WordExport.PushSkills | src/lib/exportService.js:220-239 | throws iff the grouping throws, adding nothing; otherwise one `Category: names` paragraph per group |
| WordExport.ToStringCategoryFails | src/lib/exportService.js:220-227 | a single skill filed under "toString" makes the fill throw, where the intended grouping has one group |
| WordExport.PushClosing | src/lib/exportService.js:243-338 | projects, certifications and languages sections, each only when non-empty |
| WordExport.WordFormatLabel | src/lib/exportService.js:362-368 | 'pdf' and 'word' map to fixed labels; prototype names give the inherited member; any other input is returned unchanged |
| Storage.UploadExtension | src/lib/storage.js:22 | the text after the last '.', which contains no '.' |
| Storage.JoinPath | src/lib/storage.js:24 | `path/fileName` for a non-empty path, else `fileName` |
| Storage.UploadPath | src/lib/storage.js:11-24 | rejected with "File size must be less than 5MB" iff size > 5 MiB; otherwise the joined `timestamp-random.ext` path |
| Storage.SizeLimitBoundary | src/lib/storage.js:14-17 | exactly 5 MiB is accepted and one byte more is rejected |
| Storage.StoredPathKeepsExtension | src/lib/storage.js:22-24 | the stored path ends in the original name's extension |
| Storage.DeletePath | src/lib/storage.js:56-59 | nothing is removed iff the url has no `/bucket/` segment |
| Storage.DeletePathPiece | src/lib/storage.js:56-59 | the removed path is the second split piece: the text after the first `/bucket/` up to the next one |
| Storage.DeleteFindsStoredPath | src/lib/storage.js:56-59 | for a public url `base/bucket/path`, the removed path is `path` |
| Storage.DeleteFile | src/lib/storage.js:53-70 | no removal without the segment; a removal error is logged, never raised |
| Storage.ToUint32 | src/lib/storage.js:76 | `>>> 0`: the value modulo 2^32 |
| Storage.FileExtension | src/lib/storage.js:75-77 | the text after the last '.'; "" when there is no '.', when the only '.' is at index 0, or when the name ends in '.' |
| Storage.LeadingDotDisagreement | src/lib/storage.js:76 | ".png" has extension "" for `getFileExtension` but "png" for the upload name built at line 22 |
| Storage.IsCertificateFile | src/lib/storage.js:82-86 | false for a falsy url |
| Storage.CertificateByLastPiece | src/lib/storage.js:82-86 | true iff the lower-cased text after the last '.' is pdf, jpg, jpeg, png or gif; a url with no '.' is judged on its whole text |
| Storage.UpperCaseExtension | src/lib/storage.js:84 | ".PDF" is recognised |
| Storage.BareExtension | src/lib/storage.js:84 | the bare text "png" is recognised |
| Storage.OtherExtension | src/lib/storage.js:85 | ".txt" is not recognised |
| Storage.StoredUploadRecognised | src/lib/storage.js:20-24 | an uploaded file's stored url is a certificate file (the test at lines 82-86) iff its original name is |
| SectionLists.ReplaceById | src/components/editor/sections/ProjectsSection.jsx:46 | same length; exactly the items with the edited id are replaced, all others unchanged |
| SectionLists.RemoveById | src/components/editor/sections/ProjectsSection.jsx:59 | keeps exactly the items whose id differs |
| SectionLists.RemoveByIdAppend | src/components/editor/sections/ProjectsSection.jsx:59 | removal distributes over concatenation, so the order of the rest is kept |
| SectionLists.RemoveByIdAbsent | src/components/editor/sections/ProjectsSection.jsx:59 | removing an absent id changes nothing |
| SectionLists.RemoveOne | src/components/editor/sections/ProjectsSection.jsx:59 | removing the one item with an id leaves the items before and after it, in order |
| ProjectsForm.TrimAll | src/components/editor/sections/ProjectsSection.jsx:41 | every piece trimmed, same count |
| ProjectsForm.NormaliseTechnologies | src/components/editor/sections/ProjectsSection.jsx:40-42 | text becomes its trimmed, non-empty, comma-free pieces; a list is kept; a falsy value becomes [] |
| ProjectsForm.SplitTechnologiesClean | src/components/editor/sections/ProjectsSection.jsx:41 | every piece of the split is non-empty, trimmed and comma-free |
| ProjectsForm.TechnologiesRoundTrip | src/components/editor/sections/ProjectsSection.jsx:40-41 | normalising the `join(', ')` display of a clean list gives the list back (the same code again at line 123) |
| ProjectsForm.SplitJoined | src/components/editor/sections/ProjectsSection.jsx:41 | the split of a ", "-joined clean list is that list (the same code again at line 123) |
| ProjectsForm.NewProject | src/components/editor/sections/ProjectsSection.jsx:14-23 | `sort_order = items.length`, `technologies = []`, null dates |
| ProjectsForm.DateInput | src/components/editor/sections/ProjectsSection.jsx:134-142 | an emptied date input is stored as null |
| ProjectsForm.ProjectsEditor.constructor | src/components/editor/sections/ProjectsSection.jsx:8-10 | items from the data or [], nothing being edited |
| ProjectsForm.ProjectsEditor.HandleAdd | src/components/editor/sections/ProjectsSection.jsx:13-34 | on success the inserted project is appended and becomes the one edited; on failure nothing changes |
| ProjectsForm.ProjectsEditor.StartEdit | src/components/editor/sections/ProjectsSection.jsx:163 | selects an item for editing without touching the list |
| ProjectsForm.ProjectsEditor.Cancel | src/components/editor/sections/ProjectsSection.jsx:148 | clears the edited id only |
| ProjectsForm.ProjectsEditor.EditTechnologies | src/components/editor/sections/ProjectsSection.jsx:124 | the typed text replaces the edited technologies |
| ProjectsForm.ProjectsEditor.EditStartDate | src/components/editor/sections/ProjectsSection.jsx:134 | `e.target.value \|\| null` |
| ProjectsForm.ProjectsEditor.EditEndDate | src/components/editor/sections/ProjectsSection.jsx:142 | `e.target.value \|\| null` |
| ProjectsForm.ProjectsEditor.HandleSave | src/components/editor/sections/ProjectsSection.jsx:36-53 | on success the items with the edited id are replaced by the normalised edit and editing ends; on failure nothing changes |
| ProjectsForm.ProjectsEditor.HandleDelete | src/components/editor/sections/ProjectsSection.jsx:55-66 | removes exactly the items with the id, only when confirmed and deleted |
| ProjectsForm.SaveReplaces | src/components/editor/sections/ProjectsSection.jsx:36-46 | after a save, each item is either unchanged or the normalised edit, by id |
| SkillsForm.NewSkill | src/components/editor/sections/SkillsSection.jsx:16-20 | name untrimmed, category verbatim, `sort_order = skills.length` |
| SkillsForm.SkillsEditor.constructor | src/components/editor/sections/SkillsSection.jsx:7-9 | skills from the data or [], empty inputs |
| SkillsForm.SkillsEditor.TypeName | src/components/editor/sections/SkillsSection.jsx:52 | sets only the name input |
| SkillsForm.SkillsEditor.TypeCategory | src/components/editor/sections/SkillsSection.jsx:61 | sets only the category input |
| SkillsForm.SkillsEditor.HandleAdd | src/components/editor/sections/SkillsSection.jsx:12-26 | a whitespace-only name or a failed insert adds nothing; otherwise the new skill is appended and only the name input is cleared |
| SkillsForm.SkillsEditor.HandleDelete | src/components/editor/sections/SkillsSection.jsx:28-35 | removes exactly the skills with the id when the delete succeeds |
| SkillsForm.SkillAppended | src/components/editor/sections/SkillsSection.jsx:16-21 | an appended skill is later rendered as soft iff its category is exactly "Soft Skills" |
| SkillsForm.CategoryIsVerbatim | src/components/editor/sections/SkillsSection.jsx:18 | a skill added with any other category, such as "soft skills", is not rendered as soft |
| ResumeStore.Assemble | src/store/resumeStore.js:65-76 | missing sections become [] and missing objects {}; present ones are kept; the resume row is kept |
| ResumeStore.AsObject | src/store/resumeStore.js:65-76 | the spread object: resume keys plus list-valued section keys and object-valued personalInfo and sectionVisibility |
| ResumeStore.AssembledShape | src/store/resumeStore.js:65-76 | the assembled resume always has list-valued sections and object-valued personalInfo and sectionVisibility |
| ResumeStore.CurrentId | src/store/resumeStore.js:155 | `currentResume?.id` |
| ResumeStore.RefetchRule | src/store/resumeStore.js:155-157 | refetch iff the current resume's id equals the written id; with no current resume, iff the id is undefined (the same code again at lines 318-320, 344-346, 366-368, 386-388) |
| ResumeStore.NewResumeRow | src/store/resumeStore.js:192-199 | title is `${title} (Copy)`; only summary, template, colour, font and layout are copied |
| ResumeStore.CopyOfCopy | src/store/resumeStore.js:193 | duplicating a duplicate appends " (Copy)" twice |
| ResumeStore.StrippedKeys | src/store/resumeStore.js:209-272 | id and resume_id always go; `updated_at` only for personal_info, education, experience and projects; `created_at` for all but section_visibility |
| ResumeStore.CopyRow | src/store/resumeStore.js:209-274 | the copy drops the stripped keys, keeps every other field and carries the new resume id |
| ResumeStore.CopyRows | src/store/resumeStore.js:215-218 | every row of a section is copied, in order |
| ResumeStore.ListCopy | src/store/resumeStore.js:215-223 | appending a list section's copies keeps every insert aimed at the new resume and free of an id |
| ResumeStore.RowCopy | src/store/resumeStore.js:208-271 | appending a single-row section's copy keeps every insert aimed at the new resume and free of an id |
| ResumeStore.SectionCopies | src/store/resumeStore.js:205-276 | every insert targets the new resume and has no id |
| ResumeStore.CopiesAsExpected | src/store/resumeStore.js:205-276 | the inserts are, in table order, the copied rows of each section that is copied at all |
| ResumeStore.UpdatedAtPolicy | src/store/resumeStore.js:232-240 | skills keep `updated_at`; experience loses it |
| ResumeStore.ResumeStoreState.constructor | src/store/resumeStore.js:6-9 | empty list, no current resume, not loading, no timer |
| ResumeStore.ResumeStoreState.ScheduleAutoSave | src/store/resumeStore.js:290-307 | any pending save is cancelled; exactly the new one is pending and its handle is kept |
| ResumeStore.ResumeStoreState.Fire | src/store/resumeStore.js:297-304 | the timer delivers its save and nothing stays pending |
| ResumeStore.AtMostOnePending | src/store/resumeStore.js:290-307 | at most one auto-save is ever pending |
| ResumeStore.ResumeStoreState.FetchResumes | src/store/resumeStore.js:12-28 | the list is replaced on success and kept on failure; loading ends false |
| ResumeStore.ResumeStoreState.FetchResume | src/store/resumeStore.js:31-86 | on success, returns and stores the assembled resume; loading ends false |
| ResumeStore.ResumeStoreState.SectionWrite | src/store/resumeStore.js:310-396 | a successful section write refetches iff the written resume is the current one |
| ResumeStore.ResumeStoreState.UpdateResume | src/store/resumeStore.js:144-163 | on success, the list is refetched, and the current resume too when it is the one updated |
| ResumeStore.ResumeStoreState.Duplicate | src/store/resumeStore.js:185-287 | the new row is the copy-titled row; the section inserts are the copies for the new id; failures insert nothing |
| AiService.ContactLine | src/lib/aiService.js:41-44 | a prompt line is non-empty iff its field is present, and then starts with its label |
| AiService.PersonalLines | src/lib/aiService.js:40-44 | name, email, phone and location lines, each empty iff its field is absent |
| AiService.DateRange | src/lib/aiService.js:49-57 | a missing end date becomes "Present" |
| AiService.JoinedOrEmpty | src/lib/aiService.js:59-69 | "" for a falsy value; a truthy non-list throws |
| AiService.ExperienceBlock | src/lib/aiService.js:55-60 | fails iff achievements are present but not a list |
| AiService.SkillItem | src/lib/aiService.js:63 | a missing level becomes "Proficient" |
| AiService.ProjectBlock | src/lib/aiService.js:66-71 | fails iff technologies are present but not a list |
| AiService.EducationBlocks | src/lib/aiService.js:47-52 | one block per education entry, in order |
| AiService.SkillItems | src/lib/aiService.js:63 | one item per skill, in order |
| AiService.MapBlocks | src/lib/aiService.js:55-71 | `map` fails iff some element fails; otherwise one block per element, in order |
| AiService.ExperienceBlocks | src/lib/aiService.js:55-60 | fails iff some experience has non-list achievements |
| AiService.ProjectBlocks | src/lib/aiService.js:66-71 | fails iff some project has non-list technologies |
| AiService.GoalsText | src/lib/aiService.js:74 | missing career goals become "Not specified" |
| AiService.BuildPrompt | src/lib/aiService.js:28-75 | the prompt is built unless some achievements or technologies value is present but not a list |
| AiService.Chain | src/lib/aiService.js:142 | `o?.key` is undefined for undefined or null `o` |
| AiService.SelectContent | src/lib/aiService.js:140-149 | a null reply throws; every other failure is the error "Unexpected response format from Raxcore API" |
| AiService.ChoicesObjectIndexed | src/lib/aiService.js:140-141 | `choices[0]` on a `choices` object reads its member "0", so such an object selects the same content as an array holding that choice |
| AiService.SelectionOrder | src/lib/aiService.js:140-149 | content is `choices[0].message.content`, else `choices[0].text`, else `content`, else `response`, else the format error |
| AiService.ContentText | src/lib/aiService.js:152 | only a string content can be matched |
| AiService.BraceSpan | src/lib/aiService.js:152 | a match exists iff some '{' precedes some '}'; it starts with '{' and ends with '}' |
| AiService.BraceSpanLeftmostLongest | src/lib/aiService.js:152 | the greedy match runs from the first '{' to the last '}' |
| AiService.BraceSpanOfWrapped | src/lib/aiService.js:152 | JSON wrapped in brace-free prose is extracted exactly |
| AiService.JsonCandidate | src/lib/aiService.js:152-159 | the brace span when there is one, else the whole content |
| AiService.MockResponse | src/lib/aiService.js:179-195 | a summary string, one experience suggestion and one project suggestion |
| AiService.Suggestion | src/lib/aiService.js:183-192 | a suggestion carries its description and no achievements |
| AiService.CallAIService | src/lib/aiService.js:105-174 | never fails: no key, no reply, an unexpected shape, non-text content or unparseable text all yield the sample answer; otherwise the parsed candidate |
| AiService.ChatReplyParsed | src/lib/aiService.js:139-155 | a chat reply whose content wraps JSON in prose yields that JSON |
| AiService.GenerateResumeWithAI | src/lib/aiService.js:7-23 | fails iff the prompt cannot be built; otherwise the service's answer |
| AiGenerator.Elements | src/components/ai/AIResumeGenerator.jsx:63-79 | the indexable elements of a list, or of a string's characters |
| AiGenerator.SetOrDrop | src/components/ai/AIResumeGenerator.jsx:68-72 | a spread assignment: sets the key, or drops it for `undefined`, leaving other keys |
| AiGenerator.MergeExperience | src/components/ai/AIResumeGenerator.jsx:68-72 | description and achievements take the AI value when truthy, else the original; every other field is unchanged |
| AiGenerator.ExperienceCall | src/components/ai/AIResumeGenerator.jsx:64-73 | a null suggestion throws; an update is issued iff the AI gives a description or achievements, keyed by the entry's id |
| AiGenerator.ProjectCall | src/components/ai/AIResumeGenerator.jsx:80-88 | an update iff the AI gives a description; only the description is replaced |
| AiGenerator.ExperienceFailedSticks | src/components/ai/AIResumeGenerator.jsx:63-74 | after a throw, later iterations issue nothing |
| AiGenerator.ProjectFailedSticks | src/components/ai/AIResumeGenerator.jsx:79-89 | after a throw, later iterations issue nothing |
| AiGenerator.Suggested | src/components/ai/AIResumeGenerator.jsx:62-78 | a missing or null AI list gives no suggestions |
| AiGenerator.ExperienceRunTouches | src/components/ai/AIResumeGenerator.jsx:62-75 | only entries below the loop bound are updated, each with its own id |
| AiGenerator.SummaryWritten | src/components/ai/AIResumeGenerator.jsx:57-59 | a truthy AI summary is saved as the first write; a falsy one issues no summary write at all |
| AiGenerator.ProjectRunPrefix | src/components/ai/AIResumeGenerator.jsx:78-90 | the project loop keeps the earlier writes and appends at most one write per index, each an update of the projects section naming the id of a project below the bound |
| AiGenerator.MockRewritesFirstEntries | src/components/ai/AIResumeGenerator.jsx:57-90 | with the sample answer: the summary, the first experience's description and the first project's description are saved, and nothing else |
| AiGenerator.GeneratorPanel.constructor | src/components/ai/AIResumeGenerator.jsx:9-11 | not generating, progress 0, empty step |
| AiGenerator.GeneratorPanel.HandleGenerate | src/components/ai/AIResumeGenerator.jsx:14-111 | no resume aborts untouched; no experience aborts before the AI call; otherwise the updates issued are those of the AI answer; the panel always ends idle |
| AiGenerator.GeneratorPanel.Finish | src/components/ai/AIResumeGenerator.jsx:106-110 | `isGenerating` false, progress 0, step "" |
| AiGenerator.ProfileOf | src/components/ai/AIResumeGenerator.jsx:40-47 | experience and projects are passed through; missing career goals become "" |
| AiGenerator.ApplySuggestions | src/components/ai/AIResumeGenerator.jsx:56-90 | the summary update and both loops issue exactly the specified updates |
| AiGenerator.ApplyExperience | src/components/ai/AIResumeGenerator.jsx:62-75 | the loop runs to min(AI entries, entries) and issues the specified experience updates |
| AiGenerator.ApplyProjects | src/components/ai/AIResumeGenerator.jsx:77-90 | the loop runs to min(AI entries, projects) and issues the specified project updates |
| Analytics.Cutoff | src/components/analytics/Analytics.jsx:36-45 | a date filter exists iff the range is 'week' or 'month' |
| Analytics.Since | src/components/analytics/Analytics.jsx:54-56 | no filter keeps all events; a filter keeps each event at or after the cutoff exactly as often as it occurs, and no other |
| Analytics.AtOrAfter | src/components/analytics/Analytics.jsx:54-56 | the events at or after the cutoff, each with its multiplicity in the input, none earlier |
| Analytics.AllRangeUnfiltered | src/components/analytics/Analytics.jsx:36-56 | range 'all' applies no date filter |
| Analytics.OfType | src/components/analytics/Analytics.jsx:63-65 | keeps each event of the type exactly as often as it occurs, and no other, so each total is the number of events of its type |
| Analytics.CountsPartition | src/components/analytics/Analytics.jsx:63-76 | views, downloads, clicks and other events partition the events |
| Analytics.VisitorIps | src/components/analytics/Analytics.jsx:68 | exactly the truthy IP addresses |
| Analytics.VisitorsAtMostEvents | src/components/analytics/Analytics.jsx:68-77 | there are never more unique visitors than events |
| Analytics.RepeatVisitCountsOnce | src/components/analytics/Analytics.jsx:68 | a repeated IP adds no visitor |
| Analytics.Process | src/components/analytics/Analytics.jsx:62-78 | totals equal the typed counts; unique visitors equal the number of distinct truthy IPs |
| Analytics.AnalyticsPage.constructor | src/components/analytics/Analytics.jsx:12-22 | empty analytics, loading, range 'all' |
| Analytics.AnalyticsPage.SelectRange | src/components/analytics/Analytics.jsx:152-164 | sets the range only |
| Analytics.AnalyticsPage.FetchAnalytics | src/components/analytics/Analytics.jsx:31-84 | on success the analytics are the processed filtered events; on failure they are kept; loading ends false |
| Analytics.Tag | src/components/analytics/Analytics.jsx:94-96 | each event tagged with its kind, in order |
| Analytics.InsertNewest | src/components/analytics/Analytics.jsx:97 | insertion keeps the list newest first and adds exactly the element |
| Analytics.SortNewest | src/components/analytics/Analytics.jsx:97 | sorted newest first and a permutation of the input |
| Analytics.RecentIsNewestTen | src/components/analytics/Analytics.jsx:92-100 | min(10, n) typed events, newest first, none older than any left out |
| Analytics.PrefixIsNewest | src/components/analytics/Analytics.jsx:99 | a prefix of a newest-first list holds its newest elements |
| Analytics.RecentKinds | src/components/analytics/Analytics.jsx:93-96 | every recent entry comes from the typed list its kind names |
| Analytics.EventLabel | src/components/analytics/Analytics.jsx:102-109 | fixed labels for the three types; any other type is returned unchanged |
| Analytics.Ago | src/components/analytics/Analytics.jsx:119-121 | the unit is singular exactly when the count is 1 |
| Analytics.RelativeTimeBuckets | src/components/analytics/Analytics.jsx:111-122 | minutes below an hour, hours below a day, days below a week, else the local date |
| Analytics.FutureEvents | src/components/analytics/Analytics.jsx:115-119 | flooring makes an event up to a minute ahead read "-1 minutes ago" |
| ExportModal.Render | src/components/export/ExportModal.jsx:11 | a closed dialog renders nothing |
| ExportModal.FileName | src/components/export/ExportModal.jsx:17 | `(title \|\| 'resume') + '_' +` the timestamp's text before 'T' |
| ExportModal.FileNameDate | src/components/export/ExportModal.jsx:17 | for an ISO timestamp the suffix is its date part |
| ExportModal.ExportDialog.constructor | src/components/export/ExportModal.jsx:8-9 | not exporting, format 'pdf' |
| ExportModal.ExportDialog.ChooseFormat | src/components/export/ExportModal.jsx:54 | sets the format only |
| ExportModal.ExportDialog.HandleExport | src/components/export/ExportModal.jsx:13-34 | an undefined or a null `resumeData` fails with the matching "Cannot read properties of undefined/null (reading 'title')" TypeError and no export call; a missing preview fails with "Resume preview not found" and no export call; the PDF gets `filename.pdf`; the dialog closes iff there was no error; `exporting` ends false |

## Left out

- Drawing and file output are not modelled: jsPDF, docx `Packer`, `saveAs` and
  html2canvas, including the raster `exportToPDF` in both export libraries. PDF and
  Office Open XML serialisation happen inside those libraries. The model records the
  calls made and the paragraphs built. Saving is an input that decides success.
- Font metrics are not modelled. `splitTextToSize` is the parameter `wrap`, and the
  layout facts hold for every wrap.
- Locale and time zone are not modelled. `toLocaleDateString` and `getFullYear` are
  abstract, and only "a falsy date gives ''" is fixed. `new Date()`, `Date.now`,
  `Math.random` and the ISO clock reading become inputs. Invalid dates are not
  modelled.
- `Object.entries` puts integer-like keys first. The model assumes first-appearance
  order for all category names.
- Paragraph formatting is only partly kept. Bold, size and italics of the DOCX runs
  are kept. Fonts, colours, spacing values and line widths are not.
- WordExport.TechnologiesRun: how the docx library renders a list passed as `text` is
  a runtime parameter, not a fixed text.
- Supabase is not modelled:
  - queries, auth, inserts and `fetch` are left out, and each result is an input;
  - `createResume` and `deleteResume` only call the backend and refetch, and are not
    modelled;
  - ordering by `sort_order` or `updated_at` happens in the backend;
  - the rows returned by an insert are modelled as the sent row plus its new id.
- ResumeStore.ResumeStoreState.Duplicate: the failure of an individual section insert
  is not checked, as in the source, which ignores the `Promise.all` results.
- AiGenerator.GeneratorPanel.HandleGenerate: the store calls made inside the loops
  are treated as succeeding, and their order is what is modelled. The 500 ms pauses
  and the `progress` values in between are not modelled.
- AiService.BuildPrompt: the closing request text after the career goals, which is a
  fixed string, is not modelled.
- `JSON.parse` is the partial function `parse`. The network request and the HTTP
  status become the `Reply` input.
- `generatePDF` and `generateWord` are not modelled. They are placeholders that
  return null.
- The engagement ratios on the analytics page are floating-point display code, and
  are not modelled.
- The React effects that refetch when the range changes are not modelled.
- Analytics.SortNewest: the stability of `Array.prototype.sort` is not stated. Events
  with equal timestamps may come in any order.
- Lower-casing in `isCertificateFile` is ASCII only.
- ExportModal.ExportDialog.HandleExport: the TypeError texts for a missing `resumeData`
  are V8's wording; other engines word that error differently.
- Storage.FileExtension: names longer than 2^32 characters are excluded, where `>>> 0`
  would wrap around differently.
- AiGenerator.Elements: an object with a numeric `length` member is treated as having
  no elements.
- Ids are compared structurally, which for strings and numbers matches `===`.
- The remaining section editors repeat the append, replace-by-id and remove-by-id
  updates covered by the projects editor, and are not modelled. So are the
  presentational components, routing, authentication and the build configuration.

## Findings

| source | as written | input that shows it | evidently intended | confidence | as-written member | corrected member |
|---|---|---|---|---|---|---|
| src/lib/atsExportService.js:209-214 | `acc[category]` on a plain `{}` finds the inherited `Object.prototype` member for categories such as "constructor" or "toString"; `.push` then throws and the whole export fails; the DOCX exporter repeats the code at lines 587-590 | one skill with category "constructor" | group every category, whatever its name | not executed | SkillGroups.ConstructorCategoryFails | SkillGroups.GroupCorrect |
| src/lib/exportService.js:220-227 | the Word exporter fills `skillsByCategory = {}` the same way, for every skill, so `skillsByCategory[category]` is inherited for such a category, `.push` throws and the export fails with "Failed to export Word document" | one skill with category "toString" | group every category, whatever its name | not executed | WordExport.ToStringCategoryFails | SkillGroups.GroupCorrect |
