/** The resume store: the resume snapshot `fetchResume` assembles from its ten queries,
    the rows `duplicateResume` sends to copy a resume, the single pending auto-save
    timer, and the rule that a write refetches the open resume exactly when it is the
    one written. A database call is described by its outcome, which the caller supplies:
    the rows a query returned (or nothing when it failed), or whether a write went
    through. */
module ResumeStore {
  import opened Js
  import opened Strings
  import opened JsonText

  // ---- fetchResume ----

  /** What the nine section queries returned: `data` of a `.single()` query is one row,
      of the other queries a list of rows; None stands for the `null` a query gives when
      it found nothing or failed. */
  datatype Sections = Sections(
    personalInfo: Option<Row>,
    education: Option<seq<Row>>,
    experience: Option<seq<Row>>,
    skills: Option<seq<Row>>,
    projects: Option<seq<Row>>,
    certifications: Option<seq<Row>>,
    languages: Option<seq<Row>>,
    references: Option<seq<Row>>,
    sectionVisibility: Option<Row>)

  /** The snapshot kept as `currentResume`: the resume row and every section. */
  datatype FullResume = FullResume(
    resume: Row,
    personalInfo: Row,
    education: seq<Row>,
    experience: seq<Row>,
    skills: seq<Row>,
    projects: seq<Row>,
    certifications: seq<Row>,
    languages: seq<Row>,
    references: seq<Row>,
    sectionVisibility: Row)

  /** `data || []`. */
  function ListOr(data: Option<seq<Row>>): seq<Row> {
    if data.Some? then data.value else []
  }

  /** `data || {}` (a returned row is an object, hence truthy). */
  function RowOr(data: Option<Row>): Row {
    if data.Some? then data.value else map[]
  }

  /** The `fullResume` object: a missing section becomes an empty list, a missing
      personal info or visibility row an empty object, and whatever was returned is
      kept as it is. */
  function Assemble(resume: Row, s: Sections): (f: FullResume)
    ensures f.resume == resume
    ensures s.personalInfo.None? ==> f.personalInfo == map[]
    ensures s.sectionVisibility.None? ==> f.sectionVisibility == map[]
    ensures s.education.None? ==> f.education == []
    ensures s.projects.None? ==> f.projects == []
    ensures s.references.None? ==> f.references == []
    ensures s.personalInfo.Some? ==> f.personalInfo == s.personalInfo.value
    ensures s.education.Some? ==> f.education == s.education.value
    ensures s.experience.Some? ==> f.experience == s.experience.value
    ensures s.skills.Some? ==> f.skills == s.skills.value
    ensures s.projects.Some? ==> f.projects == s.projects.value
    ensures s.certifications.Some? ==> f.certifications == s.certifications.value
    ensures s.languages.Some? ==> f.languages == s.languages.value
    ensures s.references.Some? ==> f.references == s.references.value
    ensures s.sectionVisibility.Some? ==> f.sectionVisibility == s.sectionVisibility.value
  {
    FullResume(resume, RowOr(s.personalInfo), ListOr(s.education), ListOr(s.experience),
      ListOr(s.skills), ListOr(s.projects), ListOr(s.certifications), ListOr(s.languages),
      ListOr(s.references), RowOr(s.sectionVisibility))
  }

  /** The member names the snapshot adds to the resume row. */
  const ListKeys: set<string> := {"education", "experience", "skills", "projects", "certifications", "languages", "references"}
  const ObjectKeys: set<string> := {"personalInfo", "sectionVisibility"}

  function Objects(rows: seq<Row>): (r: seq<Json>)
    ensures |r| == |rows|
    ensures forall i :: 0 <= i < |rows| ==> r[i] == JObj(rows[i])
  {
    seq(|rows|, i requires 0 <= i < |rows| => JObj(rows[i]))
  }

  /** `{ ...resume, personalInfo: ..., education: ..., ... }` as a JavaScript object. */
  function AsObject(f: FullResume): (o: Row)
    ensures o.Keys == f.resume.Keys + ListKeys + ObjectKeys
    ensures forall k :: k in ListKeys ==> o[k].JArr?
    ensures forall k :: k in ObjectKeys ==> o[k].JObj?
    ensures forall k :: k in f.resume && k !in ListKeys + ObjectKeys ==> o[k] == f.resume[k]
  {
    f.resume[
      "personalInfo" := JObj(f.personalInfo)][
      "education" := JArr(Objects(f.education))][
      "experience" := JArr(Objects(f.experience))][
      "skills" := JArr(Objects(f.skills))][
      "projects" := JArr(Objects(f.projects))][
      "certifications" := JArr(Objects(f.certifications))][
      "languages" := JArr(Objects(f.languages))][
      "references" := JArr(Objects(f.references))][
      "sectionVisibility" := JObj(f.sectionVisibility)]
  }

  /** Whatever the queries returned, the snapshot has every section as a list and the
      personal info and visibility as objects; a missing section reads as empty. */
  lemma AssembledShape(resume: Row, s: Sections)
    ensures var o := AsObject(Assemble(resume, s));
      (forall k :: k in ListKeys ==> k in o && o[k].JArr?) &&
      (forall k :: k in ObjectKeys ==> k in o && o[k].JObj?) &&
      (s.education.None? ==> o["education"] == JArr([])) &&
      (s.personalInfo.None? ==> o["personalInfo"] == JObj(map[])) &&
      (forall k :: k in resume && k !in ListKeys + ObjectKeys ==> k in o && o[k] == resume[k])
  {
    var o := AsObject(Assemble(resume, s));
    assert o["education"] == JArr(Objects(ListOr(s.education)));
  }

  // ---- the refetch rule ----

  /** `currentResume?.id`: undefined when nothing is open or the row has no id. */
  function CurrentId(current: Option<FullResume>): (r: Option<Json>)
    ensures r.Some? <==> current.Some? && "id" in current.value.resume
  {
    if current.Some? then Get(current.value.resume, "id") else None
  }

  /** `get().currentResume?.id === resumeId`, ids being primitive values. */
  predicate ShouldRefetch(current: Option<FullResume>, resumeId: Option<Json>) {
    CurrentId(current) == resumeId
  }

  /** A write refetches exactly when the open resume carries the written id; with nothing
      open, `undefined === undefined` still asks to refetch an undefined id. */
  lemma RefetchRule(current: Option<FullResume>, resumeId: Option<Json>)
    ensures current.Some? && resumeId.Some? ==>
      (ShouldRefetch(current, resumeId) <==> "id" in current.value.resume && current.value.resume["id"] == resumeId.value)
    ensures current.None? ==> (ShouldRefetch(current, resumeId) <==> resumeId.None?)
  {
  }

  // ---- duplicateResume ----

  const CopySuffix: string := " (Copy)"

  /** The resume columns carried over besides the title. */
  const CopiedColumns: set<string> := {"summary", "template_id", "color_theme", "font_family", "layout"}

  /** The row inserted for the copy: the title with " (Copy)" after it, and the summary,
      template, colour theme, font and layout of the original. A column the original
      lacks is `undefined` and is not sent. */
  function NewResumeRow(resume: Row, num: real -> string): (r: Row)
    ensures r.Keys == {"title"} + (resume.Keys * CopiedColumns)
    ensures r["title"] == JStr(Interpolate(Get(resume, "title"), num) + CopySuffix)
    ensures forall k :: k in resume && k in CopiedColumns ==> r[k] == resume[k]
  {
    (map k | k in resume && k in CopiedColumns :: resume[k])[
      "title" := JStr(Interpolate(Get(resume, "title"), num) + CopySuffix)]
  }

  /** A copy of a copy titled "T" is titled "T (Copy) (Copy)". */
  lemma CopyOfCopy(title: string, resume: Row, num: real -> string)
    requires Get(resume, "title") == Some(JStr(title))
    ensures var first := NewResumeRow(resume, num);
      NewResumeRow(first, num)["title"] == JStr(title + CopySuffix + CopySuffix)
  {
  }

  const PersonalInfoTable := "personal_info"
  const EducationTable := "education"
  const ExperienceTable := "experience"
  const SkillsTable := "skills"
  const ProjectsTable := "projects"
  const CertificationsTable := "certifications"
  const LanguagesTable := "languages"
  const ReferencesTable := "references"
  const VisibilityTable := "section_visibility"

  /** The tables a copy writes to, in the order the copies are issued. */
  const CopyTables: seq<string> := [PersonalInfoTable, EducationTable, ExperienceTable,
    SkillsTable, ProjectsTable, CertificationsTable, LanguagesTable, ReferencesTable, VisibilityTable]

  /** The members a copied row of `table` loses: the id, the owner and the creation time
      always; the update time only for personal info, education, experience and
      projects; the visibility row keeps both times. */
  function StrippedKeys(table: string): (r: set<string>)
    ensures "id" in r && "resume_id" in r
    ensures "updated_at" in r <==> table in {PersonalInfoTable, EducationTable, ExperienceTable, ProjectsTable}
    ensures "created_at" in r <==> table != VisibilityTable
    ensures r <= {"id", "resume_id", "created_at", "updated_at"}
  {
    if table == VisibilityTable then {"id", "resume_id"}
    else if table in {PersonalInfoTable, EducationTable, ExperienceTable, ProjectsTable} then
      {"id", "resume_id", "created_at", "updated_at"}
    else {"id", "resume_id", "created_at"}
  }

  /** `({ id, resume_id, ..., ...rest }) => ({ ...rest, resume_id: newId })`. */
  function CopyRow(row: Row, table: string, newId: Json): (r: Row)
    ensures r.Keys == row.Keys - StrippedKeys(table) + {"resume_id"}
    ensures r["resume_id"] == newId
    ensures "id" !in r
    ensures forall k :: k in row && k !in StrippedKeys(table) ==> r[k] == row[k]
  {
    (map k | k in row && k !in StrippedKeys(table) :: row[k])["resume_id" := newId]
  }

  function CopyRows(rows: seq<Row>, table: string, newId: Json): (r: seq<Row>)
    ensures |r| == |rows|
    ensures forall i :: 0 <= i < |rows| ==> r[i] == CopyRow(rows[i], table, newId)
  {
    seq(|rows|, i requires 0 <= i < |rows| => CopyRow(rows[i], table, newId))
  }

  /** One insert of the copy: a table and the rows sent to it. */
  datatype Insert = Insert(table: string, rows: seq<Row>)

  /** Every row sent belongs to the new resume and carries no id of its own, and no
      insert is empty. */
  predicate WellFormed(ins: seq<Insert>, newId: Json) {
    forall i :: 0 <= i < |ins| ==>
      |ins[i].rows| > 0 &&
      forall j :: 0 <= j < |ins[i].rows| ==>
        "resume_id" in ins[i].rows[j] && ins[i].rows[j]["resume_id"] == newId && "id" !in ins[i].rows[j]
  }

  /** `if (rows.length > 0)`: a non-empty section is copied row by row. */
  function ListCopy(acc: seq<Insert>, table: string, rows: seq<Row>, newId: Json): (r: seq<Insert>)
    ensures WellFormed(acc, newId) ==> WellFormed(r, newId)
  {
    if |rows| > 0 then acc + [Insert(table, CopyRows(rows, table, newId))] else acc
  }

  /** `if (row?.id)`: a single row is copied only when it carries a truthy id. */
  function RowCopy(acc: seq<Insert>, table: string, row: Row, newId: Json): (r: seq<Insert>)
    ensures WellFormed(acc, newId) ==> WellFormed(r, newId)
  {
    if "id" in row && JTruthy(row["id"]) then acc + [Insert(table, [CopyRow(row, table, newId)])] else acc
  }

  /** The tables copied before the certifications, in order. */
  const FirstTables: seq<string> := [PersonalInfoTable, EducationTable, ExperienceTable, SkillsTable, ProjectsTable]

  /** The inserts for the personal details, education, experience, skills and projects. */
  function FirstCopies(f: FullResume, newId: Json): seq<Insert> {
    var a0: seq<Insert> := [];
    var a1 := RowCopy(a0, PersonalInfoTable, f.personalInfo, newId);
    var a2 := ListCopy(a1, EducationTable, f.education, newId);
    var a3 := ListCopy(a2, ExperienceTable, f.experience, newId);
    var a4 := ListCopy(a3, SkillsTable, f.skills, newId);
    ListCopy(a4, ProjectsTable, f.projects, newId)
  }

  /** The section inserts `duplicateResume` issues, in order. */
  function SectionCopies(f: FullResume, newId: Json): (r: seq<Insert>)
    ensures WellFormed(r, newId)
  {
    var a5 := FirstCopies(f, newId);
    var a6 := ListCopy(a5, CertificationsTable, f.certifications, newId);
    var a7 := ListCopy(a6, LanguagesTable, f.languages, newId);
    var a8 := ListCopy(a7, ReferencesTable, f.references, newId);
    RowCopy(a8, VisibilityTable, f.sectionVisibility, newId)
  }

  /** The rows of `table` in the snapshot, and whether there is anything to copy there. */
  function SectionRows(f: FullResume, table: string): seq<Row> {
    if table == PersonalInfoTable then [f.personalInfo]
    else if table == EducationTable then f.education
    else if table == ExperienceTable then f.experience
    else if table == SkillsTable then f.skills
    else if table == ProjectsTable then f.projects
    else if table == CertificationsTable then f.certifications
    else if table == LanguagesTable then f.languages
    else if table == ReferencesTable then f.references
    else if table == VisibilityTable then [f.sectionVisibility]
    else []
  }

  predicate Copied(f: FullResume, table: string) {
    if table == PersonalInfoTable || table == VisibilityTable then
      var row := SectionRows(f, table)[0];
      "id" in row && JTruthy(row["id"])
    else |SectionRows(f, table)| > 0
  }

  /** Reference description: an insert for each table, in the fixed order, whose
      section has something to copy, holding the section's rows stripped and re-owned. */
  function Expected(f: FullResume, tables: seq<string>, newId: Json): seq<Insert>
    decreases |tables|
  {
    if tables == [] then []
    else
      var t := tables[|tables| - 1];
      var init := Expected(f, tables[..|tables| - 1], newId);
      if Copied(f, t) then init + [Insert(t, CopyRows(SectionRows(f, t), t, newId))] else init
  }

  lemma ExpectedStep(f: FullResume, tables: seq<string>, t: string, newId: Json)
    ensures Expected(f, tables + [t], newId) ==
      Expected(f, tables, newId) + (if Copied(f, t) then [Insert(t, CopyRows(SectionRows(f, t), t, newId))] else [])
  {
    assert (tables + [t])[..|tables|] == tables;
  }

  /** The copy issues exactly the inserts of the reference description: sections are
      visited in the fixed order, an empty section or an id-less single row produces no
      insert, and each insert holds every row of its section. */
  lemma CopiesAsExpected(f: FullResume, newId: Json)
    ensures SectionCopies(f, newId) == Expected(f, CopyTables, newId)
  {
    var a5 := FirstCopies(f, newId);
    var a6 := ListCopy(a5, CertificationsTable, f.certifications, newId);
    var a7 := ListCopy(a6, LanguagesTable, f.languages, newId);
    var a8 := ListCopy(a7, ReferencesTable, f.references, newId);
    var p5 := FirstTables;
    FirstCopiesAsExpected(f, newId);
    ListStep(f, p5, CertificationsTable, a5, newId);
    var p6 := p5 + [CertificationsTable];
    ListStep(f, p6, LanguagesTable, a6, newId);
    var p7 := p6 + [LanguagesTable];
    ListStep(f, p7, ReferencesTable, a7, newId);
    var p8 := p7 + [ReferencesTable];
    RowStep(f, p8, VisibilityTable, a8, newId);
    assert p8 + [VisibilityTable] == CopyTables;
  }

  lemma FirstCopiesAsExpected(f: FullResume, newId: Json)
    ensures FirstCopies(f, newId) == Expected(f, FirstTables, newId)
  {
    var a0: seq<Insert> := [];
    var a1 := RowCopy(a0, PersonalInfoTable, f.personalInfo, newId);
    var a2 := ListCopy(a1, EducationTable, f.education, newId);
    var a3 := ListCopy(a2, ExperienceTable, f.experience, newId);
    var a4 := ListCopy(a3, SkillsTable, f.skills, newId);
    var p0: seq<string> := [];
    assert Expected(f, p0, newId) == a0;
    RowStep(f, p0, PersonalInfoTable, a0, newId);
    var p1 := p0 + [PersonalInfoTable];
    ListStep(f, p1, EducationTable, a1, newId);
    var p2 := p1 + [EducationTable];
    ListStep(f, p2, ExperienceTable, a2, newId);
    var p3 := p2 + [ExperienceTable];
    ListStep(f, p3, SkillsTable, a3, newId);
    var p4 := p3 + [SkillsTable];
    ListStep(f, p4, ProjectsTable, a4, newId);
    assert p4 + [ProjectsTable] == FirstTables;
  }

  /** One list-valued section of the copy matches one step of the reference. */
  lemma ListStep(f: FullResume, prefix: seq<string>, t: string, acc: seq<Insert>, newId: Json)
    requires t in {EducationTable, ExperienceTable, SkillsTable, ProjectsTable, CertificationsTable, LanguagesTable, ReferencesTable}
    requires acc == Expected(f, prefix, newId)
    ensures ListCopy(acc, t, SectionRows(f, t), newId) == Expected(f, prefix + [t], newId)
  {
    ExpectedStep(f, prefix, t, newId);
  }

  /** The personal info or visibility step of the copy matches one step of the reference. */
  lemma RowStep(f: FullResume, prefix: seq<string>, t: string, acc: seq<Insert>, newId: Json)
    requires t == PersonalInfoTable || t == VisibilityTable
    requires acc == Expected(f, prefix, newId)
    ensures RowCopy(acc, t, SectionRows(f, t)[0], newId) == Expected(f, prefix + [t], newId)
  {
    ExpectedStep(f, prefix, t, newId);
    var row := SectionRows(f, t)[0];
    assert CopyRows([row], t, newId) == [CopyRow(row, t, newId)];
  }

  /** A copied skill keeps its `updated_at`; a copied experience entry loses it. */
  lemma UpdatedAtPolicy(row: Row, newId: Json)
    requires "updated_at" in row
    ensures "updated_at" in CopyRow(row, SkillsTable, newId)
    ensures "updated_at" !in CopyRow(row, ExperienceTable, newId)
  {
  }

  // ---- the store ----

  /** The callback a pending auto-save timer will run: `updateResume(resumeId, updates)`. */
  datatype PendingSave = PendingSave(resumeId: Option<Json>, updates: Row)

  /** The store's state. `timers` stands for the browser's table of scheduled timeouts
      this store created, keyed by handle; handles are positive, hence truthy. */
  class ResumeStoreState {
    var resumes: seq<Row>
    var currentResume: Option<FullResume>
    var loading: bool
    var autoSaveTimer: Option<nat>
    var timers: map<nat, PendingSave>
    var nextHandle: nat

    /** Only the handle kept in `autoSaveTimer` can still be pending. */
    ghost predicate Valid()
      reads this
    {
      0 < nextHandle &&
      (autoSaveTimer.Some? ==> 0 < autoSaveTimer.value < nextHandle) &&
      (autoSaveTimer.None? ==> timers == map[]) &&
      (autoSaveTimer.Some? ==> timers.Keys <= {autoSaveTimer.value})
    }

    constructor()
      ensures Valid()
      ensures resumes == [] && currentResume == None && !loading && autoSaveTimer == None
    {
      resumes := [];
      currentResume := None;
      loading := false;
      autoSaveTimer := None;
      timers := map[];
      nextHandle := 1;
    }

    /** `scheduleAutoSave`: the pending timer, if any, is cleared and a new one holding
        these updates is kept, so afterwards exactly the latest save is pending. */
    method ScheduleAutoSave(resumeId: Option<Json>, updates: Row)
      requires Valid()
      modifies this
      ensures Valid()
      ensures timers == map[old(nextHandle) := PendingSave(resumeId, updates)]
      ensures autoSaveTimer == Some(old(nextHandle))
      ensures resumes == old(resumes) && currentResume == old(currentResume) && loading == old(loading)
    {
      if autoSaveTimer.Some? && autoSaveTimer.value != 0 {
        timers := timers - {autoSaveTimer.value};
      }
      var timer := nextHandle;
      timers := timers[timer := PendingSave(resumeId, updates)];
      nextHandle := nextHandle + 1;
      autoSaveTimer := Some(timer);
    }

    /** A timer runs out: its save leaves the table and is handed to the caller, who runs
        `updateResume` with it. `autoSaveTimer` keeps the spent handle. */
    method Fire(handle: nat) returns (save: PendingSave)
      requires Valid() && handle in timers
      modifies this
      ensures Valid()
      ensures save == old(timers[handle]) && timers == map[]
      ensures autoSaveTimer == old(autoSaveTimer) && resumes == old(resumes)
      ensures currentResume == old(currentResume) && loading == old(loading)
    {
      save := timers[handle];
      timers := timers - {handle};
      assert timers.Keys == {};
    }

    /** `fetchResumes`: the list is replaced by the query's rows, or kept when the query
        failed; `loading` ends false. */
    method FetchResumes(data: Option<seq<Row>>)
      requires Valid()
      modifies this
      ensures Valid()
      ensures resumes == (if data.Some? then data.value else old(resumes))
      ensures !loading && currentResume == old(currentResume)
      ensures autoSaveTimer == old(autoSaveTimer) && timers == old(timers)
    {
      loading := true;
      if data.Some? {
        resumes := data.value;
      }
      loading := false;
    }

    /** `fetchResume`: when the resume row arrives the assembled snapshot becomes the
        open resume and is returned; when it does not, nothing is returned and the open
        resume stays. `loading` ends false. */
    method FetchResume(resume: Option<Row>, sections: Sections) returns (r: Option<FullResume>)
      requires Valid()
      modifies this
      ensures Valid()
      ensures r == (if resume.Some? then Some(Assemble(resume.value, sections)) else None)
      ensures currentResume == (if r.Some? then r else old(currentResume))
      ensures !loading && resumes == old(resumes)
      ensures autoSaveTimer == old(autoSaveTimer) && timers == old(timers)
    {
      loading := true;
      if resume.Some? {
        var full := Assemble(resume.value, sections);
        currentResume := Some(full);
        r := Some(full);
      } else {
        r := None;
      }
      loading := false;
    }

    /** The tail of `updateSection`, `addSectionItem`, `updateSectionItem` and
        `deleteSectionItem`: a failed write rethrows; a successful one refetches the open
        resume exactly when it is the resume written. */
    method SectionWrite(resumeId: Option<Json>, written: bool, resume: Option<Row>, sections: Sections)
      returns (ok: bool, refetched: bool)
      requires Valid()
      modifies this
      ensures Valid()
      ensures ok == written
      ensures refetched <==> written && ShouldRefetch(old(currentResume), resumeId)
      ensures currentResume == (if refetched && resume.Some? then Some(Assemble(resume.value, sections)) else old(currentResume))
      ensures resumes == old(resumes) && autoSaveTimer == old(autoSaveTimer) && timers == old(timers)
      ensures refetched ==> !loading
      ensures !refetched ==> loading == old(loading)
    {
      ok := written;
      refetched := false;
      if !written {
        return;
      }
      if CurrentId(currentResume) == resumeId {
        var _ := FetchResume(resume, sections);
        refetched := true;
      }
    }

    /** `updateResume`: after a successful update the list is refetched and then the open
        resume, exactly when it is the one updated. */
    method UpdateResume(resumeId: Option<Json>, written: bool, list: Option<seq<Row>>, resume: Option<Row>, sections: Sections)
      returns (ok: bool, refetched: bool)
      requires Valid()
      modifies this
      ensures Valid()
      ensures ok == written
      ensures refetched <==> written && ShouldRefetch(old(currentResume), resumeId)
      ensures resumes == (if written && list.Some? then list.value else old(resumes))
      ensures currentResume == (if refetched && resume.Some? then Some(Assemble(resume.value, sections)) else old(currentResume))
      ensures autoSaveTimer == old(autoSaveTimer) && timers == old(timers)
    {
      ok := written;
      refetched := false;
      if !written {
        return;
      }
      FetchResumes(list);
      if CurrentId(currentResume) == resumeId {
        var _ := FetchResume(resume, sections);
        refetched := true;
      }
    }

    /** `duplicateResume`. The original is fetched first, which also makes it the open
        resume; without it, reading its title throws. Then the copy's row is inserted;
        without the new id that throws too. Otherwise the section inserts are issued
        (their own failures are not checked), the list is refetched and the new id is
        returned. */
    method Duplicate(original: Option<Row>, sections: Sections, insertedId: Option<Json>,
                     list: Option<seq<Row>>, num: real -> string)
      returns (r: Result<Json>, sent: Option<Row>, copies: seq<Insert>)
      requires Valid()
      modifies this
      ensures Valid()
      ensures currentResume == (if original.Some? then Some(Assemble(original.value, sections)) else old(currentResume))
      ensures original.None? ==> r.Err? && sent == None && copies == [] && resumes == old(resumes)
      ensures original.Some? ==> sent == Some(NewResumeRow(original.value, num))
      ensures original.Some? && insertedId.None? ==> r.Err? && copies == [] && resumes == old(resumes)
      ensures original.Some? && insertedId.Some? ==>
        r == Ok(insertedId.value) &&
        copies == SectionCopies(Assemble(original.value, sections), insertedId.value) &&
        resumes == (if list.Some? then list.value else old(resumes))
      ensures autoSaveTimer == old(autoSaveTimer) && timers == old(timers)
    {
      var full := FetchResume(original, sections);
      sent := None;
      copies := [];
      if full.None? {
        r := Err("TypeError: Cannot read properties of undefined (reading 'title')");
        return;
      }
      var row := NewResumeRow(full.value.resume, num);
      sent := Some(row);
      if insertedId.None? {
        r := Err("Failed to duplicate resume");
        return;
      }
      copies := SectionCopies(full.value, insertedId.value);
      FetchResumes(list);
      r := Ok(insertedId.value);
    }
  }

  /** At most one auto-save is ever pending. */
  lemma AtMostOnePending(s: ResumeStoreState)
    requires s.Valid()
    ensures |s.timers| <= 1
  {
    if s.autoSaveTimer.Some? {
      var h := s.autoSaveTimer.value;
      if h in s.timers {
        assert s.timers.Keys == {h};
      } else {
        assert s.timers.Keys == {};
      }
    }
  }
}
