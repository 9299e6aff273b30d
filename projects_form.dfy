/** The projects editor: its local list of projects, the project being edited, the
    normalisation of the comma-separated technologies input on save, and the add, save
    and delete handlers. A store call is described by its outcome, which the caller
    supplies: the id the database assigns to an inserted row, or whether an update or
    delete went through. */
module ProjectsForm {
  import opened Js
  import opened Strings
  import opened ResumeModel
  import opened SectionLists

  // ---- technologies ----

  /** `pieces.map(t => t.trim())`. */
  function TrimAll(xs: seq<string>): (r: seq<string>)
    ensures |r| == |xs|
    ensures forall i :: 0 <= i < |xs| ==> r[i] == Trim(xs[i])
    decreases |xs|
  {
    if xs == [] then [] else [Trim(xs[0])] + TrimAll(xs[1..])
  }

  /** `s.split(',').map(t => t.trim()).filter(t => t)`. */
  function SplitTechnologies(s: string): seq<string> {
    NonEmpty(TrimAll(Split(s, ',')))
  }

  /** The `technologies` written on save: a string becomes its trimmed, non-empty
      comma-separated pieces; an array is kept as it is; a missing value becomes []. */
  function NormaliseTechnologies(t: Technologies): (r: Technologies)
    ensures r.TechList?
    ensures t.TechList? ==> r == t
    ensures t.TechAbsent? ==> r == TechList([])
    ensures t.TechText? ==> forall i :: 0 <= i < |r.items| ==> r.items[i] != "" && Trimmed(r.items[i]) && ',' !in r.items[i]
  {
    match t
    case TechText(s) =>
      var r := SplitTechnologies(s);
      SplitTechnologiesClean(s);
      TechList(r)
    case TechList(_) => t
    case TechAbsent => TechList([])
  }

  /** Every piece is non-empty, trimmed and free of commas. */
  lemma SplitTechnologiesClean(s: string)
    ensures forall i :: 0 <= i < |SplitTechnologies(s)| ==>
      var x := SplitTechnologies(s)[i]; x != "" && Trimmed(x) && ',' !in x
  {
    var pieces := Split(s, ',');
    SplitPiecesFree(s, ',');
    var trimmed := TrimAll(pieces);
    forall i | 0 <= i < |trimmed| ensures Trimmed(trimmed[i]) && ',' !in trimmed[i] {
      TrimIsTrimmed(pieces[i]);
      TrimSubstring(pieces[i]);
    }
    var r := NonEmpty(trimmed);
    forall i | 0 <= i < |r| ensures Trimmed(r[i]) && ',' !in r[i] {
      assert r[i] in trimmed;
    }
  }

  /** Trimming only removes characters, so a comma-free string stays comma-free. */
  lemma TrimSubstring(s: string)
    ensures ',' in Trim(s) ==> ',' in s
  {
    TrimStartProps(s);
    TrimEndProps(TrimStart(s));
    var t := TrimStart(s);
    if ',' in Trim(s) {
      var i :| 0 <= i < |Trim(s)| && Trim(s)[i] == ',';
      assert Trim(s)[i] == t[i];
      assert t[i] == s[|s| - |t| + i];
    }
  }

  /** The input shows an array joined with ", ", a string as typed, and '' for nothing. */
  function TechnologiesInput(t: Technologies): string {
    match t
    case TechList(xs) => Join(xs, ", ")
    case TechText(s) => s
    case TechAbsent => ""
  }

  /** An item well formed for the round trip: non-empty, trimmed, without commas. */
  predicate CleanItem(x: string) {
    x != "" && Trimmed(x) && ',' !in x
  }

  /** Round trip: saving the input as displayed gives back a list of clean items. */
  lemma TechnologiesRoundTrip(xs: seq<string>)
    requires forall i :: 0 <= i < |xs| ==> CleanItem(xs[i])
    ensures NormaliseTechnologies(TechText(TechnologiesInput(TechList(xs)))) == TechList(xs)
  {
    SplitJoined("", xs);
    assert "" + Join(xs, ", ") == Join(xs, ", ");
  }

  /** The generalisation the induction needs: the joined text may start with one space. */
  lemma {:induction false} SplitJoined(p: string, xs: seq<string>)
    requires p == "" || p == " "
    requires forall i :: 0 <= i < |xs| ==> CleanItem(xs[i])
    ensures SplitTechnologies(p + Join(xs, ", ")) == xs
    decreases |xs|
  {
    if xs == [] {
      assert p + Join(xs, ", ") == p;
      SplitNoSeparator(p, ',');
      assert Trim(p) == "" by {
        TrimEmptyIffBlank(p);
      }
      assert TrimAll([p]) == [Trim(p)];
    } else if |xs| == 1 {
      SplitJoinedOne(p, xs);
    } else {
      SplitJoined(" ", xs[1..]);
      SplitJoinedStep(p, xs);
    }
  }

  /** The first item, after the optional space, trims to itself and holds no comma. */
  lemma HeadClean(p: string, x: string)
    requires p == "" || p == " "
    requires CleanItem(x)
    ensures Trim(p + x) == x && ',' !in p + x
  {
    if p == "" {
      assert p + x == x;
      TrimOfTrimmed(x);
    } else {
      TrimSpacePrefix(x);
    }
    CommaFreeConcat(p, x);
  }

  /** Gluing two comma-free strings gives a comma-free string. */
  lemma CommaFreeConcat(a: string, b: string)
    requires ',' !in a && ',' !in b
    ensures ',' !in a + b
  {
    forall i | 0 <= i < |a + b| ensures (a + b)[i] != ',' {
      if i < |a| {
        assert (a + b)[i] == a[i];
      } else {
        assert (a + b)[i] == b[i - |a|];
      }
    }
  }

  /** A single item splits back to itself. */
  lemma SplitJoinedOne(p: string, xs: seq<string>)
    requires p == "" || p == " "
    requires |xs| == 1 && CleanItem(xs[0])
    ensures SplitTechnologies(p + Join(xs, ", ")) == xs
  {
    var x := xs[0];
    var px := p + x;
    HeadClean(p, x);
    assert p + Join(xs, ", ") == px;
    SplitNoSeparator(px, ',');
    assert TrimAll([px]) == [Trim(px)];
    assert NonEmpty([x]) == [x] by {
      assert [x][1..] == [];
    }
  }

  /** The first item splits off at the first comma, and the rest is the rest's split. */
  lemma SplitJoinedStep(p: string, xs: seq<string>)
    requires p == "" || p == " "
    requires |xs| >= 2 && CleanItem(xs[0])
    requires SplitTechnologies(" " + Join(xs[1..], ", ")) == xs[1..]
    ensures SplitTechnologies(p + Join(xs, ", ")) == xs
  {
    var x := xs[0];
    var j := Join(xs[1..], ", ");
    HeadClean(p, x);
    assert Join(xs, ", ") == x + ", " + j;
    Regroup(p, x, j);
    SplitTechnologiesCons(p + x, " " + j);
    assert [x] + xs[1..] == xs;
  }

  /** A comma-free piece with something in it, then a comma, splits off as its trim. */
  lemma SplitTechnologiesCons(a: string, b: string)
    requires ',' !in a && Trim(a) != ""
    ensures SplitTechnologies(a + [','] + b) == [Trim(a)] + SplitTechnologies(b)
  {
    SplitAppend(a, ',', b);
    var tail := Split(b, ',');
    assert TrimAll([a] + tail) == [Trim(a)] + TrimAll(tail) by {
      assert ([a] + tail)[1..] == tail;
    }
    assert ([Trim(a)] + TrimAll(tail))[1..] == TrimAll(tail);
  }

  /** `p + (x + ", " + j)` is `p + x`, a comma, then `" " + j`. */
  lemma Regroup(p: string, x: string, j: string)
    ensures p + (x + ", " + j) == (p + x) + [','] + (" " + j)
  {
    assert ", " == [','] + " ";
  }

  // ---- the editor state ----

  function ProjectId(p: Project): Val {
    p.id
  }

  /** The row `handleAdd` sends: a placeholder name, empty texts, no technologies, null
      dates and the next sort position. */
  function NewProject(count: nat): (p: Project)
    ensures p.sortOrder == count && p.technologies == TechList([])
    ensures p.startDate == Null && p.endDate == Null
  {
    Project(Undefined, Str("Project Name"), Str(""), Str(""), Str(""), TechList([]), Null, Null, count)
  }

  /** `e.target.value || null`: an emptied date input is stored as null. */
  function DateInput(value: string): (v: Val)
    ensures v == Null <==> value == ""
    ensures value != "" ==> v == Str(value)
  {
    if value != "" then Str(value) else Null
  }

  /** The `{}` the edit form starts from: no field set (the sort position of a missing
      field is shown as 0). */
  const NoEdit: Project := Project(Undefined, Undefined, Undefined, Undefined, Undefined, TechAbsent, Undefined, Undefined, 0)

  class ProjectsEditor {
    var items: seq<Project>
    var editingId: Val
    var editData: Project

    /** `useState(data || [])`, nothing being edited. */
    constructor(data: Option<seq<Project>>)
      ensures items == (if data.Some? then data.value else [])
      ensures editingId == Null && editData == NoEdit
    {
      items := if data.Some? then data.value else [];
      editingId := Null;
      editData := NoEdit;
    }

    /** `handleAdd`: on success the stored row, which is the sent row with the id the
        database assigned, is appended and opened for editing; a failed insert changes
        nothing. */
    method HandleAdd(insertedId: Option<Val>)
      modifies this
      ensures insertedId.None? ==> items == old(items) && editingId == old(editingId) && editData == old(editData)
      ensures insertedId.Some? ==>
        var added := NewProject(|old(items)|).(id := insertedId.value);
        items == old(items) + [added] && editingId == insertedId.value && editData == added
    {
      var newItem := NewProject(|items|);
      if insertedId.Some? {
        var added := newItem.(id := insertedId.value);
        items := items + [added];
        editingId := added.id;
        editData := added;
      }
    }

    /** The edit button: `setEditingId(item.id); setEditData(item)`. */
    method StartEdit(item: Project)
      modifies this
      ensures items == old(items) && editingId == item.id && editData == item
    {
      editingId := item.id;
      editData := item;
    }

    method Cancel()
      modifies this
      ensures items == old(items) && editData == old(editData) && editingId == Null
    {
      editingId := Null;
    }

    method EditTechnologies(value: string)
      modifies this
      ensures items == old(items) && editingId == old(editingId)
      ensures editData == old(editData).(technologies := TechText(value))
    {
      editData := editData.(technologies := TechText(value));
    }

    method EditStartDate(value: string)
      modifies this
      ensures items == old(items) && editingId == old(editingId)
      ensures editData == old(editData).(startDate := DateInput(value))
    {
      editData := editData.(startDate := if value != "" then Str(value) else Null);
    }

    method EditEndDate(value: string)
      modifies this
      ensures items == old(items) && editingId == old(editingId)
      ensures editData == old(editData).(endDate := DateInput(value))
    {
      editData := editData.(endDate := if value != "" then Str(value) else Null);
    }

    /** `handleSave`: the edited row with its technologies normalised replaces every row
        whose id is the one being edited, and editing ends; a failed update changes
        nothing. */
    method HandleSave(saved: bool)
      modifies this
      ensures !saved ==> items == old(items) && editingId == old(editingId) && editData == old(editData)
      ensures saved ==> editingId == Null && editData == old(editData)
      ensures saved ==> items == ReplaceById(old(items), ProjectId, old(editingId),
        old(editData).(technologies := NormaliseTechnologies(old(editData).technologies)))
    {
      var dataToSave := editData.(technologies := NormaliseTechnologies(editData.technologies));
      if saved {
        items := ReplaceById(items, ProjectId, editingId, dataToSave);
        editingId := Null;
      }
    }

    /** `handleDelete`: after confirmation and a successful delete, the rows with the id
        are dropped. */
    method HandleDelete(id: Val, confirmed: bool, deleted: bool)
      modifies this
      ensures editingId == old(editingId) && editData == old(editData)
      ensures items == if confirmed && deleted then RemoveById(old(items), ProjectId, id) else old(items)
    {
      if confirmed && deleted {
        items := RemoveById(items, ProjectId, id);
      }
    }
  }

  /** Saving leaves the list length alone, puts the saved row at each edited position,
      and its technologies are always a list. */
  lemma SaveReplaces(items: seq<Project>, editingId: Val, edit: Project, i: nat)
    requires i < |items|
    ensures var saved := ReplaceById(items, ProjectId, editingId, edit.(technologies := NormaliseTechnologies(edit.technologies)));
      |saved| == |items| &&
      (items[i].id == editingId ==> saved[i].technologies.TechList? && saved[i].id == edit.id) &&
      (items[i].id != editingId ==> saved[i] == items[i])
  {
  }
}
