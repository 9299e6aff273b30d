/** The skills editor: its local list of skills and the two inputs, the add handler
    with its blank-name guard, and the delete handler. A store call is described by its
    outcome: the id the database gives an inserted row, or whether a delete went
    through. */
module SkillsForm {
  import opened Js
  import opened Strings
  import opened ResumeModel
  import opened SkillGroups
  import opened SectionLists

  function SkillId(s: Skill): Val {
    s.id
  }

  /** The row `handleAdd` sends: the name as typed (not trimmed), the category as typed,
      and the next sort position; the level is not sent. */
  function NewSkill(name: string, category: string, count: nat): (s: Skill)
    ensures s.name == Str(name) && s.category == Str(category) && s.sortOrder == count
  {
    Skill(Undefined, Str(name), Str(category), Undefined, count)
  }

  class SkillsEditor {
    var skills: seq<Skill>
    var newSkill: string
    var category: string

    constructor(data: Option<seq<Skill>>)
      ensures skills == (if data.Some? then data.value else [])
      ensures newSkill == "" && category == ""
    {
      skills := if data.Some? then data.value else [];
      newSkill := "";
      category := "";
    }

    method TypeName(value: string)
      modifies this
      ensures skills == old(skills) && category == old(category) && newSkill == value
    {
      newSkill := value;
    }

    method TypeCategory(value: string)
      modifies this
      ensures skills == old(skills) && newSkill == old(newSkill) && category == value
    {
      category := value;
    }

    /** `handleAdd`: a name of only whitespace adds nothing; otherwise, once the insert
        succeeds, the new row is appended at the end and only the name input is
        cleared. A failed insert changes nothing. */
    method HandleAdd(insertedId: Option<Val>)
      modifies this
      ensures category == old(category)
      ensures AllWhitespace(old(newSkill)) || insertedId.None? ==> skills == old(skills) && newSkill == old(newSkill)
      ensures !AllWhitespace(old(newSkill)) && insertedId.Some? ==>
        skills == old(skills) + [NewSkill(old(newSkill), old(category), |old(skills)|).(id := insertedId.value)] &&
        newSkill == ""
    {
      TrimEmptyIffBlank(newSkill);
      if Trim(newSkill) == "" {
        return;
      }
      if insertedId.Some? {
        var added := NewSkill(newSkill, category, |skills|).(id := insertedId.value);
        skills := skills + [added];
        newSkill := "";
      }
    }

    /** `handleDelete`: after a successful delete the skills with the id are dropped. */
    method HandleDelete(id: Val, deleted: bool)
      modifies this
      ensures newSkill == old(newSkill) && category == old(category)
      ensures skills == if deleted then RemoveById(old(skills), SkillId, id) else old(skills)
    {
      if deleted {
        skills := RemoveById(skills, SkillId, id);
      }
    }
  }

  /** Appending a skill adds it to the soft list exactly when its category is exactly
      'Soft Skills', and to the technical list otherwise. */
  lemma {:induction false} SkillAppended(skills: seq<Skill>, s: Skill)
    ensures SoftSkills(skills + [s]) == SoftSkills(skills) + (if s.category == Str(SoftSkillsCategory) then [s] else [])
    ensures TechnicalSkills(skills + [s]) == TechnicalSkills(skills) + (if s.category != Str(SoftSkillsCategory) then [s] else [])
    decreases |skills|
  {
    if skills == [] {
      assert [] + [s] == [s];
      assert [s][1..] == [];
    } else {
      SkillAppended(skills[1..], s);
      assert (skills + [s])[1..] == skills[1..] + [s];
      assert (skills + [s])[0] == skills[0];
    }
  }

  /** A skill added with category "soft skills" or "Soft skills " renders as technical. */
  lemma CategoryIsVerbatim(skills: seq<Skill>, name: string, category: string, count: nat, id: Val)
    requires category != SoftSkillsCategory
    ensures SoftSkills(skills + [NewSkill(name, category, count).(id := id)]) == SoftSkills(skills)
  {
    SkillAppended(skills, NewSkill(name, category, count).(id := id));
  }
}
