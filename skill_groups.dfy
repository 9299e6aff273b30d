/** How the exporters split skills into technical and soft ones and group skill
    names by category: `category || 'Other'` as key, one group per key in order of
    first appearance, names kept in input order. */
module SkillGroups {
  import opened Js
  import opened ResumeModel

  const SoftSkillsCategory: string := "Soft Skills"

  /** `skill.category || 'Other'`. */
  function CategoryOf(s: Skill): string {
    Or(s.category, "Other")
  }

  /** `skills.filter(s => s.category !== 'Soft Skills')`: an exact, case-sensitive match. */
  function TechnicalSkills(skills: seq<Skill>): seq<Skill>
    decreases |skills|
  {
    if skills == [] then []
    else (if skills[0].category != Str(SoftSkillsCategory) then [skills[0]] else []) + TechnicalSkills(skills[1..])
  }

  /** `skills.filter(s => s.category === 'Soft Skills')`. */
  function SoftSkills(skills: seq<Skill>): seq<Skill>
    decreases |skills|
  {
    if skills == [] then []
    else (if skills[0].category == Str(SoftSkillsCategory) then [skills[0]] else []) + SoftSkills(skills[1..])
  }

  /** Every skill lands in exactly one of the two lists: only a category that is
      exactly "Soft Skills" is soft ("soft skills" or "Soft skills " is technical). */
  lemma {:induction false} SkillsPartition(skills: seq<Skill>)
    ensures multiset(TechnicalSkills(skills)) + multiset(SoftSkills(skills)) == multiset(skills)
    ensures forall s :: s in TechnicalSkills(skills) <==> s in skills && s.category != Str(SoftSkillsCategory)
    ensures forall s :: s in SoftSkills(skills) <==> s in skills && s.category == Str(SoftSkillsCategory)
    decreases |skills|
  {
    if skills != [] {
      SkillsPartition(skills[1..]);
      assert skills == [skills[0]] + skills[1..];
    }
  }

  /** One entry of `Object.entries(grouped)`: a category and its skill names. */
  datatype CategoryGroup = CategoryGroup(category: string, names: seq<Val>)

  /** `if (!acc[category]) acc[category] = []; acc[category].push(name)` on a group list
      kept in key-insertion order. */
  function AddToGroups(gs: seq<CategoryGroup>, category: string, name: Val): seq<CategoryGroup>
    decreases |gs|
  {
    if gs == [] then [CategoryGroup(category, [name])]
    else if gs[0].category == category then [gs[0].(names := gs[0].names + [name])] + gs[1..]
    else [gs[0]] + AddToGroups(gs[1..], category, name)
  }

  /** The grouping `reduce` followed by `Object.entries`, with an own property per key. */
  function Group(skills: seq<Skill>): seq<CategoryGroup>
    decreases |skills|
  {
    if skills == [] then []
    else
      var last := skills[|skills| - 1];
      AddToGroups(Group(skills[..|skills| - 1]), CategoryOf(last), last.name)
  }

  function Categories(gs: seq<CategoryGroup>): seq<string>
    decreases |gs|
  {
    if gs == [] then [] else [gs[0].category] + Categories(gs[1..])
  }

  /** The names held by the first group with category `c` (none when there is no such group). */
  function NamesOf(gs: seq<CategoryGroup>, c: string): seq<Val>
    decreases |gs|
  {
    if gs == [] then [] else if gs[0].category == c then gs[0].names else NamesOf(gs[1..], c)
  }

  /** The names of the skills whose category key is `c`, in input order. */
  function NamesIn(skills: seq<Skill>, c: string): seq<Val>
    decreases |skills|
  {
    if skills == [] then []
    else
      var last := skills[|skills| - 1];
      NamesIn(skills[..|skills| - 1], c) + (if CategoryOf(last) == c then [last.name] else [])
  }

  /** The category key of every skill, in input order. */
  function KeysOf(skills: seq<Skill>): seq<string>
    decreases |skills|
  {
    if skills == [] then [] else KeysOf(skills[..|skills| - 1]) + [CategoryOf(skills[|skills| - 1])]
  }

  /** The distinct elements of `xs`, each where it first appears. */
  function FirstAppearances(xs: seq<string>): seq<string>
    decreases |xs|
  {
    if xs == [] then []
    else
      var d := FirstAppearances(xs[..|xs| - 1]);
      if xs[|xs| - 1] in d then d else d + [xs[|xs| - 1]]
  }

  predicate Distinct(xs: seq<string>) {
    forall i, j :: 0 <= i < j < |xs| ==> xs[i] != xs[j]
  }

  /** The index of the first `x` in `xs`, or `|xs|` when there is none. */
  function FirstIndex(xs: seq<string>, x: string): (r: nat)
    ensures r <= |xs|
    ensures r < |xs| <==> x in xs
    ensures r < |xs| ==> xs[r] == x
    ensures forall j :: 0 <= j < r ==> xs[j] != x
    decreases |xs|
  {
    if xs == [] then 0 else if xs[0] == x then 0 else 1 + FirstIndex(xs[1..], x)
  }

  lemma {:induction false} CategoriesLength(gs: seq<CategoryGroup>)
    ensures |Categories(gs)| == |gs|
    ensures forall i :: 0 <= i < |gs| ==> Categories(gs)[i] == gs[i].category
    decreases |gs|
  {
    if gs != [] {
      CategoriesLength(gs[1..]);
    }
  }

  /** Adding a name appends its category to the key order when it is new, and
      leaves the order alone otherwise. */
  lemma {:induction false} AddToGroupsKeys(gs: seq<CategoryGroup>, c: string, n: Val)
    ensures Categories(AddToGroups(gs, c, n)) == if c in Categories(gs) then Categories(gs) else Categories(gs) + [c]
    decreases |gs|
  {
    if gs != [] && gs[0].category != c {
      AddToGroupsKeys(gs[1..], c, n);
      assert Categories(gs) == [gs[0].category] + Categories(gs[1..]);
      assert c in Categories(gs) <==> c in Categories(gs[1..]);
    }
  }

  /** Adding a name to category `c` appends it to `c`'s names and changes no other category. */
  lemma {:induction false} AddToGroupsNames(gs: seq<CategoryGroup>, c: string, n: Val, d: string)
    ensures NamesOf(AddToGroups(gs, c, n), d) == if d == c then NamesOf(gs, c) + [n] else NamesOf(gs, d)
    decreases |gs|
  {
    if gs != [] && gs[0].category != c {
      AddToGroupsNames(gs[1..], c, n, d);
    }
  }

  /** In a list with distinct categories, a group's names are the names found for its category. */
  lemma {:induction false} NamesOfDistinct(gs: seq<CategoryGroup>, i: nat)
    requires i < |gs|
    requires Distinct(Categories(gs))
    ensures NamesOf(gs, gs[i].category) == gs[i].names
    decreases i
  {
    CategoriesLength(gs);
    if i > 0 {
      assert Categories(gs)[0] != Categories(gs)[i];
      CategoriesLength(gs[1..]);
      assert Categories(gs[1..]) == Categories(gs)[1..];
      NamesOfDistinct(gs[1..], i - 1);
    }
  }

  lemma {:induction false} FirstAppearancesProps(xs: seq<string>)
    ensures Distinct(FirstAppearances(xs))
    ensures forall x :: x in FirstAppearances(xs) <==> x in xs
    decreases |xs|
  {
    if xs != [] {
      var init := xs[..|xs| - 1];
      FirstAppearancesProps(init);
      assert xs == init + [xs[|xs| - 1]];
    }
  }

  /** Keys in first-appearance order: a key listed earlier first occurs earlier in `xs`. */
  lemma {:induction false} FirstAppearancesOrder(xs: seq<string>)
    ensures forall x :: x in FirstAppearances(xs) ==> x in xs
    ensures forall i, j :: 0 <= i < j < |FirstAppearances(xs)| ==>
      FirstIndex(xs, FirstAppearances(xs)[i]) < FirstIndex(xs, FirstAppearances(xs)[j])
    decreases |xs|
  {
    FirstAppearancesProps(xs);
    if xs != [] {
      var init, x := xs[..|xs| - 1], xs[|xs| - 1];
      var d := FirstAppearances(init);
      FirstAppearancesOrder(init);
      FirstAppearancesProps(init);
      assert xs == init + [x];
      // earlier elements keep their first index when x is appended
      forall y | y in init
        ensures FirstIndex(xs, y) == FirstIndex(init, y)
      {
        FirstIndexPrefix(init, x, y);
      }
      if x !in d {
        assert x !in init;
        FirstIndexFresh(init, x);
        forall i, j | 0 <= i < j < |FirstAppearances(xs)|
          ensures FirstIndex(xs, FirstAppearances(xs)[i]) < FirstIndex(xs, FirstAppearances(xs)[j])
        {
          assert FirstAppearances(xs) == d + [x];
          assert FirstAppearances(xs)[i] == d[i] && d[i] in init;
          if j == |d| {
            assert FirstAppearances(xs)[j] == x;
          } else {
            assert FirstAppearances(xs)[j] == d[j] && d[j] in init;
          }
        }
      } else {
        forall i, j | 0 <= i < j < |FirstAppearances(xs)|
          ensures FirstIndex(xs, FirstAppearances(xs)[i]) < FirstIndex(xs, FirstAppearances(xs)[j])
        {
          assert FirstAppearances(xs)[i] == d[i] && d[i] in init;
          assert FirstAppearances(xs)[j] == d[j] && d[j] in init;
        }
      }
    }
  }

  lemma FirstIndexPrefix(init: seq<string>, x: string, y: string)
    requires y in init
    ensures FirstIndex(init + [x], y) == FirstIndex(init, y)
  {
    assert (init + [x])[FirstIndex(init, y)] == y;
    assert forall j :: 0 <= j < |init| ==> (init + [x])[j] == init[j];
  }

  lemma FirstIndexFresh(init: seq<string>, x: string)
    requires x !in init
    ensures FirstIndex(init + [x], x) == |init|
  {
    assert forall j :: 0 <= j < |init| ==> (init + [x])[j] == init[j];
  }

  /** The groups come in first-appearance order of their keys. */
  lemma {:induction false} GroupKeys(skills: seq<Skill>)
    ensures Categories(Group(skills)) == FirstAppearances(KeysOf(skills))
    decreases |skills|
  {
    if skills != [] {
      var init, last := skills[..|skills| - 1], skills[|skills| - 1];
      GroupKeys(init);
      AddToGroupsKeys(Group(init), CategoryOf(last), last.name);
    }
  }

  /** Every category's names are its skills' names in input order. */
  lemma {:induction false} GroupNamesLookup(skills: seq<Skill>, c: string)
    ensures NamesOf(Group(skills), c) == NamesIn(skills, c)
    decreases |skills|
  {
    if skills != [] {
      var init, last := skills[..|skills| - 1], skills[|skills| - 1];
      GroupNamesLookup(init, c);
      AddToGroupsNames(Group(init), CategoryOf(last), last.name, c);
    }
  }

  lemma {:induction false} KeysOfProps(skills: seq<Skill>)
    ensures |KeysOf(skills)| == |skills|
    ensures forall i :: 0 <= i < |skills| ==> KeysOf(skills)[i] == CategoryOf(skills[i])
    decreases |skills|
  {
    if skills != [] {
      KeysOfProps(skills[..|skills| - 1]);
    }
  }

  /** The grouping rule in full: the keys are distinct, in first-appearance order, one per
      category that occurs, and each group holds exactly its category's names in input order. */
  lemma GroupCorrect(skills: seq<Skill>)
    ensures Distinct(Categories(Group(skills)))
    ensures forall c :: c in Categories(Group(skills)) <==> exists i :: 0 <= i < |skills| && CategoryOf(skills[i]) == c
    ensures forall i, j :: 0 <= i < j < |Group(skills)| ==>
      FirstIndex(KeysOf(skills), Group(skills)[i].category) < FirstIndex(KeysOf(skills), Group(skills)[j].category)
    ensures forall i :: 0 <= i < |Group(skills)| ==> Group(skills)[i].names == NamesIn(skills, Group(skills)[i].category)
  {
    var g := Group(skills);
    GroupKeys(skills);
    FirstAppearancesProps(KeysOf(skills));
    FirstAppearancesOrder(KeysOf(skills));
    KeysOfProps(skills);
    CategoriesLength(g);
    forall c ensures c in Categories(g) <==> exists i :: 0 <= i < |skills| && CategoryOf(skills[i]) == c {
      if c in KeysOf(skills) {
        var i :| 0 <= i < |KeysOf(skills)| && KeysOf(skills)[i] == c;
        assert CategoryOf(skills[i]) == c;
      }
      if exists i :: 0 <= i < |skills| && CategoryOf(skills[i]) == c {
        var i :| 0 <= i < |skills| && CategoryOf(skills[i]) == c;
        assert KeysOf(skills)[i] == c;
      }
    }
    forall i | 0 <= i < |g| ensures g[i].names == NamesIn(skills, g[i].category) {
      NamesOfDistinct(g, i);
      GroupNamesLookup(skills, g[i].category);
    }
  }

  /** The TypeError raised by `acc[category].push` when `acc[category]` is inherited. */
  const PushFailure: string := "TypeError: acc[category].push is not a function"

  /** The grouping as written: when a key is an Object.prototype member name (such as
      "constructor" or "toString"), `acc[category]` finds the inherited member, which is
      truthy, so no array is created and `.push` throws a TypeError that aborts the export. */
  function GroupAsWritten(skills: seq<Skill>): Result<seq<CategoryGroup>>
    decreases |skills|
  {
    if skills == [] then Ok([])
    else
      var prefix := GroupAsWritten(skills[..|skills| - 1]);
      var last := skills[|skills| - 1];
      if prefix.Err? then prefix
      else if CategoryOf(last) in PrototypeMembers then Err(PushFailure)
      else Ok(AddToGroups(prefix.value, CategoryOf(last), last.name))
  }

  /** The written grouping fails exactly when some category key is a prototype member
      name, and otherwise agrees with `Group`. */
  lemma {:induction false} GroupAsWrittenFails(skills: seq<Skill>)
    ensures GroupAsWritten(skills).Err? <==> exists i :: 0 <= i < |skills| && CategoryOf(skills[i]) in PrototypeMembers
    ensures GroupAsWritten(skills).Ok? ==> GroupAsWritten(skills).value == Group(skills)
    decreases |skills|
  {
    if skills != [] {
      var init := skills[..|skills| - 1];
      GroupAsWrittenFails(init);
      if exists i :: 0 <= i < |init| && CategoryOf(init[i]) in PrototypeMembers {
        var i :| 0 <= i < |init| && CategoryOf(init[i]) in PrototypeMembers;
        assert skills[i] == init[i];
      }
      if exists i :: 0 <= i < |skills| && CategoryOf(skills[i]) in PrototypeMembers {
        var i :| 0 <= i < |skills| && CategoryOf(skills[i]) in PrototypeMembers;
        if i < |init| {
          assert init[i] == skills[i];
        }
      }
    }
  }

  /** Once a prefix of the skills has thrown, the whole grouping throws the same error. */
  lemma {:induction false} GroupAsWrittenSticks(skills: seq<Skill>, k: nat)
    requires k <= |skills|
    requires GroupAsWritten(skills[..k]).Err?
    ensures GroupAsWritten(skills) == GroupAsWritten(skills[..k])
    decreases |skills|
  {
    if k < |skills| {
      var init := skills[..|skills| - 1];
      assert init[..k] == skills[..k];
      GroupAsWrittenSticks(init, k);
    } else {
      assert skills[..k] == skills;
    }
  }

  /** A single skill filed under "constructor" makes the written grouping throw. */
  lemma ConstructorCategoryFails()
    ensures GroupAsWritten([Skill(Null, Str("Teamwork"), Str("constructor"), Null, 0)]).Err?
  {
    var s := [Skill(Null, Str("Teamwork"), Str("constructor"), Null, 0)];
    GroupAsWrittenFails(s);
    assert CategoryOf(s[0]) in PrototypeMembers;
  }
}
