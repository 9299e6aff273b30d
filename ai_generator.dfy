/** The AI enhancement panel: its progress state and the store writes `handleGenerate`
    issues to apply the AI's suggestions to the open resume. The AI call is the
    `generateResumeWithAI` model; the store writes are recorded in the order they are
    issued. */
module AiGenerator {
  import opened Js
  import opened JsonText
  import opened ResumeStore
  import opened AiService

  /** A store write: `updateResume(resumeId, { summary })` or
      `updateSectionItem(resumeId, section, id, row)`. */
  datatype Call = SaveSummary(summary: Json) | SaveItem(section: string, id: Option<Json>, row: Row)

  /** The writes issued so far and whether a TypeError has ended the run. */
  datatype Run = Run(calls: seq<Call>, failed: bool)

  datatype Outcome = NoResume | NoExperience | Failed | Generated

  function Min(a: nat, b: nat): (m: nat)
    ensures m <= a && m <= b && (m == a || m == b)
  {
    if a < b then a else b
  }

  /** The elements `for (i < x.length) x[i]` visits on a truthy value: an array's
      elements, a string's characters; other values have no length and give none. */
  function Elements(j: Json): (r: seq<Json>)
    ensures j.JArr? ==> r == j.items
    ensures j.JStr? ==> |r| == |j.str|
    ensures !j.JArr? && !j.JStr? ==> r == []
  {
    match j
    case JArr(xs) => xs
    case JStr(s) => seq(|s|, i requires 0 <= i < |s| => JStr([s[i]]))
    case _ => []
  }

  /** `{ ...row, key: v }` sent as JSON: an undefined value drops the member. */
  function SetOrDrop(row: Row, key: string, v: Option<Json>): (r: Row)
    ensures r.Keys == if v.Some? then row.Keys + {key} else row.Keys - {key}
    ensures v.Some? ==> r[key] == v.value
    ensures forall k :: k in row && k != key ==> r[k] == row[k]
  {
    if v.Some? then row[key := v.value] else row - {key}
  }

  /** `a || b` on two possibly undefined values. */
  function OrValue(a: Option<Json>, b: Option<Json>): Option<Json> {
    if Present(a) then a else b
  }

  /** The row written for an enhanced experience: the AI's description and achievements
      where truthy, the entry's own otherwise, every other member unchanged. */
  function MergeExperience(exp: Row, description: Option<Json>, achievements: Option<Json>): (r: Row)
    ensures forall k :: k in exp && k != "description" && k != "achievements" ==> k in r && r[k] == exp[k]
    ensures Present(description) ==> Get(r, "description") == description
    ensures !Present(description) ==> Get(r, "description") == Get(exp, "description")
    ensures Present(achievements) ==> Get(r, "achievements") == achievements
    ensures !Present(achievements) ==> Get(r, "achievements") == Get(exp, "achievements")
  {
    var withDescription := SetOrDrop(exp, "description", OrValue(description, Get(exp, "description")));
    SetOrDrop(withDescription, "achievements", OrValue(achievements, Get(exp, "achievements")))
  }

  /** The write for one experience entry and its suggestion: none unless the suggestion
      has a description or achievements; a null suggestion throws. */
  function ExperienceCall(exp: Row, suggestion: Json): (r: Result<Option<Call>>)
    ensures r.Err? <==> suggestion.JNull?
    ensures r.Ok? && r.value.Some? ==> r.value.value.SaveItem? && r.value.value.section == "experience" && r.value.value.id == Get(exp, "id")
    ensures r.Ok? ==> (r.value.Some? <==>
      Present(Chain(Some(suggestion), "description")) || Present(Chain(Some(suggestion), "achievements")))
  {
    match Member(suggestion, "description")
    case Err(e) => Err(e)
    case Ok(description) =>
      var achievements := Chain(Some(suggestion), "achievements");
      if Present(description) || Present(achievements) then
        Ok(Some(SaveItem("experience", Get(exp, "id"), MergeExperience(exp, description, achievements))))
      else Ok(None)
  }

  /** The write for one project and its suggestion: only the description is replaced,
      and only by a truthy one; a null suggestion throws. */
  function ProjectCall(proj: Row, suggestion: Json): (r: Result<Option<Call>>)
    ensures r.Err? <==> suggestion.JNull?
    ensures r.Ok? ==> (r.value.Some? <==> Present(Chain(Some(suggestion), "description")))
    ensures r.Ok? && r.value.Some? ==>
      var c := r.value.value;
      c.SaveItem? && c.section == "projects" && c.id == Get(proj, "id") &&
      c.row.Keys == proj.Keys + {"description"} && Present(Get(c.row, "description")) &&
      forall k :: k in proj && k != "description" ==> c.row[k] == proj[k]
  {
    match Member(suggestion, "description")
    case Err(e) => Err(e)
    case Ok(description) =>
      if Present(description) then Ok(Some(SaveItem("projects", Get(proj, "id"), proj["description" := description.value])))
      else Ok(None)
  }

  function Extend(run: Run, step: Result<Option<Call>>): Run {
    if run.failed then run
    else
      match step
      case Err(_) => run.(failed := true)
      case Ok(None) => run
      case Ok(Some(c)) => run.(calls := run.calls + [c])
  }

  /** The experience loop over its first `k` indices. */
  function ExperienceRun(run: Run, exps: seq<Row>, suggestions: seq<Json>, k: nat): Run
    requires k <= |exps| && k <= |suggestions|
  {
    if k == 0 then run
    else Extend(ExperienceRun(run, exps, suggestions, k - 1), ExperienceCall(exps[k - 1], suggestions[k - 1]))
  }

  /** The project loop over its first `k` indices. */
  function ProjectRun(run: Run, projs: seq<Row>, suggestions: seq<Json>, k: nat): Run
    requires k <= |projs| && k <= |suggestions|
  {
    if k == 0 then run
    else Extend(ProjectRun(run, projs, suggestions, k - 1), ProjectCall(projs[k - 1], suggestions[k - 1]))
  }

  /** Once a run has failed nothing more is written. */
  lemma {:induction false} ExperienceFailedSticks(run: Run, exps: seq<Row>, suggestions: seq<Json>, i: nat, k: nat)
    requires i <= k <= |exps| && k <= |suggestions|
    requires ExperienceRun(run, exps, suggestions, i).failed
    ensures ExperienceRun(run, exps, suggestions, k) == ExperienceRun(run, exps, suggestions, i)
    decreases k
  {
    if k > i {
      ExperienceFailedSticks(run, exps, suggestions, i, k - 1);
    }
  }

  lemma {:induction false} ProjectFailedSticks(run: Run, projs: seq<Row>, suggestions: seq<Json>, i: nat, k: nat)
    requires i <= k <= |projs| && k <= |suggestions|
    requires ProjectRun(run, projs, suggestions, i).failed
    ensures ProjectRun(run, projs, suggestions, k) == ProjectRun(run, projs, suggestions, i)
    decreases k
  {
    if k > i {
      ProjectFailedSticks(run, projs, suggestions, i, k - 1);
    }
  }

  /** What a truthy member of the AI answer gives the loops: its elements, or none when
      the member is missing or falsy. */
  function Suggested(ai: Json, key: string): (r: seq<Json>)
    requires !ai.JNull?
    ensures !Present(Chain(Some(ai), key)) ==> r == []
  {
    var v := Chain(Some(ai), key);
    if Present(v) then Elements(v.value) else []
  }

  /** The writes the three steps issue for an AI answer: the summary when truthy, then
      the experience suggestions, then the project suggestions; a TypeError on the way
      (a null answer or a null suggestion) ends the run. */
  function Apply(f: FullResume, ai: Json): (r: Run)
  {
    if ai.JNull? then Run([], true)
    else
      var summary := Chain(Some(ai), "summary");
      var r0 := Run(if Present(summary) then [SaveSummary(summary.value)] else [], false);
      var es := Suggested(ai, "experience");
      var r1 := ExperienceRun(r0, f.experience, es, Min(|es|, |f.experience|));
      var ps := Suggested(ai, "projects");
      ProjectRun(r1, f.projects, ps, Min(|ps|, |f.projects|))
  }

  /** Writes only ever go to entries below both lengths, and only name their entry's id. */
  lemma {:induction false} ExperienceRunTouches(run: Run, exps: seq<Row>, suggestions: seq<Json>, k: nat)
    requires k <= |exps| && k <= |suggestions|
    ensures var r := ExperienceRun(run, exps, suggestions, k);
      |run.calls| <= |r.calls| <= |run.calls| + k && r.calls[..|run.calls|] == run.calls &&
      forall c :: c in r.calls[|run.calls|..] ==>
        c.SaveItem? && c.section == "experience" && exists i :: 0 <= i < k && c.id == Get(exps[i], "id")
    decreases k
  {
    if k > 0 {
      ExperienceRunTouches(run, exps, suggestions, k - 1);
      var prev := ExperienceRun(run, exps, suggestions, k - 1);
      var step := ExperienceCall(exps[k - 1], suggestions[k - 1]);
      var r := ExperienceRun(run, exps, suggestions, k);
      ExtendCalls(prev, step);
      if r.calls != prev.calls {
        var added := r.calls[|run.calls|..];
        assert added == prev.calls[|run.calls|..] + [step.value.value];
        forall c | c in added
          ensures c.SaveItem? && c.section == "experience" && exists i :: 0 <= i < k && c.id == Get(exps[i], "id")
        {
          if c in prev.calls[|run.calls|..] {
            var i :| 0 <= i < k - 1 && c.id == Get(exps[i], "id");
          } else {
            assert c.id == Get(exps[k - 1], "id");
          }
        }
      }
    }
  }

  /** One step keeps the writes so far and adds at most the step's own write. */
  lemma ExtendCalls(run: Run, step: Result<Option<Call>>)
    ensures var r := Extend(run, step);
      r.calls == run.calls || (step.Ok? && step.value.Some? && r.calls == run.calls + [step.value.value])
  {
  }

  /** The summary is written exactly when the answer's summary is truthy, and first;
      with a falsy summary no write of the run is a summary write. */
  lemma SummaryWritten(f: FullResume, ai: Json)
    requires !ai.JNull?
    ensures var r := Apply(f, ai); var summary := Chain(Some(ai), "summary");
      (Present(summary) ==> |r.calls| > 0 && r.calls[0] == SaveSummary(summary.value)) &&
      (!Present(summary) ==> forall c :: c in r.calls ==> !c.SaveSummary?)
  {
    var summary := Chain(Some(ai), "summary");
    var r0 := Run(if Present(summary) then [SaveSummary(summary.value)] else [], false);
    var es := Suggested(ai, "experience");
    var r1 := ExperienceRun(r0, f.experience, es, Min(|es|, |f.experience|));
    ExperienceRunTouches(r0, f.experience, es, Min(|es|, |f.experience|));
    var ps := Suggested(ai, "projects");
    var r := ProjectRun(r1, f.projects, ps, Min(|ps|, |f.projects|));
    ProjectRunPrefix(r1, f.projects, ps, Min(|ps|, |f.projects|));
    if !Present(summary) {
      assert r1.calls == r1.calls[|r0.calls|..];
      forall c | c in r.calls
        ensures !c.SaveSummary?
      {
        assert r.calls == r1.calls + r.calls[|r1.calls|..];
      }
    }
  }

  /** The project loop only appends, and only writes to the projects section below both
      lengths, each write naming its project's id. */
  lemma {:induction false} ProjectRunPrefix(run: Run, projs: seq<Row>, suggestions: seq<Json>, k: nat)
    requires k <= |projs| && k <= |suggestions|
    ensures var r := ProjectRun(run, projs, suggestions, k);
      |run.calls| <= |r.calls| <= |run.calls| + k && r.calls[..|run.calls|] == run.calls &&
      forall c :: c in r.calls[|run.calls|..] ==>
        c.SaveItem? && c.section == "projects" && exists i :: 0 <= i < k && c.id == Get(projs[i], "id")
    decreases k
  {
    if k > 0 {
      ProjectRunPrefix(run, projs, suggestions, k - 1);
      var prev := ProjectRun(run, projs, suggestions, k - 1);
      var step := ProjectCall(projs[k - 1], suggestions[k - 1]);
      var r := ProjectRun(run, projs, suggestions, k);
      ExtendCalls(prev, step);
      if r.calls != prev.calls {
        var added := r.calls[|run.calls|..];
        assert added == prev.calls[|run.calls|..] + [step.value.value];
        forall c | c in added
          ensures c.SaveItem? && c.section == "projects" && exists i :: 0 <= i < k && c.id == Get(projs[i], "id")
        {
          if c in prev.calls[|run.calls|..] {
            var i :| 0 <= i < k - 1 && c.id == Get(projs[i], "id");
          } else {
            assert c.id == Get(projs[k - 1], "id");
          }
        }
      }
    }
  }

  /** The answer the service gives when no key is configured leaves the open resume's
      summary, first experience description and first project description rewritten. */
  lemma MockRewritesFirstEntries(f: FullResume)
    requires |f.experience| > 0 && |f.projects| > 0
    ensures var r := Apply(f, MockResponse());
      !r.failed && |r.calls| == 3 &&
      r.calls[0] == SaveSummary(JStr(MockSummary)) &&
      r.calls[1] == SaveItem("experience", Get(f.experience[0], "id"), MergeExperience(f.experience[0], Some(JStr(MockExperience)), None)) &&
      r.calls[2] == SaveItem("projects", Get(f.projects[0], "id"), f.projects[0]["description" := JStr(MockProject)])
  {
    var e := Suggestion(MockExperience);
    var p := Suggestion(MockProject);
    MockSuggestions();
    ApplyMock(f);
    var r0 := Run([SaveSummary(JStr(MockSummary))], false);
    var r1 := ExperienceRun(r0, f.experience, [e], 1);
    assert ExperienceRun(r0, f.experience, [e], 0) == r0;
    assert r1 == Run(r0.calls + [SaveItem("experience", Get(f.experience[0], "id"), MergeExperience(f.experience[0], Some(JStr(MockExperience)), None))], false);
    assert ProjectRun(r1, f.projects, [p], 0) == r1;
  }

  /** What the sample answer holds, as the apply step reads it. */
  lemma MockSuggestions()
    ensures Chain(Some(MockResponse()), "summary") == Some(JStr(MockSummary))
    ensures Suggested(MockResponse(), "experience") == [Suggestion(MockExperience)]
    ensures Suggested(MockResponse(), "projects") == [Suggestion(MockProject)]
    ensures Chain(Some(Suggestion(MockExperience)), "achievements") == None
  {
    var m := MockResponse();
    assert Chain(Some(m), "summary") == Some(JStr(MockSummary));
    assert Suggested(m, "experience") == [Suggestion(MockExperience)];
  }

  /** Applying the sample answer runs both loops once, after saving its summary. */
  lemma ApplyMock(f: FullResume)
    requires |f.experience| > 0 && |f.projects| > 0
    ensures Apply(f, MockResponse()) ==
      ProjectRun(ExperienceRun(Run([SaveSummary(JStr(MockSummary))], false), f.experience, [Suggestion(MockExperience)], 1),
                 f.projects, [Suggestion(MockProject)], 1)
  {
    MockSuggestions();
  }

  /** The panel's state. */
  class GeneratorPanel {
    var isGenerating: bool
    var progress: nat
    var step: string

    constructor()
      ensures !isGenerating && progress == 0 && step == ""
    {
      isGenerating := false;
      progress := 0;
      step := "";
    }

    /** `handleGenerate` for the open resume. Without one nothing happens; without an
        experience entry nothing is sent; otherwise the AI answer is applied, and the
        panel ends idle whatever happened. */
    method HandleGenerate(current: Option<FullResume>, num: real -> string, hasKey: bool, reply: Reply,
                          parse: string -> Option<Json>) returns (outcome: Outcome, calls: seq<Call>)
      modifies this
      ensures current.None? ==>
        outcome == NoResume && calls == [] &&
        isGenerating == old(isGenerating) && progress == old(progress) && step == old(step)
      ensures current.Some? ==> !isGenerating && progress == 0 && step == ""
      ensures current.Some? && |current.value.experience| == 0 ==> outcome == NoExperience && calls == []
      ensures current.Some? && |current.value.experience| > 0 ==>
        var answer := GenerateResumeWithAI(ProfileOf(current.value), num, hasKey, reply, parse);
        (answer.Err? ==> outcome == Failed && calls == []) &&
        (answer.Ok? ==>
          calls == Apply(current.value, answer.value).calls &&
          (outcome == Failed <==> Apply(current.value, answer.value).failed) &&
          (outcome == Generated <==> !Apply(current.value, answer.value).failed))
    {
      calls := [];
      if current.None? {
        outcome := NoResume;
        return;
      }
      var f := current.value;
      isGenerating := true;
      progress := 0;
      step := "Validating your information...";
      progress := 20;
      if |f.experience| == 0 {
        isGenerating := false;
        outcome := NoExperience;
        Finish();
        return;
      }
      step := "Generating professional content...";
      progress := 40;
      var answer := GenerateResumeWithAI(ProfileOf(f), num, hasKey, reply, parse);
      if answer.Err? {
        outcome := Failed;
        Finish();
        return;
      }
      step := "Enhancing your resume...";
      progress := 60;
      var run := ApplySuggestions(f, answer.value);
      calls := run.calls;
      if run.failed {
        outcome := Failed;
        Finish();
        return;
      }
      step := "Finalizing your resume...";
      progress := 100;
      outcome := Generated;
      Finish();
    }

    /** The `finally` block. */
    method Finish()
      modifies this
      ensures !isGenerating && progress == 0 && step == ""
    {
      isGenerating := false;
      progress := 0;
      step := "";
    }
  }

  /** `profileData`: the open resume's sections, and its career goals or ''. */
  function ProfileOf(f: FullResume): (p: Profile)
    ensures p.experience == f.experience && p.projects == f.projects
    ensures !Present(Get(f.resume, "careerGoals")) ==> p.careerGoals == Some(JStr(""))
  {
    var goals := Get(f.resume, "careerGoals");
    Profile(f.personalInfo, f.education, f.experience, f.skills, f.projects,
      if Present(goals) then goals else Some(JStr("")))
  }

  /** The three apply steps; a TypeError anywhere ends the run. */
  method ApplySuggestions(f: FullResume, ai: Json) returns (run: Run)
    ensures run == Apply(f, ai)
  {
    if ai.JNull? {
      return Run([], true);
    }
    var summary := Chain(Some(ai), "summary");
    var start := Run(if Present(summary) then [SaveSummary(summary.value)] else [], false);
    var es := Suggested(ai, "experience");
    var middle := ApplyExperience(start, f.experience, es);
    var ps := Suggested(ai, "projects");
    if middle.failed {
      ProjectFailedSticks(middle, f.projects, ps, 0, Min(|ps|, |f.projects|));
      return middle;
    }
    run := ApplyProjects(middle, f.projects, ps);
  }

  /** The experience loop: `for (i < min(suggestions, entries))`, leaving at once on a
      TypeError. */
  method ApplyExperience(start: Run, exps: seq<Row>, suggestions: seq<Json>) returns (run: Run)
    requires !start.failed
    ensures run == ExperienceRun(start, exps, suggestions, Min(|suggestions|, |exps|))
  {
    var calls := start.calls;
    var m := Min(|suggestions|, |exps|);
    var i := 0;
    while i < m
      invariant 0 <= i <= m
      invariant ExperienceRun(start, exps, suggestions, i) == Run(calls, false)
    {
      var c := ExperienceCall(exps[i], suggestions[i]);
      if c.Err? {
        ExperienceFailedSticks(start, exps, suggestions, i + 1, m);
        return Run(calls, true);
      }
      if c.value.Some? {
        calls := calls + [c.value.value];
      }
      i := i + 1;
    }
    run := Run(calls, false);
  }

  /** The project loop, likewise. */
  method ApplyProjects(start: Run, projs: seq<Row>, suggestions: seq<Json>) returns (run: Run)
    requires !start.failed
    ensures run == ProjectRun(start, projs, suggestions, Min(|suggestions|, |projs|))
  {
    var calls := start.calls;
    var n := Min(|suggestions|, |projs|);
    var j := 0;
    while j < n
      invariant 0 <= j <= n
      invariant ProjectRun(start, projs, suggestions, j) == Run(calls, false)
    {
      var c := ProjectCall(projs[j], suggestions[j]);
      if c.Err? {
        ProjectFailedSticks(start, projs, suggestions, j + 1, n);
        return Run(calls, true);
      }
      if c.value.Some? {
        calls := calls + [c.value.value];
      }
      j := j + 1;
    }
    run := Run(calls, false);
  }
}
