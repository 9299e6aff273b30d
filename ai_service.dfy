/** The AI helpers: the prompt built from the profile, the choice of the reply's text
    among the shapes the service may answer with, the extraction of the JSON in that
    text, and the fallback to a fixed sample answer whenever anything goes wrong. The
    HTTP exchange is described by its outcome and `JSON.parse` is a parameter. */
module AiService {
  import opened Js
  import opened Strings
  import opened JsonText

  // ---- buildPrompt ----

  /** The `profileData` the generator hands over: the resume's sections and the
      career goals. */
  datatype Profile = Profile(
    personalInfo: Row,
    education: seq<Row>,
    experience: seq<Row>,
    skills: seq<Row>,
    projects: seq<Row>,
    careerGoals: Option<Json>)

  const PromptIntro: string := "You are a professional resume writer. Create a compelling, ATS-friendly resume based on the following information:"

  /** `${v ? `${title}: ${v}` : ''}`: a contact line only for a present field. */
  function ContactLine(title: string, v: Option<Json>, num: real -> string): (r: string)
    ensures r == "" <==> !Present(v)
    ensures Present(v) ==> |r| >= |title| + 2 && r[..|title| + 2] == title + ": "
  {
    if Present(v) then title + ": " + Interpolate(v, num) else ""
  }

  /** The four personal information lines. */
  function PersonalLines(info: Row, num: real -> string): (r: seq<string>)
    ensures |r| == 4
    ensures r[0] == "" <==> !Present(Get(info, "full_name"))
    ensures r[1] == "" <==> !Present(Get(info, "email"))
    ensures r[2] == "" <==> !Present(Get(info, "phone"))
    ensures r[3] == "" <==> !Present(Get(info, "location"))
  {
    [ContactLine("Name", Get(info, "full_name"), num),
     ContactLine("Email", Get(info, "email"), num),
     ContactLine("Phone", Get(info, "phone"), num),
     ContactLine("Location", Get(info, "location"), num)]
  }

  /** `(${start} - ${end || 'Present'})` without the parentheses. */
  function DateRange(row: Row, num: real -> string): (r: string)
    ensures !Present(Get(row, "end_date")) ==> r == Interpolate(Get(row, "start_date"), num) + " - Present"
    ensures Present(Get(row, "end_date")) ==> r == Interpolate(Get(row, "start_date"), num) + " - " + Interpolate(Get(row, "end_date"), num)
  {
    Interpolate(Get(row, "start_date"), num) + " - " + OrDefault(Get(row, "end_date"), "Present", num)
  }

  /** One education entry of the prompt. */
  function EducationBlock(edu: Row, num: real -> string): string {
    var gpa := Get(edu, "gpa");
    "\n- " + Interpolate(Get(edu, "degree"), num) + " in " + Interpolate(Get(edu, "field_of_study"), num) +
    "\n  " + Interpolate(Get(edu, "institution"), num) + " (" + DateRange(edu, num) + ")" +
    "\n  " + (if Present(gpa) then "GPA: " + Interpolate(gpa, num) else "") +
    "\n  " + OrDefault(Get(edu, "description"), "", num) + "\n"
  }

  /** `v ? v.join(', ') : ''` on a member that should be an array. */
  function JoinedOrEmpty(row: Row, key: string, num: real -> string): (r: Result<string>)
    ensures r.Err? <==> BadList(row, key)
    ensures !Present(Get(row, key)) ==> r == Ok("")
  {
    if Present(Get(row, key)) then JoinMember(Get(row, key), ", ", num) else Ok("")
  }

  /** A member that is present but not an array: `.join` on it throws. */
  predicate BadList(row: Row, key: string) {
    Present(Get(row, key)) && !Get(row, key).value.JArr?
  }

  /** One work experience entry of the prompt; achievements kept as text make it throw. */
  function ExperienceBlock(exp: Row, num: real -> string): (r: Result<string>)
    ensures r.Err? <==> BadList(exp, "achievements")
  {
    match JoinedOrEmpty(exp, "achievements", num)
    case Err(e) => Err(e)
    case Ok(achievements) =>
      Ok("\n- " + Interpolate(Get(exp, "position"), num) + " at " + Interpolate(Get(exp, "company"), num) +
        "\n  " + OrDefault(Get(exp, "location"), "", num) + " (" + DateRange(exp, num) + ")" +
        "\n  " + OrDefault(Get(exp, "description"), "", num) +
        "\n  " + achievements + "\n")
  }

  /** `${skill.name} (${skill.level || 'Proficient'})`. */
  function SkillItem(skill: Row, num: real -> string): (r: string)
    ensures !Present(Get(skill, "level")) ==> r == Interpolate(Get(skill, "name"), num) + " (Proficient)"
  {
    Interpolate(Get(skill, "name"), num) + " (" + OrDefault(Get(skill, "level"), "Proficient", num) + ")"
  }

  /** One project entry of the prompt; technologies kept as text make it throw. */
  function ProjectBlock(proj: Row, num: real -> string): (r: Result<string>)
    ensures r.Err? <==> BadList(proj, "technologies")
  {
    match JoinedOrEmpty(proj, "technologies", num)
    case Err(e) => Err(e)
    case Ok(technologies) =>
      Ok("\n- " + Interpolate(Get(proj, "name"), num) +
        "\n  " + OrDefault(Get(proj, "description"), "", num) +
        "\n  Technologies: " + technologies +
        "\n  " + OrDefault(Get(proj, "url"), "", num) + "\n")
  }

  function EducationBlocks(rows: seq<Row>, num: real -> string): (r: seq<string>)
    ensures |r| == |rows|
    ensures forall i :: 0 <= i < |rows| ==> r[i] == EducationBlock(rows[i], num)
  {
    seq(|rows|, i requires 0 <= i < |rows| => EducationBlock(rows[i], num))
  }

  function SkillItems(rows: seq<Row>, num: real -> string): (r: seq<string>)
    ensures |r| == |rows|
    ensures forall i :: 0 <= i < |rows| ==> r[i] == SkillItem(rows[i], num)
  {
    seq(|rows|, i requires 0 <= i < |rows| => SkillItem(rows[i], num))
  }

  /** `rows.map(block)`, which throws at the first entry whose block throws. */
  function MapBlocks(rows: seq<Row>, block: Row -> Result<string>): (r: Result<seq<string>>)
    ensures r.Err? <==> exists i :: 0 <= i < |rows| && block(rows[i]).Err?
    ensures r.Ok? ==> |r.value| == |rows| && forall i :: 0 <= i < |rows| ==> Ok(r.value[i]) == block(rows[i])
    decreases |rows|
  {
    if rows == [] then Ok([])
    else
      var init := rows[..|rows| - 1];
      match MapBlocks(init, block)
      case Err(e) =>
        assert exists i :: 0 <= i < |init| && block(init[i]).Err?;
        Err(e)
      case Ok(blocks) =>
        match block(rows[|rows| - 1])
        case Err(e) => Err(e)
        case Ok(b) =>
          assert forall i :: 0 <= i < |init| ==> init[i] == rows[i];
          Ok(blocks + [b])
  }

  function ExperienceBlocks(rows: seq<Row>, num: real -> string): (r: Result<seq<string>>)
    ensures r.Err? <==> exists i :: 0 <= i < |rows| && BadList(rows[i], "achievements")
  {
    var r := MapBlocks(rows, row => ExperienceBlock(row, num));
    assert forall i :: 0 <= i < |rows| ==> (ExperienceBlock(rows[i], num).Err? <==> BadList(rows[i], "achievements"));
    r
  }

  function ProjectBlocks(rows: seq<Row>, num: real -> string): (r: Result<seq<string>>)
    ensures r.Err? <==> exists i :: 0 <= i < |rows| && BadList(rows[i], "technologies")
  {
    var r := MapBlocks(rows, row => ProjectBlock(row, num));
    assert forall i :: 0 <= i < |rows| ==> (ProjectBlock(rows[i], num).Err? <==> BadList(rows[i], "technologies"));
    r
  }

  /** `${careerGoals || 'Not specified'}`. */
  function GoalsText(goals: Option<Json>, num: real -> string): (r: string)
    ensures !Present(goals) ==> r == "Not specified"
  {
    OrDefault(goals, "Not specified", num)
  }

  /** The prompt up to and including the career goals. It throws exactly when an
      experience's achievements or a project's technologies are present but not a list. */
  function BuildPrompt(p: Profile, num: real -> string): (r: Result<string>)
    ensures r.Err? <==>
      (exists i :: 0 <= i < |p.experience| && BadList(p.experience[i], "achievements")) ||
      (exists i :: 0 <= i < |p.projects| && BadList(p.projects[i], "technologies"))
  {
    var personal := PersonalLines(p.personalInfo, num);
    match ExperienceBlocks(p.experience, num)
    case Err(e) => Err(e)
    case Ok(experience) =>
      match ProjectBlocks(p.projects, num)
      case Err(e) => Err(e)
      case Ok(projects) =>
        Ok(PromptIntro + "\n\nPERSONAL INFORMATION:\n" +
          personal[0] + "\n" + personal[1] + "\n" + personal[2] + "\n" + personal[3] +
          "\n\nEDUCATION:\n" + Join(EducationBlocks(p.education, num), "\n") +
          "\n\nWORK EXPERIENCE:\n" + Join(experience, "\n") +
          "\n\nSKILLS:\n" + Join(SkillItems(p.skills, num), ", ") +
          "\n\nPROJECTS:\n" + Join(projects, "\n") +
          "\n\nCAREER GOALS:\n" + GoalsText(p.careerGoals, num) + "\n\n")
  }

  // ---- callAIService ----

  /** `o?.key`: undefined when `o` is undefined or null. */
  function Chain(o: Option<Json>, key: string): (r: Option<Json>)
    ensures o.None? || o == Some(JNull) ==> r.None?
    ensures forall m :: o == Some(JObj(m)) ==> r == Get(m, key)
  {
    if o.None? || o.value.JNull? then None
    else
      match Member(o.value, key)
      case Ok(v) => v
      case Err(_) => None
  }

  const UnexpectedFormat: string := "Unexpected response format from Raxcore API"

  /** The reply's text: `choices[0].message?.content || choices[0].text` when there is a
      truthy first choice, else `data.content`, else `data.response`, else an error.
      Reading a member of a null reply throws. */
  function SelectContent(data: Json): (r: Result<Option<Json>>)
    ensures data.JNull? ==> r.Err?
    ensures r.Err? && !data.JNull? ==> r.message == UnexpectedFormat
  {
    match Member(data, "choices")
    case Err(e) => Err(e)
    case Ok(choices) =>
      if Present(choices) && Present(First(choices.value)) then
        var first := First(choices.value);
        var content := Chain(Chain(first, "message"), "content");
        Ok(if Present(content) then content else Chain(first, "text"))
      else if Present(Chain(Some(data), "content")) then Ok(Chain(Some(data), "content"))
      else if Present(Chain(Some(data), "response")) then Ok(Chain(Some(data), "response"))
      else Err(UnexpectedFormat)
  }

  /** The order in which the reply shapes are tried, on an object reply. */
  lemma SelectionOrder(fields: map<string, Json>, choice: map<string, Json>, message: map<string, Json>)
    ensures var data := JObj(fields);
      ("choices" in fields && fields["choices"] == JArr([JObj(choice)]) ==>
        SelectContent(data) == Ok(
          if "message" in choice && choice["message"].JObj? && Present(Get(choice["message"].fields, "content"))
          then Get(choice["message"].fields, "content")
          else Get(choice, "text"))) &&
      (!Present(Get(fields, "choices")) && Present(Get(fields, "content")) ==>
        SelectContent(data) == Ok(Get(fields, "content"))) &&
      (!Present(Get(fields, "choices")) && !Present(Get(fields, "content")) && Present(Get(fields, "response")) ==>
        SelectContent(data) == Ok(Get(fields, "response"))) &&
      (!Present(Get(fields, "choices")) && !Present(Get(fields, "content")) && !Present(Get(fields, "response")) ==>
        SelectContent(data) == Err(UnexpectedFormat))
  {
    var data := JObj(fields);
    if "choices" in fields && fields["choices"] == JArr([JObj(choice)]) {
      assert First(fields["choices"]) == Some(JObj(choice));
      if "message" in choice && !choice["message"].JObj? {
        assert Chain(Chain(Some(JObj(choice)), "message"), "content").None? by {
          match choice["message"]
          case JNull =>
          case JBool(_) =>
          case JNum(_) =>
          case JStr(_) =>
          case JArr(_) =>
          case JObj(_) =>
        }
      }
    }
  }

  /** `data.choices[0]` indexes an object by its member "0" as it indexes an array by
      position: a `choices` object whose "0" is a choice reads like an array of that choice. */
  lemma ChoicesObjectIndexed(fields: map<string, Json>, choice: Json)
    ensures SelectContent(JObj(fields["choices" := JObj(map["0" := choice])])) ==
            SelectContent(JObj(fields["choices" := JArr([choice])]))
  {
    assert First(JObj(map["0" := choice])) == Some(choice);
    assert First(JArr([choice])) == Some(choice);
  }

  /** `content.match(...)` needs a string: anything else throws. */
  function ContentText(c: Option<Json>): (r: Result<string>)
    ensures r.Ok? <==> c.Some? && c.value.JStr?
    ensures r.Ok? ==> r.value == c.value.str
  {
    if c.Some? && c.value.JStr? then Ok(c.value.str) else Err("TypeError: content.match is not a function")
  }

  /** `content.match(/\{[\s\S]*\}/)`: from the first '{' to the last '}', when some '}'
      follows the first '{'. */
  function BraceSpan(s: string): (r: Option<string>)
    ensures r.Some? <==> exists i, j :: 0 <= i < j < |s| && s[i] == '{' && s[j] == '}'
    ensures r.Some? ==> |r.value| >= 2 && r.value[0] == '{' && r.value[|r.value| - 1] == '}'
  {
    if 0 <= IndexOf(s, '{') < LastIndexOf(s, '}') then Some(s[IndexOf(s, '{')..LastIndexOf(s, '}') + 1]) else None
  }

  /** The span is the leftmost, longest one: no '{' comes before it and no '}' after. */
  lemma BraceSpanLeftmostLongest(s: string)
    requires BraceSpan(s).Some?
    ensures 0 <= IndexOf(s, '{') < LastIndexOf(s, '}') < |s|
    ensures BraceSpan(s).value == s[IndexOf(s, '{')..LastIndexOf(s, '}') + 1]
    ensures forall k :: 0 <= k < IndexOf(s, '{') ==> s[k] != '{'
    ensures forall k :: LastIndexOf(s, '}') < k < |s| ==> s[k] != '}'
  {
    BraceSpanBounds(s);
    BraceSpanValue(s);
  }

  /** A span exists only when the first '{' comes before the last '}'. */
  lemma BraceSpanBounds(s: string)
    requires BraceSpan(s).Some?
    ensures 0 <= IndexOf(s, '{') < LastIndexOf(s, '}') < |s|
  {
  }

  /** The span runs from the first '{' through the last '}'. */
  lemma BraceSpanValue(s: string)
    requires BraceSpan(s).Some?
    ensures BraceSpan(s).value == s[IndexOf(s, '{')..LastIndexOf(s, '}') + 1]
  {
  }

  /** Text around the JSON is dropped: a reply of the form prose, object, prose yields
      the object's text when the prose holds no braces of the wrong kind. */
  lemma BraceSpanOfWrapped(pre: string, body: string, post: string)
    requires '{' !in pre && '}' !in post
    ensures BraceSpan(pre + "{" + body + "}" + post) == Some("{" + body + "}")
  {
    var s := pre + "{" + body + "}" + post;
    var i := |pre|;
    var j := |pre| + 1 + |body|;
    assert s[i] == '{' && s[j] == '}';
    forall k | 0 <= k < i ensures s[k] != '{' {
      assert s[k] == pre[k];
    }
    forall k | j < k < |s| ensures s[k] != '}' {
      assert s[k] == post[k - j - 1];
    }
    assert IndexOf(s, '{') == i;
    assert LastIndexOf(s, '}') == j;
    assert s[i..j + 1] == "{" + body + "}";
  }

  /** The text handed to `JSON.parse`: the brace span, or the whole content without one. */
  function JsonCandidate(s: string): (r: string)
    ensures BraceSpan(s).None? ==> r == s
    ensures BraceSpan(s).Some? ==> r == BraceSpan(s).value
  {
    match BraceSpan(s)
    case Some(span) => span
    case None => s
  }

  // ---- the sample answer ----

  const MockSummary: string := "Results-driven professional with proven expertise in software development and project management. Skilled in leveraging cutting-edge technologies to deliver high-impact solutions. Committed to continuous learning and driving innovation in fast-paced environments."
  const MockExperience: string := "Led cross-functional teams in developing and deploying scalable web applications, resulting in 40% improvement in system performance and 25% increase in user engagement."
  const MockProject: string := "Architected and developed a full-stack application utilizing modern frameworks, serving 10,000+ active users with 99.9% uptime."

  /** `getMockAIResponse()`: a summary, one experience suggestion and one project
      suggestion, each suggestion marked as enhanced and carrying a description. */
  function MockResponse(): (m: Json)
    ensures m.JObj? && m.fields.Keys == {"summary", "experience", "projects"}
    ensures m.fields["summary"] == JStr(MockSummary) && JTruthy(m.fields["summary"])
    ensures m.fields["experience"].JArr? && |m.fields["experience"].items| == 1
    ensures m.fields["projects"].JArr? && |m.fields["projects"].items| == 1
    ensures m.fields["experience"].items[0] == Suggestion(MockExperience)
    ensures m.fields["projects"].items[0] == Suggestion(MockProject)
  {
    JObj(map[
      "summary" := JStr(MockSummary),
      "experience" := JArr([Suggestion(MockExperience)]),
      "projects" := JArr([Suggestion(MockProject)])])
  }

  function Suggestion(description: string): (j: Json)
    ensures j.JObj? && Get(j.fields, "description") == Some(JStr(description))
    ensures Get(j.fields, "achievements") == None
  {
    JObj(map["enhanced" := JBool(true), "description" := JStr(description)])
  }

  /** How the request went: no usable reply (the request failed, the status was not ok,
      or the body was not JSON), or the parsed body. */
  datatype Reply = NoReply | Answered(data: Json)

  /** `callAIService`. It never fails: with no API key, no usable reply, no text in an
      expected place, or a text that does not parse, the answer is the sample answer. */
  function CallAIService(hasKey: bool, reply: Reply, parse: string -> Option<Json>): (r: Json)
    ensures !hasKey || reply.NoReply? ==> r == MockResponse()
    ensures hasKey && reply.Answered? ==>
      match SelectContent(reply.data)
      case Err(_) => r == MockResponse()
      case Ok(c) =>
        match ContentText(c)
        case Err(_) => r == MockResponse()
        case Ok(text) => r == (if parse(JsonCandidate(text)).Some? then parse(JsonCandidate(text)).value else MockResponse())
  {
    if !hasKey then MockResponse()
    else
      match reply
      case NoReply => MockResponse()
      case Answered(data) =>
        match SelectContent(data)
        case Err(_) => MockResponse()
        case Ok(c) =>
          match ContentText(c)
          case Err(_) => MockResponse()
          case Ok(text) =>
            match parse(JsonCandidate(text))
            case Some(v) => v
            case None => MockResponse()
  }

  /** A chat-style reply whose message wraps one JSON object in prose gives that
      object, parsed. */
  lemma ChatReplyParsed(pre: string, body: string, post: string, parse: string -> Option<Json>)
    requires '{' !in pre && '}' !in post
    requires parse("{" + body + "}").Some?
    ensures var text := pre + "{" + body + "}" + post;
      var choice := JObj(map["message" := JObj(map["content" := JStr(text)])]);
      CallAIService(true, Answered(JObj(map["choices" := JArr([choice])])), parse) == parse("{" + body + "}").value
  {
    var text := pre + "{" + body + "}" + post;
    BraceSpanOfWrapped(pre, body, post);
    var choice := map["message" := JObj(map["content" := JStr(text)])];
    var fields := map["choices" := JArr([JObj(choice)])];
    SelectionOrder(fields, choice, map[]);
  }

  /** `generateResumeWithAI`: it rejects only when the prompt cannot be built. */
  function GenerateResumeWithAI(p: Profile, num: real -> string, hasKey: bool, reply: Reply,
                                parse: string -> Option<Json>): (r: Result<Json>)
    ensures r.Err? <==> BuildPrompt(p, num).Err?
    ensures r.Ok? ==> r.value == CallAIService(hasKey, reply, parse)
  {
    match BuildPrompt(p, num)
    case Err(e) => Err(e)
    case Ok(_) => Ok(CallAIService(hasKey, reply, parse))
  }
}
