/** The part of the `docx` library both Word exporters build on: paragraphs made of
    text runs, with a style, an alignment and spacing. */
module DocxModel {
  import opened Js
  import opened SkillGroups
  import opened AtsContent

  /** The paragraph styles the exporters use: none, `TITLE`, `HEADING_1` and `HEADING_2`. */
  datatype Style = Body | Title | Heading1 | Heading2

  datatype Alignment = Start | Centered

  /** A `TextRun`; `size` is in half-points and absent when the run does not set one. */
  datatype Run = Run(text: string, bold: bool, italics: bool, size: Option<nat>)

  /** A `Paragraph`: its style, runs, alignment, spacing before and after (twentieths of
      a point, 0 when not set) and whether it carries the accent bottom border. */
  datatype Paragraph = Paragraph(style: Style, runs: seq<Run>, alignment: Alignment, before: nat, after: nat, ruled: bool)

  /** A `text:` option becomes one run without formatting. */
  function Plain(text: string): Run {
    Run(text, false, false, None)
  }

  function TextPara(text: string, after: nat): Paragraph {
    Paragraph(Body, [Plain(text)], Start, 0, after, false)
  }

  function RunPara(run: Run, after: nat): Paragraph {
    Paragraph(Body, [run], Start, 0, after, false)
  }

  function Centred(text: string, after: nat): Paragraph {
    Paragraph(Body, [Plain(text)], Centered, 0, after, false)
  }

  function RunsText(runs: seq<Run>): string
    decreases |runs|
  {
    if runs == [] then "" else RunsText(runs[..|runs| - 1]) + runs[|runs| - 1].text
  }

  lemma RunsTextSingle(run: Run)
    ensures RunsText([run]) == run.text
  {
    assert [run][..0] == [];
    assert "" + run.text == run.text;
  }

  /** The text a paragraph shows: its runs, one after another. */
  function ParagraphText(p: Paragraph): string {
    RunsText(p.runs)
  }

  /** One category of skills: the category and a colon in bold, then the names joined
      with ", ", followed by 100 twentieths of a point. */
  function GroupPara(g: CategoryGroup): Paragraph {
    Paragraph(Body, [Run(g.category + ": ", true, false, None), Plain(JoinNames(g.names, ", "))], Start, 0, 100, false)
  }

  /** `Object.entries(grouped).forEach(...)`: one paragraph per group, in order. */
  function GroupParas(acc: seq<Paragraph>, gs: seq<CategoryGroup>): seq<Paragraph>
    decreases |gs|
  {
    if gs == [] then acc else GroupParas(acc, gs[..|gs| - 1]) + [GroupPara(gs[|gs| - 1])]
  }
}
