/** The downloadable rendering of a resume: `generate_docx`, which appends
    paragraphs to a word-processing document. Only the list of paragraphs
    is modelled, not the package the document is saved as. */
module Docx {
  import opened Sequences
  import opened Resume

  /** The paragraph styles `generate_docx` uses; `Normal` is the style a
      paragraph gets when none is named. */
  datatype Style = Title | Normal | Heading1 | ListBullet

  /** A run of characters sharing one formatting; `bold` is false for a run
      whose boldness is left to the paragraph style. */
  datatype Run = Run(text: string, bold: bool)

  datatype Paragraph = Paragraph(runs: seq<Run>, style: Style)

  function RunText(run: Run): string {
    run.text
  }

  function ParagraphText(p: Paragraph): string {
    Join(p.runs, RunText)
  }

  /** A paragraph with text all of which is bold. */
  predicate IsBold(p: Paragraph) {
    p.runs != [] && forall i :: 0 <= i < |p.runs| ==> p.runs[i].bold
  }

  /** What `add_paragraph(text, style)` appends: one plain run holding the
      text, or no run at all when the text is empty. */
  function Plain(text: string, style: Style): Paragraph {
    Paragraph(if text == "" then [] else [Run(text, false)], style)
  }

  lemma PlainText(text: string, style: Style)
    ensures ParagraphText(Plain(text, style)) == text && !IsBold(Plain(text, style))
  {
    JoinSingle(Run(text, false), RunText);
  }

  /** The word-processing document while it is being built. */
  class Document {
    var paragraphs: seq<Paragraph>

    /** A new document has an empty body. */
    constructor ()
      ensures paragraphs == []
    {
      paragraphs := [];
    }

    /** `add_paragraph(text, style)`. */
    method AddParagraph(text: string, style: Style)
      modifies this
      ensures paragraphs == old(paragraphs) + [Plain(text, style)]
    {
      paragraphs := paragraphs + [Plain(text, style)];
    }

    /** `add_run(text)` on the paragraph added last, with the run's bold flag
        then set to `bold`. */
    method AddRun(text: string, bold: bool)
      requires paragraphs != []
      modifies this
      ensures var n := |old(paragraphs)| - 1;
              paragraphs == old(paragraphs)[..n] + [old(paragraphs)[n].(runs := old(paragraphs)[n].runs + [Run(text, bold)])]
    {
      var n := |paragraphs| - 1;
      paragraphs := paragraphs[..n] + [paragraphs[n].(runs := paragraphs[n].runs + [Run(text, bold)])];
    }
  }

  /** A paragraph of the default style holding one bold run. */
  function BoldLine(text: string): Paragraph {
    Paragraph([Run(text, true)], Normal)
  }

  lemma BoldLineText(text: string)
    ensures ParagraphText(BoldLine(text)) == text && IsBold(BoldLine(text))
  {
    JoinSingle(Run(text, true), RunText);
  }

  function EntryLine(e: Experience): string {
    e.company + " - " + e.jobTitle + " (" + e.dates + ")"
  }

  function EducationLine(ed: Education): string {
    ed.degree + " - " + ed.year
  }

  function BulletParagraph(s: string): seq<Paragraph> {
    [Plain(s, ListBullet)]
  }

  function BulletParagraphs(items: seq<string>): seq<Paragraph> {
    Join(items, BulletParagraph)
  }

  /** One experience entry: its bold heading line, then one bullet paragraph
      per achievement. */
  function EntryParagraphs(e: Experience): seq<Paragraph> {
    [BoldLine(EntryLine(e))] + BulletParagraphs(e.achievements)
  }

  /** The three section headings of the document. */
  const ExperienceTitle := "Professional Experience"
  const EducationTitle := "Education"
  const SkillsTitle := "Skills"

  function Opening(r: ResumeRecord): seq<Paragraph> {
    [Plain(r.name, Title), Plain(r.contactInfo, Normal), Plain(ExperienceTitle, Heading1)]
  }

  function Closing(r: ResumeRecord): seq<Paragraph> {
    [Plain(EducationTitle, Heading1), BoldLine(EducationLine(r.education)), Plain(SkillsTitle, Heading1)]
  }

  /** The paragraphs of the document `generate_docx` saves, in order. */
  function Paragraphs(r: ResumeRecord): seq<Paragraph> {
    Opening(r) + Join(r.experience, EntryParagraphs) + Closing(r) + BulletParagraphs(r.skills)
  }

  /** `add_paragraph()` followed by `add_run(text)` and `run.bold = True`:
      a paragraph of the default style holding one bold run. */
  method AddBoldLine(doc: Document, text: string)
    modifies doc
    ensures doc.paragraphs == old(doc.paragraphs) + [BoldLine(text)]
  {
    doc.AddParagraph("", Normal);
    doc.AddRun(text, true);
    assert [] + [Run(text, true)] == [Run(text, true)];
  }

  /** One of the two bullet loops of `generate_docx`: one bullet paragraph
      per item, in input order. */
  method AddBullets(doc: Document, items: seq<string>)
    modifies doc
    ensures doc.paragraphs == old(doc.paragraphs) + BulletParagraphs(items)
  {
    for k := 0 to |items|
      invariant doc.paragraphs == old(doc.paragraphs) + BulletParagraphs(items[..k])
    {
      assert items[..k + 1] == items[..k] + [items[k]];
      JoinAppend(items[..k], items[k], BulletParagraph);
      doc.AddParagraph(items[k], ListBullet);
    }
    assert items[..|items|] == items;
  }

  /** `generate_docx`, up to saving the document: the paragraphs of a fresh
      document after the calls the function makes. */
  method GenerateDocx(r: ResumeRecord) returns (paragraphs: seq<Paragraph>)
    ensures paragraphs == Paragraphs(r)
  {
    var doc := new Document();
    doc.AddParagraph(r.name, Title);
    doc.AddParagraph(r.contactInfo, Normal);
    doc.AddParagraph(ExperienceTitle, Heading1);
    AppendThree([], Plain(r.name, Title), Plain(r.contactInfo, Normal), Plain(ExperienceTitle, Heading1));
    for i := 0 to |r.experience|
      invariant doc.paragraphs == Opening(r) + Join(r.experience[..i], EntryParagraphs)
    {
      var e := r.experience[i];
      ghost var done := doc.paragraphs;
      AddBoldLine(doc, EntryLine(e));
      AddBullets(doc, e.achievements);
      AppendAssociative(done, [BoldLine(EntryLine(e))], BulletParagraphs(e.achievements));
      assert r.experience[..i + 1] == r.experience[..i] + [e];
      JoinAppend(r.experience[..i], e, EntryParagraphs);
      AppendAssociative(Opening(r), Join(r.experience[..i], EntryParagraphs), EntryParagraphs(e));
    }
    assert r.experience[..|r.experience|] == r.experience;
    ghost var body := doc.paragraphs;
    doc.AddParagraph(EducationTitle, Heading1);
    AddBoldLine(doc, EducationLine(r.education));
    doc.AddParagraph(SkillsTitle, Heading1);
    AppendThree(body, Plain(EducationTitle, Heading1), BoldLine(EducationLine(r.education)), Plain(SkillsTitle, Heading1));
    AddBullets(doc, r.skills);
    paragraphs := doc.paragraphs;
  }

  /** The text of a paragraph of the given style, nothing for another one. */
  function StyleText(p: Paragraph, style: Style): seq<string> {
    if p.style == style then [ParagraphText(p)] else []
  }

  /** The texts of the paragraphs of one style, in document order. */
  function StyleTexts(ps: seq<Paragraph>, style: Style): seq<string> {
    if ps == [] then [] else StyleText(ps[0], style) + StyleTexts(ps[1..], style)
  }

  function BoldText(p: Paragraph): seq<string> {
    if IsBold(p) then [ParagraphText(p)] else []
  }

  /** The texts of the bold paragraphs, in document order. */
  function BoldTexts(ps: seq<Paragraph>): seq<string> {
    if ps == [] then [] else BoldText(ps[0]) + BoldTexts(ps[1..])
  }

  function Achievements(e: Experience): seq<string> {
    e.achievements
  }

  function EntryLines(e: Experience): seq<string> {
    [EntryLine(e)]
  }

  /** The number of achievements over all entries. */
  function AchievementCount(exps: seq<Experience>): nat {
    if exps == [] then 0 else |exps[0].achievements| + AchievementCount(exps[1..])
  }

  /** Reading texts off two runs of paragraphs one after the other. */
  lemma {:induction false} StyleTextsConcat(ps: seq<Paragraph>, qs: seq<Paragraph>, style: Style)
    ensures StyleTexts(ps + qs, style) == StyleTexts(ps, style) + StyleTexts(qs, style)
  {
    if ps == [] {
      assert ps + qs == qs;
    } else {
      assert (ps + qs)[1..] == ps[1..] + qs;
      StyleTextsConcat(ps[1..], qs, style);
      AppendAssociative(StyleText(ps[0], style), StyleTexts(ps[1..], style), StyleTexts(qs, style));
    }
  }

  lemma {:induction false} BoldTextsConcat(ps: seq<Paragraph>, qs: seq<Paragraph>)
    ensures BoldTexts(ps + qs) == BoldTexts(ps) + BoldTexts(qs)
  {
    if ps == [] {
      assert ps + qs == qs;
    } else {
      assert (ps + qs)[1..] == ps[1..] + qs;
      BoldTextsConcat(ps[1..], qs);
      AppendAssociative(BoldText(ps[0]), BoldTexts(ps[1..]), BoldTexts(qs));
    }
  }

  lemma SelectConcat(ps: seq<Paragraph>, qs: seq<Paragraph>, style: Style)
    ensures StyleTexts(ps + qs, style) == StyleTexts(ps, style) + StyleTexts(qs, style)
    ensures BoldTexts(ps + qs) == BoldTexts(ps) + BoldTexts(qs)
  {
    StyleTextsConcat(ps, qs, style);
    BoldTextsConcat(ps, qs);
  }

  lemma SelectOne(p: Paragraph, style: Style)
    ensures StyleTexts([p], style) == StyleText(p, style)
    ensures BoldTexts([p]) == BoldText(p)
  {
    assert [p][1..] == [];
  }

  lemma {:induction false} BulletTexts(items: seq<string>, style: Style)
    ensures StyleTexts(BulletParagraphs(items), style) == (if style == ListBullet then items else [])
    ensures BoldTexts(BulletParagraphs(items)) == []
    ensures |BulletParagraphs(items)| == |items|
  {
    if items != [] {
      var p := Plain(items[0], ListBullet);
      BulletTexts(items[1..], style);
      SelectConcat([p], BulletParagraphs(items[1..]), style);
      SelectOne(p, style);
      PlainText(items[0], ListBullet);
      if style == ListBullet {
        assert items == [items[0]] + items[1..];
      }
    }
  }

  lemma EntryTexts(e: Experience, style: Style)
    ensures StyleTexts(EntryParagraphs(e), style) ==
      if style == ListBullet then e.achievements else if style == Normal then [EntryLine(e)] else []
    ensures BoldTexts(EntryParagraphs(e)) == [EntryLine(e)]
    ensures |EntryParagraphs(e)| == 1 + |e.achievements|
  {
    var p := BoldLine(EntryLine(e));
    BulletTexts(e.achievements, style);
    SelectConcat([p], BulletParagraphs(e.achievements), style);
    SelectOne(p, style);
    BoldLineText(EntryLine(e));
  }

  lemma {:induction false} ExperienceTexts(exps: seq<Experience>, style: Style)
    ensures StyleTexts(Join(exps, EntryParagraphs), style) ==
      if style == ListBullet then Join(exps, Achievements) else if style == Normal then Join(exps, EntryLines) else []
    ensures BoldTexts(Join(exps, EntryParagraphs)) == Join(exps, EntryLines)
    ensures |Join(exps, EntryParagraphs)| == |exps| + AchievementCount(exps)
  {
    if exps != [] {
      ExperienceTexts(exps[1..], style);
      EntryTexts(exps[0], style);
      SelectConcat(EntryParagraphs(exps[0]), Join(exps[1..], EntryParagraphs), style);
    }
  }

  /** Texts are read off the four parts of the document one after the other. */
  lemma ParagraphsSplit(r: ResumeRecord, style: Style, o: seq<string>, x: seq<string>, c: seq<string>, b: seq<string>)
    requires StyleTexts(Opening(r), style) == o && StyleTexts(Join(r.experience, EntryParagraphs), style) == x
    requires StyleTexts(Closing(r), style) == c && StyleTexts(BulletParagraphs(r.skills), style) == b
    ensures StyleTexts(Paragraphs(r), style) == o + x + c + b
  {
    var po, px, pc := Opening(r), Join(r.experience, EntryParagraphs), Closing(r);
    StyleTextsConcat(po + px + pc, BulletParagraphs(r.skills), style);
    StyleTextsConcat(po + px, pc, style);
    StyleTextsConcat(po, px, style);
  }

  lemma BoldSplit(r: ResumeRecord, o: seq<string>, x: seq<string>, c: seq<string>, b: seq<string>)
    requires BoldTexts(Opening(r)) == o && BoldTexts(Join(r.experience, EntryParagraphs)) == x
    requires BoldTexts(Closing(r)) == c && BoldTexts(BulletParagraphs(r.skills)) == b
    ensures BoldTexts(Paragraphs(r)) == o + x + c + b
  {
    var po, px, pc := Opening(r), Join(r.experience, EntryParagraphs), Closing(r);
    BoldTextsConcat(po + px + pc, BulletParagraphs(r.skills));
    BoldTextsConcat(po + px, pc);
    BoldTextsConcat(po, px);
  }

  lemma SelectThree(p0: Paragraph, p1: Paragraph, p2: Paragraph, style: Style)
    ensures StyleTexts([p0, p1, p2], style) == StyleText(p0, style) + StyleText(p1, style) + StyleText(p2, style)
    ensures BoldTexts([p0, p1, p2]) == BoldText(p0) + BoldText(p1) + BoldText(p2)
  {
    assert [p0, p1, p2] == [p0] + [p1] + [p2];
    SelectConcat([p0] + [p1], [p2], style);
    SelectConcat([p0], [p1], style);
    SelectOne(p0, style);
    SelectOne(p1, style);
    SelectOne(p2, style);
  }

  /** The opening paragraphs: the name as title, the contact line, and the
      experience heading, none of them bold. */
  lemma OpeningTexts(r: ResumeRecord, style: Style)
    ensures StyleTexts(Opening(r), style) ==
      if style == Title then [r.name]
      else if style == Normal then [r.contactInfo]
      else if style == Heading1 then [ExperienceTitle]
      else []
    ensures BoldTexts(Opening(r)) == []
  {
    SelectThree(Plain(r.name, Title), Plain(r.contactInfo, Normal), Plain(ExperienceTitle, Heading1), style);
    PlainText(r.name, Title);
    PlainText(r.contactInfo, Normal);
    PlainText(ExperienceTitle, Heading1);
  }

  /** The closing paragraphs before the skills: the education heading, the
      bold education line, and the skills heading. */
  lemma ClosingTexts(r: ResumeRecord, style: Style)
    ensures StyleTexts(Closing(r), style) ==
      if style == Heading1 then [EducationTitle, SkillsTitle]
      else if style == Normal then [EducationLine(r.education)]
      else []
    ensures BoldTexts(Closing(r)) == [EducationLine(r.education)]
  {
    SelectThree(Plain(EducationTitle, Heading1), BoldLine(EducationLine(r.education)), Plain(SkillsTitle, Heading1), style);
    PlainText(EducationTitle, Heading1);
    PlainText(SkillsTitle, Heading1);
    BoldLineText(EducationLine(r.education));
  }

  /** The document has six paragraphs of its own, one per experience entry,
      one per achievement and one per skill. */
  lemma ParagraphCount(r: ResumeRecord)
    ensures |Paragraphs(r)| == 6 + |r.experience| + AchievementCount(r.experience) + |r.skills|
  {
    ExperienceTexts(r.experience, ListBullet);
    BulletTexts(r.skills, ListBullet);
  }

  /** The bullet paragraphs hold exactly the achievements of every entry,
      entry by entry, and then the skills, all in input order. */
  lemma BulletParagraphTexts(r: ResumeRecord)
    ensures StyleTexts(Paragraphs(r), ListBullet) == Join(r.experience, Achievements) + r.skills
  {
    var x := Join(r.experience, Achievements);
    OpeningTexts(r, ListBullet);
    ExperienceTexts(r.experience, ListBullet);
    ClosingTexts(r, ListBullet);
    BulletTexts(r.skills, ListBullet);
    ParagraphsSplit(r, ListBullet, [], x, [], r.skills);
    AppendEmpty(x);
  }

  /** The headings are the three section titles, in order. */
  lemma HeadingTexts(r: ResumeRecord)
    ensures StyleTexts(Paragraphs(r), Heading1) == [ExperienceTitle, EducationTitle, SkillsTitle]
  {
    OpeningTexts(r, Heading1);
    ExperienceTexts(r.experience, Heading1);
    ClosingTexts(r, Heading1);
    BulletTexts(r.skills, Heading1);
    ParagraphsSplit(r, Heading1, [ExperienceTitle], [], [EducationTitle, SkillsTitle], []);
    AppendEmpty([ExperienceTitle]);
    AppendEmpty([ExperienceTitle, EducationTitle, SkillsTitle]);
    assert [ExperienceTitle] + [EducationTitle, SkillsTitle] == [ExperienceTitle, EducationTitle, SkillsTitle];
  }

  /** The title paragraph is the name, and it is the only one. */
  lemma TitleTexts(r: ResumeRecord)
    ensures StyleTexts(Paragraphs(r), Title) == [r.name]
  {
    OpeningTexts(r, Title);
    ExperienceTexts(r.experience, Title);
    ClosingTexts(r, Title);
    BulletTexts(r.skills, Title);
    ParagraphsSplit(r, Title, [r.name], [], [], []);
    AppendEmpty([r.name]);
  }

  /** The bold paragraphs are the line of each entry, in input order, and
      then the education line. */
  lemma BoldParagraphTexts(r: ResumeRecord)
    ensures BoldTexts(Paragraphs(r)) == Join(r.experience, EntryLines) + [EducationLine(r.education)]
  {
    var x := Join(r.experience, EntryLines);
    var ed := [EducationLine(r.education)];
    OpeningTexts(r, Normal);
    ExperienceTexts(r.experience, Normal);
    ClosingTexts(r, Normal);
    BulletTexts(r.skills, Normal);
    BoldSplit(r, [], x, ed, []);
    AppendEmpty(x);
    AppendEmpty(x + ed);
  }

  /** The paragraphs of the default style are the contact line, the line of
      each entry in input order, and the education line. */
  lemma NormalParagraphTexts(r: ResumeRecord)
    ensures StyleTexts(Paragraphs(r), Normal) == [r.contactInfo] + Join(r.experience, EntryLines) + [EducationLine(r.education)]
  {
    var x := Join(r.experience, EntryLines);
    var ed := [EducationLine(r.education)];
    OpeningTexts(r, Normal);
    ExperienceTexts(r.experience, Normal);
    ClosingTexts(r, Normal);
    BulletTexts(r.skills, Normal);
    ParagraphsSplit(r, Normal, [r.contactInfo], x, ed, []);
    AppendEmpty([r.contactInfo] + x + ed);
  }

  /** Entry i's bold line comes after the paragraphs of the entries before it
      and is followed immediately by one bullet paragraph per achievement. */
  lemma {:induction false} ParagraphsEntry(r: ResumeRecord, i: nat)
    requires i < |r.experience|
    ensures Paragraphs(r) ==
      Opening(r) + Join(r.experience[..i], EntryParagraphs)
      + [BoldLine(EntryLine(r.experience[i]))] + BulletParagraphs(r.experience[i].achievements)
      + Join(r.experience[i + 1..], EntryParagraphs)
      + Closing(r) + BulletParagraphs(r.skills)
  {
    var e := r.experience[i];
    var o, j1, j2 := Opening(r), Join(r.experience[..i], EntryParagraphs), Join(r.experience[i + 1..], EntryParagraphs);
    var h, b := [BoldLine(EntryLine(e))], BulletParagraphs(e.achievements);
    JoinSplit(r.experience, i, EntryParagraphs);
    AppendAssociative(o, j1 + (h + b), j2);
    AppendAssociative(o, j1, h + b);
    AppendAssociative(o + j1, h, b);
  }
}
