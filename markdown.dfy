/** The on-screen rendering of a resume: `format_resume`, which grows one
    markdown string by appending fixed fragments and one line per entry. */
module Markdown {
  import opened Sequences
  import opened Resume

  /** The leading block: the name in bold, the contact line and the heading
      of the experience section. */
  function Header(r: ResumeRecord): string {
    "\n**" + r.name + "**  \n" + r.contactInfo + "  \n\n### **Professional Experience**\n"
  }

  /** The line that opens one experience entry. */
  function EntryHeading(e: Experience): string {
    "\n**" + e.company + "** - **" + e.jobTitle + "** (" + e.dates + ")\n"
  }

  /** One bullet line, used for achievements and for skills. */
  function Bullet(s: string): string {
    "- " + s + "\n"
  }

  const SkillsHeading: string := "### **Skills**\n"

  /** The education section, closed by the heading of the skills section. */
  function EducationBlock(ed: Education): string {
    "\n\n### **Education**\n\n**" + ed.degree + "** - " + ed.year + "  \n\n" + SkillsHeading
  }

  function Bullets(items: seq<string>): string {
    Join(items, Bullet)
  }

  /** One experience entry: its heading, then one line per achievement. */
  function EntryText(e: Experience): string {
    EntryHeading(e) + Bullets(e.achievements)
  }

  /** The whole markdown text `format_resume` returns. */
  function Render(r: ResumeRecord): string {
    Header(r) + Join(r.experience, EntryText) + EducationBlock(r.education) + Bullets(r.skills)
  }

  /** One of the two bullet loops of `format_resume`: appends one line per
      item to `text`, in input order. */
  method AppendBullets(text: string, items: seq<string>) returns (out: string)
    ensures out == text + Bullets(items)
  {
    out := text;
    for k := 0 to |items|
      invariant out == text + Bullets(items[..k])
    {
      assert items[..k + 1] == items[..k] + [items[k]];
      JoinAppend(items[..k], items[k], Bullet);
      out := out + Bullet(items[k]);
    }
    assert items[..|items|] == items;
  }

  /** `format_resume`: the header, then per entry its heading and one line per
      achievement, then the education block, then one line per skill. */
  method FormatResume(r: ResumeRecord) returns (text: string)
    ensures text == Render(r)
  {
    text := Header(r);
    for i := 0 to |r.experience|
      invariant text == Header(r) + Join(r.experience[..i], EntryText)
    {
      var e := r.experience[i];
      ghost var done := text;
      text := text + EntryHeading(e);
      text := AppendBullets(text, e.achievements);
      AppendAssociative(done, EntryHeading(e), Bullets(e.achievements));
      assert r.experience[..i + 1] == r.experience[..i] + [e];
      JoinAppend(r.experience[..i], e, EntryText);
      AppendAssociative(Header(r), Join(r.experience[..i], EntryText), EntryText(e));
    }
    assert r.experience[..|r.experience|] == r.experience;
    text := text + EducationBlock(r.education);
    text := AppendBullets(text, r.skills);
  }

  /** Entry i of the experience section comes after the entries before it
      and before those after it, and its heading is followed immediately by
      its achievement lines. */
  lemma {:induction false} MarkdownEntry(r: ResumeRecord, i: nat)
    requires i < |r.experience|
    ensures Render(r) ==
      Header(r) + Join(r.experience[..i], EntryText)
      + EntryHeading(r.experience[i]) + Bullets(r.experience[i].achievements)
      + Join(r.experience[i + 1..], EntryText)
      + EducationBlock(r.education) + Bullets(r.skills)
  {
    var e := r.experience[i];
    var h, j1, j2 := Header(r), Join(r.experience[..i], EntryText), Join(r.experience[i + 1..], EntryText);
    var eh, b := EntryHeading(e), Bullets(e.achievements);
    JoinSplit(r.experience, i, EntryText);
    AppendAssociative(h, j1 + (eh + b), j2);
    AppendAssociative(h, j1, eh + b);
    AppendAssociative(h + j1, eh, b);
    assert h + Join(r.experience, EntryText) == h + j1 + eh + b + j2;
  }

  /** The i-th skill line comes right after the education block and the lines
      of the skills before it, and right before the lines of those after it. */
  lemma {:induction false} MarkdownSkillLine(r: ResumeRecord, i: nat)
    requires i < |r.skills|
    ensures Render(r) ==
      Header(r) + Join(r.experience, EntryText) + EducationBlock(r.education)
      + Bullets(r.skills[..i]) + Bullet(r.skills[i]) + Bullets(r.skills[i + 1..])
  {
    JoinSplit(r.skills, i, Bullet);
    var front := Header(r) + Join(r.experience, EntryText) + EducationBlock(r.education);
    AppendAssociative(front, Bullets(r.skills[..i]) + Bullet(r.skills[i]), Bullets(r.skills[i + 1..]));
    AppendAssociative(front, Bullets(r.skills[..i]), Bullet(r.skills[i]));
  }

  /** The text ends with the skills heading followed by the skill lines, and
      nothing follows them: with no skills it ends with the heading itself,
      otherwise with the line of the last skill. */
  lemma MarkdownEnding(r: ResumeRecord)
    ensures EndsWith(Render(r), SkillsHeading + Bullets(r.skills))
    ensures r.skills == [] ==> EndsWith(Render(r), SkillsHeading)
    ensures r.skills != [] ==> EndsWith(Render(r), Bullet(r.skills[|r.skills| - 1]))
  {
    var ed := r.education;
    var front := Header(r) + Join(r.experience, EntryText) + ("\n\n### **Education**\n\n**" + ed.degree + "** - " + ed.year + "  \n\n");
    AppendAssociative(Header(r) + Join(r.experience, EntryText), "\n\n### **Education**\n\n**" + ed.degree + "** - " + ed.year + "  \n\n", SkillsHeading);
    AppendAssociative(front, SkillsHeading, Bullets(r.skills));
    EndsWithAppend(front, SkillsHeading + Bullets(r.skills));
    if r.skills != [] {
      var n := |r.skills| - 1;
      JoinLast(r.skills, Bullet);
      AppendAssociative(front + SkillsHeading, Bullets(r.skills[..n]), Bullet(r.skills[n]));
      EndsWithAppend(front + SkillsHeading + Bullets(r.skills[..n]), Bullet(r.skills[n]));
    }
  }

  lemma HeaderMentions(r: ResumeRecord)
    ensures Occurs(r.name, Header(r)) && Occurs(r.contactInfo, Header(r))
  {
    var lit := "  \n\n### **Professional Experience**\n";
    OccursSelf(r.name);
    OccursRight(r.name, "\n**", r.name);
    OccursLeft(r.name, "\n**" + r.name, "**  \n");
    OccursLeft(r.name, "\n**" + r.name + "**  \n", r.contactInfo);
    OccursLeft(r.name, "\n**" + r.name + "**  \n" + r.contactInfo, lit);
    OccursSelf(r.contactInfo);
    OccursRight(r.contactInfo, "\n**" + r.name + "**  \n", r.contactInfo);
    OccursLeft(r.contactInfo, "\n**" + r.name + "**  \n" + r.contactInfo, lit);
  }

  lemma EntryMentions(e: Experience)
    ensures Occurs(e.company, EntryText(e)) && Occurs(e.jobTitle, EntryText(e)) && Occurs(e.dates, EntryText(e))
    ensures forall j :: 0 <= j < |e.achievements| ==> Occurs(e.achievements[j], EntryText(e))
  {
    var h0 := "\n**" + e.company;
    var h1 := h0 + "** - **";
    var h2 := h1 + e.jobTitle;
    var h3 := h2 + "** (";
    var h4 := h3 + e.dates;
    var h5 := h4 + ")\n";
    assert EntryHeading(e) == h5;
    OccursSelf(e.company);
    OccursRight(e.company, "\n**", e.company);
    OccursLeft(e.company, h0, "** - **");
    OccursLeft(e.company, h1, e.jobTitle);
    OccursLeft(e.company, h2, "** (");
    OccursLeft(e.company, h3, e.dates);
    OccursLeft(e.company, h4, ")\n");
    OccursSelf(e.jobTitle);
    OccursRight(e.jobTitle, h1, e.jobTitle);
    OccursLeft(e.jobTitle, h2, "** (");
    OccursLeft(e.jobTitle, h3, e.dates);
    OccursLeft(e.jobTitle, h4, ")\n");
    OccursSelf(e.dates);
    OccursRight(e.dates, h3, e.dates);
    OccursLeft(e.dates, h4, ")\n");
    var b := Bullets(e.achievements);
    OccursLeft(e.company, h5, b);
    OccursLeft(e.jobTitle, h5, b);
    OccursLeft(e.dates, h5, b);
    forall j | 0 <= j < |e.achievements|
      ensures Occurs(e.achievements[j], EntryText(e))
    {
      BulletMentions(e.achievements, j);
      OccursRight(e.achievements[j], h5, b);
    }
  }

  lemma BulletMentions(items: seq<string>, j: nat)
    requires j < |items|
    ensures Occurs(items[j], Bullets(items))
  {
    OccursSelf(items[j]);
    OccursRight(items[j], "- ", items[j]);
    OccursLeft(items[j], "- " + items[j], "\n");
    JoinMentions(items, j, Bullet, items[j]);
  }

  lemma EducationMentions(ed: Education)
    ensures Occurs(ed.degree, EducationBlock(ed)) && Occurs(ed.year, EducationBlock(ed))
  {
    var lead := "\n\n### **Education**\n\n**";
    var d0 := lead + ed.degree;
    var d1 := d0 + "** - ";
    var d2 := d1 + ed.year;
    var d3 := d2 + "  \n\n";
    assert EducationBlock(ed) == d3 + SkillsHeading;
    OccursSelf(ed.degree);
    OccursRight(ed.degree, lead, ed.degree);
    OccursLeft(ed.degree, d0, "** - ");
    OccursLeft(ed.degree, d1, ed.year);
    OccursLeft(ed.degree, d2, "  \n\n");
    OccursLeft(ed.degree, d3, SkillsHeading);
    OccursSelf(ed.year);
    OccursRight(ed.year, d1, ed.year);
    OccursLeft(ed.year, d2, "  \n\n");
    OccursLeft(ed.year, d3, SkillsHeading);
  }

  /** Nothing of the record is omitted: the name, the contact line, every
      company, title, date range and achievement, the degree, the year and
      every skill appear in the text. */
  lemma MarkdownMentionsAll(r: ResumeRecord)
    ensures Occurs(r.name, Render(r)) && Occurs(r.contactInfo, Render(r))
    ensures forall i :: 0 <= i < |r.experience| ==>
              && Occurs(r.experience[i].company, Render(r))
              && Occurs(r.experience[i].jobTitle, Render(r))
              && Occurs(r.experience[i].dates, Render(r))
    ensures forall i, j :: 0 <= i < |r.experience| && 0 <= j < |r.experience[i].achievements| ==>
              Occurs(r.experience[i].achievements[j], Render(r))
    ensures Occurs(r.education.degree, Render(r)) && Occurs(r.education.year, Render(r))
    ensures forall i :: 0 <= i < |r.skills| ==> Occurs(r.skills[i], Render(r))
  {
    var h, x, ed, sk := Header(r), Join(r.experience, EntryText), EducationBlock(r.education), Bullets(r.skills);
    HeaderMentions(r);
    forall y | y == r.name || y == r.contactInfo
      ensures Occurs(y, Render(r))
    {
      OccursLeft(y, h, x);
      OccursLeft(y, h + x, ed);
      OccursLeft(y, h + x + ed, sk);
    }
    forall i, y | 0 <= i < |r.experience| && Occurs(y, EntryText(r.experience[i]))
      ensures Occurs(y, Render(r))
    {
      JoinMentions(r.experience, i, EntryText, y);
      OccursRight(y, h, x);
      OccursLeft(y, h + x, ed);
      OccursLeft(y, h + x + ed, sk);
    }
    forall i | 0 <= i < |r.experience|
      ensures Occurs(r.experience[i].company, EntryText(r.experience[i]))
      ensures Occurs(r.experience[i].jobTitle, EntryText(r.experience[i]))
      ensures Occurs(r.experience[i].dates, EntryText(r.experience[i]))
      ensures forall j :: 0 <= j < |r.experience[i].achievements| ==>
                Occurs(r.experience[i].achievements[j], EntryText(r.experience[i]))
    {
      EntryMentions(r.experience[i]);
    }
    EducationMentions(r.education);
    forall y | y == r.education.degree || y == r.education.year
      ensures Occurs(y, Render(r))
    {
      OccursRight(y, h + x, ed);
      OccursLeft(y, h + x + ed, sk);
    }
    forall i | 0 <= i < |r.skills|
      ensures Occurs(r.skills[i], Render(r))
    {
      BulletMentions(r.skills, i);
      OccursRight(r.skills[i], h + x + ed, sk);
    }
  }
}
