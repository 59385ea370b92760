# Intelli-CV resume renderer, modelled in Dafny

Intelli-CV is a one-page Streamlit client. It sends a resume file and a job
description to a backend, receives an optimized resume as JSON, checks it, and
renders it twice: as markdown on screen (`format_resume`) and as a
downloadable word-processing document (`generate_docx`).

This project models the three pieces of `frontend.py` that carry logic:

- **The submit handler after a successful request** (module `Submit`,
  `submit.dfy`). It takes the response's `optimized_resume` field, or the text
  `"{}"` when the field is absent. It decodes the field when it is text, and
  a decode failure ends the submission. It then checks the keys `name`,
  `contact_info`, `experience`, `education` and `skills` in that order, and
  the first absent key ends the submission with an error naming it. Only then
  does it render. `st.stop()` becomes an early return of an `Outcome` value.
  JSON decoding is a `Decoder` parameter: a function from text to a decoded
  object, or `None` when the text is not JSON.
- **`format_resume`** (module `Markdown`, `markdown.dfy`). A method with the
  source's loops appends to a string. It is proved equal to the function
  `Render`, and lemmas about `Render` give the layout: the header, each entry
  followed immediately by its achievement lines, the education block, the
  skill lines, and nothing after the last skill line.
- **`generate_docx`, paragraph structure** (module `Docx`, `docx.dfy`). A
  `Document` class holds the list of paragraphs that the method appends to.
  Each paragraph has a style (`Title`, `Normal`, `Heading1`, `ListBullet`)
  and a sequence of runs; a run has a text and a bold flag. The method is
  proved equal to the function `Paragraphs`. Lemmas give the paragraph count
  and the texts of each style and of the bold paragraphs, in order.

Supporting modules:

- `JsonValue` (`json.dfy`): decoded JSON values.
- `Resume` (`resume.dfy`): the typed `ResumeRecord`, the required keys, and
  the reading of a validated object into a record.
- `Sequences` (`sequences.dfy`): `Join`, which concatenates one piece per
  element, and the lemmas both renderers rest on.

The document has six paragraphs of its own: the title, the contact line and
three headings, plus the bold education line (`frontend.py` lines 34, 35, 37,
47, 48, 52). So the count is six, plus the number of entries, achievements and skills. A new python-docx document is taken to start with an empty body.

## Model

| member | source | states |
|---|---|---|
| `Resume.RecordRoundTrip` | frontend.py:91-99 | the object a backend sends for a record has every required key, has the expected shapes, and reads back as that same record: validation and reading lose nothing |
| `Markdown.FormatResume` | frontend.py:7-29 | the loops build exactly `Render(r)`: header, then per entry its heading and achievement lines, then the education block, then the skill lines |
| `Markdown.AppendBullets` | frontend.py:26-27 | the bullet loop appends exactly one `"- " + item + "\n"` line per item, in input order |
| `Markdown.MarkdownEntry` | frontend.py:15-18 | entry i comes after the entries before it and before those after it; its heading line is followed immediately by its achievement lines |
| `Markdown.MarkdownSkillLine` | frontend.py:24-27 | the i-th skill line follows the education block and the lines of the earlier skills, and precedes those of the later skills |
| `Markdown.MarkdownEnding` | frontend.py:20-29 | the text ends with the skills heading followed by the skill lines; with no skills it ends with the heading, otherwise with the last skill's line |
| `Markdown.MarkdownMentionsAll` | frontend.py:8-27 | the name, the contact line, every company, title, date range and achievement, the degree, the year and every skill occur in the text |
| `Docx.Document.constructor` | frontend.py:33 | a new document has no paragraphs |
| `Docx.Document.AddParagraph` | frontend.py:34-35 | appends one paragraph of the given style holding the text as one plain run (no run for empty text), and changes nothing else |
| `Docx.Document.AddRun` | frontend.py:40-41 | appends a run with the given text and bold flag to the last paragraph, and changes nothing else |
| `Docx.AddBoldLine` | frontend.py:39-41 | an empty default-style paragraph followed by one bold run leaves exactly one bold paragraph holding the text |
| `Docx.AddBullets` | frontend.py:53-54 | the bullet loop appends one `List Bullet` paragraph per item, in input order |
| `Docx.GenerateDocx` | frontend.py:32-54 | the document's paragraphs are exactly `Paragraphs(r)`: title, contact, heading, per entry a bold line and its bullets, then the education heading, the bold education line, the skills heading and the skill bullets |
| `Docx.ParagraphCount` | frontend.py:34-54 | the document has six paragraphs of its own plus one per entry, one per achievement and one per skill |
| `Docx.BulletParagraphTexts` | frontend.py:44-54 | the `List Bullet` paragraphs hold the achievements entry by entry, then the skills, all in input order, and nothing else |
| `Docx.HeadingTexts` | frontend.py:37-52 | the `Heading1` paragraphs are "Professional Experience", "Education" and "Skills", in that order |
| `Docx.TitleTexts` | frontend.py:34 | the only `Title` paragraph is the name |
| `Docx.BoldParagraphTexts` | frontend.py:38-50 | the bold paragraphs are "company - job_title (dates)" for each entry in order, then "degree - year" |
| `Docx.NormalParagraphTexts` | frontend.py:35-50 | the default-style paragraphs are the contact line, the entry lines in order, and the education line |
| `Docx.ParagraphsEntry` | frontend.py:38-45 | entry i's bold line follows the paragraphs of the earlier entries and is followed immediately by one bullet per achievement |
| `Submit.FirstMissing` | frontend.py:91-95 | reports nothing exactly when every key is present; otherwise reports an absent key all of whose predecessors are present |
| `Submit.CheckRequiredKeys` | frontend.py:91-95 | the loop with early exit returns the first required key absent from the object, or nothing when all five are present |
| `Submit.ReportsFirstAbsent` | frontend.py:91-95 | when key i is absent and all keys before it are present, key i is the one reported, whatever follows it |
| `Submit.ReportsOnlyMissingKey` | frontend.py:91-95 | an object lacking exactly one required key is reported as lacking that key and no other |
| `Submit.HandleResponse` | frontend.py:80-101 | the handler defaults the payload, decodes it, validates it and only then renders, with the outcome `Handle` gives |
| `Submit.Outcomes` | frontend.py:83-95 | a decode failure exactly when decoding fails; a missing-key error exactly when a required key is absent, naming the first absent one; rendering exactly when all five are present |
| `Submit.IllShapedStopsAtMissingKey` | frontend.py:91-95 | an object `{"name": 5}` is covered and stops naming `contact_info`, since the check looks only at which keys are present, not at their values |
| `Submit.UndecodableStops` | frontend.py:83-88 | a textual payload that does not decode ends the submission with the parse error, before validation or rendering |
| `Submit.AbsentPayloadMissesName` | frontend.py:80-95 | with no `optimized_resume` field, the default `"{}"` decodes to the empty object and the submission stops naming `name` |
| `Submit.RecordIsRendered` | frontend.py:80-101 | a payload holding a record, as an object or as decodable text, is rendered as that record's markdown and paragraphs |

## Left out

- The Streamlit page itself: title, file uploader, text area, button, `st.write`, `st.error`, `st.subheader`, `st.markdown` and the download button with its file name and MIME type (lines 61-67, 77, 87, 94, 98-107). These are user-interface calls.
- The check that both inputs are present (line 68), the multipart POST and the status-code test (lines 69-75). These are network I/O against an external backend. The model starts from a received response body.
- `json.loads` (line 85) is the `Decoder` parameter, not a JSON parser. The decoder yields an object or a failure. Text that decodes to some other JSON value (a list, a string, a number) is not covered.
- Submit.HandleResponse: requires `Admissible`. The payload must be text or an object. A decoded object that has all five required keys must also have the shapes the renderers index into: strings, a list of entry objects with `company`, `job_title`, `dates` and a list of strings `achievements`, an object with `degree` and `year`, and a list of strings. Objects that lack a key are covered whatever their other values are, because they stop at the key check. The source checks only top-level keys, so the excluded inputs do not all fail. A missing field inside an entry or `education`, or a list holding non-objects, raises an exception in the renderers. But a `skills` or `achievements` value that is a string or an object is iterated by the loops at lines 17, 26, 44 and 53, so both renderers succeed with one bullet per character or per key. A numeric `dates` or `year` is converted by the f-strings at lines 16, 22, 40 and 49. The model does not capture this per-character or per-key bulleting, nor the numeric conversion.
- Submit.Outcomes: stated for admissible responses only, for the same reason. The exclusion affects only objects that have every required key.
- Python's `str()` conversion of non-string values inside f-strings (a numeric year, say) is not modelled; the record's fields are strings, and such inputs fall outside `Admissible` as said above.
- python-docx internals: the default template, the font size `Pt(12)` on entry lines (line 42), `doc.save` into a `BytesIO` and `seek(0)` (lines 56-59). Only the list of paragraphs is kept. Styles are only names, and a run's bold flag is two-valued: python-docx's "inherit" is `false`.
- Docx.Document.AddRun: a paragraph is addressed as the last one added, not through a separate paragraph object.
- Idempotence of the renderers is not stated as a lemma. `Render` and `Paragraphs` are functions of the record, and both methods are proved equal to them.
