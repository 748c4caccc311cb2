# Resume builder core in Dafny

This project models the core of a browser-based resume builder. It has three parts, all built on one record type, `ResumeData`.

- **The preview.** `ResumePreview` renders the record as an A4 page:
  - a header with the name, the contact line and the links;
  - then one titled section per visible section descriptor, in the order of `data.sections`.
- **The LaTeX serialiser.** `generateLatex` writes the same record as a LaTeX document, using its own escaping rules.
- **The editor.** `ResumeBuilder` edits the record. It can:
  - update, add and delete entries;
  - reorder, hide and rename sections;
  - turn a bullet textarea into highlights;
  - place the links of the rendered page on the pages of the exported PDF;
  - derive the download file name;
  - strip the markdown stars from the cover letter.

The Dafny modules follow the program's files:

| module | file | what it holds |
|---|---|---|
| `ResumeTypes` | resume_types.dfy | the record of `src/types/resume.ts`, the eight section kinds and the `switch` on section ids |
| `Text` | text.dfy | JavaScript string behaviour the core relies on: `trim`, `\s`, `toUpperCase`, `split`/`join`, `replace` with a global pattern |
| `Seqs` | seqs.dfy | `map`, `filter`, removal by position, swapping neighbours |
| `Preview` | preview.dfy | `normalizeUrl`, the header and the section-by-section body of the preview |
| `Latex` | latex.dfy | `escape`, `getLinkDisplay` and `generateLatex` |
| `Editor` | editor.dfy | `updateItem`, `addItem`, the delete filters and the textarea round trip; the class `ResumeEditor` holds the record and changes its section array in place |
| `Export` | export.dfy | the arithmetic of `addLinksToPdf`, the PDF file name and the plain-text cover letter |

**The preview is a pure function.**
- Its result is an abstract page made of rows, lines, bullet lists and anchors (`Preview.Compose`), not HTML.
- One group of blocks per entry models the unit the renderer keeps together across page breaks.

**`generateLatex` appends to a string.**
- It accumulates into `content` section by section and entry by entry.
- In Dafny it is a method with a loop over the descriptors and a loop over each section's entries (`Latex.GenerateLatex`, `Latex.AppendSection`, `Latex.AppendAll`).
- It is proved equal to the recursive specification `Latex.DocumentLatex`, and the lemmas are stated about that function.

**The editor is a class.**
- The section descriptors sit in an `array`, which the move, toggle and rename buttons change in place.
- The other fields are a `ResumeData` value that each edit replaces.
- Every method states the whole new record in terms of the old one, so it also says that nothing else changes.

**How JavaScript behaviour is modelled:**
- `trim` and the `\s` class use the ECMAScript white-space and line-terminator set.
- The `/i` flag on `^https?:\/\/` and `^www\.` is ASCII case-insensitive.
- `toUpperCase` maps `a`–`z` only.
- `split('\n')` of the empty string is `[""]`.
- `%` on numbers is the truncated remainder (`Export.JsRem`).
- An empty string counts as false.

**Points of the code that are easy to misread:**
- **Unlabelled header link text.** The code (`src/components/ResumePreview.tsx:87`) removes only a leading lower-case `http://` or `https://`. So `www.` is kept and an upper-case scheme is shown (`Preview.StripSchemeRules`).
- **Page of a PDF link.** The code converts pixels with a fixed factor of 0.264583 mm and computes the page as `1 + Math.floor(yTotal / 272)`, with no tie-break at a page boundary (`src/pages/ResumeBuilder.tsx:175-206`, `Export.PlaceLink`).
- **Letter case.** In the preview, the name, the section headings and the project titles are upper-case through CSS only (`src/components/ResumePreview.tsx:50,155`, `src/components/ResumeSection.tsx:5`); the rendered text is unchanged. The LaTeX serialiser upper-cases the name and the section titles in the text itself.
- **Placement order.** The code places the links in the document order of the anchors (`src/pages/ResumeBuilder.tsx:183`, `Export.AddLinksToPdf`).

**Behaviour of the code, stated as proved lemmas:**
- Escaping a backslash yields `\textbackslash\{\}`. The braces added by the first pass are escaped by the second pass (`Latex.EscapeLoneBackslash`).
- The LaTeX name is upper-cased after escaping, so escape commands turn into upper-case command names: a backslash anywhere in the name comes out as `\TEXTBACKSLASH\{\}` (`Latex.NameUppercasesEscapes`).
- The serialiser writes hrefs exactly as typed, unlike the preview (`Latex.HrefIsRaw`).
- It has no `certifications` case (`Latex.LatexShownMatchesPreview`).
- A link above the top of the resume would land on page 0 (`Export.PageAboveTop`).

## Model

| member | source | states |
|---|---|---|
| ResumeTypes.KindOf | src/components/ResumePreview.tsx:101-255 | a recognised section id maps to the kind whose id it is; any other id is unknown |
| ResumeTypes.KindIdRoundTrip | src/utils/latexGenerator.ts:57-162 | every one of the eight kinds is recognised from its own id, so no two share an id and no case is unreachable |
| Preview.NormalizeUrl | src/components/ResumePreview.tsx:5-16 | `""` stays `""`; a URL with an `http(s)://` scheme in any letter case is returned unchanged; the input is always a suffix of the result; every non-empty result has a scheme |
| Preview.NormalizeUrlPrefix | src/components/ResumePreview.tsx:12-15 | a scheme-less URL starting with `www.` (any case) gets `https://`, any other gets `https://www.` |
| Preview.NormalizeUrlIdempotent | src/components/ResumePreview.tsx:5-16 | normalising twice is normalising once |
| Preview.InterleaveLayout | src/components/ResumePreview.tsx:89-91 | item k sits at position 2k, a separator sits between neighbours and never after the last; the length is 2n-1 |
| Preview.HeaderLinksLayout | src/components/ResumePreview.tsx:72-93 | header link k is the anchor with href `normalizeUrl(url)` and text label-or-stripped-URL, and the `\|` separators lie exactly between consecutive links |
| Preview.StripSchemeRules | src/components/ResumePreview.tsx:87 | only a leading lower-case `https://` or `http://` is removed; `www.` and any other prefix are kept |
| Preview.NonBlankExactly | src/components/ResumePreview.tsx:126 | the kept highlights are exactly the ones that are not empty or white space, no more than the input |
| Preview.NonBlankAppend | src/components/ResumePreview.tsx:172 | dropping blank highlights keeps the others in their order |
| Preview.NonBlankDropsBlank | src/components/ResumePreview.tsx:194 | a blank highlight anywhere is dropped and the rest close up |
| Preview.NonBlankKeepsAll | src/components/ResumePreview.tsx:126 | highlights without a blank line pass unchanged |
| Preview.ProjectRight | src/components/ResumePreview.tsx:157-167 | the right element is an anchor exactly when `liveLink` is non-empty, with the normalised URL (which has a scheme) as href; otherwise it is the subtitle |
| Preview.ProjectLinkTextOfBareDomain | src/components/ResumePreview.tsx:165 | without a label, a scheme-less project link shows as typed, with `www.` added in front unless it starts with `www.` |
| Preview.ProjectViewShape | src/components/ResumePreview.tsx:152-176 | a project is its title row, then the parenthesised tech stack only when non-empty, then its non-blank highlights |
| Preview.RenderSection | src/components/ResumePreview.tsx:98-255 | a descriptor renders a section exactly when it is visible, its id is known and its data is present, headed by the descriptor's id and title |
| Preview.BodyFollowsSections | src/components/ResumePreview.tsx:98-101 | the rendered sections are the shown descriptors one for one in `data.sections` order, each with its title and its kind's entries in list order |
| Preview.BodyAppend | src/components/ResumePreview.tsx:98 | the body of two runs of descriptors is the concatenation of their bodies |
| Preview.HiddenSectionVanishes | src/components/ResumePreview.tsx:99 | hiding a descriptor removes its section and leaves the other sections unchanged and in order |
| Preview.StripScheme | src/components/ResumePreview.tsx:87 | `replace(/^https?:\/\//, '')`; its three cases are proved in `Preview.StripSchemeRules` |
| Preview.LinkAnchor | src/components/ResumePreview.tsx:74-88 | one header link: href `normalizeUrl(url)`, text the label when non-empty, else `StripScheme(url)` |
| Preview.HeaderLinks | src/components/ResumePreview.tsx:72-93 | the link anchors with a `\|` between neighbours; its layout is proved in `Preview.HeaderLinksLayout` |
| Preview.Header | src/components/ResumePreview.tsx:42-95 | the header view: the name, then location, phone and the `mailto:` anchor separated by `\|`, then the link line |
| Preview.ExperienceView | src/components/ResumePreview.tsx:116-130 | company and year, position and location, then the non-blank highlights |
| Preview.SkillView | src/components/ResumePreview.tsx:140-143 | the category with a colon, then the skills |
| Preview.ProjectView | src/components/ResumePreview.tsx:153-176 | title row, optional tech line, highlights; its shape is proved in `Preview.ProjectViewShape` |
| Preview.FreelanceView | src/components/ResumePreview.tsx:185-198 | project and duration, role, then the non-blank highlights |
| Preview.CertificationView | src/components/ResumePreview.tsx:208-215 | name, a dash and the issuer, with the year on the right |
| Preview.EducationView | src/components/ResumePreview.tsx:227-236 | school and year, then `degree in major` with the result on the right |
| Preview.OtherView | src/components/ResumePreview.tsx:246-249 | the title with a colon, then the description |
| Preview.Entries | src/components/ResumePreview.tsx:102-253 | the entries of one section kind, one view per list entry in list order; the summary is one paragraph |
| Preview.Body | src/components/ResumePreview.tsx:98-257 | `data.sections.map` with the `null`s dropped; proved in `Preview.BodyFollowsSections` and `Preview.BodyAppend` |
| Preview.Compose | src/components/ResumePreview.tsx:19-260 | the page: the header, then the body over `data.sections` |
| Text.TrimEmptyIffBlank | src/components/ResumePreview.tsx:126 | `trim()` is empty exactly when every character is white space |
| Text.TrimOneEach | src/utils/latexGenerator.ts:169 | when the text has exactly one white-space character at each end, `trim` removes just those two |
| Text.SplitJoin | src/pages/ResumeBuilder.tsx:409 | splitting the join of newline-free pieces gives the pieces back |
| Text.JoinSplit | src/pages/ResumeBuilder.tsx:409 | joining the split of a text gives the text back |
| Text.Trim | src/components/ResumePreview.tsx:126 | `trim()` over the ECMAScript white-space set; proved in `Text.TrimEmptyIffBlank` and `Text.TrimOneEach` |
| Text.ToUpper | src/utils/latexGenerator.ts:42 | `toUpperCase()` on ASCII letters, one character for one |
| Text.Split | src/pages/ResumeBuilder.tsx:409 | `split` on a one-character separator; never empty, and `""` gives `[""]` |
| Text.Join | src/pages/ResumeBuilder.tsx:409 | `join` with a separator between neighbours; inverse of `Split` by `Text.SplitJoin` and `Text.JoinSplit` |
| Latex.EscapeCharwise | src/utils/latexGenerator.ts:5-10 | the five ordered passes act character by character as one table: `\` to `\textbackslash\{\}`, `&%$#_{}` prefixed by `\`, `~` and `^` to their `\textascii…{}` commands, `"` to `''` |
| Latex.EscapeSingle | src/utils/latexGenerator.ts:5-10 | the chain applied to one character is that character's table entry |
| Latex.EscapeAppend | src/utils/latexGenerator.ts:5-10 | escaping commutes with concatenation |
| Latex.EscapeLoneBackslash | src/utils/latexGenerator.ts:6-7 | a lone backslash becomes `\textbackslash\{\}`: the braces from the first pass are escaped by the second |
| Latex.EscapePlain | src/utils/latexGenerator.ts:5-10 | text with none of the ten special characters is emitted unchanged |
| Latex.EscapeEmptyIff | src/utils/latexGenerator.ts:3-4 | `escape` gives `""` for the empty string and only for it |
| Latex.EscapeLeavesNoRawTildeCaretQuote | src/utils/latexGenerator.ts:8-10 | no raw `~`, `^` or `"` survives escaping |
| Latex.LinkDisplay | src/utils/latexGenerator.ts:13-18 | a non-empty label wins, escaped; otherwise `LinkedIn` exactly when the URL contains `linkedin.com`, else `GitHub` exactly when it contains `github.com`, else `Live Link` |
| Latex.BreakLine | src/utils/latexGenerator.ts:44 | the `\\` line break is emitted exactly when there are links |
| Latex.HrefIsRaw | src/utils/latexGenerator.ts:45 | each header link is `\href{url}{…}` with the URL as typed, which differs from the preview's normalised href for every non-empty scheme-less URL |
| Latex.UpperEscapeAround | src/utils/latexGenerator.ts:42 | escaping and then upper-casing a text made of three parts gives the three parts escaped and upper-cased on their own |
| Latex.NameBackslashAnywhere | src/utils/latexGenerator.ts:42 | for every name with a backslash in it, the escaped and upper-cased name is the part before it, then `\TEXTBACKSLASH\{\}`, then the part after it |
| Latex.NameUppercasesEscapes | src/utils/latexGenerator.ts:42 | for every name `a` + backslash + `b`, the name line holds the escaped, upper-cased `a`, then `\TEXTBACKSLASH\{\}`, then the escaped, upper-cased `b` |
| Latex.SectionText | src/utils/latexGenerator.ts:60-61 | every section block begins with `\section*{` and the upper-cased title |
| Latex.SectionLatex | src/utils/latexGenerator.ts:54-162 | a descriptor contributes text exactly when it is visible, of a kind with a case and with data present, and that text starts with its heading |
| Latex.AppendAll | src/utils/latexGenerator.ts:72-81 | the per-entry `forEach` appends every entry text in order |
| Latex.AppendSection | src/utils/latexGenerator.ts:57-161 | one `case` appends exactly that descriptor's section text |
| Latex.GenerateLatex | src/utils/latexGenerator.ts:20-169 | the accumulated document equals the specification `DocumentLatex`: trimmed header, every descriptor's text in order, footer |
| Latex.SectionsLatexAppend | src/utils/latexGenerator.ts:54-163 | the content of two runs of descriptors is the concatenation of their contents |
| Latex.SectionsLatexOfShown | src/utils/latexGenerator.ts:55-162 | only the shown descriptors contribute, each once and in `data.sections` order |
| Latex.LatexShownMatchesPreview | src/utils/latexGenerator.ts:57-162 | the serialiser shows exactly the descriptors the preview shows, minus `certifications` |
| Latex.HiddenSectionEmitsNothing | src/utils/latexGenerator.ts:55 | hiding a descriptor removes its block and changes nothing else |
| Latex.SectionsLatexSkips | src/utils/latexGenerator.ts:55 | a descriptor that is not shown contributes nothing wherever it sits |
| Latex.RoleTextForm | src/utils/latexGenerator.ts:75 | ` -- location` follows the position only when the location is non-empty |
| Latex.TechTextForm | src/utils/latexGenerator.ts:107 | the tech stack is parenthesised only when non-empty, and is then escaped |
| Latex.ItemLinesDropBlank | src/utils/latexGenerator.ts:77 | a blank highlight adds no `\item` line and leaves the others in order |
| Latex.ItemLinesAllShown | src/utils/latexGenerator.ts:109 | highlights without blank lines give one `\item` line each, in order |
| Latex.DocumentShape | src/utils/latexGenerator.ts:165-169 | the trimmed document begins with `\documentclass[a4paper,11pt]{article}` and ends with `\end{document}` |
| Latex.Escape | src/utils/latexGenerator.ts:3-11 | `escape`: `""` for the empty string, else the five passes in order; proved equal to the table in `Latex.EscapeCharwise` |
| Latex.EscapeChar | src/utils/latexGenerator.ts:5-10 | the per-character table the five passes amount to |
| Latex.Href | src/utils/latexGenerator.ts:45 | `\href{url}{display}` with the raw URL and `getLinkDisplay`'s text |
| Latex.HeaderHref | src/utils/latexGenerator.ts:45 | one header link as an `\href`, its label as the display label |
| Latex.NameLine | src/utils/latexGenerator.ts:42 | the name line: the name escaped, then upper-cased, in `\huge\bfseries` |
| Latex.ContactLine | src/utils/latexGenerator.ts:43 | escaped location and phone, then `\href{mailto:email}` with the raw address as target and the escaped one as text |
| Latex.LinksLine | src/utils/latexGenerator.ts:45 | the header links as `\href`s joined by ` \| ` |
| Latex.HeaderLatex | src/utils/latexGenerator.ts:21-49 | the preamble, then the centred block with name, contact, break and link lines, then `\vspace{10pt}` |
| Latex.SectionHead | src/utils/latexGenerator.ts:61 | `\section*{TITLE}` with the title upper-cased and not escaped |
| Latex.ItemLines | src/utils/latexGenerator.ts:77 | one `\item` per non-blank highlight, escaped, joined by a newline and four spaces |
| Latex.ExperienceLatex | src/utils/latexGenerator.ts:73-80 | the experience template: company and year in bold, the role line in italics, the item list |
| Latex.SkillLatex | src/utils/latexGenerator.ts:92 | `\item \textbf{category:} skills`, both escaped |
| Latex.ProjectLatex | src/utils/latexGenerator.ts:104-112 | the project template: title, the link or the subtitle, the tech line, the item list |
| Latex.FreelanceLatex | src/utils/latexGenerator.ts:123-130 | the freelance template: project and duration in bold, the role in italics, the item list |
| Latex.EducationLatex | src/utils/latexGenerator.ts:141-145 | the education template: school and year in bold, `degree in major` in italics, the result |
| Latex.OtherLatex | src/utils/latexGenerator.ts:157 | `\item \textbf{title:} description`, both escaped |
| Latex.EntryTexts | src/utils/latexGenerator.ts:57-162 | the texts a section appends, one per list entry in list order; none for `certifications` |
| Latex.DocumentLatex | src/utils/latexGenerator.ts:20-169 | `(header + content + footer).trim()`, with the content of every descriptor in order; its shape is proved in `Latex.DocumentShape` |
| Seqs.MapSeq | src/components/ResumePreview.tsx:115 | `map` keeps the length, and position i holds f of input i |
| Seqs.Filter | src/components/ResumePreview.tsx:126 | `filter` keeps exactly the passing elements |
| Seqs.FilterCounts | src/pages/ResumeBuilder.tsx:337 | each passing value keeps its number of occurrences; a failing value drops to zero |
| Seqs.RemoveAt | src/pages/ResumeBuilder.tsx:386 | removing position i shifts later entries down by one and keeps earlier ones; an index out of range changes nothing |
| Seqs.SwapAdjacentIsPermutation | src/pages/ResumeBuilder.tsx:353 | the swap exchanges the two neighbours, touches nothing else and is a permutation |
| Editor.UpdateById | src/pages/ResumeBuilder.tsx:82-87 | entries whose id matches are merged, all others stay as they were, and the length and order are kept |
| Editor.UpdateByIdKeepsIds | src/pages/ResumeBuilder.tsx:85 | an update that keeps ids keeps the list of ids |
| Editor.UpdateByIdNoMatch | src/pages/ResumeBuilder.tsx:85 | an id no entry carries changes nothing |
| Editor.Prepend | src/pages/ResumeBuilder.tsx:89-92 | the new entry comes first and the old list follows unchanged |
| Editor.DeleteById | src/pages/ResumeBuilder.tsx:402 | no entry with the id survives, and every other entry does |
| Editor.DeleteByIdCounts | src/pages/ResumeBuilder.tsx:421 | every other entry keeps its number of occurrences, and the deleted id's entries drop to zero |
| Editor.DeleteByIdAppend | src/pages/ResumeBuilder.tsx:439 | the survivors keep their order |
| Editor.BulletsRoundTrip | src/pages/ResumeBuilder.tsx:409 | `split(join(hs, "\n"), "\n") == hs` for non-empty, newline-free highlights |
| Editor.TextRoundTrip | src/pages/ResumeBuilder.tsx:427 | any textarea text survives the split into bullets and the join back |
| Editor.ExperienceBulletsUnchanged | src/pages/ResumeBuilder.tsx:409 | re-sending an unchanged bullets textarea leaves the experience as it was |
| Editor.EditsKeepIds | src/pages/ResumeBuilder.tsx:404-479 | no field edit of an entry form changes the entry's id |
| Editor.BlankBulletsText | src/pages/ResumeBuilder.tsx:398 | a new entry's single blank bullet shows as an empty textarea, and an empty textarea gives back that one blank bullet |
| Editor.MoveUpThenDown | src/pages/ResumeBuilder.tsx:351-355 | moving up exchanges index-1 and index, leaves the rest alone, is a permutation, and moving down from the new position restores the list |
| Editor.MoveDownThenUp | src/pages/ResumeBuilder.tsx:356-360 | moving down exchanges index and index+1, leaves the rest alone, is a permutation, and moving up from the new position restores the list |
| Editor.ToggleTwice | src/pages/ResumeBuilder.tsx:361-365 | only that descriptor's visibility flips, its id and title stay, and toggling twice restores the list |
| Editor.BulletsText | src/pages/ResumeBuilder.tsx:409 | the textarea value of a bullet list: the bullets joined by newlines |
| Editor.BulletsOf | src/pages/ResumeBuilder.tsx:409 | the bullets of a textarea value: the text split at newlines |
| Editor.ApplyLinkEdit | src/pages/ResumeBuilder.tsx:336 | the link input sets the URL |
| Editor.ApplyExperienceEdit | src/pages/ResumeBuilder.tsx:404-409 | each experience input sets its own field; the bullets come from the textarea split at newlines |
| Editor.ApplyProjectEdit | src/pages/ResumeBuilder.tsx:422-427 | each project input sets its own field; the bullets come from the textarea split at newlines |
| Editor.ApplyFreelanceEdit | src/pages/ResumeBuilder.tsx:441-445 | each freelance input sets its own field; the bullets come from the textarea split at newlines |
| Editor.ApplyEducationEdit | src/pages/ResumeBuilder.tsx:459-463 | each education input sets its own field |
| Editor.ApplyOtherEdit | src/pages/ResumeBuilder.tsx:478-479 | each input of an other entry sets its own field |
| Editor.BlankLink | src/pages/ResumeBuilder.tsx:332 | the template of a new link: empty URL and label under the fresh id |
| Editor.BlankSkill | src/pages/ResumeBuilder.tsx:382 | the template of a new skill group: empty category and skills |
| Editor.BlankExperience | src/pages/ResumeBuilder.tsx:398 | the template of a new experience: empty fields and one blank bullet |
| Editor.BlankProject | src/pages/ResumeBuilder.tsx:417 | the template of a new project: empty fields, no label and one blank bullet |
| Editor.BlankFreelance | src/pages/ResumeBuilder.tsx:435 | the template of a new freelance entry: empty fields and one blank bullet |
| Editor.BlankEducation | src/pages/ResumeBuilder.tsx:453 | the template of a new education entry: empty fields |
| Editor.BlankOther | src/pages/ResumeBuilder.tsx:472 | the template of a new other entry: empty fields |
| Editor.SetField | src/pages/ResumeBuilder.tsx:324-327 | the four identity inputs and the summary textarea (line 377), each setting its own field |
| Editor.MoveUpSeq | src/pages/ResumeBuilder.tsx:351-355 | the descriptor list with `index` swapped with its upper neighbour; proved in `Editor.MoveUpThenDown` |
| Editor.MoveDownSeq | src/pages/ResumeBuilder.tsx:356-360 | the descriptor list with `index` swapped with its lower neighbour; proved in `Editor.MoveDownThenUp` |
| Editor.ToggleSeq | src/pages/ResumeBuilder.tsx:361-365 | the descriptor list with the visibility at `index` flipped; proved in `Editor.ToggleTwice` |
| Editor.ResumeEditor.constructor | src/pages/ResumeBuilder.tsx:17-20 | the editor starts from the given record |
| Editor.ResumeEditor.SetText | src/pages/ResumeBuilder.tsx:324-327 | the chosen identity field or the summary takes the typed value, and nothing else changes |
| Editor.ResumeEditor.AddLink | src/pages/ResumeBuilder.tsx:332 | a blank link with the fresh id is prepended, and nothing else changes |
| Editor.ResumeEditor.UpdateLink | src/pages/ResumeBuilder.tsx:336 | the URL of the links with that id is set, and nothing else changes |
| Editor.ResumeEditor.DeleteLink | src/pages/ResumeBuilder.tsx:337 | the links with that id are removed, and nothing else changes |
| Editor.ResumeEditor.AddSkill | src/pages/ResumeBuilder.tsx:382 | a blank skill group is prepended, and nothing else changes |
| Editor.ResumeEditor.SetSkillCategory | src/pages/ResumeBuilder.tsx:388 | the category of the group at that position is set, and nothing else changes |
| Editor.ResumeEditor.SetSkillSkills | src/pages/ResumeBuilder.tsx:389 | the skills text of the group at that position is set, and nothing else changes |
| Editor.ResumeEditor.DeleteSkillAt | src/pages/ResumeBuilder.tsx:386 | the group at that position is removed, and nothing else changes |
| Editor.ResumeEditor.AddExperience | src/pages/ResumeBuilder.tsx:398 | a blank experience with one empty bullet and the fresh id is prepended |
| Editor.ResumeEditor.UpdateExperience | src/pages/ResumeBuilder.tsx:404-409 | the edit is merged into the experiences with that id, and nothing else changes |
| Editor.ResumeEditor.DeleteExperience | src/pages/ResumeBuilder.tsx:402 | the experiences with that id are removed, and nothing else changes |
| Editor.ResumeEditor.AddProject | src/pages/ResumeBuilder.tsx:417 | a blank project with one empty bullet and the fresh id is prepended |
| Editor.ResumeEditor.UpdateProject | src/pages/ResumeBuilder.tsx:422-427 | the edit is merged into the projects with that id, and nothing else changes |
| Editor.ResumeEditor.DeleteProject | src/pages/ResumeBuilder.tsx:421 | the projects with that id are removed, and nothing else changes |
| Editor.ResumeEditor.AddFreelance | src/pages/ResumeBuilder.tsx:435 | a blank freelance entry with one empty bullet and the fresh id is prepended |
| Editor.ResumeEditor.UpdateFreelance | src/pages/ResumeBuilder.tsx:441-445 | the edit is merged into the freelance entries with that id, and nothing else changes |
| Editor.ResumeEditor.DeleteFreelance | src/pages/ResumeBuilder.tsx:439 | the freelance entries with that id are removed, and nothing else changes |
| Editor.ResumeEditor.AddEducation | src/pages/ResumeBuilder.tsx:453 | a blank education entry with the fresh id is prepended |
| Editor.ResumeEditor.UpdateEducation | src/pages/ResumeBuilder.tsx:459-463 | the edit is merged into the education entries with that id, and nothing else changes |
| Editor.ResumeEditor.DeleteEducation | src/pages/ResumeBuilder.tsx:457 | the education entries with that id are removed, and nothing else changes |
| Editor.ResumeEditor.AddOther | src/pages/ResumeBuilder.tsx:472 | a blank other entry with the fresh id is prepended |
| Editor.ResumeEditor.UpdateOther | src/pages/ResumeBuilder.tsx:478-479 | the edit is merged into the other entries with that id, and nothing else changes |
| Editor.ResumeEditor.DeleteOther | src/pages/ResumeBuilder.tsx:476 | the other entries with that id are removed, and nothing else changes |
| Editor.ResumeEditor.MoveUp | src/pages/ResumeBuilder.tsx:351-355 | the section array becomes the move-up of its old contents, and nothing else changes |
| Editor.ResumeEditor.MoveDown | src/pages/ResumeBuilder.tsx:356-360 | the section array becomes the move-down of its old contents, and nothing else changes |
| Editor.ResumeEditor.ToggleVisibility | src/pages/ResumeBuilder.tsx:361-365 | only that descriptor's visibility flips in place |
| Editor.ResumeEditor.SetTitle | src/pages/ResumeBuilder.tsx:366-370 | only that descriptor's title is set in place |
| Export.PageDecomposition | src/pages/ResumeBuilder.tsx:199-206 | for yTotal ≥ 0: page ≥ 1, 10 ≤ yOnPage < 282, and (page-1)·272 + (yOnPage-10) = yTotal |
| Export.PageOfExample | src/pages/ResumeBuilder.tsx:202-206 | 280 mm lands on page 2 at 18 mm |
| Export.PageAboveTop | src/pages/ResumeBuilder.tsx:202-206 | a link just above the container's top gets page 0 and a position below the top margin, because `floor` and `%` round differently |
| Export.PageOf | src/pages/ResumeBuilder.tsx:202 | `1 + Math.floor(yTotal / contentHeight)` with a content height of 272 mm; proved in `Export.PageDecomposition` |
| Export.YOnPage | src/pages/ResumeBuilder.tsx:206 | `(yTotal % contentHeight) + marginTop` with JavaScript's truncating `%` |
| Export.PlaceLink | src/pages/ResumeBuilder.tsx:184-212 | a placement is made exactly when the anchor has an href; its page and y come from the top offset, and x, width and height are the pixel values times 0.264583 with no margin |
| Export.AddLinksToPdf | src/pages/ResumeBuilder.tsx:172-214 | the loop places the anchors with an href, in document order |
| Export.PlacementsCount | src/pages/ResumeBuilder.tsx:186 | one placement per anchor with an href and none for the others |
| Export.PlacementsOnPages | src/pages/ResumeBuilder.tsx:189-206 | every anchor at or below the container's top lands on a real page, inside its printed area |
| Export.Placements | src/pages/ResumeBuilder.tsx:183-213 | the placements of a run of anchors in document order; counted in `Export.PlacementsCount` |
| Export.CollapseWhitespace | src/pages/ResumeBuilder.tsx:223 | no white space is left in the file-name stem |
| Export.CollapseWord | src/pages/ResumeBuilder.tsx:223 | text without white space passes unchanged |
| Export.CollapseRun | src/pages/ResumeBuilder.tsx:223 | a whole run of white space, however long, becomes one `_` |
| Export.FileNameOfTwoWords | src/pages/ResumeBuilder.tsx:223 | two words separated by any white-space run give `first_last_Resume.pdf` |
| Export.PdfFileName | src/pages/ResumeBuilder.tsx:223 | the collapsed name followed by `_Resume.pdf`; proved in `Export.FileNameOfTwoWords` |
| Export.StripStars | src/pages/ResumeBuilder.tsx:240 | no `*` is left, and the text does not grow |
| Export.StripStarsCounts | src/pages/ResumeBuilder.tsx:511 | every other character keeps its number of occurrences |
| Export.StripStarsAppend | src/pages/ResumeBuilder.tsx:240 | the remaining characters keep their order |
| Export.StripStarsNone | src/pages/ResumeBuilder.tsx:240 | text without stars is unchanged |

## Left out

- The Gemini calls `handleOptimizeATS` and `handleGenerateCoverLetter` (src/pages/ResumeBuilder.tsx:94-162) are left out. They are network calls to an external service, and their merge of untrusted JSON is outside the model.
- jsPDF and the DOM are left out: `doc.html`, `querySelectorAll`, `getBoundingClientRect`, and hiding and restoring the page-break lines. The anchor boxes and the container's corner are parameters of `Export.AddLinksToPdf`, and each placement is returned instead of being passed to `pdf.setPage`/`pdf.link`.
- Numbers are `real`. IEEE rounding and the precision of 0.264583 are not modelled, and neither is the preview zoom `Math.min(1, w/794)`.
- Browser side effects are left out: the clipboard, the `mailto:` window, `alert`, the reload, and the HTML form of the cover letter with its `**` → `<b>` rewrite and `split('**')` display. Only the plain-text star removal is modelled.
- The admin flag in `localStorage`, the credential check and the choice between the two initial records are left out. The editor starts from any record given to its constructor.
- `Math.random` ids are left out: `addItem`'s fresh id is a parameter.
- CSS is left out: `uppercase` on the name, the section headings (`src/components/ResumeSection.tsx:5`) and the project titles, `break-inside-avoid`, fonts and spacing. The preview keeps the text as typed and groups each entry's blocks.
- Preview.Compose: renders to an abstract page rather than React elements. The `key` props and the `ResumeSection` wrapper markup are not modelled.
- Text.ToUpper: maps ASCII letters only. The full Unicode case mapping of `toUpperCase` (for example `ß` to `SS`) is not modelled.
- Editor.BlankSkill: drops the id that `addItem` gives the new skill group. The record type of a skill group has no id and nothing reads it.
- Editor.ResumeEditor.ToggleVisibility: the source also mutates the descriptor object shared with the previous state. The model keeps one array, so that aliasing is not modelled. The same holds for Editor.ResumeEditor.SetTitle, Editor.ResumeEditor.SetSkillCategory and Editor.ResumeEditor.SetSkillSkills.
- Editor.ResumeEditor.MoveUp: requires index > 0, and Editor.ResumeEditor.MoveDown requires index + 1 < length, because `SectionCard` disables those buttons at the first and last section (src/components/ui/SectionCard.tsx:33-34).
- Editor.ResumeEditor.SetSkillCategory and Editor.ResumeEditor.SetSkillSkills: require an index in range, because the inputs exist only for rendered groups.
- Certifications have no editor form in the source, so they have no edit methods here.
- The `|| []` fallbacks for missing lists are not modelled: every list of `ResumeData` is always present here.
- `escape(undefined)` is modelled as `escape("")`. The only optional input it receives is `liveLinkLabel`, which is `Option<string>` here and is tested before escaping.
