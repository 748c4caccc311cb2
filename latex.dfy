/**
 * The LaTeX serialiser of src/utils/latexGenerator.ts: the `escape` chain of
 * character substitutions, the `getLinkDisplay` priority rule, and
 * `generateLatex`, which builds a preamble and header, appends one block per
 * shown section in the order of `data.sections`, and trims the result.
 */
module Latex {
  import opened Text
  import opened Seqs
  import opened ResumeTypes
  import Preview

  // The five `replace` passes of `escape`, in their order, each as the
  // replacement it makes for one character.

  function EscBackslash(c: char): string {
    if c == '\\' then "\\textbackslash{}" else [c]
  }

  function EscSpecial(c: char): string {
    if c in "&%$#_{}" then ['\\', c] else [c]
  }

  function EscTilde(c: char): string {
    if c == '~' then "\\textasciitilde{}" else [c]
  }

  function EscCaret(c: char): string {
    if c == '^' then "\\textasciicircum{}" else [c]
  }

  function EscQuote(c: char): string {
    if c == '"' then "''" else [c]
  }

  /** The chain of passes, each over the whole output of the previous one. */
  function EscapeChain(s: string): string {
    MapChars(MapChars(MapChars(MapChars(MapChars(s, EscBackslash), EscSpecial), EscTilde), EscCaret), EscQuote)
  }

  /** `escape`: a falsy string gives `""`, anything else goes through the chain. */
  function Escape(s: string): string {
    if s == "" then "" else EscapeChain(s)
  }

  /** What the chain does to one character, written out as a table: a
      backslash becomes `\textbackslash\{\}` (its braces are escaped by the
      later pass), the braces added for `~` and `^` stay bare. */
  function EscapeChar(c: char): string {
    if c == '\\' then "\\textbackslash\\{\\}"
    else if c in "&%$#_{}" then ['\\', c]
    else if c == '~' then "\\textasciitilde{}"
    else if c == '^' then "\\textasciicircum{}"
    else if c == '"' then "''"
    else [c]
  }

  /** Characters none of which is in `bad`. */
  predicate Avoids(s: string, bad: string) {
    forall i :: 0 <= i < |s| ==> s[i] !in bad
  }

  lemma EscapeChainAppend(a: string, b: string)
    ensures EscapeChain(a + b) == EscapeChain(a) + EscapeChain(b)
  {
    MapCharsAppend(a, b, EscBackslash);
    var a1, b1 := MapChars(a, EscBackslash), MapChars(b, EscBackslash);
    MapCharsAppend(a1, b1, EscSpecial);
    var a2, b2 := MapChars(a1, EscSpecial), MapChars(b1, EscSpecial);
    MapCharsAppend(a2, b2, EscTilde);
    var a3, b3 := MapChars(a2, EscTilde), MapChars(b2, EscTilde);
    MapCharsAppend(a3, b3, EscCaret);
    var a4, b4 := MapChars(a3, EscCaret), MapChars(b3, EscCaret);
    MapCharsAppend(a4, b4, EscQuote);
  }

  /** The last three passes leave a string without `~`, `^` and `"` alone. */
  lemma LastPassesIdentity(w: string)
    requires Avoids(w, "~^\"")
    ensures MapChars(MapChars(MapChars(w, EscTilde), EscCaret), EscQuote) == w
  {
    MapCharsIdentity(w, EscTilde);
    MapCharsIdentity(w, EscCaret);
    MapCharsIdentity(w, EscQuote);
  }

  // The three lemmas below take the strings as parameters: with literal
  // arguments the verifier would unfold the recursive passes without bound.

  lemma SpecialPassAfterBackslash(w: string, v: string)
    requires w == "\\textbackslash" && v == "\\textbackslash\\{\\}"
    ensures MapChars(w + "{}", EscSpecial) == v
  {
    assert Avoids(w, "&%$#_{}");
    MapCharsIdentity(w, EscSpecial);
    assert w + "{}" == w + "{" + "}";
    MapCharsAppend(w + "{", "}", EscSpecial);
    MapCharsAppend(w, "{", EscSpecial);
    MapCharsSingle('{', EscSpecial);
    MapCharsSingle('}', EscSpecial);
  }

  lemma EscapeBackslashChar(s: string, w: string, v: string)
    requires s == "\\" && w == "\\textbackslash" && v == "\\textbackslash\\{\\}"
    ensures EscapeChain(s) == v
  {
    MapCharsSingle('\\', EscBackslash);
    assert MapChars(s, EscBackslash) == w + "{}";
    SpecialPassAfterBackslash(w, v);
    assert Avoids(v, "~^\"");
    LastPassesIdentity(v);
  }

  lemma EscapeTildeChar(s: string, w: string)
    requires s == "~" && w == "\\textasciitilde{}"
    ensures EscapeChain(s) == w
  {
    MapCharsSingle('~', EscBackslash);
    MapCharsSingle('~', EscSpecial);
    MapCharsSingle('~', EscTilde);
    CaretQuoteIdentity(w);
  }

  /** The last two passes leave a string without `^` and `"` alone. */
  lemma CaretQuoteIdentity(w: string)
    requires Avoids(w, "^\"")
    ensures MapChars(MapChars(w, EscCaret), EscQuote) == w
  {
    MapCharsIdentity(w, EscCaret);
    MapCharsIdentity(w, EscQuote);
  }

  lemma EscapeCaretChar(s: string, w: string)
    requires s == "^" && w == "\\textasciicircum{}"
    ensures EscapeChain(s) == w
  {
    MapCharsSingle('^', EscBackslash);
    MapCharsSingle('^', EscSpecial);
    MapCharsSingle('^', EscTilde);
    MapCharsSingle('^', EscCaret);
    assert Avoids(w, "\"");
    MapCharsIdentity(w, EscQuote);
  }

  /** The chain on one character is the table entry for it. */
  lemma EscapeSingle(c: char)
    ensures EscapeChain([c]) == EscapeChar(c)
  {
    if c == '\\' {
      EscapeBackslashChar([c], "\\textbackslash", EscapeChar(c));
    } else if c == '~' {
      EscapeTildeChar([c], EscapeChar(c));
    } else if c == '^' {
      EscapeCaretChar([c], EscapeChar(c));
    } else {
      MapCharsSingle(c, EscBackslash);
      MapCharsSingle(c, EscSpecial);
      if c in "&%$#_{}" {
        LastPassesIdentity(['\\', c]);
      } else {
        MapCharsSingle(c, EscTilde);
        MapCharsSingle(c, EscCaret);
        MapCharsSingle(c, EscQuote);
      }
    }
  }

  /** `escape` is the character-wise table: each character is replaced
      independently of its neighbours. */
  lemma {:induction false} EscapeCharwise(s: string)
    ensures Escape(s) == MapChars(s, EscapeChar)
  {
    if s != "" {
      EscapeCharwise(s[1..]);
      assert s == [s[0]] + s[1..];
      EscapeChainAppend([s[0]], s[1..]);
      EscapeSingle(s[0]);
    }
  }

  /** Escaping commutes with concatenation. */
  lemma EscapeAppend(a: string, b: string)
    ensures Escape(a + b) == Escape(a) + Escape(b)
  {
    EscapeCharwise(a);
    EscapeCharwise(b);
    EscapeCharwise(a + b);
    MapCharsAppend(a, b, EscapeChar);
  }

  /** A lone backslash becomes `\textbackslash\{\}`. */
  lemma EscapeLoneBackslash()
    ensures Escape("\\") == "\\textbackslash\\{\\}"
  {
    EscapeSingle('\\');
  }

  /** The characters `escape` touches. */
  const Specials: string := "\\&%$#_{}~^\""

  /** Text without any of the special characters is emitted as it is. */
  lemma EscapePlain(s: string)
    requires Avoids(s, Specials)
    ensures Escape(s) == s
  {
    EscapeCharwise(s);
    MapCharsIdentity(s, EscapeChar);
  }

  /** `escape` gives `""` for `""` only. */
  lemma EscapeEmptyIff(s: string)
    ensures Escape(s) == "" <==> s == ""
  {
    if s != "" {
      EscapeCharwise(s);
      assert MapChars(s, EscapeChar) == EscapeChar(s[0]) + MapChars(s[1..], EscapeChar);
    }
  }

  lemma {:induction false} MapCharsAvoids(s: string, f: char -> string, bad: string)
    requires forall i :: 0 <= i < |s| ==> Avoids(f(s[i]), bad)
    ensures Avoids(MapChars(s, f), bad)
  {
    if s != "" {
      MapCharsAvoids(s[1..], f, bad);
      var head, tail := f(s[0]), MapChars(s[1..], f);
      assert MapChars(s, f) == head + tail;
      forall i | 0 <= i < |head + tail| ensures (head + tail)[i] !in bad {
        if i >= |head| {
          assert (head + tail)[i] == tail[i - |head|];
        }
      }
    }
  }

  lemma EscapeCharAvoids(c: char, v: string)
    requires v == EscapeChar(c)
    ensures Avoids(v, "~^\"")
  {
  }

  /** No raw `~`, `^` or `"` survives escaping. */
  lemma EscapeLeavesNoRawTildeCaretQuote(s: string)
    ensures Avoids(Escape(s), "~^\"")
  {
    EscapeCharwise(s);
    forall i | 0 <= i < |s| ensures Avoids(EscapeChar(s[i]), "~^\"") {
      EscapeCharAvoids(s[i], EscapeChar(s[i]));
    }
    MapCharsAvoids(s, EscapeChar, "~^\"");
  }

  /** `getLinkDisplay`: a non-empty label wins (escaped); otherwise the URL
      is tested for `linkedin.com` first, then `github.com`, and anything
      else is `Live Link`. */
  function LinkDisplay(url: string, linkLabel: Option<string>): (r: string)
    ensures linkLabel.Some? && linkLabel.value != "" ==> r == Escape(linkLabel.value)
    ensures (linkLabel.None? || linkLabel.value == "") ==>
      && (r == "LinkedIn" <==> Contains(url, "linkedin.com"))
      && (r == "GitHub" <==> !Contains(url, "linkedin.com") && Contains(url, "github.com"))
      && (r == "Live Link" <==> !Contains(url, "linkedin.com") && !Contains(url, "github.com"))
  {
    if linkLabel.Some? && linkLabel.value != "" then Escape(linkLabel.value)
    else if Contains(url, "linkedin.com") then "LinkedIn"
    else if Contains(url, "github.com") then "GitHub"
    else "Live Link"
  }

  /** `\href{url}{display}` with the URL exactly as entered. */
  function Href(url: string, linkLabel: Option<string>): string {
    "\\href{" + url + "}{" + LinkDisplay(url, linkLabel) + "}"
  }

  function HeaderHref(link: LinkEntry): string {
    Href(link.url, Some(link.linkLabel))
  }

  const DocumentClass: string := "\\documentclass[a4paper,11pt]{article}"

  /** The fixed part of the header up to the opening of the centred block. */
  const Preamble: string := "\n" + DocumentClass + PreambleBody

  const PreambleBody: string :=
    "\n"
    + "\\usepackage[left=20mm, right=20mm, top=20mm, bottom=20mm]{geometry}\n"
    + "\\usepackage{enumitem}\n"
    + "\\usepackage[colorlinks=true, urlcolor=blue, linkcolor=blue]{hyperref}\n"
    + "\\usepackage{titlesec}\n"
    + "\\usepackage{xcolor}\n"
    + "\n"
    + "\\pagestyle{empty}\n"
    + "\\setcounter{secnumdepth}{0}\n"
    + "\n"
    + "% Custom section styling\n"
    + "\\titleformat{\\section}{\\large\\bfseries\\uppercase}{}{0em}{}[\\titlerule]\n"
    + "\\titlespacing{\\section}{0pt}{12pt}{6pt}\n"
    + "\n"
    + "% Custom list styling\n"
    + "\\setlist[itemize]{left=0pt, itemsep=1pt, parsep=0pt, topsep=1pt}\n"
    + "\n"
    + "\\begin{document}\n"
    + "\n"
    + "\\begin{center}\n"

  /** The name line: the name is escaped first and the escaped text is then
      upper-cased as a whole. */
  function NameLine(fullName: string): string {
    "    {\\huge\\bfseries " + ToUpper(Escape(fullName)) + "} \\\\[4pt]\n"
  }

  /** The contact line: the `mailto:` target is the raw address, its text
      the escaped one. */
  function ContactLine(data: ResumeData): string {
    "    " + Escape(data.location) + " | " + Escape(data.phone)
    + " | \\href{mailto:" + data.email + "}{" + Escape(data.email) + "}\n"
  }

  /** The line break before the links, present only when there are links. */
  function BreakLine(links: seq<LinkEntry>): (r: string)
    ensures |links| == 0 ==> r == "    \n"
    ensures |links| > 0 ==> r == "    \\\\\n"
  {
    "    " + (if |links| > 0 then "\\\\" else "") + "\n"
  }

  function LinksLine(links: seq<LinkEntry>): string {
    "    " + Join(MapSeq(links, HeaderHref), " | ") + "\n"
  }

  /** The centred block with the name, the contact line and the links,
      and the space after it. */
  function CenterBlock(data: ResumeData): string {
    NameLine(data.fullName) + ContactLine(data) + BreakLine(data.links)
    + LinksLine(data.links) + "\\end{center}\n\n\\vspace{10pt}\n"
  }

  function HeaderLatex(data: ResumeData): string {
    Preamble + CenterBlock(data)
  }

  const EndDocument: string := "\\end{document}"

  const Footer: string := "\n" + EndDocument + "\n"

  /** A section heading: the title is upper-cased but not escaped. */
  function SectionHead(title: string): string {
    "\n\\section*{" + ToUpper(title) + "}\n"
  }

  const ListOpen: string := "\\begin{itemize}[leftmargin=*, label={}]\n"
  const ListClose: string := "\\end{itemize}\n"

  function ItemLine(h: string): string {
    "\\item " + Escape(h)
  }

  /** The `\item` lines of the non-blank highlights, in order. */
  function ItemLines(highlights: seq<string>): string {
    Join(MapSeq(Preview.NonBlank(highlights), ItemLine), "\n    ")
  }

  /** The position, followed by ` -- location` only when there is one. */
  function RoleText(e: ExperienceEntry): string {
    Escape(e.position) + (if e.location != "" then " -- " + Escape(e.location) else "")
  }

  function ExperienceLatex(e: ExperienceEntry): string {
    "\n\\noindent \\textbf{" + Escape(e.company) + "} \\hfill \\textbf{" + Escape(e.year) + "} \\\\\n"
    + "\\textit{" + RoleText(e) + "}\n"
    + "\\begin{itemize}\n    " + ItemLines(e.highlights) + "\n\\end{itemize}\n\\vspace{6pt}\n"
  }

  function SkillLatex(g: SkillGroup): string {
    "    \\item \\textbf{" + Escape(g.category) + ":} " + Escape(g.skills) + "\n"
  }

  /** The right-hand part of a project's title line: the raw link with its
      display text, or the escaped subtitle. */
  function ProjectLinkPart(p: ProjectEntry): string {
    if p.liveLink != "" then Href(p.liveLink, p.liveLinkLabel) else Escape(p.subtitle)
  }

  /** The tech stack in parentheses, only when there is one. */
  function TechText(p: ProjectEntry): string {
    Escape(if p.techStack != "" then "(" + p.techStack + ")" else "")
  }

  function ProjectLatex(p: ProjectEntry): string {
    "\n\\noindent \\textbf{" + Escape(p.title) + "} \\hfill \\textit{" + ProjectLinkPart(p) + "} \\\\\n"
    + "\\textit{" + TechText(p) + "}\n"
    + "\\begin{itemize}\n    " + ItemLines(p.highlights) + "\n\\end{itemize}\n\\vspace{6pt}\n"
  }

  function FreelanceLatex(f: FreelanceEntry): string {
    "\n\\noindent \\textbf{" + Escape(f.project) + "} \\hfill \\textbf{" + Escape(f.duration) + "} \\\\\n"
    + "\\textit{" + Escape(f.role) + "}\n"
    + "\\begin{itemize}\n    " + ItemLines(f.highlights) + "\n\\end{itemize}\n\\vspace{6pt}\n"
  }

  function EducationLatex(e: EducationEntry): string {
    "\n\\noindent \\textbf{" + Escape(e.school) + "} \\hfill \\textbf{" + Escape(e.year) + "} \\\\\n"
    + "\\textit{" + Escape(e.degree) + " in " + Escape(e.major) + "} \\hfill " + Escape(e.result) + "\n"
    + "\\vspace{6pt}\n"
  }

  function OtherLatex(o: OtherEntry): string {
    "    \\item \\textbf{" + Escape(o.title) + ":} " + Escape(o.description) + "\n"
  }

  /** The pieces a section appends one after the other, in list order. */
  function EntryTexts(data: ResumeData, k: SectionKind): seq<string> {
    match k
    case Summary => [Escape(data.summary) + "\n"]
    case Experiences => MapSeq(data.experiences, ExperienceLatex)
    case TechnicalSkills => MapSeq(data.technicalSkills, SkillLatex)
    case Projects => MapSeq(data.projects, ProjectLatex)
    case Freelance => MapSeq(data.freelance, FreelanceLatex)
    case Certifications => []
    case Education => MapSeq(data.education, EducationLatex)
    case Others => MapSeq(data.others, OtherLatex)
  }

  predicate IsListSection(k: SectionKind) {
    k == TechnicalSkills || k == Others
  }

  function Opening(k: SectionKind, title: string): string {
    SectionHead(title) + (if IsListSection(k) then ListOpen else "")
  }

  function Closing(k: SectionKind): string {
    if IsListSection(k) then ListClose else ""
  }

  /** Whether a descriptor emits a block: visible, a kind with a case in the
      serialiser (every known kind except `certifications`), and data. */
  predicate LatexShown(data: ResumeData, sec: SectionConfig) {
    sec.isVisible && KindOf(sec.id).Some? && KindOf(sec.id).value != Certifications
    && HasContent(data, KindOf(sec.id).value)
  }

  /** `s` followed by `t`, with `s` recovered as the prefix. */
  lemma StartsWithAppend(s: string, t: string)
    ensures StartsWith(s + t, s)
  {
    assert (s + t)[..|s|] == s;
  }

  function Concat(parts: seq<string>): string {
    if parts == [] then "" else Concat(parts[..|parts| - 1]) + parts[|parts| - 1]
  }

  /** A section block: its opening, its entries in order, its closing;
      it always begins with the heading. */
  function SectionText(k: SectionKind, title: string, entries: seq<string>): (r: string)
    ensures StartsWith(r, SectionHead(title))
  {
    var open := if IsListSection(k) then ListOpen else "";
    StartsWithAppend(SectionHead(title), open + Concat(entries) + Closing(k));
    AppendAssoc(SectionHead(title), open, Concat(entries), Closing(k));
    Opening(k, title) + Concat(entries) + Closing(k)
  }

  /** The text one descriptor contributes: nothing unless it is shown, and
      then a block headed by its own title. */
  function SectionLatex(data: ResumeData, sec: SectionConfig): (r: string)
    ensures r != "" <==> LatexShown(data, sec)
    ensures LatexShown(data, sec) ==> StartsWith(r, SectionHead(sec.title))
  {
    if LatexShown(data, sec) then
      var k := KindOf(sec.id).value;
      SectionText(k, sec.title, EntryTexts(data, k))
    else ""
  }

  lemma SectionLatexShown(data: ResumeData, sec: SectionConfig, opening: string, entries: seq<string>, closing: string)
    requires LatexShown(data, sec)
    requires opening == Opening(KindOf(sec.id).value, sec.title)
    requires entries == EntryTexts(data, KindOf(sec.id).value)
    requires closing == Closing(KindOf(sec.id).value)
    ensures SectionLatex(data, sec) == opening + Concat(entries) + closing
  {
  }

  /** The content accumulated over a run of descriptors. */
  function SectionsLatex(data: ResumeData, secs: seq<SectionConfig>): string {
    if secs == [] then "" else SectionsLatex(data, secs[..|secs| - 1]) + SectionLatex(data, secs[|secs| - 1])
  }

  function DocumentLatex(data: ResumeData): string {
    Trim(HeaderLatex(data) + SectionsLatex(data, data.sections) + Footer)
  }

  lemma SectionsLatexStep(data: ResumeData, secs: seq<SectionConfig>, i: nat)
    requires i < |secs|
    ensures SectionsLatex(data, secs[..i + 1]) == SectionsLatex(data, secs[..i]) + SectionLatex(data, secs[i])
  {
    assert secs[..i + 1][..i] == secs[..i];
  }

  /** One `forEach` over a section's entries: each piece is appended in
      order. */
  method AppendAll(content: string, entries: seq<string>) returns (out: string)
    ensures out == content + Concat(entries)
  {
    out := content;
    for j := 0 to |entries|
      invariant out == content + Concat(entries[..j])
    {
      assert entries[..j + 1][..j] == entries[..j];
      out := out + entries[j];
    }
    assert entries[..|entries|] == entries;
  }

  lemma AppendAssoc3(a: string, b: string, c: string)
    ensures (a + b) + c == a + (b + c)
  {
  }

  /** Dropping the last element of a non-empty right operand. */
  lemma SnocSplit<T>(a: seq<T>, b: seq<T>)
    requires b != []
    ensures (a + b)[..|a + b| - 1] == a + b[..|b| - 1]
    ensures (a + b)[|a + b| - 1] == b[|b| - 1]
  {
  }

  lemma AppendAssoc(a: string, b: string, c: string, d: string)
    ensures a + b + c + d == a + (b + c + d)
  {
  }

  /** The body of one `case`: heading and opening, every entry, closing. */
  method AppendSection(content: string, data: ResumeData, section: SectionConfig) returns (out: string)
    requires LatexShown(data, section)
    ensures out == content + SectionLatex(data, section)
  {
    var k := KindOf(section.id).value;
    var opening, entries, closing := Opening(k, section.title), EntryTexts(data, k), Closing(k);
    out := content + opening;
    out := AppendAll(out, entries);
    out := out + closing;
    SectionLatexShown(data, section, opening, entries, closing);
    AppendAssoc(content, opening, Concat(entries), closing);
  }

  /** `generateLatex`: the content grows section by section and entry by
      entry, and the document is the trimmed header, content and footer. */
  method GenerateLatex(data: ResumeData) returns (doc: string)
    ensures doc == DocumentLatex(data)
  {
    var header := HeaderLatex(data);
    var content := "";
    for i := 0 to |data.sections|
      invariant content == SectionsLatex(data, data.sections[..i])
    {
      var section := data.sections[i];
      SectionsLatexStep(data, data.sections, i);
      if LatexShown(data, section) {
        content := AppendSection(content, data, section);
      }
    }
    assert data.sections[..|data.sections|] == data.sections;
    doc := Trim(header + content + Footer);
  }

  /** Trimming a text framed by one newline at each end, whose first and
      last characters inside the frame are not whitespace, removes exactly
      the two newlines. */
  lemma TrimFramed(first: string, mid: string, last: string)
    requires |first| >= 1 && !IsWhitespace(first[0])
    requires |last| >= 1 && !IsWhitespace(last[|last| - 1])
    ensures Trim("\n" + first + mid + last + "\n") == first + mid + last
    ensures StartsWith(first + mid + last, first) && EndsWith(first + mid + last, last)
  {
    var s := "\n" + first + mid + last + "\n";
    assert s[1..|s| - 1] == first + mid + last;
    TrimOneEach(s);
    assert (first + mid + last)[..|first|] == first;
    assert (first + mid + last)[|first + mid|..] == last;
  }

  /** The shape of a trimmed document built from a preamble that opens
      with a newline and `first`, and a footer that is `last` between two
      newlines. */
  lemma FramedDocument(pre: string, first: string, body: string, center: string, content: string,
                       footer: string, last: string)
    requires pre == "\n" + first + body && footer == "\n" + last + "\n"
    requires |first| >= 1 && !IsWhitespace(first[0])
    requires |last| >= 1 && !IsWhitespace(last[|last| - 1])
    ensures StartsWith(Trim(pre + center + content + footer), first)
    ensures EndsWith(Trim(pre + center + content + footer), last)
  {
    var mid := body + center + content + "\n";
    assert pre + center + content + footer == "\n" + first + mid + last + "\n";
    TrimFramed(first, mid, last);
  }

  /** The document begins with the `\documentclass` line and ends with
      `\end{document}`, whatever the record holds. */
  lemma DocumentShape(data: ResumeData)
    ensures StartsWith(DocumentLatex(data), DocumentClass)
    ensures EndsWith(DocumentLatex(data), EndDocument)
  {
    FramedDocument(Preamble, DocumentClass, PreambleBody, CenterBlock(data),
      SectionsLatex(data, data.sections), Footer, EndDocument);
  }

  lemma {:induction false} SectionsLatexAppend(data: ResumeData, a: seq<SectionConfig>, b: seq<SectionConfig>)
    ensures SectionsLatex(data, a + b) == SectionsLatex(data, a) + SectionsLatex(data, b)
  {
    if b == [] {
      assert a + b == a;
    } else {
      var b', last := b[..|b| - 1], b[|b| - 1];
      SnocSplit(a, b);
      SectionsLatexAppend(data, a, b');
      var x, y, z := SectionsLatex(data, a), SectionsLatex(data, b'), SectionLatex(data, last);
      calc {
        SectionsLatex(data, a + b);
        SectionsLatex(data, a + b') + z;
        (x + y) + z;
        { AppendAssoc3(x, y, z); }
        x + (y + z);
      }
    }
  }

  lemma SectionsLatexSingle(data: ResumeData, sec: SectionConfig)
    ensures SectionsLatex(data, [sec]) == SectionLatex(data, sec)
  {
    assert [sec][..0] == [];
  }

  lemma SectionsLatexCons(data: ResumeData, sec: SectionConfig, rest: seq<SectionConfig>)
    ensures SectionsLatex(data, [sec] + rest) == SectionLatex(data, sec) + SectionsLatex(data, rest)
  {
    SectionsLatexAppend(data, [sec], rest);
    SectionsLatexSingle(data, sec);
  }

  /** A shown descriptor in front of two runs with the same content. */
  lemma SectionsLatexKeptFront(data: ResumeData, sec: SectionConfig, rest: seq<SectionConfig>, kept: seq<SectionConfig>)
    requires SectionsLatex(data, rest) == SectionsLatex(data, kept)
    ensures SectionsLatex(data, [sec] + rest) == SectionsLatex(data, [sec] + kept)
  {
    SectionsLatexCons(data, sec, rest);
    SectionsLatexCons(data, sec, kept);
  }

  /** A descriptor that is not shown, in front of a run, adds nothing. */
  lemma SectionsLatexHiddenFront(data: ResumeData, sec: SectionConfig, rest: seq<SectionConfig>)
    requires !LatexShown(data, sec)
    ensures SectionsLatex(data, [sec] + rest) == SectionsLatex(data, rest)
  {
    SectionsLatexCons(data, sec, rest);
  }

  /** Only the shown descriptors contribute, each once and in the order of
      `data.sections`. */
  lemma {:induction false} SectionsLatexOfShown(data: ResumeData, secs: seq<SectionConfig>)
    ensures SectionsLatex(data, secs) == SectionsLatex(data, Filter(secs, (sec: SectionConfig) => LatexShown(data, sec)))
  {
    if secs != [] {
      var keep := (sec: SectionConfig) => LatexShown(data, sec);
      var sec, rest := secs[0], secs[1..];
      assert secs == [sec] + rest;
      SectionsLatexOfShown(data, rest);
      FilterCons(sec, rest, keep);
      if keep(sec) {
        SectionsLatexKeptFront(data, sec, rest, Filter(rest, keep));
      } else {
        SectionsLatexHiddenFront(data, sec, rest);
        assert Filter(secs, keep) == Filter(rest, keep);
      }
    }
  }

  /** The serialiser shows the same descriptors as the preview except the
      certifications section, which it has no case for. */
  lemma {:induction false} LatexShownMatchesPreview(data: ResumeData, secs: seq<SectionConfig>)
    ensures Filter(secs, (sec: SectionConfig) => LatexShown(data, sec))
         == Filter(Preview.ShownSections(data, secs), (sec: SectionConfig) => sec.id != "certifications")
  {
    var notCert := (sec: SectionConfig) => sec.id != "certifications";
    if secs != [] {
      LatexShownMatchesPreview(data, secs[1..]);
      var sec := secs[0];
      var shownHead := if Preview.Shown(data, sec) then [sec] else [];
      assert Preview.ShownSections(data, secs) == shownHead + Preview.ShownSections(data, secs[1..]);
      FilterAppend(shownHead, Preview.ShownSections(data, secs[1..]), notCert);
      if KindOf(sec.id).Some? {
        assert KindId(KindOf(sec.id).value) == sec.id;
      }
    }
  }

  /** Hiding a descriptor removes its block and changes nothing else. */
  lemma HiddenSectionEmitsNothing(data: ResumeData, secs: seq<SectionConfig>, i: nat)
    requires i < |secs|
    ensures SectionsLatex(data, secs[i := secs[i].(isVisible := false)])
         == SectionsLatex(data, secs[..i] + secs[i + 1..])
  {
    var h := secs[i].(isVisible := false);
    UpdateAsSplit(secs, i, h);
    SectionsLatexSkips(data, secs[..i], h, secs[i + 1..]);
  }

  /** A descriptor that is not shown can be left out beforehand. */
  lemma SectionsLatexSkips(data: ResumeData, a: seq<SectionConfig>, x: SectionConfig, b: seq<SectionConfig>)
    requires !LatexShown(data, x)
    ensures SectionsLatex(data, a + [x] + b) == SectionsLatex(data, a + b)
  {
    SectionsLatexAppend(data, a + [x], b);
    SectionsLatexAppend(data, a, [x]);
    SectionsLatexAppend(data, a, b);
    SectionsLatexSingle(data, x);
    assert SectionsLatex(data, a) + "" == SectionsLatex(data, a);
  }

  /** Escaping and then upper-casing works piece by piece. */
  lemma UpperEscapeAround(a: string, m: string, b: string)
    ensures ToUpper(Escape(a + m + b)) == ToUpper(Escape(a)) + ToUpper(Escape(m)) + ToUpper(Escape(b))
  {
    EscapeAppend(a + m, b);
    EscapeAppend(a, m);
    ToUpperAppend(Escape(a) + Escape(m), Escape(b));
    ToUpperAppend(Escape(a), Escape(m));
  }

  /** The escaped backslash, upper-cased. */
  lemma UpperEscapedBackslash(bs: string, up: string)
    requires bs == "\\" && up == "\\TEXTBACKSLASH\\{\\}"
    ensures ToUpper(Escape(bs)) == up
  {
    EscapeLoneBackslash();
    var escaped := "\\textbackslash\\{\\}";
    assert Escape(bs) == escaped;
    assert ToUpper(escaped) == up;
  }

  /** A backslash anywhere in a name: the text around it is escaped and
      upper-cased on its own, and the backslash itself comes out as `up`. */
  lemma NameBackslashAnywhere(a: string, bs: string, b: string, up: string)
    requires bs == "\\" && up == "\\TEXTBACKSLASH\\{\\}"
    ensures ToUpper(Escape(a + bs + b)) == ToUpper(Escape(a)) + up + ToUpper(Escape(b))
  {
    UpperEscapeAround(a, bs, b);
    UpperEscapedBackslash(bs, up);
  }

  /** Upper-casing after escaping turns the escape commands into upper-case
      control words: wherever a backslash sits in the name, the name line
      carries `\TEXTBACKSLASH\{\}` there, which LaTeX does not define. */
  lemma NameUppercasesEscapes(a: string, bs: string, b: string, up: string)
    requires bs == "\\" && up == "\\TEXTBACKSLASH\\{\\}"
    ensures NameLine(a + bs + b)
            == "    {\\huge\\bfseries " + ToUpper(Escape(a)) + up + ToUpper(Escape(b)) + "} \\\\[4pt]\n"
  {
    NameBackslashAnywhere(a, bs, b, up);
  }

  /** Text free of special characters between two escaped parts stays as
      it is. */
  lemma EscapeAround(a: string, sep: string, b: string)
    requires Avoids(sep, Specials)
    ensures Escape(a + sep + b) == Escape(a) + sep + Escape(b)
  {
    EscapeAppend(a + sep, b);
    EscapeAppend(a, sep);
    EscapePlain(sep);
  }

  /** ` -- location` follows the position only when a location is given, and
      the whole role line is the escape of that text. */
  lemma RoleTextForm(e: ExperienceEntry)
    ensures e.location == "" ==> RoleText(e) == Escape(e.position)
    ensures e.location != "" ==> RoleText(e) == Escape(e.position + " -- " + e.location)
  {
    if e.location != "" {
      EscapeAroundDash(e.position, " -- ", e.location);
    }
  }

  lemma EscapeAroundDash(a: string, sep: string, b: string)
    requires sep == " -- "
    ensures Escape(a + sep + b) == Escape(a) + sep + Escape(b)
  {
    assert Avoids(sep, Specials);
    EscapeAround(a, sep, b);
  }

  /** The tech stack appears in parentheses only when there is one, escaped
      inside them. */
  lemma TechTextForm(p: ProjectEntry)
    ensures p.techStack == "" ==> TechText(p) == ""
    ensures p.techStack != "" ==> TechText(p) == "(" + Escape(p.techStack) + ")"
  {
    if p.techStack != "" {
      EscapeBetween('(', p.techStack, ')');
    }
  }

  /** A character the table keeps, on either side of a text, stays
      outside its escape. */
  lemma EscapeBetween(open: char, t: string, close: char)
    requires EscapeChar(open) == [open] && EscapeChar(close) == [close]
    ensures Escape([open] + t + [close]) == [open] + Escape(t) + [close]
  {
    EscapeAppend([open] + t, [close]);
    EscapeAppend([open], t);
    EscapeSingle(open);
    EscapeSingle(close);
  }

  /** A blank highlight adds no `\item` line and does not disturb the
      others. */
  lemma ItemLinesDropBlank(a: seq<string>, h: string, b: seq<string>)
    requires AllWhitespace(h)
    ensures ItemLines(a + [h] + b) == ItemLines(a + b)
  {
    Preview.NonBlankDropsBlank(a, h, b);
  }

  /** Highlights with no blank line give one `\item` line each, in order. */
  lemma ItemLinesAllShown(highlights: seq<string>)
    requires forall i :: 0 <= i < |highlights| ==> !AllWhitespace(highlights[i])
    ensures ItemLines(highlights) == Join(MapSeq(highlights, ItemLine), "\n    ")
  {
    Preview.NonBlankKeepsAll(highlights);
  }

  /** Unlike the preview, the serialiser writes the URL exactly as entered:
      a URL without a scheme keeps none, while the preview links to its
      normalised form. */
  lemma HrefIsRaw(link: LinkEntry)
    ensures StartsWith(HeaderHref(link), "\\href{" + link.url + "}{")
    ensures link.url != "" && !Preview.HasScheme(link.url) ==> Preview.NormalizeUrl(link.url) != link.url
  {
    StartsWithAppend("\\href{" + link.url + "}{", LinkDisplay(link.url, Some(link.linkLabel)) + "}");
    assert HeaderHref(link) == "\\href{" + link.url + "}{" + (LinkDisplay(link.url, Some(link.linkLabel)) + "}");
  }
}
