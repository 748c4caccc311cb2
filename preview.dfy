/**
 * The on-screen resume of src/components/ResumePreview.tsx, as a pure
 * function from the record to an abstract page: a header (name, contact
 * line, link line) followed by one titled section per shown descriptor of
 * `data.sections`, in that order. Markup, fonts and CSS are not modelled;
 * a section is its id, its heading and one group of blocks per entry (the
 * unit the renderer keeps together across page breaks).
 */
module Preview {
  import opened Text
  import opened Seqs
  import opened ResumeTypes

  /** `/^https?:\/\//i`. */
  predicate HasScheme(url: string) {
    StartsWithIgnoreCase(url, "http://") || StartsWithIgnoreCase(url, "https://")
  }

  /** `normalizeUrl`: the empty string stays empty, a URL with a scheme (any
      letter case) is kept, anything else gets `https://` in front, and also
      `www.` unless it already starts with `www.` (any letter case). The input
      always survives as a suffix, and every non-empty result has a scheme. */
  function NormalizeUrl(url: string): (r: string)
    ensures (r == "") == (url == "")
    ensures EndsWith(r, url)
    ensures r != "" ==> HasScheme(r)
    ensures HasScheme(url) ==> r == url
  {
    if url == "" then ""
    else if HasScheme(url) then url
    else if StartsWithIgnoreCase(url, "www.") then
      assert StartsWithIgnoreCase("https://" + url, "https://");
      "https://" + url
    else
      assert StartsWithIgnoreCase("https://www." + url, "https://");
      "https://www." + url
  }

  /** Which prefix a scheme-less URL receives. */
  lemma NormalizeUrlPrefix(url: string)
    requires url != "" && !HasScheme(url)
    ensures StartsWithIgnoreCase(url, "www.") ==> NormalizeUrl(url) == "https://" + url
    ensures !StartsWithIgnoreCase(url, "www.") ==> NormalizeUrl(url) == "https://www." + url
  {
  }

  /** Normalising twice is normalising once. */
  lemma NormalizeUrlIdempotent(url: string)
    ensures NormalizeUrl(NormalizeUrl(url)) == NormalizeUrl(url)
  {
  }

  /** `s.replace(/^https?:\/\//, '')`: case-sensitive, only a leading
      lower-case scheme is removed, and `www.` is kept. */
  function StripScheme(s: string): string {
    if StartsWith(s, "http://") then s[7..]
    else if StartsWith(s, "https://") then s[8..]
    else s
  }

  datatype Inline =
    | Plain(text: string)
    | Anchor(href: string, text: string)
    | Separator                               // the `|` between header items

  datatype Block =
    | Paragraph(text: string)
    | Row(left: seq<Inline>, right: seq<Inline>)   // left part and right-aligned part
    | Line(parts: seq<Inline>)
    | Bullets(items: seq<string>)

  datatype SectionView = SectionView(id: string, heading: string, entries: seq<seq<Block>>)

  datatype HeaderView = HeaderView(name: string, contact: seq<Inline>, links: seq<Inline>)

  datatype PageView = PageView(header: HeaderView, body: seq<SectionView>)

  /** One header link: its href is the normalised URL, its text the label
      when there is one, else the raw URL minus a lower-case scheme. */
  function LinkAnchor(link: LinkEntry): Inline {
    Anchor(NormalizeUrl(link.url), if link.linkLabel != "" then link.linkLabel else StripScheme(link.url))
  }

  /** `items` with `sep` between neighbours, as the header writes its
      links: a separator after every item but the last. */
  function Interleave<T>(items: seq<T>, sep: T): seq<T> {
    if items == [] then []
    else if |items| == 1 then [items[0]]
    else [items[0], sep] + Interleave(items[1..], sep)
  }

  /** Item `k` sits at position `2k`, a separator follows every item but the
      last, and nothing else is there: so the line never ends with a
      separator. */
  lemma {:induction false} InterleaveLayout<T>(items: seq<T>, sep: T)
    ensures |Interleave(items, sep)| == if items == [] then 0 else 2 * |items| - 1
    ensures forall k :: 0 <= k < |items| ==> Interleave(items, sep)[2 * k] == items[k]
    ensures forall k :: 0 <= k < |items| - 1 ==> Interleave(items, sep)[2 * k + 1] == sep
  {
    if |items| > 1 {
      var tail := Interleave(items[1..], sep);
      InterleaveLayout(items[1..], sep);
      assert Interleave(items, sep) == [items[0], sep] + tail;
      forall k | 1 <= k < |items| ensures Interleave(items, sep)[2 * k] == items[k] {
        assert Interleave(items, sep)[2 * k] == tail[2 * (k - 1)];
      }
      forall k | 1 <= k < |items| - 1 ensures Interleave(items, sep)[2 * k + 1] == sep {
        assert Interleave(items, sep)[2 * k + 1] == tail[2 * (k - 1) + 1];
      }
    }
  }

  /** The link line of the header: the link anchors, separated by `|`. */
  function HeaderLinks(links: seq<LinkEntry>): seq<Inline> {
    Interleave(MapSeq(links, LinkAnchor), Separator)
  }

  /** Link `k` of the record is anchor `2k` of the line, with separators
      exactly between neighbouring links. */
  lemma HeaderLinksLayout(links: seq<LinkEntry>)
    ensures |HeaderLinks(links)| == if links == [] then 0 else 2 * |links| - 1
    ensures forall k :: 0 <= k < |links| ==> HeaderLinks(links)[2 * k] == LinkAnchor(links[k])
    ensures forall k :: 0 <= k < |links| - 1 ==> HeaderLinks(links)[2 * k + 1] == Separator
  {
    InterleaveLayout(MapSeq(links, LinkAnchor), Separator);
  }

  function Header(data: ResumeData): HeaderView {
    HeaderView(
      data.fullName,
      [Plain(data.location), Separator, Plain(data.phone), Separator,
       Anchor("mailto:" + data.email, data.email)],
      HeaderLinks(data.links))
  }

  /** The test `h => h.trim()`: a highlight is kept when it is not blank. */
  predicate Kept(h: string) {
    Trim(h) != ""
  }

  /** `highlights.filter(h => h.trim())`. */
  function NonBlank(highlights: seq<string>): seq<string> {
    Filter(highlights, Kept)
  }

  /** The kept highlights are exactly the ones that are not blank. */
  lemma NonBlankExactly(highlights: seq<string>)
    ensures |NonBlank(highlights)| <= |highlights|
    ensures forall i :: 0 <= i < |NonBlank(highlights)| ==> !AllWhitespace(NonBlank(highlights)[i])
    ensures forall i :: 0 <= i < |highlights| && !AllWhitespace(highlights[i]) ==> highlights[i] in NonBlank(highlights)
  {
    var r := NonBlank(highlights);
    forall i | 0 <= i < |r| ensures !AllWhitespace(r[i]) {
      TrimEmptyIffBlank(r[i]);
    }
    forall i | 0 <= i < |highlights| && !AllWhitespace(highlights[i]) ensures highlights[i] in r {
      TrimEmptyIffBlank(highlights[i]);
    }
  }

  /** Dropping blank lines keeps the rest in their order. */
  lemma NonBlankAppend(a: seq<string>, b: seq<string>)
    ensures NonBlank(a + b) == NonBlank(a) + NonBlank(b)
  {
    FilterAppend(a, b, Kept);
  }

  /** A blank line in the middle is dropped and the rest close up. */
  lemma NonBlankDropsBlank(a: seq<string>, h: string, b: seq<string>)
    requires AllWhitespace(h)
    ensures NonBlank(a + [h] + b) == NonBlank(a + b)
  {
    TrimEmptyIffBlank(h);
    FilterSkipsRejected(a, h, b, Kept);
  }

  /** Highlights without a blank line pass unchanged. */
  lemma NonBlankKeepsAll(highlights: seq<string>)
    requires forall i :: 0 <= i < |highlights| ==> !AllWhitespace(highlights[i])
    ensures NonBlank(highlights) == highlights
  {
    forall i | 0 <= i < |highlights| ensures Kept(highlights[i]) {
      TrimEmptyIffBlank(highlights[i]);
    }
    FilterKeepsAll(highlights, Kept);
  }

  function ExperienceView(e: ExperienceEntry): seq<Block> {
    [Row([Plain(e.company)], [Plain(e.year)]),
     Row([Plain(e.position)], [Plain(e.location)]),
     Bullets(NonBlank(e.highlights))]
  }

  function SkillView(s: SkillGroup): seq<Block> {
    [Line([Plain(s.category + ":"), Plain(s.skills)])]
  }

  /** The text of a project's live link: `liveLinkLabel` when non-empty,
      else the normalised URL minus a lower-case scheme. */
  function ProjectLinkText(p: ProjectEntry): string {
    if p.liveLinkLabel.Some? && p.liveLinkLabel.value != "" then p.liveLinkLabel.value
    else StripScheme(NormalizeUrl(p.liveLink))
  }

  /** The right-hand element of a project's title row. */
  function ProjectRight(p: ProjectEntry): (r: Inline)
    ensures r.Anchor? <==> p.liveLink != ""
    ensures r.Anchor? ==> r.href == NormalizeUrl(p.liveLink) && HasScheme(r.href)
    ensures !r.Anchor? ==> r == Plain(p.subtitle)
  {
    if p.liveLink != "" then Anchor(NormalizeUrl(p.liveLink), ProjectLinkText(p)) else Plain(p.subtitle)
  }

  function ProjectView(p: ProjectEntry): seq<Block> {
    [Row([Plain(p.title)], [ProjectRight(p)])]
    + (if p.techStack != "" then [Line([Plain("(" + p.techStack + ")")])] else [])
    + [Bullets(NonBlank(p.highlights))]
  }

  /** A project shows its title row, then the parenthesised tech stack only
      when there is one, then its non-blank highlights. */
  lemma ProjectViewShape(p: ProjectEntry)
    ensures |ProjectView(p)| == if p.techStack != "" then 3 else 2
    ensures ProjectView(p)[0] == Row([Plain(p.title)], [ProjectRight(p)])
    ensures p.techStack != "" ==> ProjectView(p)[1] == Line([Plain("(" + p.techStack + ")")])
    ensures ProjectView(p)[|ProjectView(p)| - 1] == Bullets(NonBlank(p.highlights))
  {
  }

  /** The text of an unlabelled header link: only a leading lower-case
      scheme is removed, so `www.` stays and an upper-case scheme is shown. */
  lemma StripSchemeRules(s: string)
    ensures StartsWith(s, "https://") ==> StripScheme(s) == s[8..]
    ensures StartsWith(s, "http://") ==> StripScheme(s) == s[7..]
    ensures !StartsWith(s, "http://") && !StartsWith(s, "https://") ==> StripScheme(s) == s
  {
    if StartsWith(s, "https://") {
      assert s[..7] == s[..8][..7];
      assert s[..8][..7] != "http://" by { assert s[..8][4] == 's'; }
    }
  }

  function FreelanceView(f: FreelanceEntry): seq<Block> {
    [Row([Plain(f.project)], [Plain(f.duration)]),
     Line([Plain(f.role)]),
     Bullets(NonBlank(f.highlights))]
  }

  function CertificationView(c: CertificationEntry): seq<Block> {
    [Row([Plain(c.name), Plain("-"), Plain(c.issuer)], [Plain(c.year)])]
  }

  function EducationView(e: EducationEntry): seq<Block> {
    [Row([Plain(e.school)], [Plain(e.year)]),
     Row([Plain(e.degree + " in " + e.major)], [Plain(e.result)])]
  }

  function OtherView(o: OtherEntry): seq<Block> {
    [Line([Plain(o.title + ":"), Plain(o.description)])]
  }

  /** The entries of one section kind, one block group per list entry, in
      list order (the summary is a single paragraph). */
  function Entries(data: ResumeData, k: SectionKind): seq<seq<Block>> {
    match k
    case Summary => [[Paragraph(data.summary)]]
    case Experiences => MapSeq(data.experiences, ExperienceView)
    case TechnicalSkills => MapSeq(data.technicalSkills, SkillView)
    case Projects => MapSeq(data.projects, ProjectView)
    case Freelance => MapSeq(data.freelance, FreelanceView)
    case Certifications => MapSeq(data.certifications, CertificationView)
    case Education => MapSeq(data.education, EducationView)
    case Others => MapSeq(data.others, OtherView)
  }

  /** Whether a descriptor produces a section: visible, a known id, and data
      to show. */
  predicate Shown(data: ResumeData, sec: SectionConfig) {
    sec.isVisible && KindOf(sec.id).Some? && HasContent(data, KindOf(sec.id).value)
  }

  /** One case of the `switch (section.id)`. */
  function RenderSection(data: ResumeData, sec: SectionConfig): (r: Option<SectionView>)
    ensures r.Some? <==> Shown(data, sec)
    ensures r.Some? ==> r.value.id == sec.id && r.value.heading == sec.title
  {
    if !sec.isVisible then None
    else match KindOf(sec.id)
      case None => None
      case Some(k) => if HasContent(data, k) then Some(SectionView(sec.id, sec.title, Entries(data, k))) else None
  }

  /** `data.sections.map(...)` with the `null`s dropped. */
  function Body(data: ResumeData, secs: seq<SectionConfig>): seq<SectionView> {
    if secs == [] then []
    else
      (match RenderSection(data, secs[0]) case Some(v) => [v] case None => [])
      + Body(data, secs[1..])
  }

  function Compose(data: ResumeData): PageView {
    PageView(Header(data), Body(data, data.sections))
  }

  /** The descriptors that produce a section, in descriptor order. */
  function ShownSections(data: ResumeData, secs: seq<SectionConfig>): seq<SectionConfig> {
    Filter(secs, (sec: SectionConfig) => Shown(data, sec))
  }

  /** The rendered sections are exactly the shown descriptors, one for one
      and in the order of `data.sections`, each headed by its descriptor's
      title and holding its kind's entries in list order. */
  lemma {:induction false} BodyFollowsSections(data: ResumeData, secs: seq<SectionConfig>)
    ensures |Body(data, secs)| == |ShownSections(data, secs)|
    ensures forall i :: 0 <= i < |Body(data, secs)| ==>
      var sec := ShownSections(data, secs)[i];
      && Body(data, secs)[i].id == sec.id
      && Body(data, secs)[i].heading == sec.title
      && Body(data, secs)[i].entries == Entries(data, KindOf(sec.id).value)
  {
    if secs != [] {
      BodyFollowsSections(data, secs[1..]);
      var tail := ShownSections(data, secs[1..]);
      assert ShownSections(data, secs) == (if Shown(data, secs[0]) then [secs[0]] else []) + tail;
      if Shown(data, secs[0]) {
        var v := RenderSection(data, secs[0]).value;
        assert Body(data, secs) == [v] + Body(data, secs[1..]);
        assert ShownSections(data, secs) == [secs[0]] + tail;
      } else {
        assert Body(data, secs) == Body(data, secs[1..]);
        assert ShownSections(data, secs) == tail;
      }
    }
  }

  lemma {:induction false} BodyAppend(data: ResumeData, a: seq<SectionConfig>, b: seq<SectionConfig>)
    ensures Body(data, a + b) == Body(data, a) + Body(data, b)
  {
    if a == [] {
      assert a + b == b;
    } else {
      assert (a + b)[1..] == a[1..] + b;
      BodyAppend(data, a[1..], b);
    }
  }

  /** Hiding a descriptor removes its section and nothing else: no heading,
      no entries, the other sections unchanged and in order. */
  lemma HiddenSectionVanishes(data: ResumeData, secs: seq<SectionConfig>, i: nat)
    requires i < |secs|
    ensures Body(data, secs[i := secs[i].(isVisible := false)]) == Body(data, secs[..i] + secs[i + 1..])
  {
    var hidden := secs[i := secs[i].(isVisible := false)];
    assert hidden == secs[..i] + [hidden[i]] + secs[i + 1..];
    BodyAppend(data, secs[..i] + [hidden[i]], secs[i + 1..]);
    BodyAppend(data, secs[..i], [hidden[i]]);
    BodyAppend(data, secs[..i], secs[i + 1..]);
    assert Body(data, [hidden[i]]) == [];
  }

  /** A project link given without a scheme is shown as typed, with `www.`
      added in front when it did not start with `www.`. */
  lemma ProjectLinkTextOfBareDomain(p: ProjectEntry)
    requires p.liveLink != "" && !HasScheme(p.liveLink)
    requires p.liveLinkLabel.None? || p.liveLinkLabel.value == ""
    ensures ProjectRight(p) == Anchor(NormalizeUrl(p.liveLink),
      if StartsWithIgnoreCase(p.liveLink, "www.") then p.liveLink else "www." + p.liveLink)
  {
    var n := NormalizeUrl(p.liveLink);
    if StartsWithIgnoreCase(p.liveLink, "www.") {
      assert n == "https://" + p.liveLink;
      assert n[4] == 's';
      assert n[..8] == "https://";
      assert n[8..] == p.liveLink;
    } else {
      assert n == "https://www." + p.liveLink;
      assert n[4] == 's';
      assert n[..8] == "https://";
      assert n[8..] == "www." + p.liveLink;
    }
  }
}
