/**
 * The arithmetic and string clean-ups around the PDF download and the cover
 * letter in src/pages/ResumeBuilder.tsx: where each link of the rendered
 * resume lands on the pages of the PDF (`addLinksToPdf`), the file name of
 * the download, and the plain-text form of the cover letter. Lengths are
 * millimetres on an A4 page; positions measured in the browser are pixels.
 */
module Export {
  import opened Text
  import opened Seqs
  import opened ResumeTypes

  /** Pixels to millimetres at 96 dots per inch. */
  const PxToMm: real := 0.264583

  const PageHeight: real := 297.0
  const MarginTop: real := 10.0
  const MarginBottom: real := 15.0

  /** The height of the printed area of one page. */
  const ContentHeight: real := PageHeight - MarginTop - MarginBottom

  /** Truncation toward zero. */
  function Trunc(x: real): int {
    if x >= 0.0 then x.Floor else -((-x).Floor)
  }

  /** JavaScript's `%` on numbers: the remainder of the truncating
      division, with the sign of the dividend. */
  function JsRem(a: real, b: real): real
    requires b != 0.0
  {
    a - b * (Trunc(a / b) as real)
  }

  /** `1 + Math.floor(yTotal / contentHeight)`. */
  function PageOf(yTotal: real): int {
    1 + (yTotal / ContentHeight).Floor
  }

  /** `(yTotal % contentHeight) + marginTop`. */
  function YOnPage(yTotal: real): real {
    JsRem(yTotal, ContentHeight) + MarginTop
  }

  /** Below the top of the resume, a vertical offset is cut into whole
      printed pages and a position inside the printed area of the next one:
      the page is at least 1, the position lies within the printed area,
      and page and position together give the offset back. */
  lemma PageDecomposition(yTotal: real)
    requires yTotal >= 0.0
    ensures PageOf(yTotal) >= 1
    ensures MarginTop <= YOnPage(yTotal) < MarginTop + ContentHeight
    ensures (PageOf(yTotal) - 1) as real * ContentHeight + (YOnPage(yTotal) - MarginTop) == yTotal
  {
    var q := yTotal / ContentHeight;
    assert ContentHeight == 272.0;
    assert Trunc(q) == q.Floor;
    assert q.Floor as real <= q < q.Floor as real + 1.0;
    assert q.Floor as real * 272.0 <= q * 272.0 < (q.Floor as real + 1.0) * 272.0;
  }

  /** A link 280 mm down lands 8 mm into the printed area of page 2. */
  lemma PageOfExample()
    ensures PageOf(280.0) == 2 && YOnPage(280.0) == 18.0
  {
    assert 280.0 / ContentHeight == 280.0 / 272.0;
    assert (280.0 / 272.0).Floor == 1;
  }

  /** Above the top of the resume the two halves disagree: the page is
      floored to 0 while the remainder keeps the negative sign, so the link
      would be placed on a page that does not exist. */
  lemma PageAboveTop(yTotal: real)
    requires -ContentHeight < yTotal < 0.0
    ensures PageOf(yTotal) == 0
    ensures YOnPage(yTotal) == yTotal + MarginTop
  {
    var q := yTotal / ContentHeight;
    assert -1.0 < q < 0.0;
    assert Trunc(q) == 0;
  }

  /** An anchor of the rendered resume: its box in pixels and its `href`
      attribute, if any. */
  datatype LinkBox = LinkBox(top: real, left: real, width: real, height: real, href: Option<string>)

  /** One `pdf.setPage(page); pdf.link(x, y, w, h, { url })`. */
  datatype Placement = Placement(page: int, x: real, y: real, width: real, height: real, url: string)

  /** Whether the anchor has a truthy `href`. */
  predicate HasHref(link: LinkBox) {
    link.href.Some? && link.href.value != ""
  }

  /** Where one anchor goes, relative to the top left corner of the resume
      container; nothing for an anchor without an `href`. */
  function PlaceLink(link: LinkBox, containerTop: real, containerLeft: real): (r: Option<Placement>)
    ensures r.Some? <==> HasHref(link)
    ensures r.Some? ==> r.value.url == link.href.value
    ensures r.Some? ==> r.value.page == PageOf((link.top - containerTop) * PxToMm)
    ensures r.Some? ==> r.value.y == YOnPage((link.top - containerTop) * PxToMm)
    ensures r.Some? ==> r.value.x == (link.left - containerLeft) * PxToMm
    ensures r.Some? ==> r.value.width == link.width * PxToMm && r.value.height == link.height * PxToMm
  {
    if !HasHref(link) then None
    else
      var yTotal := (link.top - containerTop) * PxToMm;
      Some(Placement(
        PageOf(yTotal), (link.left - containerLeft) * PxToMm, YOnPage(yTotal),
        link.width * PxToMm, link.height * PxToMm, link.href.value))
  }

  /** The placements made for a run of anchors, in document order. */
  function Placements(links: seq<LinkBox>, containerTop: real, containerLeft: real): seq<Placement> {
    if links == [] then []
    else
      var last := links[|links| - 1];
      Placements(links[..|links| - 1], containerTop, containerLeft)
      + (match PlaceLink(last, containerTop, containerLeft) case Some(p) => [p] case None => [])
  }

  /** `addLinksToPdf`: the `forEach` over the anchors, recording each
      placement it makes in order. */
  method AddLinksToPdf(links: seq<LinkBox>, containerTop: real, containerLeft: real) returns (placed: seq<Placement>)
    ensures placed == Placements(links, containerTop, containerLeft)
  {
    placed := [];
    for i := 0 to |links|
      invariant placed == Placements(links[..i], containerTop, containerLeft)
    {
      assert links[..i + 1][..i] == links[..i];
      var p := PlaceLink(links[i], containerTop, containerLeft);
      if p.Some? {
        placed := placed + [p.value];
      }
    }
    assert links[..|links|] == links;
  }

  /** One placement per anchor with an `href`, and none for the others. */
  lemma {:induction false} PlacementsCount(links: seq<LinkBox>, containerTop: real, containerLeft: real)
    ensures |Placements(links, containerTop, containerLeft)| == |Filter(links, HasHref)|
  {
    if links != [] {
      var init, last := links[..|links| - 1], links[|links| - 1];
      PlacementsCount(init, containerTop, containerLeft);
      assert links == init + [last];
      FilterAppend(init, [last], HasHref);
      assert Filter([last], HasHref) == if HasHref(last) then [last] else [];
    }
  }

  /** Every anchor inside the container lands on a real page, inside its
      printed area. */
  lemma {:induction false} PlacementsOnPages(links: seq<LinkBox>, containerTop: real, containerLeft: real)
    requires forall i :: 0 <= i < |links| ==> links[i].top >= containerTop
    ensures forall i :: 0 <= i < |Placements(links, containerTop, containerLeft)| ==>
      && Placements(links, containerTop, containerLeft)[i].page >= 1
      && MarginTop <= Placements(links, containerTop, containerLeft)[i].y < MarginTop + ContentHeight
  {
    if links != [] {
      var init, last := links[..|links| - 1], links[|links| - 1];
      PlacementsOnPages(init, containerTop, containerLeft);
      PageDecomposition((last.top - containerTop) * PxToMm);
    }
  }

  /** `s.replace(/\s+/g, '_')`: every run of whitespace becomes one `_`. */
  function CollapseWhitespace(s: string): (r: string)
    ensures NoWhitespace(r)
    decreases |s|
  {
    if s == "" then ""
    else if IsWhitespace(s[0]) then
      var rest := TrimStart(s);
      "_" + CollapseWhitespace(rest)
    else [s[0]] + CollapseWhitespace(s[1..])
  }

  /** The name of the downloaded file. */
  function PdfFileName(fullName: string): string {
    CollapseWhitespace(fullName) + "_Resume.pdf"
  }

  /** Text without whitespace passes unchanged, and is then followed by the
      rest as collapsed. */
  lemma {:induction false} CollapseWord(a: string, b: string)
    requires NoWhitespace(a)
    ensures CollapseWhitespace(a + b) == a + CollapseWhitespace(b)
  {
    if a != "" {
      assert (a + b)[0] == a[0];
      assert (a + b)[1..] == a[1..] + b;
      CollapseWord(a[1..], b);
      assert a == [a[0]] + a[1..];
    } else {
      assert a + b == b;
    }
  }

  lemma {:induction false} TrimStartOfRun(w: string, s: string)
    requires AllWhitespace(w)
    requires s == "" || !IsWhitespace(s[0])
    ensures TrimStart(w + s) == s
  {
    if w != "" {
      assert (w + s)[1..] == w[1..] + s;
      TrimStartOfRun(w[1..], s);
    } else {
      assert w + s == s;
    }
  }

  /** A whole run of whitespace, however long, becomes a single `_`. */
  lemma CollapseRun(w: string, s: string)
    requires |w| >= 1 && AllWhitespace(w)
    requires s == "" || !IsWhitespace(s[0])
    ensures CollapseWhitespace(w + s) == "_" + CollapseWhitespace(s)
  {
    TrimStartOfRun(w, s);
    assert (w + s)[0] == w[0];
  }

  /** Two words separated by a run of whitespace are joined by one `_`. */
  lemma FileNameOfTwoWords(first: string, gap: string, last: string)
    requires |first| >= 1 && NoWhitespace(first) && |last| >= 1 && NoWhitespace(last)
    requires |gap| >= 1 && AllWhitespace(gap)
    ensures PdfFileName(first + gap + last) == first + "_" + last + "_Resume.pdf"
  {
    assert first + gap + last == first + (gap + last);
    CollapseWord(first, gap + last);
    CollapseRun(gap, last);
    CollapseWord(last, "");
    assert last + "" == last;
  }

  /** The plain-text cover letter: `replace(/[*]+/g, '')` removes every
      star and nothing else. */
  function StripStars(s: string): (r: string)
    ensures forall i :: 0 <= i < |r| ==> r[i] != '*'
    ensures |r| <= |s|
  {
    Filter(s, (c: char) => c != '*')
  }

  /** Every other character occurs as often as before, and no star is
      left. */
  lemma StripStarsCounts(s: string, c: char)
    ensures multiset(StripStars(s))[c] == if c == '*' then 0 else multiset(s)[c]
  {
    FilterCounts(s, (c: char) => c != '*', c);
  }

  /** Removing the stars keeps the other characters in their order. */
  lemma StripStarsAppend(a: string, b: string)
    ensures StripStars(a + b) == StripStars(a) + StripStars(b)
  {
    FilterAppend(a, b, (c: char) => c != '*');
  }

  /** Text without stars is left unchanged. */
  lemma StripStarsNone(s: string)
    requires forall i :: 0 <= i < |s| ==> s[i] != '*'
    ensures StripStars(s) == s
  {
    FilterKeepsAll(s, (c: char) => c != '*');
  }
}
