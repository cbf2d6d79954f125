/**
 * The layout arithmetic of the panel renderer: which page a content object
 * selects, the title and navigation highlight, the skills and project-card
 * grids, the social icons, the detail page (image letterbox, technology row,
 * word-wrapped description, key features), the image cache and the scroll
 * offset. Drawing itself is left out; text width is an abstract `measure`.
 */
module Renderer {
  import opened Common
  import opened JsText
  import opened Content
  import opened HitZones
  import Panel

  // ---------------------------------------------------------------------
  // Page selection, title and navigation highlight
  // ---------------------------------------------------------------------

  datatype Page = DetailPage | AboutPage | SkillsPage | ExperiencePage

  /** `createUITexture(content)`: a project detail wins; otherwise the content type picks the page, about by default. */
  function SelectPage(c: Panel.PanelContent): Page {
    if c.projectDetail.Some? then DetailPage
    else if c.kind == Some(Skills) then SkillsPage
    else if c.kind == Some(Experience) then ExperiencePage
    else AboutPage
  }

  /** The page drawn for the content the panel builds shows exactly its state: the detail, or the section. */
  lemma PanelContentSelectsPage(detail: Option<Project>, s: Section)
    ensures SelectPage(Panel.ContentFor(detail, s))
         == if detail.Some? then DetailPage
            else match s case About => AboutPage case Skills => SkillsPage case Experience => ExperiencePage
  {
  }

  /** `content.title || 'About'`. */
  function TitleText(title: Option<string>): (r: string)
    ensures r != ""
    ensures title.Some? && title.value != "" ==> r == title.value
  {
    if title.Some? && title.value != "" then title.value else "About"
  }

  /** A navigation item is highlighted when `activeNav` is set and equal to it ignoring case. */
  predicate IsActiveNav(activeNav: Option<string>, item: string) {
    activeNav.Some? && activeNav.value != "" && ToLowerAscii(activeNav.value) == ToLowerAscii(item)
  }

  lemma LowerSectionNames()
    ensures ToLowerAscii("About") == "about" && ToLowerAscii("about") == "about"
    ensures ToLowerAscii("Skills") == "skills" && ToLowerAscii("skills") == "skills"
    ensures ToLowerAscii("Experience") == "experience" && ToLowerAscii("experience") == "experience"
  {
    assert ToLowerAscii("About") == "about" by {
      var r := ToLowerAscii("About");
      assert r[0] == 'a' && r[1] == 'b';
    }
    assert ToLowerAscii("Skills") == "skills" by {
      var r := ToLowerAscii("Skills");
      assert r[0] == 's' && r[1] == 'k';
    }
    assert ToLowerAscii("Experience") == "experience" by {
      var r := ToLowerAscii("Experience");
      assert r[0] == 'e' && r[1] == 'x';
    }
  }

  /** With the section name as `activeNav`, exactly the item of that section is highlighted. */
  lemma NavHighlightExactlyActive(s: Section, t: Section)
    ensures IsActiveNav(Some(SectionName(s)), NavLabel(t)) <==> s == t
  {
    LowerSectionNames();
  }

  // ---------------------------------------------------------------------
  // Grids and icons
  // ---------------------------------------------------------------------

  datatype Point = Point(x: real, y: real)

  const SkillColumns: nat := 4

  /** Top-left of skill cell `i`: four columns 210 apart, rows 115 apart, from `(0.55 width, 200)`. */
  function SkillCell(width: real, i: nat): Point {
    Point(width * 0.55 + (i % SkillColumns) as real * (120.0 + 90.0),
          200.0 + (i / SkillColumns) as real * (100.0 + 15.0))
  }

  /** Where the skill name is drawn inside its cell (centred, near the bottom). */
  function SkillLabel(width: real, i: nat): Point {
    var c := SkillCell(width, i);
    Point(c.x + 60.0, c.y + 75.0)
  }

  /** Distinct skills get distinct cells, and the fourteen skills fill rows 0 to 3. */
  lemma SkillCellsDistinct(width: real, i: nat, j: nat)
    requires SkillCell(width, i) == SkillCell(width, j)
    ensures i == j
  {
    assert (i % 4) as real * 210.0 == (j % 4) as real * 210.0;
    assert (i / 4) as real * 115.0 == (j / 4) as real * 115.0;
    assert i == 4 * (i / 4) + i % 4 && j == 4 * (j / 4) + j % 4;
  }

  lemma SkillRows()
    ensures forall i :: 0 <= i < |SkillsTable| ==> i / SkillColumns <= 3
    ensures (|SkillsTable| - 1) / SkillColumns == 3
  {
  }

  /** Top-left of project card `i`: two columns `0.19 width + 30` apart, rows 185 apart. */
  function CardOrigin(width: real, i: nat): Point {
    Point(width * 0.55 + GridColumn(i) as real * (width * 0.19 + 30.0),
          200.0 + GridRow(i) as real * (160.0 + 25.0))
  }

  /** With a positive width, distinct cards get distinct origins. */
  lemma CardOriginsDistinct(width: real, i: nat, j: nat)
    requires width > 0.0
    requires CardOrigin(width, i) == CardOrigin(width, j)
    ensures i == j
  {
    GridIndexRoundTrip(i);
    GridIndexRoundTrip(j);
    assert GridColumn(i) as real * (width * 0.19 + 30.0) == GridColumn(j) as real * (width * 0.19 + 30.0);
    assert GridRow(i) as real * 185.0 == GridRow(j) as real * 185.0;
  }

  /** A drawn social icon: its table index and top-left corner. */
  datatype Icon = Icon(index: nat, at: Point)

  /** The icons drawn from index `from` on: only those whose name is in the icon cache. */
  function IconsFrom(height: real, cached: set<string>, from: nat): (r: seq<Icon>)
    requires from <= |SocialMedia|
    ensures |r| <= |SocialMedia| - from
    ensures forall k :: 0 <= k < |r| ==> from <= r[k].index < |SocialMedia|
    ensures forall k :: 0 <= k < |r| ==> SocialMedia[r[k].index].name in cached
    ensures forall k :: 0 <= k < |r| ==> r[k].at == Point(60.0 + 100.0 * r[k].index as real, height - 148.0)
    ensures forall k, l :: 0 <= k < l < |r| ==> r[k].index < r[l].index
    decreases |SocialMedia| - from
  {
    if from == |SocialMedia| then []
    else
      var rest := IconsFrom(height, cached, from + 1);
      if SocialMedia[from].name in cached
      then [Icon(from, Point(60.0 + 100.0 * from as real, height - 148.0))] + rest
      else rest
  }

  /** `renderSocialMediaIcons`: icon `i` at `(60 + 100 i, height - 148)` iff its icon is cached. */
  function SocialIcons(height: real, cached: set<string>): seq<Icon> {
    IconsFrom(height, cached, 0)
  }

  /** Every social entry whose icon is cached is drawn. */
  lemma {:induction false} IconsFromComplete(height: real, cached: set<string>, from: nat, i: nat)
    requires from <= i < |SocialMedia| && SocialMedia[i].name in cached
    ensures exists k :: 0 <= k < |IconsFrom(height, cached, from)| && IconsFrom(height, cached, from)[k].index == i
    decreases |SocialMedia| - from
  {
    var r := IconsFrom(height, cached, from);
    if i == from {
      assert r[0].index == i;
    } else {
      IconsFromComplete(height, cached, from + 1, i);
      var rest := IconsFrom(height, cached, from + 1);
      var k :| 0 <= k < |rest| && rest[k].index == i;
      if SocialMedia[from].name in cached {
        assert r[k + 1] == rest[k];
      } else {
        assert r[k] == rest[k];
      }
    }
  }

  /** Icon `i` is drawn iff the icon of social entry `i` is cached. */
  lemma SocialIconDrawnIffCached(height: real, cached: set<string>, i: nat)
    requires i < |SocialMedia|
    ensures (exists k :: 0 <= k < |SocialIcons(height, cached)| && SocialIcons(height, cached)[k].index == i)
        <==> SocialMedia[i].name in cached
  {
    assert SocialIcons(height, cached) == IconsFrom(height, cached, 0);
    if SocialMedia[i].name in cached {
      IconsFromComplete(height, cached, 0, i);
    }
  }

  /** Without any cached icon nothing is drawn; with all three cached, all three are, in order. */
  lemma SocialIconsExtremes(height: real)
    ensures SocialIcons(height, {}) == []
    ensures |SocialIcons(height, {"linkedin", "github", "email"})| == 3
  {
    var names := {"linkedin", "github", "email"};
    assert SocialMedia[0].name in names && SocialMedia[1].name in names && SocialMedia[2].name in names;
    assert |IconsFrom(height, names, 2)| == 1;
    assert |IconsFrom(height, names, 1)| == 2;
  }

  // ---------------------------------------------------------------------
  // Detail page: image letterbox
  // ---------------------------------------------------------------------

  /** A decoded image; the model only considers images with positive dimensions. */
  datatype Image = Image(width: real, height: real)

  predicate ValidImage(img: Image) {
    img.width > 0.0 && img.height > 0.0
  }

  datatype Rect = Rect(x: real, y: real, w: real, h: real)

  predicate Inside(r: Rect, box: Rect) {
    box.x <= r.x && r.x + r.w <= box.x + box.w && box.y <= r.y && r.y + r.h <= box.y + box.h
  }

  /** The image box of the detail page. */
  function ImageBox(width: real, height: real): Rect {
    Rect(width * 0.61, height * 0.25, width * 0.35, 600.0)
  }

  /** Letterbox fit: the widest rectangle with the image's aspect ratio that the box holds, centred in it. */
  function Fit(box: Rect, img: Image): (r: Rect)
    requires box.w > 0.0 && box.h > 0.0 && ValidImage(img)
    ensures r.w > 0.0 && r.h > 0.0
    ensures Inside(r, box)
    ensures r.w * img.height == r.h * img.width
    ensures r.w == box.w || r.h == box.h
    ensures r.x - box.x == (box.x + box.w) - (r.x + r.w)
    ensures r.y - box.y == (box.y + box.h) - (r.y + r.h)
  {
    var boxAspect := box.w / box.h;
    var imageAspect := img.width / img.height;
    if imageAspect > boxAspect then
      var fw := box.w;
      var fh := fw / imageAspect;
      FitWide(box.w, box.h, img.width, img.height);
      Rect(box.x + (box.w - fw) / 2.0, box.y + (box.h - fh) / 2.0, fw, fh)
    else
      var fh := box.h;
      var fw := fh * imageAspect;
      FitTall(box.w, box.h, img.width, img.height);
      Rect(box.x + (box.w - fw) / 2.0, box.y + (box.h - fh) / 2.0, fw, fh)
  }

  /** A relatively wider image spans the box width and is at most as high as the box. */
  lemma FitWide(bw: real, bh: real, iw: real, ih: real)
    requires bw > 0.0 && bh > 0.0 && iw > 0.0 && ih > 0.0
    requires iw / ih > bw / bh
    ensures 0.0 < bw / (iw / ih) <= bh
    ensures bw * ih == (bw / (iw / ih)) * iw
  {
    var a := iw / ih;
    assert a * ih == iw;
    assert a > 0.0;
    var fh := bw / a;
    assert fh * a == bw;
    assert bw / bh < a;
    assert bw < a * bh by {
      assert (bw / bh) * bh == bw;
    }
    assert fh * a <= bh * a;
    assert fh * iw == fh * a * ih;
  }

  /** A relatively taller image spans the box height and is at most as wide as the box. */
  lemma FitTall(bw: real, bh: real, iw: real, ih: real)
    requires bw > 0.0 && bh > 0.0 && iw > 0.0 && ih > 0.0
    requires !(iw / ih > bw / bh)
    ensures 0.0 < bh * (iw / ih) <= bw
    ensures (bh * (iw / ih)) * ih == bh * iw
  {
    var a := iw / ih;
    assert a * ih == iw;
    assert (bw / bh) * bh == bw;
    assert a * bh <= (bw / bh) * bh;
  }

  // ---------------------------------------------------------------------
  // Detail page: image cache
  // ---------------------------------------------------------------------

  /**
   * `loadImage(src, id)`: a cached image is returned without loading;
   * otherwise `outcome` is what the browser's load produced, stored and
   * returned on success, `null` (not stored) on failure.
   */
  function LoadImage(cache: map<int, Image>, id: int, outcome: Option<Image>): (r: (map<int, Image>, Option<Image>))
    ensures id in cache ==> r == (cache, Some(cache[id]))
    ensures id !in cache && outcome.None? ==> r == (cache, None)
    ensures id !in cache && outcome.Some? ==> r == (cache[id := outcome.value], outcome)
  {
    if id in cache then (cache, Some(cache[id]))
    else match outcome
      case None => (cache, None)
      case Some(img) => (cache[id := img], Some(img))
  }

  /** Loading never forgets or replaces a cached image. */
  lemma LoadImageOnlyAdds(cache: map<int, Image>, id: int, outcome: Option<Image>)
    ensures cache.Keys <= LoadImage(cache, id, outcome).0.Keys
    ensures forall k :: k in cache ==> LoadImage(cache, id, outcome).0[k] == cache[k]
  {
  }

  /** After one successful load, a second load of the same id ignores its outcome: it is a cache hit. */
  lemma LoadImageIdempotent(cache: map<int, Image>, id: int, first: Option<Image>, second: Option<Image>)
    requires LoadImage(cache, id, first).1.Some?
    ensures var c1 := LoadImage(cache, id, first).0;
            LoadImage(c1, id, second) == (c1, LoadImage(cache, id, first).1)
  {
  }

  /**
   * `renderProjectImage`: nothing without an image field; otherwise the cached
   * or freshly loaded image, letterboxed into the image box.
   */
  function RenderProjectImage(width: real, height: real, p: Project, cache: map<int, Image>, outcome: Option<Image>)
    : (r: (map<int, Image>, Option<Rect>))
    requires width > 0.0
    requires forall k :: k in cache ==> ValidImage(cache[k])
    requires outcome.Some? ==> ValidImage(outcome.value)
    ensures !Truthy(p.image) ==> r == (cache, None)
    ensures Truthy(p.image) ==> r.0 == LoadImage(cache, p.id, outcome).0
    ensures r.1.Some? <==> Truthy(p.image) && LoadImage(cache, p.id, outcome).1.Some?
    ensures r.1.Some? ==> Inside(r.1.value, ImageBox(width, height))
  {
    if !Truthy(p.image) then (cache, None)
    else
      var (c, img) := LoadImage(cache, p.id, outcome);
      match img
      case None => (c, None)
      case Some(i) => (c, Some(Fit(ImageBox(width, height), i)))
  }

  // ---------------------------------------------------------------------
  // Detail page: technologies, description, key features
  // ---------------------------------------------------------------------

  /** `• <text>`, the bullet label of a technology or feature. */
  function Bullet(s: string): string {
    "• " + s
  }

  /** Total advance of the first `n` technology labels, each followed by the 40-pixel padding. */
  function Advance(techs: seq<string>, n: nat, measure: string -> real): real
    requires n <= |techs|
  {
    if n == 0 then 0.0 else Advance(techs, n - 1, measure) + measure(Bullet(techs[n - 1])) + 40.0
  }

  /** `renderTechnologies`: each label starts where the previous one ended plus the padding, from x = 60. */
  method TechnologyPositions(techs: seq<string>, measure: string -> real) returns (xs: seq<real>)
    ensures |xs| == |techs|
    ensures forall i :: 0 <= i < |xs| ==> xs[i] == 60.0 + Advance(techs, i, measure)
  {
    xs := [];
    var currentX := 60.0;
    var i := 0;
    while i < |techs|
      invariant 0 <= i <= |techs|
      invariant |xs| == i
      invariant currentX == 60.0 + Advance(techs, i, measure)
      invariant forall k :: 0 <= k < i ==> xs[k] == 60.0 + Advance(techs, k, measure)
    {
      xs := xs + [currentX];
      currentX := currentX + measure(Bullet(techs[i])) + 40.0;
      i := i + 1;
    }
  }

  /** With widths that are never negative, labels move strictly to the right. */
  lemma {:induction false} AdvanceIncreasing(techs: seq<string>, i: nat, j: nat, measure: string -> real)
    requires i < j <= |techs|
    requires forall s :: measure(s) >= 0.0
    ensures Advance(techs, i, measure) < Advance(techs, j, measure)
    decreases j
  {
    if i < j - 1 {
      AdvanceIncreasing(techs, i, j - 1, measure);
    }
  }

  /** A line of the wrapped text: its words, each drawn followed by one space. */
  function Render(line: seq<string>): string {
    if |line| == 0 then "" else Render(line[..|line| - 1]) + line[|line| - 1] + " "
  }

  function Flatten(lines: seq<seq<string>>): seq<string> {
    if |lines| == 0 then [] else Flatten(lines[..|lines| - 1]) + lines[|lines| - 1]
  }

  /** A line may exceed the width only when it is a single word. */
  predicate LineFits(line: seq<string>, maxWidth: real, measure: string -> real) {
    |line| >= 1 && (|line| == 1 || measure(Render(line)) <= maxWidth)
  }

  /** Line `i` was opened because its first word did not fit on line `i - 1`. */
  predicate BrokeBefore(lines: seq<seq<string>>, i: int, maxWidth: real, measure: string -> real) {
    1 <= i < |lines| && |lines[i]| >= 1 && measure(Render(lines[i - 1] + [lines[i][0]])) > maxWidth
  }

  /** Each line ends because its successor's first word did not fit on it. */
  predicate Greedy(lines: seq<seq<string>>, maxWidth: real, measure: string -> real) {
    forall i :: 1 <= i < |lines| ==> BrokeBefore(lines, i, maxWidth, measure)
  }

  lemma FlattenSnoc(lines: seq<seq<string>>, line: seq<string>)
    ensures Flatten(lines + [line]) == Flatten(lines) + line
  {
    assert (lines + [line])[..|lines|] == lines;
  }

  lemma LinesFitSnoc(lines: seq<seq<string>>, line: seq<string>, maxWidth: real, measure: string -> real)
    requires forall i :: 0 <= i < |lines| ==> LineFits(lines[i], maxWidth, measure)
    requires LineFits(line, maxWidth, measure)
    ensures forall i :: 0 <= i < |lines + [line]| ==> LineFits((lines + [line])[i], maxWidth, measure)
  {
    forall i | 0 <= i < |lines + [line]|
      ensures LineFits((lines + [line])[i], maxWidth, measure)
    {
      if i < |lines| {
        assert (lines + [line])[i] == lines[i];
      }
    }
  }

  /** Closing a line keeps the greedy property when the next line's first word did not fit. */
  lemma GreedySnoc(lines: seq<seq<string>>, line: seq<string>, maxWidth: real, measure: string -> real)
    requires |line| >= 1
    requires Greedy(lines, maxWidth, measure)
    requires |lines| >= 1 ==> measure(Render(lines[|lines| - 1] + [line[0]])) > maxWidth
    ensures Greedy(lines + [line], maxWidth, measure)
  {
    var ext := lines + [line];
    forall i | 1 <= i < |ext|
      ensures BrokeBefore(ext, i, maxWidth, measure)
    {
      if i < |lines| {
        assert BrokeBefore(lines, i, maxWidth, measure);
        assert ext[i - 1] == lines[i - 1] && ext[i] == lines[i];
      } else {
        assert ext[i - 1] == lines[|lines| - 1] && ext[i] == line;
      }
    }
  }

  /** The loop state of the wrap: closed lines and the open line hold `prefix`, and every rule holds so far. */
  predicate Wrapping(lines: seq<seq<string>>, line: seq<string>, prefix: seq<string>, maxWidth: real, measure: string -> real) {
    && Flatten(lines) + line == prefix
    && (forall i :: 0 <= i < |lines| ==> LineFits(lines[i], maxWidth, measure))
    && LineFits(line, maxWidth, measure)
    && Greedy(lines, maxWidth, measure)
    && (|lines| >= 1 ==> measure(Render(lines[|lines| - 1] + [line[0]])) > maxWidth)
  }

  /** The first word always opens the first line. */
  lemma WrapStart(words: seq<string>, maxWidth: real, measure: string -> real)
    requires |words| >= 1
    ensures Wrapping([], [words[0]], words[..1], maxWidth, measure)
  {
    assert words[..1] == [words[0]];
  }

  /** The next word does not fit: the open line is closed and the word opens a new one. */
  lemma WrapBreak(lines: seq<seq<string>>, line: seq<string>, words: seq<string>, n: nat,
                  maxWidth: real, measure: string -> real)
    requires n < |words|
    requires Wrapping(lines, line, words[..n], maxWidth, measure)
    requires measure(Render(line + [words[n]])) > maxWidth
    ensures Wrapping(lines + [line], [words[n]], words[..n + 1], maxWidth, measure)
  {
    assert words[..n + 1] == words[..n] + [words[n]];
    assert (line + [words[n]])[..|line|] == line;
    FlattenSnoc(lines, line);
    GreedySnoc(lines, line, maxWidth, measure);
    LinesFitSnoc(lines, line, maxWidth, measure);
  }

  /** The next word fits (or is the first): it joins the open line. */
  lemma WrapExtend(lines: seq<seq<string>>, line: seq<string>, words: seq<string>, n: nat,
                   maxWidth: real, measure: string -> real)
    requires n < |words|
    requires Wrapping(lines, line, words[..n], maxWidth, measure)
    requires measure(Render(line + [words[n]])) <= maxWidth
    ensures Wrapping(lines, line + [words[n]], words[..n + 1], maxWidth, measure)
  {
    assert words[..n + 1] == words[..n] + [words[n]];
    assert (line + [words[n]])[..|line|] == line;
    assert (line + [words[n]])[0] == line[0];
  }

  /** When the words run out, the open line is closed as the last line. */
  lemma WrapFinish(lines: seq<seq<string>>, line: seq<string>, words: seq<string>,
                   maxWidth: real, measure: string -> real)
    requires Wrapping(lines, line, words, maxWidth, measure)
    ensures Flatten(lines + [line]) == words
    ensures forall i :: 0 <= i < |lines + [line]| ==> LineFits((lines + [line])[i], maxWidth, measure)
    ensures Greedy(lines + [line], maxWidth, measure)
  {
    FlattenSnoc(lines, line);
    GreedySnoc(lines, line, maxWidth, measure);
    LinesFitSnoc(lines, line, maxWidth, measure);
  }

  /**
   * The greedy word wrap of the description and of card titles: a word is
   * appended while the line with it measures at most `maxWidth`, except
   * that the very first word always goes on the first line.
   */
  method WrapWords(words: seq<string>, maxWidth: real, measure: string -> real) returns (lines: seq<seq<string>>)
    requires |words| >= 1
    ensures |lines| >= 1
    ensures Flatten(lines) == words
    ensures forall i :: 0 <= i < |lines| ==> LineFits(lines[i], maxWidth, measure)
    ensures Greedy(lines, maxWidth, measure)
  {
    lines := [];
    var line: seq<string> := [words[0]];
    var n := 1;
    WrapStart(words, maxWidth, measure);
    while n < |words|
      invariant 1 <= n <= |words|
      invariant Wrapping(lines, line, words[..n], maxWidth, measure)
    {
      if measure(Render(line + [words[n]])) > maxWidth {
        WrapBreak(lines, line, words, n, maxWidth, measure);
        lines := lines + [line];
        line := [words[n]];
      } else {
        WrapExtend(lines, line, words, n, maxWidth, measure);
        line := line + [words[n]];
      }
      n := n + 1;
    }
    assert words[..n] == words;
    WrapFinish(lines, line, words, maxWidth, measure);
    lines := lines + [line];
  }

  /**
   * `renderProjectDescription`: the project's description split at spaces
   * and wrapped at 0.56 of the width; returns the lines and the y just below
   * them.
   */
  method RenderProjectDescription(width: real, description: string, measure: string -> real)
    returns (lines: seq<seq<string>>, endY: real)
    ensures Flatten(lines) == Split(description, ' ')
    ensures Join(Flatten(lines), ' ') == description
    ensures forall i :: 0 <= i < |lines| ==> |lines[i]| >= 1
    ensures forall i :: 0 <= i < |lines| ==> LineFits(lines[i], width * 0.56, measure)
    ensures Greedy(lines, width * 0.56, measure)
    ensures endY == 390.0 + 35.0 * (|lines| - 1) as real + 35.0 * 1.3
  {
    var words := Split(description, ' ');
    lines := WrapWords(words, width * 0.56, measure);
    JoinSplit(description, ' ');
    endY := 390.0 + 35.0 * (|lines| - 1) as real + 35.0 * 1.3;
  }

  /** `renderKeyFeatures(start)`: the heading 15 below `start`, then one bullet every 50; returns the y after the last. */
  method RenderKeyFeatures(start: real, features: seq<string>) returns (items: seq<(string, real)>, y: real)
    ensures |items| == |features|
    ensures forall i :: 0 <= i < |items| ==> items[i] == (Bullet(features[i]), start + 65.0 + 50.0 * i as real)
    ensures y == start + 15.0 + 50.0 + 50.0 * |features| as real
  {
    y := start + 15.0;
    y := y + 50.0;
    items := [];
    var i := 0;
    while i < |features|
      invariant 0 <= i <= |features|
      invariant |items| == i
      invariant y == start + 65.0 + 50.0 * i as real
      invariant forall k :: 0 <= k < i ==> items[k] == (Bullet(features[k]), start + 65.0 + 50.0 * k as real)
    {
      items := items + [(Bullet(features[i]), y)];
      y := y + 50.0;
      i := i + 1;
    }
  }

  /** Layout of one project card: origin, title lines and the y of the type line. */
  datatype Card = Card(project: Project, at: Point, title: seq<seq<string>>, kindY: real)

  /** Card `i` shows project `p` at its grid origin, with the title wrapped greedily to fit the card width minus 40. */
  predicate CardLaidOut(c: Card, p: Project, width: real, i: nat, measure: string -> real) {
    && c.project == p
    && c.at == CardOrigin(width, i)
    && (forall k :: 0 <= k < |c.title| ==> |c.title[k]| >= 1)
    && Flatten(c.title) == Split(p.title, ' ')
    && (forall k :: 0 <= k < |c.title| ==> LineFits(c.title[k], width * 0.19 - 40.0, measure))
    && Greedy(c.title, width * 0.19 - 40.0, measure)
    && c.kindY == c.at.y + 23.0 + 35.0 * (|c.title| - 1) as real + 40.0
  }

  lemma CardsSnoc(cards: seq<Card>, card: Card, shown: seq<Project>, width: real, measure: string -> real)
    requires |cards| < |shown|
    requires forall k :: 0 <= k < |cards| ==> CardLaidOut(cards[k], shown[k], width, k, measure)
    requires CardLaidOut(card, shown[|cards|], width, |cards|, measure)
    ensures forall k :: 0 <= k < |cards| + 1 ==> CardLaidOut((cards + [card])[k], shown[k], width, k, measure)
  {
    forall k | 0 <= k < |cards| + 1
      ensures CardLaidOut((cards + [card])[k], shown[k], width, k, measure)
    {
      if k < |cards| {
        assert (cards + [card])[k] == cards[k];
      }
    }
  }

  /** `renderProjectCards`: one card per project of `projectsData.slice(0, 6)`. */
  method RenderProjectCards(width: real, measure: string -> real) returns (cards: seq<Card>)
    ensures |cards| == |Slice(Projects, 6)|
    ensures forall i :: 0 <= i < |cards| ==> CardLaidOut(cards[i], Slice(Projects, 6)[i], width, i, measure)
  {
    cards := LayOutCards(Slice(Projects, 6), width, measure);
  }

  /** The card loop over the projects shown, one card each, in order. */
  method LayOutCards(shown: seq<Project>, width: real, measure: string -> real) returns (cards: seq<Card>)
    ensures |cards| == |shown|
    ensures forall i :: 0 <= i < |cards| ==> CardLaidOut(cards[i], shown[i], width, i, measure)
  {
    cards := [];
    var i := 0;
    while i < |shown|
      invariant 0 <= i <= |shown|
      invariant |cards| == i
      invariant forall k :: 0 <= k < i ==> CardLaidOut(cards[k], shown[k], width, k, measure)
    {
      var p := shown[i];
      var title := WrapWords(Split(p.title, ' '), width * 0.19 - 40.0, measure);
      var at := CardOrigin(width, i);
      var card := Card(p, at, title, at.y + 23.0 + 35.0 * (|title| - 1) as real + 40.0);
      assert CardLaidOut(card, shown[i], width, i, measure);
      CardsSnoc(cards, card, shown, width, measure);
      cards := cards + [card];
      i := i + 1;
    }
  }

  /** A card title read back from its lines is the project title. */
  lemma CardTitleKeepsWords(c: Card, p: Project, width: real, i: nat, measure: string -> real)
    requires CardLaidOut(c, p, width, i, measure)
    ensures Join(Flatten(c.title), ' ') == p.title
  {
    JoinSplit(p.title, ' ');
  }

  // ---------------------------------------------------------------------
  // Scroll offset
  // ---------------------------------------------------------------------

  /** `handleScroll(deltaY)`: move by half the delta, clamp, store and return the stored value. */
  function HandleScroll(scrollY: real, deltaY: real): (r: real)
    ensures r <= Panel.MaxScroll
    ensures Panel.MaxScroll >= 0.0 ==> 0.0 <= r
  {
    Panel.ClampScroll(scrollY + deltaY * 0.5, Panel.MaxScroll)
  }

  /** With the five-project table the stored offset is always the (negative) bound. */
  lemma RendererScrollAtBound(scrollY: real, deltaY: real)
    ensures HandleScroll(scrollY, deltaY) == -400.0
  {
    Panel.MaxScrollValue();
  }
}
