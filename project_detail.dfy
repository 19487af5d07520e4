/**
 * The rules inside the project detail page: which view a route shows, the
 * in-page navigation lists, which blocks carry element ids, the background
 * alternation, the back link, and which optional parts are rendered.
 *
 * The page is modelled as the sequence of blocks its template emits, with
 * the props each call site passes: a `SectionDivider` (title bar with an
 * element id) or a `SectionWrapper` (background panel with a variant and,
 * at two call sites, an `id` prop).
 */
module ProjectDetail {
  import opened Wrappers
  import opened Projects
  import opened ProjectTable

  // ---------------------------------------------------------------------
  // Route: lookup and not-found fallback
  // ---------------------------------------------------------------------

  /** What the detail route renders: the fallback with its link home, or the record's page. */
  datatype View = NotFound(homeLink: string) | Detail(project: ProjectData)

  /**
   * `getProjectById(projectId || '')`: a missing route parameter is looked up
   * as the empty id; an id no record has gives the not-found view.
   */
  function RouteView(projectId: Option<string>): (v: View)
    ensures v.NotFound? <==> forall i :: 0 <= i < |Catalog| ==> Catalog[i].id != projectId.GetOr("")
    ensures v.NotFound? ==> v.homeLink == "/"
    ensures v.Detail? ==> v.project in Catalog && v.project.id == projectId.GetOr("")
  {
    match GetProjectById(projectId.GetOr(""))
    case None => NotFound("/")
    case Some(p) => Detail(p)
  }

  /** Without a route parameter the page is the not-found view. */
  lemma MissingIdNotFound()
    ensures RouteView(None) == NotFound("/")
  {
    EmptyIdNotFound();
  }

  /** The route of a catalog record shows that record's page. */
  lemma KnownIdShowsDetail(r: ProjectData)
    requires r in Catalog
    ensures RouteView(Some(r.id)) == Detail(r)
  {
    LookupOwnId(r);
  }

  // ---------------------------------------------------------------------
  // Navigation lists
  // ---------------------------------------------------------------------

  /** The id of each section, in section order. */
  function SectionIds(sections: seq<Section>): (ids: seq<string>)
    ensures |ids| == |sections|
    ensures forall i :: 0 <= i < |sections| ==> ids[i] == sections[i].id
  {
    if sections == [] then [] else [sections[0].id] + SectionIds(sections[1..])
  }

  /** The anchors `QuickNav` links to, in the order it lists them. */
  function QuickNavAnchors(sections: seq<Section>): seq<string>
  {
    ["overview", "screenshots"] + SectionIds(sections) + ["reflection"]
  }

  /**
   * QuickNav lists `n + 3` anchors for `n` sections: the overview, the
   * screenshots, every section id in section order, then the reflection.
   */
  lemma QuickNavOrder(sections: seq<Section>)
    ensures |QuickNavAnchors(sections)| == |sections| + 3
    ensures QuickNavAnchors(sections)[0] == "overview" && QuickNavAnchors(sections)[1] == "screenshots"
    ensures forall i :: 0 <= i < |sections| ==> QuickNavAnchors(sections)[i + 2] == sections[i].id
    ensures QuickNavAnchors(sections)[|sections| + 2] == "reflection"
  {
  }

  /** For a record with well-formed section ids, no anchor is listed twice. */
  lemma QuickNavDistinct(p: ProjectData)
    requires SectionIdsWellFormed(p)
    ensures forall i, j :: 0 <= i < j < |QuickNavAnchors(p.sections)| ==>
              QuickNavAnchors(p.sections)[i] != QuickNavAnchors(p.sections)[j]
  {
    var a := QuickNavAnchors(p.sections);
    var n := |p.sections|;
    forall i, j | 0 <= i < j < |a| ensures a[i] != a[j] {
      if 2 <= i && j < n + 2 {
        assert a[i] == p.sections[i - 2].id && a[j] == p.sections[j - 2].id;
      } else if 2 <= i {
        assert a[i] == p.sections[i - 2].id;
      } else if 2 <= j < n + 2 {
        assert a[j] == p.sections[j - 2].id;
      }
    }
  }

  /**
   * `Array.prototype.slice(start, end)` for non-negative bounds: both are
   * clamped to the length, and a start at or past the end gives `[]`.
   */
  function Slice<T>(s: seq<T>, start: nat, end: nat): (r: seq<T>)
    ensures |r| == if start < end then Min(end, |s|) - Min(start, |s|) else 0
    ensures start < end ==> forall i :: 0 <= i < |r| ==> r[i] == s[start + i]
  {
    var lo, hi := Min(start, |s|), Min(end, |s|);
    if lo < hi then s[lo..hi] else []
  }

  function Min(a: nat, b: nat): (m: nat)
    ensures m <= a && m <= b && (m == a || m == b)
  {
    if a < b then a else b
  }

  /** The anchors the footer links to: the overview, then `sections.slice(0, 3)`. */
  function FooterAnchors(sections: seq<Section>): seq<string>
  {
    ["overview"] + SectionIds(Slice(sections, 0, 3))
  }

  /**
   * The footer lists the overview and then the first `min(3, n)` section ids
   * in order; every one of them is also a QuickNav anchor.
   */
  lemma FooterOrder(sections: seq<Section>)
    ensures |FooterAnchors(sections)| == 1 + Min(3, |sections|)
    ensures FooterAnchors(sections)[0] == "overview"
    ensures forall i :: 0 <= i < Min(3, |sections|) ==> FooterAnchors(sections)[i + 1] == sections[i].id
    ensures forall a :: a in FooterAnchors(sections) ==> a in QuickNavAnchors(sections)
  {
    var f, q := FooterAnchors(sections), QuickNavAnchors(sections);
    forall a | a in f ensures a in q {
      var k :| 0 <= k < |f| && f[k] == a;
      if k > 0 {
        assert a == sections[k - 1].id == q[k + 1];
      } else {
        assert q[0] == "overview";
      }
    }
  }

  // ---------------------------------------------------------------------
  // Blocks, element ids and backgrounds
  // ---------------------------------------------------------------------

  /** `SectionWrapper`'s `variant` prop. */
  datatype Variant = Default | Alt | Dark

  /** `SectionWrapper`'s background class for each variant. */
  function BackgroundClass(v: Variant): (c: string)
  {
    match v
    case Default => "bg-background"
    case Alt => "bg-surface"
    case Dark => "bg-surface-light"
  }

  /** Distinct variants have distinct background classes. */
  lemma BackgroundClassInjective(v: Variant, w: Variant)
    requires v != w
    ensures BackgroundClass(v) != BackgroundClass(w)
  {
    assert BackgroundClass(v)[3] != BackgroundClass(w)[3] || |BackgroundClass(v)| != |BackgroundClass(w)|;
  }

  /** The variant of the wrapper after section divider `index`: `index % 2 === 0 ? 'alt' : 'default'`. */
  function SectionVariant(index: nat): (v: Variant)
    ensures v == Alt <==> index % 2 == 0
    ensures v == Default <==> index % 2 == 1
  {
    if index % 2 == 0 then Alt else Default
  }

  /** A block of the page, with the props its call site passes. */
  datatype Block =
    | Divider(dividerId: string, title: string)
    | Wrapper(variant: Variant, idProp: Option<string>)

  /** The page's blocks in document order, as the template emits them. */
  function PageBlocks(p: ProjectData): seq<Block>
  {
    [Wrapper(Alt, Some("overview")), Wrapper(Default, Some("screenshots"))]
    + SectionBlocks(p.sections, 0)
    + [Divider("reflection", "Reflection"), Wrapper(SectionVariant(|p.sections|), None)]
  }

  /** Each section, numbered from `index`, as its divider followed by its wrapper. */
  function SectionBlocks(sections: seq<Section>, index: nat): seq<Block>
  {
    if sections == [] then []
    else
      [Divider(sections[0].id, sections[0].title), Wrapper(SectionVariant(index), None)]
      + SectionBlocks(sections[1..], index + 1)
  }

  /**
   * The element id a block renders as written: `SectionDivider` puts its
   * `id` on its element; `SectionWrapper` declares no `id` parameter, so the
   * `id` prop passed to it is dropped.
   */
  function ElementIdAsWritten(b: Block): Option<string>
  {
    match b
    case Divider(id, _) => Some(id)
    case Wrapper(_, _) => None
  }

  /** The element id a block renders once `SectionWrapper` forwards its `id` prop. */
  function ElementId(b: Block): Option<string>
  {
    match b
    case Divider(id, _) => Some(id)
    case Wrapper(_, id) => id
  }

  /** The element ids of `bs`, in document order, under `SectionWrapper` as written. */
  function RenderedIdsAsWritten(bs: seq<Block>): seq<string>
  {
    if bs == [] then []
    else
      (match ElementIdAsWritten(bs[0]) case Some(id) => [id] case None => [])
      + RenderedIdsAsWritten(bs[1..])
  }

  /** The element ids of `bs`, in document order, with the `id` prop forwarded. */
  function RenderedIds(bs: seq<Block>): seq<string>
  {
    if bs == [] then []
    else
      (match ElementId(bs[0]) case Some(id) => [id] case None => [])
      + RenderedIds(bs[1..])
  }

  lemma {:induction false} RenderedIdsAppend(a: seq<Block>, b: seq<Block>)
    ensures RenderedIds(a + b) == RenderedIds(a) + RenderedIds(b)
  {
    if a == [] {
      assert a + b == b;
    } else {
      var first := match ElementId(a[0]) case Some(id) => [id] case None => [];
      assert (a + b)[0] == a[0];
      assert (a + b)[1..] == a[1..] + b;
      assert RenderedIds(a + b) == first + RenderedIds(a[1..] + b);
      RenderedIdsAppend(a[1..], b);
    }
  }

  lemma {:induction false} RenderedIdsAsWrittenAppend(a: seq<Block>, b: seq<Block>)
    ensures RenderedIdsAsWritten(a + b) == RenderedIdsAsWritten(a) + RenderedIdsAsWritten(b)
  {
    if a == [] {
      assert a + b == b;
    } else {
      var first := match ElementIdAsWritten(a[0]) case Some(id) => [id] case None => [];
      assert (a + b)[0] == a[0];
      assert (a + b)[1..] == a[1..] + b;
      assert RenderedIdsAsWritten(a + b) == first + RenderedIdsAsWritten(a[1..] + b);
      RenderedIdsAsWrittenAppend(a[1..], b);
    }
  }

  /** Section blocks contribute exactly the section ids, under either definition. */
  lemma {:induction false} SectionBlocksIds(sections: seq<Section>, index: nat)
    ensures RenderedIds(SectionBlocks(sections, index)) == SectionIds(sections)
    ensures RenderedIdsAsWritten(SectionBlocks(sections, index)) == SectionIds(sections)
  {
    if sections != [] {
      var head := [Divider(sections[0].id, sections[0].title), Wrapper(SectionVariant(index), None)];
      var rest := SectionBlocks(sections[1..], index + 1);
      assert SectionBlocks(sections, index) == head + rest;
      RenderedIdsAppend(head, rest);
      RenderedIdsAsWrittenAppend(head, rest);
      assert head == [head[0]] + [head[1]];
      RenderedIdsAppend([head[0]], [head[1]]);
      RenderedIdsAsWrittenAppend([head[0]], [head[1]]);
      SectionBlocksIds(sections[1..], index + 1);
    }
  }

  /**
   * As written, the page's element ids are the section ids followed by
   * `reflection`; `overview` and `screenshots` are not among them.
   */
  lemma RenderedIdsAsWrittenOfPage(p: ProjectData)
    ensures RenderedIdsAsWritten(PageBlocks(p)) == SectionIds(p.sections) + ["reflection"]
  {
    var head := [Wrapper(Alt, Some("overview")), Wrapper(Default, Some("screenshots"))];
    var mid := SectionBlocks(p.sections, 0);
    var tail := [Divider("reflection", "Reflection"), Wrapper(SectionVariant(|p.sections|), None)];
    RenderedIdsAsWrittenAppend(head + mid, tail);
    RenderedIdsAsWrittenAppend(head, mid);
    SectionBlocksIds(p.sections, 0);
    assert RenderedIdsAsWritten(head) == [] by {
      assert head[1..] == [head[1]];
      assert [head[1]][1..] == [];
    }
    assert RenderedIdsAsWritten(tail) == ["reflection"] by {
      assert tail[1..] == [tail[1]];
      assert [tail[1]][1..] == [];
    }
  }

  /** With the `id` prop forwarded, the page's element ids are exactly QuickNav's anchors, in order. */
  lemma RenderedIdsOfPage(p: ProjectData)
    ensures RenderedIds(PageBlocks(p)) == QuickNavAnchors(p.sections)
  {
    var head := [Wrapper(Alt, Some("overview")), Wrapper(Default, Some("screenshots"))];
    var mid := SectionBlocks(p.sections, 0);
    var tail := [Divider("reflection", "Reflection"), Wrapper(SectionVariant(|p.sections|), None)];
    RenderedIdsAppend(head + mid, tail);
    RenderedIdsAppend(head, mid);
    SectionBlocksIds(p.sections, 0);
    assert RenderedIds(head) == ["overview", "screenshots"] by {
      assert head[1..] == [head[1]];
      assert [head[1]][1..] == [];
    }
    assert RenderedIds(tail) == ["reflection"] by {
      assert tail[1..] == [tail[1]];
      assert [tail[1]][1..] == [];
    }
  }

  /**
   * As written, the first QuickNav link and the first footer link both point
   * to `#overview`, and no element of the page has that id.
   */
  lemma OverviewLinkDangles(p: ProjectData)
    requires SectionIdsWellFormed(p)
    ensures QuickNavAnchors(p.sections)[0] == "overview" && FooterAnchors(p.sections)[0] == "overview"
    ensures "overview" !in RenderedIdsAsWritten(PageBlocks(p))
    ensures "screenshots" in QuickNavAnchors(p.sections) && "screenshots" !in RenderedIdsAsWritten(PageBlocks(p))
  {
    RenderedIdsAsWrittenOfPage(p);
    var ids := SectionIds(p.sections) + ["reflection"];
    assert QuickNavAnchors(p.sections)[1] == "screenshots";
    forall k | 0 <= k < |ids| ensures ids[k] != "overview" && ids[k] != "screenshots" {
      if k < |p.sections| {
        assert ids[k] == p.sections[k].id;
      }
    }
  }

  /**
   * With the `id` prop forwarded, every QuickNav and footer link of a record
   * with well-formed section ids targets exactly one element of its page.
   */
  lemma EveryLinkResolves(p: ProjectData)
    requires SectionIdsWellFormed(p)
    ensures forall a :: a in QuickNavAnchors(p.sections) ==> a in RenderedIds(PageBlocks(p))
    ensures forall a :: a in FooterAnchors(p.sections) ==> a in RenderedIds(PageBlocks(p))
    ensures forall i, j :: 0 <= i < j < |RenderedIds(PageBlocks(p))| ==>
              RenderedIds(PageBlocks(p))[i] != RenderedIds(PageBlocks(p))[j]
  {
    RenderedIdsOfPage(p);
    QuickNavDistinct(p);
    FooterOrder(p.sections);
  }

  /** The background variants of the page's wrappers, in document order. */
  function Backgrounds(bs: seq<Block>): seq<Variant>
  {
    if bs == [] then []
    else
      (match bs[0] case Wrapper(v, _) => [v] case Divider(_, _) => [])
      + Backgrounds(bs[1..])
  }

  lemma {:induction false} BackgroundsAppend(a: seq<Block>, b: seq<Block>)
    ensures Backgrounds(a + b) == Backgrounds(a) + Backgrounds(b)
  {
    if a == [] {
      assert a + b == b;
    } else {
      assert (a + b)[0] == a[0];
      assert (a + b)[1..] == a[1..] + b;
      BackgroundsAppend(a[1..], b);
    }
  }

  /** The wrappers of sections numbered from `index` take the variants of `index`, `index + 1`, ... */
  lemma {:induction false} SectionBackgrounds(sections: seq<Section>, index: nat)
    ensures |Backgrounds(SectionBlocks(sections, index))| == |sections|
    ensures forall i :: 0 <= i < |sections| ==> Backgrounds(SectionBlocks(sections, index))[i] == SectionVariant(index + i)
  {
    if sections != [] {
      var head := [Divider(sections[0].id, sections[0].title), Wrapper(SectionVariant(index), None)];
      var rest := SectionBlocks(sections[1..], index + 1);
      assert SectionBlocks(sections, index) == head + rest;
      BackgroundsAppend(head, rest);
      assert Backgrounds(head) == [SectionVariant(index)] by {
        assert head[1..] == [head[1]];
        assert [head[1]][1..] == [];
      }
      SectionBackgrounds(sections[1..], index + 1);
      var r := Backgrounds(rest);
      var bg := Backgrounds(SectionBlocks(sections, index));
      assert bg == [SectionVariant(index)] + r;
      forall i | 0 <= i < |sections| ensures bg[i] == SectionVariant(index + i) {
        if i > 0 {
          assert bg[i] == r[i - 1];
        }
      }
    }
  }

  /**
   * The page's backgrounds: overview `alt`, screenshots `default`, section
   * `i` the rule at `i`, and the reflection the rule at `sections.length`,
   * so the reflection continues the alternation.
   */
  lemma PageBackgrounds(p: ProjectData)
    ensures |Backgrounds(PageBlocks(p))| == |p.sections| + 3
    ensures Backgrounds(PageBlocks(p))[0] == Alt && Backgrounds(PageBlocks(p))[1] == Default
    ensures forall i :: 0 <= i <= |p.sections| ==> Backgrounds(PageBlocks(p))[i + 2] == SectionVariant(i)
  {
    var head := [Wrapper(Alt, Some("overview")), Wrapper(Default, Some("screenshots"))];
    var mid := SectionBlocks(p.sections, 0);
    var tail := [Divider("reflection", "Reflection"), Wrapper(SectionVariant(|p.sections|), None)];
    BackgroundsAppend(head + mid, tail);
    BackgroundsAppend(head, mid);
    SectionBackgrounds(p.sections, 0);
    assert Backgrounds(head) == [Alt, Default] by {
      assert head[1..] == [head[1]];
      assert [head[1]][1..] == [];
    }
    assert Backgrounds(tail) == [SectionVariant(|p.sections|)] by {
      assert tail[1..] == [tail[1]];
      assert [tail[1]][1..] == [];
    }
    var n := |p.sections|;
    var m := Backgrounds(mid);
    var bg := Backgrounds(PageBlocks(p));
    assert bg == [Alt, Default] + m + [SectionVariant(n)];
    forall i | 0 <= i <= n ensures bg[i + 2] == SectionVariant(i) {
      if i < n {
        assert bg[i + 2] == m[i];
      }
    }
  }

  /** No two consecutive wrappers of the page share a background, from the overview to the reflection. */
  lemma BackgroundsAlternate(p: ProjectData)
    ensures forall k :: 0 <= k < |Backgrounds(PageBlocks(p))| - 1 ==>
              Backgrounds(PageBlocks(p))[k] != Backgrounds(PageBlocks(p))[k + 1]
  {
    PageBackgrounds(p);
    var bg := Backgrounds(PageBlocks(p));
    forall k | 0 <= k < |bg| - 1 ensures bg[k] != bg[k + 1] {
      if k == 1 {
        assert bg[2] == SectionVariant(0);
      } else if k >= 2 {
        assert bg[k] == SectionVariant(k - 2) && bg[k + 1] == SectionVariant(k - 1);
      }
    }
  }

  // ---------------------------------------------------------------------
  // Back link and optional parts
  // ---------------------------------------------------------------------

  /** A `<section>` of the home page's project area: its element id and the records it lists. */
  datatype HomeSection = HomeSection(id: string, projects: seq<ProjectData>)

  /**
   * The home page's project area, in page order: the `personal` section
   * lists `getProjectsByType('personal')` and the `professional` section
   * `getProjectsByType('professional')`.
   */
  function HomeSections(): seq<HomeSection>
  {
    HomeSectionsOf(GetProjectsByType(Personal), GetProjectsByType(Professional))
  }

  /** The two sections of the home page's project area, given the list each shows. */
  function HomeSectionsOf(personal: seq<ProjectData>, professional: seq<ProjectData>): seq<HomeSection>
  {
    [HomeSection("personal", personal), HomeSection("professional", professional)]
  }

  /** The back link's target: `/#` followed by the record's `type`. */
  function BackLinkTarget(p: ProjectData): string
  {
    "/#" + TypeName(p.kind)
  }

  /** The back link's label. */
  function BackLinkLabel(p: ProjectData): (text: string)
    ensures text == "Back to Personal Projects" <==> p.kind == Personal
  {
    "Back to " + (if p.kind == Personal then "Personal" else "Professional") + " Projects"
  }

  /** The position, on the home page, of the section for records of kind `t`. */
  function HomeIndex(t: ProjectType): nat
  {
    if t == Personal then 0 else 1
  }

  /**
   * When each section lists exactly the catalog's records of its own type, a
   * record of the catalog is listed by the section at `HomeIndex(p.kind)` and
   * by no other, and its back link targets that section's id and no other.
   */
  lemma BackLinkTargetsOwnSectionOf(catalog: seq<ProjectData>, personal: seq<ProjectData>,
                                    professional: seq<ProjectData>, p: ProjectData)
    requires forall x :: x in personal <==> x in catalog && x.kind == Personal
    requires forall x :: x in professional <==> x in catalog && x.kind == Professional
    requires p in catalog
    ensures HomeIndex(p.kind) < |HomeSectionsOf(personal, professional)|
    ensures forall i :: 0 <= i < |HomeSectionsOf(personal, professional)| ==>
                          (p in HomeSectionsOf(personal, professional)[i].projects <==> i == HomeIndex(p.kind))
    ensures forall i :: 0 <= i < |HomeSectionsOf(personal, professional)| ==>
                          (BackLinkTarget(p) == "/#" + HomeSectionsOf(personal, professional)[i].id <==> i == HomeIndex(p.kind))
  {
    var hs := HomeSectionsOf(personal, professional);
    forall i | 0 <= i < |hs|
      ensures BackLinkTarget(p) == "/#" + hs[i].id <==> i == HomeIndex(p.kind)
    {
      assert BackLinkTarget(p)[2..] == TypeName(p.kind);
      if BackLinkTarget(p) == "/#" + hs[i].id {
        assert ("/#" + hs[i].id)[2..] == hs[i].id;
      }
    }
  }

  /**
   * Every catalog record is listed by exactly one home-page section, the one
   * at `HomeIndex(p.kind)`, and its back link targets that section's id and
   * no other section's.
   */
  lemma BackLinkTargetsOwnSection(p: ProjectData)
    requires p in Catalog
    ensures HomeIndex(p.kind) < |HomeSections()|
    ensures forall i :: 0 <= i < |HomeSections()| ==> (p in HomeSections()[i].projects <==> i == HomeIndex(p.kind))
    ensures forall i :: 0 <= i < |HomeSections()| ==>
                          (BackLinkTarget(p) == "/#" + HomeSections()[i].id <==> i == HomeIndex(p.kind))
  {
    BackLinkTargetsOwnSectionOf(Catalog, GetProjectsByType(Personal), GetProjectsByType(Professional), p);
  }

  /** JavaScript truthiness of an optional string: present and non-empty. */
  predicate Truthy(s: Option<string>)
  {
    s.Some? && s.value != ""
  }

  /** `project.links?.github`. */
  predicate ShowsGithub(p: ProjectData)
  {
    p.links.Some? && Truthy(p.links.value.github)
  }

  /** `project.links?.playStore`. */
  predicate ShowsPlayStore(p: ProjectData)
  {
    p.links.Some? && Truthy(p.links.value.playStore)
  }

  /** `section.images && section.images.length > 0`. */
  predicate ShowsImageGrid(s: Section)
  {
    s.images.Some? && |s.images.value| > 0
  }

  /** A part of a section's body, in the order the template emits them. */
  datatype Part =
    | Paragraph(text: string)
    | BulletList(items: seq<string>)
    | SubsectionGrid(cards: seq<Card>)
    | ImageGrid(images: seq<Image>)

  /** A subsection card: its heading, then its optional bullet list and pillar grid. */
  datatype Card = Card(title: string, parts: seq<CardPart>)

  datatype CardPart = CardBullets(items: seq<string>) | PillarGrid(pillars: seq<Pillar>)

  /**
   * One subsection's card: the title, the bullet list when `bullets` is
   * present and the pillar grid when `pillars` is present, in that order
   * (`sub.bullets && ...`, `sub.pillars && ...`: arrays are truthy even when empty).
   */
  function SubsectionCard(sub: Subsection): Card
  {
    Card(sub.title,
         (if sub.bullets.Some? then [CardBullets(sub.bullets.value)] else [])
         + (if sub.pillars.Some? then [PillarGrid(sub.pillars.value)] else []))
  }

  /** One card per subsection, in order. */
  function SubsectionCards(subs: seq<Subsection>): (cards: seq<Card>)
    ensures |cards| == |subs|
    ensures forall i :: 0 <= i < |subs| ==> cards[i] == SubsectionCard(subs[i])
  {
    if subs == [] then [] else [SubsectionCard(subs[0])] + SubsectionCards(subs[1..])
  }

  /**
   * A card shows its subsection's title; its bullet list and pillar grid each
   * appear exactly when present, the bullets before the pillars.
   */
  lemma SubsectionCardParts(sub: Subsection)
    ensures SubsectionCard(sub).title == sub.title
    ensures forall xs :: CardBullets(xs) in SubsectionCard(sub).parts <==> sub.bullets == Some(xs)
    ensures forall xs :: PillarGrid(xs) in SubsectionCard(sub).parts <==> sub.pillars == Some(xs)
    ensures |SubsectionCard(sub).parts| == 2 ==> SubsectionCard(sub).parts[0].CardBullets?
  {
    var parts := SubsectionCard(sub).parts;
    forall xs ensures CardBullets(xs) in parts <==> sub.bullets == Some(xs) {
      if CardBullets(xs) in parts {
        var k :| 0 <= k < |parts| && parts[k] == CardBullets(xs);
      }
    }
    forall xs ensures PillarGrid(xs) in parts <==> sub.pillars == Some(xs) {
      if PillarGrid(xs) in parts {
        var k :| 0 <= k < |parts| && parts[k] == PillarGrid(xs);
      }
    }
  }

  /**
   * A section's body: its paragraphs, then the bullet list when `bullets` is
   * present (`section.bullets && ...`: an array is truthy even when empty),
   * the grid of subsection cards when `subsections` is present, and the image grid
   * only when `images` is present and non-empty.
   */
  function SectionBody(s: Section): seq<Part>
  {
    Paragraphs(s.content)
    + (if s.bullets.Some? then [BulletList(s.bullets.value)] else [])
    + (if s.subsections.Some? then [SubsectionGrid(SubsectionCards(s.subsections.value))] else [])
    + (if ShowsImageGrid(s) then [ImageGrid(s.images.value)] else [])
  }

  /** One paragraph part per entry of `content`. */
  function Paragraphs(content: seq<string>): (parts: seq<Part>)
    ensures |parts| == |content|
    ensures forall i :: 0 <= i < |content| ==> parts[i] == Paragraph(content[i])
  {
    if content == [] then [] else [Paragraph(content[0])] + Paragraphs(content[1..])
  }

  /**
   * The body starts with every paragraph in order; the bullet list, the
   * subsection grid and the image grid each appear exactly under their own
   * condition, and then show the section's entries as given.
   */
  lemma SectionBodyParts(s: Section)
    ensures |SectionBody(s)| >= |s.content|
    ensures forall i :: 0 <= i < |s.content| ==> SectionBody(s)[i] == Paragraph(s.content[i])
    ensures forall xs :: BulletList(xs) in SectionBody(s) <==> s.bullets == Some(xs)
    ensures forall xs :: SubsectionGrid(xs) in SectionBody(s) <==>
                           s.subsections.Some? && xs == SubsectionCards(s.subsections.value)
    ensures forall xs :: ImageGrid(xs) in SectionBody(s) <==> ShowsImageGrid(s) && s.images == Some(xs)
  {
    var body := SectionBody(s);
    var paras := Paragraphs(s.content);
    var bullets := if s.bullets.Some? then [BulletList(s.bullets.value)] else [];
    var grid := if s.subsections.Some? then [SubsectionGrid(SubsectionCards(s.subsections.value))] else [];
    var images := if ShowsImageGrid(s) then [ImageGrid(s.images.value)] else [];
    assert body == paras + bullets + grid + images;
    ParagraphsOnly(s.content);
    forall xs ensures BulletList(xs) in body <==> s.bullets == Some(xs) {
      assert BulletList(xs) in body <==> BulletList(xs) in bullets;
    }
    forall xs ensures SubsectionGrid(xs) in body <==> s.subsections.Some? && xs == SubsectionCards(s.subsections.value) {
      assert SubsectionGrid(xs) in body <==> SubsectionGrid(xs) in grid;
    }
    forall xs ensures ImageGrid(xs) in body <==> ShowsImageGrid(s) && s.images == Some(xs) {
      assert ImageGrid(xs) in body <==> ImageGrid(xs) in images;
    }
  }

  /** The paragraph parts are paragraphs only. */
  lemma ParagraphsOnly(content: seq<string>)
    ensures forall x :: x in Paragraphs(content) ==> x.Paragraph?
  {
    forall x | x in Paragraphs(content) ensures x.Paragraph? {
      var k :| 0 <= k < |Paragraphs(content)| && Paragraphs(content)[k] == x;
    }
  }

  /**
   * The two emptiness tests differ: an empty `bullets` array still renders
   * its (empty) list, an empty `images` array renders no grid.
   */
  lemma EmptyBulletsRenderEmptyImagesDoNot(s: Section)
    requires s.bullets == Some([]) && s.images == Some([])
    ensures BulletList([]) in SectionBody(s)
    ensures forall xs :: ImageGrid(xs) !in SectionBody(s)
  {
    SectionBodyParts(s);
  }

  /** The buttons beside the back link, in order: GitHub then Play Store, each when its link is set. */
  function ExternalButtons(p: ProjectData): (buttons: seq<string>)
    ensures "View on GitHub" in buttons <==> ShowsGithub(p)
    ensures "View on Play Store" in buttons <==> ShowsPlayStore(p)
    ensures |buttons| <= 2
  {
    (if ShowsGithub(p) then ["View on GitHub"] else [])
    + (if ShowsPlayStore(p) then ["View on Play Store"] else [])
  }

  /**
   * In the catalog, personal records link to GitHub and professional ones to
   * the Play Store: each detail page shows exactly one external button.
   */
  lemma CatalogButtons(r: ProjectData)
    requires r in Catalog
    ensures ExternalButtons(r) == if r.kind == Personal then ["View on GitHub"] else ["View on Play Store"]
  {
    CatalogSplit();
    if r in PersonalRecords {
      PersonalButtons(r);
    } else {
      ProfessionalButtons(r);
    }
  }

  lemma PersonalButtons(r: ProjectData)
    requires r in PersonalRecords
    ensures r.kind == Personal && ExternalButtons(r) == ["View on GitHub"]
  {
  }

  lemma ProfessionalButtons(r: ProjectData)
    requires r in ProfessionalRecords
    ensures r.kind == Professional && ExternalButtons(r) == ["View on Play Store"]
  {
  }
}
