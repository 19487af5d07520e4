# Portfolio catalog, build-time site configuration and detail-page rules

This project models the three pieces of logic in a game-developer portfolio
website. It then proves properties of that model in Dafny. All three pieces
are pure.

- **The project catalog** (`src/data/projects.ts`).
  - Nine `ProjectData` records in a fixed order.
  - `getProjectById`, a first-match lookup by id.
  - `getProjectsByType`, an order-preserving filter by the `type` field.
  - Modules `Projects` (the record shape and the two queries over any
    catalog) and `ProjectTable` (the nine records, transcribed field by
    field, and the queries over them).
  - The record shape `Projects.ProjectData` models `src/data/projects.ts:1-43`.
    The table `ProjectTable.Catalog` models `src/data/projects.ts:45-758`.
    Its invariants are stated by `CatalogIdsDistinct`, `CatalogPersonalFirst`,
    `CatalogSectionIdsWellFormed` and `CatalogHasScreenshots`.
- **The build-time site configuration** (`vite.config.ts`).
  - `loadSiteConfig` reads `src/config/site.ts` as text and extracts five
    values with the pattern ``key:\s*['"]([^'"]+)['"]``.
  - `transformIndexHtml` replaces every `%NAME%` token of `index.html` by the
    configured value, keeping the token when the value is missing or empty.
  - Both patterns are modelled as explicit left-to-right scans.
  - The per-position matchers `MatchAt` and `TokenAt`, and the leftmost
    search `Search`, are proved equal to a declarative reading of their
    pattern (`MatchesWith`, `TokenWith`), in both directions.
  - The global replacement `Transform` is described step by step rather
    than by a declarative reading of the whole `replace` call. Each lemma
    covers one kind of position the scan can reach:
    - `TransformPlainPrefix`: text without `%`;
    - `StrayPercentKept`: a `%` that starts no token;
    - `TokenReplaced` and `TokenKept`: a token.

    Chained, these lemmas give the result on any page.
  - Module `ViteConfig`.
  - Module `SiteConfigFile` holds `src/config/site.ts`, character for
    character, and what `loadSiteConfig` yields from it.
- **The detail page's projections** (`src/pages/ProjectDetail.tsx`).
  - Which view a route shows.
  - The quick-navigation and footer anchor lists.
  - Which blocks carry an element id.
  - The alternating section backgrounds.
  - The back link, and the home-page section it targets (`src/components/Projects.tsx`).
  - Which optional parts are rendered.
  - Module `ProjectDetail`.

Some JavaScript semantics are written out explicitly:
- `\s` is JavaScript's white-space class, including the Unicode spaces.
- `\w` is ASCII letters, digits and `_`.
- `||` and `&&` on strings and arrays follow JavaScript truthiness: an empty string is falsy, an empty array is truthy.
- `slice` clamps its bounds.

The quick navigation is a static list of links
(`src/pages/ProjectDetail.tsx:6-32`), and the screenshots are a static grid
(`src/pages/ProjectDetail.tsx:212-218`).

## Model

| member | source | states |
|---|---|---|
| `Projects.FindById` | src/data/projects.ts:760-762 | `None` exactly when no record has the id; otherwise a record with that id such that every earlier record has a different id (the first match) |
| `Projects.FilterByType` | src/data/projects.ts:764-766 | every result has the requested type, and a record is in the result exactly when it is in the catalog with that type |
| `Projects.FilterExact` | src/data/projects.ts:764-766 | each record of the requested type occurs in the result as often as in the catalog, no other record occurs, and the result is a subsequence of the catalog (catalog order kept) |
| `Projects.FindOwnId` | src/data/projects.ts:760-762 | when ids are pairwise distinct, looking up the id of record `k` returns record `k` |
| `Projects.FilterAppend` | src/data/projects.ts:764-766 | filtering a concatenation is the concatenation of the filtered parts |
| `Projects.FilterUniform` | src/data/projects.ts:764-766 | on a list whose records all have type `t`, filtering by `t` returns the list and filtering by the other type returns nothing |
| `Projects.PartitionByType` | src/data/projects.ts:764-766 | when every personal record precedes every professional one, the personal list followed by the professional list is the catalog |
| `Projects.TypesCoverCatalog` | src/data/projects.ts:6 | the two filtered lists together hold every record exactly as often as the catalog: each record has exactly one type |
| `ProjectTable.GetProjectById` | src/data/projects.ts:760-762 | over the nine records: a result is a catalog record with the requested id; `None` exactly when no record has it |
| `ProjectTable.GetProjectsByType` | src/data/projects.ts:764-766 | over the nine records: a record is listed exactly when it is in the catalog with the requested type |
| `ProjectTable.CatalogIdsDistinct` | src/data/projects.ts:45-758 | the nine record ids are pairwise distinct |
| `ProjectTable.LookupOwnId` | src/data/projects.ts:760-762 | for every catalog record `r`, `getProjectById(r.id)` is `r` |
| `ProjectTable.EmptyIdNotFound` | src/data/projects.ts:760-762 | `getProjectById('')` finds nothing: no record has an empty id |
| `ProjectTable.CatalogPersonalFirst` | src/data/projects.ts:45-758 | the six personal records precede the three professional ones |
| `ProjectTable.HomeListsPartitionCatalog` | src/data/projects.ts:764-766 | `getProjectsByType('personal') + getProjectsByType('professional')` is the whole catalog, in order |
| `ProjectTable.HomeListsContents` | src/components/Projects.tsx:77-78 | the home page's two lists are exactly the first six records and the last three records |
| `ProjectTable.CatalogSectionIdsWellFormed` | src/data/projects.ts:85-741 | every record's section ids are pairwise distinct and none is `overview`, `screenshots` or `reflection` |
| `ProjectTable.CatalogHasScreenshots` | src/data/projects.ts:45-758 | every record has at least one screenshot |
| `ViteConfig.MatchAt` | vite.config.ts:15 | the pattern ``key:\s*['"]([^'"]+)['"]`` tried at one position, as a greedy scan; its contract is carried by `MatchAtSound` and `MatchAtComplete` |
| `ViteConfig.Extract` | vite.config.ts:14-17 | `extract`: the capture of the first match, or `''`; its contract is carried by `ExtractIsFirstMatch` and `ExtractAt` |
| `ViteConfig.LoadSiteConfig` | vite.config.ts:19-25 | the returned object of five `VITE_SITE_*` entries; its contract is carried by `SiteConfigEntries` and, over the actual file, `SiteConfigFile.SiteConfigValues` |
| `ViteConfig.MatchAtSound` | vite.config.ts:15 | whatever the greedy scan reports at a position is a genuine match of ``key:\s*['"]([^'"]+)['"]`` with that capture |
| `ViteConfig.MatchAtComplete` | vite.config.ts:15 | every way the pattern can match at a position is found by the scan, with the same capture (backtracking cannot change the capture) |
| `ViteConfig.Search` | vite.config.ts:15 | the position found is the leftmost match at or after the start; `None` exactly when no position matches |
| `ViteConfig.SearchFinds` | vite.config.ts:15 | when `p` matches and nothing between the start and `p` does, the search stops at `p` |
| `ViteConfig.ExtractIsFirstMatch` | vite.config.ts:14-17 | `extract` returns `''` exactly when the pattern matches nowhere; otherwise it returns the capture of the first match, which holds no quote |
| `ViteConfig.ExtractAt` | vite.config.ts:14-17 | if the first match is at `p`, `extract` returns the capture at `p` |
| `ViteConfig.SiteConfigEntries` | vite.config.ts:19-25 | `loadSiteConfig` defines exactly the five `VITE_SITE_*` names that `ImportMetaEnv` declares, each bound to the extraction of `url`, `title`, `description`, `keywords` or `author` |
| `ViteConfig.ExtractDeclaration` | vite.config.ts:15-16 | a declaration `key: '<v>'`, with `v` non-empty and quote-free, preceded by text that holds no `key:`, is what `extract` returns, whatever follows it |
| `ViteConfig.NoKeyColonJoin` | vite.config.ts:15 | a colon joining text without `key:` that does not end in `key` to colon-free text creates no `key:` |
| `ViteConfig.NoKeyColonDeclaration` | vite.config.ts:15 | appending a declaration of a key that ends in a different character creates no `key:` |
| `ViteConfig.ExtractMixedQuotes` | vite.config.ts:15 | opening and closing quotes are independent: `title: 'abc"` yields `abc` |
| `ViteConfig.ExtractUnanchoredKey` | vite.config.ts:15 | the key is an unanchored substring: `siteurl: 'x'` yields `x` for key `url` |
| `ViteConfig.ExtractSkipsEmptyValue` | vite.config.ts:15 | an empty quoted value is no match, so `url: '', url: 'b'` yields `b` |
| `ViteConfig.ExtractAcrossLines` | vite.config.ts:15 | `\s*` spans line breaks: ``author:`` + line break + `  "Ann"` yields `Ann` |
| `ViteConfig.Transform` | vite.config.ts:33-35 | `html.replace(/%(\w+)%/g, …)`, a left-to-right scan over non-overlapping tokens. Its contract is carried by four lemmas, one per kind of position the scan can reach: `TransformPlainPrefix` (text without `%`), `StrayPercentKept` (a `%` that starts no token), and `TokenReplaced` and `TokenKept` (a token). Together they fix the result on every input. Further consequences: `TransformWithoutPercent`, `TransformEmptyConfig`, `ReplacementNotRescanned`, `TokensDoNotOverlap`, `TransformTitleTag` |
| `ViteConfig.TokenAt` | vite.config.ts:33 | a reported token is `%`, one or more word characters, `%` |
| `ViteConfig.TokenAtComplete` | vite.config.ts:33 | every way `/%(\w+)%/` can match at a position is found by the scan, with the same name |
| `ViteConfig.Substitute` | vite.config.ts:34 | `config[key] \|\| match`: the token is kept exactly when the name is missing, maps to `''`, or maps to the token itself; otherwise the value replaces it |
| `ViteConfig.TokenReplaced` | vite.config.ts:33-35 | a token whose name has a non-empty value is replaced by that value, and scanning resumes after the token |
| `ViteConfig.TokenKept` | vite.config.ts:33-35 | a token whose name is missing or maps to `''` is kept verbatim, and scanning resumes after the token |
| `ViteConfig.TransformWithoutPercent` | vite.config.ts:33 | text without `%` is unchanged, under any configuration |
| `ViteConfig.TransformPlainPrefix` | vite.config.ts:33 | text without `%` ahead of the rest of a page is copied unchanged, and the result continues with the transform of the rest |
| `ViteConfig.StrayPercentKept` | vite.config.ts:33 | a `%` at which `%(\w+)%` does not match (as in `100%` or `%a b%`) is copied, and the scan resumes at the next character |
| `ViteConfig.TransformTitleTag` | vite.config.ts:33-35 | `<title>%VITE_SITE_TITLE%</title>` becomes `<title>` + the configured title + `</title>` whenever that title is non-empty |
| `ViteConfig.TransformEmptyConfig` | vite.config.ts:33-35 | with an empty configuration every page is unchanged |
| `ViteConfig.ReplacementNotRescanned` | vite.config.ts:33-35 | replacement text is not scanned again: `%A%` with `A` mapped to `%B%` stays `%B%` |
| `ViteConfig.TokensDoNotOverlap` | vite.config.ts:33 | matches do not overlap: in `%A%B%` the middle `%` closes the first token, giving `1B%` |
| `SiteConfigFile.SiteTextUrl` | src/config/site.ts:8 | in any file of this layout whose lead holds no colon, `extract('url')` is the URL literal |
| `SiteConfigFile.SiteTextTitle` | src/config/site.ts:9 | in any file of this layout, `extract('title')`, once past the URL's colon, is the title literal |
| `SiteConfigFile.SiteTextDescription` | src/config/site.ts:10 | in any file of this layout, `extract('description')` is the description literal |
| `SiteConfigFile.SiteTextKeywords` | src/config/site.ts:11 | in any file of this layout, `extract('keywords')` is the keywords literal, even though `https:` ends in `s` like `keywords` |
| `SiteConfigFile.SiteTextAuthor` | src/config/site.ts:12 | in any file of this layout, `extract('author')` is the author literal |
| `SiteConfigFile.SiteConfigValues` | src/config/site.ts:7-21 | over the file as it stands, `loadSiteConfig` maps the five `VITE_SITE_*` names to the literals declared at lines 8-12 |
| `ProjectDetail.RouteView` | src/pages/ProjectDetail.tsx:89-103 | the not-found view, linking to `/`, exactly when no record has the id (`''` when the parameter is missing); otherwise the page of the record with that id |
| `ProjectDetail.MissingIdNotFound` | src/pages/ProjectDetail.tsx:90-92 | a missing route parameter gives the not-found view |
| `ProjectDetail.KnownIdShowsDetail` | src/pages/ProjectDetail.tsx:89-105 | the route of any catalog record shows that record's page |
| `ProjectDetail.QuickNavAnchors` | src/pages/ProjectDetail.tsx:6-32 | the quick navigation's anchors; its contract is carried by `QuickNavOrder` and `QuickNavDistinct` |
| `ProjectDetail.QuickNavOrder` | src/pages/ProjectDetail.tsx:11-28 | the quick navigation lists `overview`, `screenshots`, each section id in order, then `reflection`: `n + 3` entries for `n` sections |
| `ProjectDetail.QuickNavDistinct` | src/pages/ProjectDetail.tsx:17-25 | with well-formed section ids, the quick-navigation anchors are pairwise distinct |
| `ProjectDetail.Slice` | src/pages/ProjectDetail.tsx:349 | `Array.prototype.slice` with clamped bounds: the length and the elements of the result |
| `ProjectDetail.FooterAnchors` | src/pages/ProjectDetail.tsx:346-357 | the footer's anchors; its contract is carried by `FooterOrder` |
| `ProjectDetail.FooterOrder` | src/pages/ProjectDetail.tsx:346-357 | the footer lists `overview` and then the first `min(3, n)` section ids in order, and every footer anchor is also a quick-navigation anchor |
| `ProjectDetail.BackgroundClass` | src/pages/ProjectDetail.tsx:57-61 | the class table of `SectionWrapper`; its contract is carried by `BackgroundClassInjective` |
| `ProjectDetail.BackgroundClassInjective` | src/pages/ProjectDetail.tsx:57-61 | the three variants have three different background classes |
| `ProjectDetail.SectionVariant` | src/pages/ProjectDetail.tsx:227 | section `i` is `alt` exactly when `i` is even and `default` exactly when `i` is odd |
| `ProjectDetail.PageBlocks` | src/pages/ProjectDetail.tsx:159-295 | the page as its sequence of dividers and wrappers; its contract is carried by `RenderedIdsAsWrittenOfPage`, `RenderedIdsOfPage`, `PageBackgrounds` and `BackgroundsAlternate` |
| `ProjectDetail.SectionBlocks` | src/pages/ProjectDetail.tsx:223-291 | one divider and one wrapper per section; its contract is carried by `SectionBackgrounds` and, through the page, `RenderedIdsOfPage` |
| `ProjectDetail.RenderedIdsAsWrittenOfPage` | src/pages/ProjectDetail.tsx:34-70 | as written, the page's element ids are the section ids followed by `reflection`: `SectionWrapper` declares no `id` parameter |
| `ProjectDetail.RenderedIdsOfPage` | src/pages/ProjectDetail.tsx:159-295 | with the `id` prop forwarded, the page's element ids are exactly the quick-navigation anchors, in the same order |
| `ProjectDetail.OverviewLinkDangles` | src/pages/ProjectDetail.tsx:160-209 | as written, `#overview` (quick navigation and footer) and `#screenshots` (quick navigation) name no element of the page |
| `ProjectDetail.EveryLinkResolves` | src/pages/ProjectDetail.tsx:11-28 | with the `id` prop forwarded, every quick-navigation and footer anchor names an element of the page, and the rendered ids are pairwise distinct |
| `ProjectDetail.SectionBackgrounds` | src/pages/ProjectDetail.tsx:223-227 | the `i`-th section's wrapper has the variant of index `i` |
| `ProjectDetail.PageBackgrounds` | src/pages/ProjectDetail.tsx:160-295 | the wrappers' variants: `alt` (overview), `default` (screenshots), then the variant of index `i` for every section `i` and, at `i = n`, for the reflection block |
| `ProjectDetail.BackgroundsAlternate` | src/pages/ProjectDetail.tsx:227-295 | consecutive wrappers always have different backgrounds, from the overview through the reflection block |
| `ProjectDetail.BackLinkLabel` | src/pages/ProjectDetail.tsx:308 | the label reads "Back to Personal Projects" exactly when the record is personal |
| `ProjectDetail.BackLinkTarget` | src/pages/ProjectDetail.tsx:304 | the back link's `to`: `/#` and the record's `type`; its contract is carried by `BackLinkTargetsOwnSection` |
| `ProjectDetail.HomeSections` | src/components/Projects.tsx:76-107 | the home page's `personal` and `professional` sections with the list each shows; its contract is carried by `BackLinkTargetsOwnSection` |
| `ProjectDetail.BackLinkTargetsOwnSectionOf` | src/components/Projects.tsx:77-95 | over any catalog, when each section lists exactly the catalog's records of its own type: a record of the catalog is listed by the section at `HomeIndex(p.kind)` and by no other, and `/#` + a section's id is its back-link target exactly for that section |
| `ProjectDetail.BackLinkTargetsOwnSection` | src/pages/ProjectDetail.tsx:303-309 | every catalog record is listed by exactly one home-page section (`src/components/Projects.tsx:77-95`), and its back link targets that section's id and no other section's |
| `ProjectDetail.SectionBody` | src/pages/ProjectDetail.tsx:228-288 | the parts of a section's body; its contract is carried by `SectionBodyParts` and `EmptyBulletsRenderEmptyImagesDoNot` |
| `ProjectDetail.SectionBodyParts` | src/pages/ProjectDetail.tsx:228-288 | a section's body starts with all its paragraphs in order. The bullet list appears exactly when `bullets` is present, the grid of subsection cards exactly when `subsections` is present, and the image grid exactly when `images` is present and non-empty. The lists and the image grid show the entries as given; the grid shows one card per subsection |
| `ProjectDetail.SubsectionCards` | src/pages/ProjectDetail.tsx:247-276 | one card per subsection, the `i`-th card for the `i`-th subsection |
| `ProjectDetail.SubsectionCardParts` | src/pages/ProjectDetail.tsx:248-275 | a card shows its subsection's title; its bullet list appears exactly when `sub.bullets` is present and its pillar grid exactly when `sub.pillars` is present, bullets first |
| `ProjectDetail.EmptyBulletsRenderEmptyImagesDoNot` | src/pages/ProjectDetail.tsx:234-280 | an empty `bullets` array still renders an (empty) list; an empty `images` array renders no grid |
| `ProjectDetail.ExternalButtons` | src/pages/ProjectDetail.tsx:311-333 | the GitHub button appears exactly when `links.github` is a non-empty string, the Play Store button exactly when `links.playStore` is; at most two buttons |
| `ProjectDetail.CatalogButtons` | src/data/projects.ts:126-755 | in the catalog, personal records show only the GitHub button and professional records only the Play Store button |

## Left out

- JSX markup, Tailwind classes, icons and React rendering are not modelled. The page is modelled as the sequence of blocks it emits, with their ids and variants.
- Routing is not modelled, and neither is `window.scrollTo` in `src/App.tsx`: both are browser and router side effects. The route parameter is an `Option<string>`.
- `ProjectDetail.BackLinkTargetsOwnSection`: it states which element the back link names, not where the browser ends up. Following the link changes the path, so `ScrollToTop` (`src/App.tsx:7-15`) scrolls to the top, and whether the hash is then honoured depends on the router.
- `loadSiteConfig`'s file read (`path.resolve`, `fs.readFileSync`) is left out: extraction is modelled over a given content string. The Vite plugin glue (`defineConfig`, plugin registration) is left out too.
- `ViteConfig.Extract`: the key is interpolated into a regular expression in the source but is modelled as a literal string. The five keys the source uses hold no metacharacters, so they behave the same.
- `ViteConfig.Transform`: the configuration is modelled as a map. JavaScript's `config[key]` also reads inherited properties, such as `%constructor%` or `%toString%`, and the model does not capture this.
- Section images are passed to the image grid unchanged, as the source passes each entry straight to `src`. A `{src, caption}` entry is not unwrapped.
- Hero and screenshot images, overview and role texts, badges, and the entries of subsection bullet lists and pillar grids are not modelled beyond being passed through. Their rendering is a plain `map`. The `sub.bullets &&` and `sub.pillars &&` presence tests are modelled by `SubsectionCard`.
- The navigation bar's scroll listener, the mobile menu and the contact form's `mailto` link are left out. They are DOM event wiring that the detail rules do not depend on.
- No scroll-spy, carousel, lightbox or video toggle is modelled: the source has none.
- The `social` block of `src/config/site.ts` is part of the modelled text, but nothing reads it at build time.

## Findings

| source | as written | input that shows it | evidently intended | confidence | as-written member | corrected member |
|---|---|---|---|---|---|---|
| src/pages/ProjectDetail.tsx:48-70 | `SectionWrapper` takes only `children`, `variant` and `className`, so the `id="overview"` (line 160) and `id="screenshots"` (line 209) passed to it are dropped. The quick-navigation links `#overview` and `#screenshots` (lines 11, 14) and the footer link `#overview` (line 346) therefore target no element. | any record, e.g. `blackout-facility`: its page has element ids `pillars`, `architecture`, `layout`, `reflection` only | the wrapper puts its `id` on its outer element; the `scroll-mt-24` class given at the same two call sites is there for in-page anchor scrolling | high; not executed | `ProjectDetail.OverviewLinkDangles` | `ProjectDetail.EveryLinkResolves` |
