/**
 * The site configuration file `src/config/site.ts`, as text, and what
 * `loadSiteConfig` reads from it. Long literals are written as
 * concatenations of pieces of at most 16 characters, and the longest are
 * split further into named parts: this keeps the verifier fast, since facts
 * about a literal (such as "holds no colon") are proved piece by piece.
 * Joined, `SiteSource` is the file character for character.
 */
module SiteConfigFile {
  import opened ViteConfig

  /** The value of `url` at line 8, split at its colon. */
  const Url: string := UrlScheme + ":" + UrlRest
  const UrlScheme: string := "https"
  const UrlRest: string := "//fahimkamal.miit.uk"

  /** The value of `title` at line 9. */
  const Title: string :=
    "Fahim Kamal Ahme" + "d | Game Develop" + "er & Level Desig" + "ner"

  /** The value of `description` at line 10. */
  const Description: string := DescriptionStart + DescriptionEnd

  /** The first sentence of `description`. */
  const DescriptionStart: string :=
    "Game Developer w" + "ith 3+ years of " + "experience speci" + "alizing in Unrea"
    + "l Engine and Uni" + "ty."

  /** The second sentence of `description`, with its leading space. */
  const DescriptionEnd: string :=
    " Creating imm" + "ersive gameplay " + "experiences and "
    + "innovative game " + "mechanics."

  /** The value of `keywords` at line 11. */
  const Keywords: string :=
    "Game Developer, " + "Level Designer, " + "Unreal Engine, U" + "nity, C++, C#, G"
    + "ame Design"

  /** The value of `author` at line 12. */
  const Author: string :=
    "Fahim Kamal Ahme" + "d"

  /** The file up to the `url` key: the header comment, the `export` line and the indentation. */
  const Lead: string := Header + ExportLine

  /** Lines 1-6: the header comment. */
  const Header: string := HeaderTitle + HeaderPurpose + HeaderNote

  /** Lines 1-3: the opening of the comment and its title. */
  const HeaderTitle: string := "/**\n * Site Conf" + "iguration\n *\n"

  /** Line 4. */
  const HeaderPurpose: string := " * Central confi" + "guration for sit" + "e metadata.\n"

  /** Lines 5-6: the last line of text and the end of the comment. */
  const HeaderNote: string :=
    " * Update these " + "values to change" + " site informatio" + "n across the ent"
    + "ire application." + "\n */\n"

  /** Line 7 and the indentation of line 8. */
  const ExportLine: string := "export const sit" + "eConfig = {\n  "

  /** The file after the closing quote of the `author` value: the `social` block and the end of the object. */
  const Social: string :=
    ",\n\n  // Social M" + "edia (optional -" + " add your links)" + "\n  social: {\n   "
    + " github: 'https:" + "//github.com/Fah" + "imKamal',\n    li" + "nkedin: 'https:/"
    + "/www.linkedin.co" + "m/in/fk-ahmed',\n" + "    twitter: ''," + "\n    email: 'mai"
    + "lto:fahimkamal63" + "@gmail.com',\n  }" + ",\n} as const;\n\n"

  /** The separator between two declarations: comma, line break, indentation. */
  const Sep: string := ",\n  "

  /**
   * The layout of the file: a lead, the five declarations `key: '<value>'`
   * in the order url, title, description, keywords, author, and the rest.
   * The URL is given as the text before and after its colon.
   */
  function SiteText(lead: string, scheme: string, urlRest: string, title: string, description: string,
                    keywords: string, author: string, social: string): string
  {
    lead
    + "url" + ": '" + scheme + ":" + urlRest + "'" + Sep
    + "title" + ": '" + title + "'" + Sep
    + "description" + ": '" + description + "'" + Sep
    + "keywords" + ": '" + keywords + "'" + Sep
    + "author" + ": '" + author + "'" + social
  }

  /** The whole file. */
  const SiteSource: string := SiteText(Lead, UrlScheme, UrlRest, Title, Description, Keywords, Author, Social)

  /** A value `extract` can capture: non-empty and without a quote. */
  predicate Capturable(v: string)
  {
    |v| > 0 && '\'' !in v && '"' !in v
  }

  // ---------------------------------------------------------------------
  // Extraction from any text of this layout
  // ---------------------------------------------------------------------

  /** `url` is found at its declaration, behind a lead without a colon. */
  lemma SiteTextUrl(lead: string, scheme: string, urlRest: string, title: string, description: string,
                    keywords: string, author: string, social: string)
    requires ':' !in lead && Capturable(scheme + ":" + urlRest)
    ensures Extract(SiteText(lead, scheme, urlRest, title, description, keywords, author, social), "url")
            == scheme + ":" + urlRest
  {
    var rest := Sep + "title" + ": '" + title + "'" + Sep
      + "description" + ": '" + description + "'" + Sep
      + "keywords" + ": '" + keywords + "'" + Sep
      + "author" + ": '" + author + "'" + social;
    assert SiteText(lead, scheme, urlRest, title, description, keywords, author, social)
      == lead + "url" + ": '" + (scheme + ":" + urlRest) + "'" + rest;
    NoKeyColonOfColonFree(lead, "url");
    ExtractDeclaration(lead, "url", scheme + ":" + urlRest, rest);
  }

  /**
   * The text up to the `title` declaration holds no `key:` for a key that
   * ends in a character other than `l` and that the colon inside the URL
   * does not follow.
   */
  lemma NoKeyColonUpToTitle(lead: string, scheme: string, urlRest: string, key: string)
    requires ':' !in lead && ':' !in scheme && ':' !in urlRest && ':' !in key
    requires |key| > 0 && key[|key| - 1] != 'l'
    requires !EndsWith(lead + "url" + ": '" + scheme, key)
    ensures NoKeyColon(lead + "url" + ": '" + scheme + ":" + urlRest + "'" + Sep, key)
  {
    var a := lead + "url" + ": '" + scheme;
    NoKeyColonOfColonFree(lead, key);
    NoKeyColonAppend(lead, "url", key);
    NotEndsWith(lead + "url", key, 0);
    NoKeyColonJoin(lead + "url", " '" + scheme, key);
    assert (lead + "url") + ":" + (" '" + scheme) == a;
    NoKeyColonJoin(a, urlRest + "'" + Sep, key);
    assert a + ":" + (urlRest + "'" + Sep) == lead + "url" + ": '" + scheme + ":" + urlRest + "'" + Sep;
  }

  /** `title` is found at its declaration. */
  lemma SiteTextTitle(lead: string, scheme: string, urlRest: string, title: string, description: string,
                      keywords: string, author: string, social: string)
    requires ':' !in lead && ':' !in scheme && ':' !in urlRest
    requires !EndsWith(lead + "url" + ": '" + scheme, "title")
    requires Capturable(title)
    ensures Extract(SiteText(lead, scheme, urlRest, title, description, keywords, author, social), "title") == title
  {
    var before := lead + "url" + ": '" + scheme + ":" + urlRest + "'" + Sep;
    var rest := Sep + "description" + ": '" + description + "'" + Sep
      + "keywords" + ": '" + keywords + "'" + Sep
      + "author" + ": '" + author + "'" + social;
    assert SiteText(lead, scheme, urlRest, title, description, keywords, author, social)
      == before + "title" + ": '" + title + "'" + rest;
    NoKeyColonUpToTitle(lead, scheme, urlRest, "title");
    ExtractDeclaration(before, "title", title, rest);
  }

  /** `description` is found at its declaration. */
  lemma SiteTextDescription(lead: string, scheme: string, urlRest: string, title: string, description: string,
                            keywords: string, author: string, social: string)
    requires ':' !in lead && ':' !in scheme && ':' !in urlRest && ':' !in title
    requires !EndsWith(lead + "url" + ": '" + scheme, "description")
    requires Capturable(description)
    ensures Extract(SiteText(lead, scheme, urlRest, title, description, keywords, author, social), "description")
            == description
  {
    var before0 := lead + "url" + ": '" + scheme + ":" + urlRest + "'" + Sep;
    var before := before0 + "title" + ": '" + title + "'" + Sep;
    var rest := Sep + "keywords" + ": '" + keywords + "'" + Sep
      + "author" + ": '" + author + "'" + social;
    assert SiteText(lead, scheme, urlRest, title, description, keywords, author, social)
      == before + "description" + ": '" + description + "'" + rest;
    NoKeyColonUpToTitle(lead, scheme, urlRest, "description");
    NoKeyColonDeclaration(before0, "title", title, Sep, "description");
    ExtractDeclaration(before, "description", description, rest);
  }

  /** `keywords` is found at its declaration. */
  lemma SiteTextKeywords(lead: string, scheme: string, urlRest: string, title: string, description: string,
                         keywords: string, author: string, social: string)
    requires ':' !in lead && ':' !in scheme && ':' !in urlRest && ':' !in title && ':' !in description
    requires !EndsWith(lead + "url" + ": '" + scheme, "keywords")
    requires Capturable(keywords)
    ensures Extract(SiteText(lead, scheme, urlRest, title, description, keywords, author, social), "keywords")
            == keywords
  {
    var before0 := lead + "url" + ": '" + scheme + ":" + urlRest + "'" + Sep;
    var before1 := before0 + "title" + ": '" + title + "'" + Sep;
    var before := before1 + "description" + ": '" + description + "'" + Sep;
    var rest := Sep + "author" + ": '" + author + "'" + social;
    assert SiteText(lead, scheme, urlRest, title, description, keywords, author, social)
      == before + "keywords" + ": '" + keywords + "'" + rest;
    NoKeyColonUpToTitle(lead, scheme, urlRest, "keywords");
    NoKeyColonDeclaration(before0, "title", title, Sep, "keywords");
    NoKeyColonDeclaration(before1, "description", description, Sep, "keywords");
    ExtractDeclaration(before, "keywords", keywords, rest);
  }

  /** `author` is found at its declaration. */
  lemma SiteTextAuthor(lead: string, scheme: string, urlRest: string, title: string, description: string,
                       keywords: string, author: string, social: string)
    requires ':' !in lead && ':' !in scheme && ':' !in urlRest && ':' !in title && ':' !in description
    requires ':' !in keywords
    requires !EndsWith(lead + "url" + ": '" + scheme, "author")
    requires Capturable(author)
    ensures Extract(SiteText(lead, scheme, urlRest, title, description, keywords, author, social), "author")
            == author
  {
    var before0 := lead + "url" + ": '" + scheme + ":" + urlRest + "'" + Sep;
    var before1 := before0 + "title" + ": '" + title + "'" + Sep;
    var before2 := before1 + "description" + ": '" + description + "'" + Sep;
    var before := before2 + "keywords" + ": '" + keywords + "'" + Sep;
    assert SiteText(lead, scheme, urlRest, title, description, keywords, author, social)
      == before + "author" + ": '" + author + "'" + social;
    NoKeyColonUpToTitle(lead, scheme, urlRest, "author");
    NoKeyColonDeclaration(before0, "title", title, Sep, "author");
    NoKeyColonDeclaration(before1, "description", description, Sep, "author");
    NoKeyColonDeclaration(before2, "keywords", keywords, Sep, "author");
    ExtractDeclaration(before, "author", author, social);
  }

  // ---------------------------------------------------------------------
  // The file itself
  // ---------------------------------------------------------------------

  /**
   * Over the file as it stands, `loadSiteConfig` yields the five literals
   * declared at lines 8-12, each under its `VITE_SITE_*` name.
   */
  lemma SiteConfigValues()
    ensures LoadSiteConfig(SiteSource) == map[
      "VITE_SITE_URL" := Url,
      "VITE_SITE_TITLE" := Title,
      "VITE_SITE_DESCRIPTION" := Description,
      "VITE_SITE_KEYWORDS" := Keywords,
      "VITE_SITE_AUTHOR" := Author
    ]
  {
    SiteUrl();
    SiteTitle();
    SiteDescription();
    SiteKeywords();
    SiteAuthor();
  }

  lemma SiteUrl()
    ensures Extract(SiteSource, "url") == Url
  {
    LeadHasNoColon();
    UrlCapturable();
    SiteTextUrl(Lead, UrlScheme, UrlRest, Title, Description, Keywords, Author, Social);
  }

  lemma SiteTitle()
    ensures Extract(SiteSource, "title") == Title
  {
    LeadHasNoColon();
    UrlColonFollowsScheme();
    TitleCapturable();
    SiteTextTitle(Lead, UrlScheme, UrlRest, Title, Description, Keywords, Author, Social);
  }

  lemma SiteDescription()
    ensures Extract(SiteSource, "description") == Description
  {
    LeadHasNoColon();
    UrlColonFollowsScheme();
    DescriptionCapturable();
    SiteTextDescription(Lead, UrlScheme, UrlRest, Title, Description, Keywords, Author, Social);
  }

  lemma SiteKeywords()
    ensures Extract(SiteSource, "keywords") == Keywords
  {
    LeadHasNoColon();
    UrlColonFollowsScheme();
    DescriptionHasNoColon();
    KeywordsCapturable();
    SiteTextKeywords(Lead, UrlScheme, UrlRest, Title, Description, Keywords, Author, Social);
  }

  lemma SiteAuthor()
    ensures Extract(SiteSource, "author") == Author
  {
    LeadHasNoColon();
    UrlColonFollowsScheme();
    DescriptionHasNoColon();
    AuthorCapturable();
    SiteTextAuthor(Lead, UrlScheme, UrlRest, Title, Description, Keywords, Author, Social);
  }

  lemma LeadHasNoColon()
    ensures ':' !in Lead
  {
    HeaderHasNoColon();
    ExportLineHasNoColon();
  }

  lemma HeaderHasNoColon()
    ensures ':' !in Header
  {
    HeaderTitleHasNoColon();
    HeaderPurposeHasNoColon();
    HeaderNoteHasNoColon();
  }

  lemma HeaderTitleHasNoColon()
    ensures ':' !in HeaderTitle
  {
  }

  lemma HeaderPurposeHasNoColon()
    ensures ':' !in HeaderPurpose
  {
  }

  lemma HeaderNoteHasNoColon()
    ensures ':' !in HeaderNote
  {
  }

  lemma ExportLineHasNoColon()
    ensures ':' !in ExportLine
  {
  }

  lemma DescriptionHasNoColon()
    ensures ':' !in Description
  {
    DescriptionStartHasNoColon();
    DescriptionEndHasNoColon();
  }

  lemma DescriptionStartHasNoColon()
    ensures ':' !in DescriptionStart
  {
  }

  lemma DescriptionEndHasNoColon()
    ensures ':' !in DescriptionEnd
  {
  }

  lemma UrlCapturable()
    ensures Capturable(Url)
  {
  }

  lemma TitleCapturable()
    ensures Capturable(Title)
  {
  }

  lemma KeywordsCapturable()
    ensures Capturable(Keywords)
  {
  }

  lemma AuthorCapturable()
    ensures Capturable(Author)
  {
  }

  lemma DescriptionCapturable()
    ensures Capturable(Description)
  {
    DescriptionHasNoApostrophe();
    DescriptionHasNoDoubleQuote();
  }

  lemma DescriptionHasNoApostrophe()
    ensures '\'' !in Description
  {
    DescriptionStartHasNoApostrophe();
    DescriptionEndHasNoApostrophe();
  }

  lemma DescriptionStartHasNoApostrophe()
    ensures '\'' !in DescriptionStart
  {
  }

  lemma DescriptionEndHasNoApostrophe()
    ensures '\'' !in DescriptionEnd
  {
  }

  lemma DescriptionHasNoDoubleQuote()
    ensures '"' !in Description
  {
    DescriptionStartHasNoDoubleQuote();
    DescriptionEndHasNoDoubleQuote();
  }

  lemma DescriptionStartHasNoDoubleQuote()
    ensures '"' !in DescriptionStart
  {
  }

  lemma DescriptionEndHasNoDoubleQuote()
    ensures '"' !in DescriptionEnd
  {
  }

  /** The colon inside the URL follows `https`, which is the end of none of the later keys. */
  lemma UrlColonFollowsScheme()
    ensures !EndsWith(Lead + "url" + ": '" + UrlScheme, "title")
    ensures !EndsWith(Lead + "url" + ": '" + UrlScheme, "description")
    ensures !EndsWith(Lead + "url" + ": '" + UrlScheme, "keywords")
    ensures !EndsWith(Lead + "url" + ": '" + UrlScheme, "author")
  {
    var a := Lead + "url" + ": '" + UrlScheme;
    assert a[|a| - 1] == 's' && a[|a| - 2] == 'p';
    NotEndsWith(a, "title", 0);
    NotEndsWith(a, "description", 0);
    NotEndsWith(a, "keywords", 1);
    NotEndsWith(a, "author", 0);
  }
}
