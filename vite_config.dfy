/**
 * Build-time configuration: reading values out of the site configuration
 * text (`extract` in `loadSiteConfig`) and substituting `%NAME%` tokens in
 * the page template (`htmlEnvPlugin.transformIndexHtml`).
 *
 * Both source operations are a fixed regular expression. Each is modelled as
 * an explicit left-to-right scan, together with a declarative statement of
 * what the expression matches, and the two are proved to agree.
 */
module ViteConfig {
  import opened Wrappers

  // ---------------------------------------------------------------------
  // Character classes of the two patterns
  // ---------------------------------------------------------------------

  /** JavaScript's `\s`: the ECMAScript white-space and line-terminator characters. */
  predicate IsSpace(c: char)
  {
    c == '\t' || c == '\n' || c == '\U{B}' || c == '\U{C}' || c == '\r' || c == ' '
    || c == '\U{A0}' || c == '\U{1680}' || ('\U{2000}' <= c <= '\U{200A}')
    || c == '\U{2028}' || c == '\U{2029}' || c == '\U{202F}' || c == '\U{205F}'
    || c == '\U{3000}' || c == '\U{FEFF}'
  }

  /** The class `['"]`. */
  predicate IsQuote(c: char)
  {
    c == '\'' || c == '"'
  }

  /** The class `[^'"]`. */
  predicate IsNonQuote(c: char)
  {
    !IsQuote(c)
  }

  /** JavaScript's `\w` without the `u` flag: `[A-Za-z0-9_]`. */
  predicate IsWordChar(c: char)
  {
    ('A' <= c <= 'Z') || ('a' <= c <= 'z') || ('0' <= c <= '9') || c == '_'
  }

  /** Every character of `s` is in class `p`. */
  predicate All(s: string, p: char -> bool)
  {
    forall i :: 0 <= i < |s| ==> p(s[i])
  }

  /**
   * The length of the longest prefix of `s` in class `p`: what a greedy
   * `p*` consumes. The character after it, if any, is outside the class.
   */
  function Run(s: string, p: char -> bool): (n: nat)
    ensures n <= |s|
    ensures All(s[..n], p)
    ensures n < |s| ==> !p(s[n])
  {
    if s == [] || !p(s[0]) then 0
    else
      var n := 1 + Run(s[1..], p);
      assert forall i :: 1 <= i < n ==> s[..n][i] == s[1..][..n - 1][i - 1];
      n
  }

  /** A greedy run is the only run that is followed by a character outside the class. */
  lemma {:induction false} RunUnique(s: string, p: char -> bool, n: nat)
    requires n <= |s| && All(s[..n], p)
    requires n < |s| ==> !p(s[n])
    ensures Run(s, p) == n
  {
    if n > 0 {
      assert s[1..][..n - 1] == s[..n][1..];
      RunUnique(s[1..], p, n - 1);
    } else if s != [] {
      assert !p(s[0]);
    }
  }

  // ---------------------------------------------------------------------
  // extract(key): the pattern  key:\s*['"]([^'"]+)['"]
  // ---------------------------------------------------------------------

  /**
   * The pattern matches at the start of `t` with `w` white-space characters
   * after the colon, capturing `v`. This is the expression's meaning for any
   * choice of `w` and `v`; opening and closing quote are each just one of
   * the two quote characters, independently.
   */
  predicate MatchesWith(t: string, key: string, w: nat, v: string)
  {
    var open := |key| + 1 + w;
    && open + 1 + |v| < |t|
    && t[..|key|] == key
    && t[|key|] == ':'
    && All(t[|key| + 1..open], IsSpace)
    && IsQuote(t[open])
    && |v| > 0
    && t[open + 1..open + 1 + |v|] == v
    && All(v, IsNonQuote)
    && IsQuote(t[open + 1 + |v|])
  }

  /**
   * The pattern's match anchored at the start of `t`, found by one greedy pass:
   * the key and colon, the white space, an opening quote, the longest run
   * of non-quote characters, and a closing quote. `None` when there is no match.
   */
  function MatchAt(t: string, key: string): (r: Option<string>)
  {
    var k := |key| + 1;
    if k <= |t| && t[..|key|] == key && t[|key|] == ':' then
      var open := k + Run(t[k..], IsSpace);
      if open < |t| && IsQuote(t[open]) then
        var n := Run(t[open + 1..], IsNonQuote);
        if n > 0 && open + 1 + n < |t| && IsQuote(t[open + 1 + n]) then
          Some(t[open + 1..open + 1 + n])
        else None
      else None
    else None
  }

  /** The greedy pass can only report something the pattern matches. */
  lemma MatchAtSound(t: string, key: string)
    requires MatchAt(t, key).Some?
    ensures exists w: nat :: MatchesWith(t, key, w, MatchAt(t, key).value)
  {
    var k := |key| + 1;
    var w := Run(t[k..], IsSpace);
    assert t[k..][..w] == t[k..k + w];
    var open := k + w;
    var n := Run(t[open + 1..], IsNonQuote);
    assert t[open + 1..][..n] == t[open + 1..open + 1 + n];
    assert MatchesWith(t, key, w, MatchAt(t, key).value);
  }

  /**
   * Whatever way the pattern matches at the start of `t`, the greedy pass
   * finds it and captures the same text: a match's capture is unique
   * (backtracking cannot produce a different one).
   */
  lemma MatchAtComplete(t: string, key: string, w: nat, v: string)
    requires MatchesWith(t, key, w, v)
    ensures MatchAt(t, key) == Some(v)
  {
    var k := |key| + 1;
    var open := k + w;
    var spaces := t[k..];
    assert spaces[..w] == t[k..open];
    assert w < |spaces| && spaces[w] == t[open];
    RunUnique(spaces, IsSpace, w);
    assert k + Run(spaces, IsSpace) == open;
    var body := t[open + 1..];
    assert body[..|v|] == v;
    assert body[|v|] == t[open + 1 + |v|];
    RunUnique(body, IsNonQuote, |v|);
    assert t[open + 1..open + 1 + |v|] == v;
  }

  /** The pattern matches at no position `q` with `lo <= q < hi`. */
  predicate NoMatchBetween(s: string, key: string, lo: nat, hi: nat)
  {
    forall q :: lo <= q < hi && q <= |s| ==> MatchAt(s[q..], key).None?
  }

  /**
   * The leftmost position at or after `from` where the pattern matches, as
   * `String.prototype.match` without the `g` flag tries them.
   */
  function Search(s: string, key: string, from: nat): (r: Option<nat>)
    requires from <= |s|
    ensures r.Some? ==> from <= r.value < |s| && MatchAt(s[r.value..], key).Some?
    ensures r.Some? ==> NoMatchBetween(s, key, from, r.value)
    ensures r.None? ==> NoMatchBetween(s, key, from, |s| + 1)
    decreases |s| - from
  {
    if from == |s| then None
    else if MatchAt(s[from..], key).Some? then Some(from)
    else
      var r := Search(s, key, from + 1);
      NoMatchBetweenExtend(s, key, from, if r.Some? then r.value else |s| + 1);
      r
  }

  /** A position without a match extends a match-free range to the left. */
  lemma NoMatchBetweenExtend(s: string, key: string, lo: nat, hi: nat)
    requires lo < |s| && MatchAt(s[lo..], key).None? && NoMatchBetween(s, key, lo + 1, hi)
    ensures NoMatchBetween(s, key, lo, hi)
  {
  }

  /** The search stops exactly at the first match after `from`. */
  lemma {:induction false} SearchFinds(s: string, key: string, from: nat, p: nat)
    requires from <= p < |s|
    requires MatchAt(s[p..], key).Some? && NoMatchBetween(s, key, from, p)
    ensures Search(s, key, from) == Some(p)
    decreases p - from
  {
    if from < p {
      SearchFinds(s, key, from + 1, p);
    }
  }

  /** `extract(key)`: the captured text of the first match, or `""`. */
  function Extract(content: string, key: string): string
  {
    match Search(content, key, 0)
    case None => ""
    case Some(p) => MatchAt(content[p..], key).value
  }

  /**
   * `extract` returns the empty string exactly when the pattern matches
   * nowhere in `content`; otherwise it returns the text captured by the
   * first (leftmost) match, which is non-empty and holds no quote.
   */
  lemma ExtractIsFirstMatch(content: string, key: string)
    ensures Extract(content, key) == "" <==> NoMatchBetween(content, key, 0, |content| + 1)
    ensures Extract(content, key) != "" ==>
              exists p :: 0 <= p < |content| && MatchAt(content[p..], key) == Some(Extract(content, key))
                          && NoMatchBetween(content, key, 0, p)
    ensures All(Extract(content, key), IsNonQuote)
  {
    match Search(content, key, 0)
    case None =>
    case Some(p) =>
      MatchAtSound(content[p..], key);
  }

  /** If the first match is at `p`, extraction returns its capture. */
  lemma ExtractAt(content: string, key: string, p: nat)
    requires p < |content| && MatchAt(content[p..], key).Some? && NoMatchBetween(content, key, 0, p)
    ensures Extract(content, key) == MatchAt(content[p..], key).value
  {
    SearchFinds(content, key, 0, p);
  }

  /** `loadSiteConfig`, given the configuration file's text. */
  function LoadSiteConfig(content: string): map<string, string>
  {
    map[
      "VITE_SITE_URL" := Extract(content, "url"),
      "VITE_SITE_TITLE" := Extract(content, "title"),
      "VITE_SITE_DESCRIPTION" := Extract(content, "description"),
      "VITE_SITE_KEYWORDS" := Extract(content, "keywords"),
      "VITE_SITE_AUTHOR" := Extract(content, "author")
    ]
  }

  /**
   * The configuration defines exactly the five variables the client's
   * environment type declares, each bound to the extraction of its key.
   */
  lemma SiteConfigEntries(content: string)
    ensures LoadSiteConfig(content).Keys == EnvNames
    ensures LoadSiteConfig(content)["VITE_SITE_URL"] == Extract(content, "url")
    ensures LoadSiteConfig(content)["VITE_SITE_TITLE"] == Extract(content, "title")
    ensures LoadSiteConfig(content)["VITE_SITE_DESCRIPTION"] == Extract(content, "description")
    ensures LoadSiteConfig(content)["VITE_SITE_KEYWORDS"] == Extract(content, "keywords")
    ensures LoadSiteConfig(content)["VITE_SITE_AUTHOR"] == Extract(content, "author")
  {
  }

  /** The variables `ImportMetaEnv` declares for the client. */
  const EnvNames: set<string> :=
    {"VITE_SITE_URL", "VITE_SITE_TITLE", "VITE_SITE_DESCRIPTION", "VITE_SITE_KEYWORDS", "VITE_SITE_AUTHOR"}

  /** `key` followed by a colon occurs nowhere inside `s`. */
  predicate NoKeyColon(s: string, key: string)
  {
    forall j :: |key| <= j < |s| && s[j] == ':' ==> s[j - |key|..j] != key
  }

  /** `s` ends with `suffix`. */
  predicate EndsWith(s: string, suffix: string)
  {
    |suffix| <= |s| && s[|s| - |suffix|..] == suffix
  }

  /** Text without a colon holds no `key:`. */
  lemma NoKeyColonOfColonFree(s: string, key: string)
    requires ':' !in s
    ensures NoKeyColon(s, key)
  {
    forall j | |key| <= j < |s| ensures s[j] != ':' {
      assert s[j] in s;
    }
  }

  /** One differing character, counted from the end, shows that `s` does not end with `suffix`. */
  lemma NotEndsWith(s: string, suffix: string, d: nat)
    requires d < |suffix|
    requires |suffix| <= |s| ==> s[|s| - 1 - d] != suffix[|suffix| - 1 - d]
    ensures !EndsWith(s, suffix)
  {
    if |suffix| <= |s| {
      assert s[|s| - |suffix|..][|suffix| - 1 - d] == s[|s| - 1 - d];
    }
  }

  /** Appending colon-free text adds no `key:`. */
  lemma NoKeyColonAppend(a: string, b: string, key: string)
    requires NoKeyColon(a, key) && ':' !in b
    ensures NoKeyColon(a + b, key)
  {
    var s := a + b;
    forall j | |key| <= j < |s| && s[j] == ':' ensures s[j - |key|..j] != key {
      if j < |a| {
        assert s[j - |key|..j] == a[j - |key|..j];
        assert s[j] == a[j];
      }
    }
  }

  /**
   * Appending a colon and colon-free text to text without `key:` that does
   * not end with `key` gives text without `key:`: the only new colon is the
   * joining one, and the key does not end right before it.
   */
  lemma NoKeyColonJoin(a: string, b: string, key: string)
    requires NoKeyColon(a, key) && ':' !in b
    requires !EndsWith(a, key)
    ensures NoKeyColon(a + ":" + b, key)
  {
    var s := a + ":" + b;
    forall j | |key| <= j < |s| && s[j] == ':' ensures s[j - |key|..j] != key {
      if j < |a| {
        assert s[j - |key|..j] == a[j - |key|..j];
        assert s[j] == a[j];
      } else if j == |a| {
        assert s[j - |key|..j] == a[|a| - |key|..];
      }
    }
  }

  /**
   * A declaration `k: '<v>'` and colon-free text after it, appended to text
   * without `key:`, add no `key:` when `k` and `key` end in different
   * characters and neither the value nor the text after it holds a colon.
   */
  lemma NoKeyColonDeclaration(a: string, k: string, v: string, rest: string, key: string)
    requires NoKeyColon(a, key) && ':' !in k && ':' !in v && ':' !in rest
    requires |k| > 0 && |key| > 0 && k[|k| - 1] != key[|key| - 1]
    ensures NoKeyColon(a + k + ": '" + v + "'" + rest, key)
  {
    NoKeyColonAppend(a, k, key);
    NotEndsWith(a + k, key, 0);
    var b := " '" + v + "'" + rest;
    NoKeyColonJoin(a + k, b, key);
    assert a + k + ": '" + v + "'" + rest == (a + k) + ":" + b;
  }

  /**
   * A declaration `key: '<v>'` preceded by text that holds no `key:` is what
   * `extract` returns, whatever follows it: a match needs the key right
   * before a colon, and no earlier position has that.
   */
  lemma ExtractDeclaration(lead: string, key: string, v: string, rest: string)
    requires NoKeyColon(lead, key) && ':' !in key
    requires |v| > 0 && '\'' !in v && '"' !in v
    ensures Extract(lead + key + ": '" + v + "'" + rest, key) == v
  {
    var c := lead + key + ": '" + v + "'" + rest;
    var p := |lead|;
    var t := c[p..];
    assert t == key + ": '" + v + "'" + rest;
    assert All(v, IsNonQuote);
    assert t[|key| + 1..|key| + 2] == " ";
    assert t[|key| + 3..|key| + 3 + |v|] == v;
    MatchAtComplete(t, key, 1, v);
    forall q | 0 <= q < p ensures MatchAt(c[q..], key).None? {
      if q + |key| < p {
        assert c[q..][..|key|] == lead[q..q + |key|];
        assert c[q..][|key|] == lead[q + |key|];
      } else {
        assert c[q..][|key|] == key[q + |key| - p];
        assert key[q + |key| - p] in key;
      }
    }
    ExtractAt(c, key, p);
  }

  // ---------------------------------------------------------------------
  // extract: edge cases of the pattern
  // ---------------------------------------------------------------------

  /** The opening and closing quotes are matched independently: `'abc"` still yields `abc`. */
  lemma ExtractMixedQuotes()
    ensures Extract("title: 'abc\"", "title") == "abc"
  {
    var c := "title: 'abc\"";
    assert c[0..] == c;
    MatchAtComplete(c, "title", 1, "abc");
  }

  /** The key is not anchored: `url` is found at the end of `siteurl`. */
  lemma ExtractUnanchoredKey(c: string)
    requires c == "siteurl: 'x'"
    ensures Extract(c, "url") == "x"
  {
    MatchAtComplete(c[4..], "url", 1, "x");
    assert NoMatchBetween(c, "url", 0, 4) by {
      forall q | 0 <= q < 4 ensures MatchAt(c[q..], "url").None? {
        assert c[q] != 'u';
        assert c[q..][..3][0] == c[q];
      }
    }
    ExtractAt(c, "url", 4);
  }

  /** An empty quoted value is no match; the search moves on to a later occurrence. */
  lemma ExtractSkipsEmptyValue(c: string)
    requires c == "url: '', url: 'b'"
    ensures Extract(c, "url") == "b"
  {
    EmptyValueIsNoMatch(c);
    MatchAtComplete(c[9..], "url", 1, "b");
    assert NoMatchBetween(c, "url", 0, 9) by {
      forall q | 0 <= q < 9 ensures MatchAt(c[q..], "url").None? {
        if q > 0 {
          assert c[q] != 'u';
          assert c[q..][..3][0] == c[q];
        }
      }
    }
    ExtractAt(c, "url", 9);
  }

  lemma EmptyValueIsNoMatch(c: string)
    requires c == "url: '', url: 'b'"
    ensures MatchAt(c, "url").None?
  {
    assert c[..3] == "url" && c[3] == ':' && c[4..][0] == ' ' && c[4..][1] == '\'';
    assert Run(c[4..], IsSpace) == 1;
    assert c[6..][0] == '\'';
    assert Run(c[6..], IsNonQuote) == 0;
  }

  /** White space after the colon may include line breaks. */
  lemma ExtractAcrossLines()
    ensures Extract("author:\n  \"Ann\"", "author") == "Ann"
  {
    var c := "author:\n  \"Ann\"";
    assert c[0..] == c;
    MatchAtComplete(c, "author", 3, "Ann");
  }

  // ---------------------------------------------------------------------
  // transformIndexHtml: html.replace(/%(\w+)%/g, (match, key) => config[key] || match)
  // ---------------------------------------------------------------------

  /** The pattern `%(\w+)%` matches at the start of `t`, capturing `name`. */
  predicate TokenWith(t: string, name: string)
  {
    && |name| > 0
    && All(name, IsWordChar)
    && |name| + 2 <= |t|
    && t[0] == '%'
    && t[1..1 + |name|] == name
    && t[1 + |name|] == '%'
  }

  /**
   * The length of the name of the token at the start of `t`, found by one
   * greedy pass, or `None` when the pattern does not match there.
   */
  function TokenAt(t: string): (r: Option<nat>)
    ensures r.Some? ==> 1 + r.value < |t| && TokenWith(t, t[1..1 + r.value])
  {
    if 0 < |t| && t[0] == '%' then
      var n := Run(t[1..], IsWordChar);
      assert t[1..][..n] == t[1..1 + n];
      if n > 0 && 1 + n < |t| && t[1 + n] == '%' then Some(n) else None
    else None
  }

  /** However the pattern matches at the start of `t`, the greedy pass finds the same name. */
  lemma TokenAtComplete(t: string, name: string)
    requires TokenWith(t, name)
    ensures TokenAt(t) == Some(|name|)
  {
    assert t[1..][..|name|] == name;
    assert t[1..][|name|] == '%';
    RunUnique(t[1..], IsWordChar, |name|);
  }

  /** The replacement callback: `config[key] || match`. */
  function Substitute(config: map<string, string>, name: string, token: string): (r: string)
    ensures r == token <==> name !in config || config[name] == "" || config[name] == token
    ensures r != token ==> r == config[name]
  {
    if name in config && config[name] != "" then config[name] else token
  }

  /**
   * `transformIndexHtml`. Tokens are found left to right; after a token the
   * scan resumes behind its closing `%`, and the replacement text is emitted
   * without being scanned again.
   */
  function Transform(html: string, config: map<string, string>): (out: string)
    decreases |html|
  {
    if html == [] then []
    else
      match TokenAt(html)
      case Some(n) => Substitute(config, html[1..1 + n], html[..n + 2]) + Transform(html[n + 2..], config)
      case None => [html[0]] + Transform(html[1..], config)
  }

  /** A token whose name has a non-empty value is replaced by it; scanning resumes after the token. */
  lemma {:induction false} TokenReplaced(name: string, rest: string, config: map<string, string>)
    requires |name| > 0 && All(name, IsWordChar)
    requires name in config && config[name] != ""
    ensures Transform("%" + name + "%" + rest, config) == config[name] + Transform(rest, config)
  {
    var t := "%" + name + "%" + rest;
    assert t[1..1 + |name|] == name;
    TokenAtComplete(t, name);
    assert t[|name| + 2..] == rest;
  }

  /** A token whose name is missing from the configuration, or maps to `""`, is kept verbatim. */
  lemma {:induction false} TokenKept(name: string, rest: string, config: map<string, string>)
    requires |name| > 0 && All(name, IsWordChar)
    requires name !in config || config[name] == ""
    ensures Transform("%" + name + "%" + rest, config) == "%" + name + "%" + Transform(rest, config)
  {
    var t := "%" + name + "%" + rest;
    assert t[1..1 + |name|] == name;
    TokenAtComplete(t, name);
    assert t[|name| + 2..] == rest;
    assert t[..|name| + 2] == "%" + name + "%";
  }

  /** Text without a `%` passes through unchanged. */
  lemma {:induction false} TransformWithoutPercent(html: string, config: map<string, string>)
    requires '%' !in html
    ensures Transform(html, config) == html
  {
    if html != [] {
      assert html[0] != '%';
      TransformWithoutPercent(html[1..], config);
      assert html == [html[0]] + html[1..];
    }
  }

  /** Text without a `%` before the rest of the page is copied, and the scan goes on with the rest. */
  lemma {:induction false} TransformPlainPrefix(a: string, b: string, config: map<string, string>)
    requires '%' !in a
    ensures Transform(a + b, config) == a + Transform(b, config)
  {
    if a == [] {
      assert a + b == b;
    } else {
      var t := a + b;
      assert t[0] == a[0] && a[0] != '%';
      assert t[1..] == a[1..] + b;
      TransformPlainPrefix(a[1..], b, config);
      assert a == [a[0]] + a[1..];
    }
  }

  /** A `%` at which the pattern does not match is copied, and the scan moves one character on. */
  lemma StrayPercentKept(html: string, config: map<string, string>)
    requires |html| > 0 && html[0] == '%'
    requires forall name :: !TokenWith(html, name)
    ensures Transform(html, config) == "%" + Transform(html[1..], config)
  {
  }

  /**
   * The title of `index.html`: with a non-empty configured title, the token
   * between the tags becomes that title and the tags are kept.
   */
  lemma TransformTitleTag(config: map<string, string>)
    requires "VITE_SITE_TITLE" in config && config["VITE_SITE_TITLE"] != ""
    ensures Transform("<title>%VITE_SITE_TITLE%</title>", config) == "<title>" + config["VITE_SITE_TITLE"] + "</title>"
  {
    var name := "VITE_SITE_TITLE";
    assert All(name, IsWordChar) by {
      forall i | 0 <= i < |name| ensures IsWordChar(name[i]) {
      }
    }
    assert "<title>%VITE_SITE_TITLE%</title>" == "<title>" + ("%" + name + "%" + "</title>");
    TransformPlainPrefix("<title>", "%" + name + "%" + "</title>", config);
    TokenReplaced(name, "</title>", config);
    TransformWithoutPercent("</title>", config);
  }

  /** With an empty configuration every token is kept, so the page is unchanged. */
  lemma {:induction false} TransformEmptyConfig(html: string)
    ensures Transform(html, map[]) == html
  {
    if html != [] {
      match TokenAt(html)
      case Some(n) =>
        TransformEmptyConfig(html[n + 2..]);
        assert html == html[..n + 2] + html[n + 2..];
      case None =>
        TransformEmptyConfig(html[1..]);
        assert html == [html[0]] + html[1..];
    }
  }

  /** Replacement text is not scanned again: a value that is itself a token stays as it is. */
  lemma ReplacementNotRescanned()
    ensures Transform("%A%", map["A" := "%B%", "B" := "x"]) == "%B%"
  {
    var config := map["A" := "%B%", "B" := "x"];
    TokenReplaced("A", "", config);
    assert "%" + "A" + "%" + "" == "%A%";
  }

  /** Matches do not overlap: in `%A%B%` the middle `%` closes the first token. */
  lemma TokensDoNotOverlap()
    ensures Transform("%A%B%", map["A" := "1", "B" := "2"]) == "1B%"
  {
    var config := map["A" := "1", "B" := "2"];
    TokenReplaced("A", "B%", config);
    assert "%" + "A" + "%" + "B%" == "%A%B%";
    TransformWithoutPercent("", config);
    var t := "B%";
    assert TokenAt(t).None?;
    assert t[1..] == "%";
    var u := "%";
    assert TokenAt(u).None?;
    assert u[1..] == "";
  }
}
