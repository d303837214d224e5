/**
 * The feed table (bot_service.py:42-110) and the two lookups over it,
 * `get_source_name` (bot_service.py:247-288) and `get_category_emoji`
 * (bot_service.py:290-295).
 */
module Feeds {
  import opened Maybe
  import opened Text

  /** One category: its display category (emoji, space, name) and its feed URLs. */
  datatype FeedGroup = FeedGroup(category: string, urls: seq<string>)

  /** A Python dict from category to URL list, in insertion order. */
  type FeedTable = seq<FeedGroup>

  /** The environment-variable prefix that declares a category. */
  const Prefix := "RSS_FEEDS_"

  const NewsEmoji := "📰"
  const TechEmoji := "💻"
  const PoliticsEmoji := "\U{1F3DB}\U{FE0F}"  // classical building, emoji presentation
  const SportsEmoji := "⚽"
  const BusinessEmoji := "💼"
  const DefaultEmoji := "📢"

  /** The keyword groups of bot_service.py:55-64, in the order they are tried. */
  const KeywordGroups: seq<(string, seq<string>)> := [
    (NewsEmoji, ["news", "noticias", "general"]),
    (TechEmoji, ["tech", "technology", "tecnologia"]),
    (PoliticsEmoji, ["politics", "politica", "conservative"]),
    (SportsEmoji, ["sports", "esportes"]),
    (BusinessEmoji, ["business", "economia", "finance"])
  ]

  /** Every emoji a category can start with. */
  const Emojis: set<string> := {NewsEmoji, TechEmoji, PoliticsEmoji, SportsEmoji, BusinessEmoji, DefaultEmoji}

  /** `any(word in text for word in words)`. */
  predicate MatchesAny(text: string, words: seq<string>) {
    exists w | w in words :: Contains(text, w)
  }

  /** The first keyword group at or after `g` that matches `text`, or `|KeywordGroups|`. */
  function FirstMatchingGroup(text: string, g: nat): (r: nat)
    requires g <= |KeywordGroups|
    ensures g <= r <= |KeywordGroups|
    ensures forall h :: g <= h < r ==> !MatchesAny(text, KeywordGroups[h].1)
    ensures r < |KeywordGroups| ==> MatchesAny(text, KeywordGroups[r].1)
    decreases |KeywordGroups| - g
  {
    if g == |KeywordGroups| || MatchesAny(text, KeywordGroups[g].1) then g
    else FirstMatchingGroup(text, g + 1)
  }

  /**
   * The emoji given to a category name (bot_service.py:55-66): that of the
   * first keyword group with a keyword in the lowered name, else the default.
   */
  function EmojiFor(name: string): (e: string)
    ensures e in Emojis
  {
    var g := FirstMatchingGroup(Lower(name), 0);
    if g < |KeywordGroups| then KeywordGroups[g].0 else DefaultEmoji
  }

  /**
   * The default emoji is given exactly when no group matches, and a group's
   * emoji only when that group matches and no earlier one does.
   */
  lemma EmojiForMeaning(name: string)
    ensures var e := EmojiFor(name);
      && (e == DefaultEmoji <==> forall g :: 0 <= g < |KeywordGroups| ==> !MatchesAny(Lower(name), KeywordGroups[g].1))
      && forall g :: 0 <= g < |KeywordGroups| && e == KeywordGroups[g].0 ==>
        MatchesAny(Lower(name), KeywordGroups[g].1) && forall h :: 0 <= h < g ==> !MatchesAny(Lower(name), KeywordGroups[h].1)
  {
    var g := FirstMatchingGroup(Lower(name), 0);
  }

  /** A name that matches several groups gets the earliest group's emoji. */
  lemma EarliestGroupWins(name: string, g: nat)
    requires g < |KeywordGroups| && MatchesAny(Lower(name), KeywordGroups[g].1)
    requires forall h :: 0 <= h < g ==> !MatchesAny(Lower(name), KeywordGroups[h].1)
    ensures EmojiFor(name) == KeywordGroups[g].0
  {
    assert FirstMatchingGroup(Lower(name), 0) == g;
  }

  /** Example: "Tech News" holds keywords of two groups; news comes first. */
  lemma TechNewsIsNews()
    ensures EmojiFor("Tech News") == NewsEmoji
  {
    var low := Lower("Tech News");
    assert low == "tech news";
    assert OccursAt(low, "news", 5);
    assert Contains(low, "news");
    assert "news" in KeywordGroups[0].1;
    EarliestGroupWins("Tech News", 0);
  }

  /** `category_key.replace('_', ' ').title()` (bot_service.py:52). */
  function CategoryName(categoryKey: string): string {
    Title(seq(|categoryKey|, i requires 0 <= i < |categoryKey| => if categoryKey[i] == '_' then ' ' else categoryKey[i]))
  }

  /** The category a variable `RSS_FEEDS_<categoryKey>` gets: emoji, one space, name. */
  function LabelFor(categoryKey: string): string {
    var name := CategoryName(categoryKey);
    EmojiFor(name) + " " + name
  }

  /** A URL as the table stores it: non-empty, no surrounding whitespace. */
  predicate Trimmed(u: string) {
    u != [] && !IsSpace(u[0]) && !IsSpace(u[|u| - 1])
  }

  /** `[u.strip() for u in pieces if u.strip()]`. */
  function CleanUrls(pieces: seq<string>): (r: seq<string>)
    ensures forall k :: 0 <= k < |r| ==> Trimmed(r[k])
  {
    if pieces == [] then []
    else
      var u := Strip(pieces[0]);
      StripByEnds(pieces[0], IsSpace);
      var rest := CleanUrls(pieces[1..]);
      if u != [] then [u] + rest else rest
  }

  /** The kept URLs are exactly the non-empty stripped pieces. */
  lemma {:induction false} CleanUrlsMembers(pieces: seq<string>)
    ensures forall u :: u in CleanUrls(pieces) <==> u != [] && exists p :: p in pieces && Strip(p) == u
  {
    if pieces != [] {
      CleanUrlsMembers(pieces[1..]);
      assert forall p :: p in pieces <==> p == pieces[0] || p in pieces[1..];
    }
  }

  /** The URL list of a variable's value (bot_service.py:69). */
  function ParseUrls(value: string): seq<string> {
    CleanUrls(SplitOn(value, ','))
  }

  /** Whether the variable declares a category. */
  predicate IsFeedKey(key: string) {
    |Prefix| <= |key| && key[..|Prefix|] == Prefix
  }

  /** Position of `category` in the table. */
  function FindCategory(t: FeedTable, category: string): (r: Option<nat>)
    ensures r.Some? ==> r.value < |t| && t[r.value].category == category
    ensures r.None? ==> forall i :: 0 <= i < |t| ==> t[i].category != category
  {
    if t == [] then None
    else if t[|t| - 1].category == category then Some(|t| - 1)
    else FindCategory(t[..|t| - 1], category)
  }

  /** No category occurs twice, as in a dict. */
  predicate DistinctCategories(t: FeedTable) {
    forall i, j :: 0 <= i < j < |t| ==> t[i].category != t[j].category
  }

  /**
   * `feeds[category] = urls`: an existing category keeps its place and takes the
   * new list, a new category goes at the end.
   */
  function Put(t: FeedTable, category: string, urls: seq<string>): (r: FeedTable)
    requires DistinctCategories(t)
    ensures FindCategory(t, category).Some? ==> |r| == |t|
    ensures FindCategory(t, category).None? ==> |r| == |t| + 1 && r[|t|] == FeedGroup(category, urls)
    ensures forall i :: 0 <= i < |t| ==> r[i] == if t[i].category == category then FeedGroup(category, urls) else t[i]
    ensures DistinctCategories(r)
  {
    match FindCategory(t, category)
    case Some(i) => t[i := FeedGroup(category, urls)]
    case None => t + [FeedGroup(category, urls)]
  }

  /** The categories the environment declares, as the loop of bot_service.py:49-71 builds them. */
  function Collect(env: seq<(string, string)>): (t: FeedTable)
    ensures DistinctCategories(t)
    decreases |env|
  {
    if env == [] then []
    else
      Step(Collect(env[..|env| - 1]), env[|env| - 1])
  }

  /** One turn of the loop: a prefixed variable whose value yields URLs sets its category. */
  function Step(t: FeedTable, pair: (string, string)): (r: FeedTable)
    requires DistinctCategories(t)
    ensures DistinctCategories(r)
  {
    var urls := ParseUrls(pair.1);
    if IsFeedKey(pair.0) && urls != [] then Put(t, LabelFor(pair.0[|Prefix|..]), urls) else t
  }

  /** The default feed lists of bot_service.py:75-108. */
  const NewsUrls: seq<string> := [
    "https://g1.globo.com/dynamo/rss2.xml",
    "https://rss.uol.com.br/feed/noticias.xml",
    "https://www.band.uol.com.br/rss/noticias.xml",
    "https://www.cnnbrasil.com.br/rss/",
    "https://feeds.folha.uol.com.br/folha/rss02.xml"
  ]

  const PoliticsUrls: seq<string> := [
    "https://www.gazetadopovo.com.br/rss/brasil.xml",
    "https://jovempan.com.br/rss.xml",
    "https://www.diariodopoder.com.br/feed/",
    "https://www.pragmatismopolitico.com.br/feed/",
    "https://conexaopolitica.com.br/feed/",
    "https://www.poder360.com.br/feed/",
    "https://crusoe.uol.com.br/rss/",
    "https://veja.abril.com.br/rss/",
    "https://www.metropoles.com/rss.xml",
    "https://www.oantagonista.com/rss/",
    "https://www.terra.com.br/rss/politica/"
  ]

  const TechUrls: seq<string> := [
    "https://canaltech.com.br/rss/",
    "https://olhardigital.com.br/feed/",
    "https://tecnoblog.net/feed/",
    "https://meiobit.com/feed/",
    "https://www.showmetech.com.br/feed/",
    "https://www.tecmundo.com.br/rss",
    "https://www.adrenaline.com.br/rss/",
    "https://www.hardware.com.br/rss/",
    "https://www.tudocelular.com/rss/",
    "https://www.oficinadanet.com.br/rss"
  ]

  /** The three groups used when the environment declares none (bot_service.py:75-108). */
  const DefaultFeeds: FeedTable := [
    FeedGroup(NewsEmoji + " " + "General News", NewsUrls),
    FeedGroup(PoliticsEmoji + " " + "Politics & Conservative", PoliticsUrls),
    FeedGroup(TechEmoji + " " + "Technology", TechUrls)
  ]

  /** `parse_feeds_from_env()`: the declared categories, or the defaults when there are none. */
  function FeedsFromEnv(env: seq<(string, string)>): FeedTable {
    var t := Collect(env);
    if t == [] then DefaultFeeds else t
  }

  /**
   * The loop of bot_service.py:49-71 over the environment's pairs, in the
   * environment's order, then the fallback of bot_service.py:74-108.
   */
  method ParseFeedsFromEnv(env: seq<(string, string)>) returns (feeds: FeedTable)
    ensures feeds == FeedsFromEnv(env)
  {
    feeds := [];
    var i := 0;
    while i < |env|
      invariant 0 <= i <= |env|
      invariant feeds == Collect(env[..i])
    {
      assert env[..i + 1][..i] == env[..i];
      var (key, value) := env[i];
      if |Prefix| <= |key| && key[..|Prefix|] == Prefix {
        var categoryKey := key[|Prefix|..];
        var urls := ParseUrls(value);
        if urls != [] {
          feeds := Put(feeds, LabelFor(categoryKey), urls);
        }
      }
      i := i + 1;
    }
    assert env[..i] == env;
    if feeds == [] {
      feeds := DefaultFeeds;
    }
  }

  /** The pair at `i` declared `group`: a prefixed variable whose value yields its URLs. */
  predicate ComesFrom(env: seq<(string, string)>, i: int, group: FeedGroup) {
    && 0 <= i < |env|
    && IsFeedKey(env[i].0)
    && group.urls == ParseUrls(env[i].1) && group.urls != []
    && group.category == LabelFor(env[i].0[|Prefix|..])
  }

  /** Whether the pair at `i` declares a category that yields URLs. */
  predicate Declares(env: seq<(string, string)>, i: int) {
    0 <= i < |env| && IsFeedKey(env[i].0) && ParseUrls(env[i].1) != []
  }

  /** The pair at `j` declares the label `category`. */
  predicate Redeclares(env: seq<(string, string)>, j: int, category: string) {
    Declares(env, j) && LabelFor(env[j].0[|Prefix|..]) == category
  }

  /** The pair at `i` declared `group`, and no later pair declares the same label. */
  predicate LastDeclarer(env: seq<(string, string)>, i: int, group: FeedGroup) {
    && ComesFrom(env, i, group)
    && forall j :: i < j < |env| ==> !Redeclares(env, j, group.category)
  }

  /** Some pair is the last to declare `group`. */
  predicate Originated(env: seq<(string, string)>, group: FeedGroup) {
    exists i | 0 <= i < |env| :: LastDeclarer(env, i, group)
  }

  /** Every group of the collected table was declared by some pair, last. */
  predicate AllOriginated(env: seq<(string, string)>) {
    forall g :: 0 <= g < |Collect(env)| ==> Originated(env, Collect(env)[g])
  }

  /**
   * Every collected category was declared by a prefixed variable with at least
   * one URL, and holds the URLs of the last such variable with that label.
   */
  lemma {:induction false} CollectOrigin(env: seq<(string, string)>)
    ensures AllOriginated(env)
    decreases |env|
  {
    if env != [] {
      var init := env[..|env| - 1];
      CollectOrigin(init);
      forall g | 0 <= g < |Collect(env)|
        ensures Originated(env, Collect(env)[g])
      {
        OriginAfterStep(env, g);
      }
    } else {
      assert Collect(env) == [];
    }
  }

  /** The induction step of `CollectOrigin`, for one position of the table. */
  lemma OriginAfterStep(env: seq<(string, string)>, g: nat)
    requires env != []
    requires AllOriginated(env[..|env| - 1])
    requires g < |Collect(env)|
    ensures Originated(env, Collect(env)[g])
  {
    var n := |env| - 1;
    var init := env[..n];
    var t := Collect(init);
    assert Collect(env) == Step(t, env[n]);
    StepCases(t, env[n], g);
    var group := Collect(env)[g];
    if Declares(env, n) && group.category == LabelFor(env[n].0[|Prefix|..]) {
      assert LastDeclarer(env, n, group);
    } else {
      assert Originated(init, t[g]);
      var i :| 0 <= i < |init| && LastDeclarer(init, i, t[g]);
      LastDeclarerExtends(env, i, group);
    }
  }

  /** A pair that does not redeclare a label keeps the last declarer of that label. */
  lemma LastDeclarerExtends(env: seq<(string, string)>, i: nat, group: FeedGroup)
    requires env != [] && LastDeclarer(env[..|env| - 1], i, group)
    requires !Declares(env, |env| - 1) || group.category != LabelFor(env[|env| - 1].0[|Prefix|..])
    ensures LastDeclarer(env, i, group)
  {
    var n := |env| - 1;
    var init := env[..n];
    assert init[i] == env[i];
    forall j | i < j < |env|
      ensures !Redeclares(env, j, group.category)
    {
      if j < n {
        assert init[j] == env[j];
        assert Redeclares(env, j, group.category) == Redeclares(init, j, group.category);
      }
    }
  }

  /** What a step leaves at each position: the declared group, or the old one. */
  lemma StepCases(t: FeedTable, pair: (string, string), g: nat)
    requires DistinctCategories(t) && g < |Step(t, pair)|
    ensures var r := Step(t, pair)[g];
      if IsFeedKey(pair.0) && ParseUrls(pair.1) != [] && r.category == LabelFor(pair.0[|Prefix|..])
      then r.urls == ParseUrls(pair.1)
      else g < |t| && r == t[g]
  {
  }

  /** A step never removes a category. */
  lemma StepKeeps(t: FeedTable, pair: (string, string), category: string)
    requires DistinctCategories(t) && FindCategory(t, category).Some?
    ensures FindCategory(Step(t, pair), category).Some?
  {
    var k := FindCategory(t, category).value;
    var r := Step(t, pair);
    assert k < |r| && r[k].category == category;
  }

  /** A step that declares a category leaves it in the table. */
  lemma StepAdds(t: FeedTable, pair: (string, string))
    requires DistinctCategories(t) && IsFeedKey(pair.0) && ParseUrls(pair.1) != []
    ensures FindCategory(Step(t, pair), LabelFor(pair.0[|Prefix|..])).Some?
  {
    var category := LabelFor(pair.0[|Prefix|..]);
    var r := Step(t, pair);
    var k := if FindCategory(t, category).Some? then FindCategory(t, category).value else |t|;
    assert k < |r| && r[k].category == category;
  }

  /** Every prefixed variable with at least one URL has its category in the table. */
  lemma CollectCovers(env: seq<(string, string)>, i: nat)
    requires Declares(env, i)
    ensures FindCategory(Collect(env), LabelFor(env[i].0[|Prefix|..])).Some?
  {
    CollectHas(env, i, LabelFor(env[i].0[|Prefix|..]));
  }

  /** The induction behind `CollectCovers`, for a fixed label. */
  lemma {:induction false} CollectHas(env: seq<(string, string)>, i: nat, category: string)
    requires Redeclares(env, i, category)
    ensures FindCategory(Collect(env), category).Some?
    decreases |env|
  {
    var n := |env| - 1;
    var init := env[..n];
    var t := Collect(init);
    assert Collect(env) == Step(t, env[n]);
    if i < n {
      assert init[i] == env[i];
      assert Redeclares(init, i, category);
      CollectHas(init, i, category);
      StepKeeps(t, env[n], category);
    } else {
      StepAdds(t, env[n]);
    }
  }

  /** With no prefixed variable that yields a URL, the table is exactly the defaults. */
  lemma NoCategoryMeansDefaults(env: seq<(string, string)>)
    requires forall i :: 0 <= i < |env| ==> !Declares(env, i)
    ensures FeedsFromEnv(env) == DefaultFeeds
  {
    CollectOrigin(env);
    if Collect(env) != [] {
      assert Originated(env, Collect(env)[0]);
      var i :| 0 <= i < |env| && LastDeclarer(env, i, Collect(env)[0]);
      assert Declares(env, i);
    }
  }

  /** A table whose URL lists are non-empty and hold only trimmed URLs. */
  predicate CleanTable(t: FeedTable) {
    forall g :: 0 <= g < |t| ==> t[g].urls != [] && forall k :: 0 <= k < |t[g].urls| ==> Trimmed(t[g].urls[k])
  }

  /** No character of `s` is whitespace. */
  predicate NoSpace(s: string) {
    forall i :: 0 <= i < |s| ==> !IsSpace(s[i])
  }

  /** The first whitespace-separated token of a label is its emoji. */
  lemma FirstTokenOfLabel(e: string, name: string)
    requires e != [] && NoSpace(e)
    ensures FirstToken(e + " " + name) == Some(e)
  {
    var s := e + " " + name;
    assert s[0] == e[0];
    assert LeadingCount(s, IsSpace) == 0;
    assert s[..|e|] == e;
    assert s[|e|] == ' ';
    assert forall i :: 0 <= i < |e| ==> s[i] == e[i];
  }

  lemma EmojisHaveNoSpace()
    ensures forall e :: e in Emojis ==> e != [] && NoSpace(e)
  {
  }

  /** Every label in the table starts with one of the emojis, as its first token. */
  predicate Labelled(t: FeedTable) {
    forall g :: 0 <= g < |t| ==> FirstToken(t[g].category).Some? && FirstToken(t[g].category).value in Emojis
  }

  lemma LabelForIsLabelled(categoryKey: string)
    ensures FirstToken(LabelFor(categoryKey)).Some? && FirstToken(LabelFor(categoryKey)).value in Emojis
  {
    var name := CategoryName(categoryKey);
    EmojisHaveNoSpace();
    FirstTokenOfLabel(EmojiFor(name), name);
  }

  lemma NewsUrlsTrimmed()
    ensures forall k :: 0 <= k < |NewsUrls| ==> Trimmed(NewsUrls[k])
  {
    forall k | 0 <= k < |NewsUrls|
      ensures Trimmed(NewsUrls[k])
    {
      if k == 0 { assert NewsUrls[0] == "https://g1.globo.com/dynamo/rss2.xml"; assert Trimmed("https://g1.globo.com/dynamo/rss2.xml"); }
      else if k == 1 { assert NewsUrls[1] == "https://rss.uol.com.br/feed/noticias.xml"; assert Trimmed("https://rss.uol.com.br/feed/noticias.xml"); }
      else if k == 2 { assert NewsUrls[2] == "https://www.band.uol.com.br/rss/noticias.xml"; assert Trimmed("https://www.band.uol.com.br/rss/noticias.xml"); }
      else if k == 3 { assert NewsUrls[3] == "https://www.cnnbrasil.com.br/rss/"; assert Trimmed("https://www.cnnbrasil.com.br/rss/"); }
      else { assert NewsUrls[4] == "https://feeds.folha.uol.com.br/folha/rss02.xml"; assert Trimmed("https://feeds.folha.uol.com.br/folha/rss02.xml"); }
    }
  }

  lemma PoliticsUrlsTrimmed()
    ensures forall k :: 0 <= k < |PoliticsUrls| ==> Trimmed(PoliticsUrls[k])
  {
    forall k | 0 <= k < |PoliticsUrls|
      ensures Trimmed(PoliticsUrls[k])
    {
      if k == 0 { assert PoliticsUrls[0] == "https://www.gazetadopovo.com.br/rss/brasil.xml"; assert Trimmed("https://www.gazetadopovo.com.br/rss/brasil.xml"); }
      else if k == 1 { assert PoliticsUrls[1] == "https://jovempan.com.br/rss.xml"; assert Trimmed("https://jovempan.com.br/rss.xml"); }
      else if k == 2 { assert PoliticsUrls[2] == "https://www.diariodopoder.com.br/feed/"; assert Trimmed("https://www.diariodopoder.com.br/feed/"); }
      else if k == 3 { assert PoliticsUrls[3] == "https://www.pragmatismopolitico.com.br/feed/"; assert Trimmed("https://www.pragmatismopolitico.com.br/feed/"); }
      else if k == 4 { assert PoliticsUrls[4] == "https://conexaopolitica.com.br/feed/"; assert Trimmed("https://conexaopolitica.com.br/feed/"); }
      else if k == 5 { assert PoliticsUrls[5] == "https://www.poder360.com.br/feed/"; assert Trimmed("https://www.poder360.com.br/feed/"); }
      else if k == 6 { assert PoliticsUrls[6] == "https://crusoe.uol.com.br/rss/"; assert Trimmed("https://crusoe.uol.com.br/rss/"); }
      else if k == 7 { assert PoliticsUrls[7] == "https://veja.abril.com.br/rss/"; assert Trimmed("https://veja.abril.com.br/rss/"); }
      else if k == 8 { assert PoliticsUrls[8] == "https://www.metropoles.com/rss.xml"; assert Trimmed("https://www.metropoles.com/rss.xml"); }
      else if k == 9 { assert PoliticsUrls[9] == "https://www.oantagonista.com/rss/"; assert Trimmed("https://www.oantagonista.com/rss/"); }
      else { assert PoliticsUrls[10] == "https://www.terra.com.br/rss/politica/"; assert Trimmed("https://www.terra.com.br/rss/politica/"); }
    }
  }

  lemma TechUrlsTrimmed()
    ensures forall k :: 0 <= k < |TechUrls| ==> Trimmed(TechUrls[k])
  {
    forall k | 0 <= k < |TechUrls|
      ensures Trimmed(TechUrls[k])
    {
      if k == 0 { assert TechUrls[0] == "https://canaltech.com.br/rss/"; assert Trimmed("https://canaltech.com.br/rss/"); }
      else if k == 1 { assert TechUrls[1] == "https://olhardigital.com.br/feed/"; assert Trimmed("https://olhardigital.com.br/feed/"); }
      else if k == 2 { assert TechUrls[2] == "https://tecnoblog.net/feed/"; assert Trimmed("https://tecnoblog.net/feed/"); }
      else if k == 3 { assert TechUrls[3] == "https://meiobit.com/feed/"; assert Trimmed("https://meiobit.com/feed/"); }
      else if k == 4 { assert TechUrls[4] == "https://www.showmetech.com.br/feed/"; assert Trimmed("https://www.showmetech.com.br/feed/"); }
      else if k == 5 { assert TechUrls[5] == "https://www.tecmundo.com.br/rss"; assert Trimmed("https://www.tecmundo.com.br/rss"); }
      else if k == 6 { assert TechUrls[6] == "https://www.adrenaline.com.br/rss/"; assert Trimmed("https://www.adrenaline.com.br/rss/"); }
      else if k == 7 { assert TechUrls[7] == "https://www.hardware.com.br/rss/"; assert Trimmed("https://www.hardware.com.br/rss/"); }
      else if k == 8 { assert TechUrls[8] == "https://www.tudocelular.com/rss/"; assert Trimmed("https://www.tudocelular.com/rss/"); }
      else { assert TechUrls[9] == "https://www.oficinadanet.com.br/rss"; assert Trimmed("https://www.oficinadanet.com.br/rss"); }
    }
  }

  lemma DefaultFeedsLabelled()
    ensures Labelled(DefaultFeeds)
  {
    EmojisHaveNoSpace();
    FirstTokenOfLabel(NewsEmoji, "General News");
    FirstTokenOfLabel(PoliticsEmoji, "Politics & Conservative");
    FirstTokenOfLabel(TechEmoji, "Technology");
    forall g | 0 <= g < |DefaultFeeds|
      ensures FirstToken(DefaultFeeds[g].category).Some? && FirstToken(DefaultFeeds[g].category).value in Emojis
    {
    }
  }

  lemma DefaultFeedsDistinct()
    ensures DistinctCategories(DefaultFeeds)
  {
    assert DefaultFeeds[0].category[0] != DefaultFeeds[1].category[0];
    assert DefaultFeeds[0].category[0] != DefaultFeeds[2].category[0];
    assert DefaultFeeds[1].category[0] != DefaultFeeds[2].category[0];
  }

  lemma DefaultFeedsShape()
    ensures CleanTable(DefaultFeeds) && Labelled(DefaultFeeds) && DistinctCategories(DefaultFeeds)
  {
    NewsUrlsTrimmed();
    PoliticsUrlsTrimmed();
    TechUrlsTrimmed();
    DefaultFeedsLabelled();
    DefaultFeedsDistinct();
  }

  /**
   * Whatever the environment holds, the table has distinct labels that each
   * start with an emoji token, and non-empty lists of trimmed URLs.
   */
  lemma FeedsFromEnvShape(env: seq<(string, string)>)
    ensures var t := FeedsFromEnv(env);
      CleanTable(t) && Labelled(t) && DistinctCategories(t) && t != []
  {
    var t := Collect(env);
    if t == [] {
      DefaultFeedsShape();
    } else {
      CollectOrigin(env);
      forall g | 0 <= g < |t|
        ensures t[g].urls != [] && (forall k :: 0 <= k < |t[g].urls| ==> Trimmed(t[g].urls[k]))
        ensures FirstToken(t[g].category).Some? && FirstToken(t[g].category).value in Emojis
      {
        assert Originated(env, t[g]);
        var i :| 0 <= i < |env| && LastDeclarer(env, i, t[g]);
        LabelForIsLabelled(env[i].0[|Prefix|..]);
      }
    }
  }

  /** Index of the first group whose URL list holds `url`, or `|t|`. */
  function GroupOf(t: FeedTable, url: string): (g: nat)
    ensures g <= |t|
    ensures forall h :: 0 <= h < g ==> url !in t[h].urls
    ensures g < |t| ==> url in t[g].urls
  {
    if t == [] || url in t[0].urls then 0 else 1 + GroupOf(t[1..], url)
  }

  /**
   * `get_category_emoji(url)`: the first token of the first category listing
   * the URL, else the default emoji; `None` where Python's `split()[0]` raises.
   */
  function CategoryEmoji(t: FeedTable, url: string): Option<string> {
    var g := GroupOf(t, url);
    if g < |t| then FirstToken(t[g].category) else Some(DefaultEmoji)
  }

  /**
   * On a labelled table the lookup never raises: it gives the emoji of the
   * first category whose list holds the URL, and the default for other URLs.
   */
  lemma CategoryEmojiMeaning(t: FeedTable, url: string)
    requires Labelled(t)
    ensures CategoryEmoji(t, url).Some? && CategoryEmoji(t, url).value in Emojis
    ensures (forall g :: 0 <= g < |t| ==> url !in t[g].urls) ==> CategoryEmoji(t, url) == Some(DefaultEmoji)
    ensures forall g :: 0 <= g < |t| && url in t[g].urls && (forall h :: 0 <= h < g ==> url !in t[h].urls) ==>
      CategoryEmoji(t, url) == FirstToken(t[g].category)
  {
    var first := GroupOf(t, url);
    forall g | 0 <= g < |t| && url in t[g].urls && (forall h :: 0 <= h < g ==> url !in t[h].urls)
      ensures CategoryEmoji(t, url) == FirstToken(t[g].category)
    {
      assert g == first;
    }
  }

  /** The friendly names of bot_service.py:249-276, tried in this order. */
  const DomainNames: seq<(string, string)> := [
    ("g1.globo.com", "G1"),
    ("rss.uol.com.br", "UOL"),
    ("band.uol.com.br", "Band"),
    ("cnnbrasil.com.br", "CNN Brasil"),
    ("feeds.folha.uol.com.br", "Folha"),
    ("gazetadopovo.com.br", "Gazeta do Povo"),
    ("jovempan.com.br", "Jovem Pan"),
    ("diariodopoder.com.br", "Diário do Poder"),
    ("pragmatismopolitico.com.br", "Pragmatismo Político"),
    ("conexaopolitica.com.br", "Conexão Política"),
    ("poder360.com.br", "Poder 360"),
    ("crusoe.uol.com.br", "Crusoé"),
    ("veja.abril.com.br", "Veja"),
    ("metropoles.com", "Metrópoles"),
    ("oantagonista.com", "O Antagonista"),
    ("terra.com.br", "Terra"),
    ("canaltech.com.br", "Canaltech"),
    ("olhardigital.com.br", "Olhar Digital"),
    ("tecnoblog.net", "Tecnoblog"),
    ("meiobit.com", "Meio Bit"),
    ("showmetech.com.br", "ShowMeTech"),
    ("tecmundo.com.br", "TecMundo"),
    ("adrenaline.com.br", "Adrenaline"),
    ("hardware.com.br", "Hardware.com.br"),
    ("tudocelular.com", "Tudo Celular"),
    ("oficinadanet.com.br", "Oficina da Net")
  ]

  /** The first table entry at or after `i` whose domain occurs in the URL, or `|DomainNames|`. */
  function FirstDomainMatch(url: string, i: nat): (r: nat)
    requires i <= |DomainNames|
    ensures i <= r <= |DomainNames|
    ensures forall j :: i <= j < r ==> !Contains(url, DomainNames[j].0)
    ensures r < |DomainNames| ==> Contains(url, DomainNames[r].0)
    decreases |DomainNames| - i
  {
    if i == |DomainNames| || Contains(url, DomainNames[i].0) then i
    else FirstDomainMatch(url, i + 1)
  }

  /**
   * The fallback of bot_service.py:283-288 on the host part `urlparse` gives
   * (`None` when it raises): every "www." removed, the part before the first
   * dot, title-cased.
   */
  function HostName(netloc: Option<string>): string {
    match netloc
    case None => "Source"
    case Some(host) => Title(BeforeFirst(RemoveAll(host, "www."), '.'))
  }

  /** Every "www." goes, wherever it occurs, and the name is the first label, title-cased. */
  lemma HostNameExample()
    ensures HostName(Some("www.ab.cd")) == "Ab"
    ensures HostName(None) == "Source"
  {
    var h := "www.ab.cd";
    assert h[..4] == "www.";
    assert h[4..] == "ab.cd";
    assert RemoveAll("ab.cd", "www.") == "ab.cd" by {
      assert !Contains("ab.cd", "www.") by {
        forall i | 0 <= i <= 1
          ensures !OccursAt("ab.cd", "www.", i)
        {
          assert "ab.cd"[i] != 'w';
        }
      }
    }
    assert RemoveAll(h, "www.") == "ab.cd";
    assert IndexOf("ab.cd", '.') == Some(2) by {
      assert "ab.cd"[2] == '.';
    }
    assert BeforeFirst("ab.cd", '.') == "ab";
    assert Title("ab") == "Ab" by {
      assert TitleAfter("b", true) == "b";
    }
  }

  /**
   * `get_source_name(url)`: the name of the first table entry whose domain
   * occurs anywhere in the URL; the host-derived name when none does.
   */
  function SourceName(url: string, netloc: Option<string>): (name: string)
    ensures forall i ::
      (0 <= i < |DomainNames| && Contains(url, DomainNames[i].0) && forall j :: 0 <= j < i ==> !Contains(url, DomainNames[j].0))
      ==> name == DomainNames[i].1
    ensures (forall i :: 0 <= i < |DomainNames| ==> !Contains(url, DomainNames[i].0)) ==> name == HostName(netloc)
  {
    var i := FirstDomainMatch(url, 0);
    if i < |DomainNames| then DomainNames[i].1 else HostName(netloc)
  }
}
