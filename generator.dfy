/**
 * The post generator: raids, threads, cult posts, FUD answers, replies and
 * milestone posts, each built from the configured templates.
 *
 * The generator object only holds references to the configuration tables and
 * never changes them, so its operations are functions of their arguments.
 * Every random choice is an argument: a `TagDraw` for the hashtag line and a
 * `templatePick` for `random.choice` over a template list.
 */
module Generator {
  import opened Basics
  import opened Strings
  import opened Format
  import opened Config
  import opened Hashtags

  /** The random outcomes one generation call consumes. */
  datatype Draw = Draw(tags: TagDraw, templatePick: nat)

  /** `PRODUCTS[key]` with a key the table does not hold. */
  datatype RaidError = KeyError(key: string)

  // ---------------------------------------------------------------------
  // Raids
  // ---------------------------------------------------------------------

  /** The raid styles the dispatcher names; any other name gets a comparison. */
  const RaidStyles: seq<string> :=
    ["imagine", "what_do_you_think", "fuck_x", "comparison", "provocation", "viral"]

  /** `self.products.get(key)`, falling back to the HolDEX product. */
  function ResolveProduct(productKey: string): (p: Product)
    ensures HasKey(Products, productKey) ==> Lookup(Products, productKey) == Some(p)
    ensures !HasKey(Products, productKey) ==> p == Holdex
  {
    Lookup(Products, productKey).GetOr(Holdex)
  }

  lemma HoldexIsTheFallback()
    ensures Lookup(Products, "holdex") == Some(Holdex)
  {
  }

  /** How `str.format` prints an optional field: Python's `str(None)` when it is missing. */
  function Str(o: Option<string>): (s: string)
    ensures o.Some? ==> s == o.value
    ensures o.None? ==> s == "None"
  {
    o.GetOr("None")
  }

  /** Hashtags of a raid: product and "dexscreener" topic tags, at most three. */
  function RaidHashtags(productKey: string, d: TagDraw): string {
    HashtagLine(Some(productKey), Some("dexscreener"), 3, d)
  }

  /** The placeholders of the Imagine raid template and where they sit. */
  lemma ImagineShape()
    ensures HolesWithin(ImagineTemplate, {Competitor, CompetitorPrice, Price, Url, Hashtags})
    ensures |ImagineTemplate| > 1 && ImagineTemplate[1] == Hole(Competitor)
    ensures |ImagineTemplate| > 3 && ImagineTemplate[3] == Hole(CompetitorPrice)
    ensures |ImagineTemplate| > 5 && ImagineTemplate[5] == Hole(Price)
    ensures |ImagineTemplate| > 7 && ImagineTemplate[7] == Hole(Url)
    ensures |ImagineTemplate| > 9 && ImagineTemplate[9] == Hole(Hashtags)
  {
  }

  /** The placeholders of the WhatDoYouThink raid template and where they sit. */
  lemma WhatDoYouThinkShape()
    ensures HolesWithin(WhatDoYouThinkTemplate, {Problem, ProductName, Solution, Url, Hashtags})
    ensures |WhatDoYouThinkTemplate| > 1 && WhatDoYouThinkTemplate[1] == Hole(Problem)
    ensures |WhatDoYouThinkTemplate| > 3 && WhatDoYouThinkTemplate[3] == Hole(ProductName)
    ensures |WhatDoYouThinkTemplate| > 5 && WhatDoYouThinkTemplate[5] == Hole(Solution)
    ensures |WhatDoYouThinkTemplate| > 7 && WhatDoYouThinkTemplate[7] == Hole(Url)
    ensures |WhatDoYouThinkTemplate| > 9 && WhatDoYouThinkTemplate[9] == Hole(Hashtags)
  {
  }

  /** The placeholders of the FuckX raid template and where they sit. */
  lemma FuckXShape()
    ensures HolesWithin(FuckXTemplate, {Target, Complaint, ProductName, ValueProp, Url, Hashtags})
    ensures |FuckXTemplate| > 1 && FuckXTemplate[1] == Hole(Target)
    ensures |FuckXTemplate| > 3 && FuckXTemplate[3] == Hole(Complaint)
    ensures |FuckXTemplate| > 5 && FuckXTemplate[5] == Hole(ProductName)
    ensures |FuckXTemplate| > 7 && FuckXTemplate[7] == Hole(ValueProp)
    ensures |FuckXTemplate| > 9 && FuckXTemplate[9] == Hole(Url)
    ensures |FuckXTemplate| > 11 && FuckXTemplate[11] == Hole(Hashtags)
  {
  }

  /** The placeholders of the Comparison raid template and where they sit. */
  lemma ComparisonShape()
    ensures HolesWithin(ComparisonTemplate, {Competitor, CompetitorPrice, ProductLower, Price, Url, Hashtags})
    ensures |ComparisonTemplate| > 0 && ComparisonTemplate[0] == Hole(Competitor)
    ensures |ComparisonTemplate| > 2 && ComparisonTemplate[2] == Hole(CompetitorPrice)
    ensures |ComparisonTemplate| > 4 && ComparisonTemplate[4] == Hole(ProductLower)
    ensures |ComparisonTemplate| > 6 && ComparisonTemplate[6] == Hole(Price)
    ensures |ComparisonTemplate| > 8 && ComparisonTemplate[8] == Hole(Url)
    ensures |ComparisonTemplate| > 10 && ComparisonTemplate[10] == Hole(Hashtags)
  {
  }

  /** The placeholders of the Provocation raid template and where they sit. */
  lemma ProvocationShape()
    ensures HolesWithin(ProvocationTemplate, {Competitor, Action, ProductLower, Price, Url, Hashtags})
    ensures |ProvocationTemplate| > 0 && ProvocationTemplate[0] == Hole(Competitor)
    ensures |ProvocationTemplate| > 2 && ProvocationTemplate[2] == Hole(Action)
    ensures |ProvocationTemplate| > 4 && ProvocationTemplate[4] == Hole(ProductLower)
    ensures |ProvocationTemplate| > 6 && ProvocationTemplate[6] == Hole(Price)
    ensures |ProvocationTemplate| > 8 && ProvocationTemplate[8] == Hole(Url)
    ensures |ProvocationTemplate| > 10 && ProvocationTemplate[10] == Hole(Hashtags)
  {
  }

  /** An "imagine" raid prints the competitor's price next to the product's. */
  function ImagineRaid(p: Product, hashtags: string): (r: string)
    ensures Contains(r, Str(p.competitor)) && Contains(r, Str(p.competitorPrice))
    ensures Contains(r, Str(p.price)) && Contains(r, p.url) && Contains(r, hashtags)
    ensures Contains(r, "Imagine")
  {
    var env := map[Competitor := Str(p.competitor), CompetitorPrice := Str(p.competitorPrice),
                   Price := Str(p.price), Url := p.url, Hashtags := hashtags];
    ImagineShape();
    var opening := "Imagine continuing to pay ";
    FillContainsSegment(ImagineTemplate, env, 0);
    assert Render(ImagineTemplate[0], env) == opening;
    ContainsPrefix(opening, 7);
    assert opening[..7] == "Imagine";
    ContainsTransitive(Fill(ImagineTemplate, env), opening, "Imagine");
    FillContainsSegment(ImagineTemplate, env, 1);
    FillContainsSegment(ImagineTemplate, env, 3);
    FillContainsSegment(ImagineTemplate, env, 5);
    FillContainsSegment(ImagineTemplate, env, 7);
    FillContainsSegment(ImagineTemplate, env, 9);
    Fill(ImagineTemplate, env)
  }

  /** The "what do you think" text: the problem, the product and its answer to it. */
  function WhatDoYouThinkPost(problem: string, name: string, solution: string, url: string, hashtags: string)
    : (r: string)
    ensures Contains(r, problem) && Contains(r, name) && Contains(r, solution)
    ensures Contains(r, url) && Contains(r, hashtags)
  {
    var env := map[Problem := problem, ProductName := name, Solution := solution, Url := url,
                   Hashtags := hashtags];
    WhatDoYouThinkShape();
    FillContainsSegment(WhatDoYouThinkTemplate, env, 1);
    FillContainsSegment(WhatDoYouThinkTemplate, env, 3);
    FillContainsSegment(WhatDoYouThinkTemplate, env, 5);
    FillContainsSegment(WhatDoYouThinkTemplate, env, 7);
    FillContainsSegment(WhatDoYouThinkTemplate, env, 9);
    Fill(WhatDoYouThinkTemplate, env)
  }

  /**
   * A "what do you think" raid; it indexes the product table directly, so an
   * unknown key fails. The problem and solution texts have defaults.
   */
  function WhatDoYouThinkRaid(productKey: string, hashtags: string): (r: Result<string, RaidError>)
    ensures r.Failure? <==> !HasKey(Products, productKey)
    ensures r.Failure? ==> r.error == KeyError(productKey)
    ensures r.Success? ==>
      var p := Lookup(Products, productKey).value;
      r.value == WhatDoYouThinkPost(LookupOr(WhatDoYouThinkProblems, productKey, "extractive fees"),
                                    p.name,
                                    LookupOr(WhatDoYouThinkSolutions, productKey, "burn fees instead"),
                                    p.url, hashtags)
  {
    match Lookup(Products, productKey)
    case None => Failure(KeyError(productKey))
    case Some(p) =>
      Success(WhatDoYouThinkPost(LookupOr(WhatDoYouThinkProblems, productKey, "extractive fees"),
                                 p.name,
                                 LookupOr(WhatDoYouThinkSolutions, productKey, "burn fees instead"),
                                 p.url, hashtags))
  }

  /** The target triple of a "fuck_x" raid, with its default. */
  function FuckXTarget(productKey: string): (t: RaidTarget)
    ensures !HasKey(FuckXTargets, productKey) ==>
      t == RaidTarget("extractors", "taking your money", "$20. burned.")
  {
    LookupOr(FuckXTargets, productKey,
             RaidTarget("extractors", "taking your money", "$20. burned."))
  }

  /** The "fuck_x" text: the target and its complaint, then the product's answer. */
  function FuckXPost(t: RaidTarget, name: string, url: string, hashtags: string): (r: string)
    ensures Contains(r, t.target) && Contains(r, t.complaint) && Contains(r, t.valueProp)
    ensures Contains(r, name) && Contains(r, url) && Contains(r, hashtags)
  {
    var env := map[Target := t.target, Complaint := t.complaint, ProductName := name,
                   ValueProp := t.valueProp, Url := url, Hashtags := hashtags];
    FuckXShape();
    FillContainsSegment(FuckXTemplate, env, 1);
    FillContainsSegment(FuckXTemplate, env, 3);
    FillContainsSegment(FuckXTemplate, env, 5);
    FillContainsSegment(FuckXTemplate, env, 7);
    FillContainsSegment(FuckXTemplate, env, 9);
    FillContainsSegment(FuckXTemplate, env, 11);
    Fill(FuckXTemplate, env)
  }

  /** A "fuck_x" raid, with the lower-cased product name; an unknown key fails. */
  function FuckXRaid(productKey: string, hashtags: string): (r: Result<string, RaidError>)
    ensures r.Failure? <==> !HasKey(Products, productKey)
    ensures r.Failure? ==> r.error == KeyError(productKey)
    ensures r.Success? ==>
      var p := Lookup(Products, productKey).value;
      r.value == FuckXPost(FuckXTarget(productKey), Lower(p.name), p.url, hashtags)
  {
    match Lookup(Products, productKey)
    case None => Failure(KeyError(productKey))
    case Some(p) => Success(FuckXPost(FuckXTarget(productKey), Lower(p.name), p.url, hashtags))
  }

  /** A comparison raid: the competitor's price against the product's, lower-cased name. */
  function ComparisonRaid(p: Product, hashtags: string): (r: string)
    ensures Contains(r, Str(p.competitor)) && Contains(r, Str(p.competitorPrice))
    ensures Contains(r, Lower(p.name)) && Contains(r, Str(p.price))
    ensures Contains(r, p.url) && Contains(r, hashtags)
  {
    var env := map[Competitor := Str(p.competitor), CompetitorPrice := Str(p.competitorPrice),
                   ProductLower := Lower(p.name), Price := Str(p.price), Url := p.url,
                   Hashtags := hashtags];
    ComparisonShape();
    FillContainsSegment(ComparisonTemplate, env, 0);
    FillContainsSegment(ComparisonTemplate, env, 2);
    FillContainsSegment(ComparisonTemplate, env, 4);
    FillContainsSegment(ComparisonTemplate, env, 6);
    FillContainsSegment(ComparisonTemplate, env, 8);
    FillContainsSegment(ComparisonTemplate, env, 10);
    Fill(ComparisonTemplate, env)
  }

  /** The provocation text: what the competitor earned and what was built instead. */
  function ProvocationPost(competitor: string, action: string, nameLower: string, price: string,
                           url: string, hashtags: string): (r: string)
    ensures Contains(r, competitor) && Contains(r, action) && Contains(r, nameLower)
    ensures Contains(r, price) && Contains(r, url) && Contains(r, hashtags)
  {
    var env := map[Competitor := competitor, Action := action, ProductLower := nameLower,
                   Price := price, Url := url, Hashtags := hashtags];
    ProvocationShape();
    FillContainsSegment(ProvocationTemplate, env, 0);
    FillContainsSegment(ProvocationTemplate, env, 2);
    FillContainsSegment(ProvocationTemplate, env, 4);
    FillContainsSegment(ProvocationTemplate, env, 6);
    FillContainsSegment(ProvocationTemplate, env, 8);
    FillContainsSegment(ProvocationTemplate, env, 10);
    Fill(ProvocationTemplate, env)
  }

  /** A provocation raid; an unknown key fails, like the direct table index. */
  function ProvocationRaid(productKey: string, hashtags: string): (r: Result<string, RaidError>)
    ensures r.Failure? <==> !HasKey(Products, productKey)
    ensures r.Failure? ==> r.error == KeyError(productKey)
    ensures r.Success? ==>
      var p := Lookup(Products, productKey).value;
      r.value == ProvocationPost(Str(p.competitor),
                                 LookupOr(ProvocationActions, productKey, "extracting fees"),
                                 Lower(p.name), Str(p.price), p.url, hashtags)
  {
    match Lookup(Products, productKey)
    case None => Failure(KeyError(productKey))
    case Some(p) =>
      Success(ProvocationPost(Str(p.competitor),
                              LookupOr(ProvocationActions, productKey, "extracting fees"),
                              Lower(p.name), Str(p.price), p.url, hashtags))
  }

  /** Every viral template is its text followed by the hashtag placeholder. */
  lemma ViralShape()
    ensures forall i :: 0 <= i < |ViralTemplates| ==>
      HolesWithin(ViralTemplates[i], {Hashtags}) && |ViralTemplates[i]| == 2 &&
      ViralTemplates[i][1] == Hole(Hashtags)
  {
  }

  /** A viral post: one of the viral templates, chosen by `pick`, with the hashtags. */
  function ViralRaid(hashtags: string, pick: nat): (r: string)
    ensures exists i :: 0 <= i < |ViralTemplates| && r == Fill(ViralTemplates[i], map[Hashtags := hashtags])
    ensures Contains(r, hashtags)
  {
    var i := pick % |ViralTemplates|;
    var env := map[Hashtags := hashtags];
    ViralShape();
    FillContainsSegment(ViralTemplates[i], env, 1);
    Fill(ViralTemplates[i], env)
  }

  /** The dispatch on the raid style, given the hashtag line and the template pick. */
  function RaidFor(templateName: string, productKey: string, hashtags: string, pick: nat)
    : (r: Result<string, RaidError>)
    ensures r.Failure? <==>
      templateName in ["what_do_you_think", "fuck_x", "provocation"] && !HasKey(Products, productKey)
    ensures r.Failure? ==> r.error == KeyError(productKey)
    ensures r.Success? ==> Contains(r.value, hashtags)
    ensures templateName == "imagine" ==> r == Success(ImagineRaid(ResolveProduct(productKey), hashtags))
    ensures templateName == "what_do_you_think" ==> r == WhatDoYouThinkRaid(productKey, hashtags)
    ensures templateName == "fuck_x" ==> r == FuckXRaid(productKey, hashtags)
    ensures templateName == "provocation" ==> r == ProvocationRaid(productKey, hashtags)
    ensures templateName == "viral" ==> r == Success(ViralRaid(hashtags, pick))
    ensures templateName == "comparison" ==>
      r == Success(ComparisonRaid(ResolveProduct(productKey), hashtags))
  {
    var product := ResolveProduct(productKey);
    if templateName == "imagine" then Success(ImagineRaid(product, hashtags))
    else if templateName == "what_do_you_think" then WhatDoYouThinkRaid(productKey, hashtags)
    else if templateName == "fuck_x" then FuckXRaid(productKey, hashtags)
    else if templateName == "comparison" then Success(ComparisonRaid(product, hashtags))
    else if templateName == "provocation" then ProvocationRaid(productKey, hashtags)
    else if templateName == "viral" then Success(ViralRaid(hashtags, pick))
    else Success(ComparisonRaid(product, hashtags))
  }

  /** `generate_raid(template_name, product_key)` as written. */
  function GenerateRaid(templateName: string, productKey: string, d: Draw): (r: Result<string, RaidError>)
    ensures r.Failure? <==>
      templateName in ["what_do_you_think", "fuck_x", "provocation"] && !HasKey(Products, productKey)
    ensures r.Success? ==> Contains(r.value, RaidHashtags(productKey, d.tags))
    ensures templateName == "imagine" ==>
      r == Success(ImagineRaid(ResolveProduct(productKey), RaidHashtags(productKey, d.tags)))
    ensures templateName == "what_do_you_think" ==> r == WhatDoYouThinkRaid(productKey, RaidHashtags(productKey, d.tags))
    ensures templateName == "fuck_x" ==> r == FuckXRaid(productKey, RaidHashtags(productKey, d.tags))
    ensures templateName == "provocation" ==> r == ProvocationRaid(productKey, RaidHashtags(productKey, d.tags))
    ensures templateName == "viral" ==> r == Success(ViralRaid(RaidHashtags(productKey, d.tags), d.templatePick))
    ensures templateName == "comparison" ==>
      r == Success(ComparisonRaid(ResolveProduct(productKey), RaidHashtags(productKey, d.tags)))
  {
    RaidFor(templateName, productKey, RaidHashtags(productKey, d.tags), d.templatePick)
  }

  /** A style name the dispatcher does not know gives a comparison raid. */
  lemma UnknownStyleIsComparison(templateName: string, productKey: string, d: Draw)
    requires templateName !in RaidStyles
    ensures GenerateRaid(templateName, productKey, d) == GenerateRaid("comparison", productKey, d)
  {
    assert templateName != "imagine" && templateName != "what_do_you_think" && templateName != "fuck_x";
    assert templateName != "comparison" && templateName != "provocation" && templateName != "viral";
  }

  /**
   * As written, an unknown product key falls back to HolDEX for "imagine" and
   * "comparison" but fails for the three styles that index the table directly.
   */
  lemma UnknownProductAsWritten(productKey: string, d: Draw)
    requires !HasKey(Products, productKey)
    ensures GenerateRaid("imagine", productKey, d) ==
            Success(ImagineRaid(Holdex, RaidHashtags(productKey, d.tags)))
    ensures GenerateRaid("comparison", productKey, d) ==
            Success(ComparisonRaid(Holdex, RaidHashtags(productKey, d.tags)))
    ensures GenerateRaid("what_do_you_think", productKey, d) == Failure(KeyError(productKey))
    ensures GenerateRaid("fuck_x", productKey, d) == Failure(KeyError(productKey))
    ensures GenerateRaid("provocation", productKey, d) == Failure(KeyError(productKey))
  {
  }

  /** The concrete input that shows it. */
  lemma InvalidProductFuckX(d: Draw)
    ensures GenerateRaid("fuck_x", "invalid_product", d) == Failure(KeyError("invalid_product"))
    ensures GenerateRaid("comparison", "invalid_product", d).Success?
  {
    assert !HasKey(Products, "invalid_product") by {
      assert Lookup(Products, "invalid_product") == None;
    }
  }

  /** The key every raid style uses: the given one if known, HolDEX's otherwise. */
  function FallbackKey(productKey: string): (k: string)
    ensures HasKey(Products, k)
    ensures HasKey(Products, productKey) ==> k == productKey
    ensures ResolveProduct(k) == ResolveProduct(productKey)
  {
    HoldexIsTheFallback();
    if HasKey(Products, productKey) then productKey else "holdex"
  }

  /**
   * The evidently intended raid: the product key is resolved once, with the
   * HolDEX fallback, before any style reads the table, so every style succeeds.
   * The hashtag line still uses the key as given.
   */
  function GenerateRaidResolved(templateName: string, productKey: string, d: Draw): (r: string)
    ensures HasKey(Products, productKey) ==> GenerateRaid(templateName, productKey, d) == Success(r)
    ensures !HasKey(Products, productKey) ==>
      RaidFor(templateName, "holdex", RaidHashtags(productKey, d.tags), d.templatePick) == Success(r)
    ensures Contains(r, RaidHashtags(productKey, d.tags))
  {
    HoldexIsTheFallback();
    var res := RaidFor(templateName, FallbackKey(productKey), RaidHashtags(productKey, d.tags), d.templatePick);
    res.value
  }

  /** HolDEX raids are the imagine and comparison texts of the HolDEX product. */
  lemma HoldexRaids(hashtags: string, pick: nat)
    ensures RaidFor("imagine", "holdex", hashtags, pick) == Success(ImagineRaid(Holdex, hashtags))
    ensures RaidFor("comparison", "holdex", hashtags, pick) == Success(ComparisonRaid(Holdex, hashtags))
  {
    HoldexIsTheFallback();
  }

  /** A HolDEX "imagine" raid opens with "Imagine" and quotes DexScreener's $300 against the $20 listing, with the URL. */
  lemma HoldexImagineQuotes(hashtags: string)
    ensures var r := ImagineRaid(Holdex, hashtags);
      Contains(r, "Imagine") && Contains(r, "DexScreener") && Contains(r, "$300") && Contains(r, "$20") &&
      Contains(r, "alonisthe.dev/holdex")
  {
  }

  /** A HolDEX comparison raid quotes the same figures and names "holdex" in lower case. */
  lemma HoldexComparisonQuotes(hashtags: string)
    ensures var r := ComparisonRaid(Holdex, hashtags);
      Contains(r, "DexScreener") && Contains(r, "$300") && Contains(r, "$20") &&
      Contains(r, "holdex") && Contains(r, "alonisthe.dev/holdex")
  {
    assert Lower("HolDEX") == "holdex";
  }

  // ---------------------------------------------------------------------
  // Threads
  // ---------------------------------------------------------------------

  /** The thread types. */
  lemma ThreadTable()
    ensures forall k :: HasKey(ThreadTemplates, k) <==>
      k in ["holdex", "ignition", "asdforecast", "ecosystem", "builder_story"]
  {
    assert ThreadTemplates[0].0 == "holdex" && ThreadTemplates[1].0 == "ignition";
    assert ThreadTemplates[2].0 == "asdforecast" && ThreadTemplates[3].0 == "ecosystem";
    assert ThreadTemplates[4].0 == "builder_story";
  }

  /** Each tweet's only placeholder is the hashtag line. */
  lemma ThreadTweetHoles()
    ensures forall i, k :: 0 <= i < |ThreadTemplates| && 0 <= k < |ThreadTemplates[i].1| ==>
      HolesWithin(ThreadTemplates[i].1[k], {Hashtags})
  {
  }

  /** Where the tweets of a thread type sit; an unknown type gets the "ecosystem" thread. */
  function ThreadIndex(threadType: string): (i: nat)
    ensures i < |ThreadTemplates|
    ensures HasKey(ThreadTemplates, threadType) ==> ThreadTemplates[i].0 == threadType
    ensures !HasKey(ThreadTemplates, threadType) ==> ThreadTemplates[i].0 == "ecosystem"
  {
    assert ThreadTemplates[3].0 == "ecosystem";
    IndexOr(ThreadTemplates, threadType, "ecosystem")
  }

  /** The tweet templates of `generate_thread(thread_type)`. */
  function ThreadTemplate(threadType: string): (ts: seq<Template>)
    ensures forall k :: 0 <= k < |ts| ==> HolesWithin(ts[k], {Hashtags})
    ensures ThreadShaped(ts)
  {
    ThreadTweetHoles();
    ThreadTableShaped();
    ThreadTemplates[ThreadIndex(threadType)].1
  }

  /** Hashtags of a thread: a "building" topic tag after the core tags, at most three. */
  function ThreadHashtags(d: TagDraw): string {
    HashtagLine(None, Some("building"), 3, d)
  }

  /** The source's `"{hashtags}" in tweet` test agrees with the template's placeholders. */
  lemma TweetPlaceholder(tweet: Template, hashtags: string)
    requires HolesWithin(tweet, {Hashtags})
    ensures HasHole(tweet, Hashtags) ==>
      Contains(Raw(tweet), "{hashtags}") && Contains(Fill(tweet, map[Hashtags := hashtags]), hashtags)
    ensures !HasHole(tweet, Hashtags) ==> Fill(tweet, map[Hashtags := hashtags]) == Raw(tweet)
  {
    var env := map[Hashtags := hashtags];
    assert "{" + FieldName(Hashtags) + "}" == "{hashtags}";
    if HasHole(tweet, Hashtags) {
      RawShowsHole(tweet, Hashtags);
      FillContainsValue(tweet, env, Hashtags);
    } else {
      FillWithoutHoles(tweet, env);
    }
  }

  /** One tweet formatted with the hashtag line. */
  function FormatTweet(tweet: Template, hashtags: string): string
    requires HolesWithin(tweet, {Hashtags})
  {
    Fill(tweet, map[Hashtags := hashtags])
  }

  /** Every tweet formatted with the hashtags, in order. */
  function FormatAll(ts: seq<Template>, hashtags: string): (r: seq<string>)
    requires forall k :: 0 <= k < |ts| ==> HolesWithin(ts[k], {Hashtags})
    ensures |r| == |ts|
    ensures forall k :: 0 <= k < |r| ==> r[k] == FormatTweet(ts[k], hashtags)
  {
    seq(|ts|, k requires 0 <= k < |ts| => FormatTweet(ts[k], hashtags))
  }

  /** The tweets of `generate_thread(thread_type)`, given the hashtag line it drew. */
  function Thread(threadType: string, hashtags: string): (r: seq<string>)
    ensures |r| == |ThreadTemplate(threadType)|
  {
    FormatAll(ThreadTemplate(threadType), hashtags)
  }

  /**
   * The loop of `generate_thread`: a tweet whose text shows the hashtag
   * placeholder is filled in, any other is kept verbatim.
   */
  method FormatTweets(templates: seq<Template>, hashtags: string) returns (tweets: seq<string>)
    requires forall k :: 0 <= k < |templates| ==> HolesWithin(templates[k], {Hashtags})
    ensures tweets == FormatAll(templates, hashtags)
  {
    tweets := [];
    for i := 0 to |templates|
      invariant |tweets| == i
      invariant forall k :: 0 <= k < i ==> tweets[k] == FormatTweet(templates[k], hashtags)
    {
      var tweet := templates[i];
      var formatted: string;
      if Contains(Raw(tweet), "{hashtags}") {
        formatted := Fill(tweet, map[Hashtags := hashtags]);
      } else {
        TweetPlaceholder(tweet, hashtags);
        formatted := Raw(tweet);
      }
      tweets := tweets + [formatted];
    }
  }

  method GenerateThread(threadType: string, d: TagDraw) returns (tweets: seq<string>)
    ensures tweets == Thread(threadType, ThreadHashtags(d))
  {
    var key := threadType;
    if !HasKey(ThreadTemplates, key) {
      assert ThreadTemplates[3].0 == "ecosystem";
      key := "ecosystem";
    }
    var hashtags := GetHashtags(None, Some("building"), 3, d);
    var index := IndexOfKey(ThreadTemplates, key);
    assert index == ThreadIndex(threadType);
    ThreadTweetHoles();
    tweets := FormatTweets(ThreadTemplates[index].1, hashtags);
  }

  /** An unknown thread type gives the "ecosystem" thread. */
  lemma UnknownThreadIsEcosystem(threadType: string, hashtags: string)
    requires !HasKey(ThreadTemplates, threadType)
    ensures Thread(threadType, hashtags) == Thread("ecosystem", hashtags)
  {
    ThreadTable();
  }

  /** Thread lengths: ten tweets for the four product and story threads, eleven otherwise. */
  lemma ThreadLength(threadType: string)
    ensures |ThreadTemplate(threadType)| ==
      if threadType in ["holdex", "ignition", "asdforecast", "builder_story"] then 10 else 11
  {
    ThreadTable();
    ThreadTableLengths();
  }

  lemma ThreadTableLengths()
    ensures forall i :: 0 <= i < |ThreadTemplates| ==>
      |ThreadTemplates[i].1| == if ThreadTemplates[i].0 == "ecosystem" then 11 else 10
  {
  }

  /**
   * The shape every thread has: the first and the last tweet end with the
   * hashtag placeholder, the tweets between them have none.
   */
  predicate ThreadShaped(ts: seq<Template>) {
    |ts| >= 2 &&
    |ts[0]| == 2 && ts[0][1] == Hole(Hashtags) &&
    |ts[|ts| - 1]| == 2 && ts[|ts| - 1][1] == Hole(Hashtags) &&
    forall k :: 0 < k < |ts| - 1 ==> AllLiteral(ts[k])
  }

  lemma ThreadTableShaped()
    ensures forall i :: 0 <= i < |ThreadTemplates| ==> ThreadShaped(ThreadTemplates[i].1)
  {
  }

  /** The hashtag line closes the opening and the closing tweet. */
  lemma ThreadHashtagsAtEnds(threadType: string, hashtags: string)
    ensures |Thread(threadType, hashtags)| >= 2
    ensures Contains(Thread(threadType, hashtags)[0], hashtags)
    ensures Contains(Thread(threadType, hashtags)[|Thread(threadType, hashtags)| - 1], hashtags)
  {
    ShapedThreadEnds(ThreadTemplate(threadType), hashtags);
  }

  /** The tweets between the first and the last are returned as written. */
  lemma ThreadMiddleVerbatim(threadType: string, hashtags: string)
    ensures forall k :: 0 < k < |Thread(threadType, hashtags)| - 1 ==>
      Thread(threadType, hashtags)[k] == Raw(ThreadTemplate(threadType)[k])
  {
    ShapedThreadMiddle(ThreadTemplate(threadType), hashtags);
  }

  /** The same for any list of tweets of that shape. */
  lemma ShapedThreadEnds(ts: seq<Template>, hashtags: string)
    requires ThreadShaped(ts)
    requires forall k :: 0 <= k < |ts| ==> HolesWithin(ts[k], {Hashtags})
    ensures |FormatAll(ts, hashtags)| >= 2
    ensures Contains(FormatAll(ts, hashtags)[0], hashtags)
    ensures Contains(FormatAll(ts, hashtags)[|ts| - 1], hashtags)
  {
    var env := map[Hashtags := hashtags];
    assert ts[0][1] == Hole(Hashtags);
    FillContainsValue(ts[0], env, Hashtags);
    assert ts[|ts| - 1][1] == Hole(Hashtags);
    FillContainsValue(ts[|ts| - 1], env, Hashtags);
  }

  lemma ShapedThreadMiddle(ts: seq<Template>, hashtags: string)
    requires ThreadShaped(ts)
    requires forall k :: 0 <= k < |ts| ==> HolesWithin(ts[k], {Hashtags})
    ensures forall k :: 0 < k < |ts| - 1 ==> FormatAll(ts, hashtags)[k] == Raw(ts[k])
  {
    forall k | 0 < k < |ts| - 1 ensures FormatTweet(ts[k], hashtags) == Raw(ts[k]) {
      FillWithoutHoles(ts[k], map[Hashtags := hashtags]);
    }
  }

  // ---------------------------------------------------------------------
  // Cult posts
  // ---------------------------------------------------------------------

  /** Hashtags with neither product nor topic: the two leading core tags. */
  function CoreHashtags(d: TagDraw): string {
    HashtagLine(None, None, 3, d)
  }

  /** The line holds exactly the two core tags, in the drawn order. */
  lemma CoreHashtagsLine(d: TagDraw)
    ensures CoreHashtags(d) == if d.coreSwapped then "#ASDF #ASDFASDFA" else "#ASDFASDFA #ASDF"
  {
    var c := CoreSample(d);
    assert ProductPart(None, d) == [] && TopicPart(None, d) == [];
    assert Candidates(None, None, d) == c;
    DedupPair(c[0], c[1]);
    assert [c[0], c[1]] == c;
    assert Take(c, 3) == c;
    assert Join(c[1..], " ") == c[1];
    assert Join(c, " ") == c[0] + " " + c[1];
    assert CoreTags[0] == "#ASDFASDFA" && CoreTags[1] == "#ASDF";
  }

  /** Every cult template is its text followed by the hashtag placeholder. */
  lemma CultShape()
    ensures forall i :: 0 <= i < |CultTemplates| ==>
      HolesWithin(CultTemplates[i], {Hashtags}) && |CultTemplates[i]| == 2 &&
      CultTemplates[i][1] == Hole(Hashtags)
  {
  }

  /** `generate_cult_post()`: the drawn cult template with the core hashtags. */
  function CultPost(hashtags: string, pick: nat): (r: string)
    ensures exists i :: 0 <= i < |CultTemplates| && r == Fill(CultTemplates[i], map[Hashtags := hashtags])
    ensures Contains(r, hashtags)
  {
    var i := pick % |CultTemplates|;
    var env := map[Hashtags := hashtags];
    CultShape();
    FillContainsSegment(CultTemplates[i], env, 1);
    Fill(CultTemplates[i], env)
  }

  /** Every cult template can be drawn, whatever the hashtag draw. */
  lemma CultPostReachable(hashtags: string, i: nat)
    requires i < |CultTemplates|
    ensures CultPost(hashtags, i) == Fill(CultTemplates[i], map[Hashtags := hashtags])
  {
    assert i % |CultTemplates| == i;
  }

  // ---------------------------------------------------------------------
  // FUD responses
  // ---------------------------------------------------------------------

  /** The FUD types, in the table's order. */
  const FudTypes: seq<string> :=
    ["scam", "dead_chart", "no_users", "how_money", "just_memecoin",
     "why_not_dexscreener", "copy", "universal", "nuclear"]

  /** How many responses each FUD type has, in the table's order. */
  const FudSizes: seq<nat> := [3, 4, 3, 3, 3, 2, 2, 4, 3]

  lemma FudTable()
    ensures |FudResponses| == |FudTypes|
    ensures forall i :: 0 <= i < |FudResponses| ==> FudResponses[i].0 == FudTypes[i]
    ensures DistinctKeys(FudResponses)
  {
  }

  lemma FudTableSizes()
    ensures |FudResponses| == |FudSizes|
    ensures forall i :: 0 <= i < |FudResponses| ==> |FudResponses[i].1| == FudSizes[i] > 0
  {
  }

  /** The responses for a FUD type; an unknown type gets the "universal" ones. */
  function FudPool(fudType: string): (pool: seq<string>)
    ensures |pool| > 0
    ensures var key := if HasKey(FudResponses, fudType) then fudType else "universal";
      exists i :: 0 <= i < |FudResponses| && FudResponses[i] == (key, pool)
  {
    FudTable();
    assert FudResponses[7].0 == "universal";
    FudResponses[IndexOr(FudResponses, fudType, "universal")].1
  }

  /** `generate_fud_response(fud_type)`: the drawn response of that type. */
  function GenerateFudResponse(fudType: string, pick: nat): (r: string)
    ensures r in FudPool(fudType)
  {
    Pick(FudPool(fudType), pick)
  }

  /** Every response of a type can be drawn. */
  lemma FudResponseReachable(fudType: string, r: string)
    requires r in FudPool(fudType)
    ensures exists pick: nat :: GenerateFudResponse(fudType, pick) == r
  {
    var pool := FudPool(fudType);
    PickReachable(pool, r);
    var k: nat :| Pick(pool, k) == r;
    assert GenerateFudResponse(fudType, k) == r;
  }

  /** Each listed type answers from its own list. */
  lemma FudPoolOfEachType()
    ensures forall i :: 0 <= i < |FudResponses| ==> FudPool(FudResponses[i].0) == FudResponses[i].1
  {
    FudTable();
    forall i | 0 <= i < |FudResponses|
      ensures FudPool(FudResponses[i].0) == FudResponses[i].1
    {
      IndexOfOwnKey(FudResponses, i);
    }
  }

  /** An unknown FUD type answers from the "universal" list. */
  lemma UnknownFudIsUniversal(fudType: string)
    requires !HasKey(FudResponses, fudType)
    ensures FudPool(fudType) == FudPool("universal")
  {
    FudPoolOfEachType();
    FudTable();
    assert FudResponses[7].0 == "universal";
  }

  /** Three "scam" answers. */
  lemma ScamPoolSize()
    ensures |FudPool("scam")| == 3
  {
    FudTable();
    IndexOfOwnKey(FudResponses, 0);
  }

  /** Four "universal" answers. */
  lemma UniversalPoolSize()
    ensures |FudPool("universal")| == 4
  {
    FudTable();
    IndexOfOwnKey(FudResponses, 7);
  }

  /** Twenty-seven answers in all. */
  lemma FudResponseCount()
    ensures TotalSize(FudResponses) == 27
  {
    FudTableSizes();
    var t := FudResponses;
    assert t[..0] == [];
    TotalSizeStep(t, 1);
    TotalSizeStep(t, 2);
    TotalSizeStep(t, 3);
    TotalSizeStep(t, 4);
    TotalSizeStep(t, 5);
    TotalSizeStep(t, 6);
    TotalSizeStep(t, 7);
    TotalSizeStep(t, 8);
    TotalSizeStep(t, 9);
    assert t[..9] == t;
  }

  // ---------------------------------------------------------------------
  // Engagement replies
  // ---------------------------------------------------------------------

  lemma ReplyTable()
    ensures |ReplyTemplates| == 9
    ensures ReplyTemplates[2].0 == "ecosystem"
    ensures DistinctKeys(ReplyTemplates)
  {
  }

  /** `generate_reply(reply_type)`: the literal reply for that key, the "ecosystem" reply otherwise. */
  function GenerateReply(replyType: string): (r: string)
    ensures var key := if HasKey(ReplyTemplates, replyType) then replyType else "ecosystem";
      exists i :: 0 <= i < |ReplyTemplates| && ReplyTemplates[i] == (key, r)
  {
    ReplyTable();
    ReplyTemplates[IndexOr(ReplyTemplates, replyType, "ecosystem")].1
  }

  /** Each listed key gets its own reply. */
  lemma ReplyOfEachKey()
    ensures forall i :: 0 <= i < |ReplyTemplates| ==> GenerateReply(ReplyTemplates[i].0) == ReplyTemplates[i].1
  {
    ReplyTable();
    forall i | 0 <= i < |ReplyTemplates|
      ensures GenerateReply(ReplyTemplates[i].0) == ReplyTemplates[i].1
    {
      IndexOfOwnKey(ReplyTemplates, i);
    }
  }

  /** An unknown key gets the "ecosystem" reply. */
  lemma UnknownReplyIsEcosystem(replyType: string)
    requires !HasKey(ReplyTemplates, replyType)
    ensures GenerateReply(replyType) == GenerateReply("ecosystem")
  {
    ReplyOfEachKey();
    ReplyTable();
  }

  // ---------------------------------------------------------------------
  // Milestone announcement
  // ---------------------------------------------------------------------

  /** The placeholders of the milestone template and where they sit. */
  lemma MilestoneShape()
    ensures HolesWithin(MilestoneTemplate, {WeekNum, HoldexStat, IgnitionStat, ForecastStat, BurnStat, Hashtags})
    ensures |MilestoneTemplate| == 12
    ensures MilestoneTemplate[0] == Lit("week ") && MilestoneTemplate[1] == Hole(WeekNum)
    ensures MilestoneTemplate[2].Lit? && MilestoneTemplate[2].text[..7] == " stats:"
    ensures MilestoneTemplate[3] == Hole(HoldexStat) && MilestoneTemplate[5] == Hole(IgnitionStat)
    ensures MilestoneTemplate[7] == Hole(ForecastStat) && MilestoneTemplate[9] == Hole(BurnStat)
    ensures MilestoneTemplate[11] == Hole(Hashtags)
  {
  }

  /** The values `generate_milestone` passes to the template. */
  function MilestoneEnv(weekNum: int, stats: Stats, hashtags: string): map<Field, string> {
    map[WeekNum := IntToString(weekNum),
        HoldexStat := stats.holdexListings,
        IgnitionStat := stats.ignitionAirdrops,
        ForecastStat := stats.forecastStatus,
        BurnStat := stats.burnStatus,
        Hashtags := hashtags]
  }

  /**
   * `generate_milestone(week_num)`: "week {n} stats:" then the four status
   * strings of the stats table, verbatim, and the core hashtags.
   */
  function MilestonePost(weekNum: int, stats: Stats, hashtags: string): (r: string)
    ensures Contains(r, "week " + IntToString(weekNum) + " stats:")
    ensures Contains(r, stats.holdexListings) && Contains(r, stats.ignitionAirdrops)
    ensures Contains(r, stats.forecastStatus) && Contains(r, stats.burnStatus)
    ensures Contains(r, hashtags)
  {
    var env := MilestoneEnv(weekNum, stats, hashtags);
    MilestoneShape();
    MilestoneWeekLine(env);
    FillContainsSegment(MilestoneTemplate, env, 3);
    FillContainsSegment(MilestoneTemplate, env, 5);
    FillContainsSegment(MilestoneTemplate, env, 7);
    FillContainsSegment(MilestoneTemplate, env, 9);
    FillContainsSegment(MilestoneTemplate, env, 11);
    Fill(MilestoneTemplate, env)
  }

  /** The first three segments render as "week {n} stats:" and more. */
  lemma MilestoneWeekLine(env: map<Field, string>)
    requires Fits(MilestoneTemplate, env)
    ensures WeekNum in env
    ensures Contains(Fill(MilestoneTemplate, env), "week " + env[WeekNum] + " stats:")
  {
    MilestoneShape();
    var m := MilestoneTemplate;
    FillContainsLitHoleLit(m, env, 0);
    var whole := m[0].text + env[WeekNum] + m[2].text;
    var line := "week " + env[WeekNum] + " stats:";
    ContainsPrefix(whole, |line|);
    assert whole[..|line|] == line;
    ContainsTransitive(Fill(m, env), whole, line);
  }

  /** With the current stats, the milestone post states each status verbatim. */
  lemma CurrentMilestone(weekNum: nat, hashtags: string)
    ensures var r := MilestonePost(weekNum, CurrentStats, hashtags);
      Contains(r, "week " + NatToString(weekNum) + " stats:") &&
      Contains(r, "processing listings") && Contains(r, "airdrops distributed") &&
      Contains(r, "predictions running") && Contains(r, "continuing every 5 min")
  {
  }
}
