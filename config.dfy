/**
 * The static configuration of the generator: products, hashtag pools,
 * every template table, the weekly schedule and the current stats.
 * Template texts keep the source's characters exactly, including the
 * mis-decoded arrows and emoji (written as \U escapes).
 */
module Config {
  import opened Basics
  import opened Format

  datatype PostType = Raid | Thread | Reply | Announcement | Cult | FudResponse | Milestone

  /** `PostType.value` */
  function PostTypeValue(t: PostType): string {
    match t
    case Raid => "raid"
    case Thread => "thread"
    case Reply => "reply"
    case Announcement => "announcement"
    case Cult => "cult"
    case FudResponse => "fud_response"
    case Milestone => "milestone"
  }

  datatype DayOfWeek = Monday | Tuesday | Wednesday | Thursday | Friday | Saturday | Sunday

  /** `DayOfWeek.name` */
  function DayEnumName(d: DayOfWeek): string {
    match d
    case Monday => "MONDAY"
    case Tuesday => "TUESDAY"
    case Wednesday => "WEDNESDAY"
    case Thursday => "THURSDAY"
    case Friday => "FRIDAY"
    case Saturday => "SATURDAY"
    case Sunday => "SUNDAY"
  }

  /** A product; the fields the source leaves at `None` are `Option`s. */
  datatype Product = Product(
    name: string,
    description: string,
    url: string,
    price: Option<string>,
    competitor: Option<string>,
    competitorPrice: Option<string>,
    uniqueFeature: Option<string>,
    tags: seq<string>)

  const Holdex := Product(
    "HolDEX", "DexScreener alternative with $20 listings", "alonisthe.dev/holdex",
    Some("$20"), Some("DexScreener"), Some("$300"), Some("K-Score (holder conviction metric)"),
    ["#HolDEX", "#DexScreener", "#DEX"])

  const Products: Table<Product> := [
    ("holdex", Holdex),
    ("ignition", Product(
      "Ignition", "Launchpad where fees go to holders", "alonisthe.dev/ignition",
      Some("0.02 SOL"), Some("Traditional launchpads"), Some("Creator keeps fees"), Some("Fees airdrop to top holders"),
      ["#Ignition", "#PumpFun", "#Launchpad", "#Airdrop"])),
    ("asdforecast", Product(
      "ASDForecast", "Prediction market for SOL price", "alonisthe.dev/asdforecast",
      Some("Fees burned"), Some("Polymarket"), Some("House wins"), Some("15-minute SOL/USD prediction frames"),
      ["#ASDForecast", "#PredictionMarket"])),
    ("burn_engine", Product(
      "ASDF Burn Engine", "Auto buyback and burn every 5 minutes", "github.com/zeyxx/asdf-burn-engine",
      None, None, None, Some("Automated on-chain burns"),
      ["#TokenBurn", "#Deflationary"])),
    ("burn_tracker", Product(
      "ASDF Burn Tracker", "Verify all burns on-chain", "github.com/sollama58/ASDFBurnTracker",
      None, None, None, Some("Transparent burn verification"),
      ["#TokenBurn", "#Transparency"]))
  ]

  // Hashtag pools. Product tags come from `Product.tags`.
  const CoreTags: seq<string> := ["#ASDFASDFA",
    "#ASDF",
    "#Solana",
    "#SOL"]
  const TopicTags: Table<seq<string>> := [
    ("dexscreener", ["#DexScreener",
    "#DEX"]),
    ("launchpad", ["#PumpFun",
    "#Launchpad",
    "#Airdrop"]),
    ("prediction", ["#PredictionMarket",
    "#Polymarket"]),
    ("memecoin", ["#Memecoin",
    "#Memecoins",
    "#MemeSeason"]),
    ("building", ["#BuildInPublic",
    "#OpenSource",
    "#Web3Dev"]),
    ("burns", ["#TokenBurn",
    "#Deflationary",
    "#Tokenomics"]),
    ("trading", ["#CryptoTwitter",
    "#CT",
    "#Alpha"]),
    ("solana", ["#SolanaSummer",
    "#SolanaEcosystem"])]

  // Raid templates, with the per-product tables they consult.
  // The "style" labels and the "products" list of "imagine" are never read and are not kept.
  const ImagineTemplate: Template :=
    [Lit("Imagine continuing to pay "),
     Hole(Competitor),
     Lit(" "),
     Hole(CompetitorPrice),
     Lit(" when a "),
     Hole(Price),
     Lit(" solution exists.\n"),
     Hole(Url),
     Lit("\n\n"
         + "Imagine being able to reward your own holders with $PUMP airdrops through Ignition.\n"
         + "alonisthe.dev/ignition\n\n"
         + "Imagine being able to bet on Solana price going up/down in the next 15 minutes.\n"
         + "alonisthe.dev/asdforecast\n\n"
         + "Few.\n\n"),
     Hole(Hashtags)]

  const WhatDoYouThinkTemplate: Template :=
    [Lit("what do you think about "),
     Hole(Problem),
     Lit("???\n\nLet\'s stop this.\n"),
     Hole(ProductName),
     Lit(" lets you "),
     Hole(Solution),
     Lit("\n\n"),
     Hole(Url),
     Lit("\n\n"),
     Hole(Hashtags)]

  const WhatDoYouThinkProblems: Table<string> := [
    ("holdex", "paying $300 just to add an image and social links"),
    ("ignition", "creator fees going straight to devs who dump on you"),
    ("asdforecast", "prediction markets where the house always wins")]

  const WhatDoYouThinkSolutions: Table<string> := [
    ("holdex", "do exactly what that DEX offers for just $20"),
    ("ignition", "airdrop fees to holders instead"),
    ("asdforecast", "burn every fee instead of extracting")]

  /** The (target, complaint, value_prop) triple of a "fuck_x" raid. */
  datatype RaidTarget = RaidTarget(target: string, complaint: string, valueProp: string)

  const FuckXTemplate: Template :=
    [Lit("fuck "),
     Hole(Target),
     Lit(" and their "),
     Hole(Complaint),
     Lit("\n\n"),
     Hole(ProductName),
     Lit(" exists. "),
     Hole(ValueProp),
     Lit("\n\n"),
     Hole(Url),
     Lit("\n\n"),
     Hole(Hashtags)]

  const FuckXTargets: Table<RaidTarget> := [
    ("holdex", RaidTarget("dexscreener", "$300 to update jpegs and $1000 to put lightning bolt emojis", "$20. burned.")),
    ("ignition", RaidTarget("launchpads that reward dumpers", "creator fees going to devs who dump", "fees go to holders.")),
    ("asdforecast", RaidTarget("prediction markets where the house wins", "extracting fees from users", "fees burn."))]

  const ComparisonTemplate: Template :=
    [Hole(Competitor),
     Lit(": "),
     Hole(CompetitorPrice),
     Lit(" \U{E2}\U{2020}\U{2019} their pocket\n"),
     Hole(ProductLower),
     Lit(": "),
     Hole(Price),
     Lit(" \U{E2}\U{2020}\U{2019} burned\n\n"
         + "same service. opposite model.\n\n"),
     Hole(Url),
     Lit("\n\n"),
     Hole(Hashtags)]

  const ProvocationTemplate: Template :=
    [Hole(Competitor),
     Lit(" made millions "),
     Hole(Action),
     Lit(".\nwe made "),
     Hole(ProductLower),
     Lit(".\n"),
     Hole(Price),
     Lit(". burned.\n\ncope.\n\n"),
     Hole(Url),
     Lit("\n\n"),
     Hole(Hashtags)]

  const ProvocationActions: Table<string> := [
    ("holdex", "moving jpegs"),
    ("ignition", "from creator fees"),
    ("asdforecast", "from prediction fees")]

  // Thread templates: one list of tweets per thread type, in posting order.
  // Each tweet keeps its opening line only; the number of tweets and where the
  // hashtag placeholder sits are those of the configuration.
  const HoldexThread: seq<Template> := [
    [Lit("dexscreener made $50M+ charging $300 to update token pages.\n"),
     Hole(Hashtags)],
    [Lit("the problem:\n")],
    [Lit("think about it:\n")],
    [Lit("so we built HolDEX.\n")],
    [Lit("what you get:\n")],
    [Lit("the K-Score is unique to HolDEX.\n")],
    [Lit("where do the fees go?\n")],
    [Lit("the math:\n")],
    [Lit("fully open source.\n")],
    [Lit("extractive infra had its run.\n"),
     Hole(Hashtags)]]

  const IgnitionThread: seq<Template> := [
    [Lit("launchpads have a problem:\n"),
     Hole(Hashtags)],
    [Lit("the current launchpad model:\n")],
    [Lit("the incentives are broken.\n")],
    [Lit("Ignition flips the model.\n")],
    [Lit("how it works:\n")],
    [Lit("now the incentives align:\n")],
    [Lit("the dev allocation problem:\n")],
    [Lit("traditional launchpad:\n")],
    [Lit("Ignition is live.\n")],
    [Lit("tired of holding bags while creators dump?\n"),
     Hole(Hashtags)]]

  const AsdforecastThread: seq<Template> := [
    [Lit("prediction markets made billions.\n"),
     Hole(Hashtags)],
    [Lit("prediction market economics:\n")],
    [Lit("polymarket did $1B+ in volume.\n")],
    [Lit("ASDForecast is different.\n")],
    [Lit("how it works:\n")],
    [Lit("features:\n")],
    [Lit("why burn fees instead of extract?\n")],
    [Lit("perfect for degens:\n")],
    [Lit("fully transparent.\n")],
    [Lit("prediction markets don\'t need to extract.\n"),
     Hole(Hashtags)]]

  const EcosystemThread: seq<Template> := [
    [Lit("no VC funding.\n"),
     Hole(Hashtags)],
    [Lit("crypto was supposed to remove middlemen.\n")],
    [Lit("$ASDFASDFA started as a memecoin.\n")],
    [Lit("product 1: HolDEX\n")],
    [Lit("product 2: Ignition\n")],
    [Lit("product 3: ASDForecast\n")],
    [Lit("product 4 & 5: burn infrastructure\n")],
    [Lit("the model:\n")],
    [Lit("why we build:\n")],
    [Lit("the numbers:\n")],
    [Lit("in a world where everyone PvPs on serial dev tokens, our cult builds.\n"),
     Hole(Hashtags)]]

  const BuilderStoryThread: seq<Template> := [
    [Lit("4 devs.\n"),
     Hole(Hashtags)],
    [Lit("it started with a question:\n")],
    [Lit("HolDEX launched.\n")],
    [Lit("then we looked at launchpads.\n")],
    [Lit("then prediction markets.\n")],
    [Lit("the pattern:\n")],
    [Lit("we never raised.\n")],
    [Lit("$ASDFASDFA holders aren\'t waiting for pumps.\n")],
    [Lit("what\'s next?\n")],
    [Lit("the trenches deserve better infra.\n"),
     Hole(Hashtags)]]

  const ThreadTemplates: Table<seq<Template>> := [
    ("holdex", HoldexThread),
    ("ignition", IgnitionThread),
    ("asdforecast", AsdforecastThread),
    ("ecosystem", EcosystemThread),
    ("builder_story", BuilderStoryThread)]


  // Cult posts, meme ("viral") posts and the milestone announcement.
  const CultTemplates: seq<Template> := [
    [Lit("$ASDFASDFA is a cult like none other.\n\n"
         + "It\'s no lie the chart looks choppy.\n"
         + "But we are not a chart. We are a cult.\n\n"
         + "Cults build. Cults hold.\n"
         + "Products ship regardless of price.\n\n"
         + "This is Fine \U{F0}\U{178}\U{201D}\U{A5}\n\n"),
     Hole(Hashtags)],
    [Lit("Extractors made millions this cycle.\n"
         + "Dexscreener. Launchpads. Prediction markets.\n\n"
         + "We\'re building the alternatives.\n"
         + "Open source. Fees burned. No extraction.\n\n"
         + "The cult builds. The cult holds.\n"
         + "This is Fine \U{F0}\U{178}\U{201D}\U{A5}\n\n"),
     Hole(Hashtags)],
    [Lit("crypto was supposed to remove middlemen.\n"
         + "then we built new ones.\n\n"
         + "dexscreener. launchpads. prediction platforms.\n"
         + "all extract.\n\n"
         + "we\'re building the alternatives.\n"
         + "open source. fees burned. no extraction.\n\n"
         + "alonisthe.dev\n\n"),
     Hole(Hashtags)],
    [Lit("everyone asks \"when pump?\"\n"
         + "nobody asks \"what are we building?\"\n\n"
         + "HolDEX replaces $300 listings with $20.\n"
         + "Ignition rewards holders, not dumpers.\n"
         + "ASDForecast burns fees instead of extracting.\n\n"
         + "We\'re not waiting for a pump. We\'re building the infra.\n\n"
         + "This is Fine \U{F0}\U{178}\U{201D}\U{A5}\n\n"),
     Hole(Hashtags)],
    [Lit("In a world where everyone PvP on tokens created by serial developers, our cult innovates and builds to make things happen.\n\n"
         + "holdex. ignition. asdforecast.\n\n"
         + "See you in six months.\n\n"),
     Hole(Hashtags)],
    [Lit("no funding is a feature.\nno one to satisfy but users.\n\n"),
     Hole(Hashtags)]]

  const ViralTemplates: seq<Template> := [
    [Lit("them: fud\n"
         + "us: ship\n\n"
         + "them: $300\n"
         + "us: $20\n\n"
         + "them: extract\n"
         + "us: burn\n\n"
         + "we are not the same.\n\n"
         + "alonisthe.dev\n\n"),
     Hole(Hashtags)],
    [Lit("fud: free\n"
         + "building: mass time\n"
         + "products shipped: 5\n"
         + "fucks given: 0\n\n"
         + "alonisthe.dev\n\n"),
     Hole(Hashtags)],
    [Lit("you: typing fud\n"
         + "us: shipping products\n\n"
         + "see you at the top anon.\n\n"
         + "this is fine \U{F0}\U{178}\U{201D}\U{A5}\n\n"),
     Hole(Hashtags)]]

  const MilestoneTemplate: Template :=
    [Lit("week "),
     Hole(WeekNum),
     Lit(" stats:\n\n\U{E2}\U{2020}\U{2019} holdex: "),
     Hole(HoldexStat),
     Lit("\n\U{E2}\U{2020}\U{2019} ignition: "),
     Hole(IgnitionStat),
     Lit("\n\U{E2}\U{2020}\U{2019} asdforecast: "),
     Hole(ForecastStat),
     Lit("\n\U{E2}\U{2020}\U{2019} burns: "),
     Hole(BurnStat),
     Lit("\n\n"
         + "no VC. no hype. just shipping.\n\n"
         + "alonisthe.dev\n\n"
         + "this is fine \U{F0}\U{178}\U{201D}\U{A5}\n\n"),
     Hole(Hashtags)]

  // Canned FUD rebuttals and engagement replies: literal texts, never formatted.
  const ScamAnswers: seq<string> := ["\U{E2}\U{2020}\U{2019} 5 products live\n"
                                     + "\U{E2}\U{2020}\U{2019} all open source\n"
                                     + "\U{E2}\U{2020}\U{2019} fees burned on-chain\n"
                                     + "\U{E2}\U{2020}\U{2019} verifiable anytime\n\n"
                                     + "but sure, \"scam\"\n\n"
                                     + "github.com/sollama58",
      "scams extract.\nwe burn.\n\ncheck the burn tracker yourself.",
      "our code is open source.\n"
      + "our burns are on-chain.\n"
      + "our products are live.\n\n"
      + "what else do you need anon?"]

  const DeadChartAnswers: seq<string> := ["charts pump and dump.\n"
                                          + "products stay.\n\n"
                                          + "holdex. ignition. asdforecast.\n"
                                          + "still live. still building.",
      "we\'re not here for the chart.\n"
      + "we\'re here to replace extractive infra.\n\n"
      + "the chart will follow the build.",
      "you trade charts.\nwe build infra.\n\nsee you at the top.",
      "It\'s no lie the chart looks choppy.\n"
      + "But we are not a chart. We are a cult.\n\n"
      + "Cults build. Cults hold.\n"
      + "Products ship regardless of price.\n\n"
      + "This is Fine \U{F0}\U{178}\U{201D}\U{A5}"]

  const NoUsersAnswers: seq<string> := ["everyone tired of paying $300 for a page update.\n\n"
                                        + "you\'ll use it too. eventually.\n\n"
                                        + "alonisthe.dev/holdex",
      "not yet mass adopted.\n"
      + "but neither was dexscreener at first.\n\n"
      + "difference: we don\'t extract $300.",
      "early.\n\nremind me in 6 months."]

  const HowMoneyAnswers: seq<string> := ["we don\'t. fees burn.\n\nthat\'s the point.",
      "\"but how do you make money\"\n\n"
      + "we hold $asdf.\n"
      + "every fee burns $asdf.\n"
      + "supply goes down.\n\n"
      + "you do the math.",
      "we\'re not here to make money.\n"
      + "we\'re here to make extractors irrelevant."]

  const JustMemecoinAnswers: seq<string> := ["\"just a memecoin\" with:\n"
                                             + "\U{E2}\U{2020}\U{2019} live dex alternative\n"
                                             + "\U{E2}\U{2020}\U{2019} live launchpad\n"
                                             + "\U{E2}\U{2020}\U{2019} live prediction market\n"
                                             + "\U{E2}\U{2020}\U{2019} open source everything\n\n"
                                             + "what does your \"real project\" have?",
      "memecoin with more shipped products than most VC-backed projects.\n\n"
      + "but go off.",
      "memecoins with no utility \U{E2}\U{2020}\U{2019} gambling\n"
      + "memecoins with utility \U{E2}\U{2020}\U{2019} asdf\n\n"
      + "we\'re not the same."]

  const WhyNotDexscreenerAnswers: seq<string> := ["$300 vs $20.\n"
                                                  + "extraction vs burn.\n"
                                                  + "closed vs open source.\n\n"
                                                  + "any other questions?\n\n"
                                                  + "alonisthe.dev/holdex",
      "same features.\n"
      + "$280 cheaper.\n"
      + "fees burned instead of extracted.\n\n"
      + "why wouldn\'t you?"]

  const CopyAnswers: seq<string> := ["yes. we copied the function.\n"
                                     + "no. we didn\'t copy the extraction.\n\n"
                                     + "$20 burned > $300 extracted.",
      "open source alternatives aren\'t \"copies.\"\n"
      + "they\'re improvements.\n\n"
      + "linux copied unix. firefox copied netscape.\n"
      + "holdex improves on dexscreener."]

  const UniversalAnswers: seq<string> := ["cool fud.\n\n"
                                          + "anyway, have you seen holdex? $20 vs dexscreener\'s $300.\n\n"
                                          + "alonisthe.dev/holdex",
      "noted.\n\n"
      + "meanwhile we shipped holdex, ignition, asdforecast.\n"
      + "what did you ship?",
      "you\'re fudding.\nwe\'re shipping.\n\nwe are not the same.",
      "interesting take.\n\n"
      + "we\'re too busy building to argue.\n\n"
      + "alonisthe.dev"]

  const NuclearAnswers: seq<string> := ["5 products.\n"
                                        + "0 VC.\n"
                                        + "0 dumps.\n"
                                        + "100% open source.\n"
                                        + "all fees burned.\n\n"
                                        + "fud harder.",
      "you\'ll use our infra eventually.\n"
      + "you just don\'t know it yet.\n\n"
      + "alonisthe.dev",
      "the trenches need better infra.\n"
      + "we\'re building it.\n"
      + "you\'re welcome in advance."]

  const FudResponses: Table<seq<string>> := [
    ("scam", ScamAnswers),
    ("dead_chart", DeadChartAnswers),
    ("no_users", NoUsersAnswers),
    ("how_money", HowMoneyAnswers),
    ("just_memecoin", JustMemecoinAnswers),
    ("why_not_dexscreener", WhyNotDexscreenerAnswers),
    ("copy", CopyAnswers),
    ("universal", UniversalAnswers),
    ("nuclear", NuclearAnswers)
  ]

  const DiscoveryHoldexReply := "Yooo, have you seen HolDEX?\n\n"
                                + "No more paying $300 for Dexscreener. Now it\'s like $20 for updates, and you can even see the K-Score, which represents holder conviction, directly on HolDEX.\n\n"
                                + "alonisthe.dev/holdex"

  const DiscoveryIgnitionReply := "Have you tried Ignition yet?\n\n"
                                  + "Launch on Pump.fun, but fees go to your holders instead of you dumping on them. Aligned incentives.\n\n"
                                  + "alonisthe.dev/ignition"

  const EcosystemReply := "The ASDF ecosystem, a cult created to build and to reward holders.\n\n"
                          + "\U{E2}\U{2020}\U{2019} Ignition: alonisthe.dev/ignition\n"
                          + "\U{E2}\U{2020}\U{2019} HolDEX: alonisthe.dev/holdex\n"
                          + "\U{E2}\U{2020}\U{2019} ASDForecast: alonisthe.dev/asdforecast\n\n"
                          + "Our system is built on belief, and in our own way, we\'re trying to move things forward and change the game.\n\n"
                          + "Join us. \U{F0}\U{178}\U{2019}\U{160}"

  const ChallengeHoldexReply := "try holdex.\n"
                                + "if you still prefer paying $300 after, I\'ll shut up.\n\n"
                                + "alonisthe.dev/holdex"

  const ChallengeIgnitionReply := "use ignition once.\n"
                                  + "watch your holders get airdrops.\n"
                                  + "then tell me launchpads shouldn\'t change.\n\n"
                                  + "alonisthe.dev/ignition"

  const HighFeesReply := "this is why we built holdex.\n\n"
                         + "$20 instead of $300.\n"
                         + "fees burned, not extracted.\n\n"
                         + "alonisthe.dev/holdex"

  const LaunchpadDumpReply := "exactly why ignition exists.\n\n"
                              + "fees go to holders, not creators.\n"
                              + "can\'t dump what you don\'t hold.\n\n"
                              + "alonisthe.dev/ignition"

  const SolanaProjectsReply := "check out the ASDF ecosystem:\n\n"
                               + "\U{E2}\U{2020}\U{2019} HolDEX: dexscreener alternative, $20\n"
                               + "\U{E2}\U{2020}\U{2019} Ignition: launchpad that rewards holders\n"
                               + "\U{E2}\U{2020}\U{2019} ASDForecast: prediction market, fees burn\n\n"
                               + "all live. all open source.\n\n"
                               + "alonisthe.dev"

  const BuildingReply := "respect the build.\n\n"
                         + "we shipped 5 products with 0 funding.\n"
                         + "holdex. ignition. asdforecast. burn engine. validator.\n\n"
                         + "all open source.\n\n"
                         + "alonisthe.dev"

  const ReplyTemplates: Table<string> := [
    ("discovery_holdex", DiscoveryHoldexReply),
    ("discovery_ignition", DiscoveryIgnitionReply),
    ("ecosystem", EcosystemReply),
    ("challenge_holdex", ChallengeHoldexReply),
    ("challenge_ignition", ChallengeIgnitionReply),
    ("high_fees", HighFeesReply),
    ("launchpad_dump", LaunchpadDumpReply),
    ("solana_projects", SolanaProjectsReply),
    ("building", BuildingReply)
  ]

  datatype Slot = Slot(time: string, postType: PostType, template: Option<string>, product: Option<string>)

  datatype DaySchedule = DaySchedule(day: DayOfWeek, theme: string, posts: seq<Slot>)

  /** Days in declaration order; slots in declaration order within a day. */
  const WeeklySchedule: seq<DaySchedule> := [
    DaySchedule(Monday, "Education", [
      Slot("16:00", Thread, Some("holdex"), None),
      Slot("21:00", Raid, Some("what_do_you_think"), Some("holdex"))]),
    DaySchedule(Tuesday, "Raid Day", [
      Slot("10:00", Raid, Some("imagine"), Some("holdex")),
      Slot("16:00", Raid, Some("comparison"), Some("holdex")),
      Slot("20:00", Raid, Some("what_do_you_think"), Some("ignition"))]),
    DaySchedule(Wednesday, "Engagement", [
      Slot("17:00", Raid, Some("fuck_x"), Some("holdex"))]),
    DaySchedule(Thursday, "Narrative", [
      Slot("16:00", Thread, Some("ecosystem"), None),
      Slot("22:00", Cult, None, None)]),
    DaySchedule(Friday, "Degen", [
      Slot("17:00", Raid, Some("fuck_x"), Some("ignition")),
      Slot("20:00", Raid, Some("viral"), None),
      Slot("23:00", Raid, Some("what_do_you_think"), Some("asdforecast"))]),
    DaySchedule(Saturday, "Social Proof", [
      Slot("18:00", Milestone, Some("milestone"), None),
      Slot("20:00", Cult, None, None)]),
    DaySchedule(Sunday, "Cult", [
      Slot("15:00", Cult, None, None),
      Slot("18:00", Cult, None, None)])
  ]

  /** The stats table a milestone post reads; operators edit it between runs. */
  datatype Stats = Stats(
    productsLive: int,
    vcFunding: int,
    supplyBurnedPercent: string,
    devs: int,
    holdexListings: string,
    ignitionAirdrops: string,
    forecastStatus: string,
    burnStatus: string)

  const CurrentStats := Stats(5, 0, "7%+", 4, "processing listings", "airdrops distributed",
                              "predictions running", "continuing every 5 min")
}
