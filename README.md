# ASDF X post generator — a Dafny model

The repository is the post generator behind the ASDF Discord bot. It keeps
its templates, product records, hashtag pools, weekly schedule and stats in
constant tables. From these it composes hashtag lines, raids, threads, cult
posts, FUD answers, engagement replies and milestone announcements. It turns
the weekly schedule into a plan of posts and exports the plan, the FUD
answers and the replies as copy-paste text framed by delimiter lines. The bot
splits such text into Discord-sized chunks and wraps a post in a code block.

The model is split into modules, one per file:

- `basics.dfy` (`Basics`): `Option`/`Result`, and tables. A Python dict is
  kept as a sequence of key/value pairs in insertion order, with first-match
  lookup.
- `strings.dfy` (`Strings`): containment, join and split, ASCII case
  mapping, decimal rendering, concatenation of line blocks, counting.
- `format.dfy` (`Format`): templates as lists of literal and placeholder
  segments, and named-placeholder substitution (`str.format` with keyword
  arguments).
- `config.dfy` (`Config`): the configuration tables as constants.
- `hashtags.dfy` (`Hashtags`): `get_hashtags`. It is a method that builds
  the tag list step by step, proved against a specification function.
- `generator.dfy` (`Generator`): the raid, thread, cult, FUD, reply and
  milestone generators. The thread loop is a method.
- `weekly.dfy` (`Weekly`): `_generate_scheduled_post` and
  `generate_weekly_posts`. The two nested loops are methods.
- `export.dfy` (`Export`): the three exporters. Each is a method that
  appends lines, proved against a function giving the exported lines.
- `bot.dfy` (`Bot`): `split_message` (a loop) and `format_post_for_discord`.

Every random choice is an argument:

- `random.sample` of the two leading core tags is a `coreSwapped` flag.
- Each `random.choice` is a natural number reduced modulo the pool size, so
  every element can be drawn.
- A weekly plan takes a function from (day position, slot position) to the
  draws of that slot.

## Model

| member | source | states |
|---|---|---|
| Basics.Lookup | generator.py:45 | A hit exactly when the key is in the table, and the hit is a pair of the table |
| Basics.LookupOr | config.py:129-132 | `dict.get(key, default)`: the default for a missing key, else a value stored under that key |
| Basics.LookupFirst | config.py:50-95 | With no earlier entry under the same key, lookup finds entry `i`'s own value |
| Hashtags.Pick | config.py:128 | `random.choice`: the drawn tag is a member of the pool |
| Hashtags.PickReachable | config.py:128 | Every member of a pool can be drawn |
| Hashtags.CoreSample | config.py:122 | The sample holds two different tags, and they are exactly the first two core tags |
| Hashtags.ProductPart | config.py:125-128 | A product tag is added iff the product key is in PRODUCTS with a non-empty tag list, and it comes from that product's tags |
| Hashtags.TopicPart | config.py:131-132 | A topic tag is added iff the topic is a known topic, and it comes from that topic's pool |
| Hashtags.DedupSpec | config.py:135 | `dict.fromkeys` dedup: no duplicates, the same members, no longer, first-occurrence order kept |
| Hashtags.DedupPrefix | config.py:135 | Dedup of a prefix is a prefix of the dedup |
| Hashtags.Take | config.py:135 | Truncation to `count` (Python slice, negative counts too) yields a prefix |
| Hashtags.GetHashtags | config.py:117-137 | The loop-built line is the specified hashtag line |
| Hashtags.HashtagCount | config.py:121-135 | Two to four distinct candidates; the result has `min(count, n)` tags, and Python slice semantics for a negative count |
| Hashtags.HashtagsDistinctOrderedFromPools | config.py:121-135 | No duplicate tags; tags keep candidate order (core, product, topic); each tag comes from the core pair, the product's tags or the topic's pool |
| Hashtags.CoreTagsPresent | config.py:117-137 | With `count >= 2` both "#ASDFASDFA" and "#ASDF" are in the result |
| Hashtags.HashtagsComplete | config.py:121-135 | With `count >= 4` nothing is cut: the result has exactly the candidates' members |
| Hashtags.TagsHaveNoSpace | config.py:50-115 | No tag in the core, product or topic pools contains a space |
| Hashtags.HashtagLineSplits | config.py:137 | Splitting the joined line on " " gives back the tag list |
| Strings.SplitJoin | config.py:137 | Splitting a join on its separator recovers the parts when no part holds it |
| Format.FillContainsValue | generator.py:68-75 | A filled template contains the value of each placeholder it has |
| Format.FillWithoutHoles | generator.py:160-163 | A template without placeholders is returned as written |
| Generator.ResolveProduct | generator.py:45-47 | `products.get(key)`, with the holdex product when the key is missing |
| Generator.Str | generator.py:69-75 | A missing product field is printed as Python's `str(None)`, "None" |
| Generator.ImagineRaid | generator.py:66-75 | The raid opens with "Imagine" and contains competitor, competitor price, price, URL and hashtags verbatim |
| Generator.WhatDoYouThinkRaid | generator.py:77-91 | Fails with KeyError exactly for an unknown product; otherwise it is the text with the problem/solution defaults ("extractive fees", "burn fees instead") |
| Generator.WhatDoYouThinkPost | generator.py:85-91 | The text contains problem, product name, solution, URL and hashtags |
| Generator.FuckXTarget | generator.py:98-101 | An unknown product gets the target triple ("extractors", "taking your money", "$20. burned.") |
| Generator.FuckXRaid | generator.py:93-111 | Fails with KeyError exactly for an unknown product; otherwise the text uses the lower-cased product name |
| Generator.FuckXPost | generator.py:104-111 | The text contains target, complaint, value proposition, name, URL and hashtags |
| Generator.ComparisonRaid | generator.py:113-123 | The raid contains competitor, competitor price, lower-cased name, price, URL and hashtags |
| Generator.ProvocationRaid | generator.py:125-138 | Fails with KeyError exactly for an unknown product; otherwise the text uses the action default "extracting fees" |
| Generator.ProvocationPost | generator.py:131-138 | The text contains competitor, action, lower-cased name, price, URL and hashtags |
| Generator.ViralRaid | generator.py:140-143 | The post is one of the viral templates filled with the hashtags, and contains them |
| Generator.RaidFor | generator.py:51-64 | Dispatch on the style: "imagine" and "comparison" give that raid of the resolved product, "viral" the picked viral post, and the three direct-index styles their raid; fails exactly for those three with an unknown product; any success contains the hashtags |
| Generator.GenerateRaid | generator.py:43-64 | `generate_raid` as written: each named style gives its own builder's raid for the resolved product and the raid hashtags; fails exactly for what_do_you_think/fuck_x/provocation with an unknown product; success contains the raid hashtags |
| Generator.UnknownStyleIsComparison | generator.py:63-64 | An unrecognised style name gives exactly the comparison raid |
| Generator.UnknownProductAsWritten | generator.py:45-47 | Unknown product: imagine and comparison fall back to holdex; the other three fail with KeyError |
| Generator.InvalidProductFuckX | generator.py:93-97 | `generate_raid("fuck_x", "invalid_product")` fails, while the comparison raid for that key, the one tests/test_generator.py:132-135 calls, succeeds |
| Generator.GenerateRaidResolved | generator.py:43-64 | Resolving the key first: equals `generate_raid` for known products, the holdex raid otherwise, and always contains the hashtags |
| Generator.FallbackKey | generator.py:45-47 | The resolved key is always in PRODUCTS and names the same product record |
| Generator.HoldexRaids | generator.py:45-47 | The holdex imagine and comparison raids are those of the holdex record |
| Generator.HoldexImagineQuotes | tests/test_generator.py:27-31 | The holdex imagine raid contains "Imagine" and quotes "DexScreener", "$300", "$20" and "alonisthe.dev/holdex" |
| Generator.HoldexComparisonQuotes | tests/test_generator.py:20-25 | The holdex comparison raid quotes the same figures and "holdex" |
| Generator.ImagineShape | config.py:145-160 | The imagine template's placeholders and where they sit |
| Generator.WhatDoYouThinkShape | config.py:162-182 | The what-do-you-think template's placeholders and where they sit |
| Generator.FuckXShape | config.py:184-198 | The fuck_x template's placeholders and where they sit |
| Generator.ComparisonShape | config.py:200-210 | The comparison template's placeholders and where they sit |
| Generator.ProvocationShape | config.py:212-228 | The provocation template's placeholders and where they sit |
| Generator.ViralShape | config.py:635-668 | Every viral template is text followed by the hashtag placeholder |
| Generator.ThreadTable | config.py:232-298 | The thread types are exactly holdex, ignition, asdforecast, ecosystem and builder_story |
| Generator.ThreadTweetHoles | config.py:232-298 | The only placeholder of any tweet is the hashtag line |
| Generator.ThreadIndex | generator.py:151-152 | The thread of a known type, the "ecosystem" thread otherwise |
| Generator.ThreadTemplate | generator.py:155 | The chosen tweets have the hashtag line as their only placeholder and have the thread shape |
| Generator.TweetPlaceholder | generator.py:160-163 | The source's `"{hashtags}" in tweet` test matches the template: with it the hashtags are filled in, without it the tweet is unchanged |
| Generator.FormatAll | generator.py:158-163 | One formatted tweet per template, in order |
| Generator.Thread | generator.py:149-165 | As many tweets as the type's template list |
| Generator.FormatTweets | generator.py:158-163 | The loop's tweets are each template formatted, in order |
| Generator.GenerateThread | generator.py:149-165 | `generate_thread` is the specified thread for its hashtag draw |
| Generator.UnknownThreadIsEcosystem | generator.py:151-152 | An unknown thread type gives the ecosystem thread |
| Generator.ThreadLength | config.py:232-298 | Eleven tweets for ecosystem or an unknown type, ten for the others |
| Generator.ThreadTableLengths | config.py:232-298 | Eleven tweets for ecosystem, ten for each other thread |
| Generator.ThreadTableShaped | config.py:232-298 | First and last tweets end with the hashtag placeholder; the ones between have none |
| Generator.ThreadHashtagsAtEnds | generator.py:158-163 | The opening and the closing tweet contain the hashtags |
| Generator.ThreadMiddleVerbatim | generator.py:163-164 | The tweets between the first and the last are returned unchanged |
| Generator.ShapedThreadEnds | generator.py:158-163 | For any list of that shape, the first and last formatted tweets contain the hashtags |
| Generator.ShapedThreadMiddle | generator.py:163-164 | For any list of that shape, the middle tweets are returned unchanged |
| Generator.CoreHashtagsLine | generator.py:173 | The cult hashtag line is exactly the two core tags, in the drawn order |
| Generator.CultShape | config.py:301-363 | Every cult template is text followed by the hashtag placeholder |
| Generator.CultPost | generator.py:171-175 | The post is one of the cult templates filled with the hashtags, and contains them |
| Generator.CultPostReachable | generator.py:174 | Every cult template can be drawn |
| Generator.FudTable | config.py:366-521 | The table's keys are the FUD types, in order, and are distinct |
| Generator.FudTableSizes | config.py:366-521 | The number of responses of each type, all positive |
| Generator.FudPool | generator.py:183-186 | The list of the type when it is listed, the "universal" list otherwise |
| Generator.GenerateFudResponse | generator.py:181-187 | The answer is a member of that pool |
| Generator.FudResponseReachable | generator.py:187 | Every member of the pool can be drawn |
| Generator.FudPoolOfEachType | generator.py:186 | Each listed type answers from its own list |
| Generator.UnknownFudIsUniversal | generator.py:183-184 | An unknown type answers from the universal list |
| Generator.ScamPoolSize | config.py:367-385 | "scam" has exactly three answers |
| Generator.UniversalPoolSize | config.py:484-503 | "universal" has exactly four answers |
| Generator.FudResponseCount | config.py:366-521 | Twenty-seven answers in all |
| Generator.ReplyTable | config.py:524-590 | Nine reply keys, distinct, with "ecosystem" among them |
| Generator.GenerateReply | generator.py:197-201 | The literal entry for a listed key, the "ecosystem" entry otherwise |
| Generator.ReplyOfEachKey | generator.py:201 | Each listed key gets its own entry |
| Generator.UnknownReplyIsEcosystem | generator.py:199-200 | An unknown key gets the ecosystem reply |
| Generator.MilestoneShape | config.py:618-631 | The milestone template's placeholders and where they sit |
| Generator.MilestonePost | generator.py:211-222 | Contains "week {n} stats:", the four status strings verbatim, and the hashtags |
| Generator.MilestoneWeekLine | config.py:618 | The filled template contains "week {n} stats:" |
| Generator.CurrentMilestone | config.py:731-740 | With the current stats the post names each status string verbatim |
| Weekly.DayNameInjective | generator.py:233-234 | Different days get different capitalised names |
| Weekly.CapitalizeInjective | generator.py:234 | Capitalising keeps distinct upper-case words distinct |
| Weekly.MondayName | generator.py:234 | Monday's entry is "Monday" |
| Weekly.RaidKey | generator.py:268 | `product or "holdex"`: a missing or empty product means holdex |
| Weekly.ScheduledPost | generator.py:243-296 | A post exactly for thread, raid, cult and milestone slots, on that day, at that time. A thread joins its tweets with "\n\n---\n\n". A raid carries its product hashtags and equals the raid as written for known products. A cult post is the cult post for the core hashtags and the pick, and carries them. The milestone is the milestone post for the week, the current stats and the core hashtags, and names its week. |
| Weekly.ThreadSlotOutput | generator.py:255-265 | The thread branch builds exactly the specified post |
| Weekly.GenerateScheduledPost | generator.py:243-296 | The method's post is the specified one |
| Weekly.DayOutcomes | generator.py:236-240 | One outcome per slot |
| Weekly.Present | generator.py:239-240 | The `if post:` filter keeps at most as many entries |
| Weekly.PresentStep | generator.py:239-240 | The filter over one more outcome appends it when present |
| Weekly.HandledSlots | generator.py:255-296 | No more than the slots; a slot is kept exactly when it is one of the day's slots of a handled type |
| Weekly.DayOutcomesFollow | generator.py:237-240 | Each outcome is present iff its slot's type is handled, and matches the slot's day, time and type |
| Weekly.PresentFollows | generator.py:239-240 | The filter keeps one post per handled slot, in slot order |
| Weekly.DayPostsFollowSlots | generator.py:237-240 | A day's posts are its handled slots in order, with their day, time and type |
| Weekly.AllHandledKept | generator.py:255-296 | When every slot is handled, no slot is dropped |
| Weekly.GenerateDayPosts | generator.py:237-240 | The inner loop yields the day's specified posts |
| Weekly.WeeklyPosts | generator.py:228-241 | One entry per schedule day, in schedule order: entry i is day i's capitalised name with that day's posts |
| Weekly.WeekKeysDistinct | generator.py:233-235 | With distinct days, the day names are distinct keys and each finds its own posts |
| Weekly.GenerateWeeklyPosts | generator.py:228-241 | The outer loop yields the specified week |
| Weekly.SlotCountStep | config.py:674-725 | Counting slots one day at a time |
| Weekly.SameSizes | generator.py:236-240 | Per-day lists as long as the days' slot lists add up to the slot count |
| Weekly.WeekPostCount | generator.py:228-241 | When every slot is handled, the week has one post per slot |
| Weekly.CurrentSlotCount | config.py:674-725 | The configured schedule has fifteen slots |
| Weekly.CurrentScheduleWellFormed | config.py:674-725 | Seven distinct days, fifteen slots, every one of a handled type |
| Weekly.CurrentWeek | generator.py:228-241 | The configured week has fifteen posts under seven distinct day names |
| Weekly.CurrentRaidProductsKnown | config.py:674-725 | Every configured raid resolves to a product in PRODUCTS |
| Weekly.CurrentRaidsAsWritten | generator.py:267-268 | In the configured week the resolved raid equals `generate_raid` as written: no slot reaches the KeyError |
| Export.Repeat | generator.py:306 | `"=" * 80` and `"-" * 40`: a string of `n` copies of the character |
| Export.FramedInText | generator.py:339 | Three consecutive lines of a block in the output appear joined by newlines in the text |
| Export.LineInText | generator.py:339 | Every line of a block in the output appears in the text |
| Export.PostBlocks | generator.py:317-337 | One block per post |
| Export.DayBlocks | generator.py:311-337 | One block per day |
| Export.TweetBlocks | generator.py:327-331 | One block per tweet |
| Export.PostOutput | generator.py:317-337 | The lines appended for one post are the specified ones |
| Export.DayOutput | generator.py:311-337 | The lines appended for one day are the specified ones |
| Export.WeekOutput | generator.py:304-339 | The whole output list is the specified one |
| Export.ExportWeeklyPosts | generator.py:302-339 | The text is the newline-join of the specified lines for the generated week |
| Export.WeekNamed | tests/test_generator.py:76-80 | The export contains "WEEK {n}" |
| Export.PostInWeek | generator.py:317-337 | Every post's lines appear, in one piece, in the week's lines |
| Export.PostLinesShape | generator.py:318-337 | A post's lines: its label line, then either "[START]", the content, "[END]", or one block per tweet |
| Export.WeekContentFramed | generator.py:319-337 | The label line and "[START]\ncontent\n[END]" of every non-thread post are in the text |
| Export.WeekTweetFramed | generator.py:327-331 | Thread part j of m is framed "[TWEET j/m - START]" … "[END]" in the text |
| Export.PostEndCount | generator.py:327-337 | Without marker lines in the content, a post has one "[END]" per tweet, or one |
| Export.DayEndCount | generator.py:311-337 | A day's "[END]" lines are the sum over its posts |
| Export.WeekEndCount | generator.py:302-339 | The week's "[END]" lines are the sum over posts of tweet count or 1 |
| Export.BannerEnds | generator.py:305-309 | The banner has no "[END]" line |
| Export.Count4 | generator.py:305-309 | Counting in a four-line block |
| Export.ResponseBlocks | generator.py:355-359 | One block per response |
| Export.FudBlocks | generator.py:350-359 | One block per FUD type |
| Export.FudTypeOutput | generator.py:350-359 | The lines appended for one FUD type are the specified ones |
| Export.FudOutput | generator.py:343-362 | The output list is the specified one |
| Export.ExportFudResponses | generator.py:341-362 | The text is the newline-join of the specified lines |
| Export.FudNamed | tests/test_generator.py:82-86 | The export contains "ASDF - FUD RESPONSES", hence "FUD" |
| Export.FudResponseFramed | generator.py:351-359 | Each type's heading and each response framed "[RESPONSE j - START]" … "[END]" are in the text |
| Export.FudTypeEndCount | generator.py:355-359 | One "[END]" per response of the type |
| Export.SumOfSizes | generator.py:350-359 | The per-type counts add up to the table's total |
| Export.FudEndCount | generator.py:341-362 | One "[END]" line per FUD response |
| Export.FudBlocksLength | generator.py:350-359 | Four heading lines per type and four lines per response |
| Export.FudExportSize | generator.py:341-362 | The FUD export has 149 lines |
| Export.FudExportEnds | generator.py:341-362 | The FUD export has 27 "[END]" lines |
| Export.ReplyBlocks | generator.py:373-381 | One block per reply key |
| Export.ReplyOutput | generator.py:366-383 | The output list is the specified one |
| Export.ExportReplyTemplates | generator.py:364-383 | The text is the newline-join of the specified lines |
| Export.ReplyNamed | tests/test_generator.py:88-92 | The export contains "ASDF - REPLY TEMPLATES", hence "REPLY" |
| Export.ReplyFramed | generator.py:373-381 | Each key's heading and "[START]\ntemplate\n[END]" are in the text |
| Export.ReplyBlockCount | generator.py:373-381 | One "[START]" and one "[END]" per reply block |
| Export.ReplyMarkerCount | generator.py:364-383 | One "[START]"/"[END]" pair per reply key |
| Export.ReplyLinesLength | generator.py:364-383 | Five banner lines plus eight per key |
| Export.ReplyExportSize | generator.py:364-383 | The reply export has 77 lines |
| Export.ReplyExportMarkers | generator.py:364-383 | Nine "[START]" and nine "[END]" lines |
| Bot.Chunks | bot.py:56-57 | A message within the limit is returned as the single chunk |
| Bot.SplitMessage | bot.py:54-74 | The loop's chunks are the specified ones |
| Bot.AddLinesChunksNonEmpty | bot.py:65 | Only non-empty chunks are closed |
| Bot.ChunksNonEmpty | bot.py:60-74 | On the long path no chunk is empty |
| Bot.AddLinesSizes | bot.py:64-69 | Every chunk fits the limit or is a single input line |
| Bot.ChunksFitOrAreLines | bot.py:64-69 | Every chunk fits the limit, or is one overlong line on its own |
| Bot.ChunksFit | bot.py:64-69 | When every line fits, every chunk fits |
| Bot.NonBlank | bot.py:60-69 | The non-blank lines are no more than the lines |
| Bot.NonBlankAppend | bot.py:60-69 | The non-blank lines of a concatenation concatenate |
| Bot.NonBlankSnoc | bot.py:60-69 | Appending a line appends it to the non-blank lines unless it is blank |
| Bot.AddLineToEmpty | bot.py:67 | A line landing in an empty chunk becomes that chunk |
| Bot.AddLineCloses | bot.py:64-67 | A line that overflows closes the chunk and starts the next |
| Bot.AddLineJoins | bot.py:68-69 | A line that fits joins the chunk after a newline |
| Bot.AddLineKeeps | bot.py:63-69 | One step keeps every non-blank line, in order |
| Bot.AddLinesKeep | bot.py:63-69 | The loop keeps every non-blank line, in order |
| Bot.ChunksKeepText | bot.py:54-74 | The chunks' non-blank lines are the message's non-blank lines, in order |
| Bot.TitleHeader | bot.py:79-80 | No header for a missing or empty title, else "**", the title, then "**\n\n" |
| Bot.FormatPostForDiscord | bot.py:76-84 | The header, then "```\n", the content verbatim, then "\n```" |

## Left out

- Discord I/O: slash commands, embeds, sending, pacing, the daily reminder, environment loading and `main`. These are calls into the Discord SDK.
- Probability distributions. Every random pick is an argument. The model says which values can come out and that every one can, not how likely each is.
- General `str.format`. Only named placeholders over segmented templates are modelled.
- Thread tweets keep their opening line only. The tweet count and where the hashtag placeholder sits are those of the configuration.
- The long marketing texts are otherwise kept, with mis-encoded characters as escapes.
- The `quick_*` wrappers and the command-line block of the generator.
- `get_all_fud_responses` and `get_all_replies`. They return copies of the tables.
- The unused "style" labels of the raid templates, the unused "products" list of the imagine template, the `product_launch`/`update` announcements, and the `HASHTAGS` "products" and "cashtags" lists. Nothing in the modelled code reads them.
- Case mapping is ASCII only. The upper-cased texts (day names, post types, export headings) are ASCII.
- Dict semantics for WEEKLY_SCHEDULE: the schedule is a sequence of days. `DistinctDays` states the distinct-keys property a dict has, and `Weekly.CurrentScheduleWellFormed` proves it for the configured table.
- Weekly.WeeklyPosts: the draws are a function of the day's and the slot's position. Only Monday's capitalised name is computed concretely (`Weekly.MondayName`); the others are covered by `Weekly.DayNameInjective`.
- Weekly.ScheduledPost: a raid slot goes through `Generator.GenerateRaidResolved`, so a slot naming an unknown product gets the HolDEX raid of its style. The code as written calls `generate_raid`, which raises KeyError for what_do_you_think, fuck_x and provocation with an unknown product, and the error escapes `generate_weekly_posts` and `export_weekly_posts`. `Weekly.CurrentRaidsAsWritten` proves that no slot of the configured schedule reaches that error.
- Weekly.GenerateScheduledPost: follows `Weekly.ScheduledPost`, with the same substitution for unknown raid products.
- Export.WeekEndCount: requires that no post content or tweet is itself the line "[END]", and that no day name upper-cases to it. A content of exactly "[END]" would add a line that the source also counts. It counts entries of the output list, not lines of the joined text: a multi-line content holding an inner "[END]" line is not counted.
- Export.FudEndCount: requires that no response is the line "[END]"; `Export.FudExportEnds` discharges this for the configured table. Like `Export.WeekEndCount` it counts entries of the output list, not lines of the joined text.
- Export.ReplyMarkerCount: requires that no reply is the line "[START]" or "[END]"; `Export.ReplyExportMarkers` discharges this for the configured table. It counts entries of the output list, not lines of the joined text.
- Bot.ChunksKeepText: states that the non-blank lines are kept in order. It does not separately state that each chunk is the join of a contiguous run of lines.
- Missing product fields follow the code: `str.format` prints Python's `str(None)`, "None" (`Generator.Str`). The raids do not require the fields to be present.
- Export.WeekNamed and the other export lemmas are stated for any week. Only the FUD and reply exports are also counted concretely for the configured tables.

## Findings

| source | as written | input that shows it | evidently intended | confidence | as-written member | corrected member |
|---|---|---|---|---|---|---|
| generator.py:77-138 | `_generate_what_do_you_think`, `_generate_fuck_x` and `_generate_provocation` index `self.products[product_key]` directly, so an unknown product raises KeyError, although `generate_raid` resolves a fallback product at generator.py:45-47 | `generate_raid("fuck_x", "invalid_product")` | every style falls back to the holdex product, as the fallback at generator.py:45-47 and the "defaults gracefully" docstring of tests/test_generator.py:132-135 indicate; that test itself calls only the comparison style | not executed | Generator.GenerateRaid, Generator.UnknownProductAsWritten, Generator.InvalidProductFuckX | Generator.GenerateRaidResolved |
