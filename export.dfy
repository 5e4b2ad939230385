/**
 * The three exporters of the post generator: the week's posts, every FUD
 * response and every reply template, each written as a list of lines under
 * a banner and joined with newlines, ready to copy and paste.  Each
 * exporter is a method that appends line blocks in loops, proved equal to a
 * function that lists the lines; the lemmas then say where each text ends
 * up in the joined output.
 */
module Export {
  import opened Basics
  import opened Strings
  import opened Config
  import Generator
  import Weekly

  /** `c * n` for a one-character string `c`. */
  function Repeat(c: char, n: nat): (r: string)
    ensures |r| == n
    ensures forall i :: 0 <= i < n ==> r[i] == c
  {
    seq(n, _ => c)
  }

  const Rule80 := Repeat('=', 80)
  const Rule40 := Repeat('-', 40)

  /** The banner every export starts with. */
  function Banner(title: string): seq<string> {
    [Rule80, title, "Ready to Copy-Paste", Rule80, ""]
  }

  /** `key.upper().replace('_', ' ')`, as section headings show a dictionary key. */
  function Heading(key: string): string {
    ReplaceChar(Upper(key), '_', ' ')
  }

  /** A text between an opening and a closing line, as the exports write it. */
  function Framed(first: string, text: string, last: string): string {
    first + "\n" + text + "\n" + last
  }

  /** Three consecutive lines of a block, joined by newlines, appear in the joined text. */
  lemma FramedInText(lines: seq<string>, block: seq<string>, i: nat)
    requires Contains(lines, block)
    requires i + 3 <= |block|
    ensures Contains(Join(lines, "\n"), Framed(block[i], block[i + 1], block[i + 2]))
  {
    var run := block[i..i + 3];
    ContainsSlice(lines, block, i, i + 3);
    JoinContainsRun(lines, run, "\n");
    assert run[1..][1..] == [block[i + 2]];
    assert Join(run[1..], "\n") == block[i + 1] + "\n" + block[i + 2];
    assert Join(run, "\n") == block[i] + "\n" + (block[i + 1] + "\n" + block[i + 2]);
    assert block[i] + "\n" + (block[i + 1] + "\n" + block[i + 2])
        == block[i] + "\n" + block[i + 1] + "\n" + block[i + 2];
  }

  /** Each line of a block appears in the joined text. */
  lemma LineInText(lines: seq<string>, block: seq<string>, i: nat)
    requires Contains(lines, block)
    requires i < |block|
    ensures Contains(Join(lines, "\n"), block[i])
  {
    ContainsSlice(lines, block, i, i + 1);
    JoinContainsRun(lines, block[i..i + 1], "\n");
  }

  /** 1 when the line is `x`, else 0. */
  function Is(line: string, x: string): nat {
    if line == x then 1 else 0
  }

  lemma Count4(a: string, b: string, c: string, d: string, x: string)
    ensures Count([a, b, c, d], x) == Is(a, x) + Is(b, x) + Is(c, x) + Is(d, x)
  {
    assert [a][..0] == [];
    assert Count([a], x) == Is(a, x);
    assert [a, b][..1] == [a];
    assert Count([a, b], x) == Count([a], x) + Is(b, x);
    assert [a, b, c][..2] == [a, b];
    assert Count([a, b, c], x) == Count([a, b], x) + Is(c, x);
    assert [a, b, c, d][..3] == [a, b, c];
  }

  /** No banner line is the `[END]` marker. */
  lemma BannerEnds(title: string)
    requires title != "[END]"
    ensures Count(Banner(title), "[END]") == 0
  {
    Count4(Rule80, title, "Ready to Copy-Paste", Rule80, "[END]");
    assert Banner(title) == [Rule80, title, "Ready to Copy-Paste", Rule80] + [""];
    CountAppend([Rule80, title, "Ready to Copy-Paste", Rule80], [""], "[END]");
    assert [""][..0] == [];
  }

  // ---------------------------------------------------------------------
  // export_weekly_posts
  // ---------------------------------------------------------------------

  /** `POST {i} - {TYPE} ({time})`, with ` - THREAD` after a thread's label. */
  function PostLabel(i: nat, post: Weekly.GeneratedPost): string {
    "POST " + NatToString(i) + " - " + Upper(PostTypeValue(post.postType)) + " (" + post.time + ")"
      + (if post.isThread then " - THREAD" else "")
  }

  /** The lines of the `j`-th of `m` tweets. */
  function TweetBlock(j: nat, m: nat, tweet: string): seq<string> {
    ["[TWEET " + NatToString(j) + "/" + NatToString(m) + " - START]", tweet, "[END]", ""]
  }

  function TweetBlocks(tweets: seq<string>): (r: seq<seq<string>>)
    ensures |r| == |tweets|
  {
    seq(|tweets|, j requires 0 <= j < |tweets| => TweetBlock(j + 1, |tweets|, tweets[j]))
  }

  /** The post is shown tweet by tweet: a thread with a non-empty tweet list. */
  predicate ShownAsTweets(post: Weekly.GeneratedPost) {
    post.isThread && post.threadTweets.Some? && post.threadTweets.value != []
  }

  /** The text of a post: its tweets one by one, or else its content in one block. */
  function PostBody(post: Weekly.GeneratedPost): seq<string> {
    if ShownAsTweets(post) then Flatten(TweetBlocks(post.threadTweets.value))
    else ["[START]", post.content, "[END]", ""]
  }

  function PostLines(i: nat, post: Weekly.GeneratedPost): seq<string> {
    [Rule40, PostLabel(i, post), Rule40, ""] + PostBody(post)
  }

  function PostBlocks(posts: seq<Weekly.GeneratedPost>): (r: seq<seq<string>>)
    ensures |r| == |posts|
  {
    seq(|posts|, i requires 0 <= i < |posts| => PostLines(i + 1, posts[i]))
  }

  /** A day's section: its name in capitals, then its posts numbered from 1. */
  function DayLines(dayName: string, posts: seq<Weekly.GeneratedPost>): seq<string> {
    [Rule80, Upper(dayName), Rule80, ""] + Flatten(PostBlocks(posts))
  }

  function DayBlocks(week: Table<seq<Weekly.GeneratedPost>>): (r: seq<seq<string>>)
    ensures |r| == |week|
  {
    seq(|week|, d requires 0 <= d < |week| => DayLines(week[d].0, week[d].1))
  }

  function WeekTitle(weekNum: int): string {
    "ASDF ECOSYSTEM - WEEK " + IntToString(weekNum) + " POSTS"
  }

  /** The lines of the weekly export, for the week's posts by day. */
  function WeekLines(weekNum: int, week: Table<seq<Weekly.GeneratedPost>>): seq<string> {
    Banner(WeekTitle(weekNum)) + Flatten(DayBlocks(week))
  }

  method PostOutput(i: nat, post: Weekly.GeneratedPost) returns (lines: seq<string>)
    ensures lines == PostLines(i, post)
  {
    var postLabel := "POST " + NatToString(i) + " - " + Upper(PostTypeValue(post.postType)) + " (" + post.time + ")";
    if post.isThread {
      postLabel := postLabel + " - THREAD";
    }
    assert postLabel == PostLabel(i, post);
    var head := [Rule40, postLabel, Rule40, ""];
    lines := head;
    if post.isThread && post.threadTweets.Some? && post.threadTweets.value != [] {
      var tweets := post.threadTweets.value;
      ghost var blocks := TweetBlocks(tweets);
      for j := 0 to |tweets|
        invariant lines == head + Flatten(blocks[..j])
      {
        FlattenStep(head, blocks, j);
        lines := lines + ["[TWEET " + NatToString(j + 1) + "/" + NatToString(|tweets|) + " - START]",
                          tweets[j], "[END]", ""];
      }
      assert blocks[..|tweets|] == blocks;
    } else {
      lines := lines + ["[START]", post.content, "[END]", ""];
    }
  }

  method DayOutput(dayName: string, posts: seq<Weekly.GeneratedPost>) returns (lines: seq<string>)
    ensures lines == DayLines(dayName, posts)
  {
    var head := [Rule80, Upper(dayName), Rule80, ""];
    lines := head;
    ghost var blocks := PostBlocks(posts);
    for i := 0 to |posts|
      invariant lines == head + Flatten(blocks[..i])
    {
      var postLines := PostOutput(i + 1, posts[i]);
      FlattenStep(head, blocks, i);
      lines := lines + postLines;
    }
    assert blocks[..|posts|] == blocks;
  }

  method WeekOutput(weekNum: int, week: Table<seq<Weekly.GeneratedPost>>) returns (lines: seq<string>)
    ensures lines == WeekLines(weekNum, week)
  {
    var head := Banner(WeekTitle(weekNum));
    lines := head;
    ghost var blocks := DayBlocks(week);
    for d := 0 to |week|
      invariant lines == head + Flatten(blocks[..d])
    {
      var dayLines := DayOutput(week[d].0, week[d].1);
      FlattenStep(head, blocks, d);
      lines := lines + dayLines;
    }
    assert blocks[..|week|] == blocks;
  }

  /** `export_weekly_posts(week_num)`: the configured week's posts, exported. */
  method ExportWeeklyPosts(weekNum: int, draws: (nat, nat) -> Generator.Draw) returns (text: string)
    ensures text == Join(WeekLines(weekNum, Weekly.WeeklyPosts(WeeklySchedule, weekNum, draws)), "\n")
  {
    var posts := Weekly.GenerateWeeklyPosts(WeeklySchedule, weekNum, draws);
    var lines := WeekOutput(weekNum, posts);
    text := Join(lines, "\n");
  }

  /** The weekly export names its week: `WEEK {n}` appears in the text. */
  lemma WeekNamed(weekNum: int, week: Table<seq<Weekly.GeneratedPost>>)
    ensures Contains(Join(WeekLines(weekNum, week), "\n"), "WEEK " + IntToString(weekNum))
  {
    var mark := "WEEK " + IntToString(weekNum);
    ContainsSelf(mark);
    ContainsWithin("ASDF ECOSYSTEM - ", mark, " POSTS", mark);
    assert "ASDF ECOSYSTEM - " + mark + " POSTS" == WeekTitle(weekNum);
    var lines := WeekLines(weekNum, week);
    assert lines[1] == WeekTitle(weekNum);
    JoinContainsPart(lines, "\n", 1);
    ContainsTransitive(Join(lines, "\n"), WeekTitle(weekNum), mark);
  }

  /** The lines of the `i`-th post of day `d` appear in the weekly lines. */
  lemma PostInWeek(weekNum: int, week: Table<seq<Weekly.GeneratedPost>>, d: nat, i: nat)
    requires d < |week| && i < |week[d].1|
    ensures Contains(WeekLines(weekNum, week), PostLines(i + 1, week[d].1[i]))
  {
    var day := DayLines(week[d].0, week[d].1);
    FlattenAfterHead([Rule80, Upper(week[d].0), Rule80, ""], PostBlocks(week[d].1), i);
    FlattenAfterHead(Banner(WeekTitle(weekNum)), DayBlocks(week), d);
    ContainsTransitive(WeekLines(weekNum, week), day, PostLines(i + 1, week[d].1[i]));
  }

  /** Where a post's label and text sit among its lines. */
  lemma PostLinesShape(i: nat, post: Weekly.GeneratedPost)
    ensures |PostLines(i, post)| >= 4 && PostLines(i, post)[1] == PostLabel(i, post)
    ensures !ShownAsTweets(post) ==>
      |PostLines(i, post)| == 8 && PostLines(i, post)[4] == "[START]" &&
      PostLines(i, post)[5] == post.content && PostLines(i, post)[6] == "[END]"
    ensures ShownAsTweets(post) ==>
      PostLines(i, post) == [Rule40, PostLabel(i, post), Rule40, ""] + Flatten(TweetBlocks(post.threadTweets.value))
  {
  }

  /** Every post shown in one block appears between `[START]` and `[END]`, under its label. */
  lemma WeekContentFramed(weekNum: int, week: Table<seq<Weekly.GeneratedPost>>, d: nat, i: nat)
    requires d < |week| && i < |week[d].1|
    requires !ShownAsTweets(week[d].1[i])
    ensures Contains(Join(WeekLines(weekNum, week), "\n"), PostLabel(i + 1, week[d].1[i]))
    ensures Contains(Join(WeekLines(weekNum, week), "\n"), Framed("[START]", week[d].1[i].content, "[END]"))
  {
    var post := week[d].1[i];
    var lines := WeekLines(weekNum, week);
    var pl := PostLines(i + 1, post);
    PostInWeek(weekNum, week, d, i);
    PostLinesShape(i + 1, post);
    FramedInText(lines, pl, 4);
    LineInText(lines, pl, 1);
  }

  /** Every tweet of a thread appears, numbered `j/m`, between its start line and `[END]`. */
  lemma WeekTweetFramed(weekNum: int, week: Table<seq<Weekly.GeneratedPost>>, d: nat, i: nat, j: nat)
    requires d < |week| && i < |week[d].1|
    requires ShownAsTweets(week[d].1[i])
    requires j < |week[d].1[i].threadTweets.value|
    ensures var tweets := week[d].1[i].threadTweets.value;
      Contains(Join(WeekLines(weekNum, week), "\n"),
               Framed("[TWEET " + NatToString(j + 1) + "/" + NatToString(|tweets|) + " - START]", tweets[j], "[END]"))
  {
    var post := week[d].1[i];
    var tweets := post.threadTweets.value;
    var lines := WeekLines(weekNum, week);
    PostInWeek(weekNum, week, d, i);
    var block := TweetBlock(j + 1, |tweets|, tweets[j]);
    PostLinesShape(i + 1, post);
    FlattenAfterHead([Rule40, PostLabel(i + 1, post), Rule40, ""], TweetBlocks(tweets), j);
    ContainsTransitive(lines, PostLines(i + 1, post), block);
    FramedInText(lines, block, 0);
  }

  /** The `[END]` lines a post gets: one per tweet of a thread shown tweet by tweet, else one. */
  function PostEnds(post: Weekly.GeneratedPost): nat {
    if ShownAsTweets(post) then |post.threadTweets.value| else 1
  }

  function DayEnds(posts: seq<Weekly.GeneratedPost>): nat {
    Sum(seq(|posts|, i requires 0 <= i < |posts| => PostEnds(posts[i])))
  }

  function WeekEnds(week: Table<seq<Weekly.GeneratedPost>>): nat {
    Sum(seq(|week|, d requires 0 <= d < |week| => DayEnds(week[d].1)))
  }

  /** No text of the post is itself the `[END]` marker line. */
  predicate PostMarkerFree(post: Weekly.GeneratedPost) {
    post.content != "[END]" &&
    (post.threadTweets.Some? ==> forall j :: 0 <= j < |post.threadTweets.value| ==> post.threadTweets.value[j] != "[END]")
  }

  /** No day heading and no post text of the week is the `[END]` marker line. */
  predicate WeekMarkerFree(week: Table<seq<Weekly.GeneratedPost>>) {
    forall d :: 0 <= d < |week| ==>
      Upper(week[d].0) != "[END]" && forall i :: 0 <= i < |week[d].1| ==> PostMarkerFree(week[d].1[i])
  }

  lemma PostEndCount(i: nat, post: Weekly.GeneratedPost)
    requires PostMarkerFree(post)
    ensures Count(PostLines(i, post), "[END]") == PostEnds(post)
  {
    var head := [Rule40, PostLabel(i, post), Rule40, ""];
    assert PostLabel(i, post)[0] == 'P';
    Count4(Rule40, PostLabel(i, post), Rule40, "", "[END]");
    CountAppend(head, PostBody(post), "[END]");
    if ShownAsTweets(post) {
      var tweets := post.threadTweets.value;
      forall j | 0 <= j < |tweets| ensures Count(TweetBlocks(tweets)[j], "[END]") == 1 {
        var first := "[TWEET " + NatToString(j + 1) + "/" + NatToString(|tweets|) + " - START]";
        assert first[1] == 'T';
        Count4(first, tweets[j], "[END]", "", "[END]");
      }
      CountFlattenOnce(TweetBlocks(tweets), "[END]");
    } else {
      Count4("[START]", post.content, "[END]", "", "[END]");
    }
  }

  lemma DayEndCount(dayName: string, posts: seq<Weekly.GeneratedPost>)
    requires Upper(dayName) != "[END]"
    requires forall i :: 0 <= i < |posts| ==> PostMarkerFree(posts[i])
    ensures Count(DayLines(dayName, posts), "[END]") == DayEnds(posts)
  {
    Count4(Rule80, Upper(dayName), Rule80, "", "[END]");
    CountAppend([Rule80, Upper(dayName), Rule80, ""], Flatten(PostBlocks(posts)), "[END]");
    forall i | 0 <= i < |posts| ensures Count(PostBlocks(posts)[i], "[END]") == PostEnds(posts[i]) {
      PostEndCount(i + 1, posts[i]);
    }
    CountFlatten(PostBlocks(posts), "[END]", seq(|posts|, i requires 0 <= i < |posts| => PostEnds(posts[i])));
  }

  /**
   * The weekly export has one `[END]` line per tweet of each thread shown
   * tweet by tweet and one per other post, when no text of the week is
   * itself that marker line.
   */
  lemma WeekEndCount(weekNum: int, week: Table<seq<Weekly.GeneratedPost>>)
    requires WeekMarkerFree(week)
    ensures Count(WeekLines(weekNum, week), "[END]") == WeekEnds(week)
  {
    assert WeekTitle(weekNum)[0] == 'A';
    BannerEnds(WeekTitle(weekNum));
    CountAppend(Banner(WeekTitle(weekNum)), Flatten(DayBlocks(week)), "[END]");
    forall d | 0 <= d < |week| ensures Count(DayBlocks(week)[d], "[END]") == DayEnds(week[d].1) {
      DayEndCount(week[d].0, week[d].1);
    }
    CountFlatten(DayBlocks(week), "[END]", seq(|week|, d requires 0 <= d < |week| => DayEnds(week[d].1)));
  }

  // ---------------------------------------------------------------------
  // export_fud_responses
  // ---------------------------------------------------------------------

  function ResponseBlock(i: nat, response: string): seq<string> {
    ["[RESPONSE " + NatToString(i) + " - START]", response, "[END]", ""]
  }

  function ResponseBlocks(responses: seq<string>): (r: seq<seq<string>>)
    ensures |r| == |responses|
  {
    seq(|responses|, i requires 0 <= i < |responses| => ResponseBlock(i + 1, responses[i]))
  }

  /** One FUD type's section: its heading, then its responses numbered from 1. */
  function FudTypeLines(fudType: string, responses: seq<string>): seq<string> {
    [Rule40, "FUD TYPE: " + Heading(fudType), Rule40, ""] + Flatten(ResponseBlocks(responses))
  }

  function FudBlocks(t: Table<seq<string>>): (r: seq<seq<string>>)
    ensures |r| == |t|
  {
    seq(|t|, k requires 0 <= k < |t| => FudTypeLines(t[k].0, t[k].1))
  }

  /** The lines of the FUD export, for a table of responses by type. */
  function FudLines(t: Table<seq<string>>): seq<string> {
    Banner("ASDF - FUD RESPONSES") + Flatten(FudBlocks(t))
  }

  method FudTypeOutput(fudType: string, responses: seq<string>) returns (lines: seq<string>)
    ensures lines == FudTypeLines(fudType, responses)
  {
    var head := [Rule40, "FUD TYPE: " + ReplaceChar(Upper(fudType), '_', ' '), Rule40, ""];
    lines := head;
    ghost var blocks := ResponseBlocks(responses);
    for i := 0 to |responses|
      invariant lines == head + Flatten(blocks[..i])
    {
      FlattenStep(head, blocks, i);
      lines := lines + ["[RESPONSE " + NatToString(i + 1) + " - START]", responses[i], "[END]", ""];
    }
    assert blocks[..|responses|] == blocks;
  }

  method FudOutput(t: Table<seq<string>>) returns (lines: seq<string>)
    ensures lines == FudLines(t)
  {
    var head := Banner("ASDF - FUD RESPONSES");
    lines := head;
    ghost var blocks := FudBlocks(t);
    for k := 0 to |t|
      invariant lines == head + Flatten(blocks[..k])
    {
      var typeLines := FudTypeOutput(t[k].0, t[k].1);
      FlattenStep(head, blocks, k);
      lines := lines + typeLines;
    }
    assert blocks[..|t|] == blocks;
  }

  /** `export_fud_responses()`: every configured response, by type. */
  method ExportFudResponses() returns (text: string)
    ensures text == Join(FudLines(FudResponses), "\n")
  {
    var lines := FudOutput(FudResponses);
    text := Join(lines, "\n");
  }

  /** The FUD export has its banner title, so `FUD` appears in it. */
  lemma FudNamed(t: Table<seq<string>>)
    ensures Contains(Join(FudLines(t), "\n"), "ASDF - FUD RESPONSES")
    ensures Contains(Join(FudLines(t), "\n"), "FUD")
  {
    var lines := FudLines(t);
    assert lines[1] == "ASDF - FUD RESPONSES";
    JoinContainsPart(lines, "\n", 1);
    ContainsAt("ASDF - FUD RESPONSES", "FUD", 7);
    ContainsTransitive(Join(lines, "\n"), "ASDF - FUD RESPONSES", "FUD");
  }

  /** Every response appears, numbered within its type, between its start line and `[END]`. */
  lemma FudResponseFramed(t: Table<seq<string>>, k: nat, j: nat)
    requires k < |t| && j < |t[k].1|
    ensures Contains(Join(FudLines(t), "\n"), "FUD TYPE: " + Heading(t[k].0))
    ensures Contains(Join(FudLines(t), "\n"), Framed("[RESPONSE " + NatToString(j + 1) + " - START]", t[k].1[j], "[END]"))
  {
    var lines := FudLines(t);
    var section := FudTypeLines(t[k].0, t[k].1);
    FlattenAfterHead(Banner("ASDF - FUD RESPONSES"), FudBlocks(t), k);
    var block := ResponseBlock(j + 1, t[k].1[j]);
    FlattenAfterHead([Rule40, "FUD TYPE: " + Heading(t[k].0), Rule40, ""], ResponseBlocks(t[k].1), j);
    ContainsTransitive(lines, section, block);
    FramedInText(lines, block, 0);
    LineInText(lines, section, 1);
  }

  /** No response of the table is itself the `[END]` marker line. */
  predicate FudMarkerFree(t: Table<seq<string>>) {
    forall k, j :: 0 <= k < |t| && 0 <= j < |t[k].1| ==> t[k].1[j] != "[END]"
  }

  lemma FudTypeEndCount(fudType: string, responses: seq<string>)
    requires forall j :: 0 <= j < |responses| ==> responses[j] != "[END]"
    ensures Count(FudTypeLines(fudType, responses), "[END]") == |responses|
  {
    var heading := "FUD TYPE: " + Heading(fudType);
    assert heading[0] == 'F';
    Count4(Rule40, heading, Rule40, "", "[END]");
    CountAppend([Rule40, heading, Rule40, ""], Flatten(ResponseBlocks(responses)), "[END]");
    forall j | 0 <= j < |responses| ensures Count(ResponseBlocks(responses)[j], "[END]") == 1 {
      var first := "[RESPONSE " + NatToString(j + 1) + " - START]";
      assert first[1] == 'R';
      Count4(first, responses[j], "[END]", "", "[END]");
    }
    CountFlattenOnce(ResponseBlocks(responses), "[END]");
  }

  lemma {:induction false} SumOfSizes(t: Table<seq<string>>)
    ensures Sum(seq(|t|, k requires 0 <= k < |t| => |t[k].1|)) == TotalSize(t)
  {
    if t != [] {
      var n := |t| - 1;
      SumOfSizes(t[..n]);
      var sizes := seq(|t|, k requires 0 <= k < |t| => |t[k].1|);
      assert sizes[..n] == seq(n, k requires 0 <= k < n => |t[..n][k].1|);
    }
  }

  /** The FUD export has one `[END]` line per response, when no response is itself that line. */
  lemma FudEndCount(t: Table<seq<string>>)
    requires FudMarkerFree(t)
    ensures Count(FudLines(t), "[END]") == TotalSize(t)
  {
    BannerEnds("ASDF - FUD RESPONSES");
    CountAppend(Banner("ASDF - FUD RESPONSES"), Flatten(FudBlocks(t)), "[END]");
    forall k | 0 <= k < |t| ensures Count(FudBlocks(t)[k], "[END]") == |t[k].1| {
      FudTypeEndCount(t[k].0, t[k].1);
    }
    CountFlatten(FudBlocks(t), "[END]", seq(|t|, k requires 0 <= k < |t| => |t[k].1|));
    SumOfSizes(t);
  }

  /** The FUD lines: five banner lines, four per type and four per response. */
  lemma {:induction false} FudBlocksLength(t: Table<seq<string>>)
    ensures |Flatten(FudBlocks(t))| == 4 * |t| + 4 * TotalSize(t)
  {
    if t != [] {
      var n := |t| - 1;
      var b := FudBlocks(t);
      assert b[..n] == FudBlocks(t[..n]);
      FudBlocksLength(t[..n]);
      FlattenUniform(ResponseBlocks(t[n].1), 4);
    }
  }

  /** The configured FUD export is 149 lines: 27 responses under 9 types. */
  lemma FudExportSize()
    ensures |FudLines(FudResponses)| == 149
  {
    FudBlocksLength(FudResponses);
    Generator.FudResponseCount();
    Generator.FudTable();
  }

  // ---------------------------------------------------------------------
  // export_reply_templates
  // ---------------------------------------------------------------------

  /** One reply type's section: its heading and its text between `[START]` and `[END]`. */
  function ReplyBlock(replyType: string, template: string): seq<string> {
    [Rule40, "REPLY TYPE: " + Heading(replyType), Rule40, "", "[START]", template, "[END]", ""]
  }

  function ReplyBlocks(t: Table<string>): (r: seq<seq<string>>)
    ensures |r| == |t|
  {
    seq(|t|, k requires 0 <= k < |t| => ReplyBlock(t[k].0, t[k].1))
  }

  /** The lines of the reply export, for a table of reply texts by type. */
  function ReplyLines(t: Table<string>): seq<string> {
    Banner("ASDF - REPLY TEMPLATES") + Flatten(ReplyBlocks(t))
  }

  method ReplyOutput(t: Table<string>) returns (lines: seq<string>)
    ensures lines == ReplyLines(t)
  {
    var head := Banner("ASDF - REPLY TEMPLATES");
    lines := head;
    ghost var blocks := ReplyBlocks(t);
    for k := 0 to |t|
      invariant lines == head + Flatten(blocks[..k])
    {
      FlattenStep(head, blocks, k);
      lines := lines + [Rule40, "REPLY TYPE: " + ReplaceChar(Upper(t[k].0), '_', ' '), Rule40, "",
                        "[START]", t[k].1, "[END]", ""];
    }
    assert blocks[..|t|] == blocks;
  }

  /** `export_reply_templates()`: every configured reply text, by type. */
  method ExportReplyTemplates() returns (text: string)
    ensures text == Join(ReplyLines(ReplyTemplates), "\n")
  {
    var lines := ReplyOutput(ReplyTemplates);
    text := Join(lines, "\n");
  }

  /** The reply export has its banner title, so `REPLY` appears in it. */
  lemma ReplyNamed(t: Table<string>)
    ensures Contains(Join(ReplyLines(t), "\n"), "ASDF - REPLY TEMPLATES")
    ensures Contains(Join(ReplyLines(t), "\n"), "REPLY")
  {
    var lines := ReplyLines(t);
    assert lines[1] == "ASDF - REPLY TEMPLATES";
    JoinContainsPart(lines, "\n", 1);
    ContainsAt("ASDF - REPLY TEMPLATES", "REPLY", 7);
    ContainsTransitive(Join(lines, "\n"), "ASDF - REPLY TEMPLATES", "REPLY");
  }

  /** Every reply text appears under its heading, between `[START]` and `[END]`. */
  lemma ReplyFramed(t: Table<string>, k: nat)
    requires k < |t|
    ensures Contains(Join(ReplyLines(t), "\n"), "REPLY TYPE: " + Heading(t[k].0))
    ensures Contains(Join(ReplyLines(t), "\n"), Framed("[START]", t[k].1, "[END]"))
  {
    var lines := ReplyLines(t);
    var block := ReplyBlock(t[k].0, t[k].1);
    FlattenAfterHead(Banner("ASDF - REPLY TEMPLATES"), ReplyBlocks(t), k);
    FramedInText(lines, block, 4);
    LineInText(lines, block, 1);
  }

  /** Each reply section holds one `[START]` and one `[END]` line, when its text is neither. */
  lemma ReplyBlockCount(replyType: string, template: string)
    requires template != "[START]" && template != "[END]"
    ensures Count(ReplyBlock(replyType, template), "[START]") == 1
    ensures Count(ReplyBlock(replyType, template), "[END]") == 1
  {
    var heading := "REPLY TYPE: " + Heading(replyType);
    assert heading[0] == 'R';
    assert ReplyBlock(replyType, template) == [Rule40, heading, Rule40, ""] + ["[START]", template, "[END]", ""];
    Count4(Rule40, heading, Rule40, "", "[START]");
    Count4("[START]", template, "[END]", "", "[START]");
    CountAppend([Rule40, heading, Rule40, ""], ["[START]", template, "[END]", ""], "[START]");
    Count4(Rule40, heading, Rule40, "", "[END]");
    Count4("[START]", template, "[END]", "", "[END]");
    CountAppend([Rule40, heading, Rule40, ""], ["[START]", template, "[END]", ""], "[END]");
  }

  /** The reply export has one `[START]`/`[END]` pair per reply type, when no text is a marker line. */
  lemma ReplyMarkerCount(t: Table<string>)
    requires forall k :: 0 <= k < |t| ==> t[k].1 != "[START]" && t[k].1 != "[END]"
    ensures Count(ReplyLines(t), "[START]") == |t|
    ensures Count(ReplyLines(t), "[END]") == |t|
  {
    forall k | 0 <= k < |t|
      ensures Count(ReplyBlocks(t)[k], "[START]") == 1 && Count(ReplyBlocks(t)[k], "[END]") == 1
    {
      ReplyBlockCount(t[k].0, t[k].1);
    }
    BannerEnds("ASDF - REPLY TEMPLATES");
    CountAppend(Banner("ASDF - REPLY TEMPLATES"), Flatten(ReplyBlocks(t)), "[END]");
    CountFlattenOnce(ReplyBlocks(t), "[END]");
    Count4(Rule80, "ASDF - REPLY TEMPLATES", "Ready to Copy-Paste", Rule80, "[START]");
    assert Banner("ASDF - REPLY TEMPLATES") == [Rule80, "ASDF - REPLY TEMPLATES", "Ready to Copy-Paste", Rule80] + [""];
    CountAppend([Rule80, "ASDF - REPLY TEMPLATES", "Ready to Copy-Paste", Rule80], [""], "[START]");
    assert [""][..0] == [];
    CountAppend(Banner("ASDF - REPLY TEMPLATES"), Flatten(ReplyBlocks(t)), "[START]");
    CountFlattenOnce(ReplyBlocks(t), "[START]");
  }

  /** The reply lines: five banner lines and eight per reply type. */
  lemma ReplyLinesLength(t: Table<string>)
    ensures |ReplyLines(t)| == 5 + 8 * |t|
  {
    FlattenUniform(ReplyBlocks(t), 8);
  }

  /** The configured reply export is 77 lines: 9 reply types. */
  lemma ReplyExportSize()
    ensures |ReplyLines(ReplyTemplates)| == 77
  {
    ReplyLinesLength(ReplyTemplates);
  }

  /** The configured FUD export has 27 `[END]` lines, one per response. */
  lemma FudExportEnds()
    ensures Count(FudLines(FudResponses), "[END]") == 27
  {
    Generator.FudTableSizes();
    forall k, j | 0 <= k < |FudResponses| && 0 <= j < |FudResponses[k].1|
      ensures FudResponses[k].1[j] != "[END]"
    {
    }
    FudEndCount(FudResponses);
    Generator.FudResponseCount();
  }

  /** The configured reply export has nine `[START]`/`[END]` pairs, one per reply type. */
  lemma ReplyExportMarkers()
    ensures Count(ReplyLines(ReplyTemplates), "[START]") == 9
    ensures Count(ReplyLines(ReplyTemplates), "[END]") == 9
  {
    ReplyMarkerCount(ReplyTemplates);
  }
}
