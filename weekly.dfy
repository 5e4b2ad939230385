/**
 * The weekly plan: every slot of the schedule turned into a generated post,
 * grouped by day under the day's capitalised name.
 *
 * Each slot consumes one `Draw` (its hashtag draw and template pick); the
 * draws of a week are a function of the day's position and the slot's
 * position within the day.
 */
module Weekly {
  import opened Basics
  import opened Strings
  import opened Config
  import Generator

  /** A post ready to publish, with where in the week it goes. */
  datatype GeneratedPost = GeneratedPost(
    content: string,
    postType: PostType,
    day: DayOfWeek,
    time: string,
    product: Option<string>,
    templateUsed: Option<string>,
    isThread: bool,
    threadTweets: Option<seq<string>>)

  /** What separates the tweets of a thread in a post's content. */
  const ThreadSeparator := "\n\n---\n\n"

  /** `day.name.capitalize()` */
  function DayName(day: DayOfWeek): string {
    Capitalize(DayEnumName(day))
  }

  /** Upper-case ASCII letters only, as the day names of the enumeration are. */
  predicate UpperWord(s: string) {
    forall i :: 0 <= i < |s| ==> 'A' <= s[i] <= 'Z'
  }

  /** Capitalising keeps words of upper-case letters apart. */
  lemma CapitalizeInjective(a: string, b: string)
    requires UpperWord(a) && UpperWord(b)
    requires Capitalize(a) == Capitalize(b)
    ensures a == b
  {
    if a != [] && b != [] {
      assert |a| == |b|;
      forall i | 0 <= i < |a| ensures a[i] == b[i] {
        if i == 0 {
          assert Capitalize(a)[0] == UpperChar(a[0]) && Capitalize(b)[0] == UpperChar(b[0]);
        } else {
          assert Capitalize(a)[i] == Lower(a[1..])[i - 1] == LowerChar(a[i]);
          assert Capitalize(b)[i] == Lower(b[1..])[i - 1] == LowerChar(b[i]);
        }
      }
    }
  }

  /** Different days have different names, so each day gets its own entry. */
  lemma DayNameInjective(a: DayOfWeek, b: DayOfWeek)
    ensures DayName(a) == DayName(b) ==> a == b
  {
    assert UpperWord(DayEnumName(a)) && UpperWord(DayEnumName(b));
    if DayName(a) == DayName(b) {
      CapitalizeInjective(DayEnumName(a), DayEnumName(b));
    }
  }

  /** For example, Monday's entry is "Monday". */
  lemma MondayName()
    ensures DayName(Monday) == "Monday"
  {
    assert Lower("ONDAY") == "onday";
  }

  /** The post types the scheduler knows how to generate. */
  predicate Handled(t: PostType) {
    t == Thread || t == Raid || t == Cult || t == Milestone
  }

  /** The raid style a slot names; a missing one matches no style. */
  function RaidTemplate(slot: Slot): string {
    slot.template.GetOr("")
  }

  /** `product or "holdex"`: a missing or empty product means HolDEX. */
  function RaidKey(product: Option<string>): (key: string)
    ensures product.Some? && product.value != "" ==> key == product.value
    ensures product.None? || product.value == "" ==> key == "holdex"
  {
    if product.Some? && product.value != "" then product.value else "holdex"
  }

  /**
   * `_generate_scheduled_post(day, config, week_num)`. Raids go through the
   * resolved product key, so a slot with an unknown product gets the HolDEX
   * raid where the code as written raises KeyError for three of the styles;
   * on the configured schedule the two agree (`CurrentRaidsAsWritten`).
   */
  function ScheduledPost(day: DayOfWeek, slot: Slot, weekNum: int, d: Generator.Draw): (r: Option<GeneratedPost>)
    ensures r.Some? <==> Handled(slot.postType)
    ensures r.Some? ==> r.value.day == day && r.value.time == slot.time && r.value.postType == slot.postType
    ensures r.Some? ==> (r.value.isThread <==> slot.postType == Thread)
    ensures r.Some? && slot.postType == Thread ==>
      r.value.threadTweets == Some(Generator.Thread(RaidTemplate(slot), Generator.ThreadHashtags(d.tags))) &&
      r.value.content == Join(r.value.threadTweets.value, ThreadSeparator) &&
      r.value.templateUsed == slot.template
    ensures r.Some? && slot.postType == Raid ==>
      r.value.product == slot.product && r.value.templateUsed == slot.template &&
      Contains(r.value.content, Generator.RaidHashtags(RaidKey(slot.product), d.tags))
    ensures r.Some? && slot.postType == Raid && HasKey(Products, RaidKey(slot.product)) ==>
      Generator.GenerateRaid(RaidTemplate(slot), RaidKey(slot.product), d) == Success(r.value.content)
    ensures r.Some? && slot.postType == Cult ==>
      r.value.content == Generator.CultPost(Generator.CoreHashtags(d.tags), d.templatePick) &&
      Contains(r.value.content, Generator.CoreHashtags(d.tags))
    ensures r.Some? && slot.postType == Milestone ==>
      r.value.content == Generator.MilestonePost(weekNum, CurrentStats, Generator.CoreHashtags(d.tags)) &&
      Contains(r.value.content, "week " + IntToString(weekNum) + " stats:")
    ensures r.Some? && slot.postType != Thread ==> r.value.threadTweets.None?
    ensures r.Some? && (slot.postType == Cult || slot.postType == Milestone) ==>
      r.value.product.None? && r.value.templateUsed.None?
  {
    match slot.postType
    case Thread =>
      var tweets := Generator.Thread(RaidTemplate(slot), Generator.ThreadHashtags(d.tags));
      Some(GeneratedPost(Join(tweets, ThreadSeparator), Thread, day, slot.time, None, slot.template, true, Some(tweets)))
    case Raid =>
      var content := Generator.GenerateRaidResolved(RaidTemplate(slot), RaidKey(slot.product), d);
      Some(GeneratedPost(content, Raid, day, slot.time, slot.product, slot.template, false, None))
    case Cult =>
      var content := Generator.CultPost(Generator.CoreHashtags(d.tags), d.templatePick);
      Some(GeneratedPost(content, Cult, day, slot.time, None, None, false, None))
    case Milestone =>
      var content := Generator.MilestonePost(weekNum, CurrentStats, Generator.CoreHashtags(d.tags));
      Some(GeneratedPost(content, Milestone, day, slot.time, None, None, false, None))
    case _ => None
  }

  /** A thread slot: the thread, built tweet by tweet, joined into one post. */
  method ThreadSlotOutput(day: DayOfWeek, slot: Slot, weekNum: int, d: Generator.Draw)
    returns (post: Option<GeneratedPost>)
    requires slot.postType == Thread
    ensures post == ScheduledPost(day, slot, weekNum, d)
  {
    var tweets := Generator.GenerateThread(RaidTemplate(slot), d.tags);
    post := Some(GeneratedPost(Join(tweets, ThreadSeparator), Thread, day, slot.time, None, slot.template, true, Some(tweets)));
  }

  method GenerateScheduledPost(day: DayOfWeek, slot: Slot, weekNum: int, d: Generator.Draw)
    returns (post: Option<GeneratedPost>)
    ensures post == ScheduledPost(day, slot, weekNum, d)
  {
    match slot.postType {
      case Thread =>
        post := ThreadSlotOutput(day, slot, weekNum, d);
      case Raid =>
        var content := Generator.GenerateRaidResolved(RaidTemplate(slot), RaidKey(slot.product), d);
        post := Some(GeneratedPost(content, Raid, day, slot.time, slot.product, slot.template, false, None));
      case Cult =>
        var content := Generator.CultPost(Generator.CoreHashtags(d.tags), d.templatePick);
        post := Some(GeneratedPost(content, Cult, day, slot.time, None, None, false, None));
      case Milestone =>
        var content := Generator.MilestonePost(weekNum, CurrentStats, Generator.CoreHashtags(d.tags));
        post := Some(GeneratedPost(content, Milestone, day, slot.time, None, None, false, None));
      case _ =>
        post := None;
    }
  }

  /** How each slot of a day turns out, in slot order; `dayIndex` selects the day's draws. */
  function DayOutcomes(day: DayOfWeek, dayIndex: nat, slots: seq<Slot>, weekNum: int,
                       draws: (nat, nat) -> Generator.Draw): (r: seq<Option<GeneratedPost>>)
    ensures |r| == |slots|
  {
    seq(|slots|, k requires 0 <= k < |slots| => ScheduledPost(day, slots[k], weekNum, draws(dayIndex, k)))
  }

  /** The posts that were generated, in order: the `if post:` filter. */
  function Present<T>(outcomes: seq<Option<T>>): (r: seq<T>)
    ensures |r| <= |outcomes|
  {
    if outcomes == [] then []
    else
      var last := |outcomes| - 1;
      Present(outcomes[..last]) + (if outcomes[last].Some? then [outcomes[last].value] else [])
  }

  /** The filter over one more outcome. */
  lemma PresentStep<T>(outcomes: seq<Option<T>>, k: nat)
    requires k < |outcomes|
    ensures Present(outcomes[..k + 1]) ==
      Present(outcomes[..k]) + (if outcomes[k].Some? then [outcomes[k].value] else [])
  {
    assert outcomes[..k + 1][..k] == outcomes[..k];
  }

  /** The posts of one day, in slot order. */
  function DayPosts(day: DayOfWeek, dayIndex: nat, slots: seq<Slot>, weekNum: int,
                    draws: (nat, nat) -> Generator.Draw): seq<GeneratedPost>
  {
    Present(DayOutcomes(day, dayIndex, slots, weekNum, draws))
  }

  /** The slots whose type the scheduler handles, in order. */
  function HandledSlots(slots: seq<Slot>): (r: seq<Slot>)
    ensures |r| <= |slots|
    ensures forall s :: s in r <==> s in slots && Handled(s.postType)
  {
    if slots == [] then []
    else
      var last := |slots| - 1;
      HandledSlots(slots[..last]) + (if Handled(slots[last].postType) then [slots[last]] else [])
  }

  /** Each slot turns into a post exactly when its type is handled, on that day, at its time, of its type. */
  predicate Follows(outcomes: seq<Option<GeneratedPost>>, day: DayOfWeek, slots: seq<Slot>) {
    |outcomes| == |slots| &&
    forall k :: 0 <= k < |slots| ==>
      (outcomes[k].Some? <==> Handled(slots[k].postType)) &&
      (outcomes[k].Some? ==>
        outcomes[k].value.day == day && outcomes[k].value.time == slots[k].time &&
        outcomes[k].value.postType == slots[k].postType)
  }

  lemma DayOutcomesFollow(day: DayOfWeek, dayIndex: nat, slots: seq<Slot>, weekNum: int,
                          draws: (nat, nat) -> Generator.Draw)
    ensures Follows(DayOutcomes(day, dayIndex, slots, weekNum, draws), day, slots)
  {
  }

  /** The filter keeps one post per handled slot, in order. */
  lemma {:induction false} PresentFollows(outcomes: seq<Option<GeneratedPost>>, day: DayOfWeek, slots: seq<Slot>)
    requires Follows(outcomes, day, slots)
    ensures var posts := Present(outcomes);
      var hs := HandledSlots(slots);
      |posts| == |hs| &&
      forall j :: 0 <= j < |posts| ==>
        posts[j].day == day && posts[j].time == hs[j].time && posts[j].postType == hs[j].postType
  {
    if slots != [] {
      var last := |slots| - 1;
      assert Follows(outcomes[..last], day, slots[..last]);
      PresentFollows(outcomes[..last], day, slots[..last]);
    }
  }

  /**
   * One post per handled slot, in slot order, on that day, at that slot's
   * time and of that slot's type; slots of other types are dropped.
   */
  lemma DayPostsFollowSlots(day: DayOfWeek, dayIndex: nat, slots: seq<Slot>, weekNum: int,
                            draws: (nat, nat) -> Generator.Draw)
    ensures var posts := DayPosts(day, dayIndex, slots, weekNum, draws);
      var hs := HandledSlots(slots);
      |posts| == |hs| &&
      forall j :: 0 <= j < |posts| ==>
        posts[j].day == day && posts[j].time == hs[j].time && posts[j].postType == hs[j].postType
  {
    DayOutcomesFollow(day, dayIndex, slots, weekNum, draws);
    PresentFollows(DayOutcomes(day, dayIndex, slots, weekNum, draws), day, slots);
  }

  /** When every slot is handled, every slot gives a post. */
  lemma {:induction false} AllHandledKept(slots: seq<Slot>)
    requires forall k :: 0 <= k < |slots| ==> Handled(slots[k].postType)
    ensures HandledSlots(slots) == slots
  {
    if slots != [] {
      var last := |slots| - 1;
      AllHandledKept(slots[..last]);
      assert slots[..last] + [slots[last]] == slots;
    }
  }

  /** The inner loop of `generate_weekly_posts`: one day's slots. */
  method GenerateDayPosts(day: DayOfWeek, dayIndex: nat, slots: seq<Slot>, weekNum: int,
                          draws: (nat, nat) -> Generator.Draw)
    returns (posts: seq<GeneratedPost>)
    ensures posts == DayPosts(day, dayIndex, slots, weekNum, draws)
  {
    ghost var outcomes := DayOutcomes(day, dayIndex, slots, weekNum, draws);
    posts := [];
    for k := 0 to |slots|
      invariant posts == Present(outcomes[..k])
    {
      var post := GenerateScheduledPost(day, slots[k], weekNum, draws(dayIndex, k));
      PresentStep(outcomes, k);
      if post.Some? {
        posts := posts + [post.value];
      }
    }
    assert outcomes[..|slots|] == outcomes;
  }

  /** No day appears twice, as the keys of the schedule dictionary. */
  predicate DistinctDays(schedule: seq<DaySchedule>) {
    forall i, j :: 0 <= i < j < |schedule| ==> schedule[i].day != schedule[j].day
  }

  /** `generate_weekly_posts(week_num)`: each day's name with that day's posts, in schedule order. */
  function WeeklyPosts(schedule: seq<DaySchedule>, weekNum: int, draws: (nat, nat) -> Generator.Draw)
    : (r: Table<seq<GeneratedPost>>)
    ensures |r| == |schedule|
    ensures forall i :: 0 <= i < |schedule| ==>
      r[i].0 == DayName(schedule[i].day) &&
      r[i].1 == DayPosts(schedule[i].day, i, schedule[i].posts, weekNum, draws)
  {
    seq(|schedule|, i requires 0 <= i < |schedule| =>
      (DayName(schedule[i].day), DayPosts(schedule[i].day, i, schedule[i].posts, weekNum, draws)))
  }

  /** With distinct days, the week is a dictionary: one entry per day, found under its name. */
  lemma WeekKeysDistinct(schedule: seq<DaySchedule>, weekNum: int, draws: (nat, nat) -> Generator.Draw)
    requires DistinctDays(schedule)
    ensures DistinctKeys(WeeklyPosts(schedule, weekNum, draws))
    ensures forall i :: 0 <= i < |schedule| ==>
      Lookup(WeeklyPosts(schedule, weekNum, draws), DayName(schedule[i].day)) ==
      Some(DayPosts(schedule[i].day, i, schedule[i].posts, weekNum, draws))
  {
    var w := WeeklyPosts(schedule, weekNum, draws);
    forall i, j | 0 <= i < j < |w| ensures w[i].0 != w[j].0 {
      DayNameInjective(schedule[i].day, schedule[j].day);
    }
    forall i | 0 <= i < |schedule|
      ensures Lookup(w, DayName(schedule[i].day)) == Some(DayPosts(schedule[i].day, i, schedule[i].posts, weekNum, draws))
    {
      LookupFirst(w, i);
    }
  }

  method GenerateWeeklyPosts(schedule: seq<DaySchedule>, weekNum: int, draws: (nat, nat) -> Generator.Draw)
    returns (weeklyPosts: Table<seq<GeneratedPost>>)
    ensures weeklyPosts == WeeklyPosts(schedule, weekNum, draws)
  {
    weeklyPosts := [];
    for i := 0 to |schedule|
      invariant |weeklyPosts| == i
      invariant forall k :: 0 <= k < i ==>
        weeklyPosts[k] == (DayName(schedule[k].day), DayPosts(schedule[k].day, k, schedule[k].posts, weekNum, draws))
    {
      var dayPosts := GenerateDayPosts(schedule[i].day, i, schedule[i].posts, weekNum, draws);
      weeklyPosts := weeklyPosts + [(DayName(schedule[i].day), dayPosts)];
    }
  }

  /** The number of slots over all days. */
  function SlotCount(schedule: seq<DaySchedule>): nat {
    if schedule == [] then 0 else SlotCount(schedule[..|schedule| - 1]) + |schedule[|schedule| - 1].posts|
  }

  lemma SlotCountStep(schedule: seq<DaySchedule>, k: nat)
    requires 0 < k <= |schedule|
    ensures SlotCount(schedule[..k]) == SlotCount(schedule[..k - 1]) + |schedule[k - 1].posts|
  {
    assert schedule[..k][..k - 1] == schedule[..k - 1];
  }

  /** Every slot of every day is of a handled type. */
  predicate AllHandled(schedule: seq<DaySchedule>) {
    forall i, k :: 0 <= i < |schedule| && 0 <= k < |schedule[i].posts| ==> Handled(schedule[i].posts[k].postType)
  }

  /** Lists of the same lengths hold as many values in all. */
  lemma {:induction false} SameSizes<V>(t: Table<seq<V>>, schedule: seq<DaySchedule>)
    requires |t| == |schedule|
    requires forall i :: 0 <= i < |t| ==> |t[i].1| == |schedule[i].posts|
    ensures TotalSize(t) == SlotCount(schedule)
  {
    if t != [] {
      SameSizes(t[..|t| - 1], schedule[..|schedule| - 1]);
    }
  }

  /** When every slot is handled, the week holds one post per slot. */
  lemma WeekPostCount(schedule: seq<DaySchedule>, weekNum: int, draws: (nat, nat) -> Generator.Draw)
    requires AllHandled(schedule)
    ensures TotalSize(WeeklyPosts(schedule, weekNum, draws)) == SlotCount(schedule)
  {
    var w := WeeklyPosts(schedule, weekNum, draws);
    forall i | 0 <= i < |w| ensures |w[i].1| == |schedule[i].posts| {
      DayPostsFollowSlots(schedule[i].day, i, schedule[i].posts, weekNum, draws);
      AllHandledKept(schedule[i].posts);
    }
    SameSizes(w, schedule);
  }

  // ---------------------------------------------------------------------
  // The configured week
  // ---------------------------------------------------------------------

  /** The configured schedule has fifteen slots. */
  lemma CurrentSlotCount()
    ensures SlotCount(WeeklySchedule) == 15
  {
    var s := WeeklySchedule;
    assert s[..0] == [];
    SlotCountStep(s, 1);
    SlotCountStep(s, 2);
    SlotCountStep(s, 3);
    SlotCountStep(s, 4);
    SlotCountStep(s, 5);
    SlotCountStep(s, 6);
    SlotCountStep(s, 7);
    assert s[..7] == s;
  }

  /** The configured schedule: seven distinct days and fifteen slots, every one of a handled type. */
  lemma CurrentScheduleWellFormed()
    ensures |WeeklySchedule| == 7
    ensures DistinctDays(WeeklySchedule)
    ensures AllHandled(WeeklySchedule)
    ensures SlotCount(WeeklySchedule) == 15
  {
    CurrentSlotCount();
  }

  /** The configured week has fifteen posts under seven distinct day names. */
  lemma CurrentWeek(weekNum: int, draws: (nat, nat) -> Generator.Draw)
    ensures TotalSize(WeeklyPosts(WeeklySchedule, weekNum, draws)) == 15
    ensures DistinctKeys(WeeklyPosts(WeeklySchedule, weekNum, draws))
  {
    CurrentScheduleWellFormed();
    WeekPostCount(WeeklySchedule, weekNum, draws);
    WeekKeysDistinct(WeeklySchedule, weekNum, draws);
  }

  /** Every raid of the configured week names a product the table holds. */
  lemma CurrentRaidProductsKnown()
    ensures forall i, k ::
      0 <= i < |WeeklySchedule| && 0 <= k < |WeeklySchedule[i].posts| && WeeklySchedule[i].posts[k].postType == Raid ==>
      HasKey(Products, RaidKey(WeeklySchedule[i].posts[k].product))
  {
    assert Products[0].0 == "holdex" && Products[1].0 == "ignition" && Products[2].0 == "asdforecast";
  }

  /**
   * In the configured week the resolved raid and the raid as written agree:
   * no raid slot reaches the unknown-product failure.
   */
  lemma CurrentRaidsAsWritten(weekNum: int, draws: (nat, nat) -> Generator.Draw)
    ensures forall i, k ::
      0 <= i < |WeeklySchedule| && 0 <= k < |WeeklySchedule[i].posts| && WeeklySchedule[i].posts[k].postType == Raid ==>
      var slot := WeeklySchedule[i].posts[k];
      Generator.GenerateRaid(RaidTemplate(slot), RaidKey(slot.product), draws(i, k)) ==
      Success(ScheduledPost(WeeklySchedule[i].day, slot, weekNum, draws(i, k)).value.content)
  {
    CurrentRaidProductsKnown();
  }
}
