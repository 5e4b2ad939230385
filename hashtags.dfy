/**
 * The hashtag composer `get_hashtags`: two core tags in random order, then
 * one random tag of the product, then one random tag of the topic; duplicates
 * removed keeping first occurrences, cut to `count`, joined with spaces.
 */
module Hashtags {
  import opened Basics
  import opened Strings
  import opened Config

  /**
   * The random outcomes of one call: whether `random.sample` put the second
   * core tag first, and the indices `random.choice` took in the product and
   * topic pools. An index is reduced modulo the pool size, so every index names
   * a pool entry and every entry is named by some index.
   */
  datatype TagDraw = TagDraw(coreSwapped: bool, productPick: nat, topicPick: nat)

  /** `random.choice(pool)` with the drawn index. */
  function Pick(pool: seq<string>, k: nat): (r: string)
    requires |pool| > 0
    ensures r in pool
  {
    pool[k % |pool|]
  }

  /** Every entry of the pool is picked by its own index. */
  lemma PickReachable(pool: seq<string>, r: string)
    requires r in pool
    ensures exists k: nat :: Pick(pool, k) == r
  {
    var k :| 0 <= k < |pool| && pool[k] == r;
    assert Pick(pool, k) == r;
  }

  /** `random.sample(HASHTAGS["core"][:2], 2)`: both leading core tags, in either order. */
  function CoreSample(d: TagDraw): (r: seq<string>)
    ensures |r| == 2 && r[0] != r[1]
    ensures forall t :: t in r <==> t in CoreTags[..2]
  {
    var first2 := CoreTags[..2];
    if d.coreSwapped then [first2[1], first2[0]] else [first2[0], first2[1]]
  }

  /** `product and product in PRODUCTS` */
  predicate KnownProduct(product: Option<string>) {
    product.Some? && product.value != "" && Lookup(Products, product.value).Some?
  }

  /** The tag list of a known product. */
  function ProductPool(product: Option<string>): seq<string>
    requires KnownProduct(product)
  {
    Lookup(Products, product.value).value.tags
  }

  /** `topic and topic in HASHTAGS["topics"]` */
  predicate KnownTopic(topic: Option<string>) {
    topic.Some? && topic.value != "" && Lookup(TopicTags, topic.value).Some?
  }

  function TopicPool(topic: Option<string>): seq<string>
    requires KnownTopic(topic)
  {
    Lookup(TopicTags, topic.value).value
  }

  lemma TopicPoolsNonEmpty()
    ensures forall i :: 0 <= i < |TopicTags| ==> |TopicTags[i].1| > 0
  {
  }

  /** The product's contribution: one of its tags when the product is known and has tags. */
  function ProductPart(product: Option<string>, d: TagDraw): (r: seq<string>)
    ensures |r| <= 1
    ensures |r| == 1 <==> KnownProduct(product) && |ProductPool(product)| > 0
    ensures |r| == 1 ==> r[0] in ProductPool(product)
  {
    if KnownProduct(product) && |ProductPool(product)| > 0 then [Pick(ProductPool(product), d.productPick)] else []
  }

  /** The topic's contribution: one of its tags when the topic is known. */
  function TopicPart(topic: Option<string>, d: TagDraw): (r: seq<string>)
    ensures |r| <= 1
    ensures |r| == 1 <==> KnownTopic(topic)
    ensures |r| == 1 ==> r[0] in TopicPool(topic)
  {
    if KnownTopic(topic) then
      TopicPoolsNonEmpty();
      [Pick(TopicPool(topic), d.topicPick)]
    else []
  }

  /** The `tags` list before duplicates are removed. */
  function Candidates(product: Option<string>, topic: Option<string>, d: TagDraw): seq<string> {
    CoreSample(d) + ProductPart(product, d) + TopicPart(topic, d)
  }

  predicate Distinct(xs: seq<string>) {
    forall i, j :: 0 <= i < j < |xs| ==> xs[i] != xs[j]
  }

  /** `list(dict.fromkeys(xs))`: each element once, at its first occurrence. */
  function Dedup(xs: seq<string>): seq<string> {
    if xs == [] then []
    else
      var kept := Dedup(xs[..|xs| - 1]);
      if xs[|xs| - 1] in kept then kept else kept + [xs[|xs| - 1]]
  }

  /** Index of the first occurrence of `x`. */
  function IndexOf(xs: seq<string>, x: string): (k: nat)
    requires x in xs
    ensures k < |xs| && xs[k] == x
    ensures forall j :: 0 <= j < k ==> xs[j] != x
  {
    if xs[0] == x then 0 else 1 + IndexOf(xs[1..], x)
  }

  /** A first occurrence inside a prefix is the first occurrence in the whole. */
  lemma IndexOfInPrefix(xs: seq<string>, m: nat, x: string)
    requires m <= |xs| && x in xs[..m]
    ensures IndexOf(xs, x) == IndexOf(xs[..m], x)
  {
  }

  /**
   * What removing duplicates keeps: no element twice, exactly the input's
   * elements, and those in the order of their first occurrences.
   */
  lemma {:induction false} DedupSpec(xs: seq<string>)
    ensures var d := Dedup(xs);
      && Distinct(d)
      && (forall x :: x in d <==> x in xs)
      && |d| <= |xs|
      && forall i, j :: 0 <= i < j < |d| ==> IndexOf(xs, d[i]) < IndexOf(xs, d[j])
  {
    if xs != [] {
      var n := |xs| - 1;
      var init, x := xs[..n], xs[n];
      DedupSpec(init);
      var kept := Dedup(init);
      assert xs == init + [x];
      forall y | y in kept ensures IndexOf(xs, y) == IndexOf(init, y) {
        IndexOfInPrefix(xs, n, y);
      }
      if x !in kept {
        assert x !in init;
        assert IndexOf(xs, x) == n;
        var d := kept + [x];
        forall i, j | 0 <= i < j < |d| ensures IndexOf(xs, d[i]) < IndexOf(xs, d[j]) {
          assert d[i] in kept;
          if j < |kept| {
            assert d[j] in kept;
          }
        }
      }
    }
  }

  lemma DedupPair(a: string, b: string)
    requires a != b
    ensures Dedup([a, b]) == [a, b]
  {
    assert [a][..0] == [];
    assert Dedup([a]) == [a];
    assert [a, b][..1] == [a];
    assert b !in [a];
  }

  /** Removing duplicates from a longer list extends the result for the shorter one. */
  lemma {:induction false} DedupPrefix(xs: seq<string>, ys: seq<string>)
    ensures Dedup(xs) <= Dedup(xs + ys)
    decreases |ys|
  {
    if ys != [] {
      var n := |ys| - 1;
      DedupPrefix(xs, ys[..n]);
      assert (xs + ys)[..|xs + ys| - 1] == xs + ys[..n];
    } else {
      assert xs + ys == xs;
    }
  }

  /** Python's `xs[:count]`: a negative count drops that many from the end. */
  function Take(xs: seq<string>, count: int): (r: seq<string>)
    ensures r <= xs
  {
    if count >= 0 then (if count <= |xs| then xs[..count] else xs)
    else if |xs| + count >= 0 then xs[..|xs| + count] else []
  }

  /** The tag list `get_hashtags` joins. */
  function HashtagList(product: Option<string>, topic: Option<string>, count: int, d: TagDraw): seq<string> {
    Take(Dedup(Candidates(product, topic, d)), count)
  }

  /** The string `get_hashtags` returns. */
  function HashtagLine(product: Option<string>, topic: Option<string>, count: int, d: TagDraw): string {
    Join(HashtagList(product, topic, count, d), " ")
  }

  /** `get_hashtags`, step by step as the source builds and cleans its list. */
  method GetHashtags(product: Option<string>, topic: Option<string>, count: int, d: TagDraw)
    returns (line: string)
    ensures line == HashtagLine(product, topic, count, d)
  {
    var tags := CoreSample(d);
    if KnownProduct(product) {
      var productTags := Lookup(Products, product.value).value.tags;
      if |productTags| > 0 {
        tags := tags + [Pick(productTags, d.productPick)];
      }
    }
    assert tags == CoreSample(d) + ProductPart(product, d);
    if KnownTopic(topic) {
      TopicPoolsNonEmpty();
      tags := tags + [Pick(Lookup(TopicTags, topic.value).value, d.topicPick)];
    }
    assert tags == Candidates(product, topic, d);
    line := Join(Take(Dedup(tags), count), " ");
  }

  /** At most `count` tags when `count` is not negative; a negative count drops tags from the end. */
  lemma HashtagCount(product: Option<string>, topic: Option<string>, count: int, d: TagDraw)
    ensures var n := |Dedup(Candidates(product, topic, d))|;
      && 2 <= n <= 4
      && (count >= 0 ==> |HashtagList(product, topic, count, d)| == if count <= n then count else n)
      && (count < 0 ==> |HashtagList(product, topic, count, d)| == if n + count >= 0 then n + count else 0)
  {
    var cands := Candidates(product, topic, d);
    DedupSpec(cands);
    DedupPrefix(CoreSample(d), ProductPart(product, d) + TopicPart(topic, d));
    assert cands == CoreSample(d) + (ProductPart(product, d) + TopicPart(topic, d));
    DedupPair(CoreSample(d)[0], CoreSample(d)[1]);
    assert [CoreSample(d)[0], CoreSample(d)[1]] == CoreSample(d);
  }

  /**
   * No tag twice; the tags follow the order of their first occurrence among the
   * core pair, the product tag and the topic tag; and each comes from its pool.
   */
  lemma HashtagsDistinctOrderedFromPools(product: Option<string>, topic: Option<string>, count: int, d: TagDraw)
    ensures var r := HashtagList(product, topic, count, d);
      var cands := Candidates(product, topic, d);
      && Distinct(r)
      && (forall t :: t in r ==> t in cands)
      && (forall i, j :: 0 <= i < j < |r| ==> IndexOf(cands, r[i]) < IndexOf(cands, r[j]))
      && (forall t :: t in r ==>
            t in CoreTags[..2]
            || (KnownProduct(product) && t in ProductPool(product))
            || (KnownTopic(topic) && t in TopicPool(topic)))
  {
    var cands := Candidates(product, topic, d);
    var dd := Dedup(cands);
    DedupSpec(cands);
    var r := HashtagList(product, topic, count, d);
    assert r <= dd;
    forall t | t in r
      ensures t in CoreTags[..2]
        || (KnownProduct(product) && t in ProductPool(product))
        || (KnownTopic(topic) && t in TopicPool(topic))
    {
      assert t in dd;
      var c, p := CoreSample(d), ProductPart(product, d);
      assert t in c || t in p || t in TopicPart(topic, d);
    }
  }

  /** With room for two tags, both leading core tags are always there. */
  lemma CoreTagsPresent(product: Option<string>, topic: Option<string>, count: int, d: TagDraw)
    requires count >= 2
    ensures "#ASDFASDFA" in HashtagList(product, topic, count, d)
    ensures "#ASDF" in HashtagList(product, topic, count, d)
  {
    var c := CoreSample(d);
    var cands := Candidates(product, topic, d);
    DedupPrefix(c, ProductPart(product, d) + TopicPart(topic, d));
    assert cands == c + (ProductPart(product, d) + TopicPart(topic, d));
    DedupPair(c[0], c[1]);
    assert [c[0], c[1]] == c;
    var r := HashtagList(product, topic, count, d);
    assert r[..2] == c;
    assert CoreTags[..2] == ["#ASDFASDFA", "#ASDF"];
  }

  /** With room for every candidate, only duplicates are lost. */
  lemma HashtagsComplete(product: Option<string>, topic: Option<string>, count: int, d: TagDraw)
    requires count >= 4
    ensures forall t :: t in HashtagList(product, topic, count, d) <==> t in Candidates(product, topic, d)
  {
    var cands := Candidates(product, topic, d);
    DedupSpec(cands);
  }

  lemma TagsHaveNoSpace()
    ensures forall t :: t in CoreTags ==> ' ' !in t
    ensures forall i, t :: 0 <= i < |Products| && t in Products[i].1.tags ==> ' ' !in t
    ensures forall i, t :: 0 <= i < |TopicTags| && t in TopicTags[i].1 ==> ' ' !in t
  {
  }

  /** No tag holds a space, so splitting the returned line on " " gives the tag list back. */
  lemma HashtagLineSplits(product: Option<string>, topic: Option<string>, count: int, d: TagDraw)
    requires count >= 1
    ensures |HashtagList(product, topic, count, d)| >= 1
    ensures Split(HashtagLine(product, topic, count, d), ' ') == HashtagList(product, topic, count, d)
  {
    HashtagCount(product, topic, count, d);
    HashtagsDistinctOrderedFromPools(product, topic, count, d);
    TagsHaveNoSpace();
    var r := HashtagList(product, topic, count, d);
    forall t | t in r ensures ' ' !in t {
      if KnownProduct(product) && t in ProductPool(product) {
        var i :| 0 <= i < |Products| && Products[i] == (product.value, Lookup(Products, product.value).value);
      } else if KnownTopic(topic) && t in TopicPool(topic) {
        var i :| 0 <= i < |TopicTags| && TopicTags[i] == (topic.value, TopicPool(topic));
      }
    }
    SplitJoin(r, ' ');
  }
}
