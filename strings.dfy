/**
 * The handful of Python string operations the generator relies on:
 * `sep.join`, `s.split(sep)`, `lower`/`upper` (ASCII letters), `replace` of
 * one character, `str(n)` for integers, and the `in` substring test.
 */
module Strings {

  /** `sub` occurs in `s` starting at index `i`. */
  predicate OccursAt<T(==)>(s: seq<T>, sub: seq<T>, i: nat) {
    i + |sub| <= |s| && s[i..i + |sub|] == sub
  }

  /** `sub in s`; on lists of lines, `sub` is a run of consecutive lines. */
  predicate Contains<T(==)>(s: seq<T>, sub: seq<T>) {
    exists i: nat :: i <= |s| && OccursAt(s, sub, i)
  }

  lemma ContainsAt<T>(s: seq<T>, sub: seq<T>, i: nat)
    requires OccursAt(s, sub, i)
    ensures Contains(s, sub)
  {
  }

  lemma ContainsSelf<T>(s: seq<T>)
    ensures Contains(s, s)
  {
    ContainsAt(s, s, 0);
  }

  /** A substring of the middle part is a substring of the whole. */
  lemma ContainsWithin<T>(pre: seq<T>, mid: seq<T>, post: seq<T>, sub: seq<T>)
    requires Contains(mid, sub)
    ensures Contains(pre + mid + post, sub)
  {
    var i: nat :| i <= |mid| && OccursAt(mid, sub, i);
    var s := pre + mid + post;
    assert s[|pre| + i..|pre| + i + |sub|] == sub;
    ContainsAt(s, sub, |pre| + i);
  }

  lemma ContainsTransitive<T>(s: seq<T>, mid: seq<T>, sub: seq<T>)
    requires Contains(s, mid) && Contains(mid, sub)
    ensures Contains(s, sub)
  {
    var i: nat :| i <= |s| && OccursAt(s, mid, i);
    ContainsWithin(s[..i], mid, s[i + |mid|..], sub);
    assert s == s[..i] + mid + s[i + |mid|..];
  }

  /** Every prefix of a text occurs in it. */
  lemma ContainsPrefix<T>(s: seq<T>, n: nat)
    requires n <= |s|
    ensures Contains(s, s[..n])
  {
    ContainsAt(s, s[..n], 0);
  }

  /** `sep.join(parts)` */
  function Join(parts: seq<string>, sep: string): (r: string)
    ensures |parts| == 1 ==> r == parts[0]
  {
    if |parts| == 0 then ""
    else if |parts| == 1 then parts[0]
    else parts[0] + sep + Join(parts[1..], sep)
  }

  /** Every part of a join appears in the joined text. */
  lemma {:induction false} JoinContainsPart(parts: seq<string>, sep: string, k: nat)
    requires k < |parts|
    ensures Contains(Join(parts, sep), parts[k])
  {
    if |parts| == 1 {
      ContainsSelf(parts[0]);
    } else if k == 0 {
      ContainsSelf(parts[0]);
      ContainsWithin("", parts[0], sep + Join(parts[1..], sep), parts[0]);
      assert "" + parts[0] + (sep + Join(parts[1..], sep)) == Join(parts, sep);
    } else {
      JoinContainsPart(parts[1..], sep, k - 1);
      ContainsWithin(parts[0] + sep, Join(parts[1..], sep), "", parts[k]);
      assert parts[0] + sep + Join(parts[1..], sep) + "" == Join(parts, sep);
    }
  }

  /** Joining two non-empty lists puts the separator once between their joins. */
  lemma {:induction false} JoinAppend(a: seq<string>, b: seq<string>, sep: string)
    requires |a| > 0 && |b| > 0
    ensures Join(a + b, sep) == Join(a, sep) + sep + Join(b, sep)
  {
    if |a| == 1 {
      assert (a + b)[0] == a[0] && (a + b)[1..] == b;
    } else {
      assert (a + b)[0] == a[0] && (a + b)[1..] == a[1..] + b;
      JoinAppend(a[1..], b, sep);
    }
  }

  /** The join of a leading run of parts starts the joined text. */
  lemma JoinContainsFront(run: seq<string>, post: seq<string>, sep: string)
    requires |run| > 0
    ensures Contains(Join(run + post, sep), Join(run, sep))
  {
    if post == [] {
      assert run + post == run;
      ContainsSelf(Join(run, sep));
    } else {
      JoinAppend(run, post, sep);
      ContainsAt(Join(run + post, sep), Join(run, sep), 0);
    }
  }

  /** What appears in the join of trailing parts appears in the whole join. */
  lemma JoinContainsBack(pre: seq<string>, rest: seq<string>, sep: string, sub: string)
    requires |rest| > 0
    requires Contains(Join(rest, sep), sub)
    ensures Contains(Join(pre + rest, sep), sub)
  {
    if pre == [] {
      assert pre + rest == rest;
    } else {
      JoinAppend(pre, rest, sep);
      ContainsWithin(Join(pre, sep) + sep, Join(rest, sep), [], sub);
      assert Join(pre, sep) + sep + Join(rest, sep) + [] == Join(pre + rest, sep);
    }
  }

  /** A run of consecutive parts appears, joined, in the joined text. */
  lemma JoinContainsRun(parts: seq<string>, run: seq<string>, sep: string)
    requires |run| > 0
    requires Contains(parts, run)
    ensures Contains(Join(parts, sep), Join(run, sep))
  {
    var i: nat :| i <= |parts| && OccursAt(parts, run, i);
    var post := parts[i + |run|..];
    assert parts == parts[..i] + (run + post);
    JoinContainsFront(run, post, sep);
    JoinContainsBack(parts[..i], run + post, sep, Join(run, sep));
  }

  /** Blocks of lines written one after another. */
  function Flatten<T>(blocks: seq<seq<T>>): seq<T> {
    if blocks == [] then [] else Flatten(blocks[..|blocks| - 1]) + blocks[|blocks| - 1]
  }

  /** Appending the next block to lines that end with the first `k` blocks. */
  lemma FlattenStep<T>(head: seq<T>, blocks: seq<seq<T>>, k: nat)
    requires k < |blocks|
    ensures head + Flatten(blocks[..k + 1]) == head + Flatten(blocks[..k]) + blocks[k]
  {
    assert blocks[..k + 1][..k] == blocks[..k];
  }

  /** Every block appears, as a run, in the flattened list. */
  lemma {:induction false} FlattenContainsBlock<T>(blocks: seq<seq<T>>, k: nat)
    requires k < |blocks|
    ensures Contains(Flatten(blocks), blocks[k])
  {
    var last := |blocks| - 1;
    if k == last {
      ContainsSelf(blocks[k]);
      ContainsWithin(Flatten(blocks[..last]), blocks[k], [], blocks[k]);
      assert Flatten(blocks[..last]) + blocks[k] + [] == Flatten(blocks);
    } else {
      FlattenContainsBlock(blocks[..last], k);
      ContainsWithin([], Flatten(blocks[..last]), blocks[last], blocks[k]);
      assert [] + Flatten(blocks[..last]) + blocks[last] == Flatten(blocks);
    }
  }

  /** Every block appears in lines that end with all the blocks. */
  lemma FlattenAfterHead<T>(head: seq<T>, blocks: seq<seq<T>>, k: nat)
    requires k < |blocks|
    ensures Contains(head + Flatten(blocks), blocks[k])
  {
    FlattenContainsBlock(blocks, k);
    ContainsWithin(head, Flatten(blocks), [], blocks[k]);
    assert head + Flatten(blocks) + [] == head + Flatten(blocks);
  }

  /** Lines that contain a block contain every run of it. */
  lemma ContainsSlice<T>(s: seq<T>, block: seq<T>, i: nat, j: nat)
    requires Contains(s, block)
    requires i <= j <= |block|
    ensures Contains(s, block[i..j])
  {
    ContainsAt(block, block[i..j], i);
    ContainsTransitive(s, block, block[i..j]);
  }

  /** How many items of `s` equal `x`. */
  function Count<T(==)>(s: seq<T>, x: T): nat {
    if s == [] then 0 else Count(s[..|s| - 1], x) + (if s[|s| - 1] == x then 1 else 0)
  }

  lemma {:induction false} CountAppend<T>(a: seq<T>, b: seq<T>, x: T)
    ensures Count(a + b, x) == Count(a, x) + Count(b, x)
  {
    if b == [] {
      assert a + b == a;
    } else {
      assert (a + b)[..|a + b| - 1] == a + b[..|b| - 1];
      CountAppend(a, b[..|b| - 1], x);
    }
  }

  function Sum(xs: seq<nat>): nat {
    if xs == [] then 0 else Sum(xs[..|xs| - 1]) + xs[|xs| - 1]
  }

  /** Counting over blocks adds up the counts of the blocks. */
  lemma {:induction false} CountFlatten<T>(blocks: seq<seq<T>>, x: T, counts: seq<nat>)
    requires |counts| == |blocks|
    requires forall k :: 0 <= k < |blocks| ==> Count(blocks[k], x) == counts[k]
    ensures Count(Flatten(blocks), x) == Sum(counts)
  {
    if blocks != [] {
      var n := |blocks| - 1;
      CountFlatten(blocks[..n], x, counts[..n]);
      CountAppend(Flatten(blocks[..n]), blocks[n], x);
    }
  }

  /** Blocks that each hold `x` once hold it once per block. */
  lemma {:induction false} CountFlattenOnce<T>(blocks: seq<seq<T>>, x: T)
    requires forall k :: 0 <= k < |blocks| ==> Count(blocks[k], x) == 1
    ensures Count(Flatten(blocks), x) == |blocks|
  {
    if blocks != [] {
      var n := |blocks| - 1;
      CountFlattenOnce(blocks[..n], x);
      CountAppend(Flatten(blocks[..n]), blocks[n], x);
    }
  }

  /** Blocks of one width flatten to that many items per block. */
  lemma {:induction false} FlattenUniform<T>(blocks: seq<seq<T>>, width: nat)
    requires forall k :: 0 <= k < |blocks| ==> |blocks[k]| == width
    ensures |Flatten(blocks)| == width * |blocks|
  {
    if blocks != [] {
      FlattenUniform(blocks[..|blocks| - 1], width);
    }
  }

  /** `s.split(sep)` for a one-character separator; like Python, never empty. */
  function Split(s: string, sep: char): (r: seq<string>)
    ensures |r| >= 1
    decreases |s|
  {
    if |s| == 0 then [""]
    else if s[0] == sep then [""] + Split(s[1..], sep)
    else
      var rest := Split(s[1..], sep);
      [[s[0]] + rest[0]] + rest[1..]
  }

  /** No piece of a split holds the separator. */
  lemma {:induction false} SplitPiecesLackSep(s: string, sep: char)
    ensures forall p :: p in Split(s, sep) ==> sep !in p
    decreases |s|
  {
    if |s| > 0 {
      SplitPiecesLackSep(s[1..], sep);
      var rest := Split(s[1..], sep);
      if s[0] != sep {
        assert rest[0] in rest;
        assert forall p :: p in rest[1..] ==> p in rest;
      }
    }
  }

  /** A text without the separator splits into itself. */
  lemma {:induction false} SplitWithoutSep(s: string, sep: char)
    requires sep !in s
    ensures Split(s, sep) == [s]
    decreases |s|
  {
    if |s| > 0 {
      assert sep !in s[1..] by {
        forall j | 0 <= j < |s[1..]| ensures s[1..][j] != sep {
          assert s[1..][j] == s[j + 1];
        }
      }
      SplitWithoutSep(s[1..], sep);
      assert [s[0]] + s[1..] == s;
    }
  }

  /** Splitting distributes over a separator occurrence. */
  lemma {:induction false} SplitAroundSep(a: string, b: string, sep: char)
    ensures Split(a + [sep] + b, sep) == Split(a, sep) + Split(b, sep)
    decreases |a|
  {
    if |a| == 0 {
      assert a + [sep] + b == [sep] + b;
      assert ([sep] + b)[1..] == b;
    } else {
      var s := a + [sep] + b;
      assert s[0] == a[0];
      assert s[1..] == a[1..] + [sep] + b;
      SplitAroundSep(a[1..], b, sep);
      if a[0] == sep {
        assert Split(s, sep) == [""] + Split(s[1..], sep);
      } else {
        var restA := Split(a[1..], sep);
        var rest := Split(s[1..], sep);
        assert rest == restA + Split(b, sep);
        assert rest[0] == restA[0];
        assert rest[1..] == restA[1..] + Split(b, sep);
      }
    }
  }

  /**
   * Round trip: joining separator-free parts with a one-character separator
   * and splitting on it gives the parts back.
   */
  lemma {:induction false} SplitJoin(parts: seq<string>, sep: char)
    requires |parts| >= 1
    requires forall p :: p in parts ==> sep !in p
    ensures Split(Join(parts, [sep]), sep) == parts
  {
    if |parts| == 1 {
      SplitWithoutSep(parts[0], sep);
    } else {
      assert parts[0] in parts;
      assert forall p :: p in parts[1..] ==> p in parts;
      SplitJoin(parts[1..], sep);
      SplitAroundSep(parts[0], Join(parts[1..], [sep]), sep);
      SplitWithoutSep(parts[0], sep);
      assert parts == [parts[0]] + parts[1..];
    }
  }

  function LowerChar(c: char): char {
    if 'A' <= c <= 'Z' then (c as int + 32) as char else c
  }

  function UpperChar(c: char): char {
    if 'a' <= c <= 'z' then (c as int - 32) as char else c
  }

  /** `s.lower()` on ASCII letters; other characters are kept. */
  function Lower(s: string): (r: string)
    ensures |r| == |s|
    ensures forall i :: 0 <= i < |s| ==> r[i] == LowerChar(s[i])
  {
    seq(|s|, i requires 0 <= i < |s| => LowerChar(s[i]))
  }

  /** `s.upper()` on ASCII letters; other characters are kept. */
  function Upper(s: string): (r: string)
    ensures |r| == |s|
    ensures forall i :: 0 <= i < |s| ==> r[i] == UpperChar(s[i])
  {
    seq(|s|, i requires 0 <= i < |s| => UpperChar(s[i]))
  }

  /** `s.capitalize()` on ASCII letters: the first character upper-case, the rest lower-case. */
  function Capitalize(s: string): (r: string)
    ensures |r| == |s|
  {
    if s == [] then [] else [UpperChar(s[0])] + Lower(s[1..])
  }

  /** `s.replace(a, b)` for single characters. */
  function ReplaceChar(s: string, a: char, b: char): (r: string)
    ensures |r| == |s|
    ensures a != b ==> a !in r
    ensures forall i :: 0 <= i < |s| ==> r[i] == (if s[i] == a then b else s[i])
  {
    seq(|s|, i requires 0 <= i < |s| => if s[i] == a then b else s[i])
  }

  function DigitChar(d: nat): char
    requires d < 10
  {
    ('0' as int + d) as char
  }

  predicate IsDigit(c: char) {
    '0' <= c <= '9'
  }

  /** `str(n)` for a natural number: its decimal digits, no leading zero. */
  function NatToString(n: nat): (r: string)
    ensures |r| >= 1
    ensures forall i :: 0 <= i < |r| ==> IsDigit(r[i])
    ensures |r| > 1 ==> r[0] != '0'
  {
    if n < 10 then [DigitChar(n)] else NatToString(n / 10) + [DigitChar(n % 10)]
  }

  /** Reads back a string of decimal digits. */
  function DecimalValue(s: string): nat
    requires forall i :: 0 <= i < |s| ==> IsDigit(s[i])
  {
    if s == [] then 0
    else
      assert IsDigit(s[|s| - 1]);
      DecimalValue(s[..|s| - 1]) * 10 + (s[|s| - 1] as int - '0' as int)
  }

  lemma {:induction false} DecimalOfNatToString(n: nat)
    ensures DecimalValue(NatToString(n)) == n
  {
    if n >= 10 {
      DecimalOfNatToString(n / 10);
      var s := NatToString(n);
      assert s[..|s| - 1] == NatToString(n / 10);
    }
  }

  /** `str(i)` for an integer: a minus sign before the digits of a negative. */
  function IntToString(i: int): (r: string)
    ensures i < 0 ==> |r| >= 2 && r[0] == '-' && r[1..] == NatToString(-i)
    ensures i >= 0 ==> r == NatToString(i)
  {
    if i < 0 then "-" + NatToString(-i) else NatToString(i)
  }
}
