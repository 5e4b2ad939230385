/**
 * The two text helpers of the Discord bot: splitting a long message into
 * chunks at line boundaries, and wrapping a post in a code block under an
 * optional bold title.
 */
module Bot {
  import opened Basics
  import opened Strings

  /** The chunk size the bot passes when it splits an export. */
  const DefaultMaxLength := 1900

  /** The state of the splitting loop: the chunks so far and the chunk being filled. */
  datatype Splitting = Splitting(chunks: seq<string>, current: string)

  /**
   * One line of the loop: a line that would push the current chunk past the
   * limit (counting the newline before it) closes that chunk, if it is not
   * empty, and starts the next one; otherwise it joins the current chunk.
   */
  function AddLine(st: Splitting, line: string, maxLength: int): Splitting {
    if |st.current| + |line| + 1 > maxLength then
      Splitting(if st.current != "" then st.chunks + [st.current] else st.chunks, line)
    else
      Splitting(st.chunks, st.current + (if st.current != "" then "\n" else "") + line)
  }

  /** The loop's state after the given lines. */
  function AddLines(lines: seq<string>, maxLength: int): Splitting {
    if lines == [] then Splitting([], "")
    else AddLine(AddLines(lines[..|lines| - 1], maxLength), lines[|lines| - 1], maxLength)
  }

  /** After the loop, a non-empty current chunk is the last chunk. */
  function Finish(st: Splitting): seq<string> {
    if st.current != "" then st.chunks + [st.current] else st.chunks
  }

  /** The chunks `split_message(content, max_length)` returns. */
  function Chunks(content: string, maxLength: int): (r: seq<string>)
    ensures |content| <= maxLength ==> r == [content]
  {
    if |content| <= maxLength then [content]
    else Finish(AddLines(Split(content, '\n'), maxLength))
  }

  /** `split_message(content, max_length)` */
  method SplitMessage(content: string, maxLength: int) returns (chunks: seq<string>)
    ensures chunks == Chunks(content, maxLength)
  {
    if |content| <= maxLength {
      return [content];
    }
    chunks := [];
    var lines := Split(content, '\n');
    var current := "";
    for k := 0 to |lines|
      invariant Splitting(chunks, current) == AddLines(lines[..k], maxLength)
    {
      var line := lines[k];
      assert lines[..k + 1][..k] == lines[..k];
      if |current| + |line| + 1 > maxLength {
        if current != "" {
          chunks := chunks + [current];
        }
        current := line;
      } else {
        current := current + (if current != "" then "\n" else "") + line;
      }
    }
    assert lines[..|lines|] == lines;
    if current != "" {
      chunks := chunks + [current];
    }
  }

  // ---------------------------------------------------------------------
  // No chunk is empty
  // ---------------------------------------------------------------------

  lemma {:induction false} AddLinesChunksNonEmpty(lines: seq<string>, maxLength: int)
    ensures forall c :: c in AddLines(lines, maxLength).chunks ==> c != ""
  {
    if lines != [] {
      AddLinesChunksNonEmpty(lines[..|lines| - 1], maxLength);
    }
  }

  /** A message that has to be split yields no empty chunk. */
  lemma ChunksNonEmpty(content: string, maxLength: int)
    requires |content| > maxLength
    ensures forall c :: c in Chunks(content, maxLength) ==> c != ""
  {
    AddLinesChunksNonEmpty(Split(content, '\n'), maxLength);
  }

  // ---------------------------------------------------------------------
  // Chunk sizes
  // ---------------------------------------------------------------------

  /** The chunk fits the limit, or it is one of the lines on its own. */
  predicate FitsOrLine(c: string, lines: seq<string>, maxLength: int) {
    |c| <= maxLength || c in lines
  }

  lemma {:induction false} AddLinesSizes(lines: seq<string>, maxLength: int)
    ensures AddLines(lines, maxLength).current == "" || FitsOrLine(AddLines(lines, maxLength).current, lines, maxLength)
    ensures forall c :: c in AddLines(lines, maxLength).chunks ==> FitsOrLine(c, lines, maxLength)
  {
    if lines != [] {
      var n := |lines| - 1;
      AddLinesSizes(lines[..n], maxLength);
      assert forall x :: x in lines[..n] ==> x in lines;
      assert lines[n] in lines;
    }
  }

  /**
   * Every chunk fits within `maxLength`, except a single line that is
   * longer than that on its own, which becomes a chunk by itself.
   */
  lemma ChunksFitOrAreLines(content: string, maxLength: int)
    ensures forall c :: c in Chunks(content, maxLength) ==>
      |c| <= maxLength || c in Split(content, '\n')
  {
    if |content| > maxLength {
      AddLinesSizes(Split(content, '\n'), maxLength);
    }
  }

  /** When every line fits, every chunk fits. */
  lemma ChunksFit(content: string, maxLength: int)
    requires forall line :: line in Split(content, '\n') ==> |line| <= maxLength
    ensures forall c :: c in Chunks(content, maxLength) ==> |c| <= maxLength
  {
    ChunksFitOrAreLines(content, maxLength);
  }

  // ---------------------------------------------------------------------
  // Nothing but blank lines is lost
  // ---------------------------------------------------------------------

  /** The non-blank lines, in order. */
  function NonBlank(lines: seq<string>): (r: seq<string>)
    ensures |r| <= |lines|
  {
    if lines == [] then []
    else NonBlank(lines[..|lines| - 1]) + (if lines[|lines| - 1] != "" then [lines[|lines| - 1]] else [])
  }

  lemma {:induction false} NonBlankAppend(a: seq<string>, b: seq<string>)
    ensures NonBlank(a + b) == NonBlank(a) + NonBlank(b)
  {
    if b != [] {
      var n := |b| - 1;
      assert (a + b)[..|a + b| - 1] == a + b[..n];
      NonBlankAppend(a, b[..n]);
    } else {
      assert a + b == a;
    }
  }

  /** The lines of each chunk, one chunk after another. */
  function ChunkLines(chunks: seq<string>): seq<string> {
    if chunks == [] then [] else ChunkLines(chunks[..|chunks| - 1]) + Split(chunks[|chunks| - 1], '\n')
  }

  /** The lines the loop's state holds: those of the closed chunks, then those of the current one. */
  function StateLines(st: Splitting): seq<string> {
    ChunkLines(st.chunks) + Split(st.current, '\n')
  }

  /** Appending one line appends it to the non-blank lines unless it is blank. */
  lemma NonBlankSnoc(lines: seq<string>, line: string)
    ensures NonBlank(lines + [line]) == NonBlank(lines) + (if line != "" then [line] else [])
  {
    assert (lines + [line])[..|lines|] == lines;
  }

  /** A line that lands in an empty current chunk becomes that chunk. */
  lemma AddLineToEmpty(st: Splitting, line: string, maxLength: int)
    requires st.current == "" && '\n' !in line
    ensures StateLines(st) == ChunkLines(st.chunks) + [""]
    ensures StateLines(AddLine(st, line, maxLength)) == ChunkLines(st.chunks) + [line]
  {
    SplitWithoutSep(line, '\n');
    assert AddLine(st, line, maxLength) == Splitting(st.chunks, line);
  }

  /** A line that closes a non-empty chunk starts the next one. */
  lemma AddLineCloses(st: Splitting, line: string, maxLength: int)
    requires st.current != "" && '\n' !in line
    requires |st.current| + |line| + 1 > maxLength
    ensures StateLines(AddLine(st, line, maxLength)) == StateLines(st) + [line]
  {
    var next := AddLine(st, line, maxLength);
    SplitWithoutSep(line, '\n');
    assert next.chunks[..|next.chunks| - 1] == st.chunks;
  }

  /** A line that fits joins the current chunk after a newline. */
  lemma AddLineJoins(st: Splitting, line: string, maxLength: int)
    requires st.current != "" && '\n' !in line
    requires |st.current| + |line| + 1 <= maxLength
    ensures StateLines(AddLine(st, line, maxLength)) == StateLines(st) + [line]
  {
    SplitWithoutSep(line, '\n');
    assert AddLine(st, line, maxLength).current == st.current + ['\n'] + line;
    SplitAroundSep(st.current, line, '\n');
  }

  /** One step of the loop keeps every non-blank line, in order. */
  lemma AddLineKeeps(st: Splitting, line: string, maxLength: int)
    requires '\n' !in line
    ensures NonBlank(StateLines(AddLine(st, line, maxLength))) == NonBlank(StateLines(st)) + (if line != "" then [line] else [])
  {
    if st.current == "" {
      AddLineToEmpty(st, line, maxLength);
      NonBlankSnoc(ChunkLines(st.chunks), "");
      NonBlankSnoc(ChunkLines(st.chunks), line);
    } else {
      if |st.current| + |line| + 1 > maxLength {
        AddLineCloses(st, line, maxLength);
      } else {
        AddLineJoins(st, line, maxLength);
      }
      NonBlankSnoc(StateLines(st), line);
    }
  }

  lemma {:induction false} AddLinesKeep(lines: seq<string>, maxLength: int)
    requires forall i :: 0 <= i < |lines| ==> '\n' !in lines[i]
    ensures NonBlank(StateLines(AddLines(lines, maxLength))) == NonBlank(lines)
  {
    if lines == [] {
      assert StateLines(AddLines(lines, maxLength)) == [""];
    } else {
      var n := |lines| - 1;
      var prev := AddLines(lines[..n], maxLength);
      AddLinesKeep(lines[..n], maxLength);
      AddLineKeeps(prev, lines[n], maxLength);
      assert AddLines(lines, maxLength) == AddLine(prev, lines[n], maxLength);
    }
  }

  /**
   * Splitting loses no text but blank lines: the chunks' non-blank lines
   * are the message's non-blank lines, in the same order.
   */
  lemma ChunksKeepText(content: string, maxLength: int)
    ensures NonBlank(ChunkLines(Chunks(content, maxLength))) == NonBlank(Split(content, '\n'))
  {
    var chunks := Chunks(content, maxLength);
    if |content| <= maxLength {
      assert chunks == [content] && chunks[..|chunks| - 1] == [];
      assert ChunkLines(chunks) == ChunkLines([]) + Split(content, '\n');
      assert [] + Split(content, '\n') == Split(content, '\n');
    } else {
      var lines := Split(content, '\n');
      SplitPiecesLackSep(content, '\n');
      assert forall i :: 0 <= i < |lines| ==> lines[i] in lines;
      AddLinesKeep(lines, maxLength);
      var st := AddLines(lines, maxLength);
      NonBlankAppend(ChunkLines(st.chunks), Split(st.current, '\n'));
      if st.current == "" {
        assert NonBlank(Split(st.current, '\n')) == [];
        assert ChunkLines(st.chunks) + [] == ChunkLines(st.chunks);
      } else {
        assert chunks[..|chunks| - 1] == st.chunks;
      }
    }
  }

  // ---------------------------------------------------------------------
  // format_post_for_discord
  // ---------------------------------------------------------------------

  /** The bold title line and blank line, written only for a non-empty title. */
  function TitleHeader(title: Option<string>): (r: string)
    ensures title.None? || title.value == "" ==> r == ""
    ensures title.Some? && title.value != "" ==> |r| == |title.value| + 6
    ensures title.Some? && title.value != "" ==>
      r[..2] == "**" && r[2..|r| - 4] == title.value && r[|r| - 4..] == "**\n\n"
  {
    if title.Some? && title.value != "" then "**" + title.value + "**\n\n" else ""
  }

  /** `format_post_for_discord(content, title)`: the post in a code block, under the title if there is one. */
  function FormatPostForDiscord(content: string, title: Option<string>): (r: string)
    ensures |r| == |TitleHeader(title)| + |content| + 8
    ensures r[..|TitleHeader(title)|] == TitleHeader(title)
    ensures r[|TitleHeader(title)|..|TitleHeader(title)| + 4] == "```\n"
    ensures r[|TitleHeader(title)| + 4..|r| - 4] == content
    ensures r[|r| - 4..] == "\n```"
  {
    TitleHeader(title) + "```\n" + content + "\n```"
  }
}
